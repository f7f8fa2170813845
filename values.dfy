/**
 * The argument bag a Flutter method call carries (`call.arguments`), as the
 * plugin sees it after `as? Dictionary<String, Any>`, and the conditional
 * casts (`dictionary[key] as? T`) the plugin applies to its entries.
 */
module Values {
  import opened Wrappers

  /** Swift's `Int` on a 64-bit device. */
  newtype Int64 = x: int | -0x8000_0000_0000_0000 <= x < 0x8000_0000_0000_0000

  /**
   * One entry of the bag, by the Swift type it casts to. A list whose
   * elements are not all strings does not cast to `Array<String>`; it is
   * `Other`, like every value of a type the plugin never asks for.
   */
  datatype Value =
    | Str(s: string)
    | Bool(b: bool)
    | Int(i: Int64)
    | StrList(items: seq<string>)
    | Other

  type Args = map<string, Value>

  /** `args[key] as? String` */
  function StringArg(args: Args, key: string): (r: Option<string>)
    ensures r.Some? <==> key in args && args[key].Str?
    ensures r.Some? ==> args[key] == Str(r.value)
  {
    if key in args && args[key].Str? then Some(args[key].s) else None
  }

  /** `args[key] as? Bool` */
  function BoolArg(args: Args, key: string): (r: Option<bool>)
    ensures r.Some? <==> key in args && args[key].Bool?
    ensures r.Some? ==> args[key] == Bool(r.value)
  {
    if key in args && args[key].Bool? then Some(args[key].b) else None
  }

  /** `args[key] as? Int` */
  function IntArg(args: Args, key: string): (r: Option<Int64>)
    ensures r.Some? <==> key in args && args[key].Int?
    ensures r.Some? ==> args[key] == Int(r.value)
  {
    if key in args && args[key].Int? then Some(args[key].i) else None
  }

  /** `args[key] as? Array<String> ?? []`: a missing or mistyped entry reads as the empty list. */
  function StringListOrEmpty(args: Args, key: string): (r: seq<string>)
    ensures key in args && args[key].StrList? ==> r == args[key].items
    ensures !(key in args && args[key].StrList?) ==> r == []
  {
    if key in args && args[key].StrList? then args[key].items else []
  }
}
