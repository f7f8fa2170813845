/**
 * What each command of the method channel does to the plugin's optional
 * `chatAPIConfig` record, and what it replies, as functions of the record
 * before the call. The class in plugin.dfy is proved to follow these.
 */
module Session {
  import opened Wrappers
  import opened Values
  import Tags

  datatype VisitorInfo = VisitorInfo(name: string, email: string, phoneNumber: string)

  /** The fields of a `ChatAPIConfiguration` the plugin sets. */
  datatype ChatConfig = ChatConfig(departmentName: Option<string>, visitorInfo: Option<VisitorInfo>, tags: seq<string>)

  /** A newly created `ChatAPIConfiguration`: no department, no visitor, no tags. */
  const Fresh := ChatConfig(None, None, [])

  /**
   * What the plugin's behaviour depends on: whether the Chat SDK's singleton
   * `Chat.instance` exists (it does once `Chat.initialize` has run), and the
   * optional record `chatAPIConfig`.
   */
  datatype PluginState = PluginState(chatReady: bool, config: Option<ChatConfig>)

  /** A newly registered plugin: no SDK instance, no record. */
  const Start := PluginState(false, None)

  /**
   * The states a plugin reaches from `Start`: the SDK instance and the record
   * come into being together, in `initialize`.
   */
  predicate Consistent(s: PluginState) {
    s.chatReady <==> s.config.Some?
  }

  /**
   * A command's effect: the state afterwards, or a crash at the force-unwrap
   * `chatAPIConfig!`. That unwrap is the right-hand side of
   * `Chat.instance?.configuration = chatAPIConfig!`, so Swift evaluates it
   * only when `Chat.instance` exists.
   */
  datatype Effect = Next(state: PluginState) | Crash

  /** `initChatConfig`: create the record only when there is none. */
  function InitChatConfig(config: Option<ChatConfig>): (r: Option<ChatConfig>)
    ensures r.Some?
    ensures config.Some? ==> r == config
  {
    if config.None? then Some(Fresh) else config
  }

  /** The guard of `initialize`: both `accountKey` and `appId` present as strings. */
  function Credentials(args: Args): (r: Option<(string, string)>)
    ensures r.Some? <==> StringArg(args, "accountKey").Some? && StringArg(args, "appId").Some?
  {
    match (StringArg(args, "accountKey"), StringArg(args, "appId"))
    case (Some(accountKey), Some(appId)) => Some((accountKey, appId))
    case _ => None
  }

  /** `initialize`: on valid credentials `Chat.initialize` brings up the SDK instance and the record is created if absent. */
  function Initialize(s: PluginState, args: Args): (r: PluginState)
    ensures Credentials(args).None? ==> r == s
    ensures Credentials(args).Some? ==> r.chatReady && r.config.Some?
    ensures s.config.Some? ==> r.config == s.config
  {
    if Credentials(args).None? then s else PluginState(true, InitChatConfig(s.config))
  }

  /** The guard of `setVisitorInfo`: `name`, `email` and `phoneNumber` all present as strings. */
  function VisitorArgs(args: Args): (r: Option<VisitorInfo>)
    ensures r.Some? <==> StringArg(args, "name").Some? && StringArg(args, "email").Some? && StringArg(args, "phoneNumber").Some?
    ensures r.Some? ==> args["name"] == Str(r.value.name) && args["email"] == Str(r.value.email)
                        && args["phoneNumber"] == Str(r.value.phoneNumber)
  {
    match (StringArg(args, "name"), StringArg(args, "email"), StringArg(args, "phoneNumber"))
    case (Some(name), Some(email), Some(phoneNumber)) => Some(VisitorInfo(name, email, phoneNumber))
    case _ => None
  }

  /** `dictionary["department"] as? String ?? ""` */
  function Department(args: Args): (r: string)
    ensures "department" in args && args["department"].Str? ==> r == args["department"].s
    ensures !("department" in args && args["department"].Str?) ==> r == ""
  {
    StringArg(args, "department").GetOr("")
  }

  /**
   * `setVisitorInfo`: past the guard, the optional-chained assignments do
   * nothing to an absent record, and the force-unwrap that follows crashes
   * only if the SDK instance exists.
   */
  function SetVisitorInfo(s: PluginState, args: Args): (r: Effect)
    ensures VisitorArgs(args).None? ==> r == Next(s)
    ensures r.Crash? <==> VisitorArgs(args).Some? && s.chatReady && s.config.None?
    ensures r.Next? ==> r.state.chatReady == s.chatReady && (r.state.config.Some? <==> s.config.Some?)
    ensures r.Next? && s.config.Some? ==> r.state.config.value.tags == s.config.value.tags
  {
    match VisitorArgs(args)
    case None => Next(s)
    case Some(visitor) =>
      if s.config.None? then (if s.chatReady then Crash else Next(s))
      else Next(s.(config := Some(s.config.value.(departmentName := Some(Department(args)), visitorInfo := Some(visitor)))))
  }

  /** `addTags`: append the supplied tags (none when `tags` is missing or not a list of strings). */
  function AddTags(s: PluginState, args: Args): (r: Effect)
    ensures r.Crash? <==> s.chatReady && s.config.None?
    ensures s.config.None? && !s.chatReady ==> r == Next(s)
    ensures r.Next? && s.config.Some? ==>
      r.state.chatReady == s.chatReady && r.state.config.Some? &&
      |s.config.value.tags| <= |r.state.config.value.tags| &&
      r.state.config.value.tags[..|s.config.value.tags|] == s.config.value.tags
  {
    if s.config.None? then (if s.chatReady then Crash else Next(s))
    else Next(s.(config := Some(s.config.value.(tags := s.config.value.tags + StringListOrEmpty(args, "tags")))))
  }

  /** `removeTags`: drop every occurrence of every supplied tag. */
  function RemoveTags(s: PluginState, args: Args): (r: Effect)
    ensures r.Crash? <==> s.chatReady && s.config.None?
    ensures s.config.None? && !s.chatReady ==> r == Next(s)
    ensures r.Next? && s.config.Some? ==>
      r.state.chatReady == s.chatReady && r.state.config.Some? &&
      forall t :: t in StringListOrEmpty(args, "tags") ==> t !in r.state.config.value.tags
  {
    if s.config.None? then (if s.chatReady then Crash else Next(s))
    else Next(s.(config := Some(s.config.value.(tags := Tags.Without(s.config.value.tags, StringListOrEmpty(args, "tags"))))))
  }

  /** A reply sent back over the channel. */
  datatype Reply = Flag(b: bool) | Text(s: string)

  datatype Response = Replied(reply: Reply) | Crashed

  /** The state after a call, and the call's response. */
  datatype Outcome = Outcome(state: PluginState, response: Response)

  /** The commands that force-unwrap the argument dictionary and reply `true`. */
  const Acknowledged: set<string> := {"initialize", "setVisitorInfo", "startChat", "addTags", "removeTags"}

  /** The effect of an acknowledged command; `startChat` acts only on SDK and UIKit objects. */
  function Apply(s: PluginState, name: string, args: Args): (r: Effect)
    requires name in Acknowledged
    ensures name in {"initialize", "startChat"} ==> r.Next?
    ensures name == "startChat" ==> r == Next(s)
    ensures r.Crash? ==> s.chatReady && s.config.None?
  {
    match name
    case "initialize" => Next(Initialize(s, args))
    case "setVisitorInfo" => SetVisitorInfo(s, args)
    case "addTags" => AddTags(s, args)
    case "removeTags" => RemoveTags(s, args)
    case _ => Next(s)
  }

  /**
   * `handle(_:result:)`. `arguments` is `call.arguments as? Dictionary<String, Any>`,
   * absent when the call carried no dictionary; `systemVersion` is the
   * device's `UIDevice.current.systemVersion`.
   */
  function Handle(s: PluginState, name: string, arguments: Option<Args>, systemVersion: string): (r: Outcome)
    ensures r.response.Crashed? ==> r.state == s && name in Acknowledged
    ensures r.response.Replied? && r.response.reply.Text? <==> name !in Acknowledged
    ensures name !in Acknowledged ==> r.state == s
  {
    if name == "getPlatformVersion" then
      Outcome(s, Replied(Text("iOS yo " + systemVersion)))
    else if name in Acknowledged then
      if arguments.None? then Outcome(s, Crashed)
      else match Apply(s, name, arguments.value)
        case Crash => Outcome(s, Crashed)
        case Next(next) => Outcome(next, Replied(Flag(true)))
    else
      Outcome(s, Replied(Text("iOS " + systemVersion)))
  }

  /** The department, visitor and tags the plugin holds; nothing when there is no record. */
  function DepartmentOf(s: PluginState): Option<string> {
    if s.config.None? then None else s.config.value.departmentName
  }

  function VisitorOf(s: PluginState): Option<VisitorInfo> {
    if s.config.None? then None else s.config.value.visitorInfo
  }

  function TagsOf(s: PluginState): seq<string> {
    if s.config.None? then [] else s.config.value.tags
  }

  // ---------------------------------------------------------------------
  // Properties of single calls

  /** The five acknowledged commands reply `true` unless they crash, whether or not their guards passed. */
  lemma AcknowledgedReplyTrue(s: PluginState, name: string, arguments: Option<Args>, v: string)
    requires name in Acknowledged
    ensures Handle(s, name, arguments, v).response in {Crashed, Replied(Flag(true))}
  {
  }

  /** `startChat` with a dictionary never touches the state and always replies `true`, even when building the UI throws. */
  lemma StartChatKeepsRecord(s: PluginState, args: Args, v: string)
    ensures Handle(s, "startChat", Some(args), v) == Outcome(s, Replied(Flag(true)))
  {
  }

  /** `getPlatformVersion` needs no dictionary and changes nothing. */
  lemma PlatformVersionReply(s: PluginState, arguments: Option<Args>, v: string)
    ensures Handle(s, "getPlatformVersion", arguments, v) == Outcome(s, Replied(Text("iOS yo " + v)))
  {
  }

  /** Every other name replies with the fallback version string and changes nothing. */
  lemma UnknownCommandEchoes(s: PluginState, name: string, arguments: Option<Args>, v: string)
    requires name !in Acknowledged && name != "getPlatformVersion"
    ensures Handle(s, name, arguments, v) == Outcome(s, Replied(Text("iOS " + v)))
  {
  }

  /**
   * Exactly when a call crashes: no dictionary for an acknowledged command,
   * or a force-unwrap of an absent record while the SDK instance exists.
   */
  lemma CrashesExactly(s: PluginState, name: string, arguments: Option<Args>, v: string)
    ensures Handle(s, name, arguments, v).response.Crashed? <==>
      name in Acknowledged &&
      (arguments.None? ||
       (s.chatReady && s.config.None? &&
        (name in {"addTags", "removeTags"} || (name == "setVisitorInfo" && VisitorArgs(arguments.value).Some?))))
  {
  }

  /** From any state a plugin can reach, a call with a dictionary never crashes. */
  lemma ConsistentNeverCrashesWithDictionary(s: PluginState, name: string, args: Args, v: string)
    requires Consistent(s)
    ensures Handle(s, name, Some(args), v).response.Replied?
    ensures Consistent(Handle(s, name, Some(args), v).state)
  {
  }

  /**
   * Before any successful `initialize`, the record commands find neither an
   * SDK instance nor a record: they change nothing and reply `true`.
   */
  lemma RecordCommandsBeforeInitialize(name: string, args: Args, v: string)
    requires name in {"setVisitorInfo", "addTags", "removeTags"}
    ensures Handle(Start, name, Some(args), v) == Outcome(Start, Replied(Flag(true)))
  {
  }

  /** `initialize` without both credentials as strings changes nothing and still replies `true`. */
  lemma InitializeGuard(s: PluginState, args: Args, v: string)
    requires StringArg(args, "accountKey").None? || StringArg(args, "appId").None?
    ensures Handle(s, "initialize", Some(args), v) == Outcome(s, Replied(Flag(true)))
  {
  }

  /** `initialize` with both credentials leaves the SDK instance and a record; an existing record is kept as it was. */
  lemma InitializeKeepsRecord(s: PluginState, args: Args, v: string)
    requires Credentials(args).Some?
    ensures var o := Handle(s, "initialize", Some(args), v);
      o.response == Replied(Flag(true)) && o.state.chatReady &&
      (s.config.Some? ==> o.state.config == s.config) &&
      (s.config.None? ==> o.state.config == Some(Fresh))
  {
  }

  /** A second `initialize` keeps the tags, department and visitor set since the first. */
  lemma SecondInitializeKeeps(s: PluginState, args1: Args, args2: Args, v: string)
    requires Credentials(args1).Some?
    ensures var first := Handle(s, "initialize", Some(args1), v).state;
            Handle(first, "initialize", Some(args2), v).state == first
  {
  }

  /** `setVisitorInfo` missing a visitor field as a string changes nothing. */
  lemma SetVisitorInfoGuard(s: PluginState, args: Args, v: string)
    requires VisitorArgs(args).None?
    ensures Handle(s, "setVisitorInfo", Some(args), v) == Outcome(s, Replied(Flag(true)))
  {
  }

  /**
   * `setVisitorInfo` past its guard on an existing record: the visitor is
   * exactly the supplied one, the department the supplied string or "",
   * and the tags are untouched.
   */
  lemma SetVisitorInfoSets(s: PluginState, args: Args, v: string)
    requires s.config.Some? && VisitorArgs(args).Some?
    ensures var o := Handle(s, "setVisitorInfo", Some(args), v);
      o.response == Replied(Flag(true)) && o.state.chatReady == s.chatReady && o.state.config.Some? &&
      o.state.config.value.visitorInfo == Some(VisitorInfo(StringArg(args, "name").value, StringArg(args, "email").value,
                                                           StringArg(args, "phoneNumber").value)) &&
      (StringArg(args, "department").Some? ==> o.state.config.value.departmentName == StringArg(args, "department")) &&
      (StringArg(args, "department").None? ==> o.state.config.value.departmentName == Some("")) &&
      o.state.config.value.tags == s.config.value.tags
  {
  }

  /**
   * `addTags` on an existing record: the old tags followed by the supplied
   * ones, in order, duplicates kept; department and visitor untouched.
   */
  lemma AddTagsAppends(s: PluginState, args: Args, v: string)
    requires s.config.Some? && "tags" in args && args["tags"].StrList?
    ensures var o := Handle(s, "addTags", Some(args), v);
      var old_tags, added := s.config.value.tags, args["tags"].items;
      o.response == Replied(Flag(true)) && o.state.chatReady == s.chatReady && o.state.config.Some? &&
      |o.state.config.value.tags| == |old_tags| + |added| &&
      o.state.config.value.tags[..|old_tags|] == old_tags && o.state.config.value.tags[|old_tags|..] == added &&
      (forall t :: Tags.Occurrences(o.state.config.value.tags, t) == Tags.Occurrences(old_tags, t) + Tags.Occurrences(added, t)) &&
      o.state.config.value.departmentName == s.config.value.departmentName &&
      o.state.config.value.visitorInfo == s.config.value.visitorInfo
  {
    var o := Handle(s, "addTags", Some(args), v);
    assert o.state.config.value.tags == s.config.value.tags + args["tags"].items;
  }

  /** `addTags` with `tags` missing or not a list of strings leaves an existing record as it was. */
  lemma AddTagsNothingSupplied(s: PluginState, args: Args, v: string)
    requires s.config.Some? && !("tags" in args && args["tags"].StrList?)
    ensures Handle(s, "addTags", Some(args), v) == Outcome(s, Replied(Flag(true)))
  {
    assert s.config.value.tags + [] == s.config.value.tags;
  }

  /**
   * `removeTags` on an existing record: no listed tag is left, every
   * unlisted tag keeps all its occurrences, department and visitor untouched.
   */
  lemma RemoveTagsFilters(s: PluginState, args: Args, v: string)
    requires s.config.Some?
    ensures var o := Handle(s, "removeTags", Some(args), v);
      var drop := StringListOrEmpty(args, "tags");
      o.response == Replied(Flag(true)) && o.state.chatReady == s.chatReady && o.state.config.Some? &&
      (forall t :: t in drop ==> t !in o.state.config.value.tags) &&
      (forall t :: t !in drop ==> Tags.Occurrences(o.state.config.value.tags, t) == Tags.Occurrences(s.config.value.tags, t)) &&
      o.state.config.value.departmentName == s.config.value.departmentName &&
      o.state.config.value.visitorInfo == s.config.value.visitorInfo
  {
    var o := Handle(s, "removeTags", Some(args), v);
    var drop := StringListOrEmpty(args, "tags");
    forall t
      ensures Tags.Occurrences(o.state.config.value.tags, t) == if t in drop then 0 else Tags.Occurrences(s.config.value.tags, t)
    {
      Tags.WithoutOccurrences(s.config.value.tags, drop, t);
    }
  }

  /** `removeTags` twice with the same arguments is `removeTags` once. */
  lemma RemoveTagsIdempotent(s: PluginState, args: Args, v: string)
    ensures var once := Handle(s, "removeTags", Some(args), v);
            Handle(once.state, "removeTags", Some(args), v) == once
  {
    if s.config.Some? {
      Tags.WithoutIdempotent(s.config.value.tags, StringListOrEmpty(args, "tags"));
    }
  }

  // ---------------------------------------------------------------------
  // Sequences of calls

  /** One incoming method call. */
  datatype Call = Call(name: string, arguments: Option<Args>)

  /** The state after a run of calls, the replies sent, and whether the run ended in a crash. */
  datatype Run = Run(state: PluginState, replies: seq<Reply>, crashed: bool)

  /** The plugin handles calls one at a time, in order; a crash ends the process. */
  function RunCalls(s: PluginState, calls: seq<Call>, v: string): (r: Run)
    ensures |r.replies| <= |calls|
    ensures !r.crashed ==> |r.replies| == |calls|
    decreases |calls|
  {
    if calls == [] then Run(s, [], false)
    else
      var o := Handle(s, calls[0].name, calls[0].arguments, v);
      match o.response
      case Crashed => Run(o.state, [], true)
      case Replied(reply) =>
        var rest := RunCalls(o.state, calls[1..], v);
        Run(rest.state, [reply] + rest.replies, rest.crashed)
  }

  /**
   * A run from a state the plugin can reach crashes only at an acknowledged
   * command that carries no argument dictionary: the force-unwraps of the
   * record never fire, and the state stays reachable.
   */
  lemma {:induction false} CrashOnlyWithoutDictionary(s: PluginState, calls: seq<Call>, v: string)
    requires Consistent(s)
    ensures Consistent(RunCalls(s, calls, v).state)
    ensures RunCalls(s, calls, v).crashed ==>
      exists i :: 0 <= i < |calls| && calls[i].name in Acknowledged && calls[i].arguments.None?
    decreases |calls|
  {
    if calls != [] {
      var o := Handle(s, calls[0].name, calls[0].arguments, v);
      if calls[0].arguments.Some? {
        ConsistentNeverCrashesWithDictionary(s, calls[0].name, calls[0].arguments.value, v);
      }
      if o.response.Replied? {
        CrashOnlyWithoutDictionary(o.state, calls[1..], v);
        var rest := RunCalls(o.state, calls[1..], v);
        if rest.crashed {
          var i :| 0 <= i < |calls[1..]| && calls[1..][i].name in Acknowledged && calls[1..][i].arguments.None?;
          assert calls[i + 1] == calls[1..][i];
        }
      }
    }
  }

  /** A newly registered plugin crashes only at a call that carries no dictionary. */
  lemma FromStartCrashOnlyWithoutDictionary(calls: seq<Call>, v: string)
    ensures RunCalls(Start, calls, v).crashed ==>
      exists i :: 0 <= i < |calls| && calls[i].name in Acknowledged && calls[i].arguments.None?
  {
    CrashOnlyWithoutDictionary(Start, calls, v);
  }

  /** Once created, the record is never dropped. */
  lemma {:induction false} RecordPersists(s: PluginState, calls: seq<Call>, v: string)
    requires s.config.Some?
    ensures RunCalls(s, calls, v).state.config.Some?
    decreases |calls|
  {
    if calls != [] {
      var o := Handle(s, calls[0].name, calls[0].arguments, v);
      if o.response.Replied? {
        RecordPersists(o.state, calls[1..], v);
      }
    }
  }

  /** Department and visitor change only through `setVisitorInfo`. */
  lemma {:induction false} VisitorOnlyBySetVisitorInfo(s: PluginState, calls: seq<Call>, v: string)
    requires forall i :: 0 <= i < |calls| ==> calls[i].name != "setVisitorInfo"
    ensures VisitorOf(RunCalls(s, calls, v).state) == VisitorOf(s)
    ensures DepartmentOf(RunCalls(s, calls, v).state) == DepartmentOf(s)
    decreases |calls|
  {
    if calls != [] {
      var o := Handle(s, calls[0].name, calls[0].arguments, v);
      assert VisitorOf(o.state) == VisitorOf(s) && DepartmentOf(o.state) == DepartmentOf(s);
      if o.response.Replied? {
        VisitorOnlyBySetVisitorInfo(o.state, calls[1..], v);
      }
    }
  }

  /** The tags change only through `addTags` and `removeTags`. */
  lemma {:induction false} TagsOnlyByTagCommands(s: PluginState, calls: seq<Call>, v: string)
    requires forall i :: 0 <= i < |calls| ==> calls[i].name !in {"addTags", "removeTags"}
    ensures TagsOf(RunCalls(s, calls, v).state) == TagsOf(s)
    decreases |calls|
  {
    if calls != [] {
      var o := Handle(s, calls[0].name, calls[0].arguments, v);
      assert TagsOf(o.state) == TagsOf(s);
      if o.response.Replied? {
        TagsOnlyByTagCommands(o.state, calls[1..], v);
      }
    }
  }

  /** A call with a single argument. */
  function CallWith(name: string, key: string, value: Value): Call {
    Call(name, Some(map[key := value]))
  }

  const InitCall := Call("initialize", Some(map["accountKey" := Str("a"), "appId" := Str("b")]))

  /** A call that replies `true` and leaves `next` starts a run that continues from `next`. */
  lemma {:induction false} RunStep(s: PluginState, next: PluginState, call: Call, calls: seq<Call>, v: string)
    requires Handle(s, call.name, call.arguments, v) == Outcome(next, Replied(Flag(true)))
    ensures RunCalls(s, [call] + calls, v)
         == Run(RunCalls(next, calls, v).state, [Flag(true)] + RunCalls(next, calls, v).replies, RunCalls(next, calls, v).crashed)
  {
    assert ([call] + calls)[0] == call;
    assert ([call] + calls)[1..] == calls;
  }

  const AddXY := CallWith("addTags", "tags", StrList(["x", "y"]))
  const AddY := CallWith("addTags", "tags", StrList(["y"]))
  const RemoveY := CallWith("removeTags", "tags", StrList(["y"]))

  /** The calls of the scenario below, one at a time. */
  lemma InitStep(v: string)
    ensures Handle(Start, InitCall.name, InitCall.arguments, v) == Outcome(PluginState(true, Some(Fresh)), Replied(Flag(true)))
  {
    assert Credentials(InitCall.arguments.value) == Some(("a", "b"));
  }

  lemma AddXYStep(v: string)
    ensures Handle(PluginState(true, Some(Fresh)), AddXY.name, AddXY.arguments, v)
         == Outcome(PluginState(true, Some(Fresh.(tags := ["x", "y"]))), Replied(Flag(true)))
  {
    assert StringListOrEmpty(AddXY.arguments.value, "tags") == ["x", "y"];
    assert Fresh.tags + ["x", "y"] == ["x", "y"];
  }

  lemma AddYStep(v: string)
    ensures Handle(PluginState(true, Some(Fresh.(tags := ["x", "y"]))), AddY.name, AddY.arguments, v)
         == Outcome(PluginState(true, Some(Fresh.(tags := ["x", "y", "y"]))), Replied(Flag(true)))
  {
    assert StringListOrEmpty(AddY.arguments.value, "tags") == ["y"];
    assert ["x", "y"] + ["y"] == ["x", "y", "y"];
  }

  lemma RemoveYStep(v: string)
    ensures Handle(PluginState(true, Some(Fresh.(tags := ["x", "y", "y"]))), RemoveY.name, RemoveY.arguments, v)
         == Outcome(PluginState(true, Some(Fresh.(tags := ["x"]))), Replied(Flag(true)))
  {
    assert StringListOrEmpty(RemoveY.arguments.value, "tags") == ["y"];
    assert Tags.Without(["x", "y", "y"], ["y"]) == ["x"] by {
      assert ["x", "y", "y"][1..] == ["y", "y"];
      assert ["y", "y"][1..] == ["y"];
    }
  }

  /**
   * A host that initialises, adds ["x", "y"], adds ["y"] and removes ["y"]:
   * duplicates are kept by `addTags` and every occurrence goes with `removeTags`.
   */
  lemma TagScenario(v: string)
    ensures RunCalls(Start, [InitCall, AddXY, AddY], v)
         == Run(PluginState(true, Some(Fresh.(tags := ["x", "y", "y"]))), [Flag(true), Flag(true), Flag(true)], false)
    ensures RunCalls(Start, [InitCall, AddXY, AddY, RemoveY], v).state == PluginState(true, Some(Fresh.(tags := ["x"])))
  {
    var c1, c2 := PluginState(true, Some(Fresh)), PluginState(true, Some(Fresh.(tags := ["x", "y"])));
    var c3, c4 := PluginState(true, Some(Fresh.(tags := ["x", "y", "y"]))), PluginState(true, Some(Fresh.(tags := ["x"])));
    InitStep(v);
    AddXYStep(v);
    AddYStep(v);
    RemoveYStep(v);
    RunStep(c3, c4, RemoveY, [], v);
    RunStep(c2, c3, AddY, [], v);
    RunStep(c2, c3, AddY, [RemoveY], v);
    RunStep(c1, c2, AddXY, [AddY], v);
    RunStep(c1, c2, AddXY, [AddY, RemoveY], v);
    RunStep(Start, c1, InitCall, [AddXY, AddY], v);
    RunStep(Start, c1, InitCall, [AddXY, AddY, RemoveY], v);
    assert [InitCall] + ([AddXY] + [AddY]) == [InitCall, AddXY, AddY];
    assert [InitCall] + ([AddXY] + ([AddY] + [RemoveY])) == [InitCall, AddXY, AddY, RemoveY];
  }

  /** Adding tags before any `initialize` is ignored: no SDK instance, no record, reply `true`. */
  lemma AddTagsBeforeInitializeIgnored(args: Args, calls: seq<Call>, v: string)
    ensures RunCalls(Start, [Call("addTags", Some(args))] + calls, v)
         == Run(RunCalls(Start, calls, v).state, [Flag(true)] + RunCalls(Start, calls, v).replies, RunCalls(Start, calls, v).crashed)
  {
    RecordCommandsBeforeInitialize("addTags", args, v);
    RunStep(Start, Start, Call("addTags", Some(args)), calls, v);
  }
}
