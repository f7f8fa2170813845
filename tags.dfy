/**
 * The tag list of the chat configuration. `addTags` appends with
 * `tags.append(contentsOf:)`; `removeTags` filters in place with
 * `tags.removeAll(where: { drop.contains($0) })`. `Without` is the list that
 * filter leaves.
 */
module Tags {

  /** Count of `t` in `s`. */
  function Occurrences(s: seq<string>, t: string): nat {
    multiset(s)[t]
  }

  /** The tags of `tags` that are not in `drop`, in their original order. */
  function Without(tags: seq<string>, drop: seq<string>): (r: seq<string>)
    ensures |r| <= |tags|
    ensures forall i :: 0 <= i < |r| ==> r[i] in tags && r[i] !in drop
    ensures forall i :: 0 <= i < |tags| && tags[i] !in drop ==> tags[i] in r
  {
    if tags == [] then []
    else if tags[0] in drop then Without(tags[1..], drop)
    else [tags[0]] + Without(tags[1..], drop)
  }

  /** Filtering distributes over concatenation: every kept tag keeps its place relative to the others. */
  lemma {:induction false} WithoutConcat(a: seq<string>, b: seq<string>, drop: seq<string>)
    ensures Without(a + b, drop) == Without(a, drop) + Without(b, drop)
  {
    if a == [] {
      assert a + b == b;
    } else {
      assert (a + b)[0] == a[0];
      assert (a + b)[1..] == a[1..] + b;
      WithoutConcat(a[1..], b, drop);
    }
  }

  /** A list none of whose tags is listed comes through unchanged. */
  lemma {:induction false} WithoutNothingListed(tags: seq<string>, drop: seq<string>)
    requires forall i :: 0 <= i < |tags| ==> tags[i] !in drop
    ensures Without(tags, drop) == tags
  {
    if tags != [] {
      WithoutNothingListed(tags[1..], drop);
    }
  }

  /** Removing the same tags twice is removing them once. */
  lemma WithoutIdempotent(tags: seq<string>, drop: seq<string>)
    ensures Without(Without(tags, drop), drop) == Without(tags, drop)
  {
    WithoutNothingListed(Without(tags, drop), drop);
  }

  /** A listed tag has no occurrence left; an unlisted one keeps every occurrence. */
  lemma {:induction false} WithoutOccurrences(tags: seq<string>, drop: seq<string>, t: string)
    ensures Occurrences(Without(tags, drop), t) == if t in drop then 0 else Occurrences(tags, t)
  {
    if tags != [] {
      assert tags == [tags[0]] + tags[1..];
      WithoutOccurrences(tags[1..], drop, t);
    }
  }

  /** Tags added and then removed by the same list leave the earlier list filtered: adding cannot smuggle a listed tag past a removal. */
  lemma AddedThenRemoved(tags: seq<string>, added: seq<string>, drop: seq<string>)
    requires forall i :: 0 <= i < |added| ==> added[i] in drop
    ensures Without(tags + added, drop) == Without(tags, drop)
  {
    WithoutConcat(tags, added, drop);
    WithoutAllListed(added, drop);
  }

  /** A list all of whose tags are listed is emptied. */
  lemma {:induction false} WithoutAllListed(tags: seq<string>, drop: seq<string>)
    requires forall i :: 0 <= i < |tags| ==> tags[i] in drop
    ensures Without(tags, drop) == []
  {
    if tags != [] {
      WithoutAllListed(tags[1..], drop);
    }
  }
}
