/**
 * The repeated groups of a JV-Data record (lap times, per-horse odds,
 * per-horse weights, meeting schedule) are read slot by slot; a slot whose
 * key field is empty is skipped and the others are appended in slot order.
 * `Somes` is that filter over the sequence of decoded slots.
 */
module Slots {
  import opened Wrappers

  /** The values of the filled slots, in slot order. */
  function Somes<T>(s: seq<Option<T>>): (r: seq<T>)
    ensures |r| <= |s|
  {
    if |s| == 0 then []
    else Somes(s[..|s| - 1]) + (if s[|s| - 1].Some? then [s[|s| - 1].value] else [])
  }

  /** Reading one more slot appends its value when it is filled. */
  lemma SomesSnoc<T>(s: seq<Option<T>>, x: Option<T>)
    ensures Somes(s + [x]) == Somes(s) + (if x.Some? then [x.value] else [])
  {
    assert (s + [x])[..|s|] == s;
  }

  /** One more slot of a prefix: its value is appended when it is filled. */
  lemma SomesPrefixStep<T>(s: seq<Option<T>>, i: nat)
    requires i < |s|
    ensures Somes(s[..i + 1]) == Somes(s[..i]) + (if s[i].Some? then [s[i].value] else [])
  {
    assert s[..i + 1] == s[..i] + [s[i]];
    SomesSnoc(s[..i], s[i]);
  }

  /** The filter is a homomorphism: an empty slot in the middle skips only
      itself, it does not cut the group short. */
  lemma {:induction false} SomesAppend<T>(s: seq<Option<T>>, t: seq<Option<T>>)
    ensures Somes(s + t) == Somes(s) + Somes(t)
  {
    if |t| == 0 {
      assert s + t == s;
    } else {
      var t', x := t[..|t| - 1], t[|t| - 1];
      assert s + t == (s + t') + [x];
      assert t == t' + [x];
      SomesAppend(s, t');
      SomesSnoc(s + t', x);
      SomesSnoc(t', x);
    }
  }

  /** Every value produced comes from a filled slot, and every filled slot's
      value is produced. */
  lemma {:induction false} SomesMember<T>(s: seq<Option<T>>, v: T)
    ensures v in Somes(s) <==> Some(v) in s
  {
    if |s| > 0 {
      var s', x := s[..|s| - 1], s[|s| - 1];
      assert s == s' + [x];
      SomesMember(s', v);
    }
  }

  /** The value of filled slot `i` sits at position `|Somes(s[..i])|` of the
      output: the number of filled slots before it. Slots keep their order. */
  lemma {:induction false} SomesAt<T>(s: seq<Option<T>>, i: nat)
    requires i < |s| && s[i].Some?
    ensures |Somes(s[..i])| < |Somes(s)|
    ensures Somes(s)[|Somes(s[..i])|] == s[i].value
  {
    assert s == s[..i] + [s[i]] + s[i + 1..];
    SomesSnoc(s[..i], s[i]);
    SomesAppend(s[..i] + [s[i]], s[i + 1..]);
  }

  /** A later slot never sits earlier in the output. */
  lemma {:induction false} SomesRankMonotone<T>(s: seq<Option<T>>, i: nat, j: nat)
    requires i < j <= |s| && s[i].Some?
    ensures |Somes(s[..i])| < |Somes(s[..j])|
  {
    assert s[..j] == s[..i] + [s[i]] + s[i + 1..j];
    SomesSnoc(s[..i], s[i]);
    SomesAppend(s[..i] + [s[i]], s[i + 1..j]);
  }

  /** Two filled slots appear in the output in the order of their slots. */
  lemma SomesOrder<T>(s: seq<Option<T>>, i: nat, j: nat)
    requires i < j < |s| && s[i].Some? && s[j].Some?
    ensures exists p, q :: 0 <= p < q < |Somes(s)| && Somes(s)[p] == s[i].value && Somes(s)[q] == s[j].value
  {
    SomesAt(s, i);
    SomesAt(s, j);
    SomesRankMonotone(s, i, j);
  }

  /** When no slot is empty, nothing is dropped. */
  lemma {:induction false} SomesAllFilled<T>(s: seq<Option<T>>)
    requires forall i :: 0 <= i < |s| ==> s[i].Some?
    ensures |Somes(s)| == |s|
  {
    if |s| > 0 {
      SomesAllFilled(s[..|s| - 1]);
    }
  }
}
