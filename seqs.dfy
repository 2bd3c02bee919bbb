/**
 * Order-preserving selection over sequences, the semantics of JavaScript's
 * `Array.prototype.filter` on a callback without side effects.
 */
module Seqs {

  /** The elements of `s` that satisfy `p`, in their original order. */
  function Filter<T>(s: seq<T>, p: T -> bool): (r: seq<T>)
    ensures |r| <= |s|
    ensures forall i :: 0 <= i < |r| ==> r[i] in s && p(r[i])
    ensures forall i :: 0 <= i < |s| && p(s[i]) ==> s[i] in r
  {
    if s == [] then []
    else (if p(s[0]) then [s[0]] else []) + Filter(s[1..], p)
  }

  /** Strictly increasing positions. */
  predicate Increasing(idx: seq<nat>)
  {
    forall k, l :: 0 <= k < l < |idx| ==> idx[k] < idx[l]
  }

  /**
   * `Filter(s, p)` is `s` read at an increasing list of positions, and those
   * positions are exactly the ones whose element satisfies `p`: nothing that
   * satisfies `p` is dropped, nothing else is kept, and the order is kept.
   */
  lemma {:induction false} FilterPositions<T>(s: seq<T>, p: T -> bool) returns (idx: seq<nat>)
    ensures |idx| == |Filter(s, p)|
    ensures forall k :: 0 <= k < |idx| ==> idx[k] < |s| && Filter(s, p)[k] == s[idx[k]]
    ensures Increasing(idx)
    ensures forall i :: 0 <= i < |s| ==> (i in idx <==> p(s[i]))
  {
    if s == [] {
      idx := [];
    } else {
      var rest := FilterPositions(s[1..], p);
      idx := Extend(rest, p(s[0]));
      ExtendIncreasing(rest, p(s[0]));
      ExtendValues(s, p, rest);
      ExtendMembers(s, p, rest);
    }
  }

  /** The positions `rest` of `s[1..]` read as positions of `s`, preceded by 0 when `s[0]` is kept. */
  function Extend(rest: seq<nat>, keepFirst: bool): (idx: seq<nat>)
    ensures |idx| == |rest| + (if keepFirst then 1 else 0)
  {
    var shifted := seq(|rest|, k requires 0 <= k < |rest| => rest[k] + 1);
    if keepFirst then [0] + shifted else shifted
  }

  lemma ExtendIncreasing(rest: seq<nat>, keepFirst: bool)
    requires Increasing(rest)
    ensures Increasing(Extend(rest, keepFirst))
  {
  }

  lemma ExtendValues<T>(s: seq<T>, p: T -> bool, rest: seq<nat>)
    requires s != []
    requires |rest| == |Filter(s[1..], p)|
    requires forall k :: 0 <= k < |rest| ==> rest[k] < |s[1..]| && Filter(s[1..], p)[k] == s[1..][rest[k]]
    ensures |Extend(rest, p(s[0]))| == |Filter(s, p)|
    ensures forall k :: 0 <= k < |Extend(rest, p(s[0]))| ==>
      Extend(rest, p(s[0]))[k] < |s| && Filter(s, p)[k] == s[Extend(rest, p(s[0]))[k]]
  {
    ReadAtExtended(s, Filter(s, p), Filter(s[1..], p), rest, p(s[0]));
  }

  /** The positions `Extend(rest, keepFirst)` read `s` as `rest` reads `s[1..]`, after `s[0]` when it is kept. */
  lemma ReadAtExtended<T>(s: seq<T>, r: seq<T>, tail: seq<T>, rest: seq<nat>, keepFirst: bool)
    requires s != []
    requires r == (if keepFirst then [s[0]] else []) + tail
    requires |rest| == |tail|
    requires forall k :: 0 <= k < |rest| ==> rest[k] < |s[1..]| && tail[k] == s[1..][rest[k]]
    ensures |Extend(rest, keepFirst)| == |r|
    ensures forall k :: 0 <= k < |Extend(rest, keepFirst)| ==>
      Extend(rest, keepFirst)[k] < |s| && r[k] == s[Extend(rest, keepFirst)[k]]
  {
    var idx := Extend(rest, keepFirst);
    var d := if keepFirst then 1 else 0;
    forall k | 0 <= k < |idx| ensures idx[k] < |s| && r[k] == s[idx[k]] {
      if k < d {
        assert idx[k] == 0 && r[k] == s[0];
      } else {
        assert idx[k] == rest[k - d] + 1;
        assert r[k] == tail[k - d] == s[1..][rest[k - d]];
      }
    }
  }

  lemma ExtendMembers<T>(s: seq<T>, p: T -> bool, rest: seq<nat>)
    requires s != []
    requires forall i :: 0 <= i < |s[1..]| ==> (i in rest <==> p(s[1..][i]))
    ensures forall i :: 0 <= i < |s| ==> (i in Extend(rest, p(s[0])) <==> p(s[i]))
  {
    var idx := Extend(rest, p(s[0]));
    forall i | 0 <= i < |s| ensures i in idx <==> p(s[i]) {
      if i in idx {
        var k :| 0 <= k < |idx| && idx[k] == i;
        if i > 0 {
          var j := if p(s[0]) then k - 1 else k;
          assert rest[j] == i - 1;
          assert s[1..][i - 1] == s[i];
        }
      }
      if p(s[i]) && i > 0 {
        assert s[1..][i - 1] == s[i];
        var j :| 0 <= j < |rest| && rest[j] == i - 1;
        var k := if p(s[0]) then j + 1 else j;
        assert idx[k] == i;
      }
      if i == 0 && p(s[0]) {
        assert idx[0] == 0;
      }
    }
  }

  /** Filtering by a predicate that every element satisfies changes nothing. */
  lemma {:induction false} FilterKeepsAll<T>(s: seq<T>, p: T -> bool)
    requires forall i :: 0 <= i < |s| ==> p(s[i])
    ensures Filter(s, p) == s
  {
    if s != [] {
      FilterKeepsAll(s[1..], p);
    }
  }

  /** Filtering by a predicate that no element satisfies leaves nothing. */
  lemma FilterKeepsNone<T>(s: seq<T>, p: T -> bool)
    requires forall i :: 0 <= i < |s| ==> !p(s[i])
    ensures Filter(s, p) == []
  {
  }

  /** A second pass of the same filter is the identity. */
  lemma FilterIdempotent<T>(s: seq<T>, p: T -> bool)
    ensures Filter(Filter(s, p), p) == Filter(s, p)
  {
    FilterKeepsAll(Filter(s, p), p);
  }
}
