/**
 * Id lists built the way the plugins build them: by appending an id only when it is
 * not already in the list (`if id not in ids: ids.append(id)`).
 */
module Sequences {
  import opened Records

  /** Appending two batches one after the other is appending them together. */
  lemma AppendAssoc<T>(a: seq<T>, b: seq<T>, c: seq<T>)
    ensures (a + b) + c == a + (b + c)
  {
  }

  predicate NoDup(s: seq<Id>)
  {
    forall i, j :: 0 <= i < j < |s| ==> s[i] != s[j]
  }

  /**
   * The list obtained by walking `s` from the front and appending each element
   * that the list does not hold yet. Defined from the back so that it follows a
   * loop that has processed a prefix of `s`.
   */
  function Dedup(s: seq<Id>): (r: seq<Id>)
    ensures NoDup(r)
    ensures forall x :: x in r <==> x in s
    ensures |r| <= |s|
  {
    if s == [] then []
    else
      var front := s[..|s| - 1];
      var d := Dedup(front);
      assert forall x :: x in s <==> x in front || x == s[|s| - 1] by {
        assert s == front + [s[|s| - 1]];
      }
      if s[|s| - 1] in d then d else d + [s[|s| - 1]]
  }

  /** One more step of the appending loop. */
  lemma DedupSnoc(s: seq<Id>, x: Id)
    ensures Dedup(s + [x]) == if x in Dedup(s) then Dedup(s) else Dedup(s) + [x]
  {
    assert (s + [x])[..|s|] == s;
  }

  /**
   * The appending loop over one batch `xs`: each element the list does not hold yet
   * is appended. `ids` is the list built from `before`.
   */
  method AppendNew(ids: seq<Id>, xs: seq<Id>, ghost before: seq<Id>) returns (r: seq<Id>)
    requires ids == Dedup(before)
    ensures r == Dedup(before + xs)
  {
    r := ids;
    assert before + xs[..0] == before;
    for j := 0 to |xs|
      invariant r == Dedup(before + xs[..j])
    {
      var x := xs[j];
      assert before + xs[..j + 1] == (before + xs[..j]) + [x];
      DedupSnoc(before + xs[..j], x);
      if x !in r {
        r := r + [x];
      }
    }
    assert xs[..|xs|] == xs;
  }

  /** The position of the first occurrence of `x` in `s`. */
  function FirstIndex(s: seq<Id>, x: Id): (i: nat)
    requires x in s
    ensures i < |s| && s[i] == x && x !in s[..i]
  {
    if s[0] == x then 0
    else
      var k := FirstIndex(s[1..], x);
      assert s[1..][..k] == s[1..k + 1];
      1 + k
  }

  /** An index holding `x` with no `x` before it is the first index. */
  lemma FirstIndexUnique(s: seq<Id>, x: Id, i: nat)
    requires i < |s| && s[i] == x && x !in s[..i]
    ensures FirstIndex(s, x) == i
  {
    var f := FirstIndex(s, x);
    assert forall k :: 0 <= k < i ==> s[..i][k] == s[k];
    assert forall k :: 0 <= k < f ==> s[..f][k] == s[k];
  }

  /** Extending a list does not move the first occurrence of an element it already holds. */
  lemma FirstIndexExtend(s: seq<Id>, t: seq<Id>, x: Id)
    requires x in s
    ensures x in s + t && FirstIndex(s + t, x) == FirstIndex(s, x)
  {
    var f := FirstIndex(s, x);
    assert (s + t)[..f] == s[..f];
    FirstIndexUnique(s + t, x, f);
  }

  /**
   * The appended list is in first-seen order: an element that first occurs earlier
   * in `s` stands earlier in `Dedup(s)`.
   */
  lemma {:induction false} DedupFirstSeen(s: seq<Id>)
    ensures forall i, j :: 0 <= i < j < |Dedup(s)| ==>
      FirstIndex(s, Dedup(s)[i]) < FirstIndex(s, Dedup(s)[j])
  {
    if s != [] {
      var front, x := s[..|s| - 1], s[|s| - 1];
      DedupFirstSeen(front);
      DedupFirstSeenSnoc(front, x);
      assert s == front + [x];
    }
  }

  /** One more loop step keeps the list in first-seen order. */
  lemma DedupFirstSeenSnoc(front: seq<Id>, x: Id)
    requires forall i, j :: 0 <= i < j < |Dedup(front)| ==>
      FirstIndex(front, Dedup(front)[i]) < FirstIndex(front, Dedup(front)[j])
    ensures var s := front + [x];
      forall i, j :: 0 <= i < j < |Dedup(s)| ==> FirstIndex(s, Dedup(s)[i]) < FirstIndex(s, Dedup(s)[j])
  {
    var s := front + [x];
    var d := Dedup(front);
    DedupSnoc(front, x);
    if x in d {
      forall i, j | 0 <= i < j < |d|
        ensures FirstIndex(s, d[i]) < FirstIndex(s, d[j])
      {
        FirstIndexExtend(front, [x], d[i]);
        FirstIndexExtend(front, [x], d[j]);
      }
    } else {
      assert s[..|front|] == front;
      FirstIndexUnique(s, x, |front|);
      var r := d + [x];
      forall i, j | 0 <= i < j < |r|
        ensures FirstIndex(s, r[i]) < FirstIndex(s, r[j])
      {
        assert r[i] == d[i];
        FirstIndexExtend(front, [x], d[i]);
        if j < |d| {
          assert r[j] == d[j];
          FirstIndexExtend(front, [x], d[j]);
        }
      }
    }
  }


}
