// Iteration order of the ordered sets and maps the program uses.
module Ordered {
  /** Bound of an unsigned 16-bit code. */
  const CODE_LIMIT := 0x1_0000

  /** The members of `s` in [lo, hi), each once, smallest first. */
  function Ascending(s: set<int>, lo: int, hi: int): seq<int>
    requires lo <= hi
    decreases hi - lo
  {
    if lo == hi then []
    else if lo in s then [lo] + Ascending(s, lo + 1, hi)
    else Ascending(s, lo + 1, hi)
  }

  ghost predicate StrictlyAscending(r: seq<int>) {
    forall i, j :: 0 <= i < j < |r| ==> r[i] < r[j]
  }

  lemma {:induction false} AscendingSpec(s: set<int>, lo: int, hi: int)
    requires lo <= hi
    ensures forall c :: c in Ascending(s, lo, hi) <==> c in s && lo <= c < hi
    ensures StrictlyAscending(Ascending(s, lo, hi))
    decreases hi - lo
  {
    if lo < hi {
      AscendingSpec(s, lo + 1, hi);
      var rest := Ascending(s, lo + 1, hi);
      assert forall i :: 0 <= i < |rest| ==> rest[i] in rest;
    }
  }

  /** All 16-bit members of `s`, smallest first. */
  function Codes(s: set<int>): seq<int> {
    Ascending(s, 0, CODE_LIMIT)
  }

  lemma CodesSpec(s: set<int>)
    ensures forall c :: c in Codes(s) <==> c in s && 0 <= c < CODE_LIMIT
    ensures StrictlyAscending(Codes(s))
  {
    AscendingSpec(s, 0, CODE_LIMIT);
  }

  lemma CodesWithin(s: set<int>)
    ensures forall i :: 0 <= i < |Codes(s)| ==> Codes(s)[i] in s && 0 <= Codes(s)[i] < CODE_LIMIT
  {
    CodesSpec(s);
    assert forall i :: 0 <= i < |Codes(s)| ==> Codes(s)[i] in Codes(s);
  }

  lemma {:induction false} SubsetCard(s: set<int>, t: set<int>)
    requires s <= t
    ensures |s| <= |t|
    decreases t
  {
    if c :| c in s {
      SubsetCard(s - {c}, t - {c});
    } else {
      assert forall c :: c !in s;
      assert s == {};
    }
  }

  /** A strictly ascending sequence is as long as its set of members. */
  lemma {:induction false} DistinctLength(r: seq<int>, s: set<int>)
    requires forall c :: c in r ==> c in s
    requires StrictlyAscending(r)
    ensures |r| <= |s|
    decreases |r|
  {
    if r != [] {
      var t := s - {r[0]};
      assert r[0] in r;
      DistinctLength(r[1..], t);
      assert |t| == |s| - 1;
    }
  }

  lemma NoCodes()
    ensures Codes({}) == []
  {
    CodesSpec({});
    DistinctLength(Codes({}), {});
  }
}
