/** What a conditional DELETE leaves of a table: the rows that are kept, in their old order. */
module Deletion {
  function Kept<T>(s: seq<T>, keep: T -> bool): seq<T> {
    if s == [] then []
    else
      var last := s[|s| - 1];
      Kept(s[..|s| - 1], keep) + (if keep(last) then [last] else [])
  }

  /** The old numbers of the rows that are kept. */
  function Positions<T>(s: seq<T>, keep: T -> bool): seq<nat> {
    if s == [] then []
    else Positions(s[..|s| - 1], keep) + (if keep(s[|s| - 1]) then [|s| - 1] else [])
  }

  lemma {:induction false} KeptRows<T>(s: seq<T>, keep: T -> bool)
    ensures var at := Positions(s, keep); var r := Kept(s, keep);
            && |at| == |r|
            && (forall i :: 0 <= i < |r| ==> at[i] < |s| && r[i] == s[at[i]] && keep(r[i]))
            && (forall i, j :: 0 <= i < j < |r| ==> at[i] < at[j])
            && (forall k :: 0 <= k < |s| && keep(s[k]) ==> k in at)
  {
    if s != [] {
      var shorter := s[..|s| - 1];
      KeptRows(shorter, keep);
      var before, at := Positions(shorter, keep), Positions(s, keep);
      forall k | 0 <= k < |s| && keep(s[k]) ensures k in at {
        if k < |s| - 1 {
          assert s[k] == shorter[k];
          assert k in before;
        } else {
          assert at[|at| - 1] == k;
        }
      }
    }
  }

  lemma KeptMembers<T>(s: seq<T>, keep: T -> bool)
    ensures forall x :: x in Kept(s, keep) <==> x in s && keep(x)
  {
    KeptRows(s, keep);
    var at := Positions(s, keep);
    forall x | x in s && keep(x) ensures x in Kept(s, keep) {
      var k :| 0 <= k < |s| && s[k] == x;
      var i :| 0 <= i < |at| && at[i] == k;
      assert Kept(s, keep)[i] == x;
    }
  }

  lemma KeptAppend<T>(s: seq<T>, x: T, keep: T -> bool)
    ensures Kept(s + [x], keep) == Kept(s, keep) + (if keep(x) then [x] else [])
    ensures Positions(s + [x], keep) == Positions(s, keep) + (if keep(x) then [|s|] else [])
  {
    assert (s + [x])[..|s|] == s;
  }

  /** The first n + 1 rows. */
  lemma KeptNext<T>(s: seq<T>, n: nat, keep: T -> bool)
    requires n < |s|
    ensures Kept(s[..n + 1], keep) == Kept(s[..n], keep) + (if keep(s[n]) then [s[n]] else [])
  {
    assert s[..n + 1] == s[..n] + [s[n]];
    KeptAppend(s[..n], s[n], keep);
  }

  lemma {:induction false} PositionsUpdate<T>(s: seq<T>, k: nat, x: T, keep: T -> bool)
    requires k < |s| && (keep(x) <==> keep(s[k]))
    ensures Positions(s[k := x], keep) == Positions(s, keep)
  {
    var last := |s| - 1;
    var u := s[k := x];
    if k == last {
      assert u[..last] == s[..last];
    } else {
      assert u[..last] == s[..last][k := x];
      PositionsUpdate(s[..last], k, x, keep);
    }
  }

  /** Changing one kept row into another kept row. */
  lemma KeptUpdate<T>(s: seq<T>, k: nat, x: T, keep: T -> bool, i: nat)
    requires k < |s| && keep(x) && keep(s[k]) && i < |Positions(s, keep)| && Positions(s, keep)[i] == k
    ensures i < |Kept(s, keep)| && Kept(s[k := x], keep) == Kept(s, keep)[i := x]
  {
    PositionsUpdate(s, k, x, keep);
    KeptRows(s, keep);
    KeptRows(s[k := x], keep);
    assert |Kept(s[k := x], keep)| == |Kept(s, keep)|;
  }

  lemma {:induction false} KeptSame<T>(s: seq<T>, first: T -> bool, second: T -> bool)
    requires forall x :: x in s ==> (first(x) <==> second(x))
    ensures Kept(s, first) == Kept(s, second)
  {
    if s != [] {
      var last := |s| - 1;
      assert s[last] in s;
      KeptSame(s[..last], first, second);
    }
  }

  /** Deleting twice. */
  lemma {:induction false} KeptTwice<T(!new)>(s: seq<T>, first: T -> bool, second: T -> bool, both: T -> bool)
    requires forall x :: both(x) <==> first(x) && second(x)
    ensures Kept(Kept(s, first), second) == Kept(s, both)
  {
    if s != [] {
      var last := |s| - 1;
      KeptTwice(s[..last], first, second, both);
      if first(s[last]) {
        KeptAppend(Kept(s[..last], first), s[last], second);
      } else {
        assert Kept(s, first) == Kept(s[..last], first);
      }
    }
  }
}
