/** Values and tables shared by every part of the model: an optional cell (a
    pandas NaN is `None`), boolean-mask filtering of rows, sums of reals, and
    a data frame whose rows are dropped in place. */
module Common {

  datatype Option<T> = None | Some(value: T)

  /** The rows of `s` for which `keep` holds, in their original order:
      pandas' `df[mask]`. */
  function Filter<T>(s: seq<T>, keep: T -> bool): (r: seq<T>)
    ensures |r| <= |s|
    ensures forall i :: 0 <= i < |r| ==> r[i] in s && keep(r[i])
    ensures forall i :: 0 <= i < |s| && keep(s[i]) ==> s[i] in r
  {
    if s == [] then []
    else (if keep(s[0]) then [s[0]] else []) + Filter(s[1..], keep)
  }

  /** Filtering keeps every selected row as often as it occurs, and no other. */
  lemma {:induction false} FilterCounts<T(!new)>(s: seq<T>, keep: T -> bool)
    ensures forall x :: multiset(Filter(s, keep))[x] == if keep(x) then multiset(s)[x] else 0
  {
    if s != [] {
      FilterCounts(s[1..], keep);
      assert s == [s[0]] + s[1..];
    }
  }

  function Not<T>(p: T -> bool): T -> bool {
    x => !p(x)
  }

  function Both<T>(p: T -> bool, q: T -> bool): T -> bool {
    x => p(x) && q(x)
  }

  /** Filtering twice is filtering once by the conjunction. */
  lemma {:induction false} FilterTwice<T>(s: seq<T>, p: T -> bool, q: T -> bool)
    ensures Filter(Filter(s, p), q) == Filter(s, Both(p, q))
  {
    if s != [] {
      FilterTwice(s[1..], p, q);
      if p(s[0]) {
        assert Filter(s, p) == [s[0]] + Filter(s[1..], p);
        assert Filter(s, p)[1..] == Filter(s[1..], p);
      } else {
        assert Filter(s, p) == Filter(s[1..], p);
      }
    }
  }

  /** A mask that keeps every row keeps the sequence unchanged. */
  lemma {:induction false} FilterAll<T>(s: seq<T>, keep: T -> bool)
    requires forall i :: 0 <= i < |s| ==> keep(s[i])
    ensures Filter(s, keep) == s
  {
    if s != [] {
      FilterAll(s[1..], keep);
    }
  }

  /** Two masks that agree on every row select the same rows. */
  lemma {:induction false} FilterAgrees<T>(s: seq<T>, p: T -> bool, q: T -> bool)
    requires forall i :: 0 <= i < |s| ==> p(s[i]) == q(s[i])
    ensures Filter(s, p) == Filter(s, q)
  {
    if s != [] {
      FilterAgrees(s[1..], p, q);
    }
  }

  function Sum(s: seq<real>): real {
    if s == [] then 0.0 else s[0] + Sum(s[1..])
  }

  /** The sum of a sequence is the sum of any prefix plus the sum of the rest. */
  lemma {:induction false} SumSplit(s: seq<real>, k: nat)
    requires k <= |s|
    ensures Sum(s) == Sum(s[..k]) + Sum(s[k..])
  {
    if k > 0 {
      assert s[1..][..k - 1] == s[1..k];
      assert s[1..][k - 1..] == s[k..];
      SumSplit(s[1..], k - 1);
      assert s[..k][1..] == s[1..k];
    } else {
      assert s[..0] == [];
      assert s[0..] == s;
    }
  }

  lemma SumOfFive(p: seq<real>)
    requires |p| == 5
    ensures Sum(p) == p[0] + p[1] + p[2] + p[3] + p[4]
  {
    assert p[1..][1..] == p[2..];
    assert p[2..][1..] == p[3..];
    assert p[3..][1..] == p[4..];
    assert p[4..][1..] == [];
    assert Sum(p[4..]) == p[4];
    assert Sum(p[3..]) == p[3] + p[4];
    assert Sum(p[2..]) == p[2] + p[3] + p[4];
  }

  /** A data frame whose rows are dropped in place, as
      `df.drop(df[cond].index, inplace=True)` does. */
  class DataFrame<T> {
    var rows: seq<T>

    constructor (rows: seq<T>)
      ensures this.rows == rows
    {
      this.rows := rows;
    }

    /** Removes every row for which `cond` holds, keeping the order of the others. */
    method Drop(cond: T -> bool)
      modifies this
      ensures rows == Filter(old(rows), Not(cond))
    {
      rows := Filter(rows, Not(cond));
    }
  }
}
