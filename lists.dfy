/** The array operations the store is built from: `find`/`findIndex`
    (first match in stored order), `filter`, and the stable
    `sort` of echos by `created_at`, newest first. */
module Lists {
  import opened Types

  /** `Array.prototype.findIndex`: the index of the first element satisfying `p`. */
  function FirstIndex<T>(s: seq<T>, p: T -> bool): (r: Option<nat>)
    ensures r.Some? ==> r.value < |s| && p(s[r.value]) && forall j :: 0 <= j < r.value ==> !p(s[j])
    ensures r.None? ==> forall j :: 0 <= j < |s| ==> !p(s[j])
  {
    if |s| == 0 then None
    else if p(s[0]) then Some(0)
    else match FirstIndex(s[1..], p)
      case Some(k) => Some(k + 1)
      case None => None
  }

  /** The first match is determined by the predicate alone. */
  lemma FirstIndexIs<T>(s: seq<T>, p: T -> bool, i: nat)
    requires i < |s| && p(s[i])
    requires forall j :: 0 <= j < i ==> !p(s[j])
    ensures FirstIndex(s, p) == Some(i)
  {
  }

  /** `Array.prototype.filter`: the elements satisfying `p`, in order. */
  function Filter<T(==,!new)>(s: seq<T>, p: T -> bool): (r: seq<T>)
    ensures |r| <= |s|
    ensures forall i :: 0 <= i < |r| ==> p(r[i])
    ensures forall x {:trigger multiset(r)[x]} :: multiset(r)[x] == if p(x) then multiset(s)[x] else 0
  {
    if |s| == 0 then []
    else
      assert s == [s[0]] + s[1..];
      (if p(s[0]) then [s[0]] else []) + Filter(s[1..], p)
  }

  /** Filtering keeps stored order: it distributes over concatenation. */
  lemma {:induction false} FilterAppend<T(!new)>(a: seq<T>, b: seq<T>, p: T -> bool)
    ensures Filter(a + b, p) == Filter(a, p) + Filter(b, p)
  {
    if |a| == 0 {
      assert a + b == b;
    } else {
      assert (a + b)[1..] == a[1..] + b;
      FilterAppend(a[1..], b, p);
    }
  }

  // ---- `echos.sort((a, b) => b.created_at - a.created_at)` ----

  ghost predicate NewestFirst(s: seq<Echo>) {
    forall i, j :: 0 <= i < j < |s| ==> s[i].createdAt >= s[j].createdAt
  }

  /** The echos written at time `t`, in order. */
  function AtTime(s: seq<Echo>, t: int): (r: seq<Echo>)
  {
    if |s| == 0 then []
    else (if s[0].createdAt == t then [s[0]] else []) + AtTime(s[1..], t)
  }

  /** Puts `e`, which came before every echo of `s` in the input, in front
      of the first echo of `s` that is not newer than it. */
  function InsertNewest(e: Echo, s: seq<Echo>): (r: seq<Echo>)
    ensures multiset(r) == multiset(s) + multiset{e}
  {
    if |s| == 0 || s[0].createdAt <= e.createdAt then [e] + s
    else
      assert s == [s[0]] + s[1..];
      [s[0]] + InsertNewest(e, s[1..])
  }

  lemma {:induction false} InsertNewestSorted(e: Echo, s: seq<Echo>)
    requires NewestFirst(s)
    ensures NewestFirst(InsertNewest(e, s))
  {
    if |s| == 0 || s[0].createdAt <= e.createdAt {
    } else {
      var rest := InsertNewest(e, s[1..]);
      InsertNewestSorted(e, s[1..]);
      forall x | x in rest
        ensures s[0].createdAt >= x.createdAt
      {
        assert x in multiset(rest);
        assert x == e || x in multiset(s[1..]);
      }
    }
  }

  lemma {:induction false} AtTimeCons(e: Echo, s: seq<Echo>, t: int)
    ensures AtTime([e] + s, t) == (if e.createdAt == t then [e] else []) + AtTime(s, t)
  {
    assert ([e] + s)[1..] == s;
  }

  /** Inserting `e` puts it in front of the echos of `s` written at the same
      time and moves no other echo past another of its time. */
  lemma {:induction false} InsertNewestAtTime(e: Echo, s: seq<Echo>, t: int)
    ensures AtTime(InsertNewest(e, s), t) == if e.createdAt == t then [e] + AtTime(s, t) else AtTime(s, t)
  {
    if |s| == 0 || s[0].createdAt <= e.createdAt {
      AtTimeCons(e, s, t);
    } else {
      var rest := InsertNewest(e, s[1..]);
      InsertNewestAtTime(e, s[1..], t);
      AtTimeCons(s[0], rest, t);
      assert s == [s[0]] + s[1..];
      AtTimeCons(s[0], s[1..], t);
      var head := if s[0].createdAt == t then [s[0]] else [];
      assert AtTime(InsertNewest(e, s), t) == head + AtTime(rest, t);
      assert AtTime(s, t) == head + AtTime(s[1..], t);
      if e.createdAt == t {
        assert head == [];
      }
    }
  }

  /** The stable sort of the source, newest first. */
  function SortNewestFirst(s: seq<Echo>): (r: seq<Echo>)
    ensures multiset(r) == multiset(s)
  {
    if |s| == 0 then []
    else
      assert s == [s[0]] + s[1..];
      InsertNewest(s[0], SortNewestFirst(s[1..]))
  }

  /** The sort orders by `created_at`, newest first, and is stable: the
      echos written at any one time keep their stored order. */
  lemma {:induction false} SortNewestFirstCorrect(s: seq<Echo>)
    ensures NewestFirst(SortNewestFirst(s))
    ensures forall t :: AtTime(SortNewestFirst(s), t) == AtTime(s, t)
  {
    if |s| > 0 {
      SortNewestFirstCorrect(s[1..]);
      InsertNewestSorted(s[0], SortNewestFirst(s[1..]));
      forall t ensures AtTime(SortNewestFirst(s), t) == AtTime(s, t) {
        InsertNewestAtTime(s[0], SortNewestFirst(s[1..]), t);
        assert s == [s[0]] + s[1..];
        AtTimeCons(s[0], s[1..], t);
      }
    }
  }
}
