/** lodash `orderBy(rows, [column], [order])` on the table rows: a stable sort
    by the value of one column. */
module TableOrder {
  import opened Js
  import opened Seqs
  import TableCore

  /** Code-unit order on strings: a proper prefix comes first. */
  predicate StrLe(a: string, b: string) {
    if |a| == 0 then true
    else if |b| == 0 then false
    else if a[0] != b[0] then a[0] < b[0]
    else StrLe(a[1..], b[1..])
  }

  lemma {:induction false} StrLeTotal(a: string, b: string)
    ensures StrLe(a, b) || StrLe(b, a)
  {
    if |a| > 0 && |b| > 0 && a[0] == b[0] {
      StrLeTotal(a[1..], b[1..]);
    }
  }

  lemma {:induction false} StrLeTrans(a: string, b: string, c: string)
    requires StrLe(a, b) && StrLe(b, c)
    ensures StrLe(a, c)
  {
    if |a| > 0 && |b| > 0 && |c| > 0 && a[0] == b[0] && b[0] == c[0] {
      StrLeTrans(a[1..], b[1..], c[1..]);
    }
  }

  /** Values of different kinds are ordered by kind; `null` and `undefined`
      go last, as lodash puts them. */
  function KindRank(v: Value): nat {
    match v
    case Num(_) => 0
    case Str(_) => 1
    case Bool(_) => 2
    case Obj(_) => 3
    case Null => 4
    case Undefined => 5
  }

  /** Ascending comparison of two sort keys: a total preorder. Two objects
      compare through their common text `[object Object]`, so they tie. */
  predicate ValueLe(a: Value, b: Value) {
    if KindRank(a) != KindRank(b) then KindRank(a) < KindRank(b)
    else match (a, b)
      case (Num(x), Num(y)) => x <= y
      case (Str(x), Str(y)) => StrLe(x, y)
      case (Bool(x), Bool(y)) => !x || y
      case (Obj(_), Obj(_)) => true
      case _ => true
  }

  lemma {:induction false} ValueLeTotal(a: Value, b: Value)
    ensures ValueLe(a, b) || ValueLe(b, a)
  {
    if a.Str? && b.Str? {
      StrLeTotal(a.s, b.s);
    }
  }

  lemma {:induction false} ValueLeTrans(a: Value, b: Value, c: Value)
    requires ValueLe(a, b) && ValueLe(b, c)
    ensures ValueLe(a, c)
  {
    if a.Str? && b.Str? && c.Str? {
      StrLeTrans(a.s, b.s, c.s);
    }
  }

  /** Row `a` may precede row `b` when sorting by `column`: ascending, or
      descending for the order `"desc"` (lodash treats every other order as
      ascending). */
  predicate Before(a: Row, b: Row, column: string, order: string) {
    if order == TableCore.DESC then ValueLe(Get(b, column), Get(a, column))
    else ValueLe(Get(a, column), Get(b, column))
  }

  lemma {:induction false} BeforeTotal(a: Row, b: Row, column: string, order: string)
    ensures Before(a, b, column, order) || Before(b, a, column, order)
  {
    ValueLeTotal(Get(a, column), Get(b, column));
  }

  lemma {:induction false} BeforeTrans(a: Row, b: Row, c: Row, column: string, order: string)
    requires Before(a, b, column, order) && Before(b, c, column, order)
    ensures Before(a, c, column, order)
  {
    if order == TableCore.DESC {
      ValueLeTrans(Get(c, column), Get(b, column), Get(a, column));
    } else {
      ValueLeTrans(Get(a, column), Get(b, column), Get(c, column));
    }
  }

  predicate Sorted(s: seq<Row>, column: string, order: string) {
    forall i, j :: 0 <= i < j < |s| ==> Before(s[i], s[j], column, order)
  }

  /** `a` and `b` have equivalent keys: neither sorts strictly before the other. */
  predicate SameKey(a: Row, b: Row, column: string, order: string) {
    Before(a, b, column, order) && Before(b, a, column, order)
  }

  /** Inserts `x` after every row that may precede it. */
  function Insert(x: Row, t: seq<Row>, column: string, order: string): (r: seq<Row>)
    ensures |r| == |t| + 1
    ensures multiset(r) == multiset(t) + multiset{x}
  {
    if |t| == 0 then [x]
    else if Before(t[0], x, column, order) then
      assert t == [t[0]] + t[1..];
      [t[0]] + Insert(x, t[1..], column, order)
    else [x] + t
  }

  /** `orderBy(s, [column], [order])` */
  function OrderBy(s: seq<Row>, column: string, order: string): (r: seq<Row>)
    ensures |r| == |s|
  {
    if |s| == 0 then []
    else Insert(s[|s| - 1], OrderBy(s[..|s| - 1], column, order), column, order)
  }

  /** Two rows whose keys are both objects keep their order in either
      direction, as lodash leaves them. */
  lemma {:induction false} ObjectKeysKeepOrder(a: Row, b: Row, column: string, order: string)
    requires Get(a, column).Obj? && Get(b, column).Obj?
    ensures OrderBy([a, b], column, order) == [a, b]
  {
    assert [a, b][..1] == [a];
    assert [a][..0] == [];
    assert OrderBy([a], column, order) == [a];
    assert Insert(b, [a], column, order) == [a] + Insert(b, [], column, order);
  }

  lemma {:induction false} InsertSorted(x: Row, t: seq<Row>, column: string, order: string)
    requires Sorted(t, column, order)
    ensures Sorted(Insert(x, t, column, order), column, order)
  {
    if |t| > 0 {
      var r := Insert(x, t, column, order);
      if Before(t[0], x, column, order) {
        InsertSorted(x, t[1..], column, order);
        var rest := Insert(x, t[1..], column, order);
        assert r == [t[0]] + rest;
        forall j | 0 < j < |r|
          ensures Before(r[0], r[j], column, order)
        {
          assert r[j] in multiset(rest);
          assert r[j] in multiset(t[1..]) + multiset{x};
          if r[j] != x {
            var k :| 0 <= k < |t[1..]| && t[1..][k] == r[j];
            assert t[k + 1] == r[j];
          }
        }
      } else {
        BeforeTotal(t[0], x, column, order);
        forall j | 0 <= j < |t|
          ensures Before(x, t[j], column, order)
        {
          if j > 0 {
            BeforeTrans(x, t[0], t[j], column, order);
          }
        }
      }
    }
  }

  /** The sort is a permutation of its input, in order. */
  lemma {:induction false} OrderBySortedPermutation(s: seq<Row>, column: string, order: string)
    ensures multiset(OrderBy(s, column, order)) == multiset(s)
    ensures Sorted(OrderBy(s, column, order), column, order)
  {
    if |s| > 0 {
      var init := s[..|s| - 1];
      var t := OrderBy(init, column, order);
      OrderBySortedPermutation(init, column, order);
      InsertSorted(s[|s| - 1], t, column, order);
      assert OrderBy(s, column, order) == Insert(s[|s| - 1], t, column, order);
      assert s == init + [s[|s| - 1]];
      assert multiset(s) == multiset(init) + multiset{s[|s| - 1]};
    }
  }

  /** The rows whose key is equivalent to the key of `k`. */
  function KeyClass(k: Row, column: string, order: string): Row -> bool {
    e => SameKey(e, k, column, order)
  }

  /** Inserting `x` into a sorted sequence keeps the rows of any key class in
      their order, with `x` last in its own class: the class reads as if `x`
      had been appended. */
  lemma {:induction false} InsertStable(x: Row, t: seq<Row>, k: Row, column: string, order: string)
    requires Sorted(t, column, order)
    ensures Filter(Insert(x, t, column, order), KeyClass(k, column, order)) ==
            Filter(t + [x], KeyClass(k, column, order))
  {
    if |t| == 0 {
      assert t + [x] == [x];
    } else if Before(t[0], x, column, order) {
      SortedTail(t, column, order);
      InsertStable(x, t[1..], k, column, order);
      assert Insert(x, t, column, order) == [t[0]] + Insert(x, t[1..], column, order);
      assert t + [x] == [t[0]] + (t[1..] + [x]);
      FilterConsBoth(t[0], Insert(x, t[1..], column, order), t[1..] + [x], KeyClass(k, column, order));
    } else {
      InsertFront(x, t, k, column, order);
    }
  }

  lemma {:induction false} SortedTail(t: seq<Row>, column: string, order: string)
    requires Sorted(t, column, order) && |t| > 0
    ensures Sorted(t[1..], column, order)
  {
    forall i, j | 0 <= i < j < |t| - 1
      ensures Before(t[1..][i], t[1..][j], column, order)
    {
      assert t[1..][i] == t[i + 1] && t[1..][j] == t[j + 1];
    }
  }

  /** The case of `InsertStable` where `x` goes first. */
  lemma {:induction false} InsertFront(x: Row, t: seq<Row>, k: Row, column: string, order: string)
    requires Sorted(t, column, order) && |t| > 0
    requires !Before(t[0], x, column, order)
    ensures Filter(Insert(x, t, column, order), KeyClass(k, column, order)) ==
            Filter(t + [x], KeyClass(k, column, order))
  {
    var p := KeyClass(k, column, order);
    assert Insert(x, t, column, order) == [x] + t;
    FilterAppend([x], t, p);
    FilterAppend(t, [x], p);
    FilterOne(x, p);
    if p(x) {
      NoneOfClass(x, t, k, column, order);
      FilterNone(t, p);
    } else {
      assert [] + Filter(t, p) == Filter(t, p) + [];
    }
  }

  /** When `x` sorts strictly before `t[0]` of a sorted `t`, no row of `t`
      shares `x`'s key. */
  lemma {:induction false} NoneOfClass(x: Row, t: seq<Row>, k: Row, column: string, order: string)
    requires Sorted(t, column, order) && |t| > 0
    requires !Before(t[0], x, column, order)
    requires SameKey(x, k, column, order)
    ensures forall e :: e in t ==> !KeyClass(k, column, order)(e)
  {
    forall e | e in t
      ensures !SameKey(e, k, column, order)
    {
      var j :| 0 <= j < |t| && t[j] == e;
      if SameKey(e, k, column, order) {
        if j > 0 {
          BeforeTrans(t[0], e, k, column, order);
        }
        BeforeTrans(t[0], k, x, column, order);
      }
    }
  }

  /** lodash `orderBy` is stable: rows with equivalent keys keep their
      relative order. */
  lemma {:induction false} OrderByStable(s: seq<Row>, k: Row, column: string, order: string)
    ensures Filter(OrderBy(s, column, order), KeyClass(k, column, order)) ==
            Filter(s, KeyClass(k, column, order))
  {
    if |s| > 0 {
      var p := KeyClass(k, column, order);
      var init, x := s[..|s| - 1], s[|s| - 1];
      var t := OrderBy(init, column, order);
      calc {
        Filter(OrderBy(s, column, order), p);
        Filter(Insert(x, t, column, order), p);
        { OrderBySortedPermutation(init, column, order);
          InsertStable(x, t, k, column, order); }
        Filter(t + [x], p);
        { FilterAppend(t, [x], p); }
        Filter(t, p) + Filter([x], p);
        { OrderByStable(init, k, column, order); }
        Filter(init, p) + Filter([x], p);
        { FilterAppend(init, [x], p); }
        Filter(init + [x], p);
        { assert s == init + [x]; }
        Filter(s, p);
      }
    }
  }
}
