/** Python's orderings and its stable sort: strings compare by code point,
    lists (and pathlib paths, part by part) lexicographically, and
    list.sort()/sorted() keep equal elements in their original order. */
module Order {

  /** lt is a strict total order on T. */
  ghost predicate StrictTotal<T(!new)>(lt: (T, T) -> bool) {
    && (forall a :: !lt(a, a))
    && (forall a, b, c :: lt(a, b) && lt(b, c) ==> lt(a, c))
    && (forall a, b :: a == b || lt(a, b) || lt(b, a))
  }

  /** le is total and transitive: a key order that may have ties. */
  ghost predicate TotalPreorder<T(!new)>(le: (T, T) -> bool) {
    && (forall a, b :: le(a, b) || le(b, a))
    && (forall a, b, c :: le(a, b) && le(b, c) ==> le(a, c))
  }

  /** Python's sequence comparison a <= b: the first differing element
      decides; a proper prefix comes first. */
  function LexLe<T(==)>(a: seq<T>, b: seq<T>, lt: (T, T) -> bool): bool {
    if a == [] then true
    else if b == [] then false
    else if a[0] == b[0] then LexLe(a[1..], b[1..], lt)
    else lt(a[0], b[0])
  }

  lemma {:induction false} LexLeReflexive<T(!new)>(a: seq<T>, lt: (T, T) -> bool)
    ensures LexLe(a, a, lt)
  {
    if a != [] {
      LexLeReflexive(a[1..], lt);
    }
  }

  lemma {:induction false} LexLeTotal<T(!new)>(a: seq<T>, b: seq<T>, lt: (T, T) -> bool)
    requires StrictTotal(lt)
    ensures LexLe(a, b, lt) || LexLe(b, a, lt)
  {
    if a != [] && b != [] && a[0] == b[0] {
      LexLeTotal(a[1..], b[1..], lt);
    }
  }

  lemma {:induction false} LexLeAntisymmetric<T(!new)>(a: seq<T>, b: seq<T>, lt: (T, T) -> bool)
    requires StrictTotal(lt)
    ensures LexLe(a, b, lt) && LexLe(b, a, lt) ==> a == b
  {
    if a != [] && b != [] {
      if a[0] == b[0] {
        LexLeAntisymmetric(a[1..], b[1..], lt);
        assert a == [a[0]] + a[1..] && b == [b[0]] + b[1..];
      } else if lt(a[0], b[0]) {
        assert !lt(b[0], a[0]);
      }
    }
  }

  lemma {:induction false} LexLeTransitive<T(!new)>(a: seq<T>, b: seq<T>, c: seq<T>, lt: (T, T) -> bool)
    requires StrictTotal(lt)
    requires LexLe(a, b, lt) && LexLe(b, c, lt)
    ensures LexLe(a, c, lt)
  {
    if a != [] && b != [] && c != [] {
      if a[0] == b[0] && b[0] == c[0] {
        LexLeTransitive(a[1..], b[1..], c[1..], lt);
      }
    }
  }

  predicate CharLt(a: char, b: char) {
    a < b
  }

  /** Python's a <= b on str: code-point lexicographic order. */
  predicate StrLe(a: string, b: string) {
    LexLe(a, b, CharLt)
  }

  /** Python's a < b on str. */
  predicate StrLt(a: string, b: string) {
    StrLe(a, b) && a != b
  }

  lemma CharLtStrictTotal()
    ensures StrictTotal(CharLt)
  {
  }

  /** str <= is a total order: reflexive, antisymmetric, transitive and total. */
  lemma StrLeTotalOrder()
    ensures forall a :: StrLe(a, a)
    ensures forall a, b :: StrLe(a, b) || StrLe(b, a)
    ensures forall a, b :: StrLe(a, b) && StrLe(b, a) ==> a == b
    ensures forall a, b, c :: StrLe(a, b) && StrLe(b, c) ==> StrLe(a, c)
  {
    CharLtStrictTotal();
    forall a ensures StrLe(a, a) {
      LexLeReflexive(a, CharLt);
    }
    forall a, b ensures StrLe(a, b) || StrLe(b, a) {
      LexLeTotal(a, b, CharLt);
    }
    forall a, b ensures StrLe(a, b) && StrLe(b, a) ==> a == b {
      LexLeAntisymmetric(a, b, CharLt);
    }
    forall a, b, c | StrLe(a, b) && StrLe(b, c) ensures StrLe(a, c) {
      LexLeTransitive(a, b, c, CharLt);
    }
  }

  lemma StrLtStrictTotal()
    ensures StrictTotal(StrLt)
  {
    StrLeTotalOrder();
  }

  /** Python's tuple comparison (a0, a1) <= (b0, b1) on pairs of strings. */
  predicate PairLe(a: (string, string), b: (string, string)) {
    StrLt(a.0, b.0) || (a.0 == b.0 && StrLe(a.1, b.1))
  }

  /** Tuple <= on string pairs is a total order. */
  lemma PairLeTotalOrder()
    ensures forall a, b :: PairLe(a, b) || PairLe(b, a)
    ensures forall a, b :: PairLe(a, b) && PairLe(b, a) ==> a == b
    ensures forall a, b, c :: PairLe(a, b) && PairLe(b, c) ==> PairLe(a, c)
  {
    StrLeTotalOrder();
  }

  lemma PairLeTotalPreorder()
    ensures TotalPreorder(PairLe)
  {
    PairLeTotalOrder();
  }

  /** pathlib's p <= q: paths compare as their lists of parts. */
  predicate PathLe(p: seq<string>, q: seq<string>) {
    LexLe(p, q, StrLt)
  }

  lemma PathLeTotalPreorder()
    ensures TotalPreorder(PathLe)
  {
    StrLtStrictTotal();
    forall a, b ensures PathLe(a, b) || PathLe(b, a) {
      LexLeTotal(a, b, StrLt);
    }
    forall a, b, c | PathLe(a, b) && PathLe(b, c) ensures PathLe(a, c) {
      LexLeTransitive(a, b, c, StrLt);
    }
  }

  // ---------- the stable sort ----------

  predicate SortedBy<T>(s: seq<T>, le: (T, T) -> bool) {
    forall i, j :: 0 <= i < j < |s| ==> le(s[i], s[j])
  }

  /** Strictly increasing under str <: sorted and free of duplicates. */
  predicate StrictlySorted(s: seq<string>) {
    forall i, j :: 0 <= i < j < |s| ==> StrLt(s[i], s[j])
  }

  /** Insert x after every element that is not greater than it. */
  function Insert<T>(x: T, s: seq<T>, le: (T, T) -> bool): (r: seq<T>)
    ensures multiset(r) == multiset(s) + multiset{x} && |r| == |s| + 1
  {
    if s == [] then [x]
    else if le(s[0], x) then
      assert s == [s[0]] + s[1..];
      [s[0]] + Insert(x, s[1..], le)
    else [x] + s
  }

  /** list.sort(key=...) as insertion sort: every element is inserted after the
      ones already placed that do not compare greater, which keeps ties in their
      original order. */
  function SortBy<T>(s: seq<T>, le: (T, T) -> bool): (r: seq<T>)
    ensures multiset(r) == multiset(s) && |r| == |s|
  {
    if s == [] then []
    else
      assert s == s[..|s| - 1] + [s[|s| - 1]];
      Insert(s[|s| - 1], SortBy(s[..|s| - 1], le), le)
  }

  lemma {:induction false} InsertSorted<T(!new)>(x: T, s: seq<T>, le: (T, T) -> bool)
    requires TotalPreorder(le) && SortedBy(s, le)
    ensures SortedBy(Insert(x, s, le), le)
  {
    if s != [] {
      if le(s[0], x) {
        InsertSorted(x, s[1..], le);
        var t := Insert(x, s[1..], le);
        forall j | 0 <= j < |t| ensures le(s[0], t[j]) {
          assert t[j] in multiset(t);
          if t[j] != x {
            assert t[j] in multiset(s[1..]);
            var k :| 0 <= k < |s[1..]| && s[1..][k] == t[j];
            assert s[k + 1] == t[j];
          }
        }
      } else {
        forall j | 0 <= j < |s| ensures le(x, s[j]) {
          assert le(s[0], s[j]) || j == 0;
        }
      }
    }
  }

  /** The result of SortBy is sorted. */
  lemma {:induction false} SortBySorted<T(!new)>(s: seq<T>, le: (T, T) -> bool)
    requires TotalPreorder(le)
    ensures SortedBy(SortBy(s, le), le)
  {
    if s != [] {
      SortBySorted(s[..|s| - 1], le);
      InsertSorted(s[|s| - 1], SortBy(s[..|s| - 1], le), le);
    }
  }

  /** The elements of s that tie with k: the ones the sort may not reorder. */
  function Ties<T>(s: seq<T>, le: (T, T) -> bool, k: T): seq<T> {
    if s == [] then [] else Tie(s[0], le, k) + Ties(s[1..], le, k)
  }

  /** [e] when e ties with k, else []. */
  function Tie<T>(e: T, le: (T, T) -> bool, k: T): seq<T> {
    if le(e, k) && le(k, e) then [e] else []
  }

  lemma TiesCons<T>(e: T, t: seq<T>, le: (T, T) -> bool, k: T)
    ensures Ties([e] + t, le, k) == Tie(e, le, k) + Ties(t, le, k)
  {
    assert ([e] + t)[1..] == t;
  }

  lemma ConcatAssoc<T>(a: seq<T>, b: seq<T>, c: seq<T>)
    ensures a + (b + c) == (a + b) + c
  {
  }

  lemma {:induction false} TiesConcat<T>(a: seq<T>, b: seq<T>, le: (T, T) -> bool, k: T)
    ensures Ties(a + b, le, k) == Ties(a, le, k) + Ties(b, le, k)
  {
    if a != [] {
      var e := a[0];
      var E := Tie(e, le, k);
      assert a + b == [e] + (a[1..] + b);
      TiesCons(e, a[1..] + b, le, k);
      TiesConcat(a[1..], b, le, k);
      assert Ties(a + b, le, k) == E + (Ties(a[1..], le, k) + Ties(b, le, k));
      assert E + (Ties(a[1..], le, k) + Ties(b, le, k)) == (E + Ties(a[1..], le, k)) + Ties(b, le, k);
      assert Ties(a, le, k) == E + Ties(a[1..], le, k);
    } else {
      assert a + b == b;
    }
  }

  lemma {:induction false} NoTiesAbove<T(!new)>(s: seq<T>, x: T, le: (T, T) -> bool, k: T)
    requires TotalPreorder(le) && le(k, x)
    requires forall j :: 0 <= j < |s| ==> !le(s[j], x)
    ensures Ties(s, le, k) == []
  {
    if s != [] {
      NoTiesAbove(s[1..], x, le, k);
    }
  }

  /** Every element of a sorted s lies above x once its first element does. */
  lemma AllAbove<T(!new)>(x: T, s: seq<T>, le: (T, T) -> bool)
    requires TotalPreorder(le) && SortedBy(s, le) && s != [] && !le(s[0], x)
    ensures forall j :: 0 <= j < |s| ==> !le(s[j], x)
  {
    forall j | 0 <= j < |s| ensures !le(s[j], x) {
      assert le(s[0], s[j]) || j == 0;
    }
  }

  /** Inserting x in front of s adds x to the ties, in front or, when no element
      of s ties with it, at the back. */
  lemma InsertTiesFront<T(!new)>(x: T, s: seq<T>, le: (T, T) -> bool, k: T)
    requires TotalPreorder(le) && SortedBy(s, le)
    requires s == [] || !le(s[0], x)
    ensures Ties([x] + s, le, k) == Ties(s, le, k) + Tie(x, le, k)
  {
    TiesCons(x, s, le, k);
    if Tie(x, le, k) != [] && s != [] {
      AllAbove(x, s, le);
      NoTiesAbove(s, x, le, k);
    }
  }

  lemma {:induction false} InsertTies<T(!new)>(x: T, s: seq<T>, le: (T, T) -> bool, k: T)
    requires TotalPreorder(le) && SortedBy(s, le)
    ensures Ties(Insert(x, s, le), le, k) == Ties(s, le, k) + Tie(x, le, k)
  {
    if s == [] || !le(s[0], x) {
      assert Insert(x, s, le) == [x] + s;
      InsertTiesFront(x, s, le, k);
    } else {
      var e, t := s[0], Insert(x, s[1..], le);
      assert s == [e] + s[1..];
      assert Insert(x, s, le) == [e] + t;
      InsertTies(x, s[1..], le, k);
      TiesCons(e, s[1..], le, k);
      TiesCons(e, t, le, k);
      ConcatAssoc(Tie(e, le, k), Ties(s[1..], le, k), Tie(x, le, k));
    }
  }

  lemma TiesSnoc<T>(s: seq<T>, x: T, le: (T, T) -> bool, k: T)
    ensures Ties(s + [x], le, k) == Ties(s, le, k) + Tie(x, le, k)
  {
    TiesConcat(s, [x], le, k);
    assert [x] == [x] + [];
    TiesCons(x, [], le, k);
  }

  lemma SortByStableStep<T(!new)>(init: seq<T>, last: T, le: (T, T) -> bool, k: T)
    requires TotalPreorder(le)
    requires Ties(SortBy(init, le), le, k) == Ties(init, le, k)
    ensures Ties(SortBy(init + [last], le), le, k) == Ties(init + [last], le, k)
  {
    var s := init + [last];
    assert s[..|s| - 1] == init && s[|s| - 1] == last;
    assert SortBy(s, le) == Insert(last, SortBy(init, le), le);
    SortBySorted(init, le);
    InsertTies(last, SortBy(init, le), le, k);
    TiesSnoc(init, last, le, k);
  }

  /** SortBy is stable: the elements tying with any k come out in the order they went in. */
  lemma {:induction false} SortByStable<T(!new)>(s: seq<T>, le: (T, T) -> bool, k: T)
    requires TotalPreorder(le)
    ensures Ties(SortBy(s, le), le, k) == Ties(s, le, k)
  {
    if s != [] {
      var init, last := s[..|s| - 1], s[|s| - 1];
      SortByStable(init, le, k);
      assert s == init + [last];
      SortByStableStep(init, last, le, k);
    }
  }

  // ---------- sorted(set) ----------

  lemma StrLeAntisymmetric()
    ensures forall a, b :: StrLe(a, b) && StrLe(b, a) ==> a == b
  {
    CharLtStrictTotal();
    forall a, b ensures StrLe(a, b) && StrLe(b, a) ==> a == b {
      LexLeAntisymmetric(a, b, CharLt);
    }
  }

  predicate IsLeast(m: string, s: set<string>) {
    m in s && forall y :: y in s ==> StrLe(m, y)
  }

  /** If m is least in s and x <= m, x is least in s + {x}. */
  lemma LeastBelow(m: string, x: string, s: set<string>)
    requires IsLeast(m, s) && StrLe(x, m)
    ensures IsLeast(x, s + {x})
  {
    CharLtStrictTotal();
    LexLeReflexive(x, CharLt);
    forall y | y in s ensures StrLe(x, y) {
      LexLeTransitive(x, m, y, CharLt);
    }
  }

  lemma {:induction false} HasLeast(s: set<string>)
    requires s != {}
    ensures exists m :: IsLeast(m, s)
    decreases |s|
  {
    var x :| x in s;
    if s == {x} {
      LexLeReflexive(x, CharLt);
      assert IsLeast(x, s);
    } else {
      HasLeast(s - {x});
      var m :| IsLeast(m, s - {x});
      assert s == (s - {x}) + {x};
      CharLtStrictTotal();
      LexLeTotal(m, x, CharLt);
      if StrLe(x, m) {
        LeastBelow(m, x, s - {x});
      } else {
        assert IsLeast(m, s);
      }
    }
  }

  /** The least element of a non-empty set of strings. */
  function Least(s: set<string>): (m: string)
    requires s != {}
    ensures m in s && forall y :: y in s ==> StrLe(m, y)
  {
    HasLeast(s);
    StrLeAntisymmetric();
    var m :| IsLeast(m, s);
    m
  }

  /** Python's sorted(s) for a set of strings: its elements in increasing order. */
  function SortedElems(s: set<string>): (r: seq<string>)
    ensures forall x :: x in r <==> x in s
    ensures |r| == |s| && StrictlySorted(r)
    decreases |s|
  {
    if s == {} then []
    else
      var m := Least(s);
      var rest := SortedElems(s - {m});
      LeastFirst(s, m, rest);
      [m] + rest
  }

  /** The least element followed by the rest in order is the whole set in order. */
  lemma LeastFirst(s: set<string>, m: string, rest: seq<string>)
    requires m in s && forall y :: y in s ==> StrLe(m, y)
    requires (forall x :: x in rest <==> x in s - {m}) && |rest| == |s - {m}| && StrictlySorted(rest)
    ensures (forall x :: x in [m] + rest <==> x in s) && |[m] + rest| == |s| && StrictlySorted([m] + rest)
  {
    var r := [m] + rest;
    forall i, j | 0 <= i < j < |r|
      ensures StrLt(r[i], r[j])
    {
      assert r[j] == rest[j - 1];
      if i == 0 {
        assert rest[j - 1] in s - {m};
      } else {
        assert r[i] == rest[i - 1];
      }
    }
  }
}
