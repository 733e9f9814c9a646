/** Python's ordering of the hashable scalar values a YAML document can hold,
    and `list.sort()` on a list of distinct such values. Strings compare code
    point by code point, numbers by value, `False < True`; values of two
    different kinds are not comparable (TypeError). */
module PySort {
  import opened PyValues

  /** `a < b` on two Python strings. */
  predicate StrLess(a: string, b: string)
    decreases |a|
  {
    if a == [] then b != []
    else if b == [] then false
    else if a[0] != b[0] then a[0] < b[0]
    else StrLess(a[1..], b[1..])
  }

  lemma {:induction false} StrLessIrreflexive(a: string)
    ensures !StrLess(a, a)
    decreases |a|
  {
    if a != [] {
      StrLessIrreflexive(a[1..]);
    }
  }

  lemma {:induction false} StrLessTransitive(a: string, b: string, c: string)
    requires StrLess(a, b) && StrLess(b, c)
    ensures StrLess(a, c)
    decreases |a|
  {
    if a != [] && b != [] && c != [] && a[0] == b[0] && b[0] == c[0] {
      StrLessTransitive(a[1..], b[1..], c[1..]);
    }
  }

  lemma {:induction false} StrLessTotal(a: string, b: string)
    requires a != b
    ensures StrLess(a, b) || StrLess(b, a)
    decreases |a|
  {
    if a != [] && b != [] && a[0] == b[0] {
      assert a == [a[0]] + a[1..] && b == [b[0]] + b[1..];
      StrLessTotal(a[1..], b[1..]);
    }
  }

  /** What `set()` and `sort()` need to know about a value. */
  datatype Kind = NoneKind | BoolKind | NumKind | StrKind | Unhashable

  function KindOf(v: Value): Kind {
    match v
    case Null => NoneKind
    case Bool(_) => BoolKind
    case Num(_) => NumKind
    case Str(_) => StrKind
    case _ => Unhashable
  }

  predicate Hashable(v: Value) {
    KindOf(v) != Unhashable
  }

  /** `a < b` for two values of one kind. */
  predicate Less(a: Value, b: Value) {
    match (a, b)
    case (Bool(x), Bool(y)) => !x && y
    case (Num(x), Num(y)) => x < y
    case (Str(x), Str(y)) => StrLess(x, y)
    case _ => false
  }

  predicate OneKind(vs: seq<Value>) {
    forall i, j :: 0 <= i < |vs| && 0 <= j < |vs| ==> KindOf(vs[i]) == KindOf(vs[j])
  }

  predicate Distinct(vs: seq<Value>) {
    forall i, j :: 0 <= i < j < |vs| ==> vs[i] != vs[j]
  }

  predicate StrictlySorted(vs: seq<Value>) {
    forall i, j :: 0 <= i < j < |vs| ==> Less(vs[i], vs[j])
  }

  lemma LessIrreflexive(a: Value)
    ensures !Less(a, a)
  {
    if a.Str? {
      StrLessIrreflexive(a.s);
    }
  }

  lemma LessTransitive(a: Value, b: Value, c: Value)
    requires Less(a, b) && Less(b, c)
    ensures Less(a, c)
  {
    if a.Str? {
      StrLessTransitive(a.s, b.s, c.s);
    }
  }

  lemma LessTotal(a: Value, b: Value)
    requires KindOf(a) == KindOf(b) && Hashable(a) && a != b
    ensures Less(a, b) || Less(b, a)
  {
    if a.Str? {
      StrLessTotal(a.s, b.s);
    }
  }

  /** `set(vs)` listed once per distinct value. Python lists a set in hash
      order; `Sort` below makes the order irrelevant (`StrictlySortedUnique`). */
  function Dedup(vs: seq<Value>): (r: seq<Value>)
    ensures Distinct(r)
    ensures forall v :: v in r <==> v in vs
  {
    if vs == [] then []
    else
      var n := |vs| - 1;
      var prev := Dedup(vs[..n]);
      assert vs == vs[..n] + [vs[n]];
      if vs[n] in prev then prev else prev + [vs[n]]
  }

  /** Having one kind depends only on which values occur. */
  lemma OneKindByMembership(a: seq<Value>, b: seq<Value>)
    requires forall v :: v in a <==> v in b
    ensures OneKind(a) <==> OneKind(b)
  {
    if OneKind(b) {
      OneKindSubset(a, b);
    }
    if OneKind(a) {
      OneKindSubset(b, a);
    }
  }

  lemma OneKindSubset(a: seq<Value>, b: seq<Value>)
    requires forall v :: v in a ==> v in b
    requires OneKind(b)
    ensures OneKind(a)
  {
    forall i, j | 0 <= i < |a| && 0 <= j < |a| ensures KindOf(a[i]) == KindOf(a[j]) {
      assert a[i] in b && a[j] in b;
      var k :| 0 <= k < |b| && b[k] == a[i];
      var l :| 0 <= l < |b| && b[l] == a[j];
    }
  }

  /** `sorted(set(vs))` for hashable values of one kind: strictly ascending,
      holding exactly the values of `vs`. */
  lemma SortedDedup(vs: seq<Value>)
    requires OneKind(vs) && forall i :: 0 <= i < |vs| ==> Hashable(vs[i])
    ensures var unique := Dedup(vs);
      && OneKind(unique) && (forall i :: 0 <= i < |unique| ==> Hashable(unique[i]))
      && StrictlySorted(Sort(unique)) && forall v :: v in Sort(unique) <==> v in vs
  {
    var unique := Dedup(vs);
    OneKindSubset(unique, vs);
    forall i | 0 <= i < |unique| ensures Hashable(unique[i]) {
      assert unique[i] in vs;
    }
    var sorted := Sort(unique);
    forall v ensures v in sorted <==> v in unique {
      assert v in sorted <==> v in multiset(sorted);
      assert v in unique <==> v in multiset(unique);
    }
  }

  function Insert(x: Value, s: seq<Value>): seq<Value> {
    if s == [] then [x]
    else if Less(s[0], x) then [s[0]] + Insert(x, s[1..])
    else [x] + s
  }

  lemma {:induction false} InsertElements(x: Value, s: seq<Value>)
    ensures multiset(Insert(x, s)) == multiset(s) + multiset{x}
    ensures forall v :: v in Insert(x, s) <==> v == x || v in s
  {
    if s != [] {
      assert s == [s[0]] + s[1..];
      if Less(s[0], x) {
        InsertElements(x, s[1..]);
      }
    }
  }

  lemma {:induction false} InsertSorted(x: Value, s: seq<Value>)
    requires StrictlySorted(s) && x !in s && Hashable(x)
    requires forall i :: 0 <= i < |s| ==> KindOf(s[i]) == KindOf(x)
    ensures StrictlySorted(Insert(x, s))
  {
    if s != [] {
      if Less(s[0], x) {
        var tail := s[1..];
        assert StrictlySorted(tail) by {
          forall i, j | 0 <= i < j < |tail| ensures Less(tail[i], tail[j]) {
            assert tail[i] == s[i + 1] && tail[j] == s[j + 1];
          }
        }
        InsertSorted(x, tail);
        InsertElements(x, tail);
        var r := Insert(x, tail);
        forall j | 0 <= j < |r| ensures Less(s[0], r[j]) {
          if r[j] != x {
            assert r[j] in tail;
            var k :| 0 <= k < |tail| && tail[k] == r[j];
            assert s[k + 1] == r[j];
          }
        }
        assert Insert(x, s) == [s[0]] + r;
      } else {
        assert x != s[0];
        LessTotal(x, s[0]);
        forall j | 1 <= j < |s| ensures Less(x, s[j]) {
          LessTransitive(x, s[0], s[j]);
        }
        assert Insert(x, s) == [x] + s;
      }
    }
  }

  /** `sorted(s)` for distinct values of one kind: the same values, in strictly
      ascending order. */
  function Sort(s: seq<Value>): (r: seq<Value>)
    requires Distinct(s) && OneKind(s) && forall i :: 0 <= i < |s| ==> Hashable(s[i])
    ensures StrictlySorted(r) && multiset(r) == multiset(s)
  {
    if s == [] then []
    else
      var n := |s| - 1;
      var prefix := s[..n];
      assert s == prefix + [s[n]];
      var sorted := Sort(prefix);
      assert s[n] !in sorted by {
        forall i | 0 <= i < n ensures prefix[i] != s[n] {
          assert prefix[i] == s[i];
        }
        assert s[n] !in multiset(prefix);
      }
      assert forall i :: 0 <= i < |sorted| ==> KindOf(sorted[i]) == KindOf(s[n]) by {
        forall i | 0 <= i < |sorted| ensures KindOf(sorted[i]) == KindOf(s[n]) {
          assert sorted[i] in multiset(prefix);
        }
      }
      InsertSorted(s[n], sorted);
      InsertElements(s[n], sorted);
      Insert(s[n], sorted)
  }

  /** A strictly sorted list is determined by its elements: sorting needs no
      particular order of the set it starts from. */
  lemma {:induction false} StrictlySortedUnique(a: seq<Value>, b: seq<Value>)
    requires StrictlySorted(a) && StrictlySorted(b)
    requires forall v :: v in a <==> v in b
    ensures a == b
    decreases |a|
  {
    if a != [] && b != [] {
      if a[0] != b[0] {
        assert a[0] in b;
        var j :| 0 <= j < |b| && b[j] == a[0];
        assert b[0] in a;
        var i :| 0 <= i < |a| && a[i] == b[0];
        assert Less(b[0], a[0]) && Less(a[0], b[0]);
        LessTransitive(a[0], b[0], a[0]);
        LessIrreflexive(a[0]);
        assert false;
      }
      forall v ensures v in a[1..] <==> v in b[1..] {
        if v in a[1..] {
          var i :| 1 <= i < |a| && a[i] == v;
          assert Less(a[0], v);
          LessIrreflexive(v);
          assert v != b[0];
          assert v in b;
        }
        if v in b[1..] {
          var j :| 1 <= j < |b| && b[j] == v;
          assert Less(b[0], v);
          LessIrreflexive(v);
          assert v in a;
        }
      }
      StrictlySortedUnique(a[1..], b[1..]);
      assert a == [a[0]] + a[1..] && b == [b[0]] + b[1..];
    } else if a != [] {
      HeadIsElement(a);
      assert false;
    } else if b != [] {
      HeadIsElement(b);
      assert false;
    }
  }

  lemma HeadIsElement(a: seq<Value>)
    ensures a != [] ==> a[0] in a
  {
  }
}
