/** Python values as the YAML and JSON parsers hand them to the dashboard, and the
    handful of built-in operations the dashboard applies to them: truthiness,
    `dict.get`, item assignment, `dict.update`, iteration, `len`, `in`,
    `str.lower` and `str.find`.

    A dict is an insertion-ordered association list. Lookup takes the first entry
    with the key and assignment replaces that entry in place (or appends a new one),
    so the operations agree with Python on every list whose keys are distinct,
    which is what a Python dict always is. */
module PyValues {

  datatype Option<+T> = None | Some(value: T)

  /** The outcome of running a piece of Python code: a value, or an exception.
      Nothing in the modelled code catches the exceptions it can raise, so their
      kind is not recorded. */
  datatype Result<+T> = Ok(value: T) | Raised {
    predicate IsFailure() { Raised? }
    function PropagateFailure<U>(): Result<U> requires Raised? { Raised }
    function Extract(): T requires Ok? { value }
  }

  /** An insertion-ordered dict with string keys. */
  type Assoc<V> = seq<(string, V)>

  /** A parsed YAML or JSON value. Python `int` and `float` are both `Num`. */
  datatype Value =
    | Null
    | Bool(b: bool)
    | Num(n: real)
    | Str(s: string)
    | Arr(items: seq<Value>)
    | Obj(fields: Assoc<Value>)

  type Dict = Assoc<Value>

  /** `bool(v)` */
  predicate Truthy(v: Value) {
    match v
    case Null => false
    case Bool(b) => b
    case Num(n) => n != 0.0
    case Str(s) => s != []
    case Arr(items) => items != []
    case Obj(fields) => fields != []
  }

  /** `x or y` */
  function Or(x: Value, y: Value): Value {
    if Truthy(x) then x else y
  }

  // ---------------------------------------------------------------------------
  // Dicts

  predicate HasKey<V>(d: Assoc<V>, k: string) {
    exists i :: 0 <= i < |d| && d[i].0 == k
  }

  /** Python dicts never hold a key twice. */
  predicate KeysUnique<V>(d: Assoc<V>) {
    forall i, j :: 0 <= i < j < |d| ==> d[i].0 != d[j].0
  }

  function Keys<V>(d: Assoc<V>): seq<string> {
    seq(|d|, i requires 0 <= i < |d| => d[i].0)
  }

  /** `d[k]` if `k in d`, else nothing. */
  function Find<V>(d: Assoc<V>, k: string): (r: Option<V>)
    ensures r.None? <==> !HasKey(d, k)
    ensures r.Some? ==> (k, r.value) in d
  {
    if d == [] then None
    else if d[0].0 == k then Some(d[0].1)
    else
      assert forall i :: 1 <= i < |d| ==> d[i] == d[1..][i - 1];
      Find(d[1..], k)
  }

  /** The entry at `i` is what `d[k]` finds when no earlier entry has its key. */
  lemma {:induction false} FindAt<V>(d: Assoc<V>, i: nat)
    requires i < |d| && forall j :: 0 <= j < i ==> d[j].0 != d[i].0
    ensures Find(d, d[i].0) == Some(d[i].1)
  {
    if i > 0 {
      assert forall j :: 0 <= j < i - 1 ==> d[1..][j] == d[j + 1];
      FindAt(d[1..], i - 1);
    }
  }

  /** `d.get(k, default)` on a dict. */
  function GetOr<V>(d: Assoc<V>, k: string, default: V): V {
    match Find(d, k)
    case Some(v) => v
    case None => default
  }

  /** `v.get(k, default)`: anything but a dict has no `get` (AttributeError). */
  function Get(v: Value, k: string, default: Value): Result<Value> {
    if v.Obj? then Ok(GetOr(v.fields, k, default)) else Raised
  }

  /** `v[k]` with a string key: a dict without the key raises KeyError, anything
      but a dict raises TypeError. */
  function Subscript(v: Value, k: string): Result<Value> {
    if v.Obj? && HasKey(v.fields, k) then Ok(Find(v.fields, k).value) else Raised
  }

  /** `d[k] = v` */
  function Assign<V>(d: Assoc<V>, k: string, v: V): Assoc<V> {
    if d == [] then [(k, v)]
    else if d[0].0 == k then [(k, v)] + d[1..]
    else [d[0]] + Assign(d[1..], k, v)
  }

  /** `d.update(p)`: the entries of `p` assigned one after the other. */
  function Update<V>(d: Assoc<V>, p: Assoc<V>): Assoc<V>
    decreases |p|
  {
    if p == [] then d else Update(Assign(d, p[0].0, p[0].1), p[1..])
  }

  lemma {:induction false} FindAssign<V>(d: Assoc<V>, k: string, v: V, key: string)
    ensures Find(Assign(d, k, v), key) == if key == k then Some(v) else Find(d, key)
  {
    if d != [] && d[0].0 != k {
      FindAssign(d[1..], k, v, key);
    }
  }

  lemma {:induction false} KeysAssign<V>(d: Assoc<V>, k: string, v: V)
    ensures Keys(Assign(d, k, v)) == if HasKey(d, k) then Keys(d) else Keys(d) + [k]
  {
    if d != [] && d[0].0 != k {
      KeysAssign(d[1..], k, v);
      assert Keys(d) == [d[0].0] + Keys(d[1..]);
      assert Keys([d[0]] + Assign(d[1..], k, v)) == [d[0].0] + Keys(Assign(d[1..], k, v));
      assert HasKey(d, k) <==> HasKey(d[1..], k) by {
        if HasKey(d, k) {
          var i :| 0 <= i < |d| && d[i].0 == k;
          assert d[1..][i - 1].0 == k;
        }
        if HasKey(d[1..], k) {
          var i :| 0 <= i < |d[1..]| && d[1..][i].0 == k;
          assert d[i + 1].0 == k;
        }
      }
    }
  }

  /** Every entry of `d` after `d[k] = v` is `(k, v)` or was already in `d`, and
      keys stay distinct. */
  lemma {:induction false} AssignEntries<V>(d: Assoc<V>, k: string, v: V)
    ensures forall e :: e in Assign(d, k, v) ==> e == (k, v) || e in d
    ensures KeysUnique(d) ==> KeysUnique(Assign(d, k, v))
  {
    if d != [] && d[0].0 != k {
      AssignEntries(d[1..], k, v);
      var tail := Assign(d[1..], k, v);
      assert Assign(d, k, v) == [d[0]] + tail;
      forall e | e in Assign(d, k, v) ensures e == (k, v) || e in d {
        if e != d[0] {
          assert e in tail;
          if e != (k, v) {
            assert e in d[1..];
          }
        }
      }
      if KeysUnique(d) {
        assert KeysUnique(d[1..]) by {
          forall i, j | 0 <= i < j < |d| - 1 ensures d[1..][i].0 != d[1..][j].0 {
            assert d[1..][i] == d[i + 1] && d[1..][j] == d[j + 1];
          }
        }
        forall e | e in tail ensures e.0 != d[0].0 {
          if e != (k, v) {
            assert e in d[1..];
            var j :| 0 <= j < |d[1..]| && d[1..][j] == e;
            assert d[j + 1] == e;
          }
        }
        forall i, j | 0 <= i < j < |Assign(d, k, v)|
          ensures Assign(d, k, v)[i].0 != Assign(d, k, v)[j].0
        {
          if i == 0 {
            assert Assign(d, k, v)[j] == tail[j - 1];
            assert tail[j - 1] in tail;
          } else {
            assert Assign(d, k, v)[i] == tail[i - 1] && Assign(d, k, v)[j] == tail[j - 1];
          }
        }
      }
    } else if d != [] && KeysUnique(d) {
      forall i, j | 0 <= i < j < |Assign(d, k, v)|
        ensures Assign(d, k, v)[i].0 != Assign(d, k, v)[j].0
      {
        assert Assign(d, k, v)[j] == d[j];
        if i > 0 {
          assert Assign(d, k, v)[i] == d[i];
        }
      }
    }
  }

  /** After `d.update(p)` a key reads as `p`'s value when `p` has it, else as `d`'s. */
  lemma {:induction false} FindUpdate<V>(d: Assoc<V>, p: Assoc<V>, key: string)
    requires KeysUnique(p)
    ensures Find(Update(d, p), key) == if HasKey(p, key) then Find(p, key) else Find(d, key)
    decreases |p|
  {
    if p != [] {
      var rest := p[1..];
      assert KeysUnique(rest) by {
        forall i, j | 0 <= i < j < |rest| ensures rest[i].0 != rest[j].0 {
          assert rest[i] == p[i + 1] && rest[j] == p[j + 1];
        }
      }
      FindUpdate(Assign(d, p[0].0, p[0].1), rest, key);
      FindAssign(d, p[0].0, p[0].1, key);
      if p[0].0 == key {
        forall i | 0 <= i < |rest| ensures rest[i].0 != key {
          assert rest[i] == p[i + 1];
        }
      } else {
        assert HasKey(p, key) <==> HasKey(rest, key) by {
          if HasKey(p, key) {
            var i :| 0 <= i < |p| && p[i].0 == key;
            assert rest[i - 1].0 == key;
          }
          if HasKey(rest, key) {
            var i :| 0 <= i < |rest| && rest[i].0 == key;
            assert p[i + 1].0 == key;
          }
        }
      }
    }
  }

  /** One item of `d.update(items)` when `items` is not a dict: the item must
      unpack into exactly two parts, a key and a value. A list of two gives its
      items, a string of two characters its characters and a dict of two keys its
      keys; a key that is a list or a dict is unhashable. */
  function PairOf(item: Value): (r: Result<(string, Value)>)
    ensures item.Arr? && |item.items| == 2 && item.items[0].Str? ==> r == Ok((item.items[0].s, item.items[1]))
    ensures item.Str? && |item.s| == 2 ==> r == Ok(([item.s[0]], Str([item.s[1]])))
    ensures r.Ok? ==> (item.Arr? && |item.items| == 2) || (item.Str? && |item.s| == 2) || (item.Obj? && |item.fields| == 2)
  {
    match item
    case Arr(xs) => if |xs| == 2 && xs[0].Str? then Ok((xs[0].s, xs[1])) else Raised
    case Str(s) => if |s| == 2 then Ok(([s[0]], Str([s[1]]))) else Raised
    case Obj(fs) => if |fs| == 2 then Ok((fs[0].0, Str(fs[1].0))) else Raised
    case _ => Raised
  }

  /** `d.update(items)` for an iterable of pairs: each pair is assigned in turn,
      and an item that is not a pair raises. */
  function UpdateItems(d: Dict, items: seq<Value>): Result<Dict> {
    var pairs :- MapResults(PairOf, items);
    Ok(Update(d, pairs))
  }

  /** After `d.update(p)` a key reads as the value of the last entry of `p` with
      that key, or as in `d` when `p` has none; this holds for any `p`, including
      one that repeats a key. */
  lemma {:induction false} FindUpdateLast<V>(d: Assoc<V>, p: Assoc<V>, key: string)
    ensures !HasKey(p, key) ==> Find(Update(d, p), key) == Find(d, key)
    ensures forall i :: 0 <= i < |p| && p[i].0 == key && (forall j :: i < j < |p| ==> p[j].0 != key) ==>
              Find(Update(d, p), key) == Some(p[i].1)
    decreases |p|
  {
    if p != [] {
      var rest := p[1..];
      FindUpdateLast(Assign(d, p[0].0, p[0].1), rest, key);
      FindAssign(d, p[0].0, p[0].1, key);
      forall i | 0 <= i < |p| && p[i].0 == key && (forall j :: i < j < |p| ==> p[j].0 != key)
        ensures Find(Update(d, p), key) == Some(p[i].1)
      {
        if i == 0 {
          assert !HasKey(rest, key) by {
            forall k | 0 <= k < |rest| ensures rest[k].0 != key { assert rest[k] == p[k + 1]; }
          }
        } else {
          assert rest[i - 1] == p[i];
          assert forall j :: i - 1 < j < |rest| ==> rest[j] == p[j + 1];
        }
      }
      if !HasKey(p, key) {
        assert !HasKey(rest, key) by {
          forall k | 0 <= k < |rest| ensures rest[k].0 != key { assert rest[k] == p[k + 1]; }
        }
      }
    }
  }

  /** The update succeeds exactly when every item is a pair, and afterwards a key
      reads as the value of the last pair with that key, or as before when no pair
      has it. */
  lemma UpdateItemsFind(d: Dict, items: seq<Value>, key: string)
    ensures UpdateItems(d, items).Ok? <==> forall i :: 0 <= i < |items| ==> PairOf(items[i]).Ok?
    ensures UpdateItems(d, items).Ok? && (forall i :: 0 <= i < |items| ==> PairOf(items[i]).value.0 != key) ==>
              Find(UpdateItems(d, items).value, key) == Find(d, key)
    ensures UpdateItems(d, items).Ok? ==>
              forall i :: 0 <= i < |items| && PairOf(items[i]).value.0 == key &&
                          (forall j :: i < j < |items| ==> PairOf(items[j]).value.0 != key) ==>
                Find(UpdateItems(d, items).value, key) == Some(PairOf(items[i]).value.1)
  {
    MapResultsOk(PairOf, items);
    if UpdateItems(d, items).Ok? {
      var pairs := MapResults(PairOf, items).value;
      FindUpdateLast(d, pairs, key);
      assert forall i :: 0 <= i < |items| ==> PairOf(items[i]).value == pairs[i];
    }
  }

  // ---------------------------------------------------------------------------
  // Sequences

  /** `for x in v`: a list gives its items, a dict its keys, a string its
      characters; anything else is not iterable (TypeError). */
  function Iter(v: Value): Result<seq<Value>> {
    match v
    case Arr(items) => Ok(items)
    case Obj(fields) => Ok(seq(|fields|, i requires 0 <= i < |fields| => Str(fields[i].0)))
    case Str(s) => Ok(seq(|s|, i requires 0 <= i < |s| => Str([s[i]])))
    case _ => Raised
  }

  /** Python code run on each element in turn, with the results collected; the
      first element that raises ends the run. */
  function MapResults<A, B>(f: A -> Result<B>, xs: seq<A>): Result<seq<B>> {
    if xs == [] then Ok([])
    else
      var prev :- MapResults(f, xs[..|xs| - 1]);
      var y :- f(xs[|xs| - 1]);
      Ok(prev + [y])
  }

  /** The run completes exactly when no element raises, and then yields one
      result per element, in order. */
  lemma {:induction false} MapResultsOk<A, B>(f: A -> Result<B>, xs: seq<A>)
    ensures MapResults(f, xs).Ok? <==> forall i :: 0 <= i < |xs| ==> f(xs[i]).Ok?
    ensures MapResults(f, xs).Ok? ==> |MapResults(f, xs).value| == |xs|
    ensures MapResults(f, xs).Ok? ==> forall i :: 0 <= i < |xs| ==> f(xs[i]) == Ok(MapResults(f, xs).value[i])
    decreases |xs|
  {
    if xs != [] {
      var n := |xs| - 1;
      assert forall i :: 0 <= i < n ==> xs[..n][i] == xs[i];
      MapResultsOk(f, xs[..n]);
    }
  }

  /** A loop that finishes yields one result per element. */
  lemma {:induction false} MapResultsLength<A, B>(f: A -> Result<B>, xs: seq<A>)
    ensures MapResults(f, xs).Ok? ==> |MapResults(f, xs).value| == |xs|
    decreases |xs|
  {
    if xs != [] {
      MapResultsLength(f, xs[..|xs| - 1]);
    }
  }

  /** One more pass of a loop that appends `f`'s result for each element. */
  lemma MapResultsStep<A, B>(f: A -> Result<B>, xs: seq<A>, i: nat, done: seq<B>)
    requires i < |xs| && MapResults(f, xs[..i]) == Ok(done) && f(xs[i]).Ok?
    ensures MapResults(f, xs[..i + 1]) == Ok(done + [f(xs[i]).value])
  {
    assert xs[..i + 1] == xs[..i] + [xs[i]];
    MapResultsSnoc(f, xs[..i], xs[i]);
  }

  /** A loop that appends `f`'s result for each element when there is one, and
      stops at the first exception. */
  function Collect<A, B>(f: A -> Result<Option<B>>, xs: seq<A>): Result<seq<B>> {
    var ys :- MapResults(f, xs);
    Ok(Somes(ys))
  }

  /** One more pass of such a loop: an exception ends the whole loop, a present
      result is appended, and an absent one changes nothing. */
  lemma CollectExtend<A, B>(f: A -> Result<Option<B>>, xs: seq<A>, i: nat)
    requires i < |xs|
    ensures f(xs[i]).Raised? ==> Collect(f, xs).Raised?
    ensures Collect(f, xs[..i]).Ok? && f(xs[i]).Ok? && f(xs[i]).value.Some? ==>
              Collect(f, xs[..i + 1]) == Ok(Collect(f, xs[..i]).value + [f(xs[i]).value.value])
    ensures Collect(f, xs[..i]).Ok? && f(xs[i]).Ok? && f(xs[i]).value.None? ==>
              Collect(f, xs[..i + 1]) == Collect(f, xs[..i])
  {
    if f(xs[i]).Raised? {
      MapResultsOk(f, xs);
    } else if MapResults(f, xs[..i]).Ok? {
      var done := MapResults(f, xs[..i]).value;
      MapResultsStep(f, xs, i, done);
      SomesSnoc(done, f(xs[i]).value);
    }
  }

  /** One element that raises makes the whole loop raise. */
  lemma MapResultsRaises<A, B>(f: A -> Result<B>, xs: seq<A>, i: nat)
    requires i < |xs| && f(xs[i]).Raised?
    ensures MapResults(f, xs).Raised?
  {
    MapResultsOk(f, xs);
  }

  lemma MapResultsSnoc<A, B>(f: A -> Result<B>, xs: seq<A>, x: A)
    ensures MapResults(f, xs + [x]) ==
      if MapResults(f, xs).Ok? && f(x).Ok? then Ok(MapResults(f, xs).value + [f(x).value]) else Raised
  {
    assert (xs + [x])[..|xs|] == xs;
  }

  lemma {:induction false} MapResultsAppend<A, B>(f: A -> Result<B>, a: seq<A>, b: seq<A>)
    ensures MapResults(f, a + b) ==
      if MapResults(f, a).Ok? && MapResults(f, b).Ok? then Ok(MapResults(f, a).value + MapResults(f, b).value) else Raised
    decreases |b|
  {
    if b == [] {
      assert a + b == a;
      if MapResults(f, a).Ok? {
        assert MapResults(f, a).value + MapResults(f, b).value == MapResults(f, a).value;
      }
    } else {
      var n := |b| - 1;
      assert a + b == (a + b[..n]) + [b[n]] && b == b[..n] + [b[n]];
      MapResultsAppend(f, a, b[..n]);
      MapResultsSnoc(f, a + b[..n], b[n]);
      MapResultsSnoc(f, b[..n], b[n]);
      if MapResults(f, a).Ok? && MapResults(f, b[..n]).Ok? && f(b[n]).Ok? {
        var x, y, z := MapResults(f, a).value, MapResults(f, b[..n]).value, f(b[n]).value;
        assert (x + y) + [z] == x + (y + [z]);
      }
    }
  }

  /** Two element-wise computations that agree on every element agree on the
      whole sequence. */
  lemma {:induction false} MapResultsPointwise<A, B>(f: A -> Result<B>, g: A -> Result<B>, xs: seq<A>)
    requires forall i :: 0 <= i < |xs| ==> f(xs[i]) == g(xs[i])
    ensures MapResults(f, xs) == MapResults(g, xs)
    decreases |xs|
  {
    if xs != [] {
      var n := |xs| - 1;
      assert forall i :: 0 <= i < n ==> xs[..n][i] == xs[i];
      MapResultsPointwise(f, g, xs[..n]);
    }
  }

  /** `sum(xs)` on numbers. */
  function Sum(xs: seq<real>): real {
    if xs == [] then 0.0 else Sum(xs[..|xs| - 1]) + xs[|xs| - 1]
  }

  lemma {:induction false} SumAppend(a: seq<real>, b: seq<real>)
    ensures Sum(a + b) == Sum(a) + Sum(b)
    decreases |b|
  {
    if b == [] {
      assert a + b == a;
    } else {
      var n := |b| - 1;
      assert (a + b)[..|a| + n] == a + b[..n];
      SumAppend(a, b[..n]);
    }
  }

  lemma {:induction false} SumNonNegative(xs: seq<real>)
    requires forall i :: 0 <= i < |xs| ==> xs[i] >= 0.0
    ensures Sum(xs) >= 0.0
    decreases |xs|
  {
    if xs != [] {
      var n := |xs| - 1;
      assert forall i :: 0 <= i < n ==> xs[..n][i] == xs[i];
      SumNonNegative(xs[..n]);
    }
  }

  /** The present values of `ys`, in order (a comprehension with an `if`). */
  function Somes<T>(ys: seq<Option<T>>): (r: seq<T>)
    ensures |r| <= |ys|
  {
    if ys == [] then []
    else
      var n := |ys| - 1;
      var prev := Somes(ys[..n]);
      match ys[n]
      case Some(y) => prev + [y]
      case None => prev
  }

  lemma SomesSnoc<T>(ys: seq<Option<T>>, y: Option<T>)
    ensures Somes(ys + [y]) == if y.Some? then Somes(ys) + [y.value] else Somes(ys)
  {
    assert (ys + [y])[..|ys|] == ys;
  }

  lemma {:induction false} SomesAppend<T>(a: seq<Option<T>>, b: seq<Option<T>>)
    ensures Somes(a + b) == Somes(a) + Somes(b)
    decreases |b|
  {
    if b == [] {
      assert a + b == a;
    } else {
      var n := |b| - 1;
      assert a + b == (a + b[..n]) + [b[n]] && b == b[..n] + [b[n]];
      SomesAppend(a, b[..n]);
      SomesSnoc(a + b[..n], b[n]);
      SomesSnoc(b[..n], b[n]);
    }
  }

  /** When every value is present, `Somes` keeps them all. */
  lemma {:induction false} SomesAllPresent<T>(ys: seq<Option<T>>)
    requires forall i :: 0 <= i < |ys| ==> ys[i].Some?
    ensures |Somes(ys)| == |ys| && forall i :: 0 <= i < |ys| ==> Somes(ys)[i] == ys[i].value
    decreases |ys|
  {
    if ys != [] {
      var n := |ys| - 1;
      assert forall i :: 0 <= i < n ==> ys[..n][i] == ys[i];
      SomesAllPresent(ys[..n]);
    }
  }

  /** When no value is present, `Somes` keeps nothing. */
  lemma {:induction false} SomesNonePresent<T>(ys: seq<Option<T>>)
    requires forall i :: 0 <= i < |ys| ==> ys[i].None?
    ensures Somes(ys) == []
    decreases |ys|
  {
    if ys != [] {
      var n := |ys| - 1;
      assert forall i :: 0 <= i < n ==> ys[..n][i] == ys[i];
      SomesNonePresent(ys[..n]);
    }
  }

  /** `Somes(ys)` keeps, through `idx`, exactly the present values of `ys`: the
      k-th result is `ys[idx[k]]`, the positions ascend, and none is skipped. */
  lemma {:induction false} SomesIndexed<T>(ys: seq<Option<T>>) returns (idx: seq<nat>)
    ensures |idx| == |Somes(ys)|
    ensures forall k :: 0 <= k < |idx| ==> idx[k] < |ys| && ys[idx[k]] == Some(Somes(ys)[k])
    ensures forall k, l :: 0 <= k < l < |idx| ==> idx[k] < idx[l]
    ensures forall i :: 0 <= i < |ys| && ys[i].Some? ==> i in idx
    decreases |ys|
  {
    if ys == [] {
      idx := [];
    } else {
      var n := |ys| - 1;
      var prefix := ys[..n];
      var prev := SomesIndexed(prefix);
      var out', out := Somes(prefix), Somes(ys);
      assert forall i :: 0 <= i < n ==> prefix[i] == ys[i];
      if ys[n].Some? {
        idx := prev + [n];
        assert out == out' + [ys[n].value];
        assert idx[|prev|] == n;
      } else {
        idx := prev;
      }
    }
  }

  /** `t in v` for a string `t`: element of a list, key of a dict, substring of a
      string; `in` on anything else raises TypeError. */
  function ContainsText(v: Value, t: string): Result<bool> {
    match v
    case Arr(items) => Ok(Str(t) in items)
    case Obj(fields) => Ok(HasKey(fields, t))
    case Str(s) => Ok(IndexOf(s, t).Some?)
    case _ => Raised
  }

  /** Python's `bool` is a subclass of `int`: in arithmetic and in `==`, `True` is 1
      and `False` is 0. */
  predicate IsNumeric(v: Value) {
    v.Num? || v.Bool?
  }

  function NumericValue(v: Value): real
    requires IsNumeric(v)
  {
    if v.Bool? then (if v.b then 1.0 else 0.0) else v.n
  }

  /** A number as Python arithmetic sees it (a boolean counting as 0 or 1);
      anything else makes `+` or `**` raise. */
  function AsNumber(v: Value): (r: Result<real>)
    ensures r.Ok? <==> IsNumeric(v)
    ensures v.Num? ==> r == Ok(v.n)
    ensures v == Bool(true) ==> r == Ok(1.0)
    ensures v == Bool(false) ==> r == Ok(0.0)
  {
    if IsNumeric(v) then Ok(NumericValue(v)) else Raised
  }

  /** Python `==` on two values: numbers and booleans compare by numeric value, so
      `True == 1` and `False == 0.0`; all other values compare structurally. */
  predicate PyEq(a: Value, b: Value) {
    if IsNumeric(a) && IsNumeric(b) then NumericValue(a) == NumericValue(b) else a == b
  }

  // ---------------------------------------------------------------------------
  // Strings

  predicate OccursAt(s: string, pat: string, i: nat) {
    i + |pat| <= |s| && s[i..i + |pat|] == pat
  }

  /** `s.find(pat)`, with -1 as `None`: the first position where `pat` occurs. */
  function IndexOf(s: string, pat: string): (r: Option<nat>)
    ensures r.Some? ==> OccursAt(s, pat, r.value) && forall j :: 0 <= j < r.value ==> !OccursAt(s, pat, j)
    ensures r.None? ==> forall j :: 0 <= j <= |s| ==> !OccursAt(s, pat, j)
  {
    IndexFrom(s, pat, 0)
  }

  function IndexFrom(s: string, pat: string, from: nat): (r: Option<nat>)
    ensures r.Some? ==> from <= r.value && OccursAt(s, pat, r.value)
    ensures r.Some? ==> forall j :: from <= j < r.value ==> !OccursAt(s, pat, j)
    ensures r.None? ==> forall j :: from <= j <= |s| ==> !OccursAt(s, pat, j)
    decreases |s| - from
  {
    if from + |pat| > |s| then None
    else if s[from..from + |pat|] == pat then Some(from)
    else IndexFrom(s, pat, from + 1)
  }

  /** `str.lower()` on ASCII letters. */
  function LowerAscii(s: string): string {
    seq(|s|, i requires 0 <= i < |s| => if 'A' <= s[i] <= 'Z' then (s[i] as int + 32) as char else s[i])
  }
}
