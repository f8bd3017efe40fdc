/** The JSON-like device records the vendor API hands to the integration, with
    the parts of Python's semantics the integration relies on: truthiness,
    `==`, dict indexing, `.get`, assignment and `del`, `in`, iteration and `str`.
    Python's exceptions are results (`Py`), so every operation is total. */
module PyJson {
  import opened Text

  datatype Json =
    | Null
    | Bool(b: bool)
    | Int(i: int)
    | Str(s: string)
    | Object(fields: seq<Field>)
    | Array(items: seq<Json>)

  /** One entry of a dict; a dict keeps its entries in insertion order. */
  datatype Field = Field(key: string, val: Json)

  /** The exceptions the modelled code raises. */
  datatype Exc =
    | KeyError(key: Json)
    | TypeError
    | AttributeError
    | IndexError
    | ValueError
    | ZeroDivisionError
    | ServiceValidationError(translationKey: string, placeholder: Json)
    | PuraApiException(message: string)
    | UpdateFailed

  /** A value, or the exception Python raises instead. */
  datatype Py<+T> = Ok(value: T) | Raise(exc: Exc) {
    predicate IsFailure() { Raise? }
    function PropagateFailure<U>(): Py<U> requires Raise? { Raise(exc) }
    function Extract(): T requires Ok? { value }
  }

  /** Python's `bool(j)`. */
  predicate Truthy(j: Json)
  {
    match j
    case Null => false
    case Bool(b) => b
    case Int(i) => i != 0
    case Str(s) => s != ""
    case Object(fs) => fs != []
    case Array(xs) => xs != []
  }

  /** The numeric value of a Python int; `bool` is a subclass of `int`. */
  function Number(j: Json): Option<int>
  {
    match j
    case Bool(b) => Some(if b then 1 else 0)
    case Int(i) => Some(i)
    case _ => None
  }

  // ---------------------------------------------------------------- dicts

  predicate HasKey(fs: seq<Field>, k: string)
  {
    exists i :: 0 <= i < |fs| && fs[i].key == k
  }

  predicate UniqueKeys(fs: seq<Field>)
  {
    forall i, j :: 0 <= i < j < |fs| ==> fs[i].key != fs[j].key
  }

  /** A value that Python could hold: every dict, at any depth, has distinct keys. */
  predicate WellFormed(j: Json)
  {
    match j
    case Object(fs) => UniqueKeys(fs) && forall i :: 0 <= i < |fs| ==> WellFormed(fs[i].val)
    case Array(xs) => forall i :: 0 <= i < |xs| ==> WellFormed(xs[i])
    case _ => true
  }

  /** The value stored under `k`: that of its first entry. */
  function Lookup(fs: seq<Field>, k: string): (r: Option<Json>)
    ensures r.Some? <==> HasKey(fs, k)
    ensures r.Some? ==> exists i :: 0 <= i < |fs| && fs[i] == Field(k, r.value)
  {
    if fs == [] then None
    else if fs[0].key == k then Some(fs[0].val)
    else
      var r := Lookup(fs[1..], k);
      assert HasKey(fs, k) ==> HasKey(fs[1..], k) by {
        if HasKey(fs, k) {
          var i :| 0 <= i < |fs| && fs[i].key == k;
          assert fs[1..][i - 1].key == k;
        }
      }
      r
  }

  lemma {:induction false} LookupAt(fs: seq<Field>, i: nat)
    requires UniqueKeys(fs) && i < |fs|
    ensures Lookup(fs, fs[i].key) == Some(fs[i].val)
  {
    if i > 0 {
      assert fs[0].key != fs[i].key;
      LookupAt(fs[1..], i - 1);
    }
  }

  lemma HasKeyTail(fs: seq<Field>, k: string)
    requires fs != [] && fs[0].key != k
    ensures HasKey(fs, k) <==> HasKey(fs[1..], k)
  {
    if HasKey(fs, k) {
      var i :| 0 <= i < |fs| && fs[i].key == k;
      assert fs[1..][i - 1].key == k;
    }
    if HasKey(fs[1..], k) {
      var i :| 0 <= i < |fs[1..]| && fs[1..][i].key == k;
      assert fs[i + 1].key == k;
    }
  }

  lemma UniqueCons(f: Field, fs: seq<Field>)
    ensures UniqueKeys([f] + fs) <==> UniqueKeys(fs) && !HasKey(fs, f.key)
  {
    var r := [f] + fs;
    if UniqueKeys(r) {
      forall i | 0 <= i < |fs| ensures fs[i].key != f.key {
        assert r[i + 1] == fs[i];
        assert r[0].key != r[i + 1].key;
      }
    }
    if UniqueKeys(r) {
      forall i, j | 0 <= i < j < |fs| ensures fs[i].key != fs[j].key {
        assert fs[i] == r[i + 1] && fs[j] == r[j + 1];
      }
    }
    if UniqueKeys(fs) && !HasKey(fs, f.key) {
      forall i, j | 0 <= i < j < |r| ensures r[i].key != r[j].key {
        if i == 0 {
          assert fs[j - 1].key == r[j].key;
        } else {
          assert r[i].key == fs[i - 1].key && r[j].key == fs[j - 1].key;
        }
      }
    }
  }

  /** With distinct keys, the last key does not occur before it. */
  lemma UniqueLast(fs: seq<Field>)
    requires UniqueKeys(fs) && fs != []
    ensures !HasKey(fs[..|fs| - 1], fs[|fs| - 1].key)
  {
    var n := |fs| - 1;
    forall j | 0 <= j < n ensures fs[..n][j].key != fs[n].key {
      assert fs[..n][j] == fs[j];
    }
  }

  /** `d[k] = v`: an existing key keeps its place, a new key goes last. */
  function Put(fs: seq<Field>, k: string, v: Json): (r: seq<Field>)
    ensures Lookup(r, k) == Some(v)
    ensures forall k' :: k' != k ==> Lookup(r, k') == Lookup(fs, k')
  {
    if fs == [] then [Field(k, v)]
    else if fs[0].key == k then [Field(k, v)] + fs[1..]
    else
      var tail := Put(fs[1..], k, v);
      var r := [fs[0]] + tail;
      assert r[1..] == tail;
      assert Lookup(r, k) == Lookup(tail, k);
      forall k' | k' != k ensures Lookup(r, k') == Lookup(fs, k') {
        if fs[0].key != k' {
          assert Lookup(r, k') == Lookup(tail, k');
        }
      }
      r
  }

  /** Assignment keeps the keys of a dict distinct. */
  lemma {:induction false} PutUnique(fs: seq<Field>, k: string, v: Json)
    ensures UniqueKeys(fs) ==> UniqueKeys(Put(fs, k, v))
  {
    if fs != [] && UniqueKeys(fs) {
      UniqueCons(fs[0], fs[1..]);
      assert [fs[0]] + fs[1..] == fs;
      if fs[0].key == k {
        UniqueCons(Field(k, v), fs[1..]);
      } else {
        var tail := Put(fs[1..], k, v);
        PutUnique(fs[1..], k, v);
        assert Put(fs, k, v) == [fs[0]] + tail;
        assert Lookup(tail, fs[0].key) == Lookup(fs[1..], fs[0].key);
        UniqueCons(fs[0], tail);
      }
    }
  }

  /** Assigning the value a key already holds changes nothing. */
  lemma {:induction false} PutSame(fs: seq<Field>, k: string, v: Json)
    requires Lookup(fs, k) == Some(v)
    ensures Put(fs, k, v) == fs
  {
    assert [fs[0]] + fs[1..] == fs;
    if fs[0].key == k {
      assert fs[0] == Field(k, v);
      assert Put(fs, k, v) == [Field(k, v)] + fs[1..];
    } else {
      assert Lookup(fs[1..], k) == Some(v);
      PutSame(fs[1..], k, v);
      assert Put(fs, k, v) == [fs[0]] + Put(fs[1..], k, v);
    }
  }

  /** Assignment to an existing key keeps the order of the keys. */
  lemma {:induction false} PutKeepsOrder(fs: seq<Field>, k: string, v: Json)
    requires HasKey(fs, k)
    ensures |Put(fs, k, v)| == |fs| && forall i :: 0 <= i < |fs| ==> Put(fs, k, v)[i].key == fs[i].key
  {
    var r := Put(fs, k, v);
    if fs[0].key == k {
      assert r == [Field(k, v)] + fs[1..];
      forall i | 0 <= i < |fs| ensures r[i].key == fs[i].key {
        if i > 0 {
          assert r[i] == fs[1..][i - 1];
        }
      }
    } else {
      HasKeyTail(fs, k);
      PutKeepsOrder(fs[1..], k, v);
      var tail := Put(fs[1..], k, v);
      assert r == [fs[0]] + tail;
      forall i | 0 <= i < |fs| ensures r[i].key == fs[i].key {
        if i > 0 {
          assert r[i] == tail[i - 1];
        }
      }
    }
  }

  /** A new key is appended after all the others. */
  lemma {:induction false} PutAppends(fs: seq<Field>, k: string, v: Json)
    requires Lookup(fs, k) == None
    ensures Put(fs, k, v) == fs + [Field(k, v)]
  {
    if fs == [] {
      assert Put(fs, k, v) == [Field(k, v)];
    } else {
      assert fs[0].key != k;
      assert Lookup(fs[1..], k) == None;
      PutAppends(fs[1..], k, v);
      var tail := fs[1..] + [Field(k, v)];
      assert Put(fs, k, v) == [fs[0]] + tail;
      assert [fs[0]] + tail == fs + [Field(k, v)];
    }
  }

  /** Every entry after an assignment is an old entry or the new one. */
  lemma {:induction false} PutFrom(fs: seq<Field>, k: string, v: Json)
    ensures forall f :: f in Put(fs, k, v) ==> f in fs || f == Field(k, v)
  {
    if fs != [] && fs[0].key != k {
      PutFrom(fs[1..], k, v);
      assert Put(fs, k, v) == [fs[0]] + Put(fs[1..], k, v);
      assert forall f :: f in fs[1..] ==> f in fs;
    } else if fs != [] {
      assert forall f :: f in fs[1..] ==> f in fs;
    }
  }

  /** `del d[k]` for a key the dict holds. */
  function Remove(fs: seq<Field>, k: string): (r: seq<Field>)
    ensures forall k' :: k' != k ==> Lookup(r, k') == Lookup(fs, k')
    ensures UniqueKeys(fs) ==> UniqueKeys(r) && Lookup(r, k) == None
    ensures |r| <= |fs|
  {
    if fs == [] then []
    else if fs[0].key == k then
      UniqueCons(fs[0], fs[1..]);
      assert [fs[0]] + fs[1..] == fs;
      fs[1..]
    else
      var tail := Remove(fs[1..], k);
      var r := [fs[0]] + tail;
      UniqueCons(fs[0], fs[1..]);
      UniqueCons(fs[0], tail);
      assert [fs[0]] + fs[1..] == fs;
      assert HasKey(tail, fs[0].key) == HasKey(fs[1..], fs[0].key) by {
        assert Lookup(tail, fs[0].key) == Lookup(fs[1..], fs[0].key);
      }
      r
  }

  lemma {:induction false} ObjectKeysUnique(fs: seq<Field>, i: nat)
    requires WellFormed(Object(fs)) && i < |fs|
    ensures WellFormed(fs[i].val) && Lookup(fs, fs[i].key) == Some(fs[i].val)
  {
    LookupAt(fs, i);
  }

  /** A value read out of a well-formed dict is well-formed. */
  lemma ValueAtWellFormed(j: Json, k: string)
    requires WellFormed(j)
    ensures WellFormed(ValueAt(j, k))
  {
    if j.Object? && HasKey(j.fields, k) {
      var i :| 0 <= i < |j.fields| && j.fields[i] == Field(k, ValueAt(j, k));
      ObjectKeysUnique(j.fields, i);
    }
  }

  /** `j[k]` with a string key. */
  function Index(j: Json, k: string): (r: Py<Json>)
    ensures r.Ok? <==> j.Object? && HasKey(j.fields, k)
    ensures r.Ok? ==> Lookup(j.fields, k) == Some(r.value)
    ensures j.Object? && !HasKey(j.fields, k) ==> r == Raise(KeyError(Str(k)))
    ensures !j.Object? ==> r == Raise(TypeError)
  {
    match j
    case Object(fs) =>
      (match Lookup(fs, k)
       case Some(v) => Ok(v)
       case None => Raise(KeyError(Str(k))))
    case _ => Raise(TypeError)
  }

  /** `j[key]` for a key of any type. The dicts here have string keys, so
      any other hashable key is missing from a dict; a list or dict key is
      unhashable, and no position either, so it raises TypeError. Indexing
      a list or a string by position is not part of this model and gives
      TypeError. */
  function Subscript(j: Json, key: Json): (r: Py<Json>)
    ensures key.Str? ==> r == Index(j, key.s)
    ensures key.Array? || key.Object? ==> r == Raise(TypeError)
    ensures j.Object? && (key.Null? || key.Bool? || key.Int?) ==> r == Raise(KeyError(key))
    ensures !j.Object? && !key.Str? ==> r == Raise(TypeError)
  {
    match key
    case Str(k) => Index(j, k)
    case Array(_) => Raise(TypeError)
    case Object(_) => Raise(TypeError)
    case _ => if j.Object? then Raise(KeyError(key)) else Raise(TypeError)
  }

  /** `j.get(k, default)`. */
  function Get(j: Json, k: string, default: Json): (r: Py<Json>)
    ensures r.Ok? <==> j.Object?
    ensures r.Ok? ==> r.value == (if HasKey(j.fields, k) then Lookup(j.fields, k).value else default)
    ensures !j.Object? ==> r == Raise(AttributeError)
  {
    match j
    case Object(fs) =>
      (match Lookup(fs, k)
       case Some(v) => Ok(v)
       case None => Ok(default))
    case _ => Raise(AttributeError)
  }

  /** `j.get(k)` for a dict, None for anything else: the value a contract
      talks about. */
  function ValueAt(j: Json, k: string): (r: Json)
    ensures j.Object? && HasKey(j.fields, k) ==> Lookup(j.fields, k) == Some(r)
    ensures !(j.Object? && HasKey(j.fields, k)) ==> r == Null
  {
    if j.Object? && HasKey(j.fields, k) then Lookup(j.fields, k).value else Null
  }

  /** `d | {k: v}` for a dict `j`; any other left operand is a TypeError. */
  function With(j: Json, k: string, v: Json): (r: Py<Json>)
    ensures r.Ok? <==> j.Object?
    ensures r.Ok? ==> r.value.Object? && Lookup(r.value.fields, k) == Some(v)
    ensures r.Ok? ==> forall k' :: k' != k ==> Lookup(r.value.fields, k') == Lookup(j.fields, k')
  {
    if j.Object? then Ok(Object(Put(j.fields, k, v))) else Raise(TypeError)
  }

  // ---------------------------------------------------------------- equality

  /** Python's `a == b` on these values: `True == 1`, and two dicts are equal
      when they have as many entries and each key of `a` maps, in `b`, to an
      equal value (the key order does not matter). */
  predicate Equal(a: Json, b: Json)
  {
    match a
    case Null => b.Null?
    case Bool(_) => Number(b).Some? && Number(a) == Number(b)
    case Int(_) => Number(b).Some? && Number(a) == Number(b)
    case Str(s) => b.Str? && b.s == s
    case Object(fa) =>
      b.Object? && |fa| == |b.fields| &&
      forall i :: 0 <= i < |fa| ==>
        (match Lookup(b.fields, fa[i].key)
         case None => false
         case Some(v) => Equal(fa[i].val, v))
    case Array(xa) =>
      b.Array? && |xa| == |b.items| &&
      forall i :: 0 <= i < |xa| ==> Equal(xa[i], b.items[i])
  }

  lemma {:induction false} EqualReflexive(a: Json)
    requires WellFormed(a)
    ensures Equal(a, a)
  {
    match a
    case Object(fa) =>
      forall i | 0 <= i < |fa|
        ensures Lookup(fa, fa[i].key) == Some(fa[i].val) && Equal(fa[i].val, fa[i].val)
      {
        LookupAt(fa, i);
        EqualReflexive(fa[i].val);
      }
    case Array(xa) =>
      forall i | 0 <= i < |xa| ensures Equal(xa[i], xa[i]) {
        EqualReflexive(xa[i]);
      }
    case _ =>
  }

  /** Equality with a string is string identity. */
  lemma EqualStr(a: Json, s: string)
    ensures Equal(a, Str(s)) <==> a == Str(s)
  {
  }

  // ---------------------------------------------------------------- ordering

  /** `a <= b` on text: lexicographic by code point. */
  predicate StrLessEq(a: string, b: string)
  {
    a == [] || (b != [] && (a[0] < b[0] || (a[0] == b[0] && StrLessEq(a[1..], b[1..]))))
  }

  /** `a <= b` for two numbers (a bool counts as 0 or 1) or two strings;
      every other pair raises TypeError. */
  function LessEq(a: Json, b: Json): (r: Py<bool>)
    ensures Number(a).Some? && Number(b).Some? ==> r == Ok(Number(a).value <= Number(b).value)
    ensures a.Str? && b.Str? ==> r == Ok(StrLessEq(a.s, b.s))
    ensures a.Null? || b.Null? || a.Object? || b.Object? ==> r == Raise(TypeError)
  {
    if Number(a).Some? && Number(b).Some? then Ok(Number(a).value <= Number(b).value)
    else if a.Str? && b.Str? then Ok(StrLessEq(a.s, b.s))
    else Raise(TypeError)
  }

  // ---------------------------------------------------------------- in, iteration

  /** `needle in hay` for a string needle: a key of a dict, a substring of a
      string, an element of a list; other containers raise TypeError. */
  function Contains(hay: Json, needle: string): (r: Py<bool>)
    ensures hay.Object? ==> r == Ok(HasKey(hay.fields, needle))
    ensures hay.Null? || hay.Bool? || hay.Int? ==> r == Raise(TypeError)
  {
    match hay
    case Object(fs) => Ok(HasKey(fs, needle))
    case Str(s) => Ok(exists i | 0 <= i <= |s| :: OccursAt(needle, s, i))
    case Array(xs) => Ok(exists i :: 0 <= i < |xs| && Equal(xs[i], Str(needle)))
    case _ => Raise(TypeError)
  }

  predicate OccursAt(needle: string, s: string, i: int)
  {
    0 <= i && i + |needle| <= |s| && s[i..i + |needle|] == needle
  }

  function KeysOf(fs: seq<Field>): (r: seq<Json>)
    ensures |r| == |fs| && forall i :: 0 <= i < |fs| ==> r[i] == Str(fs[i].key)
  {
    seq(|fs|, i requires 0 <= i < |fs| => Str(fs[i].key))
  }

  /** The elements `for x in j` visits: a dict's keys, a string's characters,
      a list's items; anything else is not iterable. */
  function Iterate(j: Json): (r: Py<seq<Json>>)
    ensures j.Array? ==> r == Ok(j.items)
    ensures j.Object? ==> r == Ok(KeysOf(j.fields))
    ensures j.Null? || j.Bool? || j.Int? ==> r == Raise(TypeError)
    ensures r.Ok? && !j.Array? ==> forall i :: 0 <= i < |r.value| ==> r.value[i].Str?
  {
    match j
    case Array(xs) => Ok(xs)
    case Object(fs) => Ok(KeysOf(fs))
    case Str(s) => Ok(seq(|s|, i requires 0 <= i < |s| => Str([s[i]])))
    case _ => Raise(TypeError)
  }

  // ---------------------------------------------------------------- str()

  /** `str(j)`, which is also what an f-string inserts. */
  function ToStr(j: Json): (r: string)
    ensures j.Str? ==> r == j.s
    ensures j.Int? ==> r == IntToStr(j.i)
    ensures j.Null? ==> r == "None"
  {
    if j.Str? then j.s else Repr(j)
  }

  /** `repr(j)`; strings are quoted with `'` and not escaped. */
  function Repr(j: Json): string
  {
    match j
    case Null => "None"
    case Bool(b) => if b then "True" else "False"
    case Int(i) => IntToStr(i)
    case Str(s) => "'" + s + "'"
    case Object(fs) => "{" + ReprFields(fs) + "}"
    case Array(xs) => "[" + ReprItems(xs) + "]"
  }

  function ReprFields(fs: seq<Field>): string
  {
    if fs == [] then ""
    else
      var entry := "'" + fs[0].key + "': " + Repr(fs[0].val);
      if |fs| == 1 then entry else entry + ", " + ReprFields(fs[1..])
  }

  function ReprItems(xs: seq<Json>): string
  {
    if xs == [] then ""
    else if |xs| == 1 then Repr(xs[0])
    else Repr(xs[0]) + ", " + ReprItems(xs[1..])
  }

  /** Only a string or a non-negative int prints as a numeric string. */
  lemma NumericStr(j: Json)
    requires IsNumeric(ToStr(j))
    ensures j.Str? || (j.Int? && j.i >= 0)
  {
    var r := ToStr(j);
    assert IsDigit(r[0]);
    match j
    case Int(i) =>
    case Str(_) =>
    case _ =>
  }
}
