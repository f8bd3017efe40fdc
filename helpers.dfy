/** The record helpers of the integration: the recursive merge that applies a
    pushed device update, and the small derivations over a device record. */
module Helpers {
  import opened Text
  import opened PyJson

  // ================================================================ deep_merge

  /** The dict `deep_merge(target, patch)` leaves behind. The patch entries are
      applied in order; `Step` applies the last one to the result of the
      others. */
  function Merge(target: seq<Field>, patch: seq<Field>): (r: seq<Field>)
    ensures UniqueKeys(target) ==> UniqueKeys(r)
    decreases patch, 1
  {
    if patch == [] then target
    else Step(Merge(target, patch[..|patch| - 1]), patch, |patch| - 1)
  }

  /** One iteration of the merge loop, for the entry `patch[i]`: two dicts are
      merged recursively, a new key is added, a changed value replaces the old
      one, and an existing `code` that changes to a falsy value also deletes
      the sibling `fragrance`. */
  function Step(acc: seq<Field>, patch: seq<Field>, i: nat): (r: seq<Field>)
    requires i < |patch|
    ensures UniqueKeys(acc) ==> UniqueKeys(r)
    decreases patch, 0
  {
    var k := patch[i].key;
    var v := patch[i].val;
    match Lookup(acc, k)
    case None =>
      PutUnique(acc, k, v);
      Put(acc, k, v)
    case Some(cur) =>
      if cur.Object? && v.Object? then
        var merged := Object(Merge(cur.fields, v.fields));
        PutUnique(acc, k, merged);
        Put(acc, k, merged)
      else if Equal(cur, v) then acc
      else
        var a := Put(acc, k, v);
        PutUnique(acc, k, v);
        if k == "code" && !Truthy(v) && HasKey(a, "fragrance") then Remove(a, "fragrance") else a
  }

  /** `deep_merge(dict1, dict2)`: a loop over the patch entries that recurses
      into nested dicts. */
  method DeepMerge(target: seq<Field>, patch: seq<Field>) returns (r: seq<Field>)
    ensures r == Merge(target, patch)
    decreases patch
  {
    r := target;
    var i := 0;
    while i < |patch|
      invariant i <= |patch|
      invariant r == Merge(target, patch[..i])
    {
      var key := patch[i].key;
      var value := patch[i].val;
      assert patch[..i + 1][..i] == patch[..i];
      assert patch[..i + 1][i] == patch[i];
      var cur := Lookup(r, key);
      if cur.Some? && cur.value.Object? && value.Object? {
        var nested := DeepMerge(cur.value.fields, value.fields);
        r := Put(r, key, Object(nested));
      } else if cur.None? {
        r := Put(r, key, value);
      } else if !Equal(cur.value, value) {
        r := Put(r, key, value);
        if key == "code" && !Truthy(value) && HasKey(r, "fragrance") {
          r := Remove(r, "fragrance");
        }
      }
      i := i + 1;
    }
    assert patch[..|patch|] == patch;
  }

  /** The value the merge leaves at a patch key, given what the target held
      there: the recursive merge of two dicts, the patch value, or the old
      value when the two compare equal. */
  function Updated(cur: Option<Json>, v: Json): Json
  {
    match cur
    case None => v
    case Some(c) =>
      if c.Object? && v.Object? then Object(Merge(c.fields, v.fields))
      else if Equal(c, v) then c
      else v
  }

  /** The code-clear rule fires: an existing `code` changes to a falsy value. */
  predicate ClearsFragrance(cur: Option<Json>, v: Json)
  {
    cur.Some? && !(cur.value.Object? && v.Object?) && !Equal(cur.value, v) && !Truthy(v)
  }

  /** The code-clear rule fires for this target and patch. */
  predicate CodeCleared(target: seq<Field>, patch: seq<Field>)
  {
    match Lookup(patch, "code")
    case None => false
    case Some(v) => ClearsFragrance(Lookup(target, "code"), v)
  }

  lemma StepAt(acc: seq<Field>, patch: seq<Field>, i: nat)
    requires i < |patch|
    ensures Lookup(Step(acc, patch, i), patch[i].key) == Some(Updated(Lookup(acc, patch[i].key), patch[i].val))
  {
    var k, v := patch[i].key, patch[i].val;
    match Lookup(acc, k)
    case None =>
    case Some(cur) =>
      if !(cur.Object? && v.Object?) && !Equal(cur, v) {
        var a := Put(acc, k, v);
        if k == "code" && !Truthy(v) && HasKey(a, "fragrance") {
          assert Lookup(Remove(a, "fragrance"), k) == Lookup(a, k);
        }
      }
  }

  lemma StepOther(acc: seq<Field>, patch: seq<Field>, i: nat, k: string)
    requires i < |patch| && k != patch[i].key
    requires k != "fragrance" || patch[i].key != "code"
    ensures Lookup(Step(acc, patch, i), k) == Lookup(acc, k)
  {
  }

  lemma StepFragrance(acc: seq<Field>, patch: seq<Field>, i: nat)
    requires i < |patch| && patch[i].key == "code" && UniqueKeys(acc)
    ensures Lookup(Step(acc, patch, i), "fragrance") ==
      if ClearsFragrance(Lookup(acc, "code"), patch[i].val) then None else Lookup(acc, "fragrance")
  {
    var v := patch[i].val;
    match Lookup(acc, "code")
    case None =>
    case Some(cur) =>
      if !(cur.Object? && v.Object?) && !Equal(cur, v) {
        var a := Put(acc, "code", v);
        PutUnique(acc, "code", v);
        assert Lookup(a, "fragrance") == Lookup(acc, "fragrance");
        if !Truthy(v) && HasKey(a, "fragrance") {
          assert Step(acc, patch, i) == Remove(a, "fragrance");
        } else {
          assert Step(acc, patch, i) == a;
        }
      }
  }

  lemma HasKeyPrefix(p: seq<Field>, n: nat, k: string)
    requires n <= |p| && HasKey(p[..n], k)
    ensures HasKey(p, k)
  {
    var i :| 0 <= i < n && p[..n][i].key == k;
    assert p[i].key == k;
  }

  lemma UniquePrefix(p: seq<Field>, n: nat)
    requires n <= |p| && UniqueKeys(p)
    ensures UniqueKeys(p[..n])
  {
  }

  /** A target key the patch does not mention keeps its value; `fragrance`
      also needs a patch without `code`. */
  lemma {:induction false} MergeOutside(target: seq<Field>, patch: seq<Field>, k: string)
    requires !HasKey(patch, k)
    requires k != "fragrance" || !HasKey(patch, "code")
    ensures Lookup(Merge(target, patch), k) == Lookup(target, k)
    decreases |patch|
  {
    if patch != [] {
      var n := |patch| - 1;
      var q := patch[..n];
      if HasKey(q, k) { HasKeyPrefix(patch, n, k); }
      if HasKey(q, "code") { HasKeyPrefix(patch, n, "code"); }
      MergeOutside(target, q, k);
      assert patch[n].key != k;
      if k == "fragrance" { assert patch[n].key != "code"; }
      StepOther(Merge(target, q), patch, n, k);
    }
  }

  /** Every patch key ends up holding the value `Updated` gives it: a dict
      merged into a dict recursively, otherwise the patch value, overwriting
      even with a falsy one, unless the old value compares equal. */
  lemma {:induction false} MergeAt(target: seq<Field>, patch: seq<Field>, i: nat)
    requires UniqueKeys(patch) && i < |patch|
    requires patch[i].key != "fragrance" || !HasKey(patch, "code")
    ensures Lookup(Merge(target, patch), patch[i].key) ==
      Some(Updated(Lookup(target, patch[i].key), patch[i].val))
    decreases |patch|
  {
    var n := |patch| - 1;
    var q := patch[..n];
    var k := patch[i].key;
    UniquePrefix(patch, n);
    if HasKey(q, "code") { HasKeyPrefix(patch, n, "code"); }
    if i == n {
      MergeOutside(target, q, k);
      StepAt(Merge(target, q), patch, n);
    } else {
      assert q[i] == patch[i];
      MergeAt(target, q, i);
      assert patch[n].key != k;
      if k == "fragrance" { assert patch[n].key != "code"; }
      StepOther(Merge(target, q), patch, n, k);
    }
  }

  /** The patch value, when it is not a dict merged into a dict, compares
      equal to what the merge leaves at its key. */
  lemma MergeAtEqual(target: seq<Field>, patch: seq<Field>, i: nat)
    requires UniqueKeys(patch) && i < |patch| && WellFormed(patch[i].val)
    requires patch[i].key != "fragrance" || !HasKey(patch, "code")
    requires !(patch[i].val.Object? && Lookup(target, patch[i].key).Some? &&
               Lookup(target, patch[i].key).value.Object?)
    ensures Lookup(Merge(target, patch), patch[i].key).Some?
    ensures Equal(Lookup(Merge(target, patch), patch[i].key).value, patch[i].val)
  {
    MergeAt(target, patch, i);
    EqualReflexive(patch[i].val);
  }

  /** When the patch does not itself carry `fragrance`, the merge removes the
      target's `fragrance` exactly when the code-clear rule fires; a `code`
      the target did not hold never deletes it. */
  lemma {:induction false} MergeFragrance(target: seq<Field>, patch: seq<Field>)
    requires UniqueKeys(target) && UniqueKeys(patch) && !HasKey(patch, "fragrance")
    ensures Lookup(Merge(target, patch), "fragrance") ==
      if CodeCleared(target, patch) then None else Lookup(target, "fragrance")
    decreases |patch|
  {
    if patch == [] {
      return;
    }
    var n := |patch| - 1;
    var q := patch[..n];
    var f := patch[n];
    assert f.key != "fragrance" by {
      assert patch[n] == f;
    }
    assert patch == q + [f];
    LookupSnoc(q, f, "code");
    if f.key == "code" {
      UniqueLastKey(patch);
      FragranceAfterCode(target, patch);
    } else {
      UniquePrefix(patch, n);
      MergeFragrance(target, q);
      StepOther(Merge(target, q), patch, n, "fragrance");
    }
  }

  /** A patch ending in its only `code`, without `fragrance`: the code-clear
      rule of that last step alone decides the target's `fragrance`. */
  lemma FragranceAfterCode(target: seq<Field>, patch: seq<Field>)
    requires UniqueKeys(target) && patch != []
    requires patch[|patch| - 1].key == "code"
    requires !HasKey(patch[..|patch| - 1], "code") && !HasKey(patch[..|patch| - 1], "fragrance")
    ensures Lookup(Merge(target, patch), "fragrance") ==
      if ClearsFragrance(Lookup(target, "code"), patch[|patch| - 1].val) then None else Lookup(target, "fragrance")
  {
    var n := |patch| - 1;
    var q := patch[..n];
    MergeOutside(target, q, "code");
    MergeOutside(target, q, "fragrance");
    StepFragrance(Merge(target, q), patch, n);
  }

  /** In a dict with distinct keys, the last key occurs nowhere before. */
  lemma UniqueLastKey(fs: seq<Field>)
    requires UniqueKeys(fs) && fs != []
    ensures !HasKey(fs[..|fs| - 1], fs[|fs| - 1].key)
  {
  }

  lemma {:induction false} LookupSnoc(q: seq<Field>, f: Field, k: string)
    ensures Lookup(q + [f], k) ==
      if HasKey(q, k) then Lookup(q, k) else if f.key == k then Some(f.val) else None
  {
    if q == [] {
      assert [] + [f] == [f];
    } else {
      assert (q + [f])[0] == q[0];
      assert (q + [f])[1..] == q[1..] + [f];
      if q[0].key != k {
        HasKeyTail(q, k);
        LookupSnoc(q[1..], f, k);
      }
    }
  }

  /** The patch is already present in the target: every key exists, nested
      dicts are contained recursively, and every other value compares equal. */
  predicate Contained(patch: seq<Field>, target: seq<Field>)
    decreases patch
  {
    forall i :: 0 <= i < |patch| ==>
      (match Lookup(target, patch[i].key)
       case None => false
       case Some(w) =>
         if w.Object? && patch[i].val.Object? then Contained(patch[i].val.fields, w.fields)
         else Equal(w, patch[i].val))
  }

  lemma ContainedPrefix(patch: seq<Field>, target: seq<Field>, n: nat)
    requires n <= |patch| && Contained(patch, target)
    ensures Contained(patch[..n], target)
  {
    assert forall i :: 0 <= i < n ==> patch[..n][i] == patch[i];
  }

  /** Merging a patch the target already contains returns the target unchanged. */
  lemma {:induction false} MergeContained(target: seq<Field>, patch: seq<Field>)
    requires Contained(patch, target)
    ensures Merge(target, patch) == target
    decreases patch, |patch|
  {
    if patch != [] {
      var n := |patch| - 1;
      ContainedPrefix(patch, target, n);
      MergeContained(target, patch[..n]);
      var k := patch[n].key;
      var v := patch[n].val;
      assert Lookup(target, k).Some?;
      var w := Lookup(target, k).value;
      if w.Object? && v.Object? {
        assert Contained(v.fields, w.fields);
        MergeContained(w.fields, v.fields);
        PutSame(target, k, w);
        assert Step(target, patch, n) == Put(target, k, Object(Merge(w.fields, v.fields)));
      } else {
        assert Equal(w, v);
        assert Step(target, patch, n) == target;
      }
    }
  }

  lemma {:induction false} ContainedReflexive(fs: seq<Field>)
    requires WellFormed(Object(fs))
    ensures Contained(fs, fs)
    decreases fs
  {
    forall i | 0 <= i < |fs|
      ensures Lookup(fs, fs[i].key) == Some(fs[i].val)
      ensures fs[i].val.Object? ==> Contained(fs[i].val.fields, fs[i].val.fields)
      ensures !fs[i].val.Object? ==> Equal(fs[i].val, fs[i].val)
    {
      ObjectKeysUnique(fs, i);
      if fs[i].val.Object? {
        ContainedReflexive(fs[i].val.fields);
      } else {
        EqualReflexive(fs[i].val);
      }
    }
  }

  /** No level of the patch carries both `code` and `fragrance`, so the
      code-clear rule cannot delete a `fragrance` the patch itself brought. */
  predicate NoCodeClash(patch: seq<Field>)
    decreases patch
  {
    !(HasKey(patch, "code") && HasKey(patch, "fragrance")) &&
    forall i :: 0 <= i < |patch| ==> patch[i].val.Object? ==> NoCodeClash(patch[i].val.fields)
  }

  /** After the merge the target contains the patch. */
  lemma {:induction false} MergeContains(target: seq<Field>, patch: seq<Field>)
    requires WellFormed(Object(patch)) && NoCodeClash(patch)
    ensures Contained(patch, Merge(target, patch))
    decreases patch
  {
    var r := Merge(target, patch);
    forall i | 0 <= i < |patch|
      ensures Lookup(r, patch[i].key).Some?
      ensures var w := Lookup(r, patch[i].key).value;
        if w.Object? && patch[i].val.Object? then Contained(patch[i].val.fields, w.fields)
        else Equal(w, patch[i].val)
    {
      var k := patch[i].key;
      var v := patch[i].val;
      if k == "fragrance" {
        assert HasKey(patch, "fragrance");
      }
      MergeAt(target, patch, i);
      assert WellFormed(v);
      match Lookup(target, k)
      case Some(c) =>
        if c.Object? && v.Object? {
          MergeContains(c.fields, v.fields);
        } else if Equal(c, v) {
        } else if v.Object? {
          ContainedReflexive(v.fields);
        } else {
          EqualReflexive(v);
        }
      case None =>
        if v.Object? {
          ContainedReflexive(v.fields);
        } else {
          EqualReflexive(v);
        }
    }
  }

  /** Merging the same patch twice has the effect of merging it once, as long
      as no level of the patch carries both `code` and `fragrance`. */
  lemma MergeIdempotent(target: seq<Field>, patch: seq<Field>)
    requires WellFormed(Object(patch)) && NoCodeClash(patch)
    ensures Merge(Merge(target, patch), patch) == Merge(target, patch)
  {
    MergeContains(target, patch);
    MergeContained(Merge(target, patch), patch);
  }

  /** The two fragrance records of the example below: the patch's replaces
      the target's. */
  lemma {:induction false} NameMerge()
    ensures Merge([Field("name", Str("A"))], [Field("name", Str("B"))]) == [Field("name", Str("B"))]
  {
    var nameA := [Field("name", Str("A"))];
    var nameB := [Field("name", Str("B"))];
    assert nameB[..0] == [];
    assert Merge(nameA, nameB) == Step(nameA, nameB, 0);
    assert Lookup(nameA, "name") == Some(Str("A"));
  }

  /** The first entry of the example below merges the two fragrance records. */
  lemma {:induction false} FirstStep(nameA: seq<Field>, nameB: seq<Field>)
    requires nameA == [Field("name", Str("A"))] && nameB == [Field("name", Str("B"))]
    ensures Merge([Field("code", Str("X")), Field("fragrance", Object(nameA))], [Field("fragrance", Object(nameB))]) ==
      [Field("code", Str("X")), Field("fragrance", Object(nameB))]
  {
    var target := [Field("code", Str("X")), Field("fragrance", Object(nameA))];
    var first := [Field("fragrance", Object(nameB))];
    assert first[..0] == [];
    NameMerge();
    assert Merge(target, first) == Step(target, first, 0);
    assert Lookup(target, "fragrance") == Some(Object(nameA));
    assert target[1..] == [Field("fragrance", Object(nameA))];
    assert Put(target[1..], "fragrance", Object(nameB)) == [Field("fragrance", Object(nameB))];
  }

  /** The first merge of the example below deletes the fragrance. */
  lemma {:induction false} FirstPass(nameA: seq<Field>, nameB: seq<Field>)
    requires nameA == [Field("name", Str("A"))] && nameB == [Field("name", Str("B"))]
    ensures Merge([Field("code", Str("X")), Field("fragrance", Object(nameA))],
                  [Field("fragrance", Object(nameB)), Field("code", Str(""))]) == [Field("code", Str(""))]
  {
    var target := [Field("code", Str("X")), Field("fragrance", Object(nameA))];
    var patch := [Field("fragrance", Object(nameB)), Field("code", Str(""))];
    var m1 := [Field("code", Str("X")), Field("fragrance", Object(nameB))];
    FirstStep(nameA, nameB);
    assert patch[..1] == [Field("fragrance", Object(nameB))];
    assert Lookup(m1, "code") == Some(Str("X"));
    assert Merge(target, patch) == Step(m1, patch, 1);
    assert patch[1] == Field("code", Str(""));
    assert !Equal(Str("X"), Str("")) && !Truthy(Str(""));
    var m2 := Put(m1, "code", Str(""));
    assert m2 == [Field("code", Str(""))] + m1[1..];
    assert m2[1..] == [Field("fragrance", Object(nameB))];
    assert Lookup(m2[1..], "fragrance").Some?;
    assert HasKey(m2, "fragrance");
    assert Step(m1, patch, 1) == Remove(m2, "fragrance");
    assert Remove(m2[1..], "fragrance") == [];
    assert Remove(m2, "fragrance") == [m2[0]] + Remove(m2[1..], "fragrance");
  }

  /** The second merge of the example below adds the fragrance back. */
  lemma {:induction false} SecondPass(nameB: seq<Field>)
    requires nameB == [Field("name", Str("B"))]
    ensures Merge([Field("code", Str(""))], [Field("fragrance", Object(nameB)), Field("code", Str(""))]) ==
      [Field("code", Str("")), Field("fragrance", Object(nameB))]
  {
    var once := [Field("code", Str(""))];
    var patch := [Field("fragrance", Object(nameB)), Field("code", Str(""))];
    var first := patch[..1];
    assert first[..0] == [];
    assert Merge(once, first) == Step(once, first, 0);
    assert Lookup(once, "fragrance") == None;
    var m3 := [Field("code", Str("")), Field("fragrance", Object(nameB))];
    assert once[1..] == [];
    assert Put(once, "fragrance", Object(nameB)) == [once[0]] + Put(once[1..], "fragrance", Object(nameB));
    assert Merge(once, first) == m3;
    assert Lookup(m3, "code") == Some(Str(""));
    assert Merge(once, patch) == Step(m3, patch, 1);
  }

  /** With `fragrance` before a falsy `code`, a second merge restores the
      `fragrance` the first deleted: the merge is not idempotent in general. */
  lemma MergeNotIdempotent()
    ensures var target := [Field("code", Str("X")), Field("fragrance", Object([Field("name", Str("A"))]))];
      var patch := [Field("fragrance", Object([Field("name", Str("B"))])), Field("code", Str(""))];
      Merge(target, patch) == [Field("code", Str(""))] &&
      Merge(Merge(target, patch), patch) != Merge(target, patch)
  {
    var nameB := [Field("name", Str("B"))];
    FirstPass([Field("name", Str("A"))], nameB);
    SecondPass(nameB);
    var twice := [Field("code", Str("")), Field("fragrance", Object(nameB))];
    assert |twice| == 2;
  }

  // ================================================================ record helpers

  /** The key of a fragrance bay record, `f"bay{bay}"`. */
  function BayKey(bay: int): string
  {
    "bay" + IntToStr(bay)
  }

  lemma BayKeysDistinct()
    ensures BayKey(1) == "bay1" && BayKey(2) == "bay2" && BayKey(0) == "bay0"
  {
  }

  /** `first_key_value(data, keys, default)`: the value of the first of `keys`
      that the dict holds, else `default`. */
  method FirstKeyValue(data: seq<Field>, keys: seq<string>, default: Json) returns (r: Json)
    ensures MissesAll(data, keys) ==> r == default
    ensures forall i :: 0 <= i < |keys| && HasKey(data, keys[i]) && MissesAll(data, keys[..i]) ==>
      Lookup(data, keys[i]) == Some(r)
  {
    var n := 0;
    while n < |keys|
      invariant n <= |keys|
      invariant MissesAll(data, keys[..n])
    {
      assert keys[..n + 1] == keys[..n] + [keys[n]];
      if HasKey(data, keys[n]) {
        return Lookup(data, keys[n]).value;
      }
      n := n + 1;
    }
    assert keys[..n] == keys;
    return default;
  }

  /** The dict holds none of the keys. */
  predicate MissesAll(data: seq<Field>, keys: seq<string>)
  {
    forall j :: 0 <= j < |keys| ==> !HasKey(data, keys[j])
  }

  /** `fragrance_name(data, bay)`: the name of the bay's fragrance, or
      "Fragrance: {code}" when the record carries no name. */
  function FragranceName(data: Json, bay: int): (r: Py<Json>)
    ensures !data.Object? ==> r == Raise(TypeError)
    ensures data.Object? && !HasKey(data.fields, BayKey(bay)) ==> r == Raise(KeyError(Str(BayKey(bay))))
    ensures var b := ValueAt(data, BayKey(bay));
      data.Object? && HasKey(data.fields, BayKey(bay)) && !b.Object? ==> r == Raise(AttributeError)
    ensures var b := ValueAt(data, BayKey(bay)); var f := ValueAt(b, "fragrance");
      b.Object? && f.Object? && HasKey(f.fields, "name") ==> r == Ok(ValueAt(f, "name"))
    ensures var b := ValueAt(data, BayKey(bay)); var f := ValueAt(b, "fragrance");
      b.Object? && f.Object? && Truthy(f) && !HasKey(f.fields, "name") ==>
      r == Ok(Str("Fragrance: " + ToStr(ValueAt(b, "code"))))
    ensures var b := ValueAt(data, BayKey(bay)); var f := ValueAt(b, "fragrance");
      b.Object? && !Truthy(f) ==> r == Ok(Str("Fragrance: " + ToStr(ValueAt(b, "code"))))
    ensures var b := ValueAt(data, BayKey(bay)); var f := ValueAt(b, "fragrance");
      b.Object? && Truthy(f) ==>
      match Contains(f, "name")
      case Raise(e) => r == Raise(e)
      case Ok(named) => r == if named then Index(f, "name") else Ok(Str("Fragrance: " + ToStr(ValueAt(b, "code"))))
  {
    var b :- Index(data, BayKey(bay));
    var fragrance :- Get(b, "fragrance", Null);
    var named :- if Truthy(fragrance) then Contains(fragrance, "name") else Ok(false);
    if named then Index(fragrance, "name")
    else Ok(Str("Fragrance: " + ToStr(ValueAt(b, "code"))))
  }

  /** Python's `int(x)` on a float: truncation towards zero. */
  function Truncate(x: real): (r: int)
    ensures x >= 0.0 ==> r as real <= x < r as real + 1.0
    ensures x < 0.0 ==> r as real - 1.0 < x <= r as real
  {
    if x >= 0.0 then x.Floor else -((-x).Floor)
  }

  /** The bay is running on battery-less wall power: active, with no
      `lastConnectedAt` report, so time since `activeAt` is added. */
  predicate RunningUnreported(data: Json, bay: int)
  {
    Truthy(ValueAt(ValueAt(data, BayKey(bay)), "activeAt")) && !Truthy(ValueAt(data, "lastConnectedAt"))
  }

  /** `fragrance_runtime` can read the bay: the record has the bay, the bay
      has `wearingTime` and `activeAt`, the record has `lastConnectedAt` when
      the bay is active, and both times are numbers when they are added. */
  predicate RuntimeReadable(data: Json, bay: int)
  {
    var b := ValueAt(data, BayKey(bay));
    data.Object? && b.Object? && HasKey(b.fields, "wearingTime") && HasKey(b.fields, "activeAt") &&
    (Truthy(ValueAt(b, "activeAt")) ==> HasKey(data.fields, "lastConnectedAt")) &&
    (RunningUnreported(data, bay) ==> Number(ValueAt(b, "wearingTime")).Some? && Number(ValueAt(b, "activeAt")).Some?)
  }

  /** `fragrance_runtime(data, bay)` at the instant `now` (seconds since the
      epoch): the stored `wearingTime`, plus the whole seconds since `activeAt`
      when the bay is active and `lastConnectedAt` is falsy. */
  function FragranceRuntime(data: Json, bay: int, now: real): (r: Py<Json>)
    ensures r.Ok? ==> var b := ValueAt(data, BayKey(bay));
      b.Object? && HasKey(b.fields, "wearingTime") && HasKey(b.fields, "activeAt")
    ensures r.Ok? && !RunningUnreported(data, bay) ==>
      r.value == ValueAt(ValueAt(data, BayKey(bay)), "wearingTime")
    ensures r.Ok? && RunningUnreported(data, bay) ==>
      var b := ValueAt(data, BayKey(bay));
      r == Elapsed(ValueAt(b, "wearingTime"), ValueAt(b, "activeAt"), now)
    ensures data.Object? && !HasKey(data.fields, BayKey(bay)) ==> r == Raise(KeyError(Str(BayKey(bay))))
    ensures r.Ok? <==> RuntimeReadable(data, bay)
  {
    match Index(data, BayKey(bay))
    case Raise(e) =>
      assert !ValueAt(data, BayKey(bay)).Object?;
      Raise(e)
    case Ok(b) =>
      assert b == ValueAt(data, BayKey(bay));
      BayRuntimeReads(data, bay, b, now);
      BayRuntime(data, b, now)
  }

  lemma BayRuntimeReads(data: Json, bay: int, b: Json, now: real)
    requires data.Object? && b == ValueAt(data, BayKey(bay))
    ensures RunningUnreported(data, bay) <==>
      Truthy(ValueAt(b, "activeAt")) && !Truthy(ValueAt(data, "lastConnectedAt"))
    ensures RuntimeReadable(data, bay) <==> BayRuntime(data, b, now).Ok?
  {
  }

  /** The runtime once the bay `b` of the record `data` is read. */
  function BayRuntime(data: Json, b: Json, now: real): (r: Py<Json>)
    ensures r.Ok? <==> (b.Object? && HasKey(b.fields, "wearingTime") && HasKey(b.fields, "activeAt") &&
      (Truthy(ValueAt(b, "activeAt")) ==> data.Object? && HasKey(data.fields, "lastConnectedAt")) &&
      (Truthy(ValueAt(b, "activeAt")) && !Truthy(ValueAt(data, "lastConnectedAt")) ==>
         Number(ValueAt(b, "wearingTime")).Some? && Number(ValueAt(b, "activeAt")).Some?))
    ensures r.Ok? && !(Truthy(ValueAt(b, "activeAt")) && !Truthy(ValueAt(data, "lastConnectedAt"))) ==>
      r.value == ValueAt(b, "wearingTime")
    ensures Truthy(ValueAt(b, "activeAt")) && !Truthy(ValueAt(data, "lastConnectedAt")) && r.Ok? ==>
      r == Elapsed(ValueAt(b, "wearingTime"), ValueAt(b, "activeAt"), now)
  {
    var wearing :- Index(b, "wearingTime");
    var activeAt :- Index(b, "activeAt");
    assert wearing == ValueAt(b, "wearingTime") && activeAt == ValueAt(b, "activeAt");
    if !Truthy(activeAt) then Ok(wearing)
    else
      var last :- Index(data, "lastConnectedAt");
      assert last == ValueAt(data, "lastConnectedAt");
      if Truthy(last) then Ok(wearing) else Elapsed(wearing, activeAt, now)
  }

  /** `wearing + int(now - active_at)`: TypeError unless both are numbers. */
  function Elapsed(wearing: Json, activeAt: Json, now: real): (r: Py<Json>)
    ensures r.Ok? <==> Number(wearing).Some? && Number(activeAt).Some?
    ensures r.Ok? ==> r.value == Int(Number(wearing).value + Truncate(now - Number(activeAt).value as real))
    ensures r.Raise? ==> r == Raise(TypeError)
  {
    match Number(activeAt)
    case None => Raise(TypeError)
    case Some(at) =>
      match Number(wearing)
      case None => Raise(TypeError)
      case Some(w) => Ok(Int(w + Truncate(now - at as real)))
  }

  function Max(a: int, b: int): int { if a >= b then a else b }

  /** `max(life - runtime, 0) / life * 100`, the share of the expected life
      (in seconds) left after `runtime` seconds of use. */
  function RemainingPercent(life: int, runtime: int): (r: real)
    requires life != 0
    ensures life > 0 ==> 0.0 <= r
    ensures life > 0 && runtime >= 0 ==> r <= 100.0
    ensures life > 0 && runtime == 0 ==> r == 100.0
    ensures life > 0 && runtime >= life ==> r == 0.0
  {
    (Max(life - runtime, 0) as real / life as real) * 100.0
  }

  /** More use never leaves more fragrance. */
  lemma RemainingPercentMonotone(life: int, r1: int, r2: int)
    requires life > 0 && r1 <= r2
    ensures RemainingPercent(life, r2) <= RemainingPercent(life, r1)
  {
    var a := Max(life - r1, 0) as real;
    var b := Max(life - r2, 0) as real;
    var l := life as real;
    assert b <= a;
    assert a / l - b / l == (a - b) / l;
    assert (a - b) / l >= 0.0;
  }

  /** What `fragrance_remaining` returns: the stored percentage, a computed
      one, or None. */
  datatype Remaining = Stored(percent: Json) | Computed(pct: real) | NoEstimate

  /** The bay holds no stored percentage: `remaining` is falsy, or a dict
      without `percent`. */
  predicate NoStoredPercent(b: Json)
  {
    var rem := ValueAt(b, "remaining");
    !Truthy(rem) || (rem.Object? && !HasKey(rem.fields, "percent"))
  }

  /** `fragrance_remaining(data, bay)` at the instant `now`. */
  function FragranceRemaining(data: Json, bay: int, now: real): (r: Py<Remaining>)
    ensures data.Object? && !HasKey(data.fields, BayKey(bay)) ==> r == Raise(KeyError(Str(BayKey(bay))))
    ensures var rem := ValueAt(ValueAt(data, BayKey(bay)), "remaining");
      rem.Object? && HasKey(rem.fields, "percent") ==> r == Ok(Stored(ValueAt(rem, "percent")))
    ensures r.Ok? && r.value.Computed? ==>
      var b := ValueAt(data, BayKey(bay));
      var hours := ValueAt(ValueAt(b, "fragrance"), "expectedLifeHours");
      var runtime := FragranceRuntime(data, bay, now);
      runtime.Ok? && Number(hours).Some? && Number(runtime.value).Some? && Number(hours).value != 0 &&
      r.value.pct == RemainingPercent(Number(hours).value * 3600, Number(runtime.value).value)
    ensures var b := ValueAt(data, BayKey(bay));
      b.Object? && NoStoredPercent(b) && !Truthy(ValueAt(b, "fragrance")) ==> r == Ok(NoEstimate)
    ensures var b := ValueAt(data, BayKey(bay));
      var fragrance := ValueAt(b, "fragrance");
      b.Object? && NoStoredPercent(b) && fragrance.Object? && !HasKey(fragrance.fields, "expectedLifeHours") ==>
      r == Ok(NoEstimate)
    ensures var b := ValueAt(data, BayKey(bay));
      var fragrance := ValueAt(b, "fragrance");
      b.Object? && NoStoredPercent(b) && fragrance.Object? && HasKey(fragrance.fields, "expectedLifeHours") ==>
      var life := LifeRemaining(data, bay, now, ValueAt(fragrance, "expectedLifeHours"));
      (life.Ok? ==> r == Ok(Computed(life.value))) && (life.Raise? ==> r == Raise(life.exc))
  {
    var b :- Index(data, BayKey(bay));
    var remaining :- Get(b, "remaining", Null);
    var stored :- if Truthy(remaining) then Contains(remaining, "percent") else Ok(false);
    if stored then
      var percent :- Index(remaining, "percent");
      Ok(Stored(percent))
    else
      var fragrance := ValueAt(b, "fragrance");
      var hasLife :- if Truthy(fragrance) then Contains(fragrance, "expectedLifeHours") else Ok(false);
      if !hasLife then Ok(NoEstimate)
      else
        var hours :- Index(fragrance, "expectedLifeHours");
        var pct :- LifeRemaining(data, bay, now, hours);
        Ok(Computed(pct))
  }

  /** `max(hours * 3600 - runtime, 0) / (hours * 3600) * 100`: the rest of
      `fragrance_remaining` once the bay's expected life `hours` is read. */
  function LifeRemaining(data: Json, bay: int, now: real, hours: Json): (r: Py<real>)
    ensures r.Ok? ==>
      var runtime := FragranceRuntime(data, bay, now);
      runtime.Ok? && Number(hours).Some? && Number(runtime.value).Some? && Number(hours).value != 0 &&
      r.value == RemainingPercent(Number(hours).value * 3600, Number(runtime.value).value)
    ensures var runtime := FragranceRuntime(data, bay, now);
      r.Ok? <==> runtime.Ok? && Number(hours).Some? && Number(runtime.value).Some? && Number(hours).value != 0
    ensures var runtime := FragranceRuntime(data, bay, now);
      runtime.Ok? && Number(hours) == Some(0) && Number(runtime.value).Some? ==> r == Raise(ZeroDivisionError)
  {
    // `None * 3600` and `dict * 3600` fail at once; a string or list is
    // repeated and fails at the subtraction, after the runtime is read.
    if hours.Null? || hours.Object? then Raise(TypeError)
    else
      var runtime :- FragranceRuntime(data, bay, now);
      match (Number(hours), Number(runtime))
      case (Some(h), Some(t)) =>
        if h == 0 then Raise(ZeroDivisionError) else Ok(RemainingPercent(h * 3600, t))
      case _ => Raise(TypeError)
  }

  /** A computed remaining share lies in [0, 100] for a positive expected life
      and a non-negative runtime. */
  lemma FragranceRemainingBounds(data: Json, bay: int, now: real)
    requires FragranceRemaining(data, bay, now).Ok? && FragranceRemaining(data, bay, now).value.Computed?
    requires Number(ValueAt(ValueAt(ValueAt(data, BayKey(bay)), "fragrance"), "expectedLifeHours")).Some?
    requires Number(ValueAt(ValueAt(ValueAt(data, BayKey(bay)), "fragrance"), "expectedLifeHours")).value > 0
    ensures 0.0 <= FragranceRemaining(data, bay, now).value.pct
    ensures FragranceRuntime(data, bay, now).Ok? && Number(FragranceRuntime(data, bay, now).value).Some?
    ensures Number(FragranceRuntime(data, bay, now).value).value >= 0 ==>
      FragranceRemaining(data, bay, now).value.pct <= 100.0
  {
  }

  /** `get_device_id(data)`: the record's `deviceId`. */
  function GetDeviceId(data: Json): (r: Py<Json>)
    ensures r.Ok? <==> data.Object? && HasKey(data.fields, "deviceId")
    ensures r.Ok? ==> r.value == ValueAt(data, "deviceId")
    ensures data.Object? && !r.Ok? ==> r == Raise(KeyError(Str("deviceId")))
  {
    Index(data, "deviceId")
  }

  /** `has_fragrance(data, bay)` of the helpers: the bay record exists, is
      truthy, and has a truthy `code`. */
  function HasFragrance(data: Json, bay: int): (r: Py<bool>)
    ensures !data.Object? ==> r == Raise(AttributeError)
    ensures data.Object? ==>
      var b := ValueAt(data, BayKey(bay));
      (r.Ok? <==> !Truthy(b) || b.Object?) &&
      (r == Ok(true) <==> Truthy(b) && b.Object? && Truthy(ValueAt(b, "code")))
  {
    var b :- Get(data, BayKey(bay), Null);
    if !Truthy(b) then Ok(false)
    else
      var code :- Get(b, "code", Null);
      Ok(Truthy(code))
  }

  /** `parse_intensity(intensity)`: an int (a bool counts) is bucketed into
      subtle, medium or strong; any other truthy value is returned as it is,
      a falsy one as "off". */
  function ParseIntensity(intensity: Json): (r: Json)
    ensures Number(intensity).Some? && Number(intensity).value < 4 ==> r == Str("subtle")
    ensures Number(intensity).Some? && 4 <= Number(intensity).value < 8 ==> r == Str("medium")
    ensures Number(intensity).Some? && 8 <= Number(intensity).value ==> r == Str("strong")
    ensures Number(intensity).None? && Truthy(intensity) ==> r == intensity
    ensures Number(intensity).None? && !Truthy(intensity) ==> r == Str("off")
  {
    match Number(intensity)
    case Some(n) => Str(if n < 4 then "subtle" else if n < 8 then "medium" else "strong")
    case None => if Truthy(intensity) then intensity else Str("off")
  }

  /** The position of a bucket in the order subtle < medium < strong. */
  function BucketRank(j: Json): int
  {
    if j == Str("subtle") then 1 else if j == Str("medium") then 2 else if j == Str("strong") then 3 else 0
  }

  /** A stronger intensity never lands in a weaker bucket. */
  lemma ParseIntensityMonotone(a: int, b: int)
    requires a <= b
    ensures 1 <= BucketRank(ParseIntensity(Int(a))) <= BucketRank(ParseIntensity(Int(b)))
  {
  }

  /** Parsing an already parsed intensity changes nothing. */
  lemma ParseIntensityIdempotent(intensity: Json)
    ensures ParseIntensity(ParseIntensity(intensity)) == ParseIntensity(intensity)
  {
  }
}
