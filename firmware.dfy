/** The car firmware details: `key=value` lines turned into a dict with
    lower-cased keys, and the "major.minor.patch" version read from it. The
    same parse appears in the firmware coordinator and in the update entity. */
module Firmware {
  import opened Text
  import opened PyJson

  predicate NoCapitals(s: string)
  {
    forall i :: 0 <= i < |s| ==> !('A' <= s[i] <= 'Z')
  }

  /** The key a line contributes: the text before its first `=`, lower-cased. */
  function LineKey(line: string): string
    requires '=' in line
  {
    Lower(SplitOnce(line, '=')[0])
  }

  /** Keys are lower-cased. */
  lemma LineKeyNoCapitals(line: string)
    requires '=' in line
    ensures NoCapitals(LineKey(line))
  {
    LowerSpec(SplitOnce(line, '=')[0]);
  }

  /** The value a line contributes: everything after its first `=`. */
  function LineValue(line: string): string
    requires '=' in line
  {
    SplitOnce(line, '=')[1]
  }

  /** A line splits at its first `=`: the lower-cased text before it is the
      key, everything after it, later `=` included, the value. */
  lemma LineKeyOf(key: string, value: string)
    requires '=' !in key
    ensures '=' in key + "=" + value
    ensures LineKey(key + "=" + value) == Lower(key)
    ensures LineValue(key + "=" + value) == value
  {
    SplitOnceAt(key, value, '=');
    assert (key + "=" + value)[|key|] == '=';
  }

  predicate AllHaveEquals(lines: seq<string>)
  {
    forall i :: 0 <= i < |lines| ==> '=' in lines[i]
  }

  lemma AllHaveEqualsLast(lines: seq<string>)
    requires lines != []
    ensures AllHaveEquals(lines) <==> AllHaveEquals(lines[..|lines| - 1]) && '=' in lines[|lines| - 1]
  {
    var n := |lines| - 1;
    assert forall i :: 0 <= i < n ==> lines[..n][i] == lines[i];
  }

  /** `{(part := line.split("=", 1))[0].lower(): part[1] for line in lines}`:
      the lines are read in order, a line without `=` raises IndexError, and
      an assignment to a key already seen keeps its place but takes the later
      value. */
  function ParseLines(lines: seq<string>): (r: Py<seq<Field>>)
    ensures r.Ok? <==> AllHaveEquals(lines)
    ensures r.Raise? ==> r == Raise(IndexError)
    ensures r.Ok? ==> UniqueKeys(r.value)
    ensures r.Ok? ==> forall f :: f in r.value ==> NoCapitals(f.key) && f.val.Str?
    decreases |lines|
  {
    if lines == [] then Ok([])
    else
      var n := |lines| - 1;
      AllHaveEqualsLast(lines);
      var acc :- ParseLines(lines[..n]);
      if '=' !in lines[n] then Raise(IndexError)
      else
        LineKeyNoCapitals(lines[n]);
        PutFrom(acc, LineKey(lines[n]), Str(LineValue(lines[n])));
        PutUnique(acc, LineKey(lines[n]), Str(LineValue(lines[n])));
        Ok(Put(acc, LineKey(lines[n]), Str(LineValue(lines[n]))))
  }

  lemma ParseLinesLast(lines: seq<string>)
    requires lines != [] && AllHaveEquals(lines)
    ensures AllHaveEquals(lines[..|lines| - 1])
    ensures ParseLines(lines) == Ok(Put(ParseLines(lines[..|lines| - 1]).value,
                                       LineKey(lines[|lines| - 1]), Str(LineValue(lines[|lines| - 1]))))
  {
    AllHaveEqualsLast(lines);
  }

  /** The firmware details text as a dict. */
  function Parse(details: string): Py<seq<Field>>
  {
    ParseLines(Split(details, '\n'))
  }

  /** The keys the lines carry, in order. */
  function LineKeys(lines: seq<string>): (r: seq<string>)
    requires AllHaveEquals(lines)
    ensures |r| == |lines|
  {
    if lines == [] then []
    else
      AllHaveEqualsLast(lines);
      LineKeys(lines[..|lines| - 1]) + [LineKey(lines[|lines| - 1])]
  }

  /** A key is in the parsed dict exactly when some line carries it. */
  lemma {:induction false} ParseKeys(lines: seq<string>, k: string)
    requires AllHaveEquals(lines)
    ensures HasKey(ParseLines(lines).value, k) <==> k in LineKeys(lines)
    decreases |lines|
  {
    if lines != [] {
      var n := |lines| - 1;
      var q := lines[..n];
      ParseLinesLast(lines);
      ParseKeys(q, k);
      var acc := ParseLines(q).value;
      var key := LineKey(lines[n]);
      var value := Str(LineValue(lines[n]));
      assert ParseLines(lines).value == Put(acc, key, value);
      if key != k {
        assert Lookup(Put(acc, key, value), k) == Lookup(acc, k);
      } else {
        assert Lookup(Put(acc, key, value), k) == Some(value);
      }
    }
  }

  /** The value stored under a key is that of the last line carrying it. */
  lemma {:induction false} ParseLastWins(lines: seq<string>, i: nat)
    requires AllHaveEquals(lines) && i < |lines|
    requires forall j :: i < j < |lines| ==> LineKey(lines[j]) != LineKey(lines[i])
    ensures Lookup(ParseLines(lines).value, LineKey(lines[i])) == Some(Str(LineValue(lines[i])))
    decreases |lines|
  {
    var n := |lines| - 1;
    var q := lines[..n];
    ParseLinesLast(lines);
    var acc := ParseLines(q).value;
    var key := LineKey(lines[n]);
    var value := Str(LineValue(lines[n]));
    assert ParseLines(lines).value == Put(acc, key, value);
    if i < n {
      assert q[i] == lines[i];
      forall j | i < j < |q| ensures LineKey(q[j]) != LineKey(q[i]) {
        assert q[j] == lines[j];
      }
      ParseLastWins(q, i);
      var k := LineKey(lines[i]);
      assert key != k;
      assert Lookup(Put(acc, key, value), k) == Lookup(acc, k);
    } else {
      assert Lookup(Put(acc, key, value), key) == Some(value);
    }
  }

  /** A text that ends in a newline has an empty last line, which holds no
      `=`: its parse always fails. */
  lemma TrailingNewlineFails(details: string)
    ensures Parse(details + "\n") == Raise(IndexError)
  {
    SplitTrailing(details, '\n');
    var lines := Split(details + "\n", '\n');
    assert '=' !in lines[|lines| - 1];
  }

  // ---------------------------------------------------------------- rendering

  /** The text `key=value` of one entry. */
  function Line(f: Field): string
    requires f.val.Str?
  {
    f.key + "=" + f.val.s
  }

  /** A dict written out as `key=value` lines, the form the vendor sends. */
  predicate Renderable(fs: seq<Field>)
  {
    |fs| >= 1 && UniqueKeys(fs) &&
    forall i :: 0 <= i < |fs| ==>
      fs[i].val.Str? && NoCapitals(fs[i].key) && '=' !in fs[i].key && '\n' !in fs[i].key && '\n' !in fs[i].val.s
  }

  function Lines(fs: seq<Field>): (r: seq<string>)
    requires forall i :: 0 <= i < |fs| ==> fs[i].val.Str?
    ensures |r| == |fs|
    ensures forall i :: 0 <= i < |fs| ==> r[i] == Line(fs[i])
  {
    if fs == [] then []
    else
      var n := |fs| - 1;
      assert forall i :: 0 <= i < n ==> fs[..n][i] == fs[i];
      Lines(fs[..n]) + [Line(fs[n])]
  }

  function Render(fs: seq<Field>): string
    requires Renderable(fs)
  {
    Join(Lines(fs), '\n')
  }

  lemma LineParts(f: Field)
    requires f.val.Str? && '=' !in f.key && NoCapitals(f.key)
    ensures '=' in Line(f) && LineKey(Line(f)) == f.key && LineValue(Line(f)) == f.val.s
  {
    assert Line(f) == f.key + "=" + f.val.s;
    LineKeyOf(f.key, f.val.s);
    LowerNoCapitals(f.key);
  }

  lemma ParseLinesSnoc(q: seq<string>, line: string)
    requires AllHaveEquals(q) && '=' in line
    ensures AllHaveEquals(q + [line])
    ensures ParseLines(q + [line]) == Ok(Put(ParseLines(q).value, LineKey(line), Str(LineValue(line))))
  {
    var lines := q + [line];
    assert lines[..|q|] == q;
    AllHaveEqualsLast(lines);
    ParseLinesLast(lines);
  }

  lemma {:induction false} ParseLinesOfLines(fs: seq<Field>)
    requires UniqueKeys(fs)
    requires forall i :: 0 <= i < |fs| ==> fs[i].val.Str? && NoCapitals(fs[i].key) && '=' !in fs[i].key
    ensures ParseLines(Lines(fs)) == Ok(fs)
    decreases |fs|
  {
    if fs != [] {
      var n := |fs| - 1;
      var p := fs[..n];
      var f := fs[n];
      assert fs == p + [f];
      assert forall i :: 0 <= i < n ==> p[i] == fs[i];
      ParseLinesOfLines(p);
      LineParts(f);
      assert Lines(fs) == Lines(p) + [Line(f)];
      ParseLinesSnoc(Lines(p), Line(f));
      UniqueLast(fs);
      PutAppends(p, f.key, f.val);
      assert Str(LineValue(Line(f))) == f.val && LineKey(Line(f)) == f.key;
      assert ParseLines(Lines(p)).value == p;
      assert Put(p, f.key, f.val) == fs;
    }
  }

  /** Parsing the rendering of a dict gives the dict back. */
  lemma ParseRender(fs: seq<Field>)
    requires Renderable(fs)
    ensures Parse(Render(fs)) == Ok(fs)
  {
    var lines := Lines(fs);
    forall i | 0 <= i < |lines| ensures '\n' !in lines[i] {
      assert lines[i] == fs[i].key + "=" + fs[i].val.s;
    }
    SplitJoin(lines, '\n');
    ParseLinesOfLines(fs);
  }

  // ---------------------------------------------------------------- version

  /** `".".join(firmware[key] for key in ("major", "minor", "patch"))`: a
      missing part raises KeyError, a non-string part TypeError. */
  function LatestVersion(firmware: seq<Field>): (r: Py<string>)
    ensures r.Ok? <==>
      (HasKey(firmware, "major") && HasKey(firmware, "minor") && HasKey(firmware, "patch") &&
       ValueAt(Object(firmware), "major").Str? && ValueAt(Object(firmware), "minor").Str? &&
       ValueAt(Object(firmware), "patch").Str?)
    ensures r.Ok? ==> r.value == Join([ValueAt(Object(firmware), "major").s, ValueAt(Object(firmware), "minor").s,
                                       ValueAt(Object(firmware), "patch").s], '.')
    ensures !HasKey(firmware, "major") ==> r == Raise(KeyError(Str("major")))
    ensures HasKey(firmware, "major") && !HasKey(firmware, "minor") ==> r == Raise(KeyError(Str("minor")))
    ensures HasKey(firmware, "major") && HasKey(firmware, "minor") && !HasKey(firmware, "patch") ==>
      r == Raise(KeyError(Str("patch")))
    ensures HasKey(firmware, "major") && HasKey(firmware, "minor") && HasKey(firmware, "patch") && !r.Ok? ==>
      r == Raise(TypeError)
  {
    var major :- Index(Object(firmware), "major");
    var minor :- Index(Object(firmware), "minor");
    var patch :- Index(Object(firmware), "patch");
    if major.Str? && minor.Str? && patch.Str? then
      assert Join([minor.s, patch.s], '.') == minor.s + "." + patch.s;
      assert [major.s, minor.s, patch.s][1..] == [minor.s, patch.s];
      Ok(major.s + "." + minor.s + "." + patch.s)
    else Raise(TypeError)
  }

  /** Parts without a dot are recovered by splitting the version at its dots. */
  lemma VersionParts(firmware: seq<Field>)
    requires LatestVersion(firmware).Ok?
    requires '.' !in ValueAt(Object(firmware), "major").s
    requires '.' !in ValueAt(Object(firmware), "minor").s
    requires '.' !in ValueAt(Object(firmware), "patch").s
    ensures Split(LatestVersion(firmware).value, '.') ==
      [ValueAt(Object(firmware), "major").s, ValueAt(Object(firmware), "minor").s, ValueAt(Object(firmware), "patch").s]
  {
    var parts := [ValueAt(Object(firmware), "major").s, ValueAt(Object(firmware), "minor").s,
                  ValueAt(Object(firmware), "patch").s];
    SplitJoin(parts, '.');
  }

  /** The firmware coordinator's update: the vendor's details parsed into a
      dict, with any failure, of the fetch or of the parse, reported as
      UpdateFailed. */
  function CarFirmwareUpdate(details: Py<string>): (r: Py<seq<Field>>)
    ensures r.Ok? <==> details.Ok? && AllHaveEquals(Split(details.value, '\n'))
    ensures r.Ok? ==> r == Parse(details.value)
    ensures r.Raise? ==> r == Raise(UpdateFailed)
  {
    match details
    case Raise(_) => Raise(UpdateFailed)
    case Ok(text) =>
      match Parse(text)
      case Raise(_) => Raise(UpdateFailed)
      case Ok(firmware) => Ok(firmware)
  }
}
