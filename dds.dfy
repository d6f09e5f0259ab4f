/**
 * The `DerivativesDataSink` interface: how its constructor splits keyword
 * arguments into entity inputs and metadata, and how a run derives the
 * output entities, the extensions and their compression, the path patterns,
 * the destination names, the header-fix decision and the JSON sidecar.
 *
 * The BIDS specification bundled with the package (its entity names and
 * default path patterns), `parse_file_entities`, `build_path`, the NIfTI
 * header reader and the list of standard spaces are parameters.
 */
module Dds {
  import opened Py
  import opened Text
  import opened Paths
  import opened Sorting

  /** An entity record: entity name to value (a list value expands to several paths). */
  type Entities = map<string, Value>

  /** The entity names and default path patterns of the bundled BIDS specification. */
  datatype BidsSpec = BidsSpec(entities: set<string>, patterns: seq<string>)

  /** What `build_path` returned: nothing, one path, or one path per expanded list value. */
  datatype Built = NoPath | One(path: string) | Many(paths: seq<string>)

  /** The header fields the rewrite decision reads: the two transform codes and the units as stored. */
  datatype Header = Header(qformCode: int, sformCode: int, spaceUnit: string, timeUnit: string)

  const DEFAULT_OUT_PATH_BASE := "niworkflows"

  /** The traits declared by the input specification itself. */
  const SPEC_TRAITS: set<string> :=
    {"base_directory", "check_hdr", "compress", "data_dtype", "dismiss_entities", "in_file", "meta_dict", "source_file"}

  /** Metadata keys that still go to the legacy sidecar of a `.dtseries.nii` output. */
  const LEGACY_KEYS: set<string> := {"grayordinates", "space", "surface", "surface_density", "volume"}

  /** `DEFAULT_DTYPES[suffix]`: the data type a suffix coerces to, if any. */
  function DefaultDtype(suffix: Value): (r: Option<string>)
    ensures r.Some? <==> suffix in {Str("mask"), Str("dseg"), Str("probseg"), Str("boldref")}
    ensures suffix == Str("boldref") ==> r == Some("source")
  {
    match suffix
    case Str("mask") => Some("uint8")
    case Str("dseg") => Some("int16")
    case Str("probseg") => Some("float32")
    case Str("boldref") => Some("source")
    case _ => None
  }

  /** `ent.get(k)`: an absent key reads as `None`. */
  function GetOr(e: Entities, k: string): Value
  {
    if k in e then e[k] else NoneV
  }

  // ---------------------------------------------------------------------------
  // Entities common to all source files

  /** The entities of the first source that every other source reads the same. */
  function Common(ents: seq<Entities>): Entities
    requires ents != []
  {
    map k | k in ents[0] && (forall j :: 1 <= j < |ents| ==> GetOr(ents[j], k) == ents[0][k]) :: ents[0][k]
  }

  /** With a single source file every one of its entities is kept. */
  lemma CommonSingle(e: Entities)
    ensures Common([e]) == e
  {
  }

  /** An entity survives only when each other source has it with the same value (or lacks a `None` one). */
  lemma CommonAgreement(ents: seq<Entities>, k: string)
    requires ents != []
    ensures k in Common(ents) <==> k in ents[0] && forall j :: 0 <= j < |ents| ==> GetOr(ents[j], k) == ents[0][k]
    ensures k in Common(ents) ==> Common(ents)[k] == ents[0][k]
  {
  }

  /** Two T1w images from sessions A and B of one subject: the session is dropped, the rest kept. */
  lemma CommonTwoSessions()
    ensures Common([
      map["subject" := Str("02"), "session" := Str("A"), "suffix" := Str("T1w")],
      map["subject" := Str("02"), "session" := Str("B"), "suffix" := Str("T1w")]])
      == map["subject" := Str("02"), "suffix" := Str("T1w")]
  {
    var a := map["subject" := Str("02"), "session" := Str("A"), "suffix" := Str("T1w")];
    var b := map["subject" := Str("02"), "session" := Str("B"), "suffix" := Str("T1w")];
    var c := Common([a, b]);
    assert [a, b][0] == a && [a, b][1] == b;
    assert GetOr(b, "session") != a["session"];
    assert "session" !in c;
    assert "subject" in c && "suffix" in c;
    assert c.Keys == {"subject", "suffix"};
  }

  // ---------------------------------------------------------------------------
  // Dismissed entities

  /** The record without the dismissed names; names it lacks are ignored. */
  function Dismissed(e: Entities, drops: seq<string>): (r: Entities)
    ensures forall d :: d in drops ==> d !in r
    ensures forall k :: k in e && k !in drops ==> k in r && r[k] == e[k]
    ensures r.Keys <= e.Keys
  {
    map k | k in e && k !in drops :: e[k]
  }

  /** `for drop_entity in ...: out_entities.pop(drop_entity, None)`. */
  method DropEntities(e: Entities, drops: seq<string>) returns (r: Entities)
    ensures r == Dismissed(e, drops)
  {
    r := e;
    for i := 0 to |drops|
      invariant r == Dismissed(e, drops[..i])
    {
      assert drops[..i + 1] == drops[..i] + [drops[i]];
      r := r - {drops[i]};
    }
    assert drops[..|drops|] == drops;
  }

  // ---------------------------------------------------------------------------
  // Extensions and compression

  /** The extension of each input file: its suffixes joined, leading dot stripped. */
  function Extensions(inFile: seq<string>): (r: seq<string>)
    ensures |r| == |inFile|
    ensures forall i :: 0 <= i < |r| ==> r[i] == SuffixKey(inFile[i])
  {
    seq(|inFile|, i requires 0 <= i < |inFile| => SuffixKey(inFile[i]))
  }

  /** `listify(compress) or [None]`, then a single flag repeated once per input. */
  function Broadcast(flags: seq<Option<bool>>, n: nat): (r: seq<Option<bool>>)
    ensures |flags| <= 1 ==> |r| == n
    ensures |flags| == 1 ==> forall i :: 0 <= i < n ==> r[i] == flags[0]
    ensures flags == [] ==> forall i :: 0 <= i < n ==> r[i] == None
    ensures |flags| > 1 ==> r == flags
  {
    var c := if flags == [] then [None] else flags;
    if |c| == 1 then seq(n, _ => c[0]) else c
  }

  /** `regz.sub("", ext)` with `regz` matching ".gz" at the end: one trailing ".gz" removed. */
  function StripGz(ext: string): (r: string)
    ensures EndsWith(ext, ".gz") ==> r + ".gz" == ext
    ensures !EndsWith(ext, ".gz") ==> r == ext
  {
    if EndsWith(ext, ".gz") then ext[..|ext| - 3] else ext
  }

  /** The compression rule for one extension: `None` leaves it, otherwise ".gz" is set or cleared. */
  function CompressExt(ext: string, flag: Option<bool>): (r: string)
    ensures flag == None ==> r == ext
    ensures flag == Some(true) ==> EndsWith(r, ".gz") && StripGz(r) == StripGz(ext)
    ensures flag == Some(false) ==> r == StripGz(ext) && |r| <= |ext|
  {
    match flag
    case None => ext
    case Some(b) =>
      var stripped := StripGz(ext);
      if b then
        assert EndsWith(stripped + ".gz", ".gz");
        stripped + ".gz"
      else stripped
  }

  /**
   * Applying the rule a second time changes nothing for `None` and `True`, and
   * for `False` whenever the stripped extension does not itself end in ".gz".
   */
  lemma CompressTwice(ext: string, flag: Option<bool>)
    requires flag == Some(false) ==> !EndsWith(StripGz(ext), ".gz")
    ensures CompressExt(CompressExt(ext, flag), flag) == CompressExt(ext, flag)
  {
    if flag == Some(true) {
      var r := CompressExt(ext, flag);
      assert StripGz(r) + ".gz" == r;
    }
  }

  /** "x.gz.gz" loses one ".gz" per application of the `False` rule. */
  lemma CompressFalseTwice()
    ensures CompressExt("nii.gz.gz", Some(false)) == "nii.gz"
    ensures CompressExt(CompressExt("nii.gz.gz", Some(false)), Some(false)) == "nii"
  {
    assert EndsWith("nii.gz.gz", ".gz");
    assert "nii.gz.gz"[..6] == "nii.gz";
    assert EndsWith("nii.gz", ".gz");
    assert "nii.gz"[..3] == "nii";
  }

  /** The extensions after compression, or the `IndexError` of a flag list shorter than the inputs. */
  function Compressed(exts: seq<string>, flags: seq<Option<bool>>): (r: Result<seq<string>>)
  {
    if |flags| < |exts| then Err(IndexError)
    else Ok(seq(|exts|, i requires 0 <= i < |exts| => CompressExt(exts[i], flags[i])))
  }

  /** The loop that rewrites `out_entities["extension"][i]` in place. */
  method ApplyCompression(exts: seq<string>, flags: seq<Option<bool>>) returns (r: Result<seq<string>>)
    ensures r == Compressed(exts, flags)
    ensures r.Err? <==> |flags| < |exts|
    ensures r.Ok? ==> |r.value| == |exts|
  {
    var out := exts;
    for i := 0 to |exts|
      invariant i <= |flags|
      invariant |out| == |exts|
      invariant forall j :: 0 <= j < i ==> out[j] == CompressExt(exts[j], flags[j])
      invariant forall j :: i <= j < |exts| ==> out[j] == exts[j]
    {
      if i >= |flags| {
        return Err(IndexError);
      }
      out := out[i := CompressExt(out[i], flags[i])];
    }
    assert out == seq(|exts|, i requires 0 <= i < |exts| => CompressExt(exts[i], flags[i]));
    return Ok(out);
  }

  // ---------------------------------------------------------------------------
  // Overrides, native resolution, extension collapse

  /** An allowed entity set on the inputs to something other than `None`. */
  predicate IsSet(allowed: set<string>, inputs: map<string, Value>, k: string)
  {
    k in allowed && k in inputs && inputs[k] != NoneV
  }

  /** The record with every allowed entity that is set on the inputs taking the input's value. */
  function Overridden(e: Entities, allowed: set<string>, inputs: map<string, Value>): (r: Entities)
    ensures forall k :: IsSet(allowed, inputs, k) ==> k in r && r[k] == inputs[k]
    ensures forall k :: k in e && !IsSet(allowed, inputs, k) ==> k in r && r[k] == e[k]
    ensures forall k :: k in r ==> k in e || IsSet(allowed, inputs, k)
    ensures e.Keys <= r.Keys
  {
    map k | k in e.Keys + (set a | a in allowed && IsSet(allowed, inputs, a)) ::
      if IsSet(allowed, inputs, k) then inputs[k] else e[k]
  }

  /** Taking one more allowed entity into account overrides at most that entity. */
  lemma OverriddenStep(e: Entities, done: set<string>, inputs: map<string, Value>, k: string)
    requires k !in done
    ensures Overridden(e, done + {k}, inputs)
            == if k in inputs && inputs[k] != NoneV then Overridden(e, done, inputs)[k := inputs[k]]
               else Overridden(e, done, inputs)
  {
    var before, after := Overridden(e, done, inputs), Overridden(e, done + {k}, inputs);
    var expected := if k in inputs && inputs[k] != NoneV then before[k := inputs[k]] else before;
    forall q ensures (q in after <==> q in expected) && (q in after ==> after[q] == expected[q]) {
      assert IsSet(done + {k}, inputs, q) <==> IsSet(done, inputs, q) || (q == k && k in inputs && inputs[k] != NoneV);
    }
  }

  /** `for key in self._allowed_entities: ...`, one allowed entity at a time. */
  method ApplyOverrides(e: Entities, allowed: set<string>, inputs: map<string, Value>) returns (r: Entities)
    ensures r == Overridden(e, allowed, inputs)
  {
    r := e;
    var todo := allowed;
    while todo != {}
      invariant todo <= allowed
      invariant r == Overridden(e, allowed - todo, inputs)
      decreases |todo|
    {
      var k :| k in todo;
      var value := if k in inputs then inputs[k] else NoneV;
      OverriddenStep(e, allowed - todo, inputs, k);
      assert allowed - (todo - {k}) == (allowed - todo) + {k};
      if value != NoneV {
        r := r[k := value];
      }
      todo := todo - {k};
    }
    assert allowed - todo == allowed;
  }

  /** `resolution` "native" is dropped when a truthy `space` is present; nothing else changes. */
  function CleanNative(e: Entities): (r: Entities)
    ensures "resolution" in r <==> "resolution" in e && !(e["resolution"] == Str("native") && Truthy(GetOr(e, "space")))
    ensures forall k :: k != "resolution" ==> (k in r <==> k in e)
    ensures forall k :: k in r ==> k in e && r[k] == e[k]
  {
    if GetOr(e, "resolution") == Str("native") && Truthy(GetOr(e, "space")) then e - {"resolution"} else e
  }

  /** All items equal and at least one. */
  predicate AllSame<T(==)>(xs: seq<T>)
  {
    xs != [] && forall i :: 0 <= i < |xs| ==> xs[i] == xs[0]
  }

  lemma SingletonCard<T>(s: set<T>, x: T, y: T)
    requires |s| == 1 && x in s && y in s
    ensures x == y
  {
    if x != y {
      assert {x, y} <= s;
      assert |{x, y}| == 2;
      SubsetCard({x, y}, s);
    }
  }

  lemma {:induction false} SubsetCard<T>(a: set<T>, b: set<T>)
    requires a <= b
    ensures |a| <= |b|
    decreases |b|
  {
    if b != {} {
      var x :| x in b;
      SubsetCard(a - {x}, b - {x});
    }
  }

  /** `len(set(xs)) == 1` holds exactly when the items are all equal and there is one. */
  lemma OneDistinct<T>(xs: seq<T>)
    ensures |set i | 0 <= i < |xs| :: xs[i]| == 1 <==> AllSame(xs)
  {
    var s := set i | 0 <= i < |xs| :: xs[i];
    if AllSame(xs) {
      assert s == {xs[0]};
    }
    if |s| == 1 {
      var x :| x in s;
      forall i | 0 <= i < |xs| ensures xs[i] == xs[0] {
        SingletonCard(s, xs[i], xs[0]);
      }
    }
  }

  /**
   * `if len(set(ext)) == 1: ext = ext[0]`. On a list this collapses equal
   * extensions; a user-given string is taken as its characters; any other
   * value is not iterable.
   */
  function Collapse(ext: Value): (r: Result<Value>)
    ensures r.Err? <==> !(ext.List? || ext.Str?)
    ensures ext.List? ==> r == (if AllSame(ext.xs) then Ok(Str(ext.xs[0])) else Ok(ext))
    ensures ext.Str? ==> r == (if AllSame(ext.s) then Ok(Str([ext.s[0]])) else Ok(ext))
  {
    match ext
    case List(xs) =>
      OneDistinct(xs);
      if |set i | 0 <= i < |xs| :: xs[i]| == 1 then Ok(Str(xs[0])) else Ok(ext)
    case Str(s) =>
      OneDistinct(s);
      if |set i | 0 <= i < |s| :: s[i]| == 1 then Ok(Str([s[0]])) else Ok(ext)
    case _ => Err(TypeError("object is not iterable"))
  }

  // ---------------------------------------------------------------------------
  // Custom entities in the path patterns

  /** `f"{key}-{{{key}}}"`. */
  function KeyPattern(key: string): string
  {
    key + "-{" + key + "}"
  }

  /** `key-{key}` for each key, in order. */
  function KeyPatterns(keys: seq<string>): seq<string>
  {
    seq(|keys|, i requires 0 <= i < |keys| => KeyPattern(keys[i]))
  }

  /** `"_".join(f"{key}-{{{key}}}" for key in keys)`. */
  function CustomPattern(keys: seq<string>): string
  {
    Join("_", KeyPatterns(keys))
  }

  /**
   * The custom pattern holds each key's `key-{key}` in the keys' order,
   * each after the one before it, every part but the first preceded by "_",
   * and no other text: it is empty without keys, and otherwise exactly as
   * long as the key patterns and one separator between each two.
   */
  lemma CustomPatternLayout(keys: seq<string>)
    ensures keys == [] ==> CustomPattern(keys) == ""
    ensures keys != [] ==> |CustomPattern(keys)| + 1 == JoinOffset("_", KeyPatterns(keys), |keys|)
    ensures forall i :: 0 <= i < |keys| ==> OccursAt(CustomPattern(keys), KeyPattern(keys[i]), JoinOffset("_", KeyPatterns(keys), i))
    ensures forall i :: 0 < i < |keys| ==> (0 < JoinOffset("_", KeyPatterns(keys), i) <= |CustomPattern(keys)|
      && CustomPattern(keys)[JoinOffset("_", KeyPatterns(keys), i) - 1] == '_')
    ensures forall i, j :: 0 <= i < j < |keys| ==>
      JoinOffset("_", KeyPatterns(keys), i) + |KeyPattern(keys[i])| < JoinOffset("_", KeyPatterns(keys), j)
  {
    if keys != [] {
      JoinLength("_", KeyPatterns(keys));
    }
    CustomPartsAt(keys);
    CustomPartsOrdered(keys);
    CustomSeparators(keys);
  }

  /** Each key pattern sits at its offset in the custom pattern. */
  lemma CustomPartsAt(keys: seq<string>)
    ensures forall i :: 0 <= i < |keys| ==> OccursAt(CustomPattern(keys), KeyPattern(keys[i]), JoinOffset("_", KeyPatterns(keys), i))
  {
    var parts := KeyPatterns(keys);
    forall i | 0 <= i < |keys|
      ensures OccursAt(Join("_", parts), KeyPattern(keys[i]), JoinOffset("_", parts, i))
    {
      JoinPartAt("_", parts, i);
      assert parts[i] == KeyPattern(keys[i]);
    }
  }

  /** A key pattern ends before the next one starts. */
  lemma CustomPartsOrdered(keys: seq<string>)
    ensures forall i, j :: 0 <= i < j < |keys| ==>
      JoinOffset("_", KeyPatterns(keys), i) + |KeyPattern(keys[i])| < JoinOffset("_", KeyPatterns(keys), j)
  {
    var parts := KeyPatterns(keys);
    forall i, j | 0 <= i < j < |keys|
      ensures JoinOffset("_", parts, i) + |KeyPattern(keys[i])| < JoinOffset("_", parts, j)
    {
      JoinOffsetAfter("_", parts, i, j);
      assert parts[i] == KeyPattern(keys[i]);
    }
  }

  /** An underscore sits just before every key pattern but the first. */
  lemma CustomSeparators(keys: seq<string>)
    ensures forall i :: 0 < i < |keys| ==> (0 < JoinOffset("_", KeyPatterns(keys), i) <= |CustomPattern(keys)|
      && CustomPattern(keys)[JoinOffset("_", KeyPatterns(keys), i) - 1] == '_')
  {
    var parts := KeyPatterns(keys);
    forall i | 0 < i < |keys|
      ensures 0 < JoinOffset("_", parts, i) <= |Join("_", parts)| && Join("_", parts)[JoinOffset("_", parts, i) - 1] == '_'
    {
      JoinSepAt("_", parts, i);
      var o, r := JoinOffset("_", parts, i), Join("_", parts);
      assert r[o - 1] == r[o - 1..o][0];
    }
  }

  /** Every pattern with the custom pattern inserted before each "_{suffix". */
  function InsertCustom(patterns: seq<string>, custom: string): (r: seq<string>)
    ensures |r| == |patterns|
    ensures forall i :: 0 <= i < |r| ==> r[i] == Replace(patterns[i], "_{suffix", "_" + custom + "_{suffix")
  {
    if patterns == [] then []
    else [Replace(patterns[0], "_{suffix", "_" + custom + "_{suffix")] + InsertCustom(patterns[1..], custom)
  }

  /** The patterns handed to `build_path`: the bundled ones, with custom entities in sorted order. */
  function PathPatterns(e: Entities, spec: BidsSpec): seq<string>
  {
    var custom := e.Keys - spec.entities;
    if custom == {} then spec.patterns else InsertCustom(spec.patterns, CustomPattern(SortSet(custom)))
  }

  /** Without custom entities the bundled patterns are used unchanged; a pattern without "_{suffix" never changes. */
  lemma PatternsWithoutCustom(e: Entities, spec: BidsSpec, i: int)
    requires 0 <= i < |spec.patterns|
    requires e.Keys <= spec.entities || !Contains(spec.patterns[i], "_{suffix")
    ensures PathPatterns(e, spec)[i] == spec.patterns[i]
  {
    if !(e.Keys <= spec.entities) {
      var custom := e.Keys - spec.entities;
      var k :| k in e.Keys && k !in spec.entities;
      assert k in custom;
      ReplaceAbsent(spec.patterns[i], "_{suffix", "_" + CustomPattern(SortSet(custom)) + "_{suffix");
    }
  }

  /** `sorted({"custom2", "custom1"})`. */
  lemma SortTwoCustom()
    ensures SortSet({"custom2", "custom1"}) == ["custom1", "custom2"]
  {
    var keys := SortSet({"custom2", "custom1"});
    assert |keys| == 2 && keys[0] in {"custom2", "custom1"} && keys[1] in {"custom2", "custom1"};
    assert keys[0] != keys[1] by { assert "custom1" in keys && "custom2" in keys; }
    assert Le(keys[0], keys[1]);
  }

  /** Two custom entities appear in sorted order, each as `key-{key}`, before "_{suffix". */
  lemma TwoCustomKeys(e: Entities, spec: BidsSpec)
    requires e.Keys - spec.entities == {"custom2", "custom1"}
    ensures forall i :: 0 <= i < |spec.patterns| ==>
      PathPatterns(e, spec)[i]
      == Replace(spec.patterns[i], "_{suffix", "_" + (KeyPattern("custom1") + "_" + KeyPattern("custom2")) + "_{suffix")
  {
    SortTwoCustom();
    var parts := KeyPatterns(["custom1", "custom2"]);
    assert parts == [KeyPattern("custom1"), KeyPattern("custom2")] && parts[1..] == [KeyPattern("custom2")];
    assert CustomPattern(["custom1", "custom2"]) == KeyPattern("custom1") + "_" + KeyPattern("custom2");
  }

  // ---------------------------------------------------------------------------
  // Output names and the header decision

  /**
   * From the common entities on: dismissal, the extensions, the overrides,
   * the native cleanup and the collapse of equal extensions.
   */
  function Shaped(common: Entities, drops: seq<string>, exts: seq<string>,
                  allowed: set<string>, inputs: map<string, Value>): Result<Entities>
  {
    var o := Overridden(Dismissed(common, drops)["extension" := List(exts)], allowed, inputs);
    var e := CleanNative(o);
    match Collapse(e["extension"])
    case Err(err) => Err(err)
    case Ok(ext) => Ok(e["extension" := ext])
  }

  /** The entity record handed to `build_path`, or the error raised while computing it. */
  function OutEntities(sources: seq<Entities>, drops: seq<string>, inFile: seq<string>,
                       flags: seq<Option<bool>>, allowed: set<string>, inputs: map<string, Value>): Result<Entities>
  {
    if sources == [] then Err(IndexError)
    else
      match Compressed(Extensions(inFile), Broadcast(flags, |inFile|))
      case Err(err) => Err(err)
      case Ok(exts) => Shaped(Common(sources), drops, exts, allowed, inputs)
  }

  /** `parse_file_entities` applied to every source file, in order. */
  function Parsed(parse: string -> Entities, files: seq<string>): (r: seq<Entities>)
    ensures |r| == |files|
    ensures forall i :: 0 <= i < |r| ==> r[i] == parse(files[i])
  {
    if files == [] then [] else [parse(files[0])] + Parsed(parse, files[1..])
  }

  /** `not dest_files`. */
  predicate BuiltEmpty(b: Built)
  {
    b.NoPath? || (b.One? && b.path == "") || (b.Many? && b.paths == [])
  }

  /** `listify(dest_files)`. */
  function Listified(b: Built): (r: seq<string>)
    ensures !BuiltEmpty(b) ==> r != []
  {
    match b
    case NoPath => []
    case One(p) => [p]
    case Many(ps) => ps
  }

  /** `out_file.name` ends in ".nii" or ".nii.gz" but is not a CIFTI dense time series. */
  predicate IsNifti(name: string)
  {
    (EndsWith(name, ".nii") || EndsWith(name, ".nii.gz"))
    && !(EndsWith(name, ".dtseries.nii") || EndsWith(name, ".dtseries.nii.gz"))
  }

  /** `data_dtype or DEFAULT_DTYPES[suffix]`: an unset or empty data type falls back to the suffix's default. */
  function DataDtype(dataDtype: Option<string>, suffix: Value): (r: Option<string>)
    ensures r.Some? ==> r.value != ""
  {
    if dataDtype.Some? && dataDtype.value != "" then dataDtype else DefaultDtype(suffix)
  }

  /** Whether an output image is loaded at all rather than only copied. */
  predicate OpensImage(name: string, checkHdr: bool, dataDtype: Option<string>, suffix: Value)
  {
    IsNifti(name) && (checkHdr || DataDtype(dataDtype, suffix).Some?)
  }

  /**
   * A NIfTI output is loaded exactly when its header is checked, a data type
   * is given, or its suffix is one of the four with a default data type;
   * anything else is copied untouched.
   */
  lemma OpensImageWhen(name: string, checkHdr: bool, dataDtype: Option<string>, suffix: Value)
    ensures OpensImage(name, checkHdr, dataDtype, suffix)
      <==> IsNifti(name) && (checkHdr || (dataDtype.Some? && dataDtype.value != "")
                             || suffix in {Str("mask"), Str("dseg"), Str("probseg"), Str("boldref")})
  {
  }

  /** The (qform, sform) codes a derivative must carry: scanner 1, aligned 2, standard template 4. */
  function XCodes(space: Value, standard: set<string>): (r: (int, int))
    ensures r == (1, 1) <==> !Truthy(space)
    ensures Truthy(space) ==> (r == (4, 4) <==> space.Str? && space.s in standard)
    ensures r.0 == r.1
  {
    if !Truthy(space) then (1, 1)
    else if space.Str? && space.s in standard then (4, 4)
    else (2, 2)
  }

  /** A unit as stored, with "unknown" read as `None`. */
  function Known(u: string): Option<string>
  {
    if u == "unknown" then None else Some(u)
  }

  /** The units a derivative must carry: its spatial unit or millimetres, and seconds only for BOLD. */
  function WantedUnits(h: Header, suffix: Value): (r: (Option<string>, Option<string>))
    ensures r.0.Some? && r.0.value != "" && r.0.value != "unknown"
    ensures r.1 == (if suffix == Str("bold") then Some("sec") else None)
  {
    var space := Known(h.spaceUnit);
    (if space == None || space == Some("") then Some("mm") else space,
     if suffix == Str("bold") then Some("sec") else None)
  }

  /** The header is rewritten when its codes or its units differ from the wanted ones. */
  predicate NeedsFix(h: Header, xcodes: (int, int), suffix: Value)
  {
    (h.qformCode, h.sformCode) != xcodes || (Known(h.spaceUnit), Known(h.timeUnit)) != WantedUnits(h, suffix)
  }

  function UnitText(u: Option<string>): string
  {
    if u.Some? then u.value else "unknown"
  }

  /** The header after `set_qform`, `set_sform` and `set_xyzt_units` with the wanted values. */
  function Fixed(h: Header, xcodes: (int, int), suffix: Value): Header
  {
    var units := WantedUnits(h, suffix);
    Header(xcodes.0, xcodes.1, UnitText(units.0), UnitText(units.1))
  }

  /** A header that was fixed once needs no further fix: the rewrite is idempotent. */
  lemma FixedNeedsNoFix(h: Header, xcodes: (int, int), suffix: Value)
    ensures !NeedsFix(Fixed(h, xcodes, suffix), xcodes, suffix)
  {
    var f := Fixed(h, xcodes, suffix);
    assert WantedUnits(f, suffix) == WantedUnits(h, suffix);
  }

  /** A scanner-space, millimetre, non-BOLD header with unknown time unit is left alone without a space. */
  lemma ScannerHeaderKept(standard: set<string>)
    ensures !NeedsFix(Header(1, 1, "mm", "unknown"), XCodes(NoneV, standard), Str("dwi"))
    ensures NeedsFix(Header(1, 1, "mm", "unknown"), XCodes(NoneV, standard), Str("bold"))
  {
  }

  // ---------------------------------------------------------------------------
  // Metadata and the sidecar

  /** The metadata after reading `meta_dict`: constructor-time keys take priority. */
  function MergedMeta(metaDict: Option<map<string, Value>>, meta: map<string, Value>): (r: map<string, Value>)
    ensures r.Keys == meta.Keys + (if metaDict.Some? then metaDict.value.Keys else {})
    ensures forall k :: k in meta ==> r[k] == meta[k]
    ensures metaDict.Some? ==> forall k :: k in metaDict.value && k !in meta ==> r[k] == metaDict.value[k]
  {
    if metaDict.Some? then metaDict.value + meta else meta
  }

  /** The sidecar of `out_file`: its directory, the name up to the first '.', then ".json". */
  function SidecarName(outFile: string): (r: string)
  {
    JoinPath(Parent(outFile), Split(Name(outFile), '.')[0] + ".json")
  }

  /** For `d/stem.ext` with a dot-free stem, the sidecar is `d/stem.json`, whatever the extension. */
  lemma SidecarOf(d: string, stem: string, ext: string)
    requires IsPart(stem) && '.' !in stem && '/' !in ext
    ensures SidecarName(JoinPath(d, stem + "." + ext)) == JoinPath(d, stem + ".json")
  {
    var name := stem + "." + ext;
    assert IsPart(name) by {
      assert name[0] == stem[0];
      forall k | 0 <= k < |name| ensures name[k] != '/' {
        if k < |stem| { assert name[k] == stem[k]; }
        else if k > |stem| { assert name[k] == ext[k - |stem| - 1]; }
      }
    }
    NameOfJoin(d, name);
    ParentOfJoin(d, name);
    assert name == stem + ['.'] + ext;
    SplitFirst(stem, '.', ext);
    JoinNormal(d, stem + ".json");
  }

  /**
   * The entity computation of a run, step by step: common entities, dismissal,
   * extensions and compression, overrides, native cleanup, collapse.
   */
  method ComputeEntities(sources: seq<Entities>, drops: seq<string>, inFile: seq<string>,
                         flags: seq<Option<bool>>, allowed: set<string>, inputs: map<string, Value>)
    returns (r: Result<Entities>)
    ensures r == OutEntities(sources, drops, inFile, flags, allowed, inputs)
  {
    if sources == [] {
      return Err(IndexError);
    }
    var e := Common(sources);
    e := DropEntities(e, drops);
    var exts := ApplyCompression(Extensions(inFile), Broadcast(flags, |inFile|));
    if exts.Err? {
      return Err(exts.error);
    }
    e := e["extension" := List(exts.value)];
    e := ApplyOverrides(e, allowed, inputs);
    e := CleanNative(e);
    var ext := Collapse(e["extension"]);
    if ext.Err? {
      return Err(ext.error);
    }
    return Ok(e["extension" := ext.value]);
  }

  /** The output path of each destination. */
  function OutNames(outPath: string, dests: seq<string>): (r: seq<string>)
    ensures |r| == |dests|
    ensures forall i :: 0 <= i < |r| ==> r[i] == JoinPath(outPath, dests[i])
  {
    seq(|dests|, i requires 0 <= i < |dests| => JoinPath(outPath, dests[i]))
  }

  /** `str(dest_file).endswith(".gz")` for each destination. */
  function GzFlags(dests: seq<string>): (r: seq<bool>)
    ensures |r| == |dests|
    ensures forall i :: 0 <= i < |r| ==> r[i] == EndsWith(dests[i], ".gz")
  {
    if dests == [] then [] else GzFlags(dests[..|dests| - 1]) + [EndsWith(dests[|dests| - 1], ".gz")]
  }

  /** For each output, whether its header is checked and found to need fixing. */
  function HeaderFixes(outs: seq<string>, inFile: seq<string>, checkHdr: bool, header: string -> Header,
                       xcodes: (int, int), suffix: Value): (r: seq<bool>)
    requires |outs| <= |inFile|
    ensures |r| == |outs|
  {
    if outs == [] then []
    else
      var n := |outs| - 1;
      HeaderFixes(outs[..n], inFile, checkHdr, header, xcodes, suffix)
      + [checkHdr && IsNifti(Name(outs[n])) && NeedsFix(header(inFile[n]), xcodes, suffix)]
  }

  /** Output `i` is marked exactly when the header is checked, the output is a NIfTI file and its header needs a fix. */
  lemma {:induction false} HeaderFixesAt(outs: seq<string>, inFile: seq<string>, checkHdr: bool, header: string -> Header,
                                         xcodes: (int, int), suffix: Value, i: int)
    requires |outs| <= |inFile| && 0 <= i < |outs|
    ensures HeaderFixes(outs, inFile, checkHdr, header, xcodes, suffix)[i]
            == (checkHdr && IsNifti(Name(outs[i])) && NeedsFix(header(inFile[i]), xcodes, suffix))
    decreases |outs|
  {
    var n := |outs| - 1;
    if i < n {
      HeaderFixesAt(outs[..n], inFile, checkHdr, header, xcodes, suffix, i);
      assert outs[..n][i] == outs[i];
    }
  }

  /** Some output is a NIfTI file. */
  predicate AnyNifti(outs: seq<string>)
  {
    outs != [] && (AnyNifti(outs[..|outs| - 1]) || IsNifti(Name(outs[|outs| - 1])))
  }

  lemma {:induction false} NiftiPrefix(a: seq<string>, b: seq<string>)
    requires |a| <= |b| && b[..|a|] == a && AnyNifti(a)
    ensures AnyNifti(b)
    decreases |b|
  {
    if |a| < |b| {
      NiftiPrefix(a, b[..|b| - 1]);
    } else {
      assert a == b;
    }
  }

  /** The inputs of the interface that a run reads (`self.inputs`). */
  datatype Inputs = Inputs(
    baseDirectory: Option<string>,
    checkHdr: bool,
    inFile: seq<string>,
    sourceFile: seq<string>,
    compress: seq<Option<bool>>,
    dismissEntities: seq<string>,
    metaDict: Option<map<string, Value>>,
    dataDtype: Option<string>,
    /** The allowed entities set on the inputs (an entity never set is absent). */
    entities: map<string, Value>,
    /** Values set on the inputs under names that are neither specification traits nor entities. */
    dynamic: map<string, Value>)

  /** A value assigned to an `InputMultiObject` trait of paths or names: a single one becomes a one-item list. */
  function MultiStr(v: Value): seq<string>
  {
    match v
    case Str(s) => [s]
    case List(xs) => xs
    case _ => []
  }

  /** A value assigned to `compress`: a single flag or `None` becomes a one-item list. */
  function MultiFlag(v: Value): seq<Option<bool>>
  {
    match v
    case NoneV => [None]
    case Bool(b) => [Some(b)]
    case _ => []
  }

  /**
   * The inputs right after construction: each keyword argument naming a
   * specification trait sets that trait (list traits take a single value as
   * a one-item list), each naming an allowed entity sets that entity, and
   * every other trait keeps its default: no base directory, headers
   * checked, no files, no flags, nothing dismissed. `metaDict` is the
   * `meta_dict` keyword argument, a dictionary.
   */
  function InitialInputs(kwargs: map<string, Value>, metaDict: Option<map<string, Value>>, allowed: set<string>): (r: Inputs)
    ensures ("base_directory" in kwargs && kwargs["base_directory"].Str?) <==> r.baseDirectory.Some?
    ensures r.baseDirectory.Some? ==> r.baseDirectory.value == kwargs["base_directory"].s
    ensures r.checkHdr <==> "check_hdr" !in kwargs || kwargs["check_hdr"] != Bool(false)
    ensures "in_file" in kwargs && kwargs["in_file"].Str? ==> r.inFile == [kwargs["in_file"].s]
    ensures "in_file" in kwargs && kwargs["in_file"].List? ==> r.inFile == kwargs["in_file"].xs
    ensures "source_file" in kwargs && kwargs["source_file"].Str? ==> r.sourceFile == [kwargs["source_file"].s]
    ensures "source_file" in kwargs && kwargs["source_file"].List? ==> r.sourceFile == kwargs["source_file"].xs
    ensures "dismiss_entities" in kwargs && kwargs["dismiss_entities"].Str? ==> r.dismissEntities == [kwargs["dismiss_entities"].s]
    ensures "dismiss_entities" in kwargs && kwargs["dismiss_entities"].List? ==> r.dismissEntities == kwargs["dismiss_entities"].xs
    ensures "compress" in kwargs && kwargs["compress"].Bool? ==> r.compress == [Some(kwargs["compress"].b)]
    ensures "compress" in kwargs && kwargs["compress"].NoneV? ==> r.compress == [None]
    ensures "in_file" !in kwargs ==> r.inFile == []
    ensures "source_file" !in kwargs ==> r.sourceFile == []
    ensures "dismiss_entities" !in kwargs ==> r.dismissEntities == []
    ensures "compress" !in kwargs ==> r.compress == []
    ensures r.metaDict == metaDict
    ensures ("data_dtype" in kwargs && kwargs["data_dtype"].Str?) <==> r.dataDtype.Some?
    ensures r.dataDtype.Some? ==> r.dataDtype.value == kwargs["data_dtype"].s
    ensures r.entities.Keys == kwargs.Keys * allowed && forall k :: k in r.entities ==> r.entities[k] == kwargs[k]
    ensures r.dynamic == map[]
  {
    Inputs(
      if "base_directory" in kwargs && kwargs["base_directory"].Str? then Some(kwargs["base_directory"].s) else None,
      if "check_hdr" in kwargs && kwargs["check_hdr"].Bool? then kwargs["check_hdr"].b else true,
      if "in_file" in kwargs then MultiStr(kwargs["in_file"]) else [],
      if "source_file" in kwargs then MultiStr(kwargs["source_file"]) else [],
      if "compress" in kwargs then MultiFlag(kwargs["compress"]) else [],
      if "dismiss_entities" in kwargs then MultiStr(kwargs["dismiss_entities"]) else [],
      metaDict,
      if "data_dtype" in kwargs && kwargs["data_dtype"].Str? then Some(kwargs["data_dtype"].s) else None,
      map k | k in kwargs && k in allowed :: kwargs[k],
      map[])
  }

  /**
   * The sinks of the DWI workflow are built with `base_directory`,
   * `compress`, `source_file` and `dismiss_entities`: each sets its trait,
   * and none of them becomes metadata.
   */
  lemma SinkKeywordTraits(d: string, source: string, allowed: set<string>)
    ensures var kwargs := map["base_directory" := Str(d), "compress" := Bool(true), "source_file" := Str(source),
                              "dismiss_entities" := List(["direction"])];
      var inputs := InitialInputs(kwargs, None, allowed);
      && inputs.baseDirectory == Some(d) && inputs.compress == [Some(true)]
      && inputs.sourceFile == [source] && inputs.dismissEntities == ["direction"]
      && inputs.inFile == [] && inputs.checkHdr
      && (map k | k in kwargs && k !in SPEC_TRAITS + allowed :: kwargs[k]) == map[]
  {
  }

  /** The directory outputs go under: the base directory (or `cwd`), made absolute, then `out_path_base`. */
  function OutPath(cwd: string, baseDirectory: Option<string>, outPathBase: string): string
  {
    JoinPath(Absolute(cwd, if baseDirectory.Some? then baseDirectory.value else cwd), outPathBase)
  }

  /** The entity record a run computes from inputs `inputs`. */
  function EntitiesOf(inputs: Inputs, allowed: set<string>, parse: string -> Entities): Result<Entities>
  {
    OutEntities(Parsed(parse, inputs.sourceFile), inputs.dismissEntities, inputs.inFile,
                inputs.compress, allowed, inputs.entities)
  }

  /** The metadata a run with `n` outputs ends with, before the legacy keys are moved out. */
  function FinalMeta(inputs: Inputs, metadata: map<string, Value>, n: int): map<string, Value>
  {
    var m := MergedMeta(inputs.metaDict, metadata);
    if n == 1 then m + inputs.dynamic else m
  }

  /** The metadata, the content of the legacy sidecar, and the sidecar path. */
  datatype SidecarState = SidecarState(metadata: map<string, Value>, legacyMeta: map<string, Value>, outMeta: Option<string>)

  /**
   * The sidecar step from metadata `m` and the earlier state `legacy`,
   * `outMeta`: only a single output with non-empty metadata gets a sidecar
   * named after it, and a `.dtseries.nii` output moves the legacy keys out of
   * the metadata into the legacy sidecar.
   */
  function Sidecar(outFile: seq<string>, m: map<string, Value>, legacy: map<string, Value>, outMeta: Option<string>)
    : (r: SidecarState)
    ensures |outFile| != 1 || m == map[] ==> r == SidecarState(m, legacy, outMeta)
    ensures |outFile| == 1 && m != map[] ==> r.outMeta == Some(SidecarName(outFile[0]))
    ensures forall k :: k in r.metadata ==> k in m && r.metadata[k] == m[k]
    ensures |outFile| == 1 && m != map[] && EndsWith(Name(outFile[0]), ".dtseries.nii") ==>
      && r.metadata.Keys == m.Keys - LEGACY_KEYS
      && r.legacyMeta.Keys == m.Keys * LEGACY_KEYS
      && forall k :: k in r.legacyMeta ==> r.legacyMeta[k] == m[k]
    ensures !(|outFile| == 1 && m != map[] && EndsWith(Name(outFile[0]), ".dtseries.nii")) ==>
      r.metadata == m && r.legacyMeta == legacy
  {
    if |outFile| != 1 || m == map[] then SidecarState(m, legacy, outMeta)
    else if EndsWith(Name(outFile[0]), ".dtseries.nii") then
      SidecarState(m - LEGACY_KEYS, map k | k in m && k in LEGACY_KEYS :: m[k], Some(SidecarName(outFile[0])))
    else SidecarState(m, legacy, Some(SidecarName(outFile[0])))
  }

  /** The results of the loop over the outputs: `out_file`, `compression` and `fixed_hdr`. */
  /** `[False] * n`: no output's header fixed. */
  function Unfixed(n: nat): (r: seq<bool>)
    ensures |r| == n && forall k :: 0 <= k < n ==> !r[k]
  {
    seq(n, _ => false)
  }

  datatype Placement = Placement(outFile: seq<string>, compression: seq<bool>, fixedHdr: seq<bool>)

  /** The results for output paths `outs` and destinations `dests` when the loop runs to the end. */
  function Placed(e: Entities, outs: seq<string>, dests: seq<string>, inFile: seq<string>, checkHdr: bool,
                  header: string -> Header, xcodes: (int, int)): (p: Placement)
    requires |outs| == |dests| == |inFile|
    ensures |p.outFile| == |p.compression| == |p.fixedHdr| == |dests|
    ensures forall i :: 0 <= i < |dests| ==> p.compression[i] == EndsWith(dests[i], ".gz")
    ensures forall i :: 0 <= i < |dests| ==>
      p.fixedHdr[i] == (checkHdr && IsNifti(Name(outs[i])) && NeedsFix(header(inFile[i]), xcodes, GetOr(e, "suffix")))
  {
    var fixes := HeaderFixes(outs, inFile, checkHdr, header, xcodes, GetOr(e, "suffix"));
    assert forall i :: 0 <= i < |dests| ==>
      fixes[i] == (checkHdr && IsNifti(Name(outs[i])) && NeedsFix(header(inFile[i]), xcodes, GetOr(e, "suffix"))) by {
      forall i | 0 <= i < |dests|
        ensures fixes[i] == (checkHdr && IsNifti(Name(outs[i])) && NeedsFix(header(inFile[i]), xcodes, GetOr(e, "suffix"))) {
        HeaderFixesAt(outs, inFile, checkHdr, header, xcodes, GetOr(e, "suffix"), i);
      }
    }
    Placement(outs, GzFlags(dests), fixes)
  }

  /** One more output extends the compression flags, the header fixes and the NIfTI test by that output. */
  lemma PlaceStep(outs: seq<string>, dests: seq<string>, inFile: seq<string>, checkHdr: bool,
                  header: string -> Header, xcodes: (int, int), suffix: Value, i: nat)
    requires i < |outs| == |dests| == |inFile|
    ensures GzFlags(dests[..i + 1]) == GzFlags(dests[..i]) + [EndsWith(dests[i], ".gz")]
    ensures HeaderFixes(outs[..i + 1], inFile, checkHdr, header, xcodes, suffix)
      == HeaderFixes(outs[..i], inFile, checkHdr, header, xcodes, suffix)
         + [checkHdr && IsNifti(Name(outs[i])) && NeedsFix(header(inFile[i]), xcodes, suffix)]
    ensures AnyNifti(outs[..i + 1]) == (AnyNifti(outs[..i]) || IsNifti(Name(outs[i])))
  {
    assert dests[..i + 1][..i] == dests[..i];
    assert outs[..i + 1][..i] == outs[..i];
  }

  /**
   * The loop over `zip(in_file, dest_files)`, given the output path of each
   * destination: appends each output path and its compression, and records
   * whether the NIfTI header needs fixing; a NIfTI output checked without a
   * `suffix` entity raises `KeyError`, leaving the results of the outputs up
   * to and including that one.
   */
  method PlaceAll(e: Entities, outs: seq<string>, dests: seq<string>, inFile: seq<string>, checkHdr: bool,
                  header: string -> Header, xcodes: (int, int)) returns (p: Placement, err: Option<Error>)
    requires |outs| == |dests| == |inFile|
    ensures err.Some? <==> "suffix" !in e && checkHdr && AnyNifti(outs)
    ensures err.Some? ==> err == Some(KeyError("suffix"))
    ensures err.None? ==> p == Placed(e, outs, dests, inFile, checkHdr, header, xcodes)
    ensures err.Some? ==>
      var n := |p.outFile|;
      && 0 < n <= |dests|
      && p.outFile == outs[..n]
      && p.compression == GzFlags(dests[..n])
      && IsNifti(Name(outs[n - 1]))
      && !AnyNifti(outs[..n - 1])
      && |p.fixedHdr| == |dests|
  {
    var suffix := GetOr(e, "suffix");
    var comps: seq<bool>, fixes: seq<bool> := [], [];
    for i := 0 to |dests|
      invariant comps == GzFlags(dests[..i])
      invariant fixes == HeaderFixes(outs[..i], inFile, checkHdr, header, xcodes, suffix)
      invariant "suffix" in e || !checkHdr || !AnyNifti(outs[..i])
    {
      PlaceStep(outs, dests, inFile, checkHdr, header, xcodes, suffix, i);
      comps := comps + [EndsWith(dests[i], ".gz")];
      if checkHdr && IsNifti(Name(outs[i])) && "suffix" !in e {
        NiftiPrefix(outs[..i + 1], outs);
        return Placement(outs[..i + 1], comps, fixes + Unfixed(|dests| - i)), Some(KeyError("suffix"));
      }
      fixes := fixes + [checkHdr && IsNifti(Name(outs[i])) && NeedsFix(header(inFile[i]), xcodes, suffix)];
    }
    assert dests[..|dests|] == dests;
    assert outs[..|outs|] == outs;
    return Placement(outs, comps, fixes), None;
  }

  /**
   * What a run computes from `inputs`: the entity error (and no results), a
   * `ValueError` when the patterns yield no destination or the wrong number,
   * the `KeyError` of a checked NIfTI output without a `suffix` entity, or
   * the entity record with the per-output results of every destination.
   */
  ghost predicate Derived(inputs: Inputs, allowed: set<string>, spec: BidsSpec, outPath: string,
                          parse: string -> Entities, buildPath: (Entities, seq<string>) -> Built,
                          header: string -> Header, standard: set<string>,
                          r: Result<Entities>, p: Option<Placement>)
  {
    && (EntitiesOf(inputs, allowed, parse).Err? <==> p.None?)
    && (p.None? ==> r == Err(EntitiesOf(inputs, allowed, parse).error))
    && (r.Ok? ==> EntitiesOf(inputs, allowed, parse) == Ok(r.value))
    && (p.Some? ==>
      var e := EntitiesOf(inputs, allowed, parse).value;
      var built := buildPath(e, PathPatterns(e, spec));
      var dests := Listified(built);
      if BuiltEmpty(built) || |dests| != |inputs.inFile| then
        r.Err? && r.error.ValueError? && p.value == Placement([], [], Unfixed(|inputs.inFile|))
      else if "suffix" !in e && inputs.checkHdr && AnyNifti(OutNames(outPath, dests)) then
        r == Err(KeyError("suffix"))
      else
        r == Ok(e)
        && p.value == Placed(e, OutNames(outPath, dests), dests, inputs.inFile, inputs.checkHdr, header,
                             XCodes(GetOr(inputs.entities, "space"), standard)))
  }

  /**
   * The part of a run that computes values: the entity record, the
   * destinations and the per-output results. `p` is `None` when the run
   * fails before the results are reset.
   */
  method Derive(inputs: Inputs, allowed: set<string>, spec: BidsSpec, outPath: string,
                parse: string -> Entities, buildPath: (Entities, seq<string>) -> Built,
                header: string -> Header, standard: set<string>)
    returns (r: Result<Entities>, p: Option<Placement>)
    ensures Derived(inputs, allowed, spec, outPath, parse, buildPath, header, standard, r, p)
  {
    var entities := ComputeEntities(Parsed(parse, inputs.sourceFile), inputs.dismissEntities, inputs.inFile,
                                    inputs.compress, allowed, inputs.entities);
    if entities.Err? {
      return Err(entities.error), None;
    }
    var e := entities.value;
    var reset := Placement([], [], Unfixed(|inputs.inFile|));
    var built := buildPath(e, PathPatterns(e, spec));
    if BuiltEmpty(built) {
      return Err(ValueError("Could not build path with entities")), Some(reset);
    }
    var dests := Listified(built);
    if |inputs.inFile| != |dests| {
      return Err(ValueError("Input files not matched by interpolated patterns")), Some(reset);
    }
    var placed, err := PlaceAll(e, OutNames(outPath, dests), dests, inputs.inFile, inputs.checkHdr, header,
                                XCodes(GetOr(inputs.entities, "space"), standard));
    if err.Some? {
      return Err(err.value), Some(placed);
    }
    return Ok(e), Some(placed);
  }

  /** `DerivativesDataSink`: configuration fixed at construction, the inputs, and the results of a run. */
  class DerivativesDataSink {
    const spec: BidsSpec
    const allowedEntities: set<string>
    const outPathBase: string
    const staticTraits: set<string>
    var metadata: map<string, Value>
    var inputs: Inputs

    var outFile: seq<string>
    var compression: seq<bool>
    var fixedHdr: seq<bool>
    var outMeta: Option<string>
    /** The keys moved to the legacy sidecar of a dense time series. */
    var legacyMeta: map<string, Value>

    /**
     * `DerivativesDataSink(allowed_entities, out_path_base, **inputs)`: keyword
     * arguments naming no trait become metadata; the others set the traits
     * and entities they name. `metaDict` is the `meta_dict` keyword argument.
     */
    constructor (spec: BidsSpec, allowed: seq<string>, outPathBase: Option<string>,
                 kwargs: map<string, Value>, metaDict: Option<map<string, Value>>)
      ensures this.spec == spec
      ensures allowedEntities == (set k | k in allowed) + spec.entities
      ensures this.outPathBase == if outPathBase.Some? && outPathBase.value != "" then outPathBase.value else DEFAULT_OUT_PATH_BASE
      ensures staticTraits == SPEC_TRAITS + allowedEntities
      ensures metadata == (map k | k in kwargs && k !in staticTraits :: kwargs[k])
      ensures inputs == InitialInputs(kwargs, metaDict, allowedEntities)
      ensures outFile == [] && compression == [] && fixedHdr == [] && outMeta == None && legacyMeta == map[]
    {
      this.spec := spec;
      var allowedSet := (set k | k in allowed) + spec.entities;
      allowedEntities := allowedSet;
      this.outPathBase := if outPathBase.Some? && outPathBase.value != "" then outPathBase.value else DEFAULT_OUT_PATH_BASE;
      staticTraits := SPEC_TRAITS + allowedSet;
      metadata := map k | k in kwargs && k !in SPEC_TRAITS + allowedSet :: kwargs[k];
      inputs := InitialInputs(kwargs, metaDict, allowedSet);
      outFile, compression, fixedHdr := [], [], [];
      outMeta, legacyMeta := None, map[];
    }

    /**
     * `_run_interface`: merges `meta_dict` into the metadata, derives the
     * entity record and the per-output results, then writes the sidecar of a
     * single output. `p` holds the per-output results the run computed.
     * The merged metadata is the `meta_dict` object itself, updated in
     * place, so a given `meta_dict` ends the run equal to the metadata,
     * the sidecar's additions and removals included.
     */
    method Run(cwd: string, parse: string -> Entities, buildPath: (Entities, seq<string>) -> Built,
               header: string -> Header, standard: set<string>) returns (r: Result<Entities>, ghost p: Option<Placement>)
      modifies this
      ensures old(inputs).metaDict.None? ==> inputs == old(inputs)
      ensures old(inputs).metaDict.Some? ==> inputs == old(inputs).(metaDict := Some(metadata))
      ensures Derived(old(inputs), allowedEntities, spec, OutPath(cwd, old(inputs).baseDirectory, outPathBase),
                      parse, buildPath, header, standard, r, p)
      ensures p.None? ==> outFile == old(outFile) && compression == old(compression) && fixedHdr == old(fixedHdr)
      ensures p.Some? ==> outFile == p.value.outFile && compression == p.value.compression && fixedHdr == p.value.fixedHdr
      ensures r.Err? ==> metadata == MergedMeta(old(inputs).metaDict, old(metadata))
      ensures r.Err? ==> outMeta == old(outMeta) && legacyMeta == old(legacyMeta)
      ensures r.Ok? ==> SidecarState(metadata, legacyMeta, outMeta)
                        == Sidecar(outFile, FinalMeta(old(inputs), old(metadata), |outFile|), old(legacyMeta), old(outMeta))
    {
      var inp := inputs;
      var placed;
      r, placed := Derive(inp, allowedEntities, spec, OutPath(cwd, inp.baseDirectory, outPathBase),
                          parse, buildPath, header, standard);
      p := placed;
      Store(r, placed, MergedMeta(inp.metaDict, metadata));
      if inp.metaDict.Some? {
        inputs := inp.(metaDict := Some(metadata));
      }
    }

    /** Records the results of a run: metadata `merged`, the per-output results, and the sidecar of a successful run. */
    method Store(r: Result<Entities>, placed: Option<Placement>, merged: map<string, Value>)
      modifies this
      ensures inputs == old(inputs)
      ensures placed.None? ==> outFile == old(outFile) && compression == old(compression) && fixedHdr == old(fixedHdr)
      ensures placed.Some? ==> outFile == placed.value.outFile && compression == placed.value.compression && fixedHdr == placed.value.fixedHdr
      ensures r.Err? ==> metadata == merged && outMeta == old(outMeta) && legacyMeta == old(legacyMeta)
      ensures r.Ok? ==> SidecarState(metadata, legacyMeta, outMeta)
                        == Sidecar(outFile, if |outFile| == 1 then merged + inputs.dynamic else merged, old(legacyMeta), old(outMeta))
    {
      if placed.Some? {
        outFile, compression, fixedHdr := placed.value.outFile, placed.value.compression, placed.value.fixedHdr;
      }
      metadata := merged;
      if r.Ok? {
        WriteSidecar();
      }
    }

    /**
     * With exactly one output: the dynamic inputs join the metadata, and a
     * non-empty metadata names the sidecar, after the legacy keys of a
     * `.dtseries.nii` output are moved out.
     */
    method WriteSidecar()
      modifies this
      ensures inputs == old(inputs) && outFile == old(outFile)
      ensures compression == old(compression) && fixedHdr == old(fixedHdr)
      ensures SidecarState(metadata, legacyMeta, outMeta)
              == Sidecar(outFile, if |outFile| == 1 then old(metadata) + inputs.dynamic else old(metadata), old(legacyMeta), old(outMeta))
    {
      if |outFile| == 1 {
        var m := metadata + inputs.dynamic;
        var legacy, sidecar := legacyMeta, outMeta;
        if m != map[] {
          if EndsWith(Name(outFile[0]), ".dtseries.nii") {
            legacy := map k | k in m && k in LEGACY_KEYS :: m[k];
            m := m - LEGACY_KEYS;
          }
          sidecar := Some(SidecarName(outFile[0]));
        }
        metadata, legacyMeta, outMeta := m, legacy, sidecar;
      }
    }
  }

  /**
   * The sidecar example: constructor metadata beats `meta_dict`, a value set on
   * the inputs beats both, and keys only in `meta_dict` are kept.
   */
  lemma MetadataPriority(fromDict: Value, fromCtor: Value, fromInput: Value, other: Value, z: Value)
    ensures var m := MergedMeta(Some(map["RepetitionTime" := fromDict, "SkullStripped" := other, "Z" := z]),
                                map["SkullStripped" := fromCtor]);
            m + map["RepetitionTime" := fromInput]
            == map["RepetitionTime" := fromInput, "SkullStripped" := fromCtor, "Z" := z]
  {
  }
}
