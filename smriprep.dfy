/**
 * The smriprep driver, dwiprep/workflows/smri/smriprep.py: it gathers the
 * command-line options of a containerised smriprep run (its own, then the
 * user's), binds every path-like option into the container, renders the
 * command line, and lists the outputs a finished run leaves behind.
 */
module SmriPrep {
  import opened Py
  import opened Text
  import opened Paths
  import opened Dicts
  import opened BidsLayout
  import opened SmriUtils
  import DmriSession

  const VERSION := "0.8.1"
  const DEFAULT_IMAGE_LOCATION := "/my_images"
  const BIDS_FILTER_FILE := "bids_filter.json"

  /** What unpacking `OUTPUTS.get(key)` raises for an unknown key. */
  const CANNOT_UNPACK := "cannot unpack non-iterable NoneType object"

  /** `IMAGE_TEMPLATE.format(image_location=..., version=...)`. */
  function ImageTemplate(imageLocation: string, version: string): string
  {
    imageLocation + "/smriprep:" + version + ".simg"
  }

  /** `COMMAND_MOUNT_TEMPLATE.format(bids_dir=..., destination=...)`. */
  function MountTemplate(bidsDir: string, destination: string): string
  {
    "singularity run --cleanenv -B " + bidsDir + ":/bids_dir -B " + destination + ":/destination"
  }

  /** `COMMMAND_TEMPLATE.format(mounted_command=..., image_path=...)`. */
  function CommandTemplate(mountedCommand: string, imagePath: string): string
  {
    mountedCommand + " " + imagePath + " /bids_dir /destination participant"
  }

  /** `build_image_location(image_path)`: the given path, or the versioned image in the default location. */
  function BuildImageLocation(imagePath: Option<string>): (r: string)
    ensures imagePath.Some? ==> r == Normal(imagePath.value)
    ensures imagePath.None? ==> Name(r) == "smriprep:" + VERSION + ".simg" && Parent(r) == DEFAULT_IMAGE_LOCATION
  {
    DefaultImage();
    if imagePath.None? then Normal(ImageTemplate(DEFAULT_IMAGE_LOCATION, VERSION)) else Normal(imagePath.value)
  }

  lemma DefaultImage()
    ensures Name(Normal(ImageTemplate(DEFAULT_IMAGE_LOCATION, VERSION))) == "smriprep:" + VERSION + ".simg"
    ensures Parent(Normal(ImageTemplate(DEFAULT_IMAGE_LOCATION, VERSION))) == DEFAULT_IMAGE_LOCATION
  {
    var x := "smriprep:" + VERSION + ".simg";
    var parts := ["my_images", x];
    assert IsPart("my_images") && IsPart(x);
    JoinCons("/", "my_images", [x]);
    assert ImageTemplate(DEFAULT_IMAGE_LOCATION, VERSION) == Render(true, parts);
    PartsOfRender(true, parts);
    assert parts[..1] == ["my_images"];
  }

  /** Where a path-like option is mounted inside the container: its name with every '-' turned into '_'. */
  function MountTarget(kwarg: string): (r: string)
    ensures |r| == |kwarg| && '-' !in r
  {
    seq(|kwarg|, i requires 0 <= i < |kwarg| => if kwarg[i] == '-' then '_' else kwarg[i])
  }

  /** The mount target is `kwarg.replace("-", "_")`. */
  lemma {:induction false} MountTargetIsReplace(kwarg: string)
    ensures MountTarget(kwarg) == Replace(kwarg, "-", "_")
    decreases |kwarg|
  {
    if kwarg != [] {
      MountTargetIsReplace(kwarg[1..]);
      if kwarg[0] == '-' {
        assert StartsWith(kwarg, "-");
        assert MountTarget(kwarg) == "_" + MountTarget(kwarg[1..]);
      } else {
        assert !StartsWith(kwarg, "-");
        assert MountTarget(kwarg) == [kwarg[0]] + MountTarget(kwarg[1..]);
      }
    }
  }

  /** The bind mount `add_mounts_to_command` appends for one path-like option. */
  function Mount(kwarg: string, value: Value): string
  {
    " -B " + ToStr(value) + ":/" + MountTarget(kwarg)
  }

  /** The bind mounts `add_mounts_to_command` appends for the path-like options among `kwargs`, in order. */
  function Mounts(kwargs: Dict<string, Value>): string
  {
    if kwargs == [] then ""
    else
      var init, last := kwargs[..|kwargs| - 1], kwargs[|kwargs| - 1];
      Mounts(init) + (if last.0 in PATH_LIKE_KWARGS then Mount(last.0, last.1) else "")
  }

  /** One option as `add_mounts_to_command` leaves it in its copy: a path-like one points at its mount point. */
  function RemapOne(kwarg: (string, Value)): (string, Value)
  {
    (kwarg.0, if kwarg.0 in PATH_LIKE_KWARGS then Str("/" + MountTarget(kwarg.0)) else kwarg.1)
  }

  /** The options with every path-like value replaced by its mount point, keys and order kept. */
  function Remapped(kwargs: Dict<string, Value>): (r: Dict<string, Value>)
    ensures |r| == |kwargs| && forall i :: 0 <= i < |r| ==> r[i] == RemapOne(kwargs[i])
  {
    if kwargs == [] then [] else Remapped(kwargs[..|kwargs| - 1]) + [RemapOne(kwargs[|kwargs| - 1])]
  }

  /**
   * Each path-like option is bound into the container at exactly the path
   * its remapped value names, and every other option keeps its value.
   */
  lemma {:induction false} MountsMatchRemapped(kwargs: Dict<string, Value>, i: nat)
    requires i < |kwargs|
    ensures kwargs[i].0 in PATH_LIKE_KWARGS ==>
      Remapped(kwargs)[i].1 == Str("/" + MountTarget(kwargs[i].0)) && Contains(Mounts(kwargs), Mount(kwargs[i].0, kwargs[i].1))
    ensures kwargs[i].0 !in PATH_LIKE_KWARGS ==> Remapped(kwargs)[i] == kwargs[i]
    decreases |kwargs|
  {
    if kwargs[i].0 in PATH_LIKE_KWARGS {
      var init, last := kwargs[..|kwargs| - 1], kwargs[|kwargs| - 1];
      var tail := if last.0 in PATH_LIKE_KWARGS then Mount(last.0, last.1) else "";
      assert Mounts(kwargs) == Mounts(init) + tail;
      if i == |kwargs| - 1 {
        ContainsMiddle(Mounts(init), tail, "");
        assert Mounts(init) + tail + "" == Mounts(kwargs);
      } else {
        MountsMatchRemapped(init, i);
        assert init[i] == kwargs[i];
        ContainsPrefix(Mounts(init), Mount(kwargs[i].0, kwargs[i].1), tail);
      }
    }
  }

  /** `" {v}"` for each list element, in order. */
  function SpacedValues(xs: seq<string>): string
  {
    if xs == [] then "" else SpacedValues(xs[..|xs| - 1]) + " " + xs[|xs| - 1]
  }

  /** The text `add_kwargs_to_command` adds for one option. */
  function RenderKwarg(key: string, value: Value): string
  {
    " --" + key + (
      if value.List? then SpacedValues(value.xs)
      else if key in FLAGS && Truthy(value) then ""
      else " " + ToStr(value))
  }

  /** `add_kwargs_to_command(kwargs)`: the options rendered one after the other, in order. */
  function RenderKwargs(kwargs: Dict<string, Value>): string
  {
    if kwargs == [] then ""
    else RenderKwargs(kwargs[..|kwargs| - 1]) + RenderKwarg(kwargs[|kwargs| - 1].0, kwargs[|kwargs| - 1].1)
  }

  /** Rendering two runs of options one after the other is rendering both. */
  lemma {:induction false} RenderKwargsAppend(a: Dict<string, Value>, b: Dict<string, Value>)
    ensures RenderKwargs(a + b) == RenderKwargs(a) + RenderKwargs(b)
    decreases |b|
  {
    if b == [] {
      assert a + b == a;
    } else {
      var init := b[..|b| - 1];
      assert (a + b)[..|a + b| - 1] == a + init && (a + b)[|a + b| - 1] == b[|b| - 1];
      RenderKwargsAppend(a, init);
    }
  }

  /** Every option appears in the rendered command with its own rendering. */
  lemma {:induction false} RenderKwargsHas(kwargs: Dict<string, Value>, i: nat)
    requires i < |kwargs|
    ensures Contains(RenderKwargs(kwargs), RenderKwarg(kwargs[i].0, kwargs[i].1))
    decreases |kwargs|
  {
    var n := |kwargs| - 1;
    var init, piece := kwargs[..n], RenderKwarg(kwargs[i].0, kwargs[i].1);
    if i == n {
      ContainsMiddle(RenderKwargs(init), piece, "");
      assert RenderKwargs(init) + piece + "" == RenderKwargs(kwargs);
    } else {
      RenderKwargsHas(init, i);
      assert init[i] == kwargs[i];
      ContainsPrefix(RenderKwargs(init), piece, RenderKwarg(kwargs[n].0, kwargs[n].1));
    }
  }

  /** A truthy flag renders bare, and a false one renders as "--flag False". */
  lemma RenderFlags(key: string, value: Value)
    requires key in FLAGS && !value.List?
    ensures Truthy(value) ==> RenderKwarg(key, value) == " --" + key
    ensures value == Bool(false) ==> RenderKwarg(key, value) == " --" + key + " False"
  {
  }

  /** The path patterns `generate_fs_outputs` and `generate_smriprep_outputs` search for. */
  function OutputPattern(parts: seq<string>, subjectId: string, sessionId: string): string
    requires Unpackable(parts)
  {
    if parts[0] == "freesurfer" then parts[0] + "/sub-" + subjectId + "/**/*" + parts[2]
    else parts[0] + "/**/" + parts[1] + "/sub-" + subjectId + "_" + sessionId + "_" + parts[2]
  }

  /** A native-space output other than a transform, whose standard-space twins must be dropped. */
  predicate DropsMni(partialOutput: string)
  {
    Contains(partialOutput, "native") && !Contains(partialOutput, "transform")
  }

  /** The paths whose file name does not mention "MNI", in order. */
  function WithoutMni(paths: seq<string>): (r: seq<string>)
    ensures forall f :: f in r <==> f in paths && !Contains(Name(f), "MNI")
  {
    if paths == [] then []
    else
      var init, last := paths[..|paths| - 1], paths[|paths| - 1];
      assert paths == init + [last];
      WithoutMni(init) + (if Contains(Name(last), "MNI") then [] else [last])
  }

  /**
   * `find_output(partial_output, subject_id, session_id)`: the files under
   * the destination matching the output's pattern, which `rglob` lists,
   * with the "MNI" files dropped for native non-transform outputs; an
   * unknown output raises `TypeError` when its `None` is unpacked.
   */
  function FindOutput(partialOutput: string, subjectId: string, sessionId: string, rglob: string -> seq<string>)
    : (r: Result<seq<string>>)
    ensures r.Err? <==> partialOutput !in Keys(OUTPUTS)
    ensures r.Err? ==> r.error == TypeError(CANNOT_UNPACK)
    ensures r.Ok? ==> Unpackable(Get(OUTPUTS, partialOutput).value)
    ensures r.Ok? ==> forall f :: f in r.value <==>
      f in rglob(OutputPattern(Get(OUTPUTS, partialOutput).value, subjectId, sessionId)) && (DropsMni(partialOutput) ==> !Contains(Name(f), "MNI"))
  {
    var parts := Get(OUTPUTS, partialOutput);
    if parts.None? then Err(TypeError(CANNOT_UNPACK))
    else
      OutputsShape();
      var outputs := rglob(OutputPattern(parts.value, subjectId, sessionId));
      if DropsMni(partialOutput) then Ok(WithoutMni(outputs)) else Ok(outputs)
  }

  /** `participant_label` as the list of subjects: a list as it is, anything else (`None` included) alone. */
  function SubjectIds(participantLabel: Option<Value>): (r: seq<Value>)
    ensures participantLabel.Some? && participantLabel.value.List? ==>
      |r| == |participantLabel.value.xs| && forall i :: 0 <= i < |r| ==> r[i] == Str(participantLabel.value.xs[i])
    ensures participantLabel.None? ==> r == [NoneV]
    ensures participantLabel.Some? && !participantLabel.value.List? ==> r == [participantLabel.value]
  {
    match participantLabel
    case None => [NoneV]
    case Some(List(xs)) => seq(|xs|, i requires 0 <= i < |xs| => Str(xs[i]))
    case Some(v) => [v]
  }

  /** What `find_output` finds for an expected output of a subject, in any session (nothing for a key it does not know). */
  function Found(key: string, subjectId: Value, rglob: string -> seq<string>): seq<string>
  {
    var found := FindOutput(key, ToStr(subjectId), "*", rglob);
    if found.Ok? then found.value else []
  }

  /** `output_dict[subject_id]` once the expected outputs `keys` are filled in, in order. */
  function SubjectOutputs(subjectId: Value, rglob: string -> seq<string>, keys: seq<string>): Dict<string, seq<string>>
  {
    if keys == [] then []
    else
      var key := keys[|keys| - 1];
      Set(SubjectOutputs(subjectId, rglob, keys[..|keys| - 1]), key, Found(key, subjectId, rglob))
  }

  /** Every expected output gets one entry, holding what `find_output` finds for it. */
  lemma {:induction false} SubjectOutputsRule(subjectId: Value, rglob: string -> seq<string>, keys: seq<string>)
    ensures Dicts.Valid(SubjectOutputs(subjectId, rglob, keys))
    ensures forall k :: k in Keys(SubjectOutputs(subjectId, rglob, keys)) <==> k in keys
    ensures forall k :: k in keys ==> Get(SubjectOutputs(subjectId, rglob, keys), k) == Some(Found(k, subjectId, rglob))
  {
    if keys != [] {
      var init, key := keys[..|keys| - 1], keys[|keys| - 1];
      assert keys == init + [key];
      SubjectOutputsRule(subjectId, rglob, init);
      var prev := SubjectOutputs(subjectId, rglob, init);
      KeysSet(prev, key, Found(key, subjectId, rglob));
      ValidSet(prev, key, Found(key, subjectId, rglob));
      forall k | k in keys
        ensures Get(SubjectOutputs(subjectId, rglob, keys), k) == Some(Found(k, subjectId, rglob))
      {
        GetSet(prev, key, Found(key, subjectId, rglob), k);
      }
    }
  }

  /** `output_dict` once the subjects are filled in, in order, each by its identifier with the expected outputs `keys`. */
  function OutputDict(subjectIds: seq<Value>, rglob: string -> seq<string>, keys: seq<string>): Dict<Value, Dict<string, seq<string>>>
  {
    if subjectIds == [] then []
    else
      var init, last := subjectIds[..|subjectIds| - 1], subjectIds[|subjectIds| - 1];
      Set(OutputDict(init, rglob, keys), last, SubjectOutputs(last, rglob, keys))
  }

  /** One entry per distinct subject, each holding that subject's outputs. */
  lemma {:induction false} OutputDictRule(subjectIds: seq<Value>, rglob: string -> seq<string>, keys: seq<string>)
    ensures Dicts.Valid(OutputDict(subjectIds, rglob, keys))
    ensures forall s :: s in Keys(OutputDict(subjectIds, rglob, keys)) <==> s in subjectIds
    ensures forall s :: s in subjectIds ==> Get(OutputDict(subjectIds, rglob, keys), s) == Some(SubjectOutputs(s, rglob, keys))
  {
    if subjectIds != [] {
      var init, last := subjectIds[..|subjectIds| - 1], subjectIds[|subjectIds| - 1];
      OutputDictRule(init, rglob, keys);
      var prev := OutputDict(init, rglob, keys);
      KeysSet(prev, last, SubjectOutputs(last, rglob, keys));
      ValidSet(prev, last, SubjectOutputs(last, rglob, keys));
      assert subjectIds == init + [last];
      forall s | s in subjectIds
        ensures Get(OutputDict(subjectIds, rglob, keys), s) == Some(SubjectOutputs(s, rglob, keys))
      {
        GetSet(prev, last, SubjectOutputs(last, rglob, keys), s);
      }
    }
  }

  /** A dictionary whose keys are the listed identifiers has one entry exactly when they are all the same. */
  lemma SingleKey<K, V>(d: Dict<K, V>, ids: seq<K>)
    requires Dicts.Valid(d) && forall s :: s in Keys(d) <==> s in ids
    ensures |d| == 1 <==> ids != [] && forall i :: 0 <= i < |ids| ==> ids[i] == ids[0]
  {
    if |d| == 1 {
      assert Keys(d)[0] in Keys(d);
      forall i | 0 <= i < |ids|
        ensures ids[i] == ids[0]
      {
        assert ids[i] in Keys(d) && ids[0] in Keys(d);
      }
    }
    if ids != [] && forall i :: 0 <= i < |ids| ==> ids[i] == ids[0] {
      assert ids[0] in Keys(d);
      forall j | 0 <= j < |d|
        ensures d[j].0 == ids[0]
      {
        assert Keys(d)[j] in Keys(d);
      }
    }
  }

  /**
   * The dictionary has one entry exactly when the subjects, listed at least
   * once, are all the same; that entry, found under the last subject, holds
   * the first subject's outputs.
   */
  lemma OneSubject(subjectIds: seq<Value>, rglob: string -> seq<string>, keys: seq<string>)
    ensures |OutputDict(subjectIds, rglob, keys)| == 1 <==> subjectIds != [] && forall i :: 0 <= i < |subjectIds| ==> subjectIds[i] == subjectIds[0]
    ensures |OutputDict(subjectIds, rglob, keys)| == 1 ==>
      Get(OutputDict(subjectIds, rglob, keys), subjectIds[|subjectIds| - 1]) == Some(SubjectOutputs(subjectIds[0], rglob, keys))
  {
    OutputDictRule(subjectIds, rglob, keys);
    SingleKey(OutputDict(subjectIds, rglob, keys), subjectIds);
  }

  /** The loop of `generate_output_dict`: each subject's outputs, filed under the subject, in order. */
  method CollectOutputDict(subjectIds: seq<Value>, rglob: string -> seq<string>, keys: seq<string>)
    returns (outputDict: Dict<Value, Dict<string, seq<string>>>)
    requires forall k :: k in keys ==> k in Keys(OUTPUTS)
    ensures outputDict == OutputDict(subjectIds, rglob, keys)
  {
    outputDict := [];
    for i := 0 to |subjectIds|
      invariant outputDict == OutputDict(subjectIds[..i], rglob, keys)
    {
      var outputs := CollectOutputs(subjectIds[i], rglob, keys);
      assert subjectIds[..i + 1][..i] == subjectIds[..i];
      outputDict := Set(outputDict, subjectIds[i], outputs);
    }
    assert subjectIds[..|subjectIds|] == subjectIds;
  }

  /** What `generate_output_dict` returns: one subject's outputs directly, or the outputs of each subject. */
  datatype OutputDictResult =
    | PerKey(outputs: Dict<string, seq<string>>)
    | PerSubject(bySubject: Dict<Value, Dict<string, seq<string>>>)

  /** The automatic options this driver fills in: the participant label when there is one, and the working directory. */
  function AutomaticFor(participantLabel: Option<string>, workDir: string): Dict<string, Value>
  {
    (if participantLabel.Some? then [("participant_label", Str(participantLabel.value))] else [])
    + [("work-dir", Str(workDir))]
  }

  class SmriPrep {
    var bidsDir: string
    var destination: string
    var participantLabel: Option<string>
    var queries: Dict<string, Query>
    var workDir: string
    var imagePath: string
    /** The options of the smriprep call, a Python dictionary. */
    var runKwargs: Dict<string, Value>

    predicate Valid()
      reads this
    {
      Dicts.Valid(runKwargs)
    }

    /**
     * `get(name)`: the attribute's value, `None` for one the object lacks.
     * Only the attributes that hold a string or `None` are looked up by name.
     */
    function Get(name: string): Value
      reads this
    {
      if name == "bids_dir" then Str(bidsDir)
      else if name == "destination" then Str(destination)
      else if name == "participant_label" then (if participantLabel.Some? then Str(participantLabel.value) else NoneV)
      else if name == "work_dir" then Str(workDir)
      else if name == "image_path" then Str(imagePath)
      else NoneV
    }

    /** The automatic options after the first `n` entries of `AUTOMATIC_KWARGS`. */
    function Automatic(n: nat): Dict<string, Value>
      requires n <= |AUTOMATIC_KWARGS|
      reads this
    {
      if n == 0 then []
      else
        var value := Get(AUTOMATIC_KWARGS[n - 1].1);
        if value != NoneV then Set(Automatic(n - 1), AUTOMATIC_KWARGS[n - 1].0, value) else Automatic(n - 1)
    }

    /**
     * `set_automatic_kwargs()`: each automatic option whose attribute is set;
     * "bids-filter-file" never, as the object has no `bids_filter_path`.
     */
    method SetAutomaticKwargs() returns (r: Dict<string, Value>)
      ensures r == AutomaticFor(participantLabel, workDir)
      ensures "bids-filter-file" !in Keys(r)
    {
      r := [];
      for i := 0 to |AUTOMATIC_KWARGS|
        invariant r == Automatic(i)
      {
        var value := Get(AUTOMATIC_KWARGS[i].1);
        if value != NoneV {
          r := Set(r, AUTOMATIC_KWARGS[i].0, value);
        }
      }
      assert AUTOMATIC_KWARGS[0] == ("participant_label", "participant_label");
      assert AUTOMATIC_KWARGS[1] == ("work-dir", "work_dir") && AUTOMATIC_KWARGS[2].1 == "bids_filter_path";
      assert Get("bids_filter_path") == NoneV && Get("work_dir") == Str(workDir);
      var first := Automatic(1);
      assert first == if participantLabel.Some? then [("participant_label", Str(participantLabel.value))] else [];
      SetAbsent(first, "work-dir", Str(workDir));
    }

    /** `arange_kwargs(user_kwargs)`: the automatic options, then the user's, which win on a shared key. */
    method ArangeKwargs(userKwargs: Option<Dict<string, Value>>) returns (r: Dict<string, Value>)
      ensures userKwargs.None? ==> r == AutomaticFor(participantLabel, workDir)
      ensures userKwargs.Some? ==> r == Update(AutomaticFor(participantLabel, workDir), userKwargs.value)
    {
      r := SetAutomaticKwargs();
      if userKwargs.Some? {
        var user := userKwargs.value;
        for i := 0 to |user|
          invariant Update(r, user[i..]) == Update(AutomaticFor(participantLabel, workDir), user)
        {
          assert user[i..][0] == user[i] && user[i..][1..] == user[i + 1..];
          r := Set(r, user[i].0, user[i].1);
        }
      }
    }

    /**
     * `SmriPrep(bids_dir, destination, queries, participant_label,
     * image_path, run_kwargs, work_dir)`; a caller leaving `run_kwargs` out
     * passes `Some(SmriUtils.DEFAULT_KWARGS)`.
     */
    constructor (bidsDir: string, destination: string, queries: Dict<string, Query>, participantLabel: Option<string>,
                 imagePath: Option<string>, runKwargs: Option<Dict<string, Value>>, workDir: Option<string>)
      ensures this.bidsDir == bidsDir && this.destination == destination && this.participantLabel == participantLabel
      ensures this.queries == ValidateQueries(queries)
      ensures this.workDir == DmriSession.WorkDir(destination, workDir)
      ensures this.imagePath == BuildImageLocation(imagePath)
      ensures this.runKwargs == Arranged(participantLabel, this.workDir, runKwargs)
      ensures Valid()
    {
      this.bidsDir := bidsDir;
      this.destination := destination;
      this.participantLabel := participantLabel;
      this.queries := ValidateQueries(queries);
      this.workDir := DmriSession.WorkDir(destination, workDir);
      this.imagePath := BuildImageLocation(imagePath);
      this.runKwargs := [];
      new;
      var arranged := ArangeKwargs(runKwargs);
      this.runKwargs := arranged;
      ArrangedValid(participantLabel, this.workDir, runKwargs);
    }

    /**
     * `locate_freesurfer_license()`: a licence file is looked up only when
     * no "fs-license-file" option is set, and recorded when one is found.
     */
    method LocateFreesurferLicense(fsHome: Option<string>, isFile: string -> bool) returns (r: Result<()>)
      requires Valid()
      modifies this`runKwargs
      ensures Valid()
      ensures r.Err? <==> "fs-license-file" !in Keys(old(runKwargs)) && fsHome.None?
      ensures "fs-license-file" in Keys(old(runKwargs)) ==> runKwargs == old(runKwargs)
      ensures "fs-license-file" !in Keys(old(runKwargs)) ==>
        runKwargs == match LocateFsLicenseFile(fsHome, isFile)
          case Ok(Some(license)) => old(runKwargs) + [("fs-license-file", Str(license))]
          case _ => old(runKwargs)
    {
      r := Ok(());
      if "fs-license-file" !in Keys(runKwargs) {
        var located := LocateFsLicenseFile(fsHome, isFile);
        if located.Err? {
          return Err(located.error);
        }
        if located.value.Some? {
          SetAbsent(runKwargs, "fs-license-file", Str(located.value.value));
          ValidSet(runKwargs, "fs-license-file", Str(located.value.value));
          runKwargs := Set(runKwargs, "fs-license-file", Str(located.value.value));
        }
      }
    }

    /** `write_bids_filter_file()`: the filter file's path in the working directory, recorded as "bids-filter-file". */
    method WriteBidsFilterFile() returns (path: string)
      requires Valid()
      modifies this`runKwargs
      ensures Valid()
      ensures path == JoinPath(workDir, BIDS_FILTER_FILE) && Name(path) == BIDS_FILTER_FILE
      ensures runKwargs == Set(old(runKwargs), "bids-filter-file", Str(path))
    {
      path := JoinPath(workDir, BIDS_FILTER_FILE);
      assert IsPart(BIDS_FILTER_FILE);
      NameOfJoin(workDir, BIDS_FILTER_FILE);
      ValidSet(runKwargs, "bids-filter-file", Str(path));
      runKwargs := Set(runKwargs, "bids-filter-file", Str(path));
    }

    /**
     * `add_mounts_to_command()`: the base mounts followed by one bind mount
     * per path-like option, and a copy of the options pointing at the mount
     * points; the options themselves are left as they are.
     */
    method AddMountsToCommand() returns (mountedCommand: string, updatedKwargs: Dict<string, Value>)
      requires Valid()
      ensures mountedCommand == MountTemplate(bidsDir, destination) + Mounts(runKwargs)
      ensures updatedKwargs == Remapped(runKwargs)
    {
      var items := runKwargs;
      var base := MountTemplate(bidsDir, destination);
      mountedCommand := base;
      updatedKwargs := items;
      for i := 0 to |items|
        invariant mountedCommand == base + Mounts(items[..i])
        invariant |updatedKwargs| == |items|
        invariant updatedKwargs[..i] == Remapped(items[..i]) && updatedKwargs[i..] == items[i..]
      {
        var kwarg, value := items[i].0, items[i].1;
        MountStep(base, items, i);
        RemapStep(items, updatedKwargs, i);
        if kwarg in PATH_LIKE_KWARGS {
          var targetValue := MountTarget(kwarg);
          mountedCommand := mountedCommand + Mount(kwarg, value);
          updatedKwargs := Set(updatedKwargs, kwarg, Str("/" + targetValue));
        }
      }
      assert items[..|items|] == items && updatedKwargs[..|items|] == updatedKwargs;
    }

    /** The command line `build_user_defined_command` returns for the current options. */
    function UserDefinedCommand(): string
      reads this
    {
      CommandTemplate(MountTemplate(bidsDir, destination) + Mounts(runKwargs), imagePath) + RenderKwargs(Remapped(runKwargs))
    }

    /** `build_user_defined_command()`: the mounted container call with the remapped options appended. */
    method BuildUserDefinedCommand() returns (command: string)
      requires Valid()
      ensures command == UserDefinedCommand()
      ensures StartsWith(command, MountTemplate(bidsDir, destination))
    {
      var mountedCommand, updatedKwargs := AddMountsToCommand();
      var smriprepCommand := CommandTemplate(mountedCommand, imagePath);
      var keyCommand := AddKwargsToCommand(updatedKwargs);
      command := smriprepCommand + keyCommand;
    }

    /** `build_command()`: the filter file is recorded first, so the command binds it and passes its mount point. */
    method BuildCommand() returns (command: string, bidsFilterPath: string)
      requires Valid()
      modifies this`runKwargs
      ensures Valid()
      ensures bidsFilterPath == JoinPath(workDir, BIDS_FILTER_FILE)
      ensures runKwargs == Set(old(runKwargs), "bids-filter-file", Str(bidsFilterPath))
      ensures command == UserDefinedCommand()
      ensures Contains(command, " -B " + bidsFilterPath + ":/bids_filter_file")
      ensures Contains(command, " --bids-filter-file /bids_filter_file")
    {
      bidsFilterPath := WriteBidsFilterFile();
      GetSet(old(runKwargs), "bids-filter-file", Str(bidsFilterPath), "bids-filter-file");
      command := BuildUserDefinedCommand();
      CommandBindsFilter(runKwargs, bidsFilterPath, bidsDir, destination, imagePath);
    }

    /**
     * `generate_output_dict()`: the outputs of each subject named by the
     * "participant_label" option; when that comes to a single subject, that
     * subject's outputs by key.
     */
    method GenerateOutputDict(rglob: string -> seq<string>) returns (r: OutputDictResult)
      ensures var ids := SubjectIds(Dicts.Get(runKwargs, "participant_label"));
        r == if ids != [] && forall i :: 0 <= i < |ids| ==> ids[i] == ids[0]
          then PerKey(SubjectOutputs(ids[0], rglob, Keys(OUTPUTS)))
          else PerSubject(OutputDict(ids, rglob, Keys(OUTPUTS)))
    {
      var subjectIds := SubjectIds(Dicts.Get(runKwargs, "participant_label"));
      var keys := Keys(OUTPUTS);
      var outputDict := CollectOutputDict(subjectIds, rglob, keys);
      OneSubject(subjectIds, rglob, keys);
      if |outputDict| == 1 {
        r := PerKey(Dicts.Get(outputDict, subjectIds[|subjectIds| - 1]).value);
      } else {
        r := PerSubject(outputDict);
      }
    }
  }

  /** One step of the mounting loop: the next option's bind mount, if any, follows the earlier ones. */
  lemma MountStep(base: string, items: Dict<string, Value>, i: nat)
    requires i < |items|
    ensures base + Mounts(items[..i + 1]) ==
      base + Mounts(items[..i]) + (if items[i].0 in PATH_LIKE_KWARGS then Mount(items[i].0, items[i].1) else "")
  {
    assert items[..i + 1][..i] == items[..i] && items[..i + 1][i] == items[i];
  }

  /** One step of the remapping loop: assigning the next path-like option extends the remapped prefix by one. */
  lemma RemapStep(items: Dict<string, Value>, updated: Dict<string, Value>, i: nat)
    requires Dicts.Valid(items) && i < |items| && |updated| == |items|
    requires updated[..i] == Remapped(items[..i]) && updated[i..] == items[i..]
    ensures var next := if items[i].0 in PATH_LIKE_KWARGS then Set(updated, items[i].0, Str("/" + MountTarget(items[i].0))) else updated;
      |next| == |items| && next[..i + 1] == Remapped(items[..i + 1]) && next[i + 1..] == items[i + 1..]
  {
    var kwarg := items[i].0;
    assert updated[i] == updated[i..][0] == items[i];
    forall j | 0 <= j < i
      ensures updated[j].0 != kwarg
    {
      assert updated[j] == updated[..i][j] == RemapOne(items[j]);
    }
    SetAt(updated, i, kwarg, Str("/" + MountTarget(kwarg)));
    assert items[..i + 1][..i] == items[..i];
  }

  /** The options `arange_kwargs` settles on. */
  function Arranged(participantLabel: Option<string>, workDir: string, userKwargs: Option<Dict<string, Value>>): Dict<string, Value>
  {
    if userKwargs.None? then AutomaticFor(participantLabel, workDir)
    else Update(AutomaticFor(participantLabel, workDir), userKwargs.value)
  }

  /** The settled options form a dictionary in which the user's value wins for every key the user sets. */
  lemma ArrangedValid(participantLabel: Option<string>, workDir: string, userKwargs: Option<Dict<string, Value>>)
    ensures Dicts.Valid(Arranged(participantLabel, workDir, userKwargs))
    ensures forall k :: k in Keys(Arranged(participantLabel, workDir, userKwargs)) <==>
      k in Keys(AutomaticFor(participantLabel, workDir)) || (userKwargs.Some? && k in Keys(userKwargs.value))
  {
    var automatic := AutomaticFor(participantLabel, workDir);
    assert Dicts.Valid(automatic);
    if userKwargs.Some? {
      ValidUpdate(automatic, userKwargs.value);
      forall k
        ensures k in Keys(Update(automatic, userKwargs.value)) <==> k in Keys(automatic) || k in Keys(userKwargs.value)
      {
        InKeysUpdate(automatic, userKwargs.value, k);
      }
    }
  }

  /** A key the user sets takes the user's value; any other keeps the automatic one. */
  lemma UserKwargsWin(participantLabel: Option<string>, workDir: string, userKwargs: Dict<string, Value>, k: string)
    requires Dicts.Valid(userKwargs)
    ensures Dicts.Get(Arranged(participantLabel, workDir, Some(userKwargs)), k) ==
      if k in Keys(userKwargs) then Dicts.Get(userKwargs, k) else Dicts.Get(AutomaticFor(participantLabel, workDir), k)
  {
    GetUpdate(AutomaticFor(participantLabel, workDir), userKwargs, k);
  }

  /** `add_kwargs_to_command(kwargs)`, one option after the other. */
  method AddKwargsToCommand(kwargs: Dict<string, Value>) returns (keyCommand: string)
    ensures keyCommand == RenderKwargs(kwargs)
  {
    keyCommand := "";
    for i := 0 to |kwargs|
      invariant keyCommand == RenderKwargs(kwargs[..i])
    {
      var keyAddition := AddKwarg(kwargs[i].0, kwargs[i].1);
      assert kwargs[..i + 1][..i] == kwargs[..i];
      keyCommand := keyCommand + keyAddition;
    }
    assert kwargs[..|kwargs|] == kwargs;
  }

  /** The loop body of `add_kwargs_to_command` for one option: a list's elements one by one, a set flag bare, anything else with its value. */
  method AddKwarg(key: string, value: Value) returns (keyAddition: string)
    ensures keyAddition == RenderKwarg(key, value)
  {
    keyAddition := " --" + key;
    if value.List? {
      for j := 0 to |value.xs|
        invariant keyAddition == " --" + key + SpacedValues(value.xs[..j])
      {
        assert value.xs[..j + 1][..j] == value.xs[..j];
        keyAddition := keyAddition + " " + value.xs[j];
      }
      assert value.xs[..|value.xs|] == value.xs;
    } else if key in FLAGS && Truthy(value) {
    } else {
      keyAddition := keyAddition + " " + ToStr(value);
    }
  }

  /** The filter file's option is path-like, bound inside the container at `/bids_filter_file`. */
  lemma FilterFileMount(path: string)
    ensures "bids-filter-file" in PATH_LIKE_KWARGS
    ensures Mount("bids-filter-file", Str(path)) == " -B " + path + ":/bids_filter_file"
  {
    assert MountTarget("bids-filter-file") == "bids_filter_file";
  }

  /** The filter file's option then points at its mount point. */
  lemma FilterFileRemap(path: string)
    ensures RemapOne(("bids-filter-file", Str(path))) == ("bids-filter-file", Str("/bids_filter_file"))
  {
    assert "bids-filter-file" in PATH_LIKE_KWARGS;
    assert MountTarget("bids-filter-file") == "bids_filter_file";
    assert "/" + "bids_filter_file" == "/bids_filter_file";
  }

  /** An option that is no flag and holds a string is passed as "--key value". */
  lemma RenderPlain(key: string, value: string)
    requires key !in FLAGS
    ensures RenderKwarg(key, Str(value)) == " --" + key + " " + value
  {
  }

  /** The filter file's option is not among the flags. */
  lemma FilterFileNotFlag()
    ensures "bids-filter-file" !in FLAGS
  {
    forall k | 0 <= k < |FLAGS|
      ensures FLAGS[k] != "bids-filter-file"
    {
      assert FLAGS[k][0] != 'b' || |FLAGS[k]| != 16;
    }
  }

  /** The filter file's option is no flag, so it is passed with its value. */
  lemma FilterFileOption()
    ensures RenderKwarg("bids-filter-file", Str("/bids_filter_file")) == " --bids-filter-file /bids_filter_file"
  {
    FilterFileNotFlag();
    RenderPlain("bids-filter-file", "/bids_filter_file");
    assert " --" + "bids-filter-file" == " --bids-filter-file";
    assert " --bids-filter-file" + " " == " --bids-filter-file ";
    assert " --bids-filter-file " + "/bids_filter_file" == " --bids-filter-file /bids_filter_file";
  }

  /** Text found in two pieces of a command is found in the whole command. */
  lemma ContainsPieces(a: string, b: string, c: string, d: string, x: string, y: string)
    requires Contains(b, x) && Contains(d, y)
    ensures Contains(a + b + c + d, x) && Contains(a + b + c + d, y)
  {
    ContainsSuffix(b, x, a);
    ContainsPrefix(a + b, x, c + d);
    assert a + b + c + d == (a + b) + (c + d);
    ContainsSuffix(d, y, a + b + c);
  }

  /** A filter file among the options is bound among the mounts and passed, at its mount point, among the options. */
  lemma FilterInPieces(kwargs: Dict<string, Value>, path: string)
    requires ("bids-filter-file", Str(path)) in kwargs
    ensures Contains(Mounts(kwargs), " -B " + path + ":/bids_filter_file")
    ensures Contains(RenderKwargs(Remapped(kwargs)), " --bids-filter-file /bids_filter_file")
  {
    var i :| 0 <= i < |kwargs| && kwargs[i] == ("bids-filter-file", Str(path));
    FilterFileMount(path);
    FilterFileRemap(path);
    FilterFileOption();
    MountsMatchRemapped(kwargs, i);
    RenderKwargsHas(Remapped(kwargs), i);
  }

  /** Once "bids-filter-file" is set, the command binds that file and passes its mount point. */
  lemma CommandBindsFilter(kwargs: Dict<string, Value>, path: string, bidsDir: string, destination: string, imagePath: string)
    requires ("bids-filter-file", Str(path)) in kwargs
    ensures var command := CommandTemplate(MountTemplate(bidsDir, destination) + Mounts(kwargs), imagePath) + RenderKwargs(Remapped(kwargs));
      Contains(command, " -B " + path + ":/bids_filter_file") && Contains(command, " --bids-filter-file /bids_filter_file")
  {
    FilterInPieces(kwargs, path);
    var base, rest := MountTemplate(bidsDir, destination), " " + imagePath + " /bids_dir /destination participant";
    assert CommandTemplate(base + Mounts(kwargs), imagePath) == base + Mounts(kwargs) + rest;
    ContainsPieces(base, Mounts(kwargs), rest, RenderKwargs(Remapped(kwargs)),
      " -B " + path + ":/bids_filter_file", " --bids-filter-file /bids_filter_file");
  }

  /** `SmriPrep(...)` as a whole: construction, then the licence lookup, whose error stops it. */
  method Create(bidsDir: string, destination: string, queries: Dict<string, Query>, participantLabel: Option<string>,
                imagePath: Option<string>, runKwargs: Option<Dict<string, Value>>, workDir: Option<string>,
                fsHome: Option<string>, isFile: string -> bool)
    returns (r: Result<SmriPrep>)
    ensures var arranged := Arranged(participantLabel, DmriSession.WorkDir(destination, workDir), runKwargs);
      r.Err? <==> "fs-license-file" !in Keys(arranged) && fsHome.None?
    ensures r.Ok? ==> fresh(r.value) && r.value.Valid() && r.value.queries == ValidateQueries(queries)
    ensures r.Ok? ==> r.value.workDir == DmriSession.WorkDir(destination, workDir) && r.value.imagePath == BuildImageLocation(imagePath)
    ensures r.Ok? ==> var arranged := Arranged(participantLabel, DmriSession.WorkDir(destination, workDir), runKwargs);
      "fs-license-file" in Keys(arranged) ==> r.value.runKwargs == arranged
  {
    var smriprep := new SmriPrep(bidsDir, destination, queries, participantLabel, imagePath, runKwargs, workDir);
    var located := smriprep.LocateFreesurferLicense(fsHome, isFile);
    if located.Err? {
      return Err(located.error);
    }
    r := Ok(smriprep);
  }

  /** The per-subject loop body of `generate_output_dict`: every expected output, in order. */
  method CollectOutputs(subjectId: Value, rglob: string -> seq<string>, keys: seq<string>) returns (outputs: Dict<string, seq<string>>)
    requires forall k :: k in keys ==> k in Keys(OUTPUTS)
    ensures outputs == SubjectOutputs(subjectId, rglob, keys)
  {
    outputs := [];
    for j := 0 to |keys|
      invariant outputs == SubjectOutputs(subjectId, rglob, keys[..j])
    {
      var key := keys[j];
      var found := FindOutput(key, ToStr(subjectId), "*", rglob);
      assert keys[..j + 1][..j] == keys[..j];
      outputs := Set(outputs, key, found.value);
    }
    assert keys[..|keys|] == keys;
  }
}
