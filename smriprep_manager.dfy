/**
 * The first smriprep driver, dwiprep/workflows/smri/smriprep_manager.py:
 * it spells every option with its leading dashes, mounts the path-like
 * ones into the container under their undashed names, writes the BIDS
 * filter file next to the working directory (or in the current one), and
 * renders the options after the container call.
 */
module SmriprepManager {
  import opened Py
  import opened Text
  import opened Paths
  import opened Dicts
  import opened BidsLayout
  import SmriUtils
  import SmriUtilsLegacy
  import SmriPrep

  const BIDS_FILTER_FILE := "bids_filter.json"

  /** Option name -> the manager attribute that supplies it. */
  const AUTOMATIC_KWARGS: Dict<string, string> := [
    ("--participant_label", "participant_label"), ("--work-dir", "work_dir"), ("--bids-filter-file", "bids_filter_path")
  ]

  /** `COMMAND_MOUNT_TEMPLATE.format(bids_dir=..., out_dir=...)`. */
  function MountTemplate(bidsDir: string, outDir: string): string
  {
    "singularity run --cleanenv -B " + bidsDir + ":/bids_dir -B " + outDir + ":/out_dir"
  }

  /** `COMMMAND_TEMPLATE.format(mounted_command=..., image_path=...)`. */
  function CommandTemplate(mountedCommand: string, imagePath: string): string
  {
    mountedCommand + " " + imagePath + " /bids_dir /out_dir participant"
  }

  /** `kwarg.strip("-")`: the option's name without its dashes. */
  function Undashed(kwarg: string): string
  {
    Strip(kwarg, {'-'})
  }

  /** The options under their undashed names, values and order kept. */
  function UndashedKeys(kwargs: Dict<string, Value>): (r: Dict<string, Value>)
    ensures |r| == |kwargs| && forall i :: 0 <= i < |r| ==> r[i] == (Undashed(kwargs[i].0), kwargs[i].1)
  {
    seq(|kwargs|, i requires 0 <= i < |kwargs| => (Undashed(kwargs[i].0), kwargs[i].1))
  }

  /** An option is path-like when its undashed name is one of the path-like options. */
  predicate PathLike(kwarg: string)
  {
    Undashed(kwarg) in SmriUtilsLegacy.PATH_LIKE_KWARGS
  }

  /** Options rendered one after the other, each by `render`. */
  function RenderAll(kwargs: Dict<string, Value>, render: (string, Value) -> string): string
  {
    if kwargs == [] then ""
    else RenderAll(kwargs[..|kwargs| - 1], render) + render(kwargs[|kwargs| - 1].0, kwargs[|kwargs| - 1].1)
  }

  /** Every option appears in the rendering with its own text. */
  lemma {:induction false} RenderAllHas(kwargs: Dict<string, Value>, render: (string, Value) -> string, i: nat)
    requires i < |kwargs|
    ensures Contains(RenderAll(kwargs, render), render(kwargs[i].0, kwargs[i].1))
    decreases |kwargs|
  {
    var init, last := kwargs[..|kwargs| - 1], kwargs[|kwargs| - 1];
    var x, y := RenderAll(init, render), render(last.0, last.1);
    assert RenderAll(kwargs, render) == x + y;
    if i == |kwargs| - 1 {
      assert OccursAt(y, y, 0);
      ContainsSuffix(y, y, x);
    } else {
      RenderAllHas(init, render, i);
      assert init[i] == kwargs[i];
      ContainsPrefix(x, render(kwargs[i].0, kwargs[i].1), y);
    }
  }

  /** The bind mount `add_mounts_to_command` appends for one option: only a path-like one has one. */
  function MountFor(kwarg: string, value: Value): string
  {
    if PathLike(kwarg) then SmriPrep.Mount(Undashed(kwarg), value) else ""
  }

  /** The bind mounts `add_mounts_to_command` appends for the path-like options among `kwargs`, in order. */
  function Mounts(kwargs: Dict<string, Value>): string
  {
    RenderAll(kwargs, MountFor)
  }

  /** The manager binds exactly what the newer driver binds for the same options spelled without dashes. */
  lemma {:induction false} MountsUndashed(kwargs: Dict<string, Value>)
    ensures Mounts(kwargs) == SmriPrep.Mounts(UndashedKeys(kwargs))
    decreases |kwargs|
  {
    if kwargs != [] {
      var init := kwargs[..|kwargs| - 1];
      MountsUndashed(init);
      var u := UndashedKeys(kwargs);
      assert u[..|u| - 1] == UndashedKeys(init);
    }
  }

  /** One option as `add_mounts_to_command` leaves it in its copy: a path-like one points at its mount point. */
  function RemapOne(kwarg: (string, Value)): (string, Value)
  {
    (kwarg.0, if PathLike(kwarg.0) then Str("/" + SmriPrep.MountTarget(Undashed(kwarg.0))) else kwarg.1)
  }

  /** The options with every path-like value replaced by its mount point, keys and order kept. */
  function Remapped(kwargs: Dict<string, Value>): (r: Dict<string, Value>)
    ensures |r| == |kwargs| && forall i :: 0 <= i < |r| ==> r[i] == RemapOne(kwargs[i])
    ensures forall i :: 0 <= i < |r| ==> r[i].0 == kwargs[i].0
  {
    seq(|kwargs|, i requires 0 <= i < |kwargs| => RemapOne(kwargs[i]))
  }

  /**
   * The copy keeps the dashed names and takes the values the newer driver
   * gives the undashed ones; a path-like value names where its mount is.
   */
  lemma RemappedUndashed(kwargs: Dict<string, Value>, i: nat)
    requires i < |kwargs|
    ensures Remapped(kwargs)[i].0 == kwargs[i].0
    ensures Remapped(kwargs)[i].1 == SmriPrep.Remapped(UndashedKeys(kwargs))[i].1
    ensures PathLike(kwargs[i].0) ==> Contains(Mounts(kwargs), SmriPrep.Mount(Undashed(kwargs[i].0), kwargs[i].1))
  {
    MountsUndashed(kwargs);
    SmriPrep.MountsMatchRemapped(UndashedKeys(kwargs), i);
  }

  /** The text `add_kwargs_to_command` adds for one option, as written: a list without its option name, any boolean as a set flag. */
  function RenderKwarg(key: string, value: Value): string
  {
    if value.Bool? then " " + key
    else if value.List? then SmriPrep.SpacedValues(value.xs)
    else " " + key + " " + ToStr(value)
  }

  /** `add_kwargs_to_command` as written, one option after the other. */
  method AddKwargsToCommand(smriprepCommand: string, updatedKwargs: Dict<string, Value>) returns (command: string)
    ensures command == smriprepCommand + RenderAll(updatedKwargs, RenderKwarg)
  {
    command := smriprepCommand;
    for i := 0 to |updatedKwargs|
      invariant command == smriprepCommand + RenderAll(updatedKwargs[..i], RenderKwarg)
    {
      var addition := AddKwarg(updatedKwargs[i].0, updatedKwargs[i].1);
      assert updatedKwargs[..i + 1][..i] == updatedKwargs[..i];
      command := command + addition;
    }
    assert updatedKwargs[..|updatedKwargs|] == updatedKwargs;
  }

  /** The loop body of `add_kwargs_to_command` as written, for one option. */
  method AddKwarg(kwarg: string, value: Value) returns (addition: string)
    ensures addition == RenderKwarg(kwarg, value)
  {
    if value.Bool? {
      addition := " " + kwarg;
    } else if value.List? {
      addition := "";
      for j := 0 to |value.xs|
        invariant addition == SmriPrep.SpacedValues(value.xs[..j])
      {
        assert value.xs[..j + 1][..j] == value.xs[..j];
        addition := addition + " " + value.xs[j];
      }
      assert value.xs[..|value.xs|] == value.xs;
    } else {
      addition := " " + kwarg + " " + ToStr(value);
    }
  }

  /** As written, a list value renders the same under every option name: the name is lost. */
  lemma ListOptionUnnamed(key: string, other: string, xs: seq<string>)
    ensures RenderKwarg(key, List(xs)) == RenderKwarg(other, List(xs)) == SmriPrep.SpacedValues(xs)
  {
  }

  /** As written, a false boolean renders exactly as a true one: the flag is switched on. */
  lemma FalseFlagPassed(key: string)
    ensures RenderKwarg(key, Bool(false)) == RenderKwarg(key, Bool(true)) == " " + key
  {
  }

  /** As written, the default options render the output spaces without "--output-spaces". */
  lemma DefaultKwargsUnnamed()
    ensures RenderAll(SmriUtilsLegacy.DEFAULT_KWARGS, RenderKwarg) == " MNI152NLin2009cAsym" + " anat"
    ensures !StartsWith(RenderAll(SmriUtilsLegacy.DEFAULT_KWARGS, RenderKwarg), " --output-spaces")
  {
    var d := SmriUtilsLegacy.DEFAULT_KWARGS;
    var xs := ["MNI152NLin2009cAsym", "anat"];
    assert d[..0] == [] && d[0] == ("--output-spaces", List(xs));
    assert xs[..1][..0] == [] && xs[..2][..1] == xs[..1] && xs[..2] == xs;
    assert SmriPrep.SpacedValues(xs) == " MNI152NLin2009cAsym" + " anat";
    var r := RenderAll(d, RenderKwarg);
    assert r[1] == 'M';
  }

  /**
   * The rendering the options evidently call for: every option under its
   * name, a list followed by its elements, a true boolean as a bare flag,
   * and a false one left out.
   */
  function RenderOption(key: string, value: Value): string
  {
    if value.Bool? then (if value.b then " " + key else "")
    else if value.List? then " " + key + SmriPrep.SpacedValues(value.xs)
    else " " + key + " " + ToStr(value)
  }

  /**
   * Every option but a false flag is passed under its own name, and a list
   * option's elements follow its name; a false flag is not passed at all.
   */
  lemma OptionNamed(kwargs: Dict<string, Value>, i: nat)
    requires i < |kwargs|
    ensures kwargs[i].1 != Bool(false) ==> Contains(RenderAll(kwargs, RenderOption), " " + kwargs[i].0)
    ensures kwargs[i].1.List? ==>
      Contains(RenderAll(kwargs, RenderOption), " " + kwargs[i].0 + SmriPrep.SpacedValues(kwargs[i].1.xs))
    ensures kwargs[i].1 == Bool(false) ==> RenderOption(kwargs[i].0, kwargs[i].1) == ""
  {
    var key, value := kwargs[i].0, kwargs[i].1;
    RenderAllHas(kwargs, RenderOption, i);
    var text := RenderOption(key, value);
    if value != Bool(false) {
      var rest := if value.Bool? then "" else if value.List? then SmriPrep.SpacedValues(value.xs) else " " + ToStr(value);
      assert text == " " + key + rest;
      assert OccursAt(text, " " + key, 0);
      ContainsInside(RenderAll(kwargs, RenderOption), text, " " + key);
    }
  }

  /** Text inside text found in a string is found in that string. */
  lemma ContainsInside(s: string, t: string, u: string)
    requires Contains(s, t) && Contains(t, u)
    ensures Contains(s, u)
  {
    var i :| 0 <= i <= |s| - |t| && OccursAt(s, t, i);
    var j :| 0 <= j <= |t| - |u| && OccursAt(t, u, j);
    forall k | 0 <= k < |u|
      ensures s[i + j..i + j + |u|][k] == u[k]
    {
      assert u[k] == t[j..j + |u|][k] == t[j + k] == s[i..i + |t|][j + k];
    }
    assert OccursAt(s, u, i + j);
  }

  /** Remapping only puts mount points in place of values, so it brings in no list and no false flag. */
  lemma RemappedKeepsKinds(kwargs: Dict<string, Value>)
    ensures NoListOrFalseFlag(kwargs) ==> NoListOrFalseFlag(Remapped(kwargs))
  {
  }

  /** No option is a list or a false flag: the options on which the two renderings could differ. */
  predicate NoListOrFalseFlag(kwargs: Dict<string, Value>)
  {
    forall i :: 0 <= i < |kwargs| ==> !kwargs[i].1.List? && kwargs[i].1 != Bool(false)
  }

  /** Without lists and false flags, the rendering as written and the corrected one agree. */
  lemma {:induction false} RenderingsAgree(kwargs: Dict<string, Value>)
    requires NoListOrFalseFlag(kwargs)
    ensures RenderAll(kwargs, RenderKwarg) == RenderAll(kwargs, RenderOption)
    decreases |kwargs|
  {
    if kwargs != [] {
      var init := kwargs[..|kwargs| - 1];
      assert NoListOrFalseFlag(init) by {
        forall i | 0 <= i < |init|
          ensures !init[i].1.List? && init[i].1 != Bool(false)
        {
          assert init[i] == kwargs[i];
        }
      }
      RenderingsAgree(init);
    }
  }

  /** `add_kwargs_to_command` rendering each option under its name, as it evidently should. */
  method AddOptionsToCommand(smriprepCommand: string, updatedKwargs: Dict<string, Value>) returns (command: string)
    ensures command == smriprepCommand + RenderAll(updatedKwargs, RenderOption)
  {
    command := smriprepCommand;
    for i := 0 to |updatedKwargs|
      invariant command == smriprepCommand + RenderAll(updatedKwargs[..i], RenderOption)
    {
      var addition := AddOption(updatedKwargs[i].0, updatedKwargs[i].1);
      assert updatedKwargs[..i + 1][..i] == updatedKwargs[..i];
      command := command + addition;
    }
    assert updatedKwargs[..|updatedKwargs|] == updatedKwargs;
  }

  /** The corrected loop body for one option. */
  method AddOption(kwarg: string, value: Value) returns (addition: string)
    ensures addition == RenderOption(kwarg, value)
  {
    if value.Bool? {
      addition := if value.b then " " + kwarg else "";
    } else if value.List? {
      addition := " " + kwarg;
      for j := 0 to |value.xs|
        invariant addition == " " + kwarg + SmriPrep.SpacedValues(value.xs[..j])
      {
        assert value.xs[..j + 1][..j] == value.xs[..j];
        addition := addition + " " + value.xs[j];
      }
      assert value.xs[..|value.xs|] == value.xs;
    } else {
      addition := " " + kwarg + " " + ToStr(value);
    }
  }

  /** The automatic options the manager fills in: the participant label and the working directory, each when it is set. */
  function AutomaticFor(participantLabel: Option<string>, workDir: Option<string>): Dict<string, Value>
  {
    (if participantLabel.Some? then [("--participant_label", Str(participantLabel.value))] else [])
    + (if workDir.Some? then [("--work-dir", Str(workDir.value))] else [])
  }

  /** The options `arange_kwargs` settles on. */
  function Arranged(participantLabel: Option<string>, workDir: Option<string>, userKwargs: Option<Dict<string, Value>>): Dict<string, Value>
  {
    if userKwargs.None? then AutomaticFor(participantLabel, workDir)
    else Update(AutomaticFor(participantLabel, workDir), userKwargs.value)
  }

  /** The settled options form a dictionary holding the automatic keys and the user's. */
  lemma ArrangedValid(participantLabel: Option<string>, workDir: Option<string>, userKwargs: Option<Dict<string, Value>>)
    ensures Dicts.Valid(Arranged(participantLabel, workDir, userKwargs))
    ensures forall k :: k in Keys(Arranged(participantLabel, workDir, userKwargs)) <==>
      k in Keys(AutomaticFor(participantLabel, workDir)) || (userKwargs.Some? && k in Keys(userKwargs.value))
  {
    var automatic := AutomaticFor(participantLabel, workDir);
    assert Dicts.Valid(automatic);
    if userKwargs.Some? {
      ValidUpdate(automatic, userKwargs.value);
      forall k
        ensures k in Keys(Update(automatic, userKwargs.value)) <==> k in Keys(automatic) || k in Keys(userKwargs.value)
      {
        InKeysUpdate(automatic, userKwargs.value, k);
      }
    }
  }

  /** A key the user sets takes the user's value; any other keeps the automatic one, and "--work-dir" is there only with a working directory. */
  lemma UserKwargsWin(participantLabel: Option<string>, workDir: Option<string>, userKwargs: Dict<string, Value>, k: string)
    requires Dicts.Valid(userKwargs)
    ensures Dicts.Get(Arranged(participantLabel, workDir, Some(userKwargs)), k) ==
      if k in Keys(userKwargs) then Dicts.Get(userKwargs, k) else Dicts.Get(AutomaticFor(participantLabel, workDir), k)
    ensures "--work-dir" in Keys(AutomaticFor(participantLabel, workDir)) <==> workDir.Some?
  {
    GetUpdate(AutomaticFor(participantLabel, workDir), userKwargs, k);
    assert "--participant_label" != "--work-dir";
  }

  /** The options once the licence rule has run: a set licence option is kept, otherwise a licence found is added. */
  function Licensed(kwargs: Dict<string, Value>, fsHome: Option<string>, isFile: string -> bool): Dict<string, Value>
  {
    if "--fs-license-file" in Keys(kwargs) then kwargs
    else match SmriUtils.LocateFsLicenseFile(fsHome, isFile)
      case Ok(Some(license)) => kwargs + [("--fs-license-file", Str(license))]
      case _ => kwargs
  }

  /** The licence rule never overwrites a licence option, and adds only a file that exists as `license.txt`. */
  lemma LicensedRule(kwargs: Dict<string, Value>, fsHome: Option<string>, isFile: string -> bool)
    ensures "--fs-license-file" in Keys(kwargs) ==> Licensed(kwargs, fsHome, isFile) == kwargs
    ensures forall k :: k != "--fs-license-file" ==> Get(Licensed(kwargs, fsHome, isFile), k) == Get(kwargs, k)
    ensures forall l :: Get(Licensed(kwargs, fsHome, isFile), "--fs-license-file") == Some(Str(l)) ==>
      Get(kwargs, "--fs-license-file") == Some(Str(l)) || (isFile(l) && Name(l) == "license.txt")
  {
    var r := Licensed(kwargs, fsHome, isFile);
    forall k
      ensures Get(r, k) == if k == "--fs-license-file" && r != kwargs then Some(r[|r| - 1].1) else Get(kwargs, k)
    {
      if r != kwargs {
        GetSnoc(kwargs, r[|r| - 1], k);
      }
    }
  }

  /** The licence rule drops no option. */
  lemma LicensedKeeps(kwargs: Dict<string, Value>, fsHome: Option<string>, isFile: string -> bool, p: (string, Value))
    requires p in kwargs
    ensures p in Licensed(kwargs, fsHome, isFile)
  {
  }

  /** Recording the filter file adds its option and leaves the licence option as it was. */
  lemma FilterRecorded(kwargs: Dict<string, Value>, path: string)
    ensures ("--bids-filter-file", Str(path)) in Set(kwargs, "--bids-filter-file", Str(path))
    ensures "--fs-license-file" in Keys(Set(kwargs, "--bids-filter-file", Str(path))) <==> "--fs-license-file" in Keys(kwargs)
  {
    GetSet(kwargs, "--bids-filter-file", Str(path), "--bids-filter-file");
    KeysSet(kwargs, "--bids-filter-file", Str(path));
  }

  class SmriprepManager {
    var bidsDir: string
    var outDir: string
    var participantLabel: Option<string>
    var queries: Dict<string, Query>
    var workDir: Option<string>
    var imagePath: string
    /** The options of the smriprep call, a Python dictionary. */
    var runKwargs: Dict<string, Value>

    predicate Valid()
      reads this
    {
      Dicts.Valid(runKwargs)
    }

    /**
     * `get(name)`: the attribute's value, `None` for one the object lacks.
     * Only the attributes that hold a string or `None` are looked up by name.
     */
    function Get(name: string): Value
      reads this
    {
      if name == "bids_dir" then Str(bidsDir)
      else if name == "out_dir" then Str(outDir)
      else if name == "participant_label" then (if participantLabel.Some? then Str(participantLabel.value) else NoneV)
      else if name == "work_dir" then (if workDir.Some? then Str(workDir.value) else NoneV)
      else if name == "image_path" then Str(imagePath)
      else NoneV
    }

    /** The automatic options after the first `n` entries of `AUTOMATIC_KWARGS`. */
    function Automatic(n: nat): Dict<string, Value>
      requires n <= |AUTOMATIC_KWARGS|
      reads this
    {
      if n == 0 then []
      else
        var value := Get(AUTOMATIC_KWARGS[n - 1].1);
        if value != NoneV then Set(Automatic(n - 1), AUTOMATIC_KWARGS[n - 1].0, value) else Automatic(n - 1)
    }

    /**
     * `set_automatic_kwargs()`, read through the `automatic_kwargs`
     * property: each automatic option whose attribute is set;
     * "--bids-filter-file" never, as the object has no `bids_filter_path`.
     */
    method SetAutomaticKwargs() returns (r: Dict<string, Value>)
      ensures r == AutomaticFor(participantLabel, workDir)
      ensures "--bids-filter-file" !in Keys(r)
    {
      r := [];
      for i := 0 to |AUTOMATIC_KWARGS|
        invariant r == Automatic(i)
      {
        var value := Get(AUTOMATIC_KWARGS[i].1);
        if value != NoneV {
          r := Set(r, AUTOMATIC_KWARGS[i].0, value);
        }
      }
      assert AUTOMATIC_KWARGS[0] == ("--participant_label", "participant_label");
      assert AUTOMATIC_KWARGS[1] == ("--work-dir", "work_dir") && AUTOMATIC_KWARGS[2].1 == "bids_filter_path";
      assert Get("bids_filter_path") == NoneV;
      var first := Automatic(1);
      assert first == if participantLabel.Some? then [("--participant_label", Str(participantLabel.value))] else [];
      if workDir.Some? {
        assert Get("work_dir") == Str(workDir.value);
        SetAbsent(first, "--work-dir", Str(workDir.value));
      }
    }

    /** `arange_kwargs(user_kwargs)`: the automatic options, then the user's, which win on a shared key. */
    method ArangeKwargs(userKwargs: Option<Dict<string, Value>>) returns (r: Dict<string, Value>)
      ensures r == Arranged(participantLabel, workDir, userKwargs)
    {
      r := SetAutomaticKwargs();
      if userKwargs.Some? {
        var user := userKwargs.value;
        for i := 0 to |user|
          invariant Update(r, user[i..]) == Update(AutomaticFor(participantLabel, workDir), user)
        {
          assert user[i..][0] == user[i] && user[i..][1..] == user[i + 1..];
          r := Set(r, user[i].0, user[i].1);
        }
      }
    }

    /**
     * `SmriprepManager(bids_dir, out_dir, queries, participant_label,
     * image_path, run_kwargs, work_dir)`; a caller leaving `run_kwargs` out
     * passes `Some(SmriUtilsLegacy.DEFAULT_KWARGS)`.
     */
    constructor (bidsDir: string, outDir: string, queries: Dict<string, Query>, participantLabel: Option<string>,
                 imagePath: Option<string>, runKwargs: Option<Dict<string, Value>>, workDir: Option<string>)
      ensures this.bidsDir == bidsDir && this.outDir == outDir && this.participantLabel == participantLabel
      ensures this.queries == SmriUtils.ValidateQueries(queries) && this.workDir == workDir
      ensures this.imagePath == SmriPrep.BuildImageLocation(imagePath)
      ensures this.runKwargs == Arranged(participantLabel, workDir, runKwargs)
      ensures Valid()
    {
      this.bidsDir := bidsDir;
      this.outDir := outDir;
      this.participantLabel := participantLabel;
      this.queries := SmriUtils.ValidateQueries(queries);
      this.workDir := workDir;
      this.imagePath := SmriPrep.BuildImageLocation(imagePath);
      this.runKwargs := [];
      new;
      var arranged := ArangeKwargs(runKwargs);
      this.runKwargs := arranged;
      ArrangedValid(participantLabel, workDir, runKwargs);
    }

    /**
     * `write_bids_filter_file()`: the filter file in the working directory
     * or, without one, in the current directory `cwd`, recorded as
     * "--bids-filter-file".
     */
    method WriteBidsFilterFile(cwd: string) returns (path: string)
      requires Valid()
      modifies this`runKwargs
      ensures Valid()
      ensures path == if workDir.Some? then JoinPath(workDir.value, BIDS_FILTER_FILE) else Absolute(cwd, BIDS_FILTER_FILE)
      ensures Name(path) == BIDS_FILTER_FILE
      ensures runKwargs == Set(old(runKwargs), "--bids-filter-file", Str(path))
    {
      assert IsPart(BIDS_FILTER_FILE);
      if workDir.Some? {
        path := JoinPath(workDir.value, BIDS_FILTER_FILE);
        NameOfJoin(workDir.value, BIDS_FILTER_FILE);
      } else {
        path := Absolute(cwd, BIDS_FILTER_FILE);
        NameOfJoin(cwd, BIDS_FILTER_FILE);
      }
      ValidSet(runKwargs, "--bids-filter-file", Str(path));
      runKwargs := Set(runKwargs, "--bids-filter-file", Str(path));
    }

    /**
     * `locate_freesurfer_license()`: a licence file is looked up only when
     * no "--fs-license-file" option is set, and recorded when one is found;
     * an unset `FREESURFER_HOME` (`fsHome`) then raises.
     */
    method LocateFreesurferLicense(fsHome: Option<string>, isFile: string -> bool) returns (r: Result<()>)
      requires Valid()
      modifies this`runKwargs
      ensures Valid()
      ensures r.Err? <==> "--fs-license-file" !in Keys(old(runKwargs)) && fsHome.None?
      ensures r.Err? ==> r.error == TypeError(SmriUtils.NOT_A_PATH)
      ensures runKwargs == Licensed(old(runKwargs), fsHome, isFile)
    {
      r := Ok(());
      if "--fs-license-file" !in Keys(runKwargs) {
        var located := SmriUtils.LocateFsLicenseFile(fsHome, isFile);
        if located.Err? {
          return Err(located.error);
        }
        if located.value.Some? {
          SetAbsent(runKwargs, "--fs-license-file", Str(located.value.value));
          ValidSet(runKwargs, "--fs-license-file", Str(located.value.value));
          runKwargs := Set(runKwargs, "--fs-license-file", Str(located.value.value));
        }
      }
    }

    /**
     * `add_mounts_to_command()`: the base mounts followed by one bind mount
     * per path-like option, and a copy of the options pointing at the mount
     * points; the options themselves are left as they are.
     */
    method AddMountsToCommand() returns (mountedCommand: string, updatedKwargs: Dict<string, Value>)
      requires Valid()
      ensures mountedCommand == MountTemplate(bidsDir, outDir) + Mounts(runKwargs)
      ensures updatedKwargs == Remapped(runKwargs)
    {
      var items := runKwargs;
      var base := MountTemplate(bidsDir, outDir);
      ghost var remapped := Remapped(items);
      mountedCommand := base;
      updatedKwargs := items;
      for i := 0 to |items|
        invariant mountedCommand == base + Mounts(items[..i])
        invariant |updatedKwargs| == |items|
        invariant updatedKwargs[..i] == remapped[..i] && updatedKwargs[i..] == items[i..]
      {
        var kwarg, value := items[i].0, items[i].1;
        MountStep(base, items, i);
        var strippedKwarg := Undashed(kwarg);
        if strippedKwarg in SmriUtilsLegacy.PATH_LIKE_KWARGS {
          var targetValue := SmriPrep.MountTarget(strippedKwarg);
          SetStep(items, updatedKwargs, remapped, i, Str("/" + targetValue));
          mountedCommand := mountedCommand + SmriPrep.Mount(strippedKwarg, value);
          updatedKwargs := Set(updatedKwargs, kwarg, Str("/" + targetValue));
        } else {
          KeepStep(items, updatedKwargs, remapped, i);
        }
      }
      assert items[..|items|] == items && updatedKwargs[..|items|] == updatedKwargs && remapped[..|items|] == remapped;
    }

    /** The command line `build_user_defined_command` returns, the options rendered as `add_kwargs_to_command` renders them. */
    function UserDefinedCommand(): string
      reads this
    {
      CommandTemplate(MountTemplate(bidsDir, outDir) + Mounts(runKwargs), imagePath) + RenderAll(Remapped(runKwargs), RenderKwarg)
    }

    /** The same command line with every option rendered under its name. */
    function NamedCommand(): string
      reads this
    {
      CommandTemplate(MountTemplate(bidsDir, outDir) + Mounts(runKwargs), imagePath) + RenderAll(Remapped(runKwargs), RenderOption)
    }

    /** `build_user_defined_command()`: the mounted container call with the remapped options appended, as written. */
    method BuildUserDefinedCommand() returns (command: string)
      requires Valid()
      ensures command == UserDefinedCommand()
      ensures StartsWith(command, MountTemplate(bidsDir, outDir))
      ensures NoListOrFalseFlag(runKwargs) ==> command == NamedCommand()
    {
      var mountedCommand, updatedKwargs := AddMountsToCommand();
      var smriprepCommand := CommandTemplate(mountedCommand, imagePath);
      command := AddKwargsToCommand(smriprepCommand, updatedKwargs);
      RemappedKeepsKinds(runKwargs);
      if NoListOrFalseFlag(runKwargs) {
        RenderingsAgree(Remapped(runKwargs));
      }
    }

    /** `build_user_defined_command()` with the corrected rendering: every option under its name. */
    method BuildNamedCommand() returns (command: string)
      requires Valid()
      ensures command == NamedCommand()
      ensures StartsWith(command, MountTemplate(bidsDir, outDir))
      ensures forall p :: ("--bids-filter-file", Str(p)) in runKwargs ==>
        Contains(command, " -B " + p + ":/bids_filter_file") && Contains(command, " --bids-filter-file /bids_filter_file")
    {
      var mountedCommand, updatedKwargs := AddMountsToCommand();
      var smriprepCommand := CommandTemplate(mountedCommand, imagePath);
      command := AddOptionsToCommand(smriprepCommand, updatedKwargs);
      forall p | ("--bids-filter-file", Str(p)) in runKwargs
        ensures Contains(command, " -B " + p + ":/bids_filter_file") && Contains(command, " --bids-filter-file /bids_filter_file")
      {
        FilterOptionRendering();
        CommandBindsFilter(runKwargs, p, bidsDir, outDir, imagePath, RenderOption);
      }
    }

    /**
     * `build_command()`: the filter file is recorded, then the licence rule
     * runs, then the command is built; it binds the filter file and passes
     * its mount point, and a licence option already set is kept.
     */
    method BuildCommand(cwd: string, fsHome: Option<string>, isFile: string -> bool) returns (r: Result<(string, string)>)
      requires Valid()
      modifies this`runKwargs
      ensures Valid()
      ensures var filtered := Set(old(runKwargs), "--bids-filter-file", Str(FilterPath(workDir, cwd)));
        runKwargs == Licensed(filtered, fsHome, isFile)
      ensures r.Err? <==> "--fs-license-file" !in Keys(old(runKwargs)) && fsHome.None?
      ensures r.Ok? ==> r.value.1 == FilterPath(workDir, cwd) && r.value.0 == UserDefinedCommand()
      ensures r.Ok? ==> StartsWith(r.value.0, MountTemplate(bidsDir, outDir))
      ensures r.Ok? ==> Contains(r.value.0, " -B " + r.value.1 + ":/bids_filter_file")
      ensures r.Ok? ==> Contains(r.value.0, " --bids-filter-file /bids_filter_file")
    {
      var bidsFilterPath := WriteBidsFilterFile(cwd);
      ghost var filtered := runKwargs;
      FilterRecorded(old(runKwargs), bidsFilterPath);
      var located := LocateFreesurferLicense(fsHome, isFile);
      if located.Err? {
        return Err(located.error);
      }
      var command := BuildUserDefinedCommand();
      LicensedKeeps(filtered, fsHome, isFile, ("--bids-filter-file", Str(bidsFilterPath)));
      FilterOptionRendering();
      CommandBindsFilter(runKwargs, bidsFilterPath, bidsDir, outDir, imagePath, RenderKwarg);
      r := Ok((command, bidsFilterPath));
    }
  }

  /** Where `write_bids_filter_file` puts the filter file. */
  function FilterPath(workDir: Option<string>, cwd: string): string
  {
    if workDir.Some? then JoinPath(workDir.value, BIDS_FILTER_FILE) else Absolute(cwd, BIDS_FILTER_FILE)
  }

  /** One step of the mounting loop: the next option's bind mount, if any, follows the earlier ones. */
  lemma MountStep(base: string, items: Dict<string, Value>, i: nat)
    requires i < |items|
    ensures base + Mounts(items[..i + 1]) == base + Mounts(items[..i]) + MountFor(items[i].0, items[i].1)
  {
    assert items[..i + 1][..i] == items[..i];
  }

  /** Stripping a run of strip characters off a word that neither starts nor ends with one leaves the word. */
  lemma StripLeading(p: string, x: string, chars: set<char>)
    requires forall k :: 0 <= k < |p| ==> p[k] in chars
    requires x != [] && x[0] !in chars && x[|x| - 1] !in chars
    ensures Strip(p + x, chars) == x
  {
    var s := p + x;
    var r := LStrip(s, chars);
    assert s[|p|] == x[0];
    assert |r| >= |x|;
    assert r[0] == s[|s| - |r|];
    assert forall k :: 0 <= k < |p| ==> s[k] in chars;
    assert r == s[|p|..] == x;
  }

  /** The filter file's option, undashed, is the newer driver's path-like "bids-filter-file". */
  lemma FilterOptionUndashed()
    ensures Undashed("--bids-filter-file") == "bids-filter-file"
  {
    var x := "bids-filter-file";
    assert "--bids-filter-file" == "--" + x;
    assert x[0] == 'b' && x[|x| - 1] == 'e';
    StripLeading("--", x, {'-'});
  }

  /**
   * Pointing at its mount point, the filter file's option renders as
   * "--bids-filter-file /bids_filter_file", as written and corrected alike.
   */
  lemma FilterOptionRendering()
    ensures RenderKwarg("--bids-filter-file", Str("/bids_filter_file")) == " --bids-filter-file /bids_filter_file"
    ensures RenderOption("--bids-filter-file", Str("/bids_filter_file")) == " --bids-filter-file /bids_filter_file"
  {
    assert " " + "--bids-filter-file" == " --bids-filter-file";
    assert " --bids-filter-file" + " " == " --bids-filter-file ";
    assert " --bids-filter-file " + "/bids_filter_file" == " --bids-filter-file /bids_filter_file";
  }

  /** A filter file among the options is bound among the mounts and passed, at its mount point, among the options. */
  lemma FilterInPieces(kwargs: Dict<string, Value>, path: string, render: (string, Value) -> string)
    requires ("--bids-filter-file", Str(path)) in kwargs
    requires render("--bids-filter-file", Str("/bids_filter_file")) == " --bids-filter-file /bids_filter_file"
    ensures Contains(Mounts(kwargs), " -B " + path + ":/bids_filter_file")
    ensures Contains(RenderAll(Remapped(kwargs), render), " --bids-filter-file /bids_filter_file")
  {
    var i :| 0 <= i < |kwargs| && kwargs[i] == ("--bids-filter-file", Str(path));
    FilterOptionUndashed();
    SmriPrep.FilterFileMount(path);
    SmriPrep.FilterFileRemap(path);
    RemappedUndashed(kwargs, i);
    RenderAllHas(Remapped(kwargs), render, i);
  }

  /** What the mounts hold and what the options hold, the command holds. */
  lemma CommandHasPieces(base: string, mounts: string, imagePath: string, options: string, x: string, y: string)
    requires Contains(mounts, x) && Contains(options, y)
    ensures Contains(CommandTemplate(base + mounts, imagePath) + options, x)
    ensures Contains(CommandTemplate(base + mounts, imagePath) + options, y)
  {
    var rest := " " + imagePath + " /bids_dir /out_dir participant";
    assert CommandTemplate(base + mounts, imagePath) == base + mounts + rest;
    SmriPrep.ContainsPieces(base, mounts, rest, options, x, y);
  }

  /**
   * Once "--bids-filter-file" is set, the command binds that file and passes
   * its mount point, under any rendering that renders that option by name.
   */
  lemma CommandBindsFilter(kwargs: Dict<string, Value>, path: string, bidsDir: string, outDir: string, imagePath: string,
                           render: (string, Value) -> string)
    requires ("--bids-filter-file", Str(path)) in kwargs
    requires render("--bids-filter-file", Str("/bids_filter_file")) == " --bids-filter-file /bids_filter_file"
    ensures var command := CommandTemplate(MountTemplate(bidsDir, outDir) + Mounts(kwargs), imagePath) + RenderAll(Remapped(kwargs), render);
      Contains(command, " -B " + path + ":/bids_filter_file") && Contains(command, " --bids-filter-file /bids_filter_file")
  {
    FilterInPieces(kwargs, path, render);
    CommandHasPieces(MountTemplate(bidsDir, outDir), Mounts(kwargs), imagePath, RenderAll(Remapped(kwargs), render),
      " -B " + path + ":/bids_filter_file", " --bids-filter-file /bids_filter_file");
  }

  /** `SmriprepManager(...)` then `build_command()`: the licence rule's error stops the build. */
  method Build(bidsDir: string, outDir: string, queries: Dict<string, Query>, participantLabel: Option<string>,
               imagePath: Option<string>, runKwargs: Option<Dict<string, Value>>, workDir: Option<string>,
               cwd: string, fsHome: Option<string>, isFile: string -> bool)
    returns (r: Result<(string, string)>)
    ensures var arranged := Arranged(participantLabel, workDir, runKwargs);
      r.Err? <==> "--fs-license-file" !in Keys(arranged) && fsHome.None?
    ensures r.Ok? ==> r.value.1 == FilterPath(workDir, cwd) && StartsWith(r.value.0, MountTemplate(bidsDir, outDir))
  {
    var manager := new SmriprepManager(bidsDir, outDir, queries, participantLabel, imagePath, runKwargs, workDir);
    r := manager.BuildCommand(cwd, fsHome, isFile);
  }
}
