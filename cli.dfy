/** The command-line front end (`main.py`): the argument namespace and the
    config-file overrides applied to it, the loudness targets chosen by the
    preset, the reference-file lookup, the per-file loop that counts
    successes and failures, and the exit code of `main`. The measurement and
    normalisation it calls are the ones of `Loudness`, with ffmpeg already
    found. */
module Cli {
  import opened Text
  import opened Values
  import opened Host
  import opened Loudness

  // ------------------------------------------------------------ namespace

  /** The attributes `parse_arguments` gives the namespace, with dashes
      turned into underscores. */
  const ArgNames: set<string> :=
    {"input_dir", "output_dir", "out_ext", "sample_rate", "mode", "preset", "ref_path",
     "two_pass", "one_pass", "overwrite", "config", "no_console", "single_instance_only"}

  /** The namespace `main` receives: every argument attribute is present, and
      the two directories are text (the entry point has already passed them
      through `os.path.abspath`). */
  predicate Shaped(attrs: map<string, Value>)
  {
    && ArgNames <= attrs.Keys
    && attrs["input_dir"].VStr?
    && attrs["output_dir"].VStr?
  }

  /** `--one-pass` switches the two-pass default off. */
  function OnePass(attrs: map<string, Value>): (r: map<string, Value>)
    requires "one_pass" in attrs
  {
    if Truthy(attrs["one_pass"]) then attrs["two_pass" := VBool(false)] else attrs
  }

  /** The attribute a config key names: `key.replace('-', '_')`. */
  function AttrName(key: string): string
  {
    ReplaceChar(key, '-', '_')
  }

  /** One config entry: ignored unless the namespace has the attribute, and
      ignored for `no_console` when that is already truthy. */
  function Assign(attrs: map<string, Value>, key: string, value: Value): map<string, Value>
  {
    var name := AttrName(key);
    if name !in attrs then attrs
    else if name == "no_console" && Truthy(attrs[name]) then attrs
    else attrs[name := value]
  }

  /** The config entries applied in document order. */
  function Overrides(attrs: map<string, Value>, entries: seq<(string, Value)>): map<string, Value>
    decreases |entries|
  {
    if |entries| == 0 then attrs
    else
      var n := |entries| - 1;
      Assign(Overrides(attrs, entries[..n]), entries[n].0, entries[n].1)
  }

  /** The namespace after the config file: `None` stands for a file that is
      absent, unreadable, not JSON or not a dictionary, all of which leave
      the namespace as it was. */
  function Configured(attrs: map<string, Value>, config: Option<seq<(string, Value)>>): map<string, Value>
  {
    if config.None? then attrs else Overrides(attrs, config.value)
  }

  /** The argparse namespace the entry point adjusts before calling `main`. */
  class Namespace {
    var attrs: map<string, Value>

    constructor (attrs: map<string, Value>)
      ensures this.attrs == attrs
    {
      this.attrs := attrs;
    }

    /** `if args.one_pass: args.two_pass = False`. */
    method ForceOnePass()
      requires "one_pass" in attrs
      modifies this
      ensures attrs == OnePass(old(attrs))
    {
      if Truthy(attrs["one_pass"]) {
        attrs := attrs["two_pass" := VBool(false)];
      }
    }

    /** The loop over the config dictionary's items, setting each attribute
        that exists. */
    method ApplyConfig(config: Option<seq<(string, Value)>>)
      modifies this
      ensures attrs == Configured(old(attrs), config)
    {
      if config.None? {
        return;
      }
      var entries := config.value;
      for j := 0 to |entries|
        invariant attrs == Overrides(old(attrs), entries[..j])
      {
        assert entries[..j + 1][..j] == entries[..j];
        var (key, value) := entries[j];
        var name := ReplaceChar(key, '-', '_');
        if name in attrs {
          if name == "no_console" {
            if !Truthy(attrs[name]) {
              attrs := attrs[name := value];
            }
          } else {
            attrs := attrs[name := value];
          }
        }
      }
      assert entries[..|entries|] == entries;
    }
  }

  /** Config entries only set attributes the namespace already has. */
  lemma {:induction false} OverridesKeepNames(attrs: map<string, Value>, entries: seq<(string, Value)>)
    ensures Overrides(attrs, entries).Keys == attrs.Keys
    decreases |entries|
  {
    if |entries| > 0 {
      OverridesKeepNames(attrs, entries[..|entries| - 1]);
    }
  }

  /** An attribute no entry names keeps its value. */
  lemma {:induction false} OverrideUntouched(attrs: map<string, Value>, entries: seq<(string, Value)>, name: string)
    requires name in attrs
    requires forall k :: 0 <= k < |entries| ==> AttrName(entries[k].0) != name
    ensures name in Overrides(attrs, entries) && Overrides(attrs, entries)[name] == attrs[name]
    decreases |entries|
  {
    if |entries| > 0 {
      var n := |entries| - 1;
      OverrideUntouched(attrs, entries[..n], name);
    }
  }

  /** Every attribute other than `no_console` takes the value of the last
      entry that names it, whatever the command line said. */
  lemma {:induction false} OverrideLastWins(attrs: map<string, Value>, entries: seq<(string, Value)>, name: string, j: nat)
    requires name in attrs && name != "no_console"
    requires j < |entries| && AttrName(entries[j].0) == name
    requires forall k :: j < k < |entries| ==> AttrName(entries[k].0) != name
    ensures name in Overrides(attrs, entries) && Overrides(attrs, entries)[name] == entries[j].1
    decreases |entries|
  {
    var n := |entries| - 1;
    OverridesKeepNames(attrs, entries[..n]);
    if j < n {
      OverrideLastWins(attrs, entries[..n], name, j);
    }
  }

  /** `no_console` ends up truthy exactly when it was truthy already or some
      entry names it with a truthy value; a truthy value is never replaced. */
  lemma {:induction false} NoConsoleSticky(attrs: map<string, Value>, entries: seq<(string, Value)>)
    requires "no_console" in attrs
    ensures "no_console" in Overrides(attrs, entries)
    ensures Truthy(attrs["no_console"]) ==> Overrides(attrs, entries)["no_console"] == attrs["no_console"]
    ensures Truthy(Overrides(attrs, entries)["no_console"]) <==>
              (|| Truthy(attrs["no_console"])
               || exists k :: 0 <= k < |entries| && AttrName(entries[k].0) == "no_console" && Truthy(entries[k].1))
    decreases |entries|
  {
    if |entries| > 0 {
      var n := |entries| - 1;
      var prefix := entries[..n];
      NoConsoleSticky(attrs, prefix);
      OverridesKeepNames(attrs, prefix);
      if exists k :: 0 <= k < n && AttrName(prefix[k].0) == "no_console" && Truthy(prefix[k].1) {
        var k :| 0 <= k < n && AttrName(prefix[k].0) == "no_console" && Truthy(prefix[k].1);
        assert entries[k] == prefix[k];
      }
      if exists k :: 0 <= k < |entries| && AttrName(entries[k].0) == "no_console" && Truthy(entries[k].1) {
        var k :| 0 <= k < |entries| && AttrName(entries[k].0) == "no_console" && Truthy(entries[k].1);
        if k < n {
          assert prefix[k] == entries[k];
        }
      }
    }
  }

  /** The config file is applied after `--one-pass`, so an entry for
      `two_pass` turns two passes back on. */
  lemma ConfigCanUndoOnePass(attrs: map<string, Value>)
    requires "one_pass" in attrs && "two_pass" in attrs && Truthy(attrs["one_pass"])
    ensures OnePass(attrs)["two_pass"] == VBool(false)
    ensures Configured(OnePass(attrs), Some([("two-pass", VBool(true))]))["two_pass"] == VBool(true)
  {
    var entries := [("two-pass", VBool(true))];
    assert AttrName("two-pass") == "two_pass";
    OverrideLastWins(OnePass(attrs), entries, "two_pass", 0);
  }

  // ------------------------------------------------------------ targets

  /** Integrated loudness (LUFS) and true peak (dBTP) to normalise to. */
  datatype Targets = Targets(integrated: real, truePeak: real)

  const DefaultTargets := Targets(-16.0, -1.5)

  /** The presets compared as given (not case-folded); any other text keeps
      the defaults. */
  function FixedPreset(preset: string): Targets
  {
    if preset == "-16" then Targets(-16.0, DefaultTargets.truePeak)
    else if preset == "-18" then Targets(-18.0, DefaultTargets.truePeak)
    else if preset == "-19" then Targets(-19.0, DefaultTargets.truePeak)
    else if preset == "-20" then Targets(-20.0, DefaultTargets.truePeak)
    else if preset == "-23" then Targets(-23.0, -1.0)
    else DefaultTargets
  }

  /** What `get_reference_lufs` yields: the rounded integrated loudness, or
      `None` where it raises. `escaped` tells an exception of the
      measurement itself apart from the `LoudSyncError` raised for a missing
      file or a failed measurement. */
  datatype Lookup = Lookup(lufs: Option<real>, escaped: bool, log: seq<Event>)

  /** The reference is measured against the default targets. */
  function ReferenceCommand(ffmpeg: string, refPath: string, fmt: Formats): seq<string>
  {
    MeasureCommand(ffmpeg, refPath, VFloat(DefaultTargets.integrated), VFloat(DefaultTargets.truePeak), fmt)
  }

  /** The loudness a measurement of the reference file supplies. */
  function ReferenceValue(o: MeasureOutcome, t: Tools): Option<real>
  {
    if o.Measured? && o.m.status == StatusOk && o.m.integrated.Some? then Some(t.roundTenth(o.m.integrated.value))
    else None
  }

  /** `get_reference_lufs`: a missing file raises before anything runs; then
      one measurement, which must be OK and carry an integrated loudness. */
  function ReferenceRun(t: Tools, refPath: string, ffmpeg: string): Lookup
  {
    if !t.fileExists(refPath) then Lookup(None, false, [])
    else
      var cmd := ReferenceCommand(ffmpeg, refPath, t.fmt);
      var o := ReadMeasurement(refPath, t.exec(cmd), t);
      Lookup(ReferenceValue(o, t), o.MeasureRaised?, [Ran(Measure, cmd)])
  }

  method GetReferenceLufs(m: Machine, refPath: string, ffmpeg: string) returns (lufs: Option<real>, escaped: bool)
    modifies m
    ensures m.dirs == old(m.dirs)
    ensures var l := ReferenceRun(m.tools, refPath, ffmpeg);
            lufs == l.lufs && escaped == l.escaped && m.log == old(m.log) + l.log
  {
    if !m.tools.fileExists(refPath) {
      return None, false;
    }
    var o := MeasureLoudness(m, refPath, ffmpeg, VFloat(-16.0), VFloat(-1.5));
    escaped := o.MeasureRaised?;
    if o.Measured? && o.m.status == StatusOk && o.m.integrated.Some? {
      lufs := Some(m.tools.roundTenth(o.m.integrated.value));
    } else {
      lufs := None;
    }
  }

  /** The reference lookup fails for a missing file (running nothing), and
      otherwise succeeds exactly when its one measurement reads OK, giving
      that measurement's integrated loudness rounded to a tenth. */
  lemma ReferenceErrors(t: Tools, refPath: string, ffmpeg: string)
    ensures !t.fileExists(refPath) ==> ReferenceRun(t, refPath, ffmpeg) == Lookup(None, false, [])
    ensures t.fileExists(refPath) ==>
              var cmd := ReferenceCommand(ffmpeg, refPath, t.fmt);
              var o := ReadMeasurement(refPath, t.exec(cmd), t);
              var l := ReferenceRun(t, refPath, ffmpeg);
              && l.log == [Ran(Measure, cmd)]
              && (l.lufs.Some? <==> o.Measured? && o.m.status == StatusOk)
              && (l.escaped <==> o.MeasureRaised?)
              && (l.lufs.Some? ==> l.lufs == Some(t.roundTenth(o.m.integrated.value)))
  {
    if t.fileExists(refPath) {
      var cmd := ReferenceCommand(ffmpeg, refPath, t.fmt);
      ReadMeasurementMeaning(refPath, t.exec(cmd), t);
    }
  }

  /** The targets `main` settles on, or `None` where it raises. */
  datatype Resolution = Resolution(targets: Option<Targets>, log: seq<Event>)

  /** The first valid answer to the interactive prompt: a reference file (the
      path as typed, stripped) or one of the five fixed presets. */
  datatype Choice = ReferenceFile(path: string) | Podcast | Bgm18 | Bgm19 | Bgm20 | Broadcast

  /** `select_preset_interactive`: the fixed presets run nothing; the
      reference option measures the file, falls back to (-16, -1.5) where
      `get_reference_lufs` raises `LoudSyncError`, and lets any other
      exception through. */
  function Chosen(t: Tools, choice: Choice, ffmpeg: string): Resolution
  {
    match choice
    case Podcast => Resolution(Some(Targets(-16.0, -1.5)), [])
    case Bgm18 => Resolution(Some(Targets(-18.0, -1.5)), [])
    case Bgm19 => Resolution(Some(Targets(-19.0, -1.5)), [])
    case Bgm20 => Resolution(Some(Targets(-20.0, -1.5)), [])
    case Broadcast => Resolution(Some(Targets(-23.0, -1.0)), [])
    case ReferenceFile(path) =>
      var l := ReferenceRun(t, path, ffmpeg);
      var lufs := if l.lufs.Some? then l.lufs.value else DefaultTargets.integrated;
      Resolution(if l.escaped then None else Some(Targets(lufs, -1.5)), l.log)
  }

  method SelectPresetInteractive(m: Machine, choice: Choice, ffmpeg: string) returns (targets: Option<Targets>)
    modifies m
    ensures m.dirs == old(m.dirs)
    ensures var r := Chosen(m.tools, choice, ffmpeg); targets == r.targets && m.log == old(m.log) + r.log
  {
    match choice {
      case Podcast => targets := Some(Targets(-16.0, -1.5));
      case Bgm18 => targets := Some(Targets(-18.0, -1.5));
      case Bgm19 => targets := Some(Targets(-19.0, -1.5));
      case Bgm20 => targets := Some(Targets(-20.0, -1.5));
      case Broadcast => targets := Some(Targets(-23.0, -1.0));
      case ReferenceFile(path) =>
        var lufs, escaped := GetReferenceLufs(m, path, ffmpeg);
        if escaped {
          targets := None;
        } else if lufs.Some? {
          targets := Some(Targets(lufs.value, -1.5));
        } else {
          targets := Some(Targets(-16.0, -1.5));
        }
    }
  }

  /** The prompt's reference option: a missing file falls back to the
      defaults without running anything; otherwise the one measurement
      decides, giving its rounded integrated loudness at -1.5 dBTP when it
      reads OK, the defaults when it reads a failure, and a raise only when
      the measurement itself raises. The menu presets match the command
      line's. */
  lemma ChosenMeaning(t: Tools, choice: Choice, ffmpeg: string)
    ensures !choice.ReferenceFile? ==> Chosen(t, choice, ffmpeg).log == []
    ensures choice == Podcast ==> Chosen(t, choice, ffmpeg).targets == Some(FixedPreset("-16"))
    ensures choice == Bgm18 ==> Chosen(t, choice, ffmpeg).targets == Some(FixedPreset("-18"))
    ensures choice == Bgm19 ==> Chosen(t, choice, ffmpeg).targets == Some(FixedPreset("-19"))
    ensures choice == Bgm20 ==> Chosen(t, choice, ffmpeg).targets == Some(FixedPreset("-20"))
    ensures choice == Broadcast ==> Chosen(t, choice, ffmpeg).targets == Some(FixedPreset("-23"))
    ensures choice.ReferenceFile? && !t.fileExists(choice.path) ==>
              Chosen(t, choice, ffmpeg) == Resolution(Some(DefaultTargets), [])
    ensures choice.ReferenceFile? && t.fileExists(choice.path) ==>
              var cmd := ReferenceCommand(ffmpeg, choice.path, t.fmt);
              var o := ReadMeasurement(choice.path, t.exec(cmd), t);
              var r := Chosen(t, choice, ffmpeg);
              && r.log == [Ran(Measure, cmd)]
              && (r.targets.None? <==> o.MeasureRaised?)
              && (o.Measured? && o.m.status == StatusOk ==>
                    r.targets == Some(Targets(t.roundTenth(o.m.integrated.value), -1.5)))
              && (o.Measured? && o.m.status != StatusOk ==> r.targets == Some(DefaultTargets))
  {
    if choice.ReferenceFile? {
      ReferenceErrors(t, choice.path, ffmpeg);
    }
  }

  /** The preset chain of `main`: `interactive` and `reffile` are matched
      after lower-casing, the numeric presets exactly. `console` is whether
      the prompt may be shown (a terminal and no `no_console`), `choice` the
      prompt's answer. A `ref_path` that is not text counts as absent. */
  function ResolveTargets(t: Tools, preset: Value, refPath: Value, console: bool, choice: Choice, ffmpeg: string): Resolution
  {
    if !preset.VStr? then Resolution(None, [])
    else if Lower(preset.s) == "interactive" then
      if console then Chosen(t, choice, ffmpeg) else Resolution(Some(DefaultTargets), [])
    else if Lower(preset.s) == "reffile" then
      if refPath.VStr? && refPath.s != "" && t.fileExists(refPath.s) then
        var l := ReferenceRun(t, refPath.s, ffmpeg);
        Resolution(if l.lufs.Some? then Some(Targets(l.lufs.value, DefaultTargets.truePeak)) else None, l.log)
      else Resolution(None, [])
    else Resolution(Some(FixedPreset(preset.s)), [])
  }

  method ResolvePreset(m: Machine, preset: Value, refPath: Value, console: bool, choice: Choice, ffmpeg: string)
    returns (targets: Option<Targets>)
    modifies m
    ensures m.dirs == old(m.dirs)
    ensures var r := ResolveTargets(m.tools, preset, refPath, console, choice, ffmpeg);
            targets == r.targets && m.log == old(m.log) + r.log
  {
    if !preset.VStr? {
      return None;
    }
    var name := Lower(preset.s);
    if name == "interactive" {
      if console {
        targets := SelectPresetInteractive(m, choice, ffmpeg);
      } else {
        targets := Some(DefaultTargets);
      }
    } else if name == "reffile" {
      if refPath.VStr? && refPath.s != "" && m.tools.fileExists(refPath.s) {
        var lufs, _ := GetReferenceLufs(m, refPath.s, ffmpeg);
        targets := if lufs.Some? then Some(Targets(lufs.value, -1.5)) else None;
      } else {
        targets := None;
      }
    } else {
      targets := Some(FixedPreset(preset.s));
    }
  }

  /** The preset table: the defaults are (-16, -1.5); the numeric presets
      other than -23 set the integrated loudness and keep the true peak;
      -23 sets both; unknown text keeps the defaults. None of them runs
      anything. */
  lemma PresetTable(t: Tools, refPath: Value, console: bool, choice: Choice, ffmpeg: string)
    ensures DefaultTargets == Targets(-16.0, -1.5)
    ensures ResolveTargets(t, VStr("-16"), refPath, console, choice, ffmpeg) == Resolution(Some(Targets(-16.0, -1.5)), [])
    ensures ResolveTargets(t, VStr("-18"), refPath, console, choice, ffmpeg) == Resolution(Some(Targets(-18.0, -1.5)), [])
    ensures ResolveTargets(t, VStr("-19"), refPath, console, choice, ffmpeg) == Resolution(Some(Targets(-19.0, -1.5)), [])
    ensures ResolveTargets(t, VStr("-20"), refPath, console, choice, ffmpeg) == Resolution(Some(Targets(-20.0, -1.5)), [])
    ensures ResolveTargets(t, VStr("-23"), refPath, console, choice, ffmpeg) == Resolution(Some(Targets(-23.0, -1.0)), [])
    ensures ResolveTargets(t, VStr("-17"), refPath, console, choice, ffmpeg) == Resolution(Some(DefaultTargets), [])
  {
    forall p: string | p in ["-16", "-18", "-19", "-20", "-23", "-17"]
      ensures Lower(p) != "interactive" && Lower(p) != "reffile"
    {
      assert |Lower(p)| == 3;
    }
  }

  /** `interactive` without a console falls back to the defaults. */
  lemma InteractiveWithoutConsole(t: Tools, preset: string, refPath: Value, choice: Choice, ffmpeg: string)
    requires Lower(preset) == "interactive"
    ensures ResolveTargets(t, VStr(preset), refPath, false, choice, ffmpeg) == Resolution(Some(Targets(-16.0, -1.5)), [])
  {
  }

  /** `reffile` without a reference path that exists raises, running nothing. */
  lemma ReffileNeedsReference(t: Tools, preset: string, refPath: Value, console: bool, choice: Choice, ffmpeg: string)
    requires Lower(preset) == "reffile"
    requires !refPath.VStr? || refPath.s == "" || !t.fileExists(refPath.s)
    ensures ResolveTargets(t, VStr(preset), refPath, console, choice, ffmpeg) == Resolution(None, [])
  {
    assert Lower(preset) != "interactive" by {
      assert Lower(preset)[0] == 'r';
    }
  }

  /** Only a reference file is ever measured while the targets are settled:
      the `reffile` preset's `ref_path`, or the path answered at the prompt
      under `interactive` with a console. Either way one measurement runs
      and the true peak stays -1.5 dBTP. */
  lemma OnlyReferenceMeasures(t: Tools, preset: Value, refPath: Value, console: bool, choice: Choice, ffmpeg: string)
    ensures var r := ResolveTargets(t, preset, refPath, console, choice, ffmpeg);
            r.log != [] ==>
              && preset.VStr?
              && (|| (Lower(preset.s) == "reffile" && r.log == [Ran(Measure, ReferenceCommand(ffmpeg, refPath.s, t.fmt))])
                  || (Lower(preset.s) == "interactive" && console && choice.ReferenceFile?
                      && r.log == [Ran(Measure, ReferenceCommand(ffmpeg, choice.path, t.fmt))]))
    ensures var r := ResolveTargets(t, preset, refPath, console, choice, ffmpeg);
            r.targets.Some? && preset.VStr? && Lower(preset.s) == "reffile" ==> r.targets.value.truePeak == -1.5
    ensures var r := ResolveTargets(t, preset, refPath, console, choice, ffmpeg);
            r.targets.Some? && preset.VStr? && Lower(preset.s) == "interactive" && console && choice.ReferenceFile? ==>
              r.targets.value.truePeak == -1.5
  {
  }

  // ------------------------------------------------------------ files

  /** `Path(output_dir) / f"{stem}.{ext}"`, or `{stem}_norm.{ext}` when that
      file exists and overwriting is off. */
  function OutputPath(t: Tools, outDir: string, stem: string, ext: string, overwrite: bool): string
  {
    var plain := SubPath(outDir, stem + "." + ext);
    if t.fileExists(plain) && !overwrite then SubPath(outDir, stem + "_norm." + ext) else plain
  }

  /** The output keeps the input's stem and takes the output extension; it
      is renamed exactly when the plain name exists and overwriting is off. */
  lemma OutputNaming(t: Tools, outDir: string, stem: string, ext: string, overwrite: bool)
    ensures var plain := SubPath(outDir, stem + "." + ext);
            var out := OutputPath(t, outDir, stem, ext, overwrite);
            && (out == plain <==> !t.fileExists(plain) || overwrite)
            && (out != plain ==> out == outDir + "/" + stem + "_norm." + ext)
            && outDir + "/" + stem <= out
            && out[|out| - |ext| - 1..] == "." + ext
  {
    var plain := SubPath(outDir, stem + "." + ext);
    var renamed := SubPath(outDir, stem + "_norm." + ext);
    assert plain == outDir + "/" + stem + "." + ext;
    assert renamed == outDir + "/" + stem + "_norm" + "." + ext;
    assert |plain| != |renamed|;
  }

  /** The settings the per-file loop reads from the namespace. */
  datatype Job = Job(
    measure: bool,
    outDir: string,
    ext: string,
    sampleRate: Value,
    twoPass: bool,
    overwrite: bool,
    ffmpeg: string,
    targets: Targets)

  function JobOf(attrs: map<string, Value>, t: Tools, ffmpeg: string, targets: Targets): Job
    requires Shaped(attrs) && attrs["mode"].VStr?
  {
    Job(Lower(attrs["mode"].s) == "measure", attrs["output_dir"].s, Show(attrs["out_ext"], t.fmt),
        attrs["sample_rate"], Truthy(attrs["two_pass"]), Truthy(attrs["overwrite"]), ffmpeg, targets)
  }

  /** One file's turn: `ok` is whether it counts as a success, `None` when
      its processing raised. */
  datatype Step = Step(ok: Option<bool>, log: seq<Event>)

  /** Measure mode: a success is a status of OK. */
  function MeasureStep(t: Tools, job: Job, f: Path): Step
  {
    var file := PathText(f);
    var cmd := MeasureCommand(job.ffmpeg, file, VFloat(job.targets.integrated), VFloat(job.targets.truePeak), t.fmt);
    var o := ReadMeasurement(file, t.exec(cmd), t);
    Step(if o.MeasureRaised? then None else Some(o.m.status == StatusOk), [Ran(Measure, cmd)])
  }

  /** Normalise mode: a success is what `normalize_audio` returns. */
  function NormalizeStep(t: Tools, job: Job, f: Path): Step
  {
    var out := OutputPath(t, job.outDir, f.stem, job.ext, job.overwrite);
    var r := NormalizeRun(t, PathText(f), out, VFloat(job.targets.integrated), VFloat(job.targets.truePeak),
                          job.sampleRate, job.ext, job.twoPass, Some(job.ffmpeg));
    Step(Some(r.completed), r.log)
  }

  function FileStep(t: Tools, job: Job, f: Path): Step
  {
    if job.measure then MeasureStep(t, job, f) else NormalizeStep(t, job, f)
  }

  function FileSteps(t: Tools, job: Job, files: seq<Path>): (steps: seq<Step>)
    ensures |steps| == |files|
  {
    seq(|files|, k requires 0 <= k < |files| => FileStep(t, job, files[k]))
  }

  /** The counters after a run of steps; `raised` when a step raised, which
      ends the loop. */
  datatype Tally = Tally(success: nat, failure: nat, raised: bool, log: seq<Event>)

  function Count(steps: seq<Step>): Tally
    decreases |steps|
  {
    if |steps| == 0 then Tally(0, 0, false, [])
    else
      var n := |steps| - 1;
      var p := Count(steps[..n]);
      if p.raised then p
      else match steps[n].ok
        case None => Tally(p.success, p.failure, true, p.log + steps[n].log)
        case Some(ok) =>
          Tally(p.success + (if ok then 1 else 0), p.failure + (if ok then 0 else 1), false, p.log + steps[n].log)
  }

  /** Every file adds to exactly one counter: with no step raising the two
      counters add up to the number of files, and there are no failures
      exactly when every file succeeded. */
  lemma {:induction false} CountTotal(steps: seq<Step>)
    ensures var c := Count(steps);
            && (!c.raised <==> forall k :: 0 <= k < |steps| ==> steps[k].ok.Some?)
            && (!c.raised ==> c.success + c.failure == |steps|)
            && (c.raised ==> c.success + c.failure < |steps|)
            && (!c.raised && c.failure == 0 <==> forall k :: 0 <= k < |steps| ==> steps[k].ok == Some(true))
    decreases |steps|
  {
    if |steps| > 0 {
      var n := |steps| - 1;
      var prefix := steps[..n];
      CountTotal(prefix);
      assert forall k :: 0 <= k < n ==> prefix[k] == steps[k];
    }
  }

  /** Once a step has raised, later files are not processed. */
  lemma {:induction false} RaisedStays(steps: seq<Step>, i: nat)
    requires i <= |steps| && Count(steps[..i]).raised
    ensures Count(steps) == Count(steps[..i])
    decreases |steps| - i
  {
    if i < |steps| {
      assert steps[..i + 1][..i] == steps[..i];
      RaisedStays(steps, i + 1);
    } else {
      assert steps[..i] == steps;
    }
  }

  /** What each file contributes: in measure mode its one measurement, a
      success when the status is OK; in normalise mode the run of
      `normalize_audio` on the computed output path, which never raises. */
  lemma FileStepMeaning(t: Tools, job: Job, f: Path)
    ensures job.measure ==>
              var cmd := MeasureCommand(job.ffmpeg, PathText(f), VFloat(job.targets.integrated), VFloat(job.targets.truePeak), t.fmt);
              var o := ReadMeasurement(PathText(f), t.exec(cmd), t);
              && FileStep(t, job, f).log == [Ran(Measure, cmd)]
              && (FileStep(t, job, f).ok == Some(true) <==> o.Measured? && o.m.status == StatusOk)
    ensures !job.measure ==>
              var out := OutputPath(t, job.outDir, f.stem, job.ext, job.overwrite);
              var r := NormalizeRun(t, PathText(f), out, VFloat(job.targets.integrated), VFloat(job.targets.truePeak),
                                    job.sampleRate, job.ext, job.twoPass, Some(job.ffmpeg));
              FileStep(t, job, f) == Step(Some(r.completed), r.log)
  {
  }

  /** One iteration of `process_files`. */
  method ProcessOne(m: Machine, job: Job, files: seq<Path>, i: nat, ghost steps: seq<Step>) returns (ok: Option<bool>)
    requires |steps| == |files| && i < |files|
    requires forall k {:trigger FileStep(m.tools, job, files[k])} :: 0 <= k < |files| ==>
               steps[k] == FileStep(m.tools, job, files[k])
    modifies m
    ensures m.dirs == old(m.dirs)
    ensures ok == steps[i].ok && m.log == old(m.log) + steps[i].log
  {
    var f := files[i];
    assert steps[i] == FileStep(m.tools, job, f);
    var input := PathText(f);
    if job.measure {
      var o := MeasureLoudness(m, input, job.ffmpeg, VFloat(job.targets.integrated), VFloat(job.targets.truePeak));
      ok := if o.MeasureRaised? then None else Some(o.m.status == StatusOk);
    } else {
      var out := OutputPath(m.tools, job.outDir, f.stem, job.ext, job.overwrite);
      var done := NormalizeAudio(m, input, out, VFloat(job.targets.integrated), VFloat(job.targets.truePeak),
                                 job.sampleRate, job.ext, job.twoPass, Some(job.ffmpeg));
      ok := Some(done);
    }
  }

  /** The loop of `process_files`; `completed` is false when a file's
      processing raised, which abandons the loop. */
  method ProcessEach(m: Machine, job: Job, files: seq<Path>, ghost steps: seq<Step>)
    returns (success: nat, failure: nat, completed: bool)
    requires |steps| == |files|
    requires forall k {:trigger FileStep(m.tools, job, files[k])} :: 0 <= k < |files| ==>
               steps[k] == FileStep(m.tools, job, files[k])
    modifies m
    ensures m.dirs == old(m.dirs)
    ensures var c := Count(steps);
            success == c.success && failure == c.failure && completed == !c.raised && m.log == old(m.log) + c.log
  {
    ghost var log0 := m.log;
    success, failure := 0, 0;
    var i := 0;
    while i < |files|
      invariant 0 <= i <= |files|
      invariant m.dirs == old(m.dirs)
      invariant var c := Count(steps[..i]);
                !c.raised && success == c.success && failure == c.failure && m.log == log0 + c.log
    {
      ghost var before := m.log;
      var ok := ProcessOne(m, job, files, i, steps);
      assert steps[..i + 1][..i] == steps[..i];
      AppendAssoc(log0, Count(steps[..i]).log, steps[i].log);
      if ok.None? {
        RaisedStays(steps, i + 1);
        return success, failure, false;
      }
      if ok.value {
        success := success + 1;
      } else {
        failure := failure + 1;
      }
      i := i + 1;
    }
    assert steps[..|files|] == steps;
    completed := true;
  }

  /** `process_files`: every file in order, in the mode of `job`. */
  method ProcessFiles(m: Machine, job: Job, files: seq<Path>) returns (success: nat, failure: nat, completed: bool)
    modifies m
    ensures m.dirs == old(m.dirs)
    ensures var c := Count(FileSteps(m.tools, job, files));
            success == c.success && failure == c.failure && completed == !c.raised && m.log == old(m.log) + c.log
  {
    success, failure, completed := ProcessEach(m, job, files, FileSteps(m.tools, job, files));
  }

  // ------------------------------------------------------------ main

  /** How `main` ends: its return code and what it ran. */
  datatype Exit = Exit(code: int, log: seq<Event>)

  /** The rest of `main` once the targets are settled: a mode that is not
      text raises at the first file; otherwise every file is processed and
      the code is 0 exactly when nothing raised and nothing failed. */
  function Finish(t: Tools, attrs: map<string, Value>, files: seq<Path>, ffmpeg: string, targets: Targets): Exit
    requires Shaped(attrs)
  {
    if !attrs["mode"].VStr? then Exit(1, [])
    else
      var c := Count(FileSteps(t, JobOf(attrs, t, ffmpeg, targets), files));
      Exit(if !c.raised && c.failure == 0 then 0 else 1, c.log)
  }

  /** `main` on a prepared namespace: ffmpeg must be found and the input
      directory must hold audio files; then the targets are resolved and
      the files processed. Every raise is caught and gives 1. `console` is
      whether standard input is a terminal and `choice` the interactive
      prompt's answer. */
  function MainRun(t: Tools, attrs: map<string, Value>, console: bool, choice: Choice): Exit
    requires Shaped(attrs)
  {
    if t.ffmpeg.None? then Exit(1, [])
    else
      var files := t.audioFiles(attrs["input_dir"].s);
      if files.None? || |files.value| == 0 then Exit(1, [])
      else
        var r := ResolveTargets(t, attrs["preset"], attrs["ref_path"], console && !Truthy(attrs["no_console"]),
                                choice, t.ffmpeg.value);
        if r.targets.None? then Exit(1, r.log)
        else
          var e := Finish(t, attrs, files.value, t.ffmpeg.value, r.targets.value);
          Exit(e.code, r.log + e.log)
  }

  method FinishMain(m: Machine, ns: Namespace, files: seq<Path>, ffmpeg: string, targets: Targets) returns (code: int)
    requires Shaped(ns.attrs)
    modifies m
    ensures m.dirs == old(m.dirs)
    ensures var e := Finish(m.tools, ns.attrs, files, ffmpeg, targets); code == e.code && m.log == old(m.log) + e.log
  {
    var mode := ns.attrs["mode"];
    if !mode.VStr? {
      return 1;
    }
    var job := JobOf(ns.attrs, m.tools, ffmpeg, targets);
    var success, failure, completed := ProcessFiles(m, job, files);
    code := if completed && failure == 0 then 0 else 1;
  }

  /** `main`. */
  method RunMain(m: Machine, ns: Namespace, console: bool, choice: Choice) returns (code: int)
    requires Shaped(ns.attrs)
    modifies m
    ensures m.dirs == old(m.dirs)
    ensures var e := MainRun(m.tools, ns.attrs, console, choice); code == e.code && m.log == old(m.log) + e.log
  {
    var ffmpeg := m.tools.ffmpeg;
    if ffmpeg.None? {
      return 1;
    }
    var files := m.tools.audioFiles(ns.attrs["input_dir"].s);
    if files.None? || |files.value| == 0 {
      return 1;
    }
    ghost var log0 := m.log;
    var targets := ResolvePreset(m, ns.attrs["preset"], ns.attrs["ref_path"], console && !Truthy(ns.attrs["no_console"]),
                                 choice, ffmpeg.value);
    if targets.None? {
      return 1;
    }
    ghost var resolved := m.log;
    code := FinishMain(m, ns, files.value, ffmpeg.value, targets.value);
    AppendAssoc(log0, ResolveTargets(m.tools, ns.attrs["preset"], ns.attrs["ref_path"], console && !Truthy(ns.attrs["no_console"]),
                                     choice, ffmpeg.value).log,
                Finish(m.tools, ns.attrs, files.value, ffmpeg.value, targets.value).log);
  }

  /** The exit code is 0 or 1, and 0 exactly when ffmpeg was found, the
      input directory held audio files, the preset resolved, the mode was
      text and every file succeeded. */
  lemma ExitCodeMeaning(t: Tools, attrs: map<string, Value>, console: bool, choice: Choice)
    requires Shaped(attrs)
    ensures var e := MainRun(t, attrs, console, choice);
            && (e.code == 0 || e.code == 1)
            && (e.code == 0 <==>
                  && t.ffmpeg.Some?
                  && var files := t.audioFiles(attrs["input_dir"].s);
                     && files.Some? && |files.value| > 0
                     && var r := ResolveTargets(t, attrs["preset"], attrs["ref_path"], console && !Truthy(attrs["no_console"]),
                                                choice, t.ffmpeg.value);
                        && r.targets.Some?
                        && attrs["mode"].VStr?
                        && var steps := FileSteps(t, JobOf(attrs, t, t.ffmpeg.value, r.targets.value), files.value);
                           forall k :: 0 <= k < |steps| ==> steps[k].ok == Some(true))
  {
    if t.ffmpeg.Some? {
      var files := t.audioFiles(attrs["input_dir"].s);
      if files.Some? && |files.value| > 0 {
        var r := ResolveTargets(t, attrs["preset"], attrs["ref_path"], console && !Truthy(attrs["no_console"]),
                                choice, t.ffmpeg.value);
        if r.targets.Some? && attrs["mode"].VStr? {
          CountTotal(FileSteps(t, JobOf(attrs, t, t.ffmpeg.value, r.targets.value), files.value));
        }
      }
    }
  }

  /** The reference preset without a usable reference path makes `main`
      return 1 before any file is processed. */
  lemma ReffileWithoutReferenceFails(t: Tools, attrs: map<string, Value>, console: bool, choice: Choice)
    requires Shaped(attrs)
    requires attrs["preset"].VStr? && Lower(attrs["preset"].s) == "reffile"
    requires var p := attrs["ref_path"]; !p.VStr? || p.s == "" || !t.fileExists(p.s)
    ensures MainRun(t, attrs, console, choice) == Exit(1, [])
  {
    if t.ffmpeg.Some? {
      ReffileNeedsReference(t, attrs["preset"].s, attrs["ref_path"], console && !Truthy(attrs["no_console"]),
                            choice, t.ffmpeg.value);
    }
  }
}
