/** The stages of audioops/pipeline.py: the cache directories, the normalise,
    fade and final (copy or crossfade) steps over a list of files, the cache
    cleanup, and `run_pipeline`, which sequences them with its policies for
    failed files and empty lists. */
module Stages {
  import opened Values
  import opened Host
  import opened FadeCore
  import opened Loudness
  import opened Pipeline

  /** The configuration entries the stages read with `[...]`; every
      `PipelineConfig` holds them (`CompleteIsReady`). */
  predicate Ready(c: ConfigState)
  {
    && "enabled" in c.normalize && "lufs" in c.normalize && "tp" in c.normalize && "two_pass" in c.normalize
    && "enabled" in c.fade && "in_ms" in c.fade && "out_ms" in c.fade && "from_end_sec" in c.fade
    && "enabled" in c.crossfade && "overlap_sec" in c.crossfade && "curve" in c.crossfade
    && "codec" in c.output && "sample_rate" in c.output
    && "ffmpeg" in c.paths && "cache_dir" in c.paths
  }

  /** A configuration holding every default key holds every key the stages read. */
  lemma CompleteIsReady(c: ConfigState)
    requires Complete(c)
    ensures Ready(c)
  {
    assert Of(Defaults, NormalizeGroup).Keys <= c.normalize.Keys;
    assert Of(Defaults, FadeGroup).Keys <= c.fade.Keys;
    assert Of(Defaults, CrossfadeGroup).Keys <= c.crossfade.Keys;
    assert Of(Defaults, OutputGroup).Keys <= c.output.Keys;
    assert Of(Defaults, PathsGroup).Keys <= c.paths.Keys;
  }

  // ------------------------------------------------------------ cache directories

  /** The two directories `setup_cache_dirs` returns, in its order. */
  datatype CacheDirs = CacheDirs(normalized: string, faded: string)

  function CacheDirsOf(root: string): (cd: CacheDirs)
    ensures cd.normalized != cd.faded
  {
    assert |SubPath(root, "normalized")| != |SubPath(root, "faded")|;
    CacheDirs(SubPath(root, "normalized"), SubPath(root, "faded"))
  }

  /** What an operation that may raise and may make or remove directories
      does: its result (`None` when it raises), its effects in order, and the
      directories that exist afterwards. */
  datatype Outcome<T> = Outcome(result: Option<T>, log: seq<Event>, dirs: set<string>)

  /** `mkdir` on each target in turn; the first that fails raises. */
  function MakeEach(t: Tools, dirs: set<string>, targets: seq<string>): Outcome<bool>
    decreases |targets|
  {
    if |targets| == 0 then Outcome(Some(true), [], dirs)
    else if !t.canMakeDir(targets[0]) then Outcome(None, [], dirs)
    else
      var rest := MakeEach(t, dirs + {targets[0]}, targets[1..]);
      Outcome(rest.result, [MadeDir(targets[0])] + rest.log, rest.dirs)
  }

  /** `setup_cache_dirs(cache_dir)`: `Path` of a non-string raises. */
  function SetupRun(t: Tools, dirs: set<string>, cacheDir: Value): Outcome<CacheDirs>
  {
    if !cacheDir.VStr? then Outcome(None, [], dirs)
    else
      var cd := CacheDirsOf(cacheDir.s);
      var r := MakeEach(t, dirs, [cd.normalized, cd.faded]);
      Outcome(if r.result.Some? then Some(cd) else None, r.log, r.dirs)
  }

  /** When setup returns, both cache directories were made, in order, and
      exist; when it raises, at most the first was made. */
  lemma SetupMakesBoth(t: Tools, dirs: set<string>, cacheDir: Value)
    ensures var r := SetupRun(t, dirs, cacheDir);
            r.result.Some? ==>
              && r.result.value == CacheDirsOf(cacheDir.s)
              && r.log == [MadeDir(r.result.value.normalized), MadeDir(r.result.value.faded)]
              && r.dirs == dirs + {r.result.value.normalized, r.result.value.faded}
    ensures var r := SetupRun(t, dirs, cacheDir);
            r.result.None? ==> |r.log| <= 1 && (forall i :: 0 <= i < |r.log| ==> r.log[i].MadeDir?)
  {
    if cacheDir.VStr? {
      var cd := CacheDirsOf(cacheDir.s);
      var targets := [cd.normalized, cd.faded];
      assert targets[1..] == [cd.faded];
      assert targets[1..][1..] == [];
      assert [cd.faded][1..] == [];
      var both := dirs + {cd.normalized} + {cd.faded};
      assert MakeEach(t, both, []) == Outcome(Some(true), [], both);
      var second := MakeEach(t, dirs + {cd.normalized}, [cd.faded]);
      assert t.canMakeDir(cd.faded) ==>
        second == Outcome(Some(true), [MadeDir(cd.faded)], both);
    }
  }

  method SetupCacheDirs(m: Machine, cacheDir: Value) returns (cd: Option<CacheDirs>)
    modifies m
    ensures var r := SetupRun(m.tools, old(m.dirs), cacheDir);
            cd == r.result && m.log == old(m.log) + r.log && m.dirs == r.dirs
  {
    if !cacheDir.VStr? {
      return None;
    }
    var dirs := CacheDirsOf(cacheDir.s);
    var targets := [dirs.normalized, dirs.faded];
    ghost var whole := MakeEach(m.tools, m.dirs, targets);
    ghost var log0 := m.log;
    ghost var done: seq<Event> := [];
    var i := 0;
    while i < |targets|
      invariant 0 <= i <= |targets|
      invariant m.log == log0 + done
      invariant var rest := MakeEach(m.tools, m.dirs, targets[i..]);
                whole == Outcome(rest.result, done + rest.log, rest.dirs)
    {
      var ok := m.MakeDir(targets[i]);
      if !ok {
        return None;
      }
      assert targets[i..][1..] == targets[i + 1..];
      done := done + [MadeDir(targets[i])];
      i := i + 1;
    }
    cd := Some(dirs);
  }

  /** `shutil.rmtree` on each target that `exists()` at its turn. */
  function RemoveEach(dirs: set<string>, targets: seq<string>): seq<Event>
    decreases |targets|
  {
    if |targets| == 0 then []
    else
      (if targets[0] in dirs then [RemovedDir(targets[0])] else [])
      + RemoveEach(dirs - {targets[0]}, targets[1..])
  }

  /** Cleanup removes only directories that exist and are targets, each at
      most once, and every existing target. */
  lemma {:induction false} RemoveEachExisting(dirs: set<string>, targets: seq<string>)
    ensures forall i :: 0 <= i < |RemoveEach(dirs, targets)| ==>
              var e := RemoveEach(dirs, targets)[i]; e.RemovedDir? && e.path in dirs && e.path in targets
    ensures forall d :: d in dirs && d in targets ==> RemovedDir(d) in RemoveEach(dirs, targets)
    decreases |targets|
  {
    if |targets| > 0 {
      RemoveEachExisting(dirs - {targets[0]}, targets[1..]);
      forall d | d in dirs && d in targets
        ensures RemovedDir(d) in RemoveEach(dirs, targets)
      {
        if d != targets[0] {
          assert d in targets[1..];
        }
      }
    }
  }

  /** `cleanup_cache(cache_dirs, keep_files)`. */
  method CleanupCache(m: Machine, cd: CacheDirs, keep: bool)
    modifies m
    ensures keep ==> m.log == old(m.log) && m.dirs == old(m.dirs)
    ensures !keep ==> m.log == old(m.log) + RemoveEach(old(m.dirs), [cd.normalized, cd.faded])
    ensures !keep ==> m.dirs == old(m.dirs) - {cd.normalized, cd.faded}
  {
    if keep {
      return;
    }
    var targets := [cd.normalized, cd.faded];
    ghost var log0 := m.log;
    ghost var dirs0 := m.dirs;
    var i := 0;
    while i < |targets|
      invariant 0 <= i <= |targets|
      invariant forall x :: x in m.dirs <==> x in dirs0 && x !in targets[..i]
      invariant m.log + RemoveEach(m.dirs, targets[i..]) == log0 + RemoveEach(dirs0, targets)
    {
      var d := targets[i];
      assert targets[i..][1..] == targets[i + 1..];
      ghost var rest := RemoveEach(m.dirs - {d}, targets[i + 1..]);
      ghost var before := m.log;
      if d in m.dirs {
        m.RemoveTree(d);
        assert m.log + rest == before + ([RemovedDir(d)] + rest);
      } else {
        assert m.dirs - {d} == m.dirs;
      }
      i := i + 1;
    }
    assert targets[..i] == targets && targets[i..] == [];
  }

  // ------------------------------------------------------------ per-file batches

  /** `Path(dir) / f"{stem}{tag}{suffix}"`. */
  function Renamed(f: Path, dir: string, tag: string): Path
  {
    Path(dir, f.stem + tag, f.suffix)
  }

  function Outputs(files: seq<Path>, dir: string, tag: string): (outs: seq<Path>)
    ensures |outs| == |files|
  {
    seq(|files|, i requires 0 <= i < |files| => Renamed(files[i], dir, tag))
  }

  /** `file_path.suffix[1:]`. */
  function SuffixFormat(suffix: string): string
  {
    if |suffix| == 0 then "" else suffix[1..]
  }

  /** The files a stage keeps and the effects of its per-file runs. */
  datatype Batch = Batch(kept: seq<Path>, log: seq<Event>)

  /** The loop of a stage: run each file in order, keep the output of each run
      that completed. */
  function Collect(outs: seq<Path>, runs: seq<Run>): Batch
    requires |outs| == |runs|
    decreases |outs|
  {
    if |outs| == 0 then Batch([], [])
    else
      var n := |outs| - 1;
      var b := Collect(outs[..n], runs[..n]);
      Batch(b.kept + (if runs[n].completed then [outs[n]] else []), b.log + runs[n].log)
  }

  /** One more file through a stage's loop. */
  lemma CollectStep(outs: seq<Path>, runs: seq<Run>, i: nat)
    requires |outs| == |runs| && i < |outs|
    ensures var b := Collect(outs[..i], runs[..i]);
            Collect(outs[..i + 1], runs[..i + 1])
              == Batch(b.kept + (if runs[i].completed then [outs[i]] else []), b.log + runs[i].log)
  {
    assert outs[..i + 1][..i] == outs[..i];
    assert runs[..i + 1][..i] == runs[..i];
  }

  /** The indices of the runs that completed, in increasing order. */
  function Completed(runs: seq<Run>): (idx: seq<nat>)
    ensures |idx| <= |runs|
    ensures forall j :: 0 <= j < |idx| ==> idx[j] < |runs| && runs[idx[j]].completed
    ensures forall j, k :: 0 <= j < k < |idx| ==> idx[j] < idx[k]
    ensures forall i :: 0 <= i < |runs| && runs[i].completed ==> i in idx
    decreases |runs|
  {
    if |runs| == 0 then []
    else
      var n := |runs| - 1;
      var prev := Completed(runs[..n]);
      assert forall j :: 0 <= j < |prev| ==> runs[..n][prev[j]] == runs[prev[j]];
      prev + (if runs[n].completed then [n] else [])
  }

  /** When no run completes, no index is listed. */
  lemma {:induction false} NoneCompleted(runs: seq<Run>)
    requires forall i :: 0 <= i < |runs| ==> !runs[i].completed
    ensures Completed(runs) == []
    decreases |runs|
  {
    if |runs| > 0 {
      NoneCompleted(runs[..|runs| - 1]);
    }
  }

  /** `outs[i]` sits at position `j` of `kept` for each index `idx[j]`. */
  predicate Picks(kept: seq<Path>, outs: seq<Path>, idx: seq<nat>)
  {
    |kept| == |idx| && forall j :: 0 <= j < |idx| ==> idx[j] < |outs| && kept[j] == outs[idx[j]]
  }

  /** Picking from a prefix picks the same elements from the whole sequence,
      and one more pick extends both lists. */
  lemma PicksExtend(kept: seq<Path>, outs: seq<Path>, idx: seq<nat>, n: nat, take: bool)
    requires n < |outs| && Picks(kept, outs[..n], idx)
    ensures Picks(kept + (if take then [outs[n]] else []), outs, idx + (if take then [n] else []))
  {
    var kept' := kept + (if take then [outs[n]] else []);
    var idx' := idx + (if take then [n] else []);
    forall j | 0 <= j < |idx'| ensures idx'[j] < |outs| && kept'[j] == outs[idx'[j]] {
      if j < |idx| {
        assert kept'[j] == kept[j] == outs[..n][idx[j]];
      }
    }
  }

  /** A stage keeps exactly the outputs of the runs that completed, in input
      order. */
  lemma {:induction false} CollectKeepsCompleted(outs: seq<Path>, runs: seq<Run>)
    requires |outs| == |runs|
    ensures var b := Collect(outs, runs); var idx := Completed(runs);
            |b.kept| == |idx| && forall j :: 0 <= j < |idx| ==> b.kept[j] == outs[idx[j]]
    decreases |outs|
  {
    assert Picks(Collect(outs, runs).kept, outs, Completed(runs)) by {
      CollectPicksCompleted(outs, runs);
    }
  }

  /** The induction behind `CollectKeepsCompleted`. */
  lemma {:induction false} CollectPicksCompleted(outs: seq<Path>, runs: seq<Run>)
    requires |outs| == |runs|
    ensures Picks(Collect(outs, runs).kept, outs, Completed(runs))
    decreases |outs|
  {
    if |outs| > 0 {
      var n := |outs| - 1;
      var b := Collect(outs[..n], runs[..n]);
      var prev := Completed(runs[..n]);
      CollectPicksCompleted(outs[..n], runs[..n]);
      assert runs[..n] == runs[..|outs| - 1];
      PicksExtend(b.kept, outs, prev, n, runs[n].completed);
    }
  }

  /** When every run completes a stage keeps every output. */
  lemma {:induction false} CollectKeepsAll(outs: seq<Path>, runs: seq<Run>)
    requires |outs| == |runs|
    requires forall i :: 0 <= i < |runs| ==> runs[i].completed
    ensures Collect(outs, runs).kept == outs
    decreases |outs|
  {
    if |outs| > 0 {
      var n := |outs| - 1;
      assert Collect(outs[..n], runs[..n]).kept == outs[..n] by {
        assert forall i :: 0 <= i < n ==> runs[..n][i] == runs[i];
        CollectKeepsAll(outs[..n], runs[..n]);
      }
      assert Collect(outs, runs).kept == outs[..n] + [outs[n]] by {
        assert runs[n].completed;
      }
      assert outs[..n] + [outs[n]] == outs;
    }
  }

  /** A stage's effects are the effects of its runs, every one of which
      satisfies `p` when every run's effects do. */
  lemma {:induction false} CollectLogEvents(outs: seq<Path>, runs: seq<Run>, p: Event -> bool)
    requires |outs| == |runs|
    requires forall i, k :: 0 <= i < |runs| && 0 <= k < |runs[i].log| ==> p(runs[i].log[k])
    ensures forall k :: 0 <= k < |Collect(outs, runs).log| ==> p(Collect(outs, runs).log[k])
    decreases |outs|
  {
    if |outs| > 0 {
      var n := |outs| - 1;
      CollectLogEvents(outs[..n], runs[..n], p);
      var b := Collect(outs[..n], runs[..n]);
      forall k | 0 <= k < |b.log + runs[n].log| ensures p((b.log + runs[n].log)[k]) {
        if k >= |b.log| {
          assert (b.log + runs[n].log)[k] == runs[n].log[k - |b.log|];
        }
      }
    }
  }

  // ------------------------------------------------------------ normalise step

  /** A stage's result: the files it returns (`None` when it raises) and its
      effects. */
  datatype Stage = Stage(files: Option<seq<Path>>, log: seq<Event>)

  /** `config.paths['ffmpeg'] or find_ffmpeg()`; `None` where `find_ffmpeg`
      raises. */
  function FfmpegFor(t: Tools, ffmpeg: Value): Option<string>
  {
    if Truthy(ffmpeg) then Some(Show(ffmpeg, t.fmt)) else t.ffmpeg
  }

  /** One `normalize_audio` call of the normalise step. */
  function NormalizeFile(t: Tools, c: ConfigState, tool: string, cd: CacheDirs, f: Path): Run
    requires Ready(c)
  {
    NormalizeRun(t, PathText(f), PathText(Renamed(f, cd.normalized, "__norm")),
                 c.normalize["lufs"], c.normalize["tp"], c.output["sample_rate"],
                 SuffixFormat(f.suffix), Truthy(c.normalize["two_pass"]), Some(tool))
  }

  function NormalizeRuns(t: Tools, c: ConfigState, tool: string, cd: CacheDirs, files: seq<Path>): (runs: seq<Run>)
    requires Ready(c)
    ensures |runs| == |files|
  {
    seq(|files|, i requires 0 <= i < |files| && Ready(c) => NormalizeFile(t, c, tool, cd, files[i]))
  }

  /** `run_normalize_step`. */
  function NormalizeStepRun(t: Tools, c: ConfigState, cd: CacheDirs, files: seq<Path>): Stage
    requires Ready(c)
  {
    if !Truthy(c.normalize["enabled"]) then Stage(Some(files), [])
    else
      var tool := FfmpegFor(t, c.paths["ffmpeg"]);
      if tool.None? then Stage(None, [])
      else
        var b := Collect(Outputs(files, cd.normalized, "__norm"), NormalizeRuns(t, c, tool.value, cd, files));
        Stage(Some(b.kept), b.log)
  }

  /** With normalisation disabled the files pass through untouched. */
  lemma NormalizeDisabledPassesThrough(t: Tools, c: ConfigState, cd: CacheDirs, files: seq<Path>)
    requires Ready(c) && !Truthy(c.normalize["enabled"])
    ensures NormalizeStepRun(t, c, cd, files) == Stage(Some(files), [])
  {
  }

  /** With normalisation enabled and an ffmpeg found, the step returns the
      `__norm` outputs, in the normalized directory, of exactly the files
      whose `normalize_audio` returned true, in input order; never more
      files than it was given. */
  lemma NormalizeKeepsSucceeded(t: Tools, c: ConfigState, cd: CacheDirs, files: seq<Path>)
    requires Ready(c) && Truthy(c.normalize["enabled"]) && FfmpegFor(t, c.paths["ffmpeg"]).Some?
    ensures var s := NormalizeStepRun(t, c, cd, files);
            var runs := NormalizeRuns(t, c, FfmpegFor(t, c.paths["ffmpeg"]).value, cd, files);
            var idx := Completed(runs);
            && s.files.Some? && |s.files.value| == |idx| <= |files|
            && forall j :: 0 <= j < |idx| ==>
                 s.files.value[j] == Path(cd.normalized, files[idx[j]].stem + "__norm", files[idx[j]].suffix)
  {
    var tool := FfmpegFor(t, c.paths["ffmpeg"]).value;
    CollectKeepsCompleted(Outputs(files, cd.normalized, "__norm"), NormalizeRuns(t, c, tool, cd, files));
  }

  /** The normalise step starts only measurement and normalisation processes. */
  lemma NormalizeStepEvents(t: Tools, c: ConfigState, cd: CacheDirs, files: seq<Path>)
    requires Ready(c)
    ensures var s := NormalizeStepRun(t, c, cd, files);
            forall k :: 0 <= k < |s.log| ==> s.log[k].Ran? && s.log[k].purpose in {Measure, Normalize}
  {
    var tool := FfmpegFor(t, c.paths["ffmpeg"]);
    if Truthy(c.normalize["enabled"]) && tool.Some? {
      var runs := NormalizeRuns(t, c, tool.value, cd, files);
      forall i, k | 0 <= i < |runs| && 0 <= k < |runs[i].log|
        ensures IsProcessFor(runs[i].log[k], {Measure, Normalize})
      {
        var f := files[i];
        NormalizeRunShape(t, PathText(f), PathText(Renamed(f, cd.normalized, "__norm")),
                          c.normalize["lufs"], c.normalize["tp"], c.output["sample_rate"],
                          SuffixFormat(f.suffix), Truthy(c.normalize["two_pass"]), Some(tool.value));
      }
      CollectLogEvents(Outputs(files, cd.normalized, "__norm"), runs, e => IsProcessFor(e, {Measure, Normalize}));
    }
  }

  predicate IsProcessFor(e: Event, purposes: set<Purpose>)
  {
    e.Ran? && e.purpose in purposes
  }

  /** One file of the normalise loop. */
  method NormalizeOne(m: Machine, c: ConfigState, tool: string, cd: CacheDirs, files: seq<Path>, i: nat,
                      ghost runs: seq<Run>) returns (ok: bool)
    requires Ready(c) && |runs| == |files| && i < |files|
    requires forall k {:trigger NormalizeFile(m.tools, c, tool, cd, files[k])} :: 0 <= k < |files| ==>
               runs[k] == NormalizeFile(m.tools, c, tool, cd, files[k])
    modifies m
    ensures m.dirs == old(m.dirs)
    ensures ok == runs[i].completed && m.log == old(m.log) + runs[i].log
  {
    var f := files[i];
    assert runs[i] == NormalizeFile(m.tools, c, tool, cd, f);
    var out := Renamed(f, cd.normalized, "__norm");
    ok := NormalizeAudio(m, PathText(f), PathText(out), c.normalize["lufs"], c.normalize["tp"],
                         c.output["sample_rate"], SuffixFormat(f.suffix), Truthy(c.normalize["two_pass"]), Some(tool));
  }

  /** `run_normalize_step`: the survivors are appended in input order. */
  method RunNormalizeStep(m: Machine, config: PipelineConfig, cd: CacheDirs, files: seq<Path>)
    returns (normalized: Option<seq<Path>>)
    requires Ready(config.State())
    modifies m
    ensures m.dirs == old(m.dirs)
    ensures var s := NormalizeStepRun(m.tools, config.State(), cd, files);
            normalized == s.files && m.log == old(m.log) + s.log
  {
    var c := config.State();
    if !Truthy(c.normalize["enabled"]) {
      return Some(files);
    }
    var tool := FfmpegFor(m.tools, c.paths["ffmpeg"]);
    if tool.None? {
      return None;
    }
    var kept := NormalizeEach(m, c, tool.value, cd, files, NormalizeRuns(m.tools, c, tool.value, cd, files));
    normalized := Some(kept);
  }

  /** The loop of `run_normalize_step`; `runs` are the `normalize_audio`
      calls it makes, one per file. */
  method NormalizeEach(m: Machine, c: ConfigState, tool: string, cd: CacheDirs, files: seq<Path>, ghost runs: seq<Run>)
    returns (kept: seq<Path>)
    requires Ready(c) && |runs| == |files|
    requires forall k {:trigger NormalizeFile(m.tools, c, tool, cd, files[k])} :: 0 <= k < |files| ==>
               runs[k] == NormalizeFile(m.tools, c, tool, cd, files[k])
    modifies m
    ensures m.dirs == old(m.dirs)
    ensures var b := Collect(Outputs(files, cd.normalized, "__norm"), runs);
            kept == b.kept && m.log == old(m.log) + b.log
  {
    ghost var outs := Outputs(files, cd.normalized, "__norm");
    ghost var log0 := m.log;
    kept := [];
    var i := 0;
    while i < |files|
      invariant 0 <= i <= |files|
      invariant m.dirs == old(m.dirs)
      invariant kept == Collect(outs[..i], runs[..i]).kept
      invariant m.log == log0 + Collect(outs[..i], runs[..i]).log
    {
      var ok := NormalizeOne(m, c, tool, cd, files, i, runs);
      if ok {
        kept := kept + [Renamed(files[i], cd.normalized, "__norm")];
      }
      CollectStep(outs, runs, i);
      i := i + 1;
    }
    assert outs[..i] == outs && runs[..i] == runs;
  }

  // ------------------------------------------------------------ fade step

  /** One `fade_file` call of the fade step: the fade-out counted from the end,
      the codec from the output group. */
  function FadeFileRun(t: Tools, c: ConfigState, cd: CacheDirs, f: Path): Run
    requires Ready(c)
  {
    FadeRun(t, f, Renamed(f, cd.faded, "__fade"), c.fade["in_ms"], c.fade["out_ms"],
            c.fade["from_end_sec"], VNull, c.output["codec"])
  }

  function FadeRuns(t: Tools, c: ConfigState, cd: CacheDirs, files: seq<Path>): (runs: seq<Run>)
    requires Ready(c)
    ensures |runs| == |files|
  {
    seq(|files|, i requires 0 <= i < |files| && Ready(c) => FadeFileRun(t, c, cd, files[i]))
  }

  /** `run_fade_step`; it never raises (each failure is caught per file). */
  function FadeStepRun(t: Tools, c: ConfigState, cd: CacheDirs, files: seq<Path>): Batch
    requires Ready(c)
  {
    if !Truthy(c.fade["enabled"]) || |files| == 0 then Batch(files, [])
    else Collect(Outputs(files, cd.faded, "__fade"), FadeRuns(t, c, cd, files))
  }

  /** Disabled or given nothing, the fade step returns its input unchanged;
      otherwise it returns the `__fade` outputs, in the faded directory, of
      exactly the files whose fade completed, in input order. */
  lemma FadeKeepsSucceeded(t: Tools, c: ConfigState, cd: CacheDirs, files: seq<Path>)
    requires Ready(c)
    ensures !Truthy(c.fade["enabled"]) || |files| == 0 ==> FadeStepRun(t, c, cd, files) == Batch(files, [])
    ensures Truthy(c.fade["enabled"]) && |files| > 0 ==>
              var b := FadeStepRun(t, c, cd, files);
              var idx := Completed(FadeRuns(t, c, cd, files));
              && |b.kept| == |idx| <= |files|
              && forall j :: 0 <= j < |idx| ==>
                   b.kept[j] == Path(cd.faded, files[idx[j]].stem + "__fade", files[idx[j]].suffix)
  {
    if Truthy(c.fade["enabled"]) && |files| > 0 {
      CollectKeepsCompleted(Outputs(files, cd.faded, "__fade"), FadeRuns(t, c, cd, files));
    }
  }

  /** The fade step starts only fade processes. */
  lemma FadeStepEvents(t: Tools, c: ConfigState, cd: CacheDirs, files: seq<Path>)
    requires Ready(c)
    ensures var b := FadeStepRun(t, c, cd, files);
            forall k :: 0 <= k < |b.log| ==> b.log[k].Ran? && b.log[k].purpose == Fade
  {
    if Truthy(c.fade["enabled"]) && |files| > 0 {
      var runs := FadeRuns(t, c, cd, files);
      assert forall i, k :: 0 <= i < |runs| && 0 <= k < |runs[i].log| ==> IsProcessFor(runs[i].log[k], {Fade});
      CollectLogEvents(Outputs(files, cd.faded, "__fade"), runs, e => IsProcessFor(e, {Fade}));
    }
  }

  /** One file of the fade loop; a fade that raises is caught. */
  method FadeOne(m: Machine, c: ConfigState, cd: CacheDirs, files: seq<Path>, i: nat, ghost runs: seq<Run>)
    returns (ok: bool)
    requires Ready(c) && |runs| == |files| && i < |files|
    requires forall k {:trigger FadeFileRun(m.tools, c, cd, files[k])} :: 0 <= k < |files| ==>
               runs[k] == FadeFileRun(m.tools, c, cd, files[k])
    modifies m
    ensures m.dirs == old(m.dirs)
    ensures ok == runs[i].completed && m.log == old(m.log) + runs[i].log
  {
    var f := files[i];
    assert runs[i] == FadeFileRun(m.tools, c, cd, f);
    ok := FadeFile(m, f, Renamed(f, cd.faded, "__fade"), c.fade["in_ms"], c.fade["out_ms"], c.fade["from_end_sec"],
                   VNull, c.output["codec"]);
  }

  /** `run_fade_step`: the survivors are appended in input order. */
  method RunFadeStep(m: Machine, config: PipelineConfig, cd: CacheDirs, files: seq<Path>)
    returns (faded: seq<Path>)
    requires Ready(config.State())
    modifies m
    ensures m.dirs == old(m.dirs)
    ensures var b := FadeStepRun(m.tools, config.State(), cd, files);
            faded == b.kept && m.log == old(m.log) + b.log
  {
    var c := config.State();
    if !Truthy(c.fade["enabled"]) || |files| == 0 {
      return files;
    }
    faded := FadeEach(m, c, cd, files, FadeRuns(m.tools, c, cd, files));
  }

  /** The loop of `run_fade_step`; `runs` are the `fade_file` calls it makes,
      one per file. */
  method FadeEach(m: Machine, c: ConfigState, cd: CacheDirs, files: seq<Path>, ghost runs: seq<Run>)
    returns (faded: seq<Path>)
    requires Ready(c) && |runs| == |files|
    requires forall k {:trigger FadeFileRun(m.tools, c, cd, files[k])} :: 0 <= k < |files| ==>
               runs[k] == FadeFileRun(m.tools, c, cd, files[k])
    modifies m
    ensures m.dirs == old(m.dirs)
    ensures var b := Collect(Outputs(files, cd.faded, "__fade"), runs);
            faded == b.kept && m.log == old(m.log) + b.log
  {
    ghost var outs := Outputs(files, cd.faded, "__fade");
    ghost var log0 := m.log;
    faded := [];
    var i := 0;
    while i < |files|
      invariant 0 <= i <= |files|
      invariant m.dirs == old(m.dirs)
      invariant faded == Collect(outs[..i], runs[..i]).kept
      invariant m.log == log0 + Collect(outs[..i], runs[..i]).log
    {
      var ok := FadeOne(m, c, cd, files, i, runs);
      if ok {
        faded := faded + [Renamed(files[i], cd.faded, "__fade")];
      }
      CollectStep(outs, runs, i);
      i := i + 1;
    }
    assert outs[..i] == outs && runs[..i] == runs;
  }

  // ------------------------------------------------------------ final step

  /** The final step's result (`None` when the copy raises) and effects. */
  datatype Final = Final(result: Option<bool>, log: seq<Event>)

  /** `run_crossfade_step`. */
  function FinalRun(t: Tools, c: ConfigState, files: seq<Path>, out: Path): Final
    requires Ready(c)
  {
    if !Truthy(c.crossfade["enabled"]) || |files| < 2 then
      if |files| == 1 then
        if t.canCopy(PathText(files[0]), PathText(out)) then Final(Some(true), [Copied(PathText(files[0]), PathText(out))])
        else Final(None, [])
      else Final(Some(false), [])
    else if !c.output["codec"].VStr? then Final(Some(false), [])
    else
      var curve := Show(c.crossfade["curve"], t.fmt);
      var cmd := CrossfadeCommand(files, out, Show(c.crossfade["overlap_sec"], t.fmt), curve, curve,
                                  c.output["codec"].s);
      Final(Some(Succeeded(t.exec(cmd))), [Ran(Crossfade, cmd)])
  }

  /** The final step's policies: a single file is copied whatever the
      crossfade flag says (and a failed copy raises); no file, or several
      with crossfading off, gives false with no effect; a codec that is not
      text makes the crossfade raise before it starts, which the step turns
      into false; otherwise one crossfade process runs and decides the
      result. */
  lemma FinalPolicies(t: Tools, c: ConfigState, files: seq<Path>, out: Path)
    requires Ready(c)
    ensures var r := FinalRun(t, c, files, out);
            |files| == 1 ==>
              (r.result == Some(true) <==> t.canCopy(PathText(files[0]), PathText(out)))
              && (r.result.None? <==> !t.canCopy(PathText(files[0]), PathText(out)))
              && forall k :: 0 <= k < |r.log| ==> r.log[k] == Copied(PathText(files[0]), PathText(out))
    ensures var r := FinalRun(t, c, files, out);
            |files| == 0 || (|files| >= 2 && !Truthy(c.crossfade["enabled"])) ==> r == Final(Some(false), [])
    ensures var r := FinalRun(t, c, files, out);
            |files| >= 2 && Truthy(c.crossfade["enabled"]) && !c.output["codec"].VStr? ==> r == Final(Some(false), [])
    ensures var r := FinalRun(t, c, files, out);
            |files| >= 2 && Truthy(c.crossfade["enabled"]) && c.output["codec"].VStr? ==>
              && r.result.Some? && |r.log| == 1 && r.log[0].Ran? && r.log[0].purpose == Crossfade
              && r.result.value == Succeeded(t.exec(r.log[0].cmd))
              && r.log[0].cmd[|r.log[0].cmd| - 1] == PathText(out)
  {
  }

  /** `run_crossfade_step`. */
  method RunCrossfadeStep(m: Machine, config: PipelineConfig, files: seq<Path>, out: Path)
    returns (result: Option<bool>)
    requires Ready(config.State())
    modifies m
    ensures m.dirs == old(m.dirs)
    ensures var r := FinalRun(m.tools, config.State(), files, out);
            result == r.result && m.log == old(m.log) + r.log
  {
    if !Truthy(config.crossfade["enabled"]) || |files| < 2 {
      if |files| == 1 {
        var copied := m.Copy(PathText(files[0]), PathText(out));
        if !copied {
          return None;
        }
        return Some(true);
      }
      return Some(false);
    }
    var ok := CrossfadeSequence(m, files, out, config.crossfade["overlap_sec"], config.crossfade["curve"],
                                config.crossfade["curve"], config.output["codec"]);
    result := Some(ok);
  }

  // ------------------------------------------------------------ pipeline

  /** What `run_pipeline` does: its result, its effects in order, and the
      directories that exist afterwards. It never raises: every exception
      becomes false. */
  datatype Summary = Summary(ok: bool, log: seq<Event>, dirs: set<string>)

  /** `run_pipeline`: set up the cache, normalise, and stop with false (and no
      cleanup) when that leaves no file; otherwise finish. */
  function PipelineRun(t: Tools, dirs: set<string>, inputs: seq<Path>, out: Path, c: ConfigState): Summary
    requires Ready(c)
  {
    var setup := SetupRun(t, dirs, c.paths["cache_dir"]);
    if setup.result.None? then Summary(false, setup.log, setup.dirs)
    else
      var rest := CachedRun(t, setup.dirs, setup.result.value, inputs, out, c);
      Summary(rest.ok, setup.log + rest.log, rest.dirs)
  }

  /** `run_pipeline` once the cache is set up: normalise, and stop with false
      (and no cleanup) when that leaves no file; otherwise finish. */
  function CachedRun(t: Tools, dirs: set<string>, cd: CacheDirs, inputs: seq<Path>, out: Path, c: ConfigState): Summary
    requires Ready(c)
  {
    var norm := NormalizeStepRun(t, c, cd, inputs);
    if norm.files.None? || |norm.files.value| == 0 then Summary(false, norm.log, dirs)
    else
      var rest := FinishRun(t, dirs, cd, norm.files.value, out, c);
      Summary(rest.ok, norm.log + rest.log, rest.dirs)
  }

  /** The rest of `run_pipeline` after a non-empty normalise step: fade,
      falling back to the normalised files when fading keeps none; the final
      step; and the cleanup, reached only when the final step returns. */
  function FinishRun(t: Tools, dirs: set<string>, cd: CacheDirs, normalized: seq<Path>, out: Path, c: ConfigState): Summary
    requires Ready(c)
  {
    var fade := FadeStepRun(t, c, cd, normalized);
    var fin := FinalRun(t, c, FinalFiles(fade.kept, normalized), out);
    if fin.result.None? then Summary(false, fade.log + fin.log, dirs)
    else
      Summary(fin.result.value, fade.log + fin.log + RemoveEach(dirs, [cd.normalized, cd.faded]),
              dirs - {cd.normalized, cd.faded})
  }

  /** The files given to the final step: the faded ones, or the normalised
      ones when fading kept none. */
  function FinalFiles(faded: seq<Path>, normalized: seq<Path>): seq<Path>
  {
    if |faded| == 0 then normalized else faded
  }

  /** `run_pipeline`. */
  method RunPipeline(m: Machine, inputs: seq<Path>, out: Path, config: PipelineConfig) returns (ok: bool)
    requires Ready(config.State())
    modifies m
    ensures var r := PipelineRun(m.tools, old(m.dirs), inputs, out, config.State());
            ok == r.ok && m.log == old(m.log) + r.log && m.dirs == r.dirs
  {
    ghost var setup := SetupRun(m.tools, m.dirs, config.State().paths["cache_dir"]);
    var cd := SetupCacheDirs(m, config.paths["cache_dir"]);
    if cd.None? {
      return false;
    }
    ghost var rest := CachedRun(m.tools, setup.dirs, cd.value, inputs, out, config.State());
    ok := ProcessCached(m, cd.value, inputs, out, config);
    AppendAssoc(old(m.log), setup.log, rest.log);
  }

  /** The part of `run_pipeline` after the cache is set up. */
  method ProcessCached(m: Machine, cd: CacheDirs, inputs: seq<Path>, out: Path, config: PipelineConfig)
    returns (ok: bool)
    requires Ready(config.State())
    modifies m
    ensures var r := CachedRun(m.tools, old(m.dirs), cd, inputs, out, config.State());
            ok == r.ok && m.log == old(m.log) + r.log && m.dirs == r.dirs
  {
    ghost var norm := NormalizeStepRun(m.tools, config.State(), cd, inputs);
    var normalized := RunNormalizeStep(m, config, cd, inputs);
    if normalized.None? || |normalized.value| == 0 {
      return false;
    }
    ghost var rest := FinishRun(m.tools, old(m.dirs), cd, normalized.value, out, config.State());
    ok := FinishPipeline(m, cd, normalized.value, out, config);
    AppendAssoc(old(m.log), norm.log, rest.log);
  }

  /** The part of `run_pipeline` after a non-empty normalise step. */
  method FinishPipeline(m: Machine, cd: CacheDirs, normalized: seq<Path>, out: Path, config: PipelineConfig)
    returns (ok: bool)
    requires Ready(config.State())
    modifies m
    ensures var r := FinishRun(m.tools, old(m.dirs), cd, normalized, out, config.State());
            ok == r.ok && m.log == old(m.log) + r.log && m.dirs == r.dirs
  {
    ghost var c := config.State();
    ghost var fade := FadeStepRun(m.tools, c, cd, normalized);
    var faded := RunFadeStep(m, config, cd, normalized);
    if |faded| == 0 {
      faded := normalized;
    }
    assert faded == FinalFiles(fade.kept, normalized);
    ghost var fin := FinalRun(m.tools, c, faded, out);
    var result := RunCrossfadeStep(m, config, faded, out);
    AppendAssoc(old(m.log), fade.log, fin.log);
    if result.None? {
      return false;
    }
    ghost var removed := RemoveEach(m.dirs, [cd.normalized, cd.faded]);
    CleanupCache(m, cd, false);
    ok := result.value;
    AppendAssoc(old(m.log), fade.log + fin.log, removed);
  }

  // ------------------------------------------------------------ pipeline properties

  /** An effect of the stages after normalisation: a fade, a crossfade, a
      copy, or a cache removal. */
  predicate LaterStage(e: Event)
  {
    e.Copied? || e.RemovedDir? || (e.Ran? && e.purpose in {Fade, Crossfade})
  }

  /** `run_pipeline` reaches the cleanup: the cache is set up, normalisation
      leaves at least one file, and the final step returns. */
  predicate ReachesCleanup(t: Tools, dirs: set<string>, inputs: seq<Path>, out: Path, c: ConfigState)
    requires Ready(c)
  {
    var setup := SetupRun(t, dirs, c.paths["cache_dir"]);
    && setup.result.Some?
    && var cd := setup.result.value;
       var norm := NormalizeStepRun(t, c, cd, inputs);
       && norm.files.Some? && |norm.files.value| > 0
       && FinalRun(t, c, FinalFiles(FadeStepRun(t, c, cd, norm.files.value).kept, norm.files.value), out).result.Some?
  }

  /** Setting up the cache only makes directories. */
  lemma SetupEvents(t: Tools, dirs: set<string>, cacheDir: Value)
    ensures var r := SetupRun(t, dirs, cacheDir);
            forall k :: 0 <= k < |r.log| ==> r.log[k].MadeDir?
  {
    SetupMakesBoth(t, dirs, cacheDir);
  }

  /** The final step only copies or crossfades. */
  lemma FinalEvents(t: Tools, c: ConfigState, files: seq<Path>, out: Path)
    requires Ready(c)
    ensures var r := FinalRun(t, c, files, out);
            forall k :: 0 <= k < |r.log| ==> r.log[k].Copied? || (r.log[k].Ran? && r.log[k].purpose == Crossfade)
  {
    FinalPolicies(t, c, files, out);
  }

  /** Some effect of the log removes a directory. */
  predicate HasRemoval(log: seq<Event>)
  {
    exists k :: 0 <= k < |log| && log[k].RemovedDir?
  }

  lemma RemovalAppend(a: seq<Event>, b: seq<Event>)
    ensures HasRemoval(a + b) <==> HasRemoval(a) || HasRemoval(b)
  {
    if HasRemoval(a + b) {
      var k :| 0 <= k < |a + b| && (a + b)[k].RemovedDir?;
      if k >= |a| {
        assert b[k - |a|] == (a + b)[k];
      } else {
        assert a[k] == (a + b)[k];
      }
    }
    if HasRemoval(b) {
      var k :| 0 <= k < |b| && b[k].RemovedDir?;
      assert (a + b)[|a| + k] == b[k];
    }
    if HasRemoval(a) {
      var k :| 0 <= k < |a| && a[k].RemovedDir?;
      assert (a + b)[k] == a[k];
    }
  }

  /** After normalisation, the cache is removed exactly when the final step
      returns, and then both cache directories are gone. */
  lemma FinishCleansUpIffFinalReturns(t: Tools, dirs: set<string>, cd: CacheDirs, normalized: seq<Path>, out: Path,
                                      c: ConfigState)
    requires Ready(c) && cd.normalized in dirs
    ensures var r := FinishRun(t, dirs, cd, normalized, out, c);
            var fin := FinalRun(t, c, FinalFiles(FadeStepRun(t, c, cd, normalized).kept, normalized), out);
            && (HasRemoval(r.log) <==> fin.result.Some?)
            && (fin.result.Some? ==> cd.normalized !in r.dirs && cd.faded !in r.dirs)
  {
    var fade := FadeStepRun(t, c, cd, normalized);
    var fin := FinalRun(t, c, FinalFiles(fade.kept, normalized), out);
    FadeStepEvents(t, c, cd, normalized);
    FinalEvents(t, c, FinalFiles(fade.kept, normalized), out);
    RemovalAppend(fade.log, fin.log);
    if fin.result.Some? {
      var removed := RemoveEach(dirs, [cd.normalized, cd.faded]);
      RemoveEachExisting(dirs, [cd.normalized, cd.faded]);
      RemovalAppend(fade.log + fin.log, removed);
      var j :| 0 <= j < |removed| && removed[j] == RemovedDir(cd.normalized);
      assert removed[j].RemovedDir?;
    }
  }

  /** Once the cache is set up, it is removed exactly when normalisation
      leaves a file and the final step returns. */
  lemma CachedCleansUpIffReached(t: Tools, dirs: set<string>, cd: CacheDirs, inputs: seq<Path>, out: Path,
                                 c: ConfigState)
    requires Ready(c) && cd.normalized in dirs
    ensures var norm := NormalizeStepRun(t, c, cd, inputs);
            var reached := && norm.files.Some? && |norm.files.value| > 0
                           && FinalRun(t, c, FinalFiles(FadeStepRun(t, c, cd, norm.files.value).kept, norm.files.value),
                                       out).result.Some?;
            HasRemoval(CachedRun(t, dirs, cd, inputs, out, c).log) <==> reached
  {
    var norm := NormalizeStepRun(t, c, cd, inputs);
    NormalizeStepEvents(t, c, cd, inputs);
    assert !HasRemoval(norm.log);
    if norm.files.Some? && |norm.files.value| > 0 {
      FinishCleansUpIffFinalReturns(t, dirs, cd, norm.files.value, out, c);
      RemovalAppend(norm.log, FinishRun(t, dirs, cd, norm.files.value, out, c).log);
    }
  }

  /** `run_pipeline` removes the cache exactly when it reaches the cleanup:
      never after an empty normalisation nor when the final copy raises. */
  lemma PipelineCleansUpIffReached(t: Tools, dirs: set<string>, inputs: seq<Path>, out: Path, c: ConfigState)
    requires Ready(c)
    ensures HasRemoval(PipelineRun(t, dirs, inputs, out, c).log) <==> ReachesCleanup(t, dirs, inputs, out, c)
  {
    var setup := SetupRun(t, dirs, c.paths["cache_dir"]);
    SetupMakesBoth(t, dirs, c.paths["cache_dir"]);
    assert !HasRemoval(setup.log);
    if setup.result.Some? {
      CachedCleansUpIffReached(t, setup.dirs, setup.result.value, inputs, out, c);
      RemovalAppend(setup.log, CachedRun(t, setup.dirs, setup.result.value, inputs, out, c).log);
    }
  }

  /** When normalisation leaves no file, `run_pipeline` returns false without
      fading, crossfading, copying or cleaning up. */
  lemma EmptyNormalizeStopsPipeline(t: Tools, dirs: set<string>, inputs: seq<Path>, out: Path, c: ConfigState)
    requires Ready(c)
    requires var setup := SetupRun(t, dirs, c.paths["cache_dir"]);
             setup.result.Some? && NormalizeStepRun(t, c, setup.result.value, inputs).files == Some([])
    ensures var r := PipelineRun(t, dirs, inputs, out, c);
            !r.ok && forall k :: 0 <= k < |r.log| ==> !LaterStage(r.log[k])
  {
    var setup := SetupRun(t, dirs, c.paths["cache_dir"]);
    SetupEvents(t, dirs, c.paths["cache_dir"]);
    CachedStopsOnEmpty(t, setup.dirs, setup.result.value, inputs, out, c);
    NoLaterStageAppend(setup.log, CachedRun(t, setup.dirs, setup.result.value, inputs, out, c).log);
  }

  lemma NoLaterStageAppend(a: seq<Event>, b: seq<Event>)
    requires forall k :: 0 <= k < |a| ==> a[k].MadeDir?
    requires forall k :: 0 <= k < |b| ==> !LaterStage(b[k])
    ensures forall k :: 0 <= k < |a + b| ==> !LaterStage((a + b)[k])
  {
    forall k | 0 <= k < |a + b| ensures !LaterStage((a + b)[k]) {
      if k >= |a| {
        assert (a + b)[k] == b[k - |a|];
      }
    }
  }

  /** Once the cache is set up, an empty normalisation ends the run with
      false and only normalisation effects. */
  lemma CachedStopsOnEmpty(t: Tools, dirs: set<string>, cd: CacheDirs, inputs: seq<Path>, out: Path, c: ConfigState)
    requires Ready(c) && NormalizeStepRun(t, c, cd, inputs).files == Some([])
    ensures var r := CachedRun(t, dirs, cd, inputs, out, c);
            !r.ok && forall k :: 0 <= k < |r.log| ==> !LaterStage(r.log[k])
  {
    NormalizeStepEvents(t, c, cd, inputs);
  }

  /** When every fade fails, the final step works on the normalised files. */
  lemma FadeFallsBackToNormalized(t: Tools, dirs: set<string>, cd: CacheDirs, normalized: seq<Path>, out: Path,
                                  c: ConfigState)
    requires Ready(c) && |normalized| > 0
    requires Truthy(c.fade["enabled"])
    requires forall i :: 0 <= i < |normalized| ==> !FadeFileRun(t, c, cd, normalized[i]).completed
    ensures FinishRun(t, dirs, cd, normalized, out, c).ok <==> FinalRun(t, c, normalized, out).result == Some(true)
  {
    var runs := FadeRuns(t, c, cd, normalized);
    CollectKeepsCompleted(Outputs(normalized, cd.faded, "__fade"), runs);
    forall i | 0 <= i < |runs| ensures !runs[i].completed {
      assert runs[i] == FadeFileRun(t, c, cd, normalized[i]);
    }
    NoneCompleted(runs);
  }

  /** A copy to the output, or a successful crossfade writing it. */
  predicate WritesOutput(t: Tools, e: Event, out: Path)
  {
    || (e.Copied? && e.dst == PathText(out))
    || (e.Ran? && e.purpose == Crossfade && Succeeded(t.exec(e.cmd))
        && |e.cmd| > 0 && e.cmd[|e.cmd| - 1] == PathText(out))
  }

  predicate Written(t: Tools, log: seq<Event>, out: Path)
  {
    exists k :: 0 <= k < |log| && WritesOutput(t, log[k], out)
  }

  lemma WrittenAppend(t: Tools, a: seq<Event>, b: seq<Event>, out: Path)
    ensures Written(t, a, out) || Written(t, b, out) ==> Written(t, a + b, out)
  {
    if Written(t, b, out) {
      var k :| 0 <= k < |b| && WritesOutput(t, b[k], out);
      assert (a + b)[|a| + k] == b[k];
    }
    if Written(t, a, out) {
      var k :| 0 <= k < |a| && WritesOutput(t, a[k], out);
      assert (a + b)[k] == a[k];
    }
  }

  /** After normalisation, success means the final step wrote the output. */
  lemma FinishSuccessWritesOutput(t: Tools, dirs: set<string>, cd: CacheDirs, normalized: seq<Path>, out: Path,
                                  c: ConfigState)
    requires Ready(c)
    ensures var r := FinishRun(t, dirs, cd, normalized, out, c);
            r.ok ==> Written(t, r.log, out)
  {
    var fade := FadeStepRun(t, c, cd, normalized);
    var files := FinalFiles(fade.kept, normalized);
    var fin := FinalRun(t, c, files, out);
    FinalPolicies(t, c, files, out);
    if fin.result == Some(true) {
      assert WritesOutput(t, fin.log[0], out);
      WrittenAppend(t, fade.log, fin.log, out);
      WrittenAppend(t, fade.log + fin.log, RemoveEach(dirs, [cd.normalized, cd.faded]), out);
    }
  }

  /** `run_pipeline` succeeds only when the output was written: a copy to
      it, or a crossfade process writing it that exited with code 0. */
  lemma PipelineSuccessWritesOutput(t: Tools, dirs: set<string>, inputs: seq<Path>, out: Path, c: ConfigState)
    requires Ready(c)
    ensures var r := PipelineRun(t, dirs, inputs, out, c);
            r.ok ==> Written(t, r.log, out)
  {
    var setup := SetupRun(t, dirs, c.paths["cache_dir"]);
    if setup.result.Some? {
      var cd := setup.result.value;
      var norm := NormalizeStepRun(t, c, cd, inputs);
      if norm.files.Some? && |norm.files.value| > 0 {
        var fin := FinishRun(t, setup.dirs, cd, norm.files.value, out, c);
        FinishSuccessWritesOutput(t, setup.dirs, cd, norm.files.value, out, c);
        WrittenAppend(t, norm.log, fin.log, out);
        WrittenAppend(t, setup.log, norm.log + fin.log, out);
      }
    }
  }
}
