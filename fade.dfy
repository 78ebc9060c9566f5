/** Fade and crossfade filter-graph construction (audioops/core.py): the fade
    timing resolved against the probed duration, the ordered fade filter list,
    the codec implied by the output extension, and the N-input chain of
    pairwise `acrossfade` nodes. */
module FadeCore {
  import opened Text
  import opened Values
  import opened Host

  /** Python's `max(x, 0.0)`. */
  function Max0(x: real): real
  {
    if x < 0.0 then 0.0 else x
  }

  /** A fade length given in milliseconds, in seconds and never negative. */
  function FadeSeconds(ms: real): (s: real)
    ensures s >= 0.0
    ensures ms <= 0.0 ==> s == 0.0
    ensures ms >= 0.0 ==> s * 1000.0 == ms
  {
    Max0(ms / 1000.0)
  }

  /** Start of the fade-out. A from-end offset wins over an absolute start,
      which wins over "fade out over the last `fout` seconds". */
  function FadeOutStart(dur: real, fromEnd: Option<real>, start: Option<real>, fout: real): (st: real)
    ensures st >= 0.0
    ensures fromEnd.Some? && 0.0 <= fromEnd.value <= dur ==> st + fromEnd.value == dur
    ensures fromEnd.Some? && fromEnd.value > dur ==> st == 0.0
    ensures fromEnd.Some? && fromEnd.value >= 0.0 && dur >= 0.0 ==> st <= dur
    ensures fromEnd.Some? && fromEnd.value < 0.0 && dur >= 0.0 ==> st + fromEnd.value == dur
    ensures fromEnd.None? && start.Some? && start.value >= 0.0 ==> st == start.value
    ensures fromEnd.None? && start.Some? && start.value < 0.0 ==> st == 0.0
    ensures fromEnd.None? && start.None? && 0.0 <= fout <= dur ==> st + fout == dur
    ensures fromEnd.None? && start.None? && fout >= 0.0 && dur >= 0.0 ==> st <= dur
    ensures fromEnd.None? && start.None? && fout > dur ==> st == 0.0
  {
    if fromEnd.Some? then Max0(dur - fromEnd.value)
    else if start.Some? then Max0(start.value)
    else Max0(dur - fout)
  }

  /** With a from-end offset, neither the absolute start nor the fade-out
      length has any say in where the fade-out starts. */
  lemma FromEndTakesPrecedence(dur: real, f: real, s1: Option<real>, s2: Option<real>, fout1: real, fout2: real)
    ensures FadeOutStart(dur, Some(f), s1, fout1) == FadeOutStart(dur, Some(f), s2, fout2)
  {
  }

  /** The absolute-start path has no upper clamp: the fade-out may start after
      the end of the clip. */
  lemma AbsoluteStartMayPassEnd()
    ensures FadeOutStart(1.0, None, Some(5.0), 0.0) > 1.0
  {
  }

  predicate IsFadeIn(f: string)
  {
    "afade=t=in:st=0:d=" <= f
  }

  predicate IsFadeOut(f: string)
  {
    "afade=t=out:st=" <= f
  }

  function FadeInFilter(fin: real, render: real -> string): string
  {
    "afade=t=in:st=0:d=" + render(fin)
  }

  /** The fade-out filter; `st` is the start as Python renders it. */
  function FadeOutFilter(st: string, fout: real, render: real -> string): string
  {
    "afade=t=out:st=" + st + ":d=" + render(fout)
  }

  lemma FilterKinds(fin: real, st: string, fout: real, render: real -> string)
    ensures IsFadeIn(FadeInFilter(fin, render)) && !IsFadeOut(FadeInFilter(fin, render))
    ensures IsFadeOut(FadeOutFilter(st, fout, render)) && !IsFadeIn(FadeOutFilter(st, fout, render))
  {
    var a := FadeInFilter(fin, render);
    var b := FadeOutFilter(st, fout, render);
    assert a[8] == 'i';
    assert b[8] == 'o';
  }

  /** The ordered fade filters: a fade-in anchored at 0 exactly when `fin > 0`,
      a fade-out exactly when `fout > 0`, the fade-in first, and nothing else. */
  function FadeFilters(fin: real, fout: real, st: string, render: real -> string): (filters: seq<string>)
    ensures |filters| == (if fin > 0.0 then 1 else 0) + (if fout > 0.0 then 1 else 0)
    ensures (exists i :: 0 <= i < |filters| && IsFadeIn(filters[i])) <==> fin > 0.0
    ensures (exists i :: 0 <= i < |filters| && IsFadeOut(filters[i])) <==> fout > 0.0
    ensures fin > 0.0 ==> filters[0] == FadeInFilter(fin, render)
    ensures fout > 0.0 ==> filters[|filters| - 1] == FadeOutFilter(st, fout, render)
  {
    FilterKinds(fin, st, fout, render);
    var filters := (if fin > 0.0 then [FadeInFilter(fin, render)] else [])
                   + (if fout > 0.0 then [FadeOutFilter(st, fout, render)] else []);
    assert fin > 0.0 ==> IsFadeIn(filters[0]);
    assert fout > 0.0 ==> IsFadeOut(filters[|filters| - 1]);
    assert fin <= 0.0 ==> forall i :: 0 <= i < |filters| ==> filters[i] == FadeOutFilter(st, fout, render);
    assert fout <= 0.0 ==> forall i :: 0 <= i < |filters| ==> filters[i] == FadeInFilter(fin, render);
    filters
  }

  /** The `-af` argument: the filters joined by ",", or the identity filter
      `anull` when there are none. */
  function FilterArg(filters: seq<string>): string
  {
    if filters == [] then "anull" else Join(",", filters)
  }

  /** The identity filter is used exactly when neither fade is requested. */
  lemma IdentityFilterIffNoFade(fin: real, fout: real, st: string, render: real -> string)
    requires fin >= 0.0 && fout >= 0.0
    ensures FilterArg(FadeFilters(fin, fout, st, render)) == "anull" <==> fin == 0.0 && fout == 0.0
  {
    var filters := FadeFilters(fin, fout, st, render);
    if filters != [] {
      JoinStartsWithFirst(",", filters);
      var af := Join(",", filters);
      assert "afade" <= filters[0] by { FilterKinds(fin, st, fout, render); }
      assert af[1] == 'f';
      assert "anull"[1] == 'n';
    }
  }

  /** The filter argument splits back at "," into exactly the filter list,
      when the rendered numbers hold no comma. */
  lemma FilterArgSplitsIntoFilters(fin: real, fout: real, st: string, render: real -> string)
    requires forall x :: ',' !in render(x)
    requires ',' !in st
    requires fin > 0.0 || fout > 0.0
    ensures Split(FilterArg(FadeFilters(fin, fout, st, render)), ',') == FadeFilters(fin, fout, st, render)
  {
    var filters := FadeFilters(fin, fout, st, render);
    assert ',' !in render(fin) && ',' !in render(fout);
    assert ',' !in FadeInFilter(fin, render);
    assert ',' !in FadeOutFilter(st, fout, render);
    SplitJoin(filters, ',');
  }

  /** The codec: the one the output extension implies (compared in lower case),
      otherwise the caller's. */
  function OutputCodec(suffix: string, codec: string): (c: string)
    ensures Lower(suffix) == ".wav" ==> c == "pcm_s16le"
    ensures Lower(suffix) == ".mp3" ==> c == "libmp3lame"
    ensures Lower(suffix) == ".m4a" || Lower(suffix) == ".aac" ==> c == "aac"
    ensures Lower(suffix) !in {".wav", ".mp3", ".m4a", ".aac"} ==> c == codec
  {
    var ext := Lower(suffix);
    if ext == ".wav" then "pcm_s16le"
    else if ext == ".mp3" then "libmp3lame"
    else if ext == ".m4a" || ext == ".aac" then "aac"
    else codec
  }

  /** The extensions that impose their own codec, whatever the caller passed. */
  predicate SuffixPicksCodec(suffix: string)
  {
    Lower(suffix) in {".wav", ".mp3", ".m4a", ".aac"}
  }

  /** The codec choice ignores the case of the extension. */
  lemma OutputCodecIgnoresCase(suffix: string, codec: string)
    ensures OutputCodec(Lower(suffix), codec) == OutputCodec(suffix, codec)
  {
    LowerIdempotent(suffix);
  }

  /** The timing `fade_file` computes from its arguments, or `None` where its
      arithmetic raises `TypeError` (a non-numeric option; `VNull` is `None`).
      `start` is the fade-out start as a number and `shown` the Python value
      holding it: `max(v, 0.0)` returns a non-negative absolute start `v`
      itself (an int or a bool stays one), and a float otherwise. */
  datatype FadeTiming = FadeTiming(fin: real, fout: real, start: real, shown: Value)

  function ResolveTiming(dur: real, fadeInMs: Value, fadeOutMs: Value, fromEnd: Value, startSec: Value): (r: Option<FadeTiming>)
    ensures r.Some? ==> r.value.fin >= 0.0 && r.value.fout >= 0.0 && r.value.start >= 0.0
    ensures r.Some? <==> AsNumber(fadeInMs).Some? && AsNumber(fadeOutMs).Some?
                         && (!fromEnd.VNull? ==> AsNumber(fromEnd).Some?)
                         && (fromEnd.VNull? && !startSec.VNull? ==> AsNumber(startSec).Some?)
    ensures r.Some? ==> AsNumber(r.value.shown) == Some(r.value.start)
    ensures r.Some? ==>
              if fromEnd.VNull? && !startSec.VNull? && AsNumber(startSec).value >= 0.0
              then r.value.shown == startSec
              else r.value.shown == VFloat(r.value.start)
  {
    var fin := AsNumber(fadeInMs);
    var fout := AsNumber(fadeOutMs);
    if fin.None? || fout.None? then None
    else
      var fe := if fromEnd.VNull? then None else AsNumber(fromEnd);
      var ss := if startSec.VNull? then None else AsNumber(startSec);
      if !fromEnd.VNull? && fe.None? then None
      else if fromEnd.VNull? && !startSec.VNull? && ss.None? then None
      else
        var foutSec := FadeSeconds(fout.value);
        var st := FadeOutStart(dur, fe, ss, foutSec);
        var kept := fe.None? && ss.Some? && ss.value >= 0.0;
        Some(FadeTiming(FadeSeconds(fin.value), foutSec, st, if kept then startSec else VFloat(st)))
  }

  /** An absolute start given as an integer is rendered as that integer. */
  lemma IntegerStartKeptAsGiven(dur: real)
    ensures var r := ResolveTiming(dur, VInt(0), VInt(1000), VNull, VInt(5));
            r.Some? && r.value.start == 5.0 && r.value.shown == VInt(5)
  {
  }

  /** The ffmpeg command line `fade_file` runs; `st` is the rendered start. */
  function FadeCommand(infile: Path, outfile: Path, fin: real, fout: real, st: string, codec: string,
                       render: real -> string): seq<string>
  {
    ["ffmpeg", "-y", "-i", PathText(infile), "-vn",
     "-af", FilterArg(FadeFilters(fin, fout, st, render)),
     "-c:a", OutputCodec(outfile.suffix, codec), PathText(outfile)]
  }

  /** What one `fade_file` call does: whether it returns normally (rather than
      raising) and the processes it starts. The duration probe is an oracle
      and is not logged. A codec that is not text, unless the extension
      replaces it, makes `run` raise `TypeError` before ffmpeg starts. */
  function FadeRun(t: Tools, infile: Path, outfile: Path, fadeInMs: Value, fadeOutMs: Value,
                   fromEnd: Value, startSec: Value, codec: Value): Run
  {
    var dur := t.probe(PathText(infile));
    if dur.None? then Run(false, [])
    else
      var timing := ResolveTiming(dur.value, fadeInMs, fadeOutMs, fromEnd, startSec);
      if timing.None? then Run(false, [])
      else if !codec.VStr? && !SuffixPicksCodec(outfile.suffix) then Run(false, [])
      else
        var tm := timing.value;
        var cmd := FadeCommand(infile, outfile, tm.fin, tm.fout, Show(tm.shown, t.fmt), Show(codec, t.fmt), t.fmt.float);
        Run(Succeeded(t.exec(cmd)), [Ran(Fade, cmd)])
  }

  /** `fade_file`: probe the duration, resolve the timing, build the filter list
      by appending, pick the codec, run ffmpeg once. */
  method FadeFile(m: Machine, infile: Path, outfile: Path, fadeInMs: Value, fadeOutMs: Value,
                  fromEnd: Value, startSec: Value, codec: Value) returns (completed: bool)
    modifies m
    ensures m.dirs == old(m.dirs)
    ensures var r := FadeRun(m.tools, infile, outfile, fadeInMs, fadeOutMs, fromEnd, startSec, codec);
            completed == r.completed && m.log == old(m.log) + r.log
  {
    var probed := m.tools.probe(PathText(infile));
    if probed.None? {
      return false;
    }
    var dur := probed.value;
    var inMs := AsNumber(fadeInMs);
    var outMs := AsNumber(fadeOutMs);
    if inMs.None? || outMs.None? {
      return false;
    }
    var fin := Max0(inMs.value / 1000.0);
    var fout := Max0(outMs.value / 1000.0);
    var stOut: real;
    var shown: Value;
    if !fromEnd.VNull? {
      var f := AsNumber(fromEnd);
      if f.None? {
        return false;
      }
      stOut := Max0(dur - f.value);
      shown := VFloat(stOut);
    } else if !startSec.VNull? {
      var s := AsNumber(startSec);
      if s.None? {
        return false;
      }
      stOut := Max0(s.value);
      shown := if s.value >= 0.0 then startSec else VFloat(stOut);
    } else {
      stOut := Max0(dur - fout);
      shown := VFloat(stOut);
    }
    assert ResolveTiming(dur, fadeInMs, fadeOutMs, fromEnd, startSec) == Some(FadeTiming(fin, fout, stOut, shown));
    if !codec.VStr? && !SuffixPicksCodec(outfile.suffix) {
      return false;
    }
    var cmd := FadeArgs(infile, outfile, fin, fout, Show(shown, m.tools.fmt), Show(codec, m.tools.fmt), m.tools.fmt.float);
    var r := m.Invoke(Fade, cmd);
    completed := Succeeded(r);
  }

  /** `fade_file` starts ffmpeg exactly when the probe succeeds, the fade
      options are numbers and the codec is text or replaced by the extension;
      it then returns normally exactly when that process exits with 0.
      Otherwise it raises after the probe, with no ffmpeg process started. */
  lemma FadeRunMeaning(t: Tools, infile: Path, outfile: Path, fadeInMs: Value, fadeOutMs: Value,
                       fromEnd: Value, startSec: Value, codec: Value)
    ensures var r := FadeRun(t, infile, outfile, fadeInMs, fadeOutMs, fromEnd, startSec, codec);
            var dur := t.probe(PathText(infile));
            var starts := dur.Some? && ResolveTiming(dur.value, fadeInMs, fadeOutMs, fromEnd, startSec).Some?
                          && (codec.VStr? || SuffixPicksCodec(outfile.suffix));
            && (!starts ==> r == Run(false, []))
            && (starts ==> |r.log| == 1 && r.log[0].Ran? && r.log[0].purpose == Fade
                           && r.completed == Succeeded(t.exec(r.log[0].cmd)))
    ensures var r := FadeRun(t, infile, outfile, fadeInMs, fadeOutMs, fromEnd, startSec, codec);
            r.log != [] ==>
              var cmd := r.log[0].cmd;
              && |cmd| == 10 && cmd[9] == PathText(outfile) && cmd[3] == PathText(infile)
              && (codec.VStr? ==> cmd[8] == OutputCodec(outfile.suffix, codec.s))
              && (!codec.VStr? ==> SuffixPicksCodec(outfile.suffix) && cmd[8] == OutputCodec(outfile.suffix, Show(codec, t.fmt)))
              && var tm := ResolveTiming(t.probe(PathText(infile)).value, fadeInMs, fadeOutMs, fromEnd, startSec).value;
                 cmd[6] == FilterArg(FadeFilters(tm.fin, tm.fout, Show(tm.shown, t.fmt), t.fmt.float))
  {
  }

  /** The command-line half of `fade_file`: the filter list built by
      appending, joined (or "anull"), and the codec picked by the suffix. */
  method FadeArgs(infile: Path, outfile: Path, fin: real, fout: real, st: string, codec: string,
                  render: real -> string) returns (cmd: seq<string>)
    ensures cmd == FadeCommand(infile, outfile, fin, fout, st, codec, render)
  {
    var filters: seq<string> := [];
    if fin > 0.0 {
      filters := filters + ["afade=t=in:st=0:d=" + render(fin)];
    }
    if fout > 0.0 {
      filters := filters + ["afade=t=out:st=" + st + ":d=" + render(fout)];
    }
    assert filters == FadeFilters(fin, fout, st, render);
    var af := if filters == [] then "anull" else Join(",", filters);

    var c := codec;
    var ext := Lower(outfile.suffix);
    if ext == ".wav" {
      c := "pcm_s16le";
    } else if ext == ".mp3" {
      c := "libmp3lame";
    } else if ext == ".m4a" || ext == ".aac" {
      c := "aac";
    }
    cmd := ["ffmpeg", "-y", "-i", PathText(infile), "-vn", "-af", af, "-c:a", c, PathText(outfile)];
  }

  // ---------------------------------------------------------------- crossfade

  /** The label of node i's output, `[a<i>]`. */
  function Label(i: nat): string
  {
    "[a" + NatText(i) + "]"
  }

  /** The left input of node i: the first stream for node 1, otherwise the
      previous node's output. */
  function NodeInput(i: nat): string
    requires i >= 1
  {
    if i == 1 then "[0:a]" else Label(i - 1)
  }

  /** Node i (1-based) merges its left input with stream i. */
  function Node(i: nat, d: string, c1: string, c2: string): string
    requires i >= 1
  {
    NodeInput(i) + "[" + NatText(i) + ":a]acrossfade=d=" + d + ":c1=" + c1 + ":c2=" + c2 + Label(i)
  }

  /** The n-1 nodes for n inputs, node 1 first. */
  function Chain(n: nat, d: string, c1: string, c2: string): (nodes: seq<string>)
    requires n >= 2
  {
    seq(n - 1, k requires 0 <= k < n - 1 => Node(k + 1, d, c1, c2))
  }

  /** `-i <path>` for every input, in input order. */
  function InputArgs(inputs: seq<Path>): (args: seq<string>)
    ensures |args| == 2 * |inputs|
    ensures forall i :: 0 <= i < |inputs| ==> args[2 * i] == "-i" && args[2 * i + 1] == PathText(inputs[i])
  {
    if inputs == [] then []
    else InputArgs(inputs[..|inputs| - 1]) + ["-i", PathText(inputs[|inputs| - 1])]
  }

  /** The ffmpeg command line `crossfade_sequence` runs. */
  function CrossfadeCommand(inputs: seq<Path>, outfile: Path, d: string, c1: string, c2: string, codec: string): seq<string>
    requires |inputs| >= 2
  {
    ["ffmpeg", "-y"] + InputArgs(inputs)
      + ["-filter_complex", Join(";", Chain(|inputs|, d, c1, c2)),
         "-map", Label(|inputs| - 1), "-c:a", codec, PathText(outfile)]
  }

  /** The first node mixes the first two streams into `[a1]`. */
  lemma FirstNode(d: string, c1: string, c2: string)
    ensures Node(1, d, c1, c2) == "[0:a][1:a]acrossfade=d=" + d + ":c1=" + c1 + ":c2=" + c2 + "[a1]"
  {
    assert NatText(1) == "1";
    var tail := d + ":c1=" + c1 + ":c2=" + c2;
    calc {
      Node(1, d, c1, c2);
      "[0:a]" + "[" + "1" + ":a]acrossfade=d=" + d + ":c1=" + c1 + ":c2=" + c2 + ("[a" + "1" + "]");
      { assert "[0:a]" + "[" + "1" + ":a]acrossfade=d=" == "[0:a][1:a]acrossfade=d=";
        assert "[a" + "1" + "]" == "[a1]"; }
      "[0:a][1:a]acrossfade=d=" + d + ":c1=" + c1 + ":c2=" + c2 + "[a1]";
    }
  }

  /** The chain is linked: each node's left input is the label the node before
      it produces, every node uses the same overlap and curves, and node i takes
      stream i as its right input. */
  lemma ChainLinked(n: nat, d: string, c1: string, c2: string)
    requires n >= 2
    ensures |Chain(n, d, c1, c2)| == n - 1
    ensures Chain(n, d, c1, c2)[0] == "[0:a][1:a]acrossfade=d=" + d + ":c1=" + c1 + ":c2=" + c2 + "[a1]"
    ensures forall k :: 1 <= k < n - 1 ==>
              Chain(n, d, c1, c2)[k] == Label(k) + "[" + NatText(k + 1) + ":a]acrossfade=d=" + d + ":c1=" + c1 + ":c2=" + c2 + Label(k + 1)
  {
    FirstNode(d, c1, c2);
    forall k | 1 <= k < n - 1
      ensures Chain(n, d, c1, c2)[k] == Label(k) + "[" + NatText(k + 1) + ":a]acrossfade=d=" + d + ":c1=" + c1 + ":c2=" + c2 + Label(k + 1)
    {
      assert Chain(n, d, c1, c2)[k] == Node(k + 1, d, c1, c2);
    }
  }

  /** The crossfade command: one `-i` per input in input order, then the node
      graph, a map of the last node's label, the codec and the output last. */
  lemma CrossfadeCommandShape(inputs: seq<Path>, outfile: Path, d: string, c1: string, c2: string, codec: string)
    requires |inputs| >= 2
    ensures var args := CrossfadeCommand(inputs, outfile, d, c1, c2, codec);
            var n := |inputs|;
            && |args| == 2 * n + 9
            && args[..2] == ["ffmpeg", "-y"]
            && (forall i :: 0 <= i < n ==> args[2 + 2 * i] == "-i" && args[3 + 2 * i] == PathText(inputs[i]))
            && args[2 * n + 2 ..] == ["-filter_complex", Join(";", Chain(n, d, c1, c2)),
                                      "-map", Label(n - 1), "-c:a", codec, PathText(outfile)]
  {
    var args := CrossfadeCommand(inputs, outfile, d, c1, c2, codec);
    var n := |inputs|;
    var ia := InputArgs(inputs);
    forall i | 0 <= i < n
      ensures args[2 + 2 * i] == "-i" && args[3 + 2 * i] == PathText(inputs[i])
    {
      assert args[2 + 2 * i] == ia[2 * i];
      assert args[3 + 2 * i] == ia[2 * i + 1];
    }
  }

  /** The node graph loop of `crossfade_sequence`: node i takes the previous
      label and stream i, and the last label produced is that of node n-1. */
  method CrossfadeChain(n: nat, d: string, c1: string, c2: string) returns (chains: seq<string>, prev: string)
    requires n >= 2
    ensures chains == Chain(n, d, c1, c2) && prev == Label(n - 1)
  {
    chains := [];
    prev := "[0:a]";
    var i := 1;
    while i < n
      invariant 1 <= i <= n
      invariant chains == Chain(n, d, c1, c2)[..i - 1]
      invariant prev == NodeInput(i)
    {
      var out := "[a" + NatText(i) + "]";
      var node := prev + "[" + NatText(i) + ":a]acrossfade=d=" + d + ":c1=" + c1 + ":c2=" + c2 + out;
      assert node == Node(i, d, c1, c2);
      ChainPrefixStep(n, i, d, c1, c2);
      chains := chains + [node];
      prev := out;
      i := i + 1;
    }
    assert Chain(n, d, c1, c2)[..n - 1] == Chain(n, d, c1, c2);
  }

  /** The first i nodes are the first i-1 followed by node i. */
  lemma ChainPrefixStep(n: nat, i: nat, d: string, c1: string, c2: string)
    requires 1 <= i < n
    ensures Chain(n, d, c1, c2)[..i] == Chain(n, d, c1, c2)[..i - 1] + [Node(i, d, c1, c2)]
  {
    var c := Chain(n, d, c1, c2);
    assert c[i - 1] == Node(i, d, c1, c2);
    assert c[..i] == c[..i - 1] + [c[i - 1]];
  }

  /** The arguments of `crossfade_sequence` for n >= 2 inputs: one `-i` per
      input in order, the n-1 node graph, and a map of the last label. */
  method CrossfadeArgs(inputs: seq<Path>, outfile: Path, d: string, c1: string, c2: string, codec: string)
    returns (args: seq<string>)
    requires |inputs| >= 2
    ensures args == CrossfadeCommand(inputs, outfile, d, c1, c2, codec)
  {
    args := ["ffmpeg", "-y"];
    var j := 0;
    while j < |inputs|
      invariant 0 <= j <= |inputs|
      invariant args == ["ffmpeg", "-y"] + InputArgs(inputs[..j])
    {
      assert inputs[..j + 1][..j] == inputs[..j];
      args := args + ["-i", PathText(inputs[j])];
      j := j + 1;
    }
    assert inputs[..|inputs|] == inputs;
    var chains, prev := CrossfadeChain(|inputs|, d, c1, c2);
    var filterComplex := Join(";", chains);
    args := args + ["-filter_complex", filterComplex, "-map", prev, "-c:a", codec, PathText(outfile)];
  }

  /** `crossfade_sequence`: refuses fewer than two inputs before building any
      argument or starting any process, otherwise runs ffmpeg once with the
      whole graph. The overlap and curves are formatted into the graph text;
      a codec that is not text makes `run` raise `TypeError` before ffmpeg
      starts. */
  method CrossfadeSequence(m: Machine, inputs: seq<Path>, outfile: Path, overlap: Value,
                           curve1: Value, curve2: Value, codec: Value) returns (completed: bool)
    modifies m
    ensures m.dirs == old(m.dirs)
    ensures |inputs| < 2 || !codec.VStr? ==> !completed && m.log == old(m.log)
    ensures |inputs| >= 2 && codec.VStr? ==>
              var cmd := CrossfadeCommand(inputs, outfile, Show(overlap, m.tools.fmt), Show(curve1, m.tools.fmt),
                                          Show(curve2, m.tools.fmt), codec.s);
              m.log == old(m.log) + [Ran(Crossfade, cmd)] && completed == Succeeded(m.tools.exec(cmd))
  {
    if |inputs| < 2 {
      return false;
    }
    if !codec.VStr? {
      return false;
    }
    var fmt := m.tools.fmt;
    var args := CrossfadeArgs(inputs, outfile, Show(overlap, fmt), Show(curve1, fmt), Show(curve2, fmt), codec.s);
    var r := m.Invoke(Crossfade, args);
    completed := Succeeded(r);
  }
}
