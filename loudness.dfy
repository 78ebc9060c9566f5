/** Loudness measurement and normalisation (audioops/loudsync_legacy.py; main.py
    holds near-identical copies): the scanner that pulls the `{ ... }` block out
    of ffmpeg's diagnostic text, the status record built from the parse, and
    the two-pass `loudnorm` protocol with its single fallback to one pass. */
module Loudness {
  import opened Text
  import opened Values
  import opened Host

  // ------------------------------------------------------------ block scanner

  /** The first index at or after `from` whose line contains `ch`, or `|lines|`. */
  function FirstWith(lines: seq<string>, from: nat, ch: char): (k: nat)
    requires from <= |lines|
    ensures from <= k <= |lines|
    ensures forall j :: from <= j < k ==> ch !in lines[j]
    ensures k < |lines| ==> ch in lines[k]
    decreases |lines| - from
  {
    if from == |lines| then from
    else if ch in lines[from] then from
    else FirstWith(lines, from + 1, ch)
  }

  /** The lines the scanner collects: from the first line holding "{" through
      the first line from there on holding "}" (possibly the same line), or to
      the end when none does; nothing when no line holds "{". */
  function BlockLines(lines: seq<string>): (block: seq<string>)
    ensures var k := FirstWith(lines, 0, '{');
            && k + |block| <= |lines|
            && block == lines[k .. k + |block|]
            && (block == [] <==> k == |lines|)
            && (block != [] && k + |block| < |lines| ==> '}' in block[|block| - 1])
    ensures block == [] <==> forall j :: 0 <= j < |lines| ==> '{' !in lines[j]
    ensures block != [] ==> '{' in block[0]
    ensures forall j :: 0 <= j < |block| - 1 ==> '}' !in block[j]
  {
    var k := FirstWith(lines, 0, '{');
    if k == |lines| then []
    else
      var e := FirstWith(lines, k, '}');
      if e == |lines| then lines[k..] else lines[k .. e + 1]
  }

  /** The text handed to the JSON parser: the collected lines joined by "\n". */
  function BlockText(stderr: string): string
  {
    Join("\n", BlockLines(Split(stderr, '\n')))
  }

  /** The scanner of `measure_loudness`: a `json_started` flag and a growing
      list of lines, stopping after the first collected line holding "}". */
  method ExtractBlock(stderr: string) returns (text: string)
    ensures text == BlockText(stderr)
  {
    var jsonLines := CollectBlock(Split(stderr, '\n'));
    text := Join("\n", jsonLines);
  }

  /** The scanning loop itself, over the lines of the text. */
  method CollectBlock(lines: seq<string>) returns (jsonLines: seq<string>)
    ensures jsonLines == BlockLines(lines)
  {
    var started := false;
    jsonLines := [];
    ghost var k := FirstWith(lines, 0, '{');
    var i := 0;
    while i < |lines|
      invariant 0 <= i <= |lines|
      invariant !started ==> i <= k && jsonLines == []
      invariant started ==> k < i && jsonLines == lines[k..i]
      invariant started ==> forall j :: k <= j < i ==> '}' !in lines[j]
    {
      var line := lines[i];
      if '{' in line && !started {
        started := true;
        assert k == i;
      }
      if started {
        jsonLines := jsonLines + [line];
        assert jsonLines == lines[k .. i + 1];
        if '}' in line {
          assert FirstWith(lines, k, '}') == i by {
            FirstWithIsLeast(lines, k, '}', i);
          }
          assert jsonLines == BlockLines(lines);
          break;
        }
      }
      i := i + 1;
    }
    if i == |lines| {
      if started {
        FirstWithNone(lines, k, '}');
      }
      assert jsonLines == BlockLines(lines);
    }
  }

  /** An index holding `ch` with none before it back to `from` is the one found. */
  lemma {:induction false} FirstWithIsLeast(lines: seq<string>, from: nat, ch: char, i: nat)
    requires from <= i < |lines|
    requires ch in lines[i]
    requires forall j :: from <= j < i ==> ch !in lines[j]
    ensures FirstWith(lines, from, ch) == i
    decreases i - from
  {
    if from < i {
      FirstWithIsLeast(lines, from + 1, ch, i);
    }
  }

  /** With no line holding `ch` from `from` on, none is found. */
  lemma {:induction false} FirstWithNone(lines: seq<string>, from: nat, ch: char)
    requires from <= |lines|
    requires forall j :: from <= j < |lines| ==> ch !in lines[j]
    ensures FirstWith(lines, from, ch) == |lines|
    decreases |lines| - from
  {
    if from < |lines| {
      FirstWithNone(lines, from + 1, ch);
    }
  }

  // ------------------------------------------------------------ measurement

  /** The `status` field: "OK", "JSON_ERROR: ..." or "FFMPEG_ERROR: ...". The
      text after a JSON_ERROR prefix is Python's exception message and is not
      modelled. */
  datatype Status = StatusOk | JsonError | FfmpegError(message: string)

  /** The record `measure_loudness` returns. */
  datatype Measurement = Measurement(
    file: string,
    integrated: Option<real>,
    range: Option<real>,
    truePeak: Option<real>,
    status: Status,
    raw: Option<Value>)

  /** A measurement, or an exception that escapes `measure_loudness` (an
      `OSError` from starting the process, or a `TypeError`/`AttributeError`
      from the parsed value, none of which it catches). */
  datatype MeasureOutcome = Measured(m: Measurement) | MeasureRaised

  /** The failure shape: every numeric field and the raw data are `None`. */
  function Failure(file: string, status: Status): Measurement
  {
    Measurement(file, None, None, None, status, None)
  }

  /** The value of `float(fields.get(key, 0))`. */
  function Field(fields: map<string, Value>, key: string, t: Tools): Conversion
  {
    AsFloat(Get(fields, key, VInt(0)), t.parseFloat)
  }

  /** The outcome of a conversion that did not produce a number: `ValueError`
      is caught and reported as JSON_ERROR, `TypeError` escapes. */
  function ConversionFailure(file: string, c: Conversion): MeasureOutcome
    requires !c.Converted?
  {
    if c.ValueFailure? then Measured(Failure(file, JsonError)) else MeasureRaised
  }

  /** What `measure_loudness` makes of the analysis run. Its exit code is
      ignored; only the diagnostic text matters. */
  function ReadMeasurement(file: string, r: ExecResult, t: Tools): (o: MeasureOutcome)
    ensures WellRead(o)
  {
    match r
    case SpawnFailed(_) => MeasureRaised
    case SubprocessFailed(message) => Measured(Failure(file, FfmpegError(message)))
    case Exited(_, stderr) => ReadReport(file, t.parseJson(BlockText(stderr)), t)
  }

  /** The record built from the parse of the collected block. */
  function ReadReport(file: string, parsed: Option<Value>, t: Tools): (o: MeasureOutcome)
    ensures WellRead(o)
  {
    if parsed.None? then Measured(Failure(file, JsonError))
    else if !parsed.value.VObject? then MeasureRaised
    else
      var fields := parsed.value.fields;
      var i := Field(fields, "input_i", t);
      var lra := Field(fields, "input_lra", t);
      var tp := Field(fields, "input_tp", t);
      if !i.Converted? then ConversionFailure(file, i)
      else if !lra.Converted? then ConversionFailure(file, lra)
      else if !tp.Converted? then ConversionFailure(file, tp)
      else Measured(Measurement(file, Some(i.x), Some(lra.x), Some(tp.x), StatusOk, parsed))
  }

  /** A successful reading comes from a process that ran, carries the parsed
      block and the three numbers converted from it; a failed one carries no
      data; a process error is reported as FFMPEG_ERROR, a failure to start
      it escapes, and text that does not parse is a JSON_ERROR. */
  lemma ReadMeasurementMeaning(file: string, r: ExecResult, t: Tools)
    ensures var o := ReadMeasurement(file, r, t);
            && (o.Measured? ==> o.m.file == file)
            && (o.Measured? && o.m.status == StatusOk ==>
                  && r.Exited?
                  && o.m.raw == t.parseJson(BlockText(r.stderr))
                  && o.m.integrated.Some? && o.m.range.Some? && o.m.truePeak.Some?
                  && Field(o.m.raw.value.fields, "input_i", t) == Converted(o.m.integrated.value)
                  && Field(o.m.raw.value.fields, "input_lra", t) == Converted(o.m.range.value)
                  && Field(o.m.raw.value.fields, "input_tp", t) == Converted(o.m.truePeak.value))
            && (o.Measured? && o.m.status != StatusOk ==> o.m == Failure(file, o.m.status))
            && (o.Measured? && o.m.status.FfmpegError? <==> r.SubprocessFailed?)
            && (r.SpawnFailed? ==> o.MeasureRaised?)
            && (r.Exited? && t.parseJson(BlockText(r.stderr)).None? ==> o == Measured(Failure(file, JsonError)))
  {
  }

  /** A key the parsed block lacks reads as 0. */
  lemma MissingKeysReadAsZero(file: string, r: ExecResult, t: Tools)
    requires ReadMeasurement(file, r, t).Measured?
    requires ReadMeasurement(file, r, t).m.status == StatusOk
    requires "input_i" !in ReadMeasurement(file, r, t).m.raw.value.fields
    ensures ReadMeasurement(file, r, t).m.integrated == Some(0.0)
  {
  }

  /** The analysis command line: null output, JSON report. */
  function MeasureCommand(ffmpeg: string, file: string, ti: Value, ttp: Value, fmt: Formats): seq<string>
  {
    [ffmpeg, "-hide_banner", "-nostats", "-i", file,
     "-af", "loudnorm=I=" + Show(ti, fmt) + ":TP=" + Show(ttp, fmt) + ":LRA=11:print_format=json",
     "-f", "null", "-"]
  }

  /** `measure_loudness`: run the analysis once, scan its stderr, parse. */
  method MeasureLoudness(m: Machine, file: string, ffmpeg: string, ti: Value, ttp: Value)
    returns (o: MeasureOutcome)
    modifies m
    ensures m.dirs == old(m.dirs)
    ensures var cmd := MeasureCommand(ffmpeg, file, ti, ttp, m.tools.fmt);
            o == ReadMeasurement(file, m.tools.exec(cmd), m.tools) && m.log == old(m.log) + [Ran(Measure, cmd)]
  {
    var cmd := [ffmpeg, "-hide_banner", "-nostats", "-i", file,
                "-af", "loudnorm=I=" + Show(ti, m.tools.fmt) + ":TP=" + Show(ttp, m.tools.fmt) + ":LRA=11:print_format=json",
                "-f", "null", "-"];
    var r := m.Invoke(Measure, cmd);
    match r {
      case SpawnFailed(_) =>
        o := MeasureRaised;
      case SubprocessFailed(message) =>
        o := Measured(Failure(file, FfmpegError(message)));
      case Exited(_, stderr) =>
        var text := ExtractBlock(stderr);
        o := ReadReport(file, m.tools.parseJson(text), m.tools);
    }
  }

  // ------------------------------------------------------------ normalisation

  /** Codec arguments per output format, compared in lower case. */
  function CodecArgs(format: string): seq<string>
  {
    var f := Lower(format);
    if f == "wav" then ["-c:a", "pcm_s16le"]
    else if f == "mp3" then ["-c:a", "libmp3lame", "-q:a", "2"]
    else if f == "m4a" then ["-c:a", "aac", "-b:a", "128k"]
    else []
  }

  /** The codec table ignores the case of the format. */
  lemma CodecArgsIgnoreCase(format: string)
    ensures CodecArgs(Lower(format)) == CodecArgs(format)
  {
    LowerIdempotent(format);
  }

  /** The one-pass filter: only the targets, with the fixed range target 11 LU. */
  function OnePassFilter(ti: Value, ttp: Value, fmt: Formats): string
  {
    "loudnorm=I=" + Show(ti, fmt) + ":TP=" + Show(ttp, fmt) + ":LRA=11"
  }

  /** Whether the measured block holds every key the second pass reads. */
  predicate HasMeasuredKeys(fields: map<string, Value>)
  {
    && "input_i" in fields && "input_tp" in fields && "input_lra" in fields
    && "input_thresh" in fields && "target_offset" in fields
  }

  /** What the second pass adds to the one-pass filter: the measured values,
      a linear gain and a summary report. */
  function MeasuredTail(fields: map<string, Value>, fmt: Formats): string
    requires HasMeasuredKeys(fields)
  {
    ":measured_I=" + Show(fields["input_i"], fmt)
    + ":measured_TP=" + Show(fields["input_tp"], fmt)
    + ":measured_LRA=" + Show(fields["input_lra"], fmt)
    + ":measured_thresh=" + Show(fields["input_thresh"], fmt)
    + ":offset=" + Show(fields["target_offset"], fmt)
    + ":linear=true:print_format=summary"
  }

  /** The second-pass filter: the one-pass targets, then the measured tail. */
  function SecondPassFilter(ti: Value, ttp: Value, fields: map<string, Value>, fmt: Formats): string
    requires HasMeasuredKeys(fields)
  {
    OnePassFilter(ti, ttp, fmt) + MeasuredTail(fields, fmt)
  }

  /** The second-pass filter keeps the one-pass targets as its prefix and adds
      exactly the measured tail. */
  lemma SecondPassExtendsOnePass(ti: Value, ttp: Value, fields: map<string, Value>, fmt: Formats)
    requires HasMeasuredKeys(fields)
    ensures var f := SecondPassFilter(ti, ttp, fields, fmt);
            OnePassFilter(ti, ttp, fmt) <= f && f[|OnePassFilter(ti, ttp, fmt)|..] == MeasuredTail(fields, fmt)
  {
  }

  /** A normalisation command line: overwrite, the filter, the sample rate,
      the codec arguments, and the output path last. */
  function NormalizeCommand(ffmpeg: string, input: string, output: string, filter: string,
                            sampleRate: Value, format: string, fmt: Formats): seq<string>
  {
    [ffmpeg, "-hide_banner", "-y", "-i", input, "-af", filter, "-ar", Show(sampleRate, fmt)]
      + CodecArgs(format) + [output]
  }

  /** Both passes overwrite (`-y`), always give the sample rate, put the codec
      arguments of the format after it and the output path last. */
  lemma NormalizeCommandShape(ffmpeg: string, input: string, output: string, filter: string,
                              sampleRate: Value, format: string, fmt: Formats)
    ensures var cmd := NormalizeCommand(ffmpeg, input, output, filter, sampleRate, format, fmt);
            && |cmd| >= 10 && cmd[0] == ffmpeg && cmd[2] == "-y" && cmd[4] == input && cmd[6] == filter
            && cmd[7] == "-ar" && cmd[8] == Show(sampleRate, fmt)
            && cmd[9 .. |cmd| - 1] == CodecArgs(format)
            && cmd[|cmd| - 1] == output
  {
  }

  /** One-pass normalisation with a known ffmpeg: a single run, true iff it
      exits with code 0. */
  function OnePassRun(t: Tools, ffmpeg: string, input: string, output: string, ti: Value, ttp: Value,
                      sampleRate: Value, format: string): Run
  {
    var cmd := NormalizeCommand(ffmpeg, input, output, OnePassFilter(ti, ttp, t.fmt), sampleRate, format, t.fmt);
    Run(Succeeded(t.exec(cmd)), [Ran(Normalize, cmd)])
  }

  /** Whether a measurement is usable for the second pass: status OK and a
      non-empty parsed block. */
  predicate Usable(o: MeasureOutcome)
  {
    o.Measured? && o.m.status == StatusOk && o.m.raw.Some? && Truthy(o.m.raw.value)
  }

  /** The second pass with a usable measurement: it fails without a run when
      the block lacks a key it reads, and otherwise runs once. */
  function SecondPassRun(t: Tools, ffmpeg: string, input: string, output: string, ti: Value, ttp: Value,
                         sampleRate: Value, format: string, fields: map<string, Value>): Run
  {
    if !HasMeasuredKeys(fields) then Run(false, [])
    else
      var cmd := NormalizeCommand(ffmpeg, input, output, SecondPassFilter(ti, ttp, fields, t.fmt), sampleRate, format, t.fmt);
      Run(Succeeded(t.exec(cmd)), [Ran(Normalize, cmd)])
  }

  /** The requirement every outcome of `ReadMeasurement` meets: a reading
      with status OK carries a parsed JSON object. */
  predicate WellRead(mo: MeasureOutcome)
  {
    mo.Measured? && mo.m.status == StatusOk ==> mo.m.raw.Some? && mo.m.raw.value.VObject?
  }

  /** What `normalize_audio` does after the measurement: nothing more when it
      raised, the second pass when it is usable, the one-pass fallback
      otherwise. */
  function AfterMeasurement(t: Tools, ffmpeg: string, input: string, output: string, ti: Value, ttp: Value,
                            sampleRate: Value, format: string, mo: MeasureOutcome): Run
    requires WellRead(mo)
  {
    if mo.MeasureRaised? then Run(false, [])
    else if Usable(mo) then SecondPassRun(t, ffmpeg, input, output, ti, ttp, sampleRate, format, mo.m.raw.value.fields)
    else OnePassRun(t, ffmpeg, input, output, ti, ttp, sampleRate, format)
  }

  /** The ffmpeg `normalize_audio` uses: the one passed in, else `find_ffmpeg()`. */
  function ResolveFfmpeg(t: Tools, ffmpeg: Option<string>): Option<string>
  {
    if ffmpeg.Some? then ffmpeg else t.ffmpeg
  }

  /** `normalize_audio` with `two_pass` false: a single run, or false with no
      run when no ffmpeg is found. */
  function OnePassRequest(t: Tools, input: string, output: string, ti: Value, ttp: Value,
                          sampleRate: Value, format: string, ffmpeg: Option<string>): Run
  {
    var tool := ResolveFfmpeg(t, ffmpeg);
    if tool.None? then Run(false, [])
    else OnePassRun(t, tool.value, input, output, ti, ttp, sampleRate, format)
  }

  /** The two-pass protocol with a known ffmpeg: one measurement, then the
      second pass or the one-pass fallback. */
  function MeasuredRun(t: Tools, ffmpeg: string, input: string, output: string, ti: Value, ttp: Value,
                       sampleRate: Value, format: string): Run
  {
    var mcmd := MeasureCommand(ffmpeg, input, ti, ttp, t.fmt);
    var rest := AfterMeasurement(t, ffmpeg, input, output, ti, ttp, sampleRate, format,
                                 ReadMeasurement(input, t.exec(mcmd), t));
    Run(rest.completed, [Ran(Measure, mcmd)] + rest.log)
  }

  /** `normalize_audio` with `two_pass` true. */
  function TwoPassRequest(t: Tools, input: string, output: string, ti: Value, ttp: Value,
                          sampleRate: Value, format: string, ffmpeg: Option<string>): Run
  {
    var tool := ResolveFfmpeg(t, ffmpeg);
    if tool.None? then Run(false, [])
    else MeasuredRun(t, tool.value, input, output, ti, ttp, sampleRate, format)
  }

  /** What `normalize_audio` does, stated without recursion: at most one
      measurement, then either the second pass or the one-pass fallback. */
  function NormalizeRun(t: Tools, input: string, output: string, ti: Value, ttp: Value,
                        sampleRate: Value, format: string, twoPass: bool, ffmpeg: Option<string>): Run
  {
    if twoPass then TwoPassRequest(t, input, output, ti, ttp, sampleRate, format, ffmpeg)
    else OnePassRequest(t, input, output, ti, ttp, sampleRate, format, ffmpeg)
  }

  /** A single normalisation attempt: at most one run, a normalisation, and
      completed only when it ran, exited with code 0 and wrote `output`. */
  predicate SinglePass(r: Run, t: Tools, output: string)
  {
    && |r.log| <= 1
    && (forall i :: 0 <= i < |r.log| ==> r.log[i].Ran? && r.log[i].purpose == Normalize)
    && (r.completed ==>
          && |r.log| == 1 && Succeeded(t.exec(r.log[0].cmd))
          && |r.log[0].cmd| >= 10 && r.log[0].cmd[|r.log[0].cmd| - 1] == output)
  }

  /** The one-pass run and the second pass are each a single attempt. */
  lemma PassesAreSingle(t: Tools, ffmpeg: string, input: string, output: string, ti: Value, ttp: Value,
                        sampleRate: Value, format: string, fields: map<string, Value>)
    ensures SinglePass(OnePassRun(t, ffmpeg, input, output, ti, ttp, sampleRate, format), t, output)
    ensures SinglePass(SecondPassRun(t, ffmpeg, input, output, ti, ttp, sampleRate, format, fields), t, output)
  {
    NormalizeCommandShape(ffmpeg, input, output, OnePassFilter(ti, ttp, t.fmt), sampleRate, format, t.fmt);
    if HasMeasuredKeys(fields) {
      NormalizeCommandShape(ffmpeg, input, output, SecondPassFilter(ti, ttp, fields, t.fmt), sampleRate, format, t.fmt);
    }
  }

  /** The shape of a `normalize_audio` run: at most two processes, a
      measurement only first and only on a two-pass request, and true only
      when the last one, a normalisation writing `output`, exits with code 0. */
  predicate NormalizeShape(r: Run, t: Tools, output: string, twoPass: bool)
  {
    && |r.log| <= 2
    && (forall i :: 0 <= i < |r.log| ==> r.log[i].Ran?)
    && (forall i :: 1 <= i < |r.log| ==> r.log[i].purpose == Normalize)
    && (!twoPass ==> forall i :: 0 <= i < |r.log| ==> r.log[i].purpose == Normalize)
    && (r.completed ==>
          && |r.log| >= 1 && r.log[|r.log| - 1].purpose == Normalize
          && Succeeded(t.exec(r.log[|r.log| - 1].cmd))
          && |r.log[|r.log| - 1].cmd| >= 10
          && r.log[|r.log| - 1].cmd[|r.log[|r.log| - 1].cmd| - 1] == output)
  }

  /** A measurement followed by a single attempt has the shape of a two-pass run. */
  lemma MeasureThenPass(t: Tools, output: string, mcmd: seq<string>, rest: Run)
    requires SinglePass(rest, t, output)
    ensures NormalizeShape(Run(rest.completed, [Ran(Measure, mcmd)] + rest.log), t, output, true)
  {
    var log := [Ran(Measure, mcmd)] + rest.log;
    assert forall i :: 1 <= i < |log| ==> log[i] == rest.log[i - 1];
  }

  /** Whatever follows the measurement is a single attempt at most. */
  lemma AfterMeasurementSingle(t: Tools, ffmpeg: string, input: string, output: string, ti: Value, ttp: Value,
                               sampleRate: Value, format: string, mo: MeasureOutcome)
    requires WellRead(mo)
    ensures SinglePass(AfterMeasurement(t, ffmpeg, input, output, ti, ttp, sampleRate, format, mo), t, output)
  {
    var fields := if Usable(mo) then mo.m.raw.value.fields else map[];
    PassesAreSingle(t, ffmpeg, input, output, ti, ttp, sampleRate, format, fields);
  }

  /** The two-pass protocol has the shape of a two-pass run. */
  lemma MeasuredRunShape(t: Tools, ffmpeg: string, input: string, output: string, ti: Value, ttp: Value,
                         sampleRate: Value, format: string)
    ensures NormalizeShape(MeasuredRun(t, ffmpeg, input, output, ti, ttp, sampleRate, format), t, output, true)
  {
    var mcmd := MeasureCommand(ffmpeg, input, ti, ttp, t.fmt);
    var mo := ReadMeasurement(input, t.exec(mcmd), t);
    AfterMeasurementSingle(t, ffmpeg, input, output, ti, ttp, sampleRate, format, mo);
    MeasureThenPass(t, output, mcmd, AfterMeasurement(t, ffmpeg, input, output, ti, ttp, sampleRate, format, mo));
  }

  /** A two-pass request has the shape of a two-pass run. */
  lemma TwoPassRequestShape(t: Tools, input: string, output: string, ti: Value, ttp: Value,
                            sampleRate: Value, format: string, ffmpeg: Option<string>)
    ensures NormalizeShape(TwoPassRequest(t, input, output, ti, ttp, sampleRate, format, ffmpeg), t, output, true)
  {
    var tool := ResolveFfmpeg(t, ffmpeg);
    if tool.Some? {
      MeasuredRunShape(t, tool.value, input, output, ti, ttp, sampleRate, format);
    }
  }

  /** A one-pass request is a single attempt. */
  lemma OnePassRequestShape(t: Tools, input: string, output: string, ti: Value, ttp: Value,
                            sampleRate: Value, format: string, ffmpeg: Option<string>)
    ensures SinglePass(OnePassRequest(t, input, output, ti, ttp, sampleRate, format, ffmpeg), t, output)
  {
    var tool := ResolveFfmpeg(t, ffmpeg);
    if tool.Some? {
      PassesAreSingle(t, tool.value, input, output, ti, ttp, sampleRate, format, map[]);
    }
  }

  /** Every `normalize_audio` run has that shape. */
  lemma NormalizeRunShape(t: Tools, input: string, output: string, ti: Value, ttp: Value,
                          sampleRate: Value, format: string, twoPass: bool, ffmpeg: Option<string>)
    ensures NormalizeShape(NormalizeRun(t, input, output, ti, ttp, sampleRate, format, twoPass, ffmpeg), t, output, twoPass)
  {
    if twoPass {
      TwoPassRequestShape(t, input, output, ti, ttp, sampleRate, format, ffmpeg);
    } else {
      OnePassRequestShape(t, input, output, ti, ttp, sampleRate, format, ffmpeg);
    }
  }

  /** A two-pass request whose measurement is unusable falls back exactly once:
      the measurement, then the one-pass command, and nothing else. */
  lemma FallbackExactlyOnce(t: Tools, input: string, output: string, ti: Value, ttp: Value,
                            sampleRate: Value, format: string, ffmpeg: string)
    requires var mcmd := MeasureCommand(ffmpeg, input, ti, ttp, t.fmt);
             var mo := ReadMeasurement(input, t.exec(mcmd), t);
             mo.Measured? && !Usable(mo)
    ensures var r := NormalizeRun(t, input, output, ti, ttp, sampleRate, format, true, Some(ffmpeg));
            r == Run(OnePassRun(t, ffmpeg, input, output, ti, ttp, sampleRate, format).completed,
                     [Ran(Measure, MeasureCommand(ffmpeg, input, ti, ttp, t.fmt)),
                      Ran(Normalize, NormalizeCommand(ffmpeg, input, output, OnePassFilter(ti, ttp, t.fmt), sampleRate, format, t.fmt))])
  {
  }

  /** A usable measurement lacking `input_thresh` or `target_offset` (or any
      other key the second pass reads) fails with no fallback. */
  lemma MissingMeasuredKeyFails(t: Tools, input: string, output: string, ti: Value, ttp: Value,
                                sampleRate: Value, format: string, ffmpeg: string)
    requires var mcmd := MeasureCommand(ffmpeg, input, ti, ttp, t.fmt);
             var mo := ReadMeasurement(input, t.exec(mcmd), t);
             Usable(mo) && !HasMeasuredKeys(mo.m.raw.value.fields)
    ensures NormalizeRun(t, input, output, ti, ttp, sampleRate, format, true, Some(ffmpeg))
              == Run(false, [Ran(Measure, MeasureCommand(ffmpeg, input, ti, ttp, t.fmt))])
  {
  }

  /** The final step of `normalize_audio`: build the command line for the
      chosen filter, with the codec arguments of the format, and run it. */
  method NormalizePass(m: Machine, ffmpeg: string, input: string, output: string, filter: string,
                       sampleRate: Value, format: string)
    returns (ok: bool)
    modifies m
    ensures m.dirs == old(m.dirs)
    ensures var cmd := NormalizeCommand(ffmpeg, input, output, filter, sampleRate, format, m.tools.fmt);
            ok == Succeeded(m.tools.exec(cmd)) && m.log == old(m.log) + [Ran(Normalize, cmd)]
  {
    var cmd := [ffmpeg, "-hide_banner", "-y", "-i", input, "-af", filter, "-ar", Show(sampleRate, m.tools.fmt)];
    var f := Lower(format);
    if f == "wav" {
      cmd := cmd + ["-c:a", "pcm_s16le"];
    } else if f == "mp3" {
      cmd := cmd + ["-c:a", "libmp3lame", "-q:a", "2"];
    } else if f == "m4a" {
      cmd := cmd + ["-c:a", "aac", "-b:a", "128k"];
    }
    cmd := cmd + [output];
    assert cmd == NormalizeCommand(ffmpeg, input, output, filter, sampleRate, format, m.tools.fmt);
    var r := m.Invoke(Normalize, cmd);
    ok := Succeeded(r);
  }

  /** The second pass of `normalize_audio` with a usable measurement: false
      without a run when the block lacks a key it reads. */
  method SecondPass(m: Machine, ffmpeg: string, input: string, output: string, ti: Value, ttp: Value,
                    sampleRate: Value, format: string, fields: map<string, Value>)
    returns (ok: bool)
    modifies m
    ensures m.dirs == old(m.dirs)
    ensures var r := SecondPassRun(m.tools, ffmpeg, input, output, ti, ttp, sampleRate, format, fields);
            ok == r.completed && m.log == old(m.log) + r.log
  {
    if !HasMeasuredKeys(fields) {
      return false;
    }
    ghost var cmd := NormalizeCommand(ffmpeg, input, output, SecondPassFilter(ti, ttp, fields, m.tools.fmt), sampleRate, format, m.tools.fmt);
    assert SecondPassRun(m.tools, ffmpeg, input, output, ti, ttp, sampleRate, format, fields)
        == Run(Succeeded(m.tools.exec(cmd)), [Ran(Normalize, cmd)]);
    ok := NormalizePass(m, ffmpeg, input, output, SecondPassFilter(ti, ttp, fields, m.tools.fmt), sampleRate, format);
  }

  /** The rest of `normalize_audio` after the measurement: give up when it
      raised, fall back to one pass by calling itself with `two_pass` false,
      or run the second pass when the block holds every key it reads. */
  method ContinueAfterMeasurement(m: Machine, ffmpeg: string, input: string, output: string, ti: Value, ttp: Value,
                                  sampleRate: Value, format: string, mo: MeasureOutcome)
    returns (ok: bool)
    requires WellRead(mo)
    modifies m
    decreases 1
    ensures m.dirs == old(m.dirs)
    ensures var r := AfterMeasurement(m.tools, ffmpeg, input, output, ti, ttp, sampleRate, format, mo);
            ok == r.completed && m.log == old(m.log) + r.log
  {
    if mo.MeasureRaised? {
      return false;
    }
    if mo.m.status != StatusOk || mo.m.raw.None? || !Truthy(mo.m.raw.value) {
      ok := NormalizeAudio(m, input, output, ti, ttp, sampleRate, format, false, Some(ffmpeg));
      return;
    }
    ok := SecondPass(m, ffmpeg, input, output, ti, ttp, sampleRate, format, mo.m.raw.value.fields);
  }

  /** Concatenation is associative (used to regroup effect logs). */
  lemma AppendAssoc<T>(a: seq<T>, b: seq<T>, c: seq<T>)
    ensures (a + b) + c == a + (b + c)
  {
  }

  /** The two-pass branch of `normalize_audio` once ffmpeg is known: measure,
      give up if the measurement raised, then continue. */
  method MeasureThenNormalize(m: Machine, ffmpeg: string, input: string, output: string, ti: Value, ttp: Value,
                              sampleRate: Value, format: string)
    returns (ok: bool)
    modifies m
    decreases 2
    ensures m.dirs == old(m.dirs)
    ensures var r := MeasuredRun(m.tools, ffmpeg, input, output, ti, ttp, sampleRate, format);
            ok == r.completed && m.log == old(m.log) + r.log
  {
    ghost var log0 := m.log;
    ghost var measured := [Ran(Measure, MeasureCommand(ffmpeg, input, ti, ttp, m.tools.fmt))];
    var mo := MeasureLoudness(m, input, ffmpeg, ti, ttp);
    ok := ContinueAfterMeasurement(m, ffmpeg, input, output, ti, ttp, sampleRate, format, mo);
    ghost var rest := AfterMeasurement(m.tools, ffmpeg, input, output, ti, ttp, sampleRate, format, mo);
    AppendAssoc(log0, measured, rest.log);
  }

  /** `normalize_audio`: find ffmpeg when none is given, then one pass, or
      two passes with at most one recursive call with `two_pass` false; every
      failure is reported as false, never raised. */
  method NormalizeAudio(m: Machine, input: string, output: string, ti: Value, ttp: Value,
                        sampleRate: Value, format: string, twoPass: bool, ffmpeg: Option<string>)
    returns (ok: bool)
    modifies m
    decreases if twoPass then 3 else 0
    ensures m.dirs == old(m.dirs)
    ensures twoPass ==>
              var r := TwoPassRequest(m.tools, input, output, ti, ttp, sampleRate, format, ffmpeg);
              ok == r.completed && m.log == old(m.log) + r.log
    ensures !twoPass ==>
              var r := OnePassRequest(m.tools, input, output, ti, ttp, sampleRate, format, ffmpeg);
              ok == r.completed && m.log == old(m.log) + r.log
  {
    var tool := ResolveFfmpeg(m.tools, ffmpeg);
    if tool.None? {
      return false;
    }
    if twoPass {
      ok := MeasureThenNormalize(m, tool.value, input, output, ti, ttp, sampleRate, format);
    } else {
      ok := NormalizePass(m, tool.value, input, output, OnePassFilter(ti, ttp, m.tools.fmt), sampleRate, format);
    }
  }
}
