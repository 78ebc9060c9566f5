# LoudSync core in Dafny

This project models the core of LoudSync. LoudSync is a loudness normalisation tool that drives ffmpeg over a batch of audio files. The model covers:

- **`FadeCore`** (`audioops/core.py`)
  - `fade_file`: resolves the fade-out start time, builds the fade filter list, picks the codec from the output suffix and runs ffmpeg once.
  - `crossfade_sequence`: builds the N-1 node `acrossfade` chain with its `-i`/`-map` arguments and runs ffmpeg once.
- **`Loudness`** (`audioops/loudsync_legacy.py`)
  - `measure_loudness`: scans the diagnostic text for the first `{` through the next line holding `}`, parses that block, and builds the status record.
  - `normalize_audio`: the two-pass protocol with exactly one fall-back to a single pass, the command lines and the codec table. It never raises.
- **`Pipeline`** (`audioops/pipeline.py`, configuration)
  - The `PipelineConfig` class with its five option dictionaries and their defaults.
  - `create_preset_config`, which updates the dictionaries in place.
  - `load_config`, which merges the file group by group with `dict.update`.
- **`Stages`** (`audioops/pipeline.py`, orchestration)
  - Cache setup and cleanup.
  - The normalise, fade and final (crossfade or copy) steps, with their survivor lists.
  - `run_pipeline`, with its policies: stop on an empty normalise result, fall back to the normalised files when fading keeps none, clean up only when the final step returns.
- **`Cli`** (`main.py`)
  - The argument namespace, with the `--one-pass` override and the config-file overrides.
  - Preset resolution, the interactive preset menu and the reference-file lookup.
  - Output naming and the success/failure counting loop of `process_files`.
  - The exit code of `main`.

The outside world is represented by a `Tools` value of oracles. They give each command line's exit status and diagnostic text, `ffprobe` durations, `json.loads`, `float` on text, `find_ffmpeg`, `find_audio_files`, which files exist, whether a directory can be made or a file copied, `round(x, 1)` and number formatting.

A `Machine` object records every observable effect in order: ffmpeg processes launched or attempted, directories made, files copied and directories removed. The `ffprobe` duration query is an oracle consulted without a logged event. Each operation that has effects is a method. It is specified by a function that gives its result and its effects as a `Run`, `Stage`, `Batch`, `Final`, `Summary`, `Tally` or `Exit` value. Lemmas state the source's promises about those functions.

Three behaviours of the code are easy to miss; the model follows the code:

- The cache directories are removed only when the final step returns. A run that stops because normalisation left no file, or whose single-file copy raises, leaves them in place (`Stages.PipelineCleansUpIffReached`).
- The fade-out start is clamped below at 0 but not above at the duration. An absolute start past the end is used as given (`FadeCore.AbsoluteStartMayPassEnd`).
- A process that cannot be started at all raises `OSError` out of `measure_loudness`. Only a `SubprocessError` becomes an `FFMPEG_ERROR` status (`Loudness.ReadMeasurementMeaning`).

The entry point of `main.py` applies the config file after `--one-pass`. A config entry for `two_pass` therefore turns two passes back on, although the comment there speaks of respecting command-line overrides. Only `no_console` is protected (`Cli.ConfigCanUndoOnePass`, `Cli.NoConsoleSticky`).

## Model

| member | source | states |
|---|---|---|
| Host.Machine.Invoke | audioops/core.py:7-9 | a process run appends one `Ran` event with its purpose and command line; its result is the oracle's answer for that command, and the directories do not change |
| Host.Machine.MakeDir | audioops/pipeline.py:65 | `mkdir` succeeds exactly when the oracle allows it; on success the directory exists afterwards and a `MadeDir` event is logged, otherwise nothing changes |
| Host.Machine.Copy | audioops/pipeline.py:161 | `copy2` succeeds exactly when the oracle allows it; on success one `Copied` event is logged; directories do not change |
| Host.Machine.RemoveTree | audioops/pipeline.py:77 | `rmtree` removes the directory from the existing set and logs one `RemovedDir` event |
| FadeCore.FadeSeconds | audioops/core.py:26-27 | a fade length in seconds is never negative; a non-positive millisecond value gives 0; a non-negative one is exactly ms/1000 |
| FadeCore.FadeOutStart | audioops/core.py:28-33 | the fade-out start is never negative. With a from-end offset within the duration, start + offset = duration, and an offset past the duration gives 0. An absolute start is taken as given when non-negative and as 0 otherwise. A negative from-end offset gives duration minus that offset. By default, start + fade-out length = duration when the fade-out fits in the clip, and the start is 0 when it is longer; both the from-end (non-negative offset) and default starts stay within the duration |
| FadeCore.FromEndTakesPrecedence | audioops/core.py:28-31 | with a from-end offset, the absolute start and the fade-out length do not affect the start time |
| FadeCore.AbsoluteStartMayPassEnd | audioops/core.py:30-31 | an absolute start is not clamped to the duration (start 5 s on a 1 s file gives 5 s) |
| FadeCore.FilterKinds | audioops/core.py:36-39 | the fade-in filter is recognised as a fade-in and not a fade-out, and vice versa |
| FadeCore.FadeFilters | audioops/core.py:35-39 | one filter per positive fade length and nothing else; a fade-in is present iff its length is positive and comes first; a fade-out is present iff its length is positive and comes last |
| FadeCore.IdentityFilterIffNoFade | audioops/core.py:35-42 | the filter argument is `anull` exactly when both fade lengths are zero |
| FadeCore.FilterArgSplitsIntoFilters | audioops/core.py:42 | when at least one fade is requested and no rendered number holds a comma, splitting the `-af` argument at commas gives back the filter list |
| FadeCore.OutputCodec | audioops/core.py:44-51 | the output suffix, case-insensitively, forces `pcm_s16le` for .wav, `libmp3lame` for .mp3 and `aac` for .m4a/.aac; any other suffix keeps the caller's codec |
| FadeCore.OutputCodecIgnoresCase | audioops/core.py:45 | the codec choice is the same for a suffix and its lower-case form |
| FadeCore.ResolveTiming | audioops/core.py:25-33 | the timing exists exactly when every option that is read is numeric (`None` anchors are skipped), and then all three values are non-negative. The fade-out start keeps a non-negative absolute start as given (an int or bool stays one); every other start is a float |
| FadeCore.IntegerStartKeptAsGiven | audioops/core.py:31 | an absolute start of integer 5 stays the integer 5 |
| FadeCore.FadeFile | audioops/core.py:20-54 | `fade_file` returns and logs exactly what its specification says |
| FadeCore.FadeRunMeaning | audioops/core.py:20-54 | ffmpeg starts exactly when the probe succeeds, the fade options are numbers and the codec is text or replaced by the output suffix. It then runs once on the input and output paths, with the suffix's codec and the filter argument built from the resolved timing and its start as Python renders it, and exit code 0 is success. Every run carries the codec the output suffix picks (the caller's text codec for any other suffix). Otherwise the call raises after the unlogged probe, with no ffmpeg process started |
| FadeCore.FadeArgs | audioops/core.py:35-54 | the command line built by appending filters and choosing the codec equals the specified `fade_file` command |
| FadeCore.InputArgs | audioops/core.py:61-62 | two arguments per input, `-i` then the input's path, in input order |
| FadeCore.FirstNode | audioops/core.py:64-68 | the first node merges `[0:a]` and `[1:a]` into `[a1]` with the overlap and both curves |
| FadeCore.ChainLinked | audioops/core.py:63-70 | N inputs give N-1 nodes; node k merges the previous node's label `[ak]` with input k+1 into `[a(k+1)]` |
| FadeCore.CrossfadeCommandShape | audioops/core.py:59-72 | the crossfade command is `ffmpeg -y`, the inputs, `-filter_complex` with the chain joined by `;`, `-map` of the last label, the codec and the output path last; its length is 2N+9 |
| FadeCore.CrossfadeChain | audioops/core.py:63-70 | the loop builds exactly the specified chain and leaves `prev` at the last node's label |
| FadeCore.CrossfadeArgs | audioops/core.py:60-72 | the argument list built by appending equals the specified crossfade command |
| FadeCore.CrossfadeSequence | audioops/core.py:57-73 | fewer than two inputs, or a codec that is not text (the process cannot be started with it), fail before anything runs. Otherwise exactly one crossfade process runs with the rendered options and that codec, and success is its exit code 0 |
| Loudness.FirstWith | audioops/loudsync_legacy.py:78-84 | the index found is the first line at or after the start that holds the character, or the end when none does |
| Loudness.FirstWithIsLeast | audioops/loudsync_legacy.py:78-80 | any line holding the character with none before it is the one found |
| Loudness.FirstWithNone | audioops/loudsync_legacy.py:78-80 | when no line holds the character, the scan reaches the end |
| Loudness.BlockLines | audioops/loudsync_legacy.py:73-86 | the collected block is a contiguous run of lines. It is empty iff no line holds `{`, and otherwise starts at the first line holding `{`. No line before its last holds `}`, and it ends at the first such line unless the text runs out |
| Loudness.ExtractBlock | audioops/loudsync_legacy.py:73-86 | the text handed to the JSON parser is the collected block joined with newlines |
| Loudness.CollectBlock | audioops/loudsync_legacy.py:75-84 | the flag-driven scan with `break` collects exactly the specified block |
| Loudness.ReadMeasurement | audioops/loudsync_legacy.py:69-117 | every measurement with status OK carries a parsed JSON object |
| Loudness.ReadReport | audioops/loudsync_legacy.py:88-107 | same property, for the record built from the parsed block |
| Loudness.ReadMeasurementMeaning | audioops/loudsync_legacy.py:61-117 | the record names the file. OK means the process ran, the raw data is the parse of the collected block, and the three numbers are `float` of its `input_i`/`input_lra`/`input_tp`. Any other status carries no data. FFMPEG_ERROR occurs iff `SubprocessError`; a failure to start raises; unparsable text is a JSON_ERROR |
| Loudness.MissingKeysReadAsZero | audioops/loudsync_legacy.py:93 | a block without `input_i` reads as integrated loudness 0 |
| Loudness.MeasureLoudness | audioops/loudsync_legacy.py:59-117 | one analysis process runs with the target-bearing command, and the result is the specified reading of its outcome |
| Loudness.CodecArgsIgnoreCase | audioops/loudsync_legacy.py:161-167 | the codec arguments depend only on the lower-cased format |
| Loudness.SecondPassExtendsOnePass | audioops/loudsync_legacy.py:140-157 | the second-pass filter is the one-pass filter followed by the measured values, linear mode and the summary report |
| Loudness.NormalizeCommandShape | audioops/loudsync_legacy.py:140-169 | a normalisation command is ffmpeg with `-y`, the input, the filter, `-ar` with the sample rate, then the codec arguments of the format, and the output path last |
| Loudness.PassesAreSingle | audioops/loudsync_legacy.py:152-179 | the one-pass run and the second pass each start at most one normalisation process and succeed only when it exits with 0 writing the output |
| Loudness.MeasureThenPass | audioops/loudsync_legacy.py:128-136 | a measurement followed by a single attempt has the two-pass shape |
| Loudness.AfterMeasurementSingle | audioops/loudsync_legacy.py:132-179 | whatever the measurement gave, what follows it is a single attempt |
| Loudness.MeasuredRunShape | audioops/loudsync_legacy.py:128-179 | with ffmpeg known, a two-pass request has the two-pass shape |
| Loudness.TwoPassRequestShape | audioops/loudsync_legacy.py:125-179 | a two-pass request, with or without ffmpeg, has the two-pass shape |
| Loudness.OnePassRequestShape | audioops/loudsync_legacy.py:125-179 | a one-pass request is a single attempt |
| Loudness.NormalizeRunShape | audioops/loudsync_legacy.py:120-183 | `normalize_audio` starts at most two processes, measures only first and only for two passes, and returns true only when its last process is a normalisation writing the output that exited with 0 |
| Loudness.FallbackExactlyOnce | audioops/loudsync_legacy.py:130-136 | an unusable measurement leads to exactly one one-pass normalisation after it, and nothing more |
| Loudness.MissingMeasuredKeyFails | audioops/loudsync_legacy.py:139-183 | a usable measurement without one of the keys the second pass reads gives false after the measurement alone |
| Loudness.NormalizePass | audioops/loudsync_legacy.py:161-179 | one normalisation process runs; the result is whether it exited with 0 |
| Loudness.SecondPass | audioops/loudsync_legacy.py:139-179 | the second pass behaves as specified: no process when a key is missing, else one run |
| Loudness.ContinueAfterMeasurement | audioops/loudsync_legacy.py:132-179 | after the measurement, the recursive call with `two_pass` false or the second pass behaves as specified |
| Loudness.MeasureThenNormalize | audioops/loudsync_legacy.py:128-179 | the two-pass branch with ffmpeg known: one measurement, then the specified continuation |
| Loudness.NormalizeAudio | audioops/loudsync_legacy.py:120-183 | `normalize_audio` returns and logs what the two-pass or one-pass request specifies; it never raises |
| Pipeline.UpdateKeepsComplete | audioops/pipeline.py:315-319 | `dict.update` on a group never loses a default key |
| Pipeline.PipelineConfig.constructor | audioops/pipeline.py:26-53 | a new configuration holds exactly the default dictionaries |
| Pipeline.PipelineConfig.ApplyPodcast | audioops/pipeline.py:230-245 | the podcast updates are applied in place to the normalise, fade and output dictionaries |
| Pipeline.PipelineConfig.ApplyBgm | audioops/pipeline.py:247-266 | the bgm updates are applied in place, including the crossfade dictionary |
| Pipeline.PipelineConfig.ApplyBroadcast | audioops/pipeline.py:268-283 | the broadcast updates are applied in place |
| Pipeline.PipelineConfig.UpdateGroup | audioops/pipeline.py:315-319 | one group is updated with the entries given; the others are unchanged |
| Pipeline.PipelineConfig.UpdatePairsIn | audioops/pipeline.py:315-319 | `update` with a list stores its pairs into one group in place, in order, until a bad element raises; the result and the new state are those of the pair-by-pair specification |
| Pipeline.CreatePresetConfig | audioops/pipeline.py:226-285 | a fresh configuration holding the named preset's state |
| Pipeline.PodcastTargets | audioops/pipeline.py:231-241 | podcast targets -16 LUFS / -1.5 dBTP and enables fading |
| Pipeline.PodcastOutput | audioops/pipeline.py:242-245 | podcast writes mp3 with `libmp3lame` and leaves crossfading at its defaults |
| Pipeline.BgmTargets | audioops/pipeline.py:248-252 | bgm targets -18 LUFS / -1.5 dBTP |
| Pipeline.BgmCrossfades | audioops/pipeline.py:259-262 | bgm enables crossfading with a 3 s overlap and keeps the `tri` curve |
| Pipeline.BroadcastTargets | audioops/pipeline.py:269-273 | broadcast targets -23 LUFS / -1.0 dBTP |
| Pipeline.BroadcastOutput | audioops/pipeline.py:280-283 | broadcast writes wav with `pcm_s16le` and leaves crossfading at its defaults |
| Pipeline.PresetsKeepDefaults | audioops/pipeline.py:226-285 | every preset keeps every default key and the default paths; an unknown name gives the defaults |
| Pipeline.PresetComplete | audioops/pipeline.py:226-285 | a state whose groups contain the default keys is complete |
| Pipeline.UpdateWithMeaning | audioops/pipeline.py:315-319 | `update` returns exactly when its argument is accepted: a dictionary, the empty text, or a list of pairs. It never removes a key and changes no key the argument does not give. A dictionary is merged; an argument that is neither a list nor a dictionary leaves the group as it was |
| Pipeline.UpdatePairsStopsAtBad | audioops/pipeline.py:315-319 | a list with a bad element stores exactly the pairs before the first bad one, then raises |
| Pipeline.UpdatePairsLastWins | audioops/pipeline.py:315-319 | in an accepted list, a key takes the value of the last pair that names it |
| Pipeline.MergeInto | audioops/pipeline.py:315-319 | one group's `update` with the file's entry for that group (default `{}`) gives the state and the outcome of the `update` specification |
| Pipeline.LoadConfig | audioops/pipeline.py:304-326 | a fresh configuration holding the loaded state |
| Pipeline.MergeAllStep | audioops/pipeline.py:315-319 | the merge proceeds group by group and stops at the first group whose `update` raises, keeping what that `update` stored |
| Pipeline.MergeAllComplete | audioops/pipeline.py:315-319 | merging never loses a key |
| Pipeline.MergeAllKeeps | audioops/pipeline.py:315-319 | a key the group's entry does not give, as a dictionary key or a list pair, keeps its value |
| Pipeline.MergeAllTakes | audioops/pipeline.py:315-319 | when every entry the merge reaches is accepted, a key a dictionary entry gives takes the file's value |
| Pipeline.MergeAllStops | audioops/pipeline.py:311-324 | an entry that raises leaves every later group unchanged. Its own group is unchanged unless the entry is a list; when the earlier entries are accepted, that group is what the raising `update` left |
| Pipeline.LoadedIsComplete | audioops/pipeline.py:304-326 | a loaded configuration always has every default key |
| Pipeline.LoadedKeepsUnspecified | audioops/pipeline.py:315-319 | a key the file does not give for its group, as a dictionary key or a list pair, keeps its default |
| Pipeline.LoadedTakesSpecified | audioops/pipeline.py:315-319 | when every group entry is accepted, each key a dictionary entry gives takes the file's value |
| Pipeline.EmptyListEntryIsSkipped | audioops/pipeline.py:311-319 | an empty list for `normalize` is accepted, so a later `fade` entry still takes effect |
| Pipeline.LoadStopsAtRejected | audioops/pipeline.py:311-324 | an entry that raises leaves every later group at the defaults. Its own group keeps the defaults unless the entry is a list; when the earlier entries are accepted, that group holds the pairs stored before the raise |
| Pipeline.MissingFileGivesDefaults | audioops/pipeline.py:304-326 | a missing or unparsable file, or a document that is not a dictionary, gives the defaults |
| Stages.CompleteIsReady | audioops/pipeline.py:26-53 | a configuration with every default key has every key the stages read |
| Stages.CacheDirsOf | audioops/pipeline.py:58-62 | the two cache directories are distinct |
| Stages.SetupMakesBoth | audioops/pipeline.py:56-67 | a successful setup makes `normalized` then `faded` under the root, and both exist afterwards. A failed setup made at most one directory |
| Stages.SetupCacheDirs | audioops/pipeline.py:56-67 | the mkdir loop gives the specified directories, effects and resulting directory set |
| Stages.SetupEvents | audioops/pipeline.py:194 | setting up the cache only makes directories |
| Stages.RemoveEachExisting | audioops/pipeline.py:75-77 | cleanup removes only target directories that exist, and removes every one that does |
| Stages.CleanupCache | audioops/pipeline.py:70-78 | with `keep_files` nothing changes; otherwise each existing cache directory is removed, in order, and neither exists afterwards |
| Stages.Outputs | audioops/pipeline.py:97-99 | one output path per input |
| Stages.CollectStep | audioops/pipeline.py:111-117 | one more file appends its output exactly when it succeeded, and its effects |
| Stages.CollectKeepsCompleted | audioops/pipeline.py:111-117 | the survivors are exactly the outputs of the files that succeeded, in input order |
| Stages.CollectKeepsAll | audioops/pipeline.py:111-117 | when every file succeeds, every output survives |
| Stages.NormalizeDisabledPassesThrough | audioops/pipeline.py:84-85 | a disabled normalise step passes the inputs through with no effect |
| Stages.NormalizeKeepsSucceeded | audioops/pipeline.py:91-117 | the normalised list holds `<stem>__norm<suffix>` in the normalized cache for exactly the files whose `normalize_audio` returned true, in input order |
| Stages.NormalizeStepEvents | audioops/pipeline.py:94-109 | the normalise step only measures and normalises |
| Stages.NormalizeOne | audioops/pipeline.py:97-116 | one iteration calls `normalize_audio` on the renamed output with the configured targets, rate, the suffix as format and `two_pass` |
| Stages.RunNormalizeStep | audioops/pipeline.py:81-117 | `run_normalize_step` returns and logs what the normalise step specifies; no ffmpeg raises |
| Stages.NormalizeEach | audioops/pipeline.py:94-116 | the loop keeps the outputs of the successful runs in order |
| Stages.FadeKeepsSucceeded | audioops/pipeline.py:120-152 | a disabled step or an empty list passes through; otherwise the list holds `<stem>__fade<suffix>` for exactly the files whose fade returned normally, in order |
| Stages.FadeStepEvents | audioops/pipeline.py:132-150 | the fade step only runs fade processes |
| Stages.FadeOne | audioops/pipeline.py:135-150 | one iteration calls `fade_file` with the configured fade options and codec; an exception is caught as a failure |
| Stages.RunFadeStep | audioops/pipeline.py:120-152 | `run_fade_step` returns and logs what the fade step specifies |
| Stages.FadeEach | audioops/pipeline.py:132-150 | the loop keeps the outputs of the successful fades in order |
| Stages.FinalPolicies | audioops/pipeline.py:155-182 | a single file is copied whatever the crossfade flag says, and a failed copy raises. No file, or several with crossfading off, gives false with no effect. A codec that is not text gives false with no effect. Otherwise exactly one crossfade writing the output runs, and its exit code decides |
| Stages.RunCrossfadeStep | audioops/pipeline.py:155-182 | `run_crossfade_step` returns and logs what the final step specifies |
| Stages.FinalEvents | audioops/pipeline.py:208 | the final step only copies or crossfades |
| Stages.RunPipeline | audioops/pipeline.py:185-223 | `run_pipeline` returns, logs and leaves the directories as the pipeline specification says |
| Stages.ProcessCached | audioops/pipeline.py:196-219 | the part after setup behaves as specified |
| Stages.FinishPipeline | audioops/pipeline.py:202-219 | the part after a non-empty normalise step behaves as specified |
| Stages.FinishCleansUpIffFinalReturns | audioops/pipeline.py:202-219 | after normalising, the cache is removed exactly when the final step returns rather than raises, and then neither cache directory remains |
| Stages.CachedCleansUpIffReached | audioops/pipeline.py:196-219 | cleanup happens exactly when normalising leaves files and the final step returns |
| Stages.PipelineCleansUpIffReached | audioops/pipeline.py:185-223 | a run removes cache directories exactly when setup succeeds, normalising leaves files and the final step returns |
| Stages.EmptyNormalizeStopsPipeline | audioops/pipeline.py:196-200 | when normalising leaves no file the run fails, with no fade, copy, crossfade or removal |
| Stages.CachedStopsOnEmpty | audioops/pipeline.py:197-200 | same, after setup |
| Stages.FadeFallsBackToNormalized | audioops/pipeline.py:203-205 | when every fade fails, the final step works on the normalised files and the run's result is that step's |
| Stages.FinishSuccessWritesOutput | audioops/pipeline.py:202-219 | a successful finish has copied to the output or run a crossfade writing it that exited with 0 |
| Stages.PipelineSuccessWritesOutput | audioops/pipeline.py:185-223 | a run that returns true has written the output path |
| Cli.Namespace.constructor | main.py:973 | the namespace holds the parsed attributes |
| Cli.Namespace.ForceOnePass | main.py:976-977 | `--one-pass` sets `two_pass` to false in place and changes nothing else |
| Cli.Namespace.ApplyConfig | main.py:980-999 | the config loop sets the attributes the entries name, in document order; a missing, unreadable or non-dictionary file changes nothing |
| Cli.OverridesKeepNames | main.py:986-988 | config keys only set attributes the namespace already has |
| Cli.OverrideUntouched | main.py:986-995 | an attribute no entry names keeps its value |
| Cli.OverrideLastWins | main.py:986-995 | every attribute except `no_console` takes the value of the last entry that names it (dashes read as underscores) |
| Cli.NoConsoleSticky | main.py:990-993 | a truthy `no_console` is never replaced, and it ends up truthy iff it was or some entry gives it a truthy value |
| Cli.ConfigCanUndoOnePass | main.py:976-995 | after `--one-pass`, a config entry `two-pass: true` turns two passes back on |
| Cli.GetReferenceLufs | main.py:651-661 | `get_reference_lufs` returns and logs what the reference lookup specifies, including whether the measurement itself raised |
| Cli.ReferenceErrors | main.py:651-661 | a missing reference file fails before anything runs. Otherwise one measurement runs, and the lookup succeeds iff its status is OK, giving its integrated loudness rounded to a tenth. An exception of the measurement itself is told apart from the lookup's own error |
| Cli.SelectPresetInteractive | main.py:727-766 | the prompt's answer settles the targets and effects its specification gives |
| Cli.ChosenMeaning | main.py:727-766 | the menu presets give the command line's -16/-18/-19/-20/-23 targets and run nothing. The reference option falls back to (-16, -1.5) without running anything for a missing file. Otherwise it runs one measurement and gives its rounded loudness at -1.5 dBTP when it reads OK, and (-16, -1.5) when it reads a failure. It raises only when the measurement itself raises |
| Cli.ResolvePreset | main.py:871-895 | the preset chain settles the targets and effects the resolution specifies |
| Cli.PresetTable | main.py:871-895 | the default is (-16, -1.5). -16/-18/-19/-20 set the integrated target and keep -1.5 dBTP, -23 gives (-23, -1.0), and unknown text keeps the defaults. None of them runs anything |
| Cli.InteractiveWithoutConsole | main.py:873-878 | `interactive` without a console gives (-16, -1.5) |
| Cli.ReffileNeedsReference | main.py:879-885 | `reffile` without a reference path that exists raises without running anything |
| Cli.OnlyReferenceMeasures | main.py:871-895 | settling the targets runs at most one process, the measurement of a reference file. That file is `reffile`'s `ref_path`, or the path answered at the prompt under `interactive` with a console. Either way the true peak stays -1.5 dBTP |
| Cli.OutputNaming | main.py:797-804 | the output is `<dir>/<stem>.<ext>` unless that exists and overwriting is off, and then `<dir>/<stem>_norm.<ext>`; either way it keeps the stem and ends in `.<ext>` |
| Cli.CountTotal | main.py:777-816 | with no file raising, success + failure equals the number of files; a raise ends the loop early; no failure and no raise holds iff every file succeeded |
| Cli.RaisedStays | main.py:777-816 | once a file's processing raises, no later file is processed |
| Cli.FileStepMeaning | main.py:781-816 | in measure mode a file runs one measurement and succeeds iff its status is OK; otherwise it is `normalize_audio` on the computed output path, with its result |
| Cli.ProcessOne | main.py:781-816 | one iteration measures or normalises as specified |
| Cli.ProcessEach | main.py:777-819 | the loop's counters and effects are those of the tally of the files' steps |
| Cli.ProcessFiles | main.py:768-842 | `process_files` returns the specified counts and effects |
| Cli.FinishMain | main.py:900-913 | processing and the code after the targets are settled behave as specified |
| Cli.RunMain | main.py:845-929 | `main` returns the specified code with the specified effects |
| Cli.ExitCodeMeaning | main.py:913 | the code is 0 or 1. It is 0 iff ffmpeg is found, there are audio files, the preset resolves, the mode is text and every file succeeded |
| Cli.ReffileWithoutReferenceFails | main.py:879-919 | `reffile` without a usable reference path makes `main` return 1 before any file is processed |

## Left out

- Process execution, `ffprobe`, `json.loads`, `float` on text, `round` and Python's rendering of floats and containers are oracles. The model fixes their answers per argument; it does not compute them.
- Printing, logging (`setup_logging`, `logger`), the CSV written in measure mode, `asyncio` and `asyncio.sleep`, signal handlers, the single-instance check and the GUI classes are left out: they are output, concurrency or user interface.
- `Cli.SelectPresetInteractive`: the console dialogue is not modelled. Its first valid answer is the parameter `choice`; invalid answers only print. The `sys.exit(0)` on Ctrl-C is not modelled.
- The entry point's `os.path.abspath`, the output-inside-input check and `os.makedirs` are left out. `main` is modelled from the point where the namespace is prepared; `Cli.Shaped` states what that preparation guarantees.
- `os.makedirs` at the start of `process_files` is taken to succeed: the entry point has already made that directory.
- `Cli.RunMain`: the wait for Enter in console mode and the `KeyboardInterrupt` handler are not modelled.
- `main.py` has its own copies of `measure_loudness` and `normalize_audio`. They build the same command lines as the legacy module, so `Cli` uses `Loudness` with ffmpeg already found. Those copies pass `creationflags=subprocess.CREATE_NO_WINDOW`, which exists only on Windows, and `Cli` models them as they behave there. On other platforms the attribute lookup raises `AttributeError` before any process starts. In `measure_loudness` it escapes, so measure mode, the `reffile` preset and the prompt's reference option make `main` return 1. In `normalize_audio` it is caught, so every file counts as a failure.
- `Cli.ProcessFiles`: an `out_ext` that the config file sets to a non-text value is rendered as text for the format argument. In Python, `.lower()` inside `normalize_audio` would raise, and that file would count as a failure.
- `Cli.ResolvePreset`: a truthy `ref_path` that is not text (possible only through the config file) is treated as absent. Python would pass it to `os.path.exists`, which treats an integer as a file descriptor.
- `Cli.Namespace.ApplyConfig`: config keys that name Python's built-in attributes of the namespace are not modelled. Duplicate keys in the JSON document are assumed already collapsed by the parser.
- `Stages.RunPipeline` and the stage methods require `Ready`: the configuration has every key they read. In the source a missing key raises `KeyError`. Every configuration the source builds has the keys (`Stages.CompleteIsReady`, `Pipeline.LoadedIsComplete`, `Pipeline.PresetsKeepDefaults`), so that path is not modelled.
- `Stages.CleanupCache`: `shutil.rmtree` is taken to succeed on an existing directory.
- A truthy `paths.ffmpeg` that is not text is used through its text rendering.
- `Pipeline.UpdateWith`: a JSON object used as an element of a list entry is treated as a bad element. Python would take a two-key object as a pair of its keys, which depends on member order, and the model does not keep that order. A pair whose key is a number, boolean or null stores nothing, because no stage reads such a key.
- `Values.VFloat`, `Values.AsNumber` and `FadeCore.FadeOutStart`: Python floats are modelled as exact reals, so the fade timing properties hold over the reals. Binary rounding (`ms/1000`, `dur - F`, and the digits it shows when rendered), NaN, the infinities (which `json.loads` accepts in the config file, and `float` accepts from a `-inf` measurement) and `-0.0` are not modelled.
- `Host.Machine.MakeDir`: `mkdir(parents=True, exist_ok=True)` also creates a missing cache root; the model adds only the leaf directory to the existing set. No property depends on the root.
- Paths are plain text: `pathlib` normalisation (a leading `./`, repeated separators) and the exact splitting of odd names into stem and suffix are not modelled.
- `Text.Lower` lower-cases ASCII letters only, where Python's `str.lower` covers all of Unicode.
- `find_ffmpeg` and `find_audio_files` are oracles: the search of `PATH`, the bundled binary and the recursive glob are not modelled.
- `duration_sec` is an oracle whose failure stands for any exception it raises.
- `save_config` and the GUI's preset index tables are not part of this model.
