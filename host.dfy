/** The world around the core: file paths, the results of external processes,
    and the machine whose observable effects (processes started, directories
    made and removed, files copied) the model records. Everything the core
    learns from outside arrives through the `Tools` oracles. */
module Host {
  import opened Values

  /** A file path split the way `pathlib` exposes it: parent directory text,
      `stem` and `suffix` (the suffix keeps its leading dot, as in ".wav"). */
  datatype Path = Path(parent: string, stem: string, suffix: string)

  /** `str(path)`. */
  function PathText(p: Path): string
  {
    (if p.parent == "" then "" else p.parent + "/") + p.stem + p.suffix
  }

  /** `Path(dir) / name`, as text. */
  function SubPath(dir: string, name: string): string
  {
    dir + "/" + name
  }

  /** What starting an external process can end in: it ran and exited with a
      code and diagnostic (stderr) text; it raised a `subprocess.SubprocessError`;
      or it raised some other error (a missing binary gives `OSError`). */
  datatype ExecResult =
    | Exited(code: int, stderr: string)
    | SubprocessFailed(message: string)
    | SpawnFailed(message: string)

  /** `subprocess.check_call` returns normally only on exit code 0. */
  predicate Succeeded(r: ExecResult)
  {
    r.Exited? && r.code == 0
  }

  /** Why a process was started; recorded with each invocation. */
  datatype Purpose = Measure | Normalize | Fade | Crossfade

  datatype Event =
    | Ran(purpose: Purpose, cmd: seq<string>)
    | MadeDir(path: string)
    | Copied(src: string, dst: string)
    | RemovedDir(path: string)

  /** What one operation amounts to, seen from outside: whether it succeeded
      (returned normally, or returned true) and the effects it had, in order. */
  datatype Run = Run(completed: bool, log: seq<Event>)

  /** The answers of the outside world, fixed for one run: the exit status and
      stderr of each command line, `ffprobe` durations, `json.loads`, `float`
      on text, `find_ffmpeg`, whether a directory can be made or a file copied,
      which files exist, `find_audio_files` per directory, Python's
      `round(x, 1)`, and text rendering of numbers. */
  datatype Tools = Tools(
    exec: seq<string> -> ExecResult,
    probe: string -> Option<real>,
    parseJson: string -> Option<Value>,
    parseFloat: string -> Option<real>,
    ffmpeg: Option<string>,
    canMakeDir: string -> bool,
    canCopy: (string, string) -> bool,
    fileExists: string -> bool,
    audioFiles: string -> Option<seq<Path>>,
    roundTenth: real -> real,
    fmt: Formats)

  /** The machine the tool runs on: the log of effects so far and the set of
      directories that exist. */
  class Machine {
    const tools: Tools
    var log: seq<Event>
    var dirs: set<string>

    constructor (tools: Tools, dirs: set<string>)
      ensures this.tools == tools && this.dirs == dirs && log == []
    {
      this.tools := tools;
      this.dirs := dirs;
      log := [];
    }

    /** `subprocess.run(cmd)` / `check_call(cmd)`. */
    method Invoke(purpose: Purpose, cmd: seq<string>) returns (r: ExecResult)
      modifies this
      ensures r == tools.exec(cmd)
      ensures log == old(log) + [Ran(purpose, cmd)] && dirs == old(dirs)
    {
      r := tools.exec(cmd);
      log := log + [Ran(purpose, cmd)];
    }

    /** `Path(d).mkdir(parents=True, exist_ok=True)`; false when it raises. */
    method MakeDir(d: string) returns (ok: bool)
      modifies this
      ensures ok == tools.canMakeDir(d)
      ensures log == old(log) + (if ok then [MadeDir(d)] else [])
      ensures dirs == old(dirs) + (if ok then {d} else {})
    {
      ok := tools.canMakeDir(d);
      if ok {
        log := log + [MadeDir(d)];
        dirs := dirs + {d};
      }
    }

    /** `shutil.copy2(src, dst)`; false when it raises. */
    method Copy(src: string, dst: string) returns (ok: bool)
      modifies this
      ensures ok == tools.canCopy(src, dst)
      ensures log == old(log) + (if ok then [Copied(src, dst)] else [])
      ensures dirs == old(dirs)
    {
      ok := tools.canCopy(src, dst);
      if ok {
        log := log + [Copied(src, dst)];
      }
    }

    /** `shutil.rmtree(d)`. */
    method RemoveTree(d: string)
      modifies this
      ensures log == old(log) + [RemovedDir(d)]
      ensures dirs == old(dirs) - {d}
    {
      log := log + [RemovedDir(d)];
      dirs := dirs - {d};
    }
  }
}
