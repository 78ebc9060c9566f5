/** The pipeline orchestrator (audioops/pipeline.py): the configuration object
    and its presets and file merge, the cache directories, and the three
    stages normalise → fade → crossfade (or copy) run in sequence over a list
    of files, with the policies for files that fail and lists that end up
    empty. */
module Pipeline {
  import opened Text
  import opened Values
  import opened Host
  import opened FadeCore
  import opened Loudness

  // ------------------------------------------------------------ configuration

  const DefaultNormalize: map<string, Value> :=
    map["enabled" := VBool(true), "preset" := VStr("-16"), "lufs" := VFloat(-16.0),
        "tp" := VFloat(-1.5), "two_pass" := VBool(true)]
  const DefaultFade: map<string, Value> :=
    map["enabled" := VBool(false), "in_ms" := VInt(300), "out_ms" := VInt(1500), "from_end_sec" := VFloat(2.0)]
  const DefaultCrossfade: map<string, Value> :=
    map["enabled" := VBool(false), "overlap_sec" := VFloat(2.0), "curve" := VStr("tri")]
  const DefaultOutput: map<string, Value> :=
    map["codec" := VStr("aac"), "sample_rate" := VInt(48000), "format" := VStr("wav")]
  const DefaultPaths: map<string, Value> :=
    map["ffmpeg" := VNull, "cache_dir" := VStr("./_cache")]

  /** The five option groups of a `PipelineConfig`, as values. */
  datatype ConfigState = ConfigState(
    normalize: map<string, Value>,
    fade: map<string, Value>,
    crossfade: map<string, Value>,
    output: map<string, Value>,
    paths: map<string, Value>)

  /** What `PipelineConfig()` holds. */
  const Defaults := ConfigState(DefaultNormalize, DefaultFade, DefaultCrossfade, DefaultOutput, DefaultPaths)

  /** The five groups, in the order `load_config` merges them. */
  datatype Group = NormalizeGroup | FadeGroup | CrossfadeGroup | OutputGroup | PathsGroup

  const Groups: seq<Group> := [NormalizeGroup, FadeGroup, CrossfadeGroup, OutputGroup, PathsGroup]

  /** The attribute name of a group, which is also its key in a configuration file. */
  function GroupName(g: Group): string
  {
    match g
    case NormalizeGroup => "normalize"
    case FadeGroup => "fade"
    case CrossfadeGroup => "crossfade"
    case OutputGroup => "output"
    case PathsGroup => "paths"
  }

  function Of(c: ConfigState, g: Group): map<string, Value>
  {
    match g
    case NormalizeGroup => c.normalize
    case FadeGroup => c.fade
    case CrossfadeGroup => c.crossfade
    case OutputGroup => c.output
    case PathsGroup => c.paths
  }

  /** The state with one group replaced. */
  function With(c: ConfigState, g: Group, m: map<string, Value>): (r: ConfigState)
    ensures Of(r, g) == m
    ensures forall h :: h != g ==> Of(r, h) == Of(c, h)
  {
    match g
    case NormalizeGroup => c.(normalize := m)
    case FadeGroup => c.(fade := m)
    case CrossfadeGroup => c.(crossfade := m)
    case OutputGroup => c.(output := m)
    case PathsGroup => c.(paths := m)
  }

  /** `group.update(u)`: the keys of `u` are added or overwritten. */
  function Update(c: ConfigState, g: Group, u: map<string, Value>): ConfigState
  {
    With(c, g, Of(c, g) + u)
  }

  /** Every key the defaults define is present, so every lookup the stages
      make succeeds. */
  predicate Complete(c: ConfigState)
  {
    forall g :: Of(Defaults, g).Keys <= Of(c, g).Keys
  }

  /** Merging a one-entry dictionary stores that entry. */
  lemma MergeOne(m: map<string, Value>, k: string, v: Value)
    ensures m + map[k := v] == m[k := v]
  {
  }

  /** Replacing a group by its own value changes nothing. */
  lemma WithSame(c: ConfigState, g: Group)
    ensures With(c, g, Of(c, g)) == c
  {
  }

  /** Replacing a group twice is replacing it once with the second value. */
  lemma WithTwice(c: ConfigState, g: Group, m1: map<string, Value>, m2: map<string, Value>)
    ensures With(With(c, g, m1), g, m2) == With(c, g, m2)
  {
  }

  /** Two states with the same groups are equal. */
  lemma SameGroups(a: ConfigState, b: ConfigState)
    requires forall g :: Of(a, g) == Of(b, g)
    ensures a == b
  {
    assert Of(a, NormalizeGroup) == Of(b, NormalizeGroup);
    assert Of(a, FadeGroup) == Of(b, FadeGroup);
    assert Of(a, CrossfadeGroup) == Of(b, CrossfadeGroup);
    assert Of(a, OutputGroup) == Of(b, OutputGroup);
    assert Of(a, PathsGroup) == Of(b, PathsGroup);
  }

  /** Replacing a group by a dictionary with at least its keys keeps a
      complete state complete. */
  lemma GrowKeepsComplete(c: ConfigState, g: Group, p: ConfigState)
    requires Complete(c)
    requires Of(c, g).Keys <= Of(p, g).Keys
    requires forall h :: h != g ==> Of(p, h) == Of(c, h)
    ensures Complete(p)
  {
    forall h ensures Of(Defaults, h).Keys <= Of(p, h).Keys {
      assert Of(Defaults, h).Keys <= Of(c, h).Keys;
    }
  }

  /** An update never removes a key: it keeps a complete state complete. */
  lemma UpdateKeepsComplete(c: ConfigState, g: Group, u: map<string, Value>)
    requires Complete(c)
    ensures Complete(Update(c, g, u))
  {
    forall h ensures Of(Defaults, h).Keys <= Of(Update(c, g, u), h).Keys {
      if h == g {
        assert Of(c, g).Keys <= (Of(c, g) + u).Keys;
      }
    }
  }

  /** `PipelineConfig`: five dictionaries the presets and the file loader
      update in place. */
  class PipelineConfig {
    var normalize: map<string, Value>
    var fade: map<string, Value>
    var crossfade: map<string, Value>
    var output: map<string, Value>
    var paths: map<string, Value>

    function State(): ConfigState
      reads this
    {
      ConfigState(normalize, fade, crossfade, output, paths)
    }

    constructor ()
      ensures State() == Defaults
    {
      normalize := DefaultNormalize;
      fade := DefaultFade;
      crossfade := DefaultCrossfade;
      output := DefaultOutput;
      paths := DefaultPaths;
    }

    /** The `update` calls of the speech preset. */
    method ApplyPodcast()
      modifies this
      ensures State() == Podcast(old(State()))
    {
      normalize := normalize + map["preset" := VStr("-16"), "lufs" := VFloat(-16.0), "tp" := VFloat(-1.5)];
      fade := fade + map["enabled" := VBool(true), "in_ms" := VInt(500), "out_ms" := VInt(2000),
                         "from_end_sec" := VFloat(3.0)];
      output := output + map["codec" := VStr("libmp3lame"), "format" := VStr("mp3")];
    }

    /** The `update` calls of the music preset. */
    method ApplyBgm()
      modifies this
      ensures State() == Bgm(old(State()))
    {
      normalize := normalize + map["preset" := VStr("-18"), "lufs" := VFloat(-18.0), "tp" := VFloat(-1.5)];
      fade := fade + map["enabled" := VBool(true), "in_ms" := VInt(1000), "out_ms" := VInt(3000),
                         "from_end_sec" := VFloat(4.0)];
      crossfade := crossfade + map["enabled" := VBool(true), "overlap_sec" := VFloat(3.0)];
      output := output + map["codec" := VStr("aac"), "format" := VStr("wav")];
    }

    /** The `update` calls of the broadcast preset. */
    method ApplyBroadcast()
      modifies this
      ensures State() == Broadcast(old(State()))
    {
      normalize := normalize + map["preset" := VStr("-23"), "lufs" := VFloat(-23.0), "tp" := VFloat(-1.0)];
      fade := fade + map["enabled" := VBool(true), "in_ms" := VInt(300), "out_ms" := VInt(1000),
                         "from_end_sec" := VFloat(2.0)];
      output := output + map["codec" := VStr("pcm_s16le"), "format" := VStr("wav")];
    }

    /** `self.<group>.update(items)` for a list: each pair is stored in
        turn until an element that is not a pair raises. */
    method UpdatePairsIn(g: Group, items: seq<Value>) returns (ok: bool)
      modifies this
      ensures var u := UpdatePairs(Of(old(State()), g), items);
              ok == u.ok && State() == With(old(State()), g, u.group)
    {
      ghost var c0 := State();
      ghost var cur := Of(c0, g);
      WithSame(c0, g);
      var i := 0;
      while i < |items|
        invariant 0 <= i <= |items|
        invariant State() == With(c0, g, cur)
        invariant UpdatePairs(Of(c0, g), items) == UpdatePairs(cur, items[i..])
      {
        assert items[i..][1..] == items[i + 1..];
        match ElementOf(items[i]) {
          case BadElement =>
            return false;
          case OtherKey =>
          case Pair(k, v) =>
            UpdateGroup(g, map[k := v]);
            WithTwice(c0, g, cur, cur[k := v]);
            MergeOne(cur, k, v);
            cur := cur[k := v];
        }
        i := i + 1;
      }
      ok := true;
    }

    /** `self.<group>.update(u)`. */
    method UpdateGroup(g: Group, u: map<string, Value>)
      modifies this
      ensures State() == Update(old(State()), g, u)
    {
      match g {
        case NormalizeGroup => normalize := normalize + u;
        case FadeGroup => fade := fade + u;
        case CrossfadeGroup => crossfade := crossfade + u;
        case OutputGroup => output := output + u;
        case PathsGroup => paths := paths + u;
      }
    }
  }

  // ------------------------------------------------------------------ presets

  /** The updates of the speech preset. */
  function Podcast(c: ConfigState): ConfigState
  {
    c.(normalize := c.normalize + map["preset" := VStr("-16"), "lufs" := VFloat(-16.0), "tp" := VFloat(-1.5)],
       fade := c.fade + map["enabled" := VBool(true), "in_ms" := VInt(500), "out_ms" := VInt(2000),
                            "from_end_sec" := VFloat(3.0)],
       output := c.output + map["codec" := VStr("libmp3lame"), "format" := VStr("mp3")])
  }

  /** The updates of the music preset. */
  function Bgm(c: ConfigState): ConfigState
  {
    c.(normalize := c.normalize + map["preset" := VStr("-18"), "lufs" := VFloat(-18.0), "tp" := VFloat(-1.5)],
       fade := c.fade + map["enabled" := VBool(true), "in_ms" := VInt(1000), "out_ms" := VInt(3000),
                            "from_end_sec" := VFloat(4.0)],
       crossfade := c.crossfade + map["enabled" := VBool(true), "overlap_sec" := VFloat(3.0)],
       output := c.output + map["codec" := VStr("aac"), "format" := VStr("wav")])
  }

  /** The updates of the broadcast preset. */
  function Broadcast(c: ConfigState): ConfigState
  {
    c.(normalize := c.normalize + map["preset" := VStr("-23"), "lufs" := VFloat(-23.0), "tp" := VFloat(-1.0)],
       fade := c.fade + map["enabled" := VBool(true), "in_ms" := VInt(300), "out_ms" := VInt(1000),
                            "from_end_sec" := VFloat(2.0)],
       output := c.output + map["codec" := VStr("pcm_s16le"), "format" := VStr("wav")])
  }

  /** The configuration `create_preset_config` returns for a name. */
  function PresetState(name: string): ConfigState
  {
    if name == "podcast" then Podcast(Defaults)
    else if name == "bgm" then Bgm(Defaults)
    else if name == "broadcast" then Broadcast(Defaults)
    else Defaults
  }

  /** `create_preset_config`: start from the defaults and `update` the groups
      the preset names. */
  method CreatePresetConfig(name: string) returns (config: PipelineConfig)
    ensures fresh(config) && config.State() == PresetState(name)
  {
    config := new PipelineConfig();
    if name == "podcast" {
      config.ApplyPodcast();
    } else if name == "bgm" {
      config.ApplyBgm();
    } else if name == "broadcast" {
      config.ApplyBroadcast();
    }
  }

  /** The speech preset targets -16 LUFS / -1.5 dBTP and turns fades on. */
  lemma PodcastTargets()
    ensures var p := PresetState("podcast");
            && p.normalize["lufs"] == VFloat(-16.0) && p.normalize["tp"] == VFloat(-1.5)
            && p.fade["enabled"] == VBool(true)
  {
  }

  /** The speech preset writes MP3 and leaves crossfading off. */
  lemma PodcastOutput()
    ensures var p := PresetState("podcast");
            && p.output["format"] == VStr("mp3") && p.output["codec"] == VStr("libmp3lame")
            && p.crossfade == DefaultCrossfade
  {
  }

  /** The music preset targets -18 LUFS / -1.5 dBTP. */
  lemma BgmTargets()
    ensures var b := PresetState("bgm");
            b.normalize["lufs"] == VFloat(-18.0) && b.normalize["tp"] == VFloat(-1.5)
  {
  }

  /** The music preset is the only one that turns crossfading on: 3 s overlap,
      default curve. */
  lemma BgmCrossfades()
    ensures var b := PresetState("bgm");
            && b.crossfade["enabled"] == VBool(true) && b.crossfade["overlap_sec"] == VFloat(3.0)
            && b.crossfade["curve"] == VStr("tri")
  {
  }

  /** The broadcast preset targets -23 LUFS / -1.0 dBTP. */
  lemma BroadcastTargets()
    ensures var r := PresetState("broadcast");
            r.normalize["lufs"] == VFloat(-23.0) && r.normalize["tp"] == VFloat(-1.0)
  {
  }

  /** The broadcast preset writes 16-bit PCM WAV and leaves crossfading off. */
  lemma BroadcastOutput()
    ensures var r := PresetState("broadcast");
            && r.output["codec"] == VStr("pcm_s16le") && r.output["format"] == VStr("wav")
            && r.crossfade == DefaultCrossfade
  {
  }

  /** Every preset keeps every default key and leaves the paths at their
      defaults; any other name gives the defaults untouched. */
  lemma PresetsKeepDefaults(name: string)
    ensures Complete(PresetState(name))
    ensures PresetState(name).paths == DefaultPaths
    ensures name != "podcast" && name != "bgm" && name != "broadcast" ==> PresetState(name) == Defaults
  {
    if name == "podcast" {
      PresetComplete(Defaults, Podcast(Defaults));
    } else if name == "bgm" {
      PresetComplete(Defaults, Bgm(Defaults));
    } else if name == "broadcast" {
      PresetComplete(Defaults, Broadcast(Defaults));
    }
  }

  /** A state whose every group extends the corresponding group of a
      complete state is complete. */
  lemma PresetComplete(c: ConfigState, p: ConfigState)
    requires Complete(c)
    requires c.normalize.Keys <= p.normalize.Keys && c.fade.Keys <= p.fade.Keys && c.crossfade.Keys <= p.crossfade.Keys
    requires c.output.Keys <= p.output.Keys && c.paths.Keys <= p.paths.Keys
    ensures Complete(p)
  {
    forall g ensures Of(Defaults, g).Keys <= Of(p, g).Keys {
      assert Of(c, g).Keys <= Of(p, g).Keys;
    }
  }

  // ------------------------------------------------------------ configuration file

  /** How `dict.update` reads one element of a list argument. A two-element
      list with a text key, or a two-character text, is a pair. A pair whose
      key is a JSON number, boolean or null adds a key no stage reads. An
      element that is not iterable, has another length, or has an unhashable
      key raises. */
  datatype Element = Pair(key: string, value: Value) | OtherKey | BadElement

  function ElementOf(e: Value): Element
  {
    match e
    case VList(items) =>
      if |items| != 2 then BadElement
      else (match items[0]
            case VStr(k) => Pair(k, items[1])
            case VList(_) => BadElement
            case VObject(_) => BadElement
            case _ => OtherKey)
    case VStr(s) => if |s| == 2 then Pair([s[0]], VStr([s[1]])) else BadElement
    case _ => BadElement
  }

  /** A dictionary after `update`, and whether the call returned. */
  datatype Updated = Updated(group: map<string, Value>, ok: bool)

  /** `d.update(items)` for a list: the pairs are stored in order until the
      first bad element raises, leaving the earlier ones stored. */
  function UpdatePairs(d: map<string, Value>, items: seq<Value>): Updated
    decreases |items|
  {
    if items == [] then Updated(d, true)
    else
      match ElementOf(items[0])
      case BadElement => Updated(d, false)
      case OtherKey => UpdatePairs(d, items[1..])
      case Pair(k, v) => UpdatePairs(d[k := v], items[1..])
  }

  /** `d.update(arg)` for any JSON value: a dictionary is merged; a list is
      read pair by pair; text is read character by character, so only the
      empty text is accepted; anything else is not iterable and raises. */
  function UpdateWith(d: map<string, Value>, arg: Value): Updated
  {
    match arg
    case VObject(f) => Updated(d + f, true)
    case VList(items) => UpdatePairs(d, items)
    case VStr(s) => Updated(d, s == [])
    case _ => Updated(d, false)
  }

  /** The arguments `update` accepts without raising. */
  predicate Accepted(arg: Value)
  {
    match arg
    case VObject(_) => true
    case VList(items) => forall i :: 0 <= i < |items| ==> !ElementOf(items[i]).BadElement?
    case VStr(s) => s == []
    case _ => false
  }

  /** The argument gives a value for `key`. */
  predicate Gives(arg: Value, key: string)
  {
    match arg
    case VObject(f) => key in f
    case VList(items) => exists i :: 0 <= i < |items| && ElementOf(items[i]).Pair? && ElementOf(items[i]).key == key
    case _ => false
  }

  /** `update` returns exactly for the accepted arguments, never removes a
      key, and changes no key the argument does not give. */
  lemma UpdateWithMeaning(d: map<string, Value>, arg: Value)
    ensures UpdateWith(d, arg).ok <==> Accepted(arg)
    ensures d.Keys <= UpdateWith(d, arg).group.Keys
    ensures forall key :: key in d && !Gives(arg, key) ==> UpdateWith(d, arg).group[key] == d[key]
    ensures arg.VObject? ==> UpdateWith(d, arg).group == d + arg.fields
    ensures !arg.VList? && !arg.VObject? ==> UpdateWith(d, arg).group == d
  {
    if arg.VList? {
      UpdatePairsMeaning(d, arg.items);
    }
  }

  lemma {:induction false} UpdatePairsMeaning(d: map<string, Value>, items: seq<Value>)
    ensures UpdatePairs(d, items).ok <==> forall i :: 0 <= i < |items| ==> !ElementOf(items[i]).BadElement?
    ensures d.Keys <= UpdatePairs(d, items).group.Keys
    ensures forall key :: key in d && !Gives(VList(items), key) ==> UpdatePairs(d, items).group[key] == d[key]
    decreases |items|
  {
    if items != [] {
      var rest := items[1..];
      assert forall i :: 0 <= i < |rest| ==> rest[i] == items[i + 1];
      match ElementOf(items[0])
      case BadElement =>
      case OtherKey =>
        UpdatePairsMeaning(d, rest);
        forall key, i | key in d && !Gives(VList(items), key) && 0 <= i < |rest|
          ensures !(ElementOf(rest[i]).Pair? && ElementOf(rest[i]).key == key)
        {
          assert ElementOf(items[i + 1]) == ElementOf(rest[i]);
        }
      case Pair(k, v) =>
        UpdatePairsMeaning(d[k := v], rest);
        forall key | key in d && !Gives(VList(items), key) ensures key != k {
          assert ElementOf(items[0]).key == k;
        }
        forall key, i | key in d && !Gives(VList(items), key) && 0 <= i < |rest|
          ensures !(ElementOf(rest[i]).Pair? && ElementOf(rest[i]).key == key)
        {
          assert ElementOf(items[i + 1]) == ElementOf(rest[i]);
        }
    }
  }

  /** A list with a bad element stores the pairs before it and then raises. */
  lemma {:induction false} UpdatePairsStopsAtBad(d: map<string, Value>, items: seq<Value>, i: nat)
    requires i < |items| && ElementOf(items[i]).BadElement?
    requires forall j :: 0 <= j < i ==> !ElementOf(items[j]).BadElement?
    ensures UpdatePairs(d, items) == Updated(UpdatePairs(d, items[..i]).group, false)
    decreases i
  {
    if i > 0 {
      var rest := items[1..];
      assert items[..i][1..] == rest[..i - 1];
      assert forall j :: 0 <= j < i - 1 ==> rest[j] == items[j + 1];
      match ElementOf(items[0])
      case OtherKey => UpdatePairsStopsAtBad(d, rest, i - 1);
      case Pair(k, v) => UpdatePairsStopsAtBad(d[k := v], rest, i - 1);
    }
  }

  /** In an accepted list, the last pair naming a key decides its value. */
  lemma {:induction false} UpdatePairsLastWins(d: map<string, Value>, items: seq<Value>, i: nat)
    requires i < |items| && ElementOf(items[i]).Pair?
    requires forall j :: 0 <= j < |items| ==> !ElementOf(items[j]).BadElement?
    requires forall j :: i < j < |items| ==> !(ElementOf(items[j]).Pair? && ElementOf(items[j]).key == ElementOf(items[i]).key)
    ensures var key := ElementOf(items[i]).key;
            key in UpdatePairs(d, items).group && UpdatePairs(d, items).group[key] == ElementOf(items[i]).value
    decreases i
  {
    var rest := items[1..];
    assert forall j :: 0 <= j < |rest| ==> rest[j] == items[j + 1];
    if i == 0 {
      var p := ElementOf(items[0]);
      UpdatePairsMeaning(d[p.key := p.value], rest);
      forall j | 0 <= j < |rest| ensures !(ElementOf(rest[j]).Pair? && ElementOf(rest[j]).key == p.key) {
        assert ElementOf(items[j + 1]) == ElementOf(rest[j]);
      }
    } else {
      match ElementOf(items[0])
      case OtherKey => UpdatePairsLastWins(d, rest, i - 1);
      case Pair(k, v) => UpdatePairsLastWins(d[k := v], rest, i - 1);
    }
  }

  /** The value `load_config` passes to one group's `update`. */
  function Entry(doc: map<string, Value>, g: Group): Value
  {
    Get(doc, GroupName(g), VObject(map[]))
  }

  /** The state after one group's `update`, and whether it returned. */
  datatype Merged = Merged(state: ConfigState, ok: bool)

  /** `group.update(doc.get(name, {}))` on the state. */
  function MergeGroup(c: ConfigState, doc: map<string, Value>, g: Group): Merged
  {
    var u := UpdateWith(Of(c, g), Entry(doc, g));
    Merged(With(c, g, u.group), u.ok)
  }

  /** The groups merged in order; an update that raises stops the merge,
      keeping what it and the earlier ones stored. */
  function MergeAll(c: ConfigState, doc: map<string, Value>, gs: seq<Group>): ConfigState
    decreases |gs|
  {
    if gs == [] then c
    else
      var next := MergeGroup(c, doc, gs[0]);
      if !next.ok then next.state else MergeAll(next.state, doc, gs[1..])
  }

  /** The configuration `load_config` returns for the parsed file (`None` when
      it is missing or does not parse). */
  function LoadedState(doc: Option<Value>): ConfigState
  {
    if doc.None? || !doc.value.VObject? then Defaults else MergeAll(Defaults, doc.value.fields, Groups)
  }

  /** One `update` of `load_config`; false when it raises. */
  method MergeInto(config: PipelineConfig, doc: map<string, Value>, g: Group) returns (ok: bool)
    modifies config
    ensures var next := MergeGroup(old(config.State()), doc, g);
            ok == next.ok && config.State() == next.state
  {
    var v := Get(doc, GroupName(g), VObject(map[]));
    WithSame(config.State(), g);
    match v {
      case VObject(f) =>
        config.UpdateGroup(g, f);
        ok := true;
      case VList(items) =>
        ok := config.UpdatePairsIn(g, items);
      case VStr(s) =>
        ok := s == [];
      case _ =>
        ok := false;
    }
  }

  /** `load_config`, given the parsed file. */
  method LoadConfig(doc: Option<Value>) returns (config: PipelineConfig)
    ensures fresh(config) && config.State() == LoadedState(doc)
  {
    config := new PipelineConfig();
    if doc.None? || !doc.value.VObject? {
      return;
    }
    var d := doc.value.fields;
    MergeAllStep(Defaults, d, Groups);
    var ok := MergeInto(config, d, NormalizeGroup);
    if !ok {
      return;
    }
    MergeAllStep(config.State(), d, Groups[1..]);
    ok := MergeInto(config, d, FadeGroup);
    if !ok {
      return;
    }
    MergeAllStep(config.State(), d, Groups[2..]);
    ok := MergeInto(config, d, CrossfadeGroup);
    if !ok {
      return;
    }
    MergeAllStep(config.State(), d, Groups[3..]);
    ok := MergeInto(config, d, OutputGroup);
    if !ok {
      return;
    }
    MergeAllStep(config.State(), d, Groups[4..]);
    ok := MergeInto(config, d, PathsGroup);
  }

  /** One step of the merge. */
  lemma MergeAllStep(c: ConfigState, doc: map<string, Value>, gs: seq<Group>)
    requires gs != []
    ensures var next := MergeGroup(c, doc, gs[0]);
            MergeAll(c, doc, gs) == if !next.ok then next.state else MergeAll(next.state, doc, gs[1..])
  {
  }

  /** Merging keeps a complete state complete. */
  lemma {:induction false} MergeAllComplete(c: ConfigState, doc: map<string, Value>, gs: seq<Group>)
    requires Complete(c)
    ensures Complete(MergeAll(c, doc, gs))
    decreases |gs|
  {
    if gs != [] {
      var next := MergeGroup(c, doc, gs[0]);
      UpdateWithMeaning(Of(c, gs[0]), Entry(doc, gs[0]));
      GrowKeepsComplete(c, gs[0], next.state);
      if next.ok {
        MergeAllComplete(next.state, doc, gs[1..]);
      }
    }
  }

  /** A key the file's group entry does not give keeps its value through the
      merge. */
  lemma {:induction false} MergeAllKeeps(c: ConfigState, doc: map<string, Value>, gs: seq<Group>, g: Group, key: string)
    requires key in Of(c, g)
    requires !Gives(Entry(doc, g), key)
    ensures key in Of(MergeAll(c, doc, gs), g) && Of(MergeAll(c, doc, gs), g)[key] == Of(c, g)[key]
    decreases |gs|
  {
    if gs != [] {
      var next := MergeGroup(c, doc, gs[0]);
      UpdateWithMeaning(Of(c, gs[0]), Entry(doc, gs[0]));
      if next.ok {
        MergeAllKeeps(next.state, doc, gs[1..], g, key);
      }
    }
  }

  /** A key a dictionary entry gives wins, when every group entry the merge
      reaches is accepted. */
  lemma {:induction false} MergeAllTakes(c: ConfigState, doc: map<string, Value>, gs: seq<Group>, g: Group, key: string)
    requires forall h :: h in gs ==> Accepted(Entry(doc, h))
    requires Entry(doc, g).VObject? && key in Entry(doc, g).fields
    requires g in gs || (key in Of(c, g) && Of(c, g)[key] == Entry(doc, g).fields[key])
    ensures key in Of(MergeAll(c, doc, gs), g)
    ensures Of(MergeAll(c, doc, gs), g)[key] == Entry(doc, g).fields[key]
    decreases |gs|
  {
    if gs != [] {
      var next := MergeGroup(c, doc, gs[0]);
      UpdateWithMeaning(Of(c, gs[0]), Entry(doc, gs[0]));
      assert next.ok;
      MergeAllTakes(next.state, doc, gs[1..], g, key);
    }
  }

  /** When the entry at position i raises, every later group keeps its value;
      the group at i keeps its value unless the entry is a list, whose pairs
      before the bad element are stored when the merge reaches it. */
  lemma {:induction false} MergeAllStops(c: ConfigState, doc: map<string, Value>, gs: seq<Group>, i: nat)
    requires i < |gs|
    requires forall j, k :: 0 <= j < k < |gs| ==> gs[j] != gs[k]
    requires !Accepted(Entry(doc, gs[i]))
    ensures forall j :: i < j < |gs| ==> Of(MergeAll(c, doc, gs), gs[j]) == Of(c, gs[j])
    ensures !Entry(doc, gs[i]).VList? ==> Of(MergeAll(c, doc, gs), gs[i]) == Of(c, gs[i])
    ensures (forall j :: 0 <= j < i ==> Accepted(Entry(doc, gs[j]))) ==>
              Of(MergeAll(c, doc, gs), gs[i]) == UpdateWith(Of(c, gs[i]), Entry(doc, gs[i])).group
    decreases |gs|
  {
    var next := MergeGroup(c, doc, gs[0]);
    UpdateWithMeaning(Of(c, gs[0]), Entry(doc, gs[0]));
    if i == 0 {
      assert !next.ok;
    } else if next.ok {
      assert forall j :: 0 <= j < |gs| - 1 ==> gs[1..][j] == gs[j + 1];
      MergeAllStops(next.state, doc, gs[1..], i - 1);
      forall j | i <= j < |gs| ensures Of(next.state, gs[j]) == Of(c, gs[j]) {
        assert gs[j] != gs[0];
      }
    } else {
      forall j | i <= j < |gs| ensures Of(next.state, gs[j]) == Of(c, gs[j]) {
        assert gs[j] != gs[0];
      }
    }
  }

  /** A loaded configuration keeps every default key. */
  lemma LoadedIsComplete(doc: Option<Value>)
    ensures Complete(LoadedState(doc))
  {
    if doc.Some? && doc.value.VObject? {
      MergeAllComplete(Defaults, doc.value.fields, Groups);
    }
  }

  /** Keys the file does not give keep their default values. */
  lemma LoadedKeepsUnspecified(doc: Option<Value>, g: Group, key: string)
    requires key in Of(Defaults, g)
    requires doc.Some? && doc.value.VObject? ==> !Gives(Entry(doc.value.fields, g), key)
    ensures key in Of(LoadedState(doc), g) && Of(LoadedState(doc), g)[key] == Of(Defaults, g)[key]
  {
    if doc.Some? && doc.value.VObject? {
      MergeAllKeeps(Defaults, doc.value.fields, Groups, g, key);
    }
  }

  /** Keys a dictionary entry gives win, when every group entry is accepted. */
  lemma LoadedTakesSpecified(doc: Option<Value>, g: Group, key: string)
    requires doc.Some? && doc.value.VObject?
    requires forall h :: Accepted(Entry(doc.value.fields, h))
    requires Entry(doc.value.fields, g).VObject? && key in Entry(doc.value.fields, g).fields
    ensures key in Of(LoadedState(doc), g)
    ensures Of(LoadedState(doc), g)[key] == Entry(doc.value.fields, g).fields[key]
  {
    assert g in Groups by {
      match g
      case NormalizeGroup => assert Groups[0] == g;
      case FadeGroup => assert Groups[1] == g;
      case CrossfadeGroup => assert Groups[2] == g;
      case OutputGroup => assert Groups[3] == g;
      case PathsGroup => assert Groups[4] == g;
    }
    MergeAllTakes(Defaults, doc.value.fields, Groups, g, key);
  }

  /** An empty list is an accepted entry: the merge goes on past it. */
  lemma EmptyListEntryIsSkipped()
    ensures var doc := map["normalize" := VList([]), "fade" := VObject(map["enabled" := VBool(true)])];
            var fade := Of(LoadedState(Some(VObject(doc))), FadeGroup);
            "enabled" in fade && fade["enabled"] == VBool(true)
  {
    var doc := map["normalize" := VList([]), "fade" := VObject(map["enabled" := VBool(true)])];
    forall h ensures Accepted(Entry(doc, h)) {
    }
    LoadedTakesSpecified(Some(VObject(doc)), FadeGroup, "enabled");
  }

  /** An entry that raises stops the merge: every later group keeps its
      defaults; the entry's own group keeps them too unless it is a list,
      whose pairs before the bad element are stored when the merge reaches it. */
  lemma LoadStopsAtRejected(doc: Option<Value>, i: nat)
    requires doc.Some? && doc.value.VObject?
    requires i < |Groups|
    requires !Accepted(Entry(doc.value.fields, Groups[i]))
    ensures forall j :: i < j < |Groups| ==> Of(LoadedState(doc), Groups[j]) == Of(Defaults, Groups[j])
    ensures !Entry(doc.value.fields, Groups[i]).VList? ==> Of(LoadedState(doc), Groups[i]) == Of(Defaults, Groups[i])
    ensures (forall j :: 0 <= j < i ==> Accepted(Entry(doc.value.fields, Groups[j]))) ==>
              Of(LoadedState(doc), Groups[i]) == UpdateWith(Of(Defaults, Groups[i]), Entry(doc.value.fields, Groups[i])).group
  {
    MergeAllStops(Defaults, doc.value.fields, Groups, i);
  }

  /** With no usable file the defaults are returned. */
  lemma MissingFileGivesDefaults(doc: Option<Value>)
    requires doc.None? || !doc.value.VObject?
    ensures LoadedState(doc) == Defaults
  {
  }
}
