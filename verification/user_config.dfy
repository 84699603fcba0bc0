/** The user configuration of audiokit/config.py: defaults, overlaid by the
    JSON file `~/.audiokit/config.json` when it loads, overlaid by the
    `AUDIOKIT_API_BASE` environment variable when it is non-empty. The file
    system and the environment are parameters. */
module UserConfig {
  import opened Wrappers
  import opened Json

  const DefaultApiBase := "http://localhost:8000/api/v1"
  const ApiSuffix := "/api/v1"

  const Defaults: map<string, Json> :=
    map["api_base_url" := JStr(DefaultApiBase), "log_level" := JStr("INFO")]

  /** What reading the configuration file yields. */
  datatype FileState =
    | Missing               // the file does not exist
    | Unreadable            // opening or parsing it raises
    | Parsed(doc: Json)     // `json.load` returned this value

  /** The key and value `dict.update` takes from one element of a list
      document: a two-element list whose first element is a string, or a
      two-character string (its two characters); any other element makes
      it raise. */
  function PairOf(item: Json): (r: Option<(string, Json)>)
    ensures r.Some? <==> (item.JList? && |item.items| == 2 && item.items[0].JStr?) || (item.JStr? && |item.s| == 2)
    ensures item.JList? && r.Some? ==> r.value == (item.items[0].s, item.items[1])
  {
    match item
    case JList(kv) => if |kv| == 2 && kv[0].JStr? then Some((kv[0].s, kv[1])) else None
    case JStr(s) => if |s| == 2 then Some(([s[0]], JStr([s[1]]))) else None
    case _ => None
  }

  /** `config.update(items)` for a list document: the pairs are applied in
      order, and the first element that is not a pair raises, leaving the
      pairs before it applied. */
  function UpdatePairs(config: map<string, Json>, items: seq<Json>): (r: map<string, Json>)
    decreases |items|
  {
    if |items| == 0 then config
    else match PairOf(items[0])
      case None => config
      case Some((k, v)) => UpdatePairs(config[k := v], items[1..])
  }

  /** Applying pairs to a configuration is overlaying it with the map the
      same pairs build from nothing. */
  lemma {:induction false} UpdatePairsOverlays(config: map<string, Json>, items: seq<Json>)
    ensures UpdatePairs(config, items) == config + UpdatePairs(map[], items)
    decreases |items|
  {
    if |items| == 0 {
      assert config + map[] == config;
    } else if PairOf(items[0]).Some? {
      var (k, v) := PairOf(items[0]).value;
      var rest := UpdatePairs(map[], items[1..]);
      UpdatePairsOverlays(config[k := v], items[1..]);
      UpdatePairsOverlays(map[k := v], items[1..]);
      assert config + (map[k := v] + rest) == config[k := v] + rest;
    } else {
      assert config + map[] == config;
    }
  }

  /** Everything from the first element that is not a pair on is ignored. */
  lemma {:induction false} UpdateStopsAtNonPair(config: map<string, Json>, items: seq<Json>, i: nat)
    requires i < |items| && PairOf(items[i]).None?
    ensures UpdatePairs(config, items) == UpdatePairs(config, items[..i])
    decreases i
  {
    if i > 0 {
      assert items[..i][0] == items[0];
    }
    if i > 0 && PairOf(items[0]).Some? {
      var (k, v) := PairOf(items[0]).value;
      assert items[1..][i - 1] == items[i];
      UpdateStopsAtNonPair(config[k := v], items[1..], i - 1);
      assert items[..i][1..] == items[1..][..i - 1];
    }
  }

  /** What the file contributes to the configuration: the fields of an
      object, the leading pairs of a list, and nothing for a missing or
      unreadable file or any other document (a string is iterated as
      one-character elements, which are not pairs, and a scalar is not
      iterable at all). */
  function Contribution(file: FileState): map<string, Json> {
    if !file.Parsed? then map[]
    else match file.doc
      case JObj(fields) => fields
      case JList(items) => UpdatePairs(map[], items)
      case _ => map[]
  }

  /** `config.update(json.load(f))`, with any exception caught: the
      configuration is overlaid with what the file contributes. */
  function Overlay(config: map<string, Json>, file: FileState): (r: map<string, Json>)
    ensures r == config + Contribution(file)
    ensures !file.Parsed? || !(file.doc.JObj? || file.doc.JList?) ==> r == config
  {
    match file
    case Parsed(JObj(fields)) => config + fields
    case Parsed(JList(items)) => UpdatePairsOverlays(config, items); UpdatePairs(config, items)
    case _ => assert config + map[] == config; config
  }

  /** `load_config()`. */
  function Load(file: FileState, apiBaseEnv: Option<string>): (r: map<string, Json>)
    ensures r.Keys == Defaults.Keys + Contribution(file).Keys
    ensures apiBaseEnv.Some? && |apiBaseEnv.value| > 0 ==>
      r["api_base_url"] == JStr(apiBaseEnv.value + ApiSuffix)
    ensures forall k :: k in r && k != "api_base_url" ==>
      r[k] == (if k in Contribution(file) then Contribution(file)[k] else Defaults[k])
  {
    var config := Overlay(Defaults, file);
    if apiBaseEnv.Some? && |apiBaseEnv.value| > 0 then config["api_base_url" := JStr(apiBaseEnv.value + ApiSuffix)]
    else config
  }

  /** Precedence, highest first: the non-empty environment variable, the
      file, the defaults; an empty variable counts as unset, and a file that
      fails to load counts as missing. */
  lemma Precedence(file: FileState, env: string)
    ensures |env| > 0 ==> Load(file, Some(env))["api_base_url"] == JStr(env + ApiSuffix)
    ensures Load(file, Some("")) == Load(file, None)
    ensures Load(Unreadable, None) == Defaults && Load(Missing, None) == Defaults
    ensures file.Parsed? && file.doc.JObj? && "api_base_url" in file.doc.fields ==>
      Load(file, None)["api_base_url"] == file.doc.fields["api_base_url"]
    ensures file.Parsed? && !file.doc.JObj? && !file.doc.JList? ==> Load(file, None) == Defaults
    ensures file.Parsed? && file.doc.JList? && |file.doc.items| > 0 && PairOf(file.doc.items[0]).None? ==>
      Load(file, None) == Defaults
    ensures file.Parsed? && file.doc.JList? && |file.doc.items| > 0 && PairOf(file.doc.items[0]).Some? ==>
      PairOf(file.doc.items[0]).value.0 in Load(file, None)
  {
    if file.Parsed? && file.doc.JList? && |file.doc.items| > 0 && PairOf(file.doc.items[0]).Some? {
      var (k, v) := PairOf(file.doc.items[0]).value;
      UpdatePairsOverlays(map[k := v], file.doc.items[1..]);
    }
  }

  /** `save_config(config)`: the file afterwards parses to the object. */
  function Save(config: map<string, Json>): (file: FileState)
    ensures file.Parsed? && file.doc == JObj(config)
  {
    Parsed(JObj(config))
  }

  /** Saving and loading again, with no environment override, gives the
      defaults overlaid with what was saved. */
  lemma SaveLoadRoundTrip(config: map<string, Json>)
    ensures Load(Save(config), None) == Defaults + config
    ensures Defaults.Keys <= config.Keys ==> Load(Save(config), None) == config
  {
    if Defaults.Keys <= config.Keys {
      assert (Defaults + config).Keys == config.Keys;
    }
  }

  /** `get_api_base_url()`. */
  function ApiBaseUrl(file: FileState, apiBaseEnv: Option<string>): (r: Json)
    ensures r == Load(file, apiBaseEnv)["api_base_url"]
    ensures !(apiBaseEnv.Some? && |apiBaseEnv.value| > 0) &&
            "api_base_url" !in Contribution(file) ==>
      r == JStr(DefaultApiBase)
  {
    Load(file, apiBaseEnv)["api_base_url"]
  }
}
