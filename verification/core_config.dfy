/** The global settings object of audiokit/core/config.py, read from an
    environment given as a map. Creating the directories and logging are
    outside the model. */
module CoreConfig {
  import opened Wrappers
  import Text

  type Env = map<string, string>

  /** `Config.get(key, default)`: `os.getenv`. */
  function Get(env: Env, key: string, default: Option<string>): (r: Option<string>)
    ensures key in env ==> r == Some(env[key])
    ensures key !in env ==> r == default
  {
    if key in env then Some(env[key]) else default
  }

  /** Python's `str(b)` on a bool. */
  function BoolStr(b: bool): string {
    if b then "True" else "False"
  }

  const TrueWords: set<string> := {"true", "1", "t", "y", "yes"}

  /** `Config.get_bool(key, default)`: the lower-cased value (or `str` of
      the default) is one of the accepted words. */
  function GetBool(env: Env, key: string, default: bool): (r: bool)
    ensures key in env ==> (r <==> Text.Lower(env[key]) in TrueWords)
  {
    var value := if key in env then env[key] else BoolStr(default);
    Text.Lower(value) in TrueWords
  }

  /** An unset key gives back the default, and a set value is read
      without regard to case: two values that lower to the same text read
      alike, and a value reads as its lower-cased form does. */
  lemma GetBoolDefault(env: Env, key: string, default: bool, v: string, w: string)
    ensures key !in env ==> GetBool(env, key, default) == default
    ensures Text.Lower(v) == Text.Lower(w) ==> GetBool(env[key := v], key, default) == GetBool(env[key := w], key, default)
    ensures GetBool(env[key := v], key, default) == GetBool(env[key := Text.Lower(v)], key, default)
  {
    BoolWords();
    Text.LowerIdempotent(v);
  }

  lemma BoolWords()
    ensures Text.Lower("True") in TrueWords && Text.Lower("False") !in TrueWords
  {
    assert Text.Lower("True") == "true";
    assert Text.Lower("False") == "false";
  }

  // ---------------------------------------------------------------------
  // `int()` on a decimal string.

  predicate IsDigit(c: char) {
    '0' <= c <= '9'
  }

  /** The value of a non-empty run of decimal digits. */
  function DigitsValue(s: string): nat
    requires forall i :: 0 <= i < |s| ==> IsDigit(s[i])
  {
    if |s| == 0 then 0
    else
      assert IsDigit(s[|s| - 1]);
      DigitsValue(s[..|s| - 1]) * 10 + (s[|s| - 1] as int - '0' as int)
  }

  /** A non-empty run of decimal digits. */
  predicate Digits(s: string) {
    |s| > 0 && forall i :: 0 <= i < |s| ==> IsDigit(s[i])
  }

  /** `int(s)` for an optionally signed run of decimal digits; anything else
      is a ValueError (`None`). */
  function ParseInt(s: string): (r: Option<int>)
    ensures r.Some? <==> Digits(s) || (|s| > 0 && (s[0] == '-' || s[0] == '+') && Digits(s[1..]))
    ensures Digits(s) ==> r == Some(DigitsValue(s))
    ensures |s| > 0 && s[0] == '+' && Digits(s[1..]) ==> r == Some(DigitsValue(s[1..]))
    ensures |s| > 0 && s[0] == '-' && Digits(s[1..]) ==> r == Some(0 - DigitsValue(s[1..]) as int)
  {
    var sign := if |s| > 0 && (s[0] == '-' || s[0] == '+') then 1 else 0;
    var digits := s[sign..];
    if |digits| == 0 || !(forall i :: 0 <= i < |digits| ==> IsDigit(digits[i])) then None
    else
      var v: int := DigitsValue(digits);
      Some(if sign == 1 && s[0] == '-' then -v else v)
  }

  /** `str(n)` for an integer. */
  function ShowNat(n: nat): (s: string)
    ensures |s| > 0 && forall i :: 0 <= i < |s| ==> IsDigit(s[i])
  {
    var d := [(('0' as int) + n % 10) as char];
    if n < 10 then d else ShowNat(n / 10) + d
  }

  function Show(n: int): string {
    if n < 0 then "-" + ShowNat(-n) else ShowNat(n)
  }

  lemma {:induction false} ShowNatRoundTrip(n: nat)
    ensures DigitsValue(ShowNat(n)) == n
  {
    var s := ShowNat(n);
    if n >= 10 {
      ShowNatRoundTrip(n / 10);
      assert s[..|s| - 1] == ShowNat(n / 10);
    }
  }

  /** Parsing what `str` printed gives the number back. */
  lemma ParseShowRoundTrip(n: int)
    ensures ParseInt(Show(n)) == Some(n)
  {
    if n < 0 {
      ShowNatRoundTrip(-n);
      assert Show(n)[1..] == ShowNat(-n);
    } else {
      ShowNatRoundTrip(n);
    }
  }

  // ---------------------------------------------------------------------
  // The settings object.

  datatype Config = Config(
    logLevel: string,
    logFile: Option<string>,
    modelsDir: string,
    outputDir: string,
    tempDir: string,
    soundchartsAppId: Option<string>,
    soundchartsApiKey: Option<string>,
    pineconeApiKey: Option<string>,
    pineconeIndexName: string,
    pineconeDimension: int,
    pineconeMetric: string)

  /** `Config()`: every setting from its environment variable or its
      default; the dimension must parse as an integer. */
  function New(env: Env): (r: Result<Config, string>)
    ensures r.Err? <==> ParseInt(Get(env, "PINECONE_DIMENSION", Some("1536")).value).None?
    ensures r.Ok? ==> Some(r.value.logLevel) == Get(env, "AUDIOKIT_LOG_LEVEL", Some("INFO"))
    ensures r.Ok? ==> r.value.logFile == Get(env, "AUDIOKIT_LOG_FILE", None)
    ensures r.Ok? ==> Some(r.value.modelsDir) == Get(env, "AUDIOKIT_MODELS_DIR", Some("models"))
    ensures r.Ok? ==> Some(r.value.outputDir) == Get(env, "AUDIOKIT_OUTPUT_DIR", Some("output"))
    ensures r.Ok? ==> Some(r.value.tempDir) == Get(env, "AUDIOKIT_TEMP_DIR", Some("temp"))
    ensures r.Ok? ==> Some(r.value.pineconeIndexName) == Get(env, "PINECONE_INDEX_NAME", Some("audiokit-brain"))
    ensures r.Ok? ==> Some(r.value.pineconeMetric) == Get(env, "PINECONE_METRIC", Some("cosine"))
  {
    var dimension := ParseInt(Get(env, "PINECONE_DIMENSION", Some("1536")).value);
    if dimension.None? then Err("ValueError: invalid literal for int()")
    else Ok(Config(
      Get(env, "AUDIOKIT_LOG_LEVEL", Some("INFO")).value,
      Get(env, "AUDIOKIT_LOG_FILE", None),
      Get(env, "AUDIOKIT_MODELS_DIR", Some("models")).value,
      Get(env, "AUDIOKIT_OUTPUT_DIR", Some("output")).value,
      Get(env, "AUDIOKIT_TEMP_DIR", Some("temp")).value,
      Get(env, "SOUNDCHARTS_APP_ID", None),
      Get(env, "SOUNDCHARTS_API_KEY", None),
      Get(env, "PINECONE_API_KEY", None),
      Get(env, "PINECONE_INDEX_NAME", Some("audiokit-brain")).value,
      dimension.value,
      Get(env, "PINECONE_METRIC", Some("cosine")).value))
  }

  /** With an empty environment every setting is its default. */
  lemma EmptyEnvDefaults()
    ensures var r := New(map[]);
      && r.Ok?
      && r.value == Config("INFO", None, "models", "output", "temp", None, None, None,
                           "audiokit-brain", 1536, "cosine")
  {
    ParseShowRoundTrip(1536);
    assert Show(1536) == "1536";
  }

  /** `to_dict()`: the logging and directory settings only. */
  function ToDict(c: Config): (d: map<string, Option<string>>)
    ensures d.Keys == {"log_level", "log_file", "models_dir", "output_dir", "temp_dir"}
    ensures d["log_level"] == Some(c.logLevel) && d["log_file"] == c.logFile
    ensures d["models_dir"] == Some(c.modelsDir) && d["output_dir"] == Some(c.outputDir)
    ensures d["temp_dir"] == Some(c.tempDir)
  {
    map["log_level" := Some(c.logLevel), "log_file" := c.logFile, "models_dir" := Some(c.modelsDir),
        "output_dir" := Some(c.outputDir), "temp_dir" := Some(c.tempDir)]
  }

  /** `Path(dir) / name` for a relative name without separators: the
      directory, a separator and the name (an empty or `.` directory
      contributes nothing). */
  function Join(dir: string, name: string): (p: string)
    ensures Text.EndsWith(p, name)
    ensures dir != "" && dir != "." ==> Text.StartsWith(p, dir)
  {
    if dir == "" || dir == "." then name
    else if dir[|dir| - 1] == '/' then dir + name
    else dir + "/" + name
  }

  /** The joined path names the file itself. */
  lemma JoinName(dir: string, name: string)
    ensures |name| > 0 && '/' !in name ==> Text.Name(Join(dir, name)) == name
  {
    if |name| > 0 && '/' !in name {
      var a := if dir == "" || dir == "." then "" else if dir[|dir| - 1] == '/' then dir else dir + "/";
      var p := Join(dir, name);
      assert p == a + name;
      Text.RFindSplit(a, name, '/');
      assert p[|p| - 1] == name[|name| - 1];
      assert p[|a|..] == name;
    }
  }

  /** `model_path`: a file of that name in the models directory. */
  function ModelPath(c: Config, modelName: string): (p: string)
    ensures |modelName| > 0 && '/' !in modelName ==> Text.Name(p) == modelName
    ensures c.modelsDir != "" && c.modelsDir != "." ==> Text.StartsWith(p, c.modelsDir)
  {
    JoinName(c.modelsDir, modelName);
    Join(c.modelsDir, modelName)
  }

  /** `output_path`: a file of that name in the output directory. */
  function OutputPath(c: Config, filename: string): (p: string)
    ensures |filename| > 0 && '/' !in filename ==> Text.Name(p) == filename
    ensures c.outputDir != "" && c.outputDir != "." ==> Text.StartsWith(p, c.outputDir)
  {
    JoinName(c.outputDir, filename);
    Join(c.outputDir, filename)
  }

  /** `temp_path`: a file of that name in the temporary directory. */
  function TempPath(c: Config, filename: string): (p: string)
    ensures |filename| > 0 && '/' !in filename ==> Text.Name(p) == filename
    ensures c.tempDir != "" && c.tempDir != "." ==> Text.StartsWith(p, c.tempDir)
  {
    JoinName(c.tempDir, filename);
    Join(c.tempDir, filename)
  }
}
