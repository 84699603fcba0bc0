/** The HTTP client `AudioKit` (audiokit_cli/__init__.py) without the
    network: configuration lookup and precedence, the request header, the
    file checks and the classification of the server's reply. Whether a file
    exists, what a configuration file parses to, and what the server answers
    are inputs. */
module Client {
  import opened Wrappers
  import opened Json
  import Text
  import Audio
  import CoreConfig
  import E = ClientErrors

  // ---------------------------------------------------------------------
  // Configuration

  /** One candidate configuration file: whether it exists, and what
      `yaml.safe_load` made of it (`None` when opening or parsing raised). */
  datatype Location = Location(present: bool, loaded: Option<Json>)

  predicate Usable(l: Option<Location>) {
    l.Some? && l.value.present && l.value.loaded.Some?
  }

  /** The four candidates in the order they are tried: the explicit path
      (absent when none was given), `config.yml`, `audiokit/config.yml` and
      `~/.audiokit/config.yml`. */
  function Locations(explicit: Option<Location>, cwd: Location, package: Location, home: Location)
    : (r: seq<Option<Location>>)
    ensures |r| == 4 && r[0] == explicit
    ensures r[1..] == [Some(cwd), Some(package), Some(home)]
  {
    [explicit, Some(cwd), Some(package), Some(home)]
  }

  /** The configuration in effect: the document of the first candidate that
      exists and loads, or the empty mapping when none does. */
  function FindConfig(locs: seq<Option<Location>>): (r: Json)
    ensures forall i :: 0 <= i < |locs| && Usable(locs[i]) && (forall j :: 0 <= j < i ==> !Usable(locs[j])) ==>
      r == locs[i].value.loaded.value
    ensures (forall i :: 0 <= i < |locs| ==> !Usable(locs[i])) ==> r == JObj(map[])
  {
    if |locs| == 0 then JObj(map[])
    else if Usable(locs[0]) then locs[0].value.loaded.value
    else FindConfig(locs[1..])
  }

  /** A candidate that is missing or does not load is skipped: it never
      decides the configuration. */
  lemma {:induction false} SkipUnusable(locs: seq<Option<Location>>, i: nat)
    requires i < |locs| && !Usable(locs[i])
    ensures FindConfig(locs) == FindConfig(locs[..i] + locs[i + 1..])
  {
    if i == 0 {
      assert locs[..0] + locs[1..] == locs[1..];
    } else {
      SkipUnusable(locs[1..], i - 1);
      var rest := locs[..i] + locs[i + 1..];
      DropInside(locs, i);
      assert rest[0] == locs[0];
    }
  }

  /** Dropping element `i > 0` commutes with dropping the head. */
  lemma DropInside(s: seq<Option<Location>>, i: nat)
    requires 0 < i < |s|
    ensures s[1..][..i - 1] + s[1..][i..] == (s[..i] + s[i + 1..])[1..]
  {
  }

  const DefaultApiUrl := "http://localhost:8000"
  const DefaultTimeout: real := 30.0
  const DefaultMaxFileSize: int := 52428800

  datatype Settings = Settings(apiUrl: Json, apiKey: Json, timeout: real, maxFileSize: int)

  /** Why the constructor fails: the configuration document is not a
      mapping (`.get` raises), or a setting does not convert. */
  datatype InitError = NotAMapping(typeName: string) | BadTimeout(value: Json) | BadMaxFileSize(value: Json)

  /** `float(v)` for the values a YAML document holds; of strings only
      integer literals are read. */
  function ToFloat(v: Json): (r: Option<real>)
    ensures v.JInt? ==> r == Some(v.i as real)
    ensures v.JReal? ==> r == Some(v.r)
    ensures (v.JNull? || v.JList? || v.JObj?) ==> r.None?
  {
    if v.JStr? then
      (match CoreConfig.ParseInt(v.s) case Some(n) => Some(n as real) case None => None)
    else AsNumber(v)
  }

  /** `int(v)`: floats are truncated toward zero. */
  function ToInt(v: Json): (r: Option<int>)
    ensures v.JInt? ==> r == Some(v.i)
    ensures v.JReal? ==> r == Some(Audio.Trunc(v.r))
    ensures v.JBool? ==> r == Some(if v.b then 1 else 0)
    ensures (v.JNull? || v.JList? || v.JObj?) ==> r.None?
  {
    match v
    case JInt(i) => Some(i)
    case JReal(x) => Some(Audio.Trunc(x))
    case JBool(b) => Some(if b then 1 else 0)
    case JStr(s) => CoreConfig.ParseInt(s)
    case _ => None
  }

  /** The settings read from a configuration that is a mapping: the
      arguments take precedence when truthy (an empty key argument also
      defers to the file), then the file, then the defaults. */
  function Settle(apiUrl: Option<string>, apiKey: Option<string>, fields: map<string, Json>)
    : (r: Result<Settings, InitError>)
    ensures TruthyStr(apiUrl) && r.Ok? ==> r.value.apiUrl == JStr(apiUrl.value)
    ensures !TruthyStr(apiUrl) && r.Ok? ==>
      r.value.apiUrl == (if "api_url" in fields then fields["api_url"] else JStr(DefaultApiUrl))
    ensures TruthyStr(apiKey) && r.Ok? ==> r.value.apiKey == JStr(apiKey.value)
    ensures !TruthyStr(apiKey) && r.Ok? ==>
      r.value.apiKey == (if "api_key" in fields then fields["api_key"] else JNull)
    ensures "timeout" !in fields && "max_file_size" !in fields ==>
      r.Ok? && r.value.timeout == DefaultTimeout && r.value.maxFileSize == DefaultMaxFileSize
    // `float(...)` of the file's timeout, then `int(...)` of its size limit
    ensures var t := if "timeout" in fields then fields["timeout"] else JReal(DefaultTimeout);
            var m := if "max_file_size" in fields then fields["max_file_size"] else JInt(DefaultMaxFileSize);
      && (r.Err? <==> ToFloat(t).None? || ToInt(m).None?)
      && (ToFloat(t).None? ==> r == Err(BadTimeout(t)))
      && (ToFloat(t).Some? && ToInt(m).None? ==> r == Err(BadMaxFileSize(m)))
      && (r.Ok? ==> Some(r.value.timeout) == ToFloat(t) && Some(r.value.maxFileSize) == ToInt(m))
  {
    var url := if TruthyStr(apiUrl) then JStr(apiUrl.value) else Get(fields, "api_url", JStr(DefaultApiUrl));
    var key := if TruthyStr(apiKey) then JStr(apiKey.value) else Get(fields, "api_key", JNull);
    var t := Get(fields, "timeout", JReal(DefaultTimeout));
    var m := Get(fields, "max_file_size", JInt(DefaultMaxFileSize));
    match (ToFloat(t), ToInt(m))
    case (None, _) => Err(BadTimeout(t))
    case (_, None) => Err(BadMaxFileSize(m))
    case (Some(timeout), Some(size)) => Ok(Settings(url, key, timeout, size))
  }

  /** `AudioKit.__init__` as written: `.get` is called on whatever the YAML
      loader returned, so an existing but empty `config.yml` (which loads as
      `None`) makes construction fail. */
  function InitAsWritten(apiUrl: Option<string>, apiKey: Option<string>, config: Json)
    : (r: Result<Settings, InitError>)
    ensures !config.JObj? ==> r == Err(NotAMapping(TypeName(config)))
    ensures config.JObj? ==> r == Settle(apiUrl, apiKey, config.fields)
  {
    if config.JObj? then Settle(apiUrl, apiKey, config.fields)
    else Err(NotAMapping(TypeName(config)))
  }

  /** An empty configuration file makes the client unusable even when both
      the URL and the key are passed explicitly. */
  lemma EmptyFileBreaksInit(url: string, key: string, cwd: Location, package: Location, home: Location)
    requires url != "" && key != ""
    ensures InitAsWritten(Some(url), Some(key),
                          FindConfig(Locations(None, Location(true, Some(JNull)), package, home))).Err?
  {
    var locs := Locations(None, Location(true, Some(JNull)), package, home);
    assert !Usable(locs[0]) && Usable(locs[1]);
  }

  /** The constructor with an empty document read as an empty mapping, as
      the defaults promise for a configuration that says nothing. */
  function Init(apiUrl: Option<string>, apiKey: Option<string>, config: Json)
    : (r: Result<Settings, InitError>)
    ensures config.JNull? ==> r == Settle(apiUrl, apiKey, map[])
    ensures config.JObj? ==> r == InitAsWritten(apiUrl, apiKey, config)
    ensures (config.JNull? || config.JObj?) <==> r != Err(NotAMapping(TypeName(config)))
  {
    if config.JNull? then Settle(apiUrl, apiKey, map[])
    else InitAsWritten(apiUrl, apiKey, config)
  }

  /** With nothing configured anywhere, or an empty file, the defaults
      apply and the arguments are used when given. */
  lemma EmptyConfigDefaults(apiUrl: Option<string>, apiKey: Option<string>)
    ensures Init(apiUrl, apiKey, JNull) == Init(apiUrl, apiKey, JObj(map[]))
    ensures Init(apiUrl, apiKey, JNull).Ok?
    ensures Init(apiUrl, apiKey, JNull).value.apiUrl ==
      (if TruthyStr(apiUrl) then JStr(apiUrl.value) else JStr(DefaultApiUrl))
    ensures Init(apiUrl, apiKey, JNull).value.apiKey ==
      (if TruthyStr(apiKey) then JStr(apiKey.value) else JNull)
  {
  }

  // ---------------------------------------------------------------------
  // The request

  /** The request headers: the key header is sent iff the key is truthy. */
  function Headers(apiKey: Json): (r: map<string, Json>)
    ensures "X-API-Key" in r <==> Truthy(apiKey)
    ensures "X-API-Key" in r ==> r["X-API-Key"] == apiKey
    ensures r.Keys <= {"X-API-Key"}
  {
    if Truthy(apiKey) then map["X-API-Key" := apiKey] else map[]
  }

  const ClientFormats: set<string> := {".wav", ".mp3", ".ogg", ".flac"}

  /** The upload's content type, by lower-cased suffix. */
  function ContentType(suffix: string): (r: Option<string>)
    ensures r.Some? <==> suffix in ClientFormats
  {
    if suffix == ".wav" then Some("audio/wav")
    else if suffix == ".mp3" then Some("audio/mpeg")
    else if suffix == ".ogg" then Some("audio/ogg")
    else if suffix == ".flac" then Some("audio/flac")
    else None
  }

  /** Distinct formats are uploaded with distinct content types. */
  lemma ContentTypesDistinct(a: string, b: string)
    requires a in ClientFormats && b in ClientFormats && a != b
    ensures ContentType(a) != ContentType(b)
  {
  }

  /** What is uploaded: a path (with whether it exists) or an open stream. */
  datatype Upload = FromPath(path: string, present: bool) | FromStream

  /** A failure inside `analyze`: one of the client's own errors, or another
      exception (a reply that is not JSON or not a mapping), named by a
      fixed description. */
  datatype Raised = Known(e: E.Error) | Other(description: string)

  const NotJson := "response is not JSON"
  const NotMapping := "response JSON is not a mapping"
  const NotIterable := "the errors field is not iterable"

  /** Values a `for` loop can walk: strings, lists and mappings (by key). */
  predicate Iterable(j: Json) {
    j.JStr? || j.JList? || j.JObj?
  }

  /** A truthy `errors` field the warning loop cannot iterate: a non-zero
      number or `true`. */
  predicate UnwalkableErrors(fields: map<string, Json>) {
    "errors" in fields && Truthy(fields["errors"]) && !Iterable(fields["errors"])
  }

  /** The path checks: existence first, then the case-insensitive suffix;
      on success the content type to send. */
  function CheckUpload(u: Upload): (r: Result<Option<string>, Raised>)
    ensures u.FromStream? ==> r == Ok(None)
    ensures u.FromPath? && !u.present ==> r == Err(Known(E.Validation("File not found: " + u.path)))
    ensures u.FromPath? && u.present ==>
      (r.Ok? <==> Text.Lower(Text.Suffix(u.path)) in ClientFormats)
    ensures u.FromPath? && r.Ok? ==> r.value.Some?
    ensures u.FromPath? && u.present && r.Err? ==>
      r.error == Known(E.Validation("Unsupported audio format: " + Text.Suffix(u.path)))
  {
    match u
    case FromStream => Ok(None)
    case FromPath(path, present) =>
      if !present then Err(Known(E.Validation("File not found: " + path)))
      else
        var suffix := Text.Lower(Text.Suffix(path));
        if suffix !in ClientFormats then Err(Known(E.Validation("Unsupported audio format: " + Text.Suffix(path))))
        else Ok(ContentType(suffix))
  }

  /** What the server did: answered with a status, the text of the status
      error httpx would raise for it, and the body parsed as JSON (`None`
      when it is not JSON); or the request itself failed. */
  datatype Reply = Answered(status: int, statusText: string, body: Option<Json>) | RequestFailed(reason: string)

  const PermissionMessage := "API key does not have required permissions"

  /** `str()` of a value in an f-string, for the values a detail field
      usually holds. */
  function Show(j: Json): (r: string)
    ensures j.JStr? ==> r == j.s
  {
    match j
    case JStr(s) => s
    case JNull => "None"
    case JBool(b) => if b then "True" else "False"
    case JInt(i) => CoreConfig.Show(i)
    case _ => "<value>"
  }

  predicate Success(status: int) {
    200 <= status < 300
  }

  /** The inner `try`: explicit statuses first, then the status check of
      httpx, then the body, which must be a JSON mapping. */
  function Classify(reply: Reply): (r: Result<Json, Raised>)
    ensures reply.RequestFailed? ==> r == Err(Known(E.Api("Request failed: " + reply.reason, None)))
    ensures reply.Answered? && reply.status == 401 ==> r == Err(Known(E.Auth(Some("Invalid API key"))))
    ensures reply.Answered? && reply.status == 403 ==> r == Err(Known(E.Auth(Some(PermissionMessage))))
    ensures reply.Answered? && reply.status == 400 && reply.body.Some? && reply.body.value.JObj? ==>
      r == Err(Known(E.Validation("Invalid request: " +
                                  Show(Get(reply.body.value.fields, "detail", JStr("Bad request"))))))
    ensures reply.Answered? && !Success(reply.status) && reply.status !in {0, 400, 401, 403} ==>
      r.Err? && r.error.Known? && r.error.e.cls == E.APIError && r.error.e.status == Some(reply.status)
    ensures r.Ok? ==> reply.Answered? && Success(reply.status) && reply.body == Some(r.value) && r.value.JObj?
    // a 2xx mapping body is returned unless the warning loop over a truthy
    // `errors` field raises TypeError
    ensures reply.Answered? && Success(reply.status) && reply.body.Some? && reply.body.value.JObj? ==>
      r == (if UnwalkableErrors(reply.body.value.fields) then Err(Other(NotIterable)) else Ok(reply.body.value))
  {
    match reply
    case RequestFailed(reason) => Err(Known(E.Api("Request failed: " + reason, None)))
    case Answered(status, statusText, body) =>
      if status == 401 then Err(Known(E.Auth(Some("Invalid API key"))))
      else if status == 403 then Err(Known(E.Auth(Some(PermissionMessage))))
      else if status == 400 then
        (if body.None? then Err(Other(NotJson))
         else if !body.value.JObj? then Err(Other(NotMapping))
         else Err(Known(E.Validation("Invalid request: " + Show(Get(body.value.fields, "detail", JStr("Bad request")))))))
      else if !Success(status) then
        var detail := if body.Some? && body.value.JObj? then ": " + Show(Get(body.value.fields, "detail", JStr(""))) else "";
        Err(Known(E.Api("API request failed: " + statusText + detail, Some(status))))
      else if body.None? then Err(Other(NotJson))
      else if !body.value.JObj? then Err(Other(NotMapping))
      else if UnwalkableErrors(body.value.fields) then Err(Other(NotIterable))
      else Ok(body.value)
  }

  /** The checks and the request, before the outer handler. */
  function Attempt(u: Upload, reply: Reply): (r: Result<Json, Raised>)
    ensures CheckUpload(u).Err? ==> r == Err(CheckUpload(u).error)
    ensures CheckUpload(u).Ok? ==> r == Classify(reply)
  {
    var _ :- CheckUpload(u);
    Classify(reply)
  }

  /** `analyze` as written: the outer `except Exception` turns every
      failure, the client's own errors included, into an `APIError` with
      status 500. */
  function AnalyzeAsWritten(u: Upload, reply: Reply): (r: Result<Json, E.Error>)
    ensures Attempt(u, reply).Ok? ==> r == Ok(Attempt(u, reply).value)
    ensures Attempt(u, reply).Err? && Attempt(u, reply).error.Known? ==>
      r == Err(E.Api("Analysis failed: " + E.Str(Attempt(u, reply).error.e), None))
  {
    match Attempt(u, reply)
    case Ok(v) => Ok(v)
    case Err(Known(e)) => Err(E.Api("Analysis failed: " + E.Str(e), None))
    case Err(Other(d)) => Err(E.Api("Analysis failed: " + d, None))
  }

  /** As written, a caller never sees the authentication or validation
      errors `analyze` documents, nor the server's status: every failure is
      an `APIError` with status 500. */
  lemma AsWrittenAlwaysApi500(u: Upload, reply: Reply)
    ensures AnalyzeAsWritten(u, reply).Err? ==>
      AnalyzeAsWritten(u, reply).error.cls == E.APIError && AnalyzeAsWritten(u, reply).error.status == Some(500)
  {
  }

  /** For instance a rejected key (status 401) reaches the caller as an
      `APIError` 500, not as an `AuthError`. */
  lemma AsWrittenHidesAuthError(text: string, body: Option<Json>)
    ensures AnalyzeAsWritten(FromStream, Answered(401, text, body)) ==
      Err(E.Api("Analysis failed: Invalid API key", None))
  {
    assert "Analysis failed: " + "Invalid API key" == "Analysis failed: Invalid API key";
  }

  /** `analyze` with the client's own errors passed through unchanged, as
      its documentation promises; only foreign exceptions are wrapped. */
  function Analyze(u: Upload, reply: Reply): (r: Result<Json, E.Error>)
    ensures Attempt(u, reply).Ok? ==> r == Ok(Attempt(u, reply).value)
    ensures Attempt(u, reply).Err? && Attempt(u, reply).error.Known? ==> r == Err(Attempt(u, reply).error.e)
    ensures Attempt(u, reply).Err? && Attempt(u, reply).error.Other? ==>
      r == AnalyzeAsWritten(u, reply)
  {
    match Attempt(u, reply)
    case Ok(v) => Ok(v)
    case Err(Known(e)) => Err(e)
    case Err(Other(d)) => Err(E.Api("Analysis failed: " + d, None))
  }

  /** The corrected `analyze` reports what went wrong by class and status:
      a missing file or a bad request is a `ValidationError` (400), a
      refused key an `AuthError` (401), any other failing status an
      `APIError` carrying that status; and it succeeds exactly when the
      as-written version does, with the same result. */
  lemma AnalyzeClassifies(u: Upload, reply: Reply)
    ensures u.FromPath? && !u.present ==>
      Analyze(u, reply).Err? && Analyze(u, reply).error.cls == E.ValidationError
    ensures CheckUpload(u).Ok? && reply.Answered? && reply.status in {401, 403} ==>
      Analyze(u, reply).Err? && Analyze(u, reply).error.cls == E.AuthError &&
      Analyze(u, reply).error.status == Some(401)
    ensures CheckUpload(u).Ok? && reply.Answered? && !Success(reply.status) && reply.status !in {0, 400, 401, 403} ==>
      Analyze(u, reply).Err? && Analyze(u, reply).error.status == Some(reply.status)
    ensures Analyze(u, reply).Ok? <==> AnalyzeAsWritten(u, reply).Ok?
    ensures Analyze(u, reply).Ok? ==> Analyze(u, reply) == AnalyzeAsWritten(u, reply)
  {
    if u.FromPath? && !u.present {
      MissingFileClassified(u, reply);
    }
    if CheckUpload(u).Ok? && reply.Answered? {
      StatusClassified(u, reply);
    }
    SuccessAgrees(u, reply);
  }

  lemma MissingFileClassified(u: Upload, reply: Reply)
    requires u.FromPath? && !u.present
    ensures Analyze(u, reply).Err? && Analyze(u, reply).error.cls == E.ValidationError
  {
  }

  lemma StatusClassified(u: Upload, reply: Reply)
    requires CheckUpload(u).Ok? && reply.Answered?
    ensures reply.status in {401, 403} ==>
      Analyze(u, reply).Err? && Analyze(u, reply).error.cls == E.AuthError &&
      Analyze(u, reply).error.status == Some(401)
    ensures !Success(reply.status) && reply.status !in {0, 400, 401, 403} ==>
      Analyze(u, reply).Err? && Analyze(u, reply).error.status == Some(reply.status)
  {
  }

  lemma SuccessAgrees(u: Upload, reply: Reply)
    ensures Analyze(u, reply).Ok? <==> AnalyzeAsWritten(u, reply).Ok?
    ensures Analyze(u, reply).Ok? ==> Analyze(u, reply) == AnalyzeAsWritten(u, reply)
  {
  }
}
