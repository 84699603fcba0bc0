/** The decision logic of the SDK facade `AudioKit` (audiokit/__init__.py):
    audio-file validation and the keys of the result dictionaries. Whether a
    path exists and what the AI components return (or whether they raise)
    are parameters; `None` stands for a component call that raised. */
module Sdk {
  import opened Wrappers
  import opened Json
  import Text

  /** Errors from audiokit/core/exceptions.py: both are `AudioKitError`s and
      carry only a message. */
  datatype SdkError =
    | ValidationError(message: string)
    | AudioKitError(message: string)
    | ComponentFailed   // a processor or generator call raised; passed on unchanged

  const SupportedFormats: set<string> := {".wav", ".mp3", ".flac"}
  const NotFoundPrefix := "Audio file not found: "
  const UnsupportedPrefix := "Unsupported audio format: "

  /** `_validate_audio_file`: existence is checked first, then the
      lower-cased suffix; the message quotes the suffix as written. */
  function ValidateAudioFile(path: string, present: bool): (r: Result<string, SdkError>)
    ensures !present ==> r == Err(ValidationError(NotFoundPrefix + path))
    ensures present && Text.Lower(Text.Suffix(path)) !in SupportedFormats ==>
      r == Err(ValidationError(UnsupportedPrefix + Text.Suffix(path)))
    ensures r.Ok? <==> present && Text.Lower(Text.Suffix(path)) in SupportedFormats
    ensures r.Ok? ==> r.value == path
  {
    if !present then Err(ValidationError(NotFoundPrefix + path))
    else if Text.Lower(Text.Suffix(path)) !in SupportedFormats then
      Err(ValidationError(UnsupportedPrefix + Text.Suffix(path)))
    else Ok(path)
  }

  /** On an existing path only the suffix matters. */
  lemma ValidateBySuffix(p: string, suffix: string)
    requires Text.Suffix(p) == suffix
    ensures ValidateAudioFile(p, true) ==
      if Text.Lower(suffix) in SupportedFormats then Ok(p)
      else Err(ValidationError(UnsupportedPrefix + suffix))
  {
  }

  /** For `stem.ext` on an existing path, the lower-cased `.ext` alone
      decides, and a rejection quotes `.ext` as written. */
  lemma SuffixDecides(stem: string, ext: string)
    requires |stem| > 0 && |ext| > 0
    requires '/' !in stem && '/' !in ext && '.' !in ext
    ensures ValidateAudioFile(stem + "." + ext, true) ==
      if Text.Lower("." + ext) in SupportedFormats then Ok(stem + "." + ext)
      else Err(ValidationError(UnsupportedPrefix + ("." + ext)))
  {
    Text.SuffixOf(stem, ext);
    ValidateBySuffix(stem + "." + ext, "." + ext);
  }

  /** The suffix check ignores case: `song.WAV` is accepted. */
  lemma UpperCaseAccepted(stem: string)
    requires |stem| > 0 && '/' !in stem
    ensures ValidateAudioFile(stem + ".WAV", true) == Ok(stem + ".WAV")
  {
    var ext := "WAV";
    var p := stem + "." + ext;
    assert p == stem + ".WAV";
    WavLowered(ext);
    SuffixDecides(stem, ext);
    assert ValidateAudioFile(p, true) == Ok(p);
  }

  lemma WavLowered(ext: string)
    requires ext == "WAV"
    ensures '/' !in ext && '.' !in ext
    ensures Text.Lower("." + ext) in SupportedFormats
  {
    var l := Text.Lower("." + ext);
    assert l[0] == '.' && l[1] == 'w' && l[2] == 'a' && l[3] == 'v';
    assert l == ".wav";
  }

  /** `.ogg` is not among the SDK's formats (the CLI client accepts it). */
  lemma OggRejected(stem: string)
    requires |stem| > 0 && '/' !in stem
    ensures ValidateAudioFile(stem + ".ogg", true) == Err(ValidationError(UnsupportedPrefix + ".ogg"))
  {
    var ext := "ogg";
    var p := stem + "." + ext;
    assert p == stem + ".ogg";
    OggLowered(ext);
    SuffixDecides(stem, ext);
    assert ValidateAudioFile(p, true) == Err(ValidationError(UnsupportedPrefix + ("." + ext)));
  }

  lemma OggLowered(ext: string)
    requires ext == "ogg"
    ensures '/' !in ext && '.' !in ext
    ensures "." + ext == ".ogg"
    ensures Text.Lower("." + ext) !in SupportedFormats
  {
    var l := Text.Lower("." + ext);
    assert l[0] == '.' && l[1] == 'o' && l[2] == 'g' && l[3] == 'g';
    assert l == ".ogg";
  }

  /** A file without a dot is rejected with an empty suffix in the message. */
  lemma NoSuffixRejected(stem: string)
    requires '/' !in stem && '.' !in stem
    ensures ValidateAudioFile(stem, true) == Err(ValidationError(UnsupportedPrefix))
  {
    Text.NoDotNoSuffix(stem);
    ValidateBySuffix(stem, "");
    EmptyUnsupported();
  }

  lemma EmptyUnsupported()
    ensures Text.Lower("") !in SupportedFormats
    ensures UnsupportedPrefix + "" == UnsupportedPrefix
  {
  }

  /** `analyze_audio`: validation errors pass through unchanged; a failure
      of any analysis step becomes `AudioKitError("Audio analysis failed")`;
      otherwise the result has exactly three keys. */
  function AnalyzeAudio(path: string, present: bool, bpmKey: Option<Json>, genre: Option<Json>,
                        instruments: Option<Json>): (r: Result<map<string, Json>, SdkError>)
    ensures ValidateAudioFile(path, present).Err? ==> r == Err(ValidateAudioFile(path, present).error)
    ensures ValidateAudioFile(path, present).Ok? && (bpmKey.None? || genre.None? || instruments.None?) ==>
      r == Err(AudioKitError("Audio analysis failed"))
    ensures r.Ok? ==> present && Text.Lower(Text.Suffix(path)) in SupportedFormats
    ensures r.Ok? ==> r.value.Keys == {"bpm_key", "genre", "instruments"}
    ensures r.Ok? ==> r.value["bpm_key"] == bpmKey.value && r.value["genre"] == genre.value &&
                      r.value["instruments"] == instruments.value
  {
    var checked := ValidateAudioFile(path, present);
    if checked.Err? then Err(checked.error)
    else if bpmKey.None? || genre.None? || instruments.None? then Err(AudioKitError("Audio analysis failed"))
    else Ok(Analysis(bpmKey.value, genre.value, instruments.value))
  }

  /** The dictionary `analyze_audio` returns. */
  function Analysis(bpmKey: Json, genre: Json, instruments: Json): (m: map<string, Json>)
    ensures m.Keys == {"bpm_key", "genre", "instruments"}
    ensures m["bpm_key"] == bpmKey && m["genre"] == genre && m["instruments"] == instruments
  {
    map["bpm_key" := bpmKey, "genre" := genre, "instruments" := instruments]
  }

  /** `process_audio`: one key per requested operation, no validation of
      the path, and a raising operation propagates. */
  function ProcessAudio(extractVocals: bool, separateStems: bool, reduceNoise: bool,
                        vocals: Option<Json>, stems: Option<Json>, cleaned: Option<Json>)
    : (r: Result<map<string, Json>, SdkError>)
    ensures r.Err? <==> (extractVocals && vocals.None?) || (separateStems && stems.None?) ||
                        (reduceNoise && cleaned.None?)
    ensures r.Ok? ==> ("vocals" in r.value <==> extractVocals)
    ensures r.Ok? ==> ("stems" in r.value <==> separateStems)
    ensures r.Ok? ==> ("cleaned" in r.value <==> reduceNoise)
    ensures r.Ok? ==> r.value.Keys <= {"vocals", "stems", "cleaned"}
  {
    if (extractVocals && vocals.None?) || (separateStems && stems.None?) || (reduceNoise && cleaned.None?) then
      Err(ComponentFailed)
    else
      var m0: map<string, Json> := map[];
      var m1 := if extractVocals then m0["vocals" := vocals.value] else m0;
      var m2 := if separateStems then m1["stems" := stems.value] else m1;
      var m3 := if reduceNoise then m2["cleaned" := cleaned.value] else m2;
      Ok(m3)
  }

  /** With no operation requested the result is empty. */
  lemma NoFlagsNoKeys(v: Option<Json>, s: Option<Json>, c: Option<Json>)
    ensures ProcessAudio(false, false, false, v, s, c) == Ok(map[])
  {
  }

  /** `generate_content`: a mood board for a non-empty audio path, an
      instrument for a non-empty description. */
  function GenerateContent(audioPath: Option<string>, description: Option<string>,
                           moodboard: Option<Json>, instrument: Option<Json>)
    : (r: Result<map<string, Json>, SdkError>)
    ensures r.Err? <==> (TruthyStr(audioPath) && moodboard.None?) || (TruthyStr(description) && instrument.None?)
    ensures r.Ok? ==> ("moodboard" in r.value <==> TruthyStr(audioPath))
    ensures r.Ok? ==> ("instrument" in r.value <==> TruthyStr(description))
    ensures r.Ok? ==> r.value.Keys <= {"moodboard", "instrument"}
  {
    if (TruthyStr(audioPath) && moodboard.None?) || (TruthyStr(description) && instrument.None?) then
      Err(ComponentFailed)
    else
      var m0: map<string, Json> := map[];
      var m1 := if TruthyStr(audioPath) then m0["moodboard" := moodboard.value] else m0;
      var m2 := if TruthyStr(description) then m1["instrument" := instrument.value] else m1;
      Ok(m2)
  }

  /** Empty strings count as absent. */
  lemma EmptyArgumentsGenerateNothing(m: Option<Json>, i: Option<Json>)
    ensures GenerateContent(Some(""), Some(""), m, i) == Ok(map[])
    ensures GenerateContent(None, None, m, i) == Ok(map[])
  {
  }
}
