/**
 * The Google Cloud speech routes (`api/server/connectors/google_cloud.js`): the voice taken from
 * `TTS_DEFAULT_VOICE`, the upload filter for audio, the checks `POST /stt` and `POST /tts` make
 * before calling the speech clients, and the transcript built from the recognition results.
 */
module GoogleCloudSpeech {
  import opened Wrappers
  import opened Strings
  import opened JsonValue

  datatype VoiceConfig = VoiceConfig(languageCode: string, name: string, ssmlGender: string)

  /** `DEFAULT_VOICE_NAME`, the voice the client calls "Vale". */
  const DefaultVoiceName: string := "Vale"

  /** `DEFAULT_VOICE_CONFIG`. */
  const DefaultVoiceConfig: VoiceConfig := VoiceConfig("en-GB", "en-GB-Wavenet-F", "FEMALE")

  /**
   * `getVoiceConfig()` for the value of `TTS_DEFAULT_VOICE`: `languageCode:name:ssmlGender`
   * when it splits on ':' into exactly three parts, the default otherwise.
   */
  function GetVoiceConfig(envVoice: Option<string>): (r: VoiceConfig)
    ensures (envVoice.None? || envVoice == Some("")) ==> r == DefaultVoiceConfig
    ensures envVoice.Some? && |Split(envVoice.value, ':')| != 3 ==> r == DefaultVoiceConfig
    ensures envVoice.Some? && envVoice.value != "" && |Split(envVoice.value, ':')| == 3 ==>
      var parts := Split(envVoice.value, ':');
      r == VoiceConfig(parts[0], parts[1], parts[2])
  {
    if envVoice.Some? && envVoice.value != "" then
      var parts := Split(envVoice.value, ':');
      if |parts| == 3 then VoiceConfig(parts[0], parts[1], parts[2]) else DefaultVoiceConfig
    else DefaultVoiceConfig
  }

  /** A voice written as `languageCode:name:ssmlGender` is read back part for part. */
  lemma VoiceConfigRoundTrip(languageCode: string, name: string, ssmlGender: string)
    requires ':' !in languageCode && ':' !in name && ':' !in ssmlGender
    ensures GetVoiceConfig(Some(Join([languageCode, name, ssmlGender], ':'))) == VoiceConfig(languageCode, name, ssmlGender)
  {
    var parts := [languageCode, name, ssmlGender];
    SplitJoin(parts, ':');
    assert Join(parts, ':') == languageCode + [':'] + Join(parts[1..], ':');
  }

  /** A value without ':' is a single part, so it falls back to the default. */
  lemma NoSeparatorGivesDefault(envVoice: string)
    requires ':' !in envVoice
    ensures GetVoiceConfig(Some(envVoice)) == DefaultVoiceConfig
  {
    SplitNoSeparator(envVoice, ':');
  }

  /** multer's `fileFilter`: only files whose MIME type starts with "audio/" are accepted. */
  predicate AcceptsFile(mimetype: string) {
    StartsWith(mimetype, "audio/")
  }

  /** Every "audio/x" type passes, and a type shorter than the prefix cannot. */
  lemma AcceptsAudioTypes(subtype: string, other: string)
    requires |other| < 6
    ensures AcceptsFile("audio/" + subtype)
    ensures !AcceptsFile(other)
  {
    assert ("audio/" + subtype)[..6] == "audio/";
  }

  /** One recognition result: the transcripts of its alternatives, best first. */
  datatype SpeechResult = SpeechResult(alternatives: seq<string>)

  /** `result.alternatives[0]` of a result with no alternatives throws a `TypeError`. */
  datatype TranscriptError = NoAlternative

  /** The first alternative of each result, in order; `None` when some result has none. */
  function FirstAlternatives(results: seq<SpeechResult>): (r: Option<seq<string>>)
    ensures r.Some? <==> forall i :: 0 <= i < |results| ==> |results[i].alternatives| > 0
    ensures r.Some? ==> |r.value| == |results|
    ensures r.Some? ==> forall i :: 0 <= i < |results| ==> r.value[i] == results[i].alternatives[0]
  {
    if |results| == 0 then Some([])
    else if |results[0].alternatives| == 0 then None
    else match FirstAlternatives(results[1..])
      case None => None
      case Some(rest) => Some([results[0].alternatives[0]] + rest)
  }

  /** `response.results.map(r => r.alternatives[0].transcript).join('\n')`. */
  function Transcript(results: seq<SpeechResult>): (r: Result<string, TranscriptError>)
    ensures r.Err? <==> exists i :: 0 <= i < |results| && |results[i].alternatives| == 0
    ensures r.Ok? ==> r.value == Join(FirstAlternatives(results).value, '\n')
  {
    match FirstAlternatives(results)
    case None => Err(NoAlternative)
    case Some(lines) => Ok(Join(lines, '\n'))
  }

  /** With one-line transcripts, the transcript splits back into the results' best alternatives, in order. */
  lemma TranscriptLines(results: seq<SpeechResult>)
    requires |results| > 0
    requires forall i :: 0 <= i < |results| ==> |results[i].alternatives| > 0 && '\n' !in results[i].alternatives[0]
    ensures Transcript(results).Ok?
    ensures var lines := Split(Transcript(results).value, '\n');
      |lines| == |results| && forall i :: 0 <= i < |results| ==> lines[i] == results[i].alternatives[0]
  {
    var firsts := FirstAlternatives(results).value;
    SplitJoin(firsts, '\n');
  }

  /** How `POST /tts` answers before the synthesis call: 501, 400, or the request it sends. */
  datatype TtsOutcome = TtsUnavailable | TextRequired | Synthesize(text: string, voice: VoiceConfig)

  /**
   * `POST /tts`: 501 when the clients are not enabled, before anything else; 400 unless `text`
   * is a non-empty string; otherwise the text with the configured voice. `voiceName` is read
   * but both branches pick the same voice.
   */
  function TtsRequest(enabled: bool, text: Option<Json>, voiceName: Option<Json>, envVoice: Option<string>): (r: TtsOutcome)
    ensures !enabled ==> r == TtsUnavailable
    ensures enabled && !(text.Some? && text.value.JStr? && text.value.s != "") ==> r == TextRequired
    ensures enabled && text.Some? && text.value.JStr? && text.value.s != "" ==>
      r == Synthesize(text.value.s, GetVoiceConfig(envVoice))
    ensures r.Synthesize? ==> text == Some(JStr(r.text)) && r.voice == GetVoiceConfig(envVoice)
  {
    if !enabled then TtsUnavailable
    else if text.None? || !Truthy(text.value) || !text.value.JStr? then TextRequired
    else
      var voiceConfig := GetVoiceConfig(envVoice);
      var voiceConfig' := if voiceName.None? || !Truthy(voiceName.value) || voiceName.value == JStr(DefaultVoiceName)
        then GetVoiceConfig(envVoice) else voiceConfig;
      Synthesize(text.value.s, voiceConfig')
  }

  /** The requested voice name never changes the request. */
  lemma VoiceNameIgnored(enabled: bool, text: Option<Json>, a: Option<Json>, b: Option<Json>, envVoice: Option<string>)
    ensures TtsRequest(enabled, text, a, envVoice) == TtsRequest(enabled, text, b, envVoice)
  {
  }

  /** How `POST /stt` answers before the recognition call: 501, 400, or the language it asks for. */
  datatype SttOutcome = SttUnavailable | AudioRequired | Recognize(languageCode: string)

  /** `POST /stt`: 501 first, then 400 without an uploaded file, then `languageCode || 'en-US'`. */
  function SttRequest(enabled: bool, hasFile: bool, languageCode: Option<string>): (r: SttOutcome)
    ensures !enabled ==> r == SttUnavailable
    ensures enabled && !hasFile ==> r == AudioRequired
    ensures r.Recognize? <==> enabled && hasFile
    ensures r.Recognize? ==> r.languageCode != ""
    ensures r.Recognize? && languageCode.Some? && languageCode.value != "" ==> r.languageCode == languageCode.value
    ensures r.Recognize? && (languageCode.None? || languageCode == Some("")) ==> r.languageCode == "en-US"
  {
    if !enabled then SttUnavailable
    else if !hasFile then AudioRequired
    else Recognize(OrElse(languageCode, "en-US"))
  }

  /** The HTTP status of a `POST /tts` outcome: 501 without clients, 400 without text, 200 otherwise. */
  function TtsStatus(o: TtsOutcome): (r: nat)
    ensures o.TtsUnavailable? <==> r == 501
    ensures o.TextRequired? <==> r == 400
    ensures o.Synthesize? <==> r == 200
  {
    match o
    case TtsUnavailable => 501
    case TextRequired => 400
    case Synthesize(_, _) => 200
  }

  /** A variable of the environment is set to something other than `''`. */
  predicate IsSet(v: Option<string>) {
    v.Some? && v.value != ""
  }

  /** What `initializeGoogleCloudClients()` returns: enabled clients, or the reason they are off. */
  datatype Clients = Clients(enabled: bool, message: Option<string>)

  const NotConfigured: string := "Google Cloud credentials not configured"
  const InvalidKey: string := "Invalid GOOGLE_CLOUD_KEY format"
  const InitFailed: string := "Failed to initialize Google Cloud clients"
  const ServicesAvailable: string := "Speech services are available"

  /**
   * `initializeGoogleCloudClients()` for `GOOGLE_APPLICATION_CREDENTIALS`, `GOOGLE_CLOUD_KEY`,
   * whether the two client libraries load, whether the key parses as JSON and whether the
   * clients can be constructed; the libraries are loaded before the key is parsed.
   */
  function InitializeClients(applicationCredentials: Option<string>, cloudKey: Option<string>,
                             librariesLoad: bool, keyParses: bool, clientsConstruct: bool): (r: Clients)
    ensures r.enabled <==> (IsSet(applicationCredentials) || IsSet(cloudKey)) && librariesLoad
                           && (IsSet(cloudKey) ==> keyParses) && clientsConstruct
    ensures r.enabled <==> r.message.None?
    ensures !IsSet(applicationCredentials) && !IsSet(cloudKey) ==> r.message == Some(NotConfigured)
    ensures (IsSet(applicationCredentials) || IsSet(cloudKey)) && !librariesLoad ==> r.message == Some(InitFailed)
    ensures librariesLoad && IsSet(cloudKey) && !keyParses ==> r.message == Some(InvalidKey)
    ensures (IsSet(applicationCredentials) || IsSet(cloudKey)) && librariesLoad && (IsSet(cloudKey) ==> keyParses)
              && !clientsConstruct
            ==> r.message == Some(InitFailed)
  {
    if !IsSet(applicationCredentials) && !IsSet(cloudKey) then Clients(false, Some(NotConfigured))
    else if !librariesLoad then Clients(false, Some(InitFailed))
    else if IsSet(cloudKey) && !keyParses then Clients(false, Some(InvalidKey))
    else if !clientsConstruct then Clients(false, Some(InitFailed))
    else Clients(true, None)
  }

  /** `GET /status`: whether the clients are enabled, why not, and the default voice with its configuration. */
  datatype SpeechStatus = SpeechStatus(enabled: bool, message: string, defaultVoiceName: string, config: VoiceConfig)

  /** `GET /status`: the clients' flag, their message or "Speech services are available", and the voice. */
  function StatusReport(clients: Clients, envVoice: Option<string>): (r: SpeechStatus)
    ensures r.defaultVoiceName == DefaultVoiceName && r.enabled == clients.enabled
    ensures r.config == GetVoiceConfig(envVoice)
    ensures IsSet(clients.message) ==> r.message == clients.message.value
    ensures !IsSet(clients.message) ==> r.message == ServicesAvailable
  {
    SpeechStatus(clients.enabled, OrElse(clients.message, ServicesAvailable), DefaultVoiceName, GetVoiceConfig(envVoice))
  }

  /** With the clients as initialised, the status says the services are available exactly when they are enabled. */
  lemma AvailableIffEnabled(applicationCredentials: Option<string>, cloudKey: Option<string>,
                            librariesLoad: bool, keyParses: bool, clientsConstruct: bool, envVoice: Option<string>)
    ensures var clients := InitializeClients(applicationCredentials, cloudKey, librariesLoad, keyParses, clientsConstruct);
      StatusReport(clients, envVoice).message == ServicesAvailable <==> clients.enabled
  {
  }
}
