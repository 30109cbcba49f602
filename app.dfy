/**
 * The copy of the voice assistant in app.py: its reading of a poll reply
 * (either location of "done", either location of the audio URL, and a URL
 * that must be truthy), its recognition-language mapping, and its turn.
 */
module App {
  import opened Common
  import opened PyJson
  import opened Typecast
  import opened Chat

  /** `poll_interval`: seconds slept after each pending poll reply. */
  const PollIntervalSeconds: nat := 1

  const SystemPrompt: string := "You are a helpful AI assistant. Respond concisely and conversationally."

  /** The terminal test: "done" at the top-level `status`, or else at `result.status`. */
  function IsDone(body: Json): (r: Py<bool>)
    ensures WellShaped(body) ==> r == Val(ReportsDone(body))
    ensures (body.JNum? || body.JBool? || body.JNull?) ==> r == Raise
  {
    Or(FieldIs(body, "status", DoneStatus), NestedIs(body, "result", "status", DoneStatus))
  }

  /** `if audio_url:`: a URL that Python reads as false counts as missing. */
  function Usable(u: Option<Json>): Option<Json> {
    if u.Some? && Truthy(u.value) then u else None
  }

  /** The audio URL of a "done" reply: `result.audio_download_url` if the test
    * for it succeeds, else the top-level `audio_download_url`; a value that is
    * false in Python (empty, null, zero) is no URL, and then the other
    * location is not consulted. */
  function AudioUrl(body: Json): (r: Py<Option<Json>>)
    ensures WellShaped(body) ==>
      var nested := Field2(body, "result", "audio_download_url");
      var chosen := if nested.Some? then nested else Field(body, "audio_download_url");
      r == Val(if chosen.Some? && Truthy(chosen.value) then chosen else None)
    ensures r.Val? && r.v.Some? ==> Truthy(r.v.value)
  {
    match HasNested(body, "result", "audio_download_url")
    case Raise => Raise
    case Val(nested) =>
      if nested then
        match GetNested(body, "result", "audio_download_url")
        case Raise => Raise
        case Val(u) => Val(Usable(Some(u)))
      else
        match In("audio_download_url", body)
        case Raise => Raise
        case Val(top) =>
          if top then
            match Get(body, "audio_download_url")
            case Raise => Raise
            case Val(u) => Val(Usable(Some(u)))
          else Val(None)
  }

  /** How app.py reads one poll reply. A well-shaped reply is terminal
    * exactly when it reports "done" at either location; any other status, or
    * none, is pending. A reply that is a number, a boolean or null, or whose
    * `result` is one, makes a membership test raise. */
  function PollStep(reply: Reply): (s: Step)
    ensures reply.Fault? ==> s == Crashed
    ensures reply.Body? && WellShaped(reply.json) ==>
      && s != Crashed
      && (s == Pending <==> !ReportsDone(reply.json))
      && (s.Done? ==> s.audioUrl == AudioUrl(reply.json))
    ensures reply.Body? && (reply.json.JNum? || reply.json.JBool? || reply.json.JNull?) ==> s == Crashed
  {
    match reply
    case Fault => Crashed
    case Body(body) =>
      match IsDone(body)
      case Raise => Crashed
      case Val(done) => if done then Done(AudioUrl(body)) else Pending
  }

  /** `generate_speech`: submit, take the speak URL, and poll it. */
  method GenerateSpeech(submitted: Reply, polls: seq<Reply>, download: Fetch)
    returns (speech: Speech, polled: nat, slept: nat, progress: seq<real>, fetchedFrom: Option<Json>)
    ensures Run(speech, polled, slept, progress, fetchedFrom) == Synthesis(PollStep, submitted, polls, download)
    ensures polled <= MaxAttempts && slept * PollIntervalSeconds <= 30
  {
    speech, polled, slept, progress, fetchedFrom := Failed(Exception), 0, 0, [], None;
    if submitted.Body? {
      var handle := SpeakUrl(submitted.json);
      if handle == Val(None) {
        speech := Failed(SpeakUrlMissing);
      } else if handle.Val? {
        speech, polled, slept, progress, fetchedFrom := Poll(PollStep, polls, download);
      }
    }
  }

  /** `speech_language_code`: the Whisper language hint for the sidebar
    * choice; an unset choice is "Auto-detect", and every choice other than
    * Korean or English means no hint. */
  function SpeechLanguageCode(selected: Option<string>): (code: Option<string>)
    ensures code == Some("ko") <==> selected == Some("Korean")
    ensures code == Some("en") <==> selected == Some("English")
    ensures code == None <==> selected != Some("Korean") && selected != Some("English")
  {
    var choice := if selected.Some? then selected.value else "Auto-detect";
    if choice == "Korean" then Some("ko")
    else if choice == "English" then Some("en")
    else None
  }

  /** `process_message`: a blank input changes nothing; any other input is
    * answered, the answer is spoken, and saved audio becomes the session's
    * audio file. */
  method ProcessMessage(session: Session, input: string, chat: ChatReply, submitted: Reply, polls: seq<Reply>, download: Fetch)
    returns (turn: Turn<Speech>)
    modifies session
    ensures Strip(input) == [] ==>
      turn == Skipped && session.history == old(session.history) && session.audioFile == old(session.audioFile)
    ensures Strip(input) != [] ==>
      && turn == Answered(Prompt(SystemPrompt, old(session.history), input), ReplyText(chat),
                          Synthesis(PollStep, submitted, polls, download).speech)
      && session.history == old(session.history) + Recorded(input, chat)
      && session.audioFile == (if turn.speech.Saved? then Some(turn.speech.audio) else old(session.audioFile))
  {
    if Strip(input) == [] {
      return Skipped;
    }
    var reply, sent := session.GenerateResponse(SystemPrompt, input, chat);
    var speech, _, _, _, _ := GenerateSpeech(submitted, polls, download);
    if speech.Saved? {
      session.audioFile := Some(speech.audio);
    }
    turn := Answered(sent, reply, speech);
  }

  /** A well-shaped "done" reply after `j` pending ones decides the turn's
    * speech: no usable URL is `AudioUrlMissing` with no download call, and a
    * found URL is passed to the download, which saves the audio only when the
    * URL is a non-empty string and the download succeeds; otherwise it is an
    * exception. */
  lemma DoneReplyDecides(submitted: Reply, polls: seq<Reply>, download: Fetch, j: nat)
    requires submitted.Body? && SpeakUrl(submitted.json).Val? && SpeakUrl(submitted.json).v.Some?
    requires j < MaxAttempts && j < |polls|
    requires forall i :: 0 <= i < j ==> StepAt(PollStep, polls, i) == Pending
    requires polls[j].Body? && WellShaped(polls[j].json) && ReportsDone(polls[j].json)
    ensures var url := AudioUrl(polls[j].json).v;
      var r := Synthesis(PollStep, submitted, polls, download);
      && r.polled == j + 1 && r.slept == j && r.fetchedFrom == url
      && (url.None? ==> r.speech == Failed(AudioUrlMissing))
      && (url.Some? ==> r.speech == if Fetchable(url.value) && download.Audio? then Saved(download.bytes) else Failed(Exception))
  {
    StopsOnFirstDone(PollStep, polls, download, j);
  }

  /** A provider that answers the submit with `result.speak_v2_url`, reports
    * "pending" twice and then `result.status == "done"` with an audio URL,
    * gets three polls and two sleeps, and its eight bytes of audio are saved. */
  lemma ThirdPollDoneSavesAudio()
    ensures
      var submitted := Body(JObj(map["result" := JObj(map["speak_v2_url" := JStr("https://typecast.ai/api/speak/v2/1")])]));
      var pending := Body(JObj(map["status" := JStr("pending")]));
      var done := Body(JObj(map["result" := JObj(map["status" := DoneStatus, "audio_download_url" := JStr("https://cdn/a.wav")])]));
      var audio: seq<byte> := [82, 73, 70, 70, 0, 0, 0, 0];
      Synthesis(PollStep, submitted, [pending, pending, done], Audio(audio)) ==
        Run(Saved(audio), 3, 2, [Fraction(0), Fraction(1), Fraction(2), 1.0], Some(JStr("https://cdn/a.wav")))
  {
  }

  /** A submit reply with neither speak URL fails before any poll. */
  lemma NoSpeakUrlMeansNoPolls(extra: map<string, Json>)
    requires "speak_v2_url" !in extra && "speak_url" !in extra
    ensures Synthesis(PollStep, Body(JObj(map["result" := JObj(extra)])), [], FetchFault) ==
            Run(Failed(SpeakUrlMissing), 0, 0, [], None)
  {
  }
}
