/**
 * The copy of the voice assistant in streamlit_app.py. Its poll reading has
 * two branches: a top-level "done" is tested first, a nested
 * `result.status == "done"` only when that test fails, and both branches take
 * the audio URL from `result.audio_download_url` alone, without testing
 * whether it is truthy.
 */
module StreamlitApp {
  import opened Common
  import opened PyJson
  import opened Typecast
  import opened Chat
  import App

  /** `poll_interval`: seconds slept after each pending poll reply. */
  const PollIntervalSeconds: nat := 2

  /** The audio URL in the top-level "done" branch: `result.audio_download_url`
    * if `'result' in d and 'audio_download_url' in d['result']`, else none. */
  function TopBranchAudioUrl(body: Json): (r: Py<Option<Json>>)
    ensures WellShaped(body) ==> r == Val(Field2(body, "result", "audio_download_url"))
  {
    match HasNested(body, "result", "audio_download_url")
    case Raise => Raise
    case Val(present) =>
      if present then
        match GetNested(body, "result", "audio_download_url")
        case Raise => Raise
        case Val(u) => Val(Some(u))
      else Val(None)
  }

  /** The audio URL in the nested "done" branch, where `result` is known to be
    * present: `result.audio_download_url` if `'audio_download_url' in d['result']`. */
  function NestedBranchAudioUrl(body: Json): (r: Py<Option<Json>>)
    ensures WellShaped(body) && Field(body, "result").Some? ==> r == Val(Field2(body, "result", "audio_download_url"))
  {
    match Get(body, "result")
    case Raise => Raise
    case Val(result) =>
      match In("audio_download_url", result)
      case Raise => Raise
      case Val(present) =>
        if present then
          match Get(result, "audio_download_url")
          case Raise => Raise
          case Val(u) => Val(Some(u))
        else Val(None)
  }

  /** How streamlit_app.py reads one poll reply. A well-shaped reply is terminal
    * exactly when it reports "done" at either location, and then only
    * `result.audio_download_url` is taken; a top-level `audio_download_url`
    * is never used. */
  function PollStep(reply: Reply): (s: Step)
    ensures reply.Fault? ==> s == Crashed
    ensures reply.Body? && WellShaped(reply.json) ==>
      && s != Crashed
      && (s == Pending <==> !ReportsDone(reply.json))
      && (s.Done? ==> s.audioUrl == Val(Field2(reply.json, "result", "audio_download_url")))
    ensures reply.Body? && (reply.json.JNum? || reply.json.JBool? || reply.json.JNull?) ==> s == Crashed
  {
    match reply
    case Fault => Crashed
    case Body(body) =>
      match FieldIs(body, "status", DoneStatus)
      case Raise => Crashed
      case Val(topDone) =>
        if topDone then Done(TopBranchAudioUrl(body))
        else
          match NestedIs(body, "result", "status", DoneStatus)
          case Raise => Crashed
          case Val(nestedDone) => if nestedDone then Done(NestedBranchAudioUrl(body)) else Pending
  }

  /** `generate_speech`: submit, take the speak URL, and poll it. */
  method GenerateSpeech(submitted: Reply, polls: seq<Reply>, download: Fetch)
    returns (speech: Speech, polled: nat, slept: nat, progress: seq<real>, fetchedFrom: Option<Json>)
    ensures Run(speech, polled, slept, progress, fetchedFrom) == Synthesis(PollStep, submitted, polls, download)
    ensures polled <= MaxAttempts && slept * PollIntervalSeconds <= 60
  {
    speech, polled, slept, progress, fetchedFrom := Failed(Exception), 0, 0, [], None;
    if submitted.Body? {
      var handle := SpeakUrl(submitted.json);
      if handle == Val(None) {
        speech := Failed(SpeakUrlMissing);
      } else if handle.Val? {
        speech, polled, slept, progress, fetchedFrom := Poll(PollStep, polls, download);
      }
    }
  }

  /** The copy's system prompt, a long Korean persona text, is passed in here
    * rather than reproduced. */
  method ProcessMessage(session: Session, systemPrompt: string, input: string, chat: ChatReply,
                        submitted: Reply, polls: seq<Reply>, download: Fetch)
    returns (turn: Turn<Speech>)
    modifies session
    ensures Strip(input) == [] ==>
      turn == Skipped && session.history == old(session.history) && session.audioFile == old(session.audioFile)
    ensures Strip(input) != [] ==>
      && turn == Answered(Prompt(systemPrompt, old(session.history), input), ReplyText(chat),
                          Synthesis(PollStep, submitted, polls, download).speech)
      && session.history == old(session.history) + Recorded(input, chat)
      && session.audioFile == (if turn.speech.Saved? then Some(turn.speech.audio) else old(session.audioFile))
  {
    if Strip(input) == [] {
      return Skipped;
    }
    var reply, sent := session.GenerateResponse(systemPrompt, input, chat);
    var speech, _, _, _, _ := GenerateSpeech(submitted, polls, download);
    if speech.Saved? {
      session.audioFile := Some(speech.audio);
    }
    turn := Answered(sent, reply, speech);
  }

  /** A well-shaped "done" reply after `j` pending ones decides the turn's
    * speech from `result.audio_download_url` alone: when it is absent,
    * `AudioUrlMissing` with no download call; when it is present, whatever its
    * value, it is passed to the download, which saves the audio only when the
    * value is a non-empty string and the download succeeds. */
  lemma DoneReplyDecides(submitted: Reply, polls: seq<Reply>, download: Fetch, j: nat)
    requires submitted.Body? && SpeakUrl(submitted.json).Val? && SpeakUrl(submitted.json).v.Some?
    requires j < MaxAttempts && j < |polls|
    requires forall i :: 0 <= i < j ==> StepAt(PollStep, polls, i) == Pending
    requires polls[j].Body? && WellShaped(polls[j].json) && ReportsDone(polls[j].json)
    ensures var url := Field2(polls[j].json, "result", "audio_download_url");
      var r := Synthesis(PollStep, submitted, polls, download);
      && r.polled == j + 1 && r.slept == j && r.fetchedFrom == url
      && (url.None? ==> r.speech == Failed(AudioUrlMissing))
      && (url.Some? ==> r.speech == if Fetchable(url.value) && download.Audio? then Saved(download.bytes) else Failed(Exception))
  {
    StopsOnFirstDone(PollStep, polls, download, j);
  }

  /** A "done" reply whose `result.audio_download_url` is null: this copy,
    * which does not test the URL, calls the download with `None` and fails with
    * an exception; app.py reports the URL missing and makes no download call. */
  lemma NullNestedUrlRaises(audio: seq<byte>)
    ensures
      var submitted := Body(JObj(map["result" := JObj(map["speak_url" := JStr("https://typecast.ai/api/speak/1")])]));
      var done := Body(JObj(map["result" := JObj(map["status" := DoneStatus, "audio_download_url" := JNull])]));
      && Synthesis(PollStep, submitted, [done], Audio(audio)) == Run(Failed(Exception), 1, 0, [0.0, 1.0], Some(JNull))
      && Synthesis(App.PollStep, submitted, [done], Audio(audio)) == Run(Failed(AudioUrlMissing), 1, 0, [0.0, 1.0], None)
  {
  }

  /** On well-shaped replies the two copies agree on which replies are terminal, and
    * on the URL whenever `result.audio_download_url` is present and truthy. */
  lemma CopiesAgreeOnNestedUrl(reply: Reply)
    requires reply.Body? && WellShaped(reply.json)
    ensures PollStep(reply).Done? <==> App.PollStep(reply).Done?
    ensures var u := Field2(reply.json, "result", "audio_download_url");
      u.Some? && Truthy(u.value) ==> PollStep(reply) == App.PollStep(reply)
  {
  }

  /** A "done" reply whose only audio URL is at the top level: app.py
    * downloads it, this copy reports the URL missing and downloads nothing. */
  lemma TopLevelUrlOnlyDivergence(audio: seq<byte>)
    ensures
      var submitted := Body(JObj(map["result" := JObj(map["speak_url" := JStr("https://typecast.ai/api/speak/1")])]));
      var done := Body(JObj(map["status" := DoneStatus, "audio_download_url" := JStr("https://cdn/a.wav")]));
      && Synthesis(PollStep, submitted, [done], Audio(audio)) == Run(Failed(AudioUrlMissing), 1, 0, [0.0, 1.0], None)
      && Synthesis(App.PollStep, submitted, [done], Audio(audio)) == Run(Saved(audio), 1, 0, [0.0, 1.0], Some(JStr("https://cdn/a.wav")))
  {
  }
}
