/**
 * The Typecast speech-synthesis client shared by both copies of the app:
 * submit the text, take the speak URL (the job handle) out of the reply, poll
 * it at most 30 times until the job reports "done", then download the audio.
 *
 * The provider is abstract. The submit POST is one `Reply`, the i-th poll GET
 * is the i-th element of a sequence of replies, and the audio download is one
 * `Fetch`. The two copies differ only in how one poll reply is read, so the
 * loop takes that reading as a function `step` from a reply to a `Step`.
 */
module Typecast {
  import opened Common
  import opened PyJson

  /** `max_attempts`: the ceiling on poll requests. */
  const MaxAttempts: nat := 30

  /** The only terminal status value. */
  const DoneStatus: Json := JStr("done")

  /** What an HTTP request to the provider gives back: a JSON body, or an
    * exception (connection error, a non-2xx status from `raise_for_status`,
    * or a body that is not JSON). */
  datatype Reply = Body(json: Json) | Fault

  /** What the unauthenticated audio download gives back. */
  datatype Fetch = Audio(bytes: seq<byte>) | FetchFault

  /** Why `generate_speech` returned `None`; the source reports each with its own message. */
  datatype SpeechError =
    | Exception        // anything caught by the `except` clause
    | SpeakUrlMissing  // "Could not find speak URL in response"
    | AudioUrlMissing  // "Could not find audio_download_url in response"
    | PollLimit        // "Exceeded maximum polling attempts (30)"

  /** The result of one synthesis: the saved audio, or the reason for `None`. */
  datatype Speech = Saved(audio: seq<byte>) | Failed(error: SpeechError)

  /** How one poll reply is read: still pending (sleep and poll again), an
    * exception while reading it, or "done" together with the evaluation of the
    * audio-URL lookup (which may itself raise, or find no usable URL). */
  datatype Step = Pending | Crashed | Done(audioUrl: Py<Option<Json>>)

  /** Everything a run of the poller produces: the result, the number of poll
    * GETs issued, the number of `time.sleep` calls, every value passed to
    * `progress_bar.progress` in order, and the argument of the download
    * `requests.get` call if one was made. */
  datatype Run = Run(speech: Speech, polled: nat, slept: nat, progress: seq<real>, fetchedFrom: Option<Json>)

  /** A body whose top level is an object and whose `result`, when present, is
    * an object too: the shape the provider documents. On such bodies the
    * Python membership tests and subscripts never raise. */
  predicate WellShaped(body: Json) {
    body.JObj? && ("result" in body.fields ==> body.fields["result"].JObj?)
  }

  /** The terminal condition read as plain dictionary access: "done" at the
    * top-level `status` or at `result.status`. */
  predicate ReportsDone(body: Json) {
    Field(body, "status") == Some(DoneStatus) || Field2(body, "result", "status") == Some(DoneStatus)
  }

  /** The speak URL of a submit reply: `result.speak_v2_url` if the test for it
    * succeeds, else `result.speak_url`, else none. */
  function SpeakUrl(response: Json): (r: Py<Option<Json>>)
    ensures WellShaped(response) ==>
      r == Val(if Field2(response, "result", "speak_v2_url").Some?
               then Field2(response, "result", "speak_v2_url")
               else Field2(response, "result", "speak_url"))
    ensures r.Val? && r.v.Some? ==>
      r.v == Field2(response, "result", "speak_v2_url") ||
      (Field2(response, "result", "speak_v2_url").None? && r.v == Field2(response, "result", "speak_url"))
    ensures (response.JNum? || response.JBool? || response.JNull?) ==> r == Raise
  {
    match HasNested(response, "result", "speak_v2_url")
    case Raise => Raise
    case Val(hasV2) =>
      if hasV2 then
        match GetNested(response, "result", "speak_v2_url")
        case Raise => Raise
        case Val(u) => Val(Some(u))
      else
        match HasNested(response, "result", "speak_url")
        case Raise => Raise
        case Val(hasV1) =>
          if hasV1 then
            match GetNested(response, "result", "speak_url")
            case Raise => Raise
            case Val(u) => Val(Some(u))
          else Val(None)
  }

  /** The progress value shown at the start of attempt `k`: `k / 30`. */
  function Fraction(k: nat): real {
    (k as real) / (MaxAttempts as real)
  }

  /** The progress values of attempts `k`, `k + 1`, ..., `k + n - 1`. */
  function Fractions(k: nat, n: nat): (s: seq<real>)
    ensures |s| == n && forall i :: 0 <= i < n ==> s[i] == Fraction(k + i)
  {
    seq(n, i requires 0 <= i < n => Fraction(k + i))
  }

  /** The reply to poll number `i`; a provider that has no more replies is a fault. */
  function PollReply(polls: seq<Reply>, i: nat): Reply {
    if i < |polls| then polls[i] else Fault
  }

  function StepAt(step: Reply -> Step, polls: seq<Reply>, i: nat): Step {
    step(PollReply(polls, i))
  }

  /** A value `requests.get` can send a request to. Anything but a string is
    * first turned into its `str()` (`None`, `5`, `{...}`), which has no URL
    * scheme, and an empty string has none either: both raise before any request
    * is made. Whether a non-empty string is a reachable URL is up to `download`. */
  predicate Fetchable(url: Json) {
    url.JStr? && |url.text| > 0
  }

  /** The result once a poll reply has reported "done". */
  function Outcome(audioUrl: Py<Option<Json>>, download: Fetch): (s: Speech)
    ensures s != Failed(PollLimit)
    ensures s.Saved? <==> audioUrl.Val? && audioUrl.v.Some? && Fetchable(audioUrl.v.value) && download.Audio?
    ensures s.Saved? ==> s.audio == download.bytes
    ensures audioUrl == Val(None) ==> s == Failed(AudioUrlMissing)
    ensures audioUrl.Raise? || (audioUrl.Val? && audioUrl.v.Some? && (!Fetchable(audioUrl.v.value) || download.FetchFault?)) ==>
      s == Failed(Exception)
  {
    match audioUrl
    case Raise => Failed(Exception)
    case Val(None) => Failed(AudioUrlMissing)
    case Val(Some(url)) => if Fetchable(url) && download.Audio? then Saved(download.bytes) else Failed(Exception)
  }

  /** The argument of the `requests.get` download call made once a poll reply
    * has reported "done": there is one exactly when a URL was found. */
  function FetchTarget(audioUrl: Py<Option<Json>>): (r: Option<Json>)
    ensures r.Some? <==> audioUrl.Val? && audioUrl.v.Some?
    ensures r.Some? ==> r == audioUrl.v
  {
    if audioUrl.Val? then audioUrl.v else None
  }

  /** Reference definition of the poll loop, from attempt `attempt` on. */
  function PollFrom(step: Reply -> Step, polls: seq<Reply>, download: Fetch, attempt: nat): (r: Run)
    requires attempt <= MaxAttempts
    ensures attempt < MaxAttempts ==> 1 <= r.polled <= MaxAttempts - attempt
    ensures r.slept <= r.polled
    decreases MaxAttempts - attempt
  {
    if attempt == MaxAttempts then Run(Failed(PollLimit), 0, 0, [1.0], None)
    else
      match StepAt(step, polls, attempt)
      case Pending =>
        var rest := PollFrom(step, polls, download, attempt + 1);
        Run(rest.speech, rest.polled + 1, rest.slept + 1, [Fraction(attempt)] + rest.progress, rest.fetchedFrom)
      case Crashed =>
        Run(Failed(Exception), 1, 0, [Fraction(attempt)], None)
      case Done(audioUrl) =>
        Run(Outcome(audioUrl, download), 1, 0, [Fraction(attempt), 1.0], FetchTarget(audioUrl))
  }

  /** A run from attempt `k` on, seen from attempt 0 after `k` pending attempts. */
  function Resume(k: nat, r: Run): Run {
    Run(r.speech, r.polled + k, r.slept + k, Fractions(0, k) + r.progress, r.fetchedFrom)
  }

  /** The poll loop: at most `MaxAttempts` GETs of the speak URL, each preceded by
    * its progress value, a sleep after every pending reply, and a stop on the
    * first reply that reports "done" or raises. */
  method Poll(step: Reply -> Step, polls: seq<Reply>, download: Fetch)
    returns (speech: Speech, polled: nat, slept: nat, progress: seq<real>, fetchedFrom: Option<Json>)
    ensures Run(speech, polled, slept, progress, fetchedFrom) == PollFrom(step, polls, download, 0)
  {
    progress, slept := [], 0;
    for attempt := 0 to MaxAttempts
      invariant progress == Fractions(0, attempt)
      invariant slept == attempt
      invariant PollFrom(step, polls, download, 0) == Resume(attempt, PollFrom(step, polls, download, attempt))
    {
      progress := progress + [Fraction(attempt)];
      var reply := PollReply(polls, attempt);
      match step(reply)
      case Crashed =>
        ResumeStop(step, polls, download, attempt);
        return Failed(Exception), attempt + 1, slept, progress, None;
      case Done(audioUrl) =>
        ResumeStop(step, polls, download, attempt);
        progress := progress + [1.0];
        return Outcome(audioUrl, download), attempt + 1, slept, progress, FetchTarget(audioUrl);
      case Pending =>
        ResumePending(step, polls, download, attempt);
        slept := slept + 1;
    }
    progress := progress + [1.0];
    speech, polled, fetchedFrom := Failed(PollLimit), MaxAttempts, None;
  }

  /** One more pending attempt moves the resumption point of the loop by one. */
  lemma ResumePending(step: Reply -> Step, polls: seq<Reply>, download: Fetch, k: nat)
    requires k < MaxAttempts && StepAt(step, polls, k) == Pending
    ensures Resume(k, PollFrom(step, polls, download, k)) == Resume(k + 1, PollFrom(step, polls, download, k + 1))
    ensures Fractions(0, k + 1) == Fractions(0, k) + [Fraction(k)]
  {
  }

  /** A reply that is not pending ends the loop with what that reply decides. */
  lemma ResumeStop(step: Reply -> Step, polls: seq<Reply>, download: Fetch, k: nat)
    requires k < MaxAttempts && StepAt(step, polls, k) != Pending
    ensures var s := StepAt(step, polls, k);
      Resume(k, PollFrom(step, polls, download, k)) ==
        if s.Crashed? then Run(Failed(Exception), k + 1, k, Fractions(0, k) + [Fraction(k)], None)
        else Run(Outcome(s.audioUrl, download), k + 1, k, Fractions(0, k) + [Fraction(k)] + [1.0], FetchTarget(s.audioUrl))
  {
  }

  /** The loop stops on the first reply that is not pending, and only then;
    * it gives up with `PollLimit` exactly when every remaining reply is pending. */
  lemma PollStopsAtFirstVerdict(step: Reply -> Step, polls: seq<Reply>, download: Fetch, k: nat)
    requires k <= MaxAttempts
    ensures var r := PollFrom(step, polls, download, k);
      && (forall i :: k <= i < k + r.polled - 1 ==> StepAt(step, polls, i) == Pending)
      && (r.speech == Failed(PollLimit) <==> forall i :: k <= i < MaxAttempts ==> StepAt(step, polls, i) == Pending)
      && (r.speech == Failed(PollLimit) ==> r.polled == MaxAttempts - k && r.slept == r.polled && r.fetchedFrom == None)
      && (r.speech != Failed(PollLimit) ==>
            var last := StepAt(step, polls, k + r.polled - 1);
            && r.polled >= 1 && r.slept == r.polled - 1 && last != Pending
            && r.speech == (if last.Crashed? then Failed(Exception) else Outcome(last.audioUrl, download))
            && r.fetchedFrom == (if last.Crashed? then None else FetchTarget(last.audioUrl)))
  {
    PendingBeforeLast(step, polls, download, k);
    GivesUpOnlyWhenAllPending(step, polls, download, k);
    LastReplyDecides(step, polls, download, k);
  }

  /** Every reply of a run from attempt `k` but the last one was pending. */
  lemma {:induction false} PendingBeforeLast(step: Reply -> Step, polls: seq<Reply>, download: Fetch, k: nat)
    requires k <= MaxAttempts
    ensures var r := PollFrom(step, polls, download, k);
      forall i :: k <= i < k + r.polled - 1 ==> StepAt(step, polls, i) == Pending
    decreases MaxAttempts - k
  {
    if k < MaxAttempts && StepAt(step, polls, k) == Pending {
      PendingBeforeLast(step, polls, download, k + 1);
    }
  }

  /** A run from attempt `k` gives up exactly when every remaining reply is
    * pending, and then it polled and slept once per remaining attempt. */
  lemma {:induction false} GivesUpOnlyWhenAllPending(step: Reply -> Step, polls: seq<Reply>, download: Fetch, k: nat)
    requires k <= MaxAttempts
    ensures var r := PollFrom(step, polls, download, k);
      && (r.speech == Failed(PollLimit) <==> forall i :: k <= i < MaxAttempts ==> StepAt(step, polls, i) == Pending)
      && (r.speech == Failed(PollLimit) ==> r.polled == MaxAttempts - k && r.slept == r.polled && r.fetchedFrom == None)
    decreases MaxAttempts - k
  {
    if k < MaxAttempts && StepAt(step, polls, k) == Pending {
      GivesUpOnlyWhenAllPending(step, polls, download, k + 1);
    }
  }

  /** A run from attempt `k` that does not give up ends on its first reply that
    * is not pending, and that reply decides the result and the download. */
  lemma {:induction false} LastReplyDecides(step: Reply -> Step, polls: seq<Reply>, download: Fetch, k: nat)
    requires k <= MaxAttempts
    ensures var r := PollFrom(step, polls, download, k);
      r.speech != Failed(PollLimit) ==>
        var last := StepAt(step, polls, k + r.polled - 1);
        && r.polled >= 1 && r.slept == r.polled - 1 && last != Pending
        && r.speech == (if last.Crashed? then Failed(Exception) else Outcome(last.audioUrl, download))
        && r.fetchedFrom == (if last.Crashed? then None else FetchTarget(last.audioUrl))
    decreases MaxAttempts - k
  {
    if k < MaxAttempts && StepAt(step, polls, k) == Pending {
      LastReplyDecides(step, polls, download, k + 1);
      assert k + PollFrom(step, polls, download, k).polled - 1 == (k + 1) + PollFrom(step, polls, download, k + 1).polled - 1;
    }
  }

  /** The progress values of a run from attempt `k`: `i / 30` for every attempt
    * made, then 1.0 unless the run ended on a reply that raised. */
  lemma {:induction false} PollProgress(step: Reply -> Step, polls: seq<Reply>, download: Fetch, k: nat)
    requires k <= MaxAttempts
    ensures var r := PollFrom(step, polls, download, k);
      r.progress == Fractions(k, r.polled) +
        (if r.polled > 0 && StepAt(step, polls, k + r.polled - 1) == Crashed then [] else [1.0])
    decreases MaxAttempts - k
  {
    if k < MaxAttempts && StepAt(step, polls, k) == Pending {
      PollProgress(step, polls, download, k + 1);
      var rest := PollFrom(step, polls, download, k + 1);
      FractionsCons(k, rest.polled);
      assert k + (rest.polled + 1) - 1 == (k + 1) + rest.polled - 1;
    }
  }

  /** The progress values of attempts `k` on are that of attempt `k` followed by those of `k + 1` on. */
  lemma FractionsCons(k: nat, n: nat)
    ensures Fractions(k, n + 1) == [Fraction(k)] + Fractions(k + 1, n)
  {
    var a, b := Fractions(k, n + 1), [Fraction(k)] + Fractions(k + 1, n);
    assert forall i :: 0 <= i < n + 1 ==> a[i] == b[i] by {
      forall i | 0 <= i < n + 1 ensures a[i] == b[i] {
        if i > 0 {
          assert b[i] == Fractions(k + 1, n)[i - 1] == Fraction(k + 1 + (i - 1));
        }
      }
    }
  }

  /** A provider that never reports "done" gets exactly 30 polls and 30 sleeps,
    * no download, and a full progress bar. */
  lemma NeverDoneGivesUpAfterThirtyPolls(step: Reply -> Step, polls: seq<Reply>, download: Fetch)
    requires forall i :: 0 <= i < MaxAttempts ==> StepAt(step, polls, i) == Pending
    ensures PollFrom(step, polls, download, 0) == Run(Failed(PollLimit), MaxAttempts, MaxAttempts, Fractions(0, MaxAttempts) + [1.0], None)
  {
    PollStopsAtFirstVerdict(step, polls, download, 0);
    PollProgress(step, polls, download, 0);
  }

  /** A reply that reports "done" after `j` pending ones ends the loop on that
    * same attempt: `j + 1` polls, `j` sleeps, and the outcome of that reply. */
  lemma StopsOnFirstDone(step: Reply -> Step, polls: seq<Reply>, download: Fetch, j: nat)
    requires j < MaxAttempts
    requires forall i :: 0 <= i < j ==> StepAt(step, polls, i) == Pending
    requires StepAt(step, polls, j).Done?
    ensures var audioUrl := StepAt(step, polls, j).audioUrl;
      PollFrom(step, polls, download, 0) ==
        Run(Outcome(audioUrl, download), j + 1, j, Fractions(0, j + 1) + [1.0], FetchTarget(audioUrl))
  {
    StopsOnDoneFrom(step, polls, download, j, 0);
  }

  /** `StopsOnFirstDone`, seen from attempt `k <= j`. */
  lemma {:induction false} StopsOnDoneFrom(step: Reply -> Step, polls: seq<Reply>, download: Fetch, j: nat, k: nat)
    requires k <= j < MaxAttempts
    requires forall i :: k <= i < j ==> StepAt(step, polls, i) == Pending
    requires StepAt(step, polls, j).Done?
    ensures var audioUrl := StepAt(step, polls, j).audioUrl;
      PollFrom(step, polls, download, k) ==
        Run(Outcome(audioUrl, download), j + 1 - k, j - k, Fractions(k, j + 1 - k) + [1.0], FetchTarget(audioUrl))
    decreases j - k
  {
    if k < j {
      assert StepAt(step, polls, k) == Pending;
      StopsOnDoneFrom(step, polls, download, j, k + 1);
      assert Fractions(k, j + 1 - k) == [Fraction(k)] + Fractions(k + 1, j - k);
    }
  }

  /** The progress values of a run from attempt `k` start at `k / 30`, lie
    * between `k / 30` and 1, never decrease, stay below 1 until the last one,
    * and the last one is 1.0 exactly when the run ended on "done" or on
    * exhausting the attempts. From attempt 0 this is the whole progress bar. */
  lemma {:induction false} ProgressIsMonotone(step: Reply -> Step, polls: seq<Reply>, download: Fetch, k: nat)
    requires k < MaxAttempts
    ensures var r := PollFrom(step, polls, download, k);
      var p := r.progress;
      && |p| >= 1 && p[0] == Fraction(k)
      && (forall i, j :: 0 <= i <= j < |p| ==> p[i] <= p[j])
      && (forall i :: 0 <= i < |p| ==> Fraction(k) <= p[i] <= 1.0)
      && (forall i :: 0 <= i < |p| - 1 ==> p[i] < 1.0)
      && (p[|p| - 1] == 1.0 <==> r.speech == Failed(PollLimit) || StepAt(step, polls, k + r.polled - 1).Done?)
    decreases MaxAttempts - k
  {
    if StepAt(step, polls, k) == Pending && k + 1 < MaxAttempts {
      ProgressIsMonotone(step, polls, download, k + 1);
      assert Fraction(k) <= Fraction(k + 1);
    }
  }

  /** Submit, extract the handle, and poll: the whole of `generate_speech`. */
  function Synthesis(step: Reply -> Step, submitted: Reply, polls: seq<Reply>, download: Fetch): (r: Run)
    ensures r.polled <= MaxAttempts
    ensures submitted.Fault? ==> r == Run(Failed(Exception), 0, 0, [], None)
    ensures submitted.Body? && SpeakUrl(submitted.json) == Val(None) ==>
      r == Run(Failed(SpeakUrlMissing), 0, 0, [], None)
    ensures submitted.Body? && SpeakUrl(submitted.json).Raise? ==> r == Run(Failed(Exception), 0, 0, [], None)
    ensures submitted.Body? && SpeakUrl(submitted.json).Val? && SpeakUrl(submitted.json).v.Some? ==>
      r == PollFrom(step, polls, download, 0)
    ensures r.polled > 0 <==> submitted.Body? && SpeakUrl(submitted.json).Val? && SpeakUrl(submitted.json).v.Some?
  {
    match submitted
    case Fault => Run(Failed(Exception), 0, 0, [], None)
    case Body(response) =>
      match SpeakUrl(response)
      case Raise => Run(Failed(Exception), 0, 0, [], None)
      case Val(None) => Run(Failed(SpeakUrlMissing), 0, 0, [], None)
      case Val(Some(_)) => PollFrom(step, polls, download, 0)
  }
}
