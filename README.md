# Typecast speech synthesis and chat turn, modelled in Dafny

This project models the core of a voice-assistant front end. Each conversational turn sends the user's
text to a chat-completion service, shows the reply, and speaks it through the Typecast
speech-synthesis API. The speaking client is a small state machine:

1. POST the text to `/api/speak`.
2. Take the job handle (the speak URL) from the reply.
3. Poll that URL at most 30 times, sleeping between polls, until the job reports `"done"`.
4. Download the audio and save it.

The repository has two near-duplicate copies of this logic, `app.py` and `streamlit_app.py`. They
differ in how a poll reply is read. The code they share is modelled once. The differences are
modelled per copy.

Modules:

- `Common`: `Option` and `byte`.
- `PyJson`: JSON values as `response.json()` returns them, with Python's own meaning of
  `key in value` and `value[key]`. A string gives a substring test. A list gives element membership.
  A number, boolean or null raises `TypeError`. Subscripting a non-dictionary raises. Every exception
  is an explicit `Raise` value, because the client's single `except` turns each one into "return None".
- `Typecast`: the shared submit/poll/download machine.
  - `SpeakUrl` extracts the handle.
  - `PollFrom` is the recursive reference definition of the poll loop.
  - `Poll` is the imperative `for attempt in range(30)` loop, proved equal to `PollFrom`.
  - `Synthesis` is the whole of `generate_speech`.
  - Lemmas cover the attempt ceiling, stopping on the first terminal reply, and progress values.
- `Chat`: the role-tagged message list, the `Session` class, `BuildMessages`, `Strip`, and their lemmas.
  - `Session` holds the conversation history and the saved audio, updated in place.
  - `BuildMessages` is the message-building loop.
  - `Strip` is Python's `str.strip()`, with Python's whitespace set.
- `App` and `StreamlitApp`: each copy's reading of one poll reply (`PollStep`), its `GenerateSpeech`
  and `ProcessMessage`, and `app.py`'s `speech_language_code`.

The provider is abstract:

- The submit POST is one `Reply`: a JSON body, or `Fault`.
- The poll GETs are a sequence of `Reply`s. The i-th poll gets the i-th element. A poll past the end
  of the sequence gets `Fault`.
- The audio download is one `Fetch`.
- `Fault` stands for every exception the source catches: connection errors, a non-2xx status through
  `raise_for_status`, and a body that is not JSON.
- Sleeping is counted (`slept`). The copies sleep 1 s (`app.py`) and 2 s (`streamlit_app.py`).
- The progress bar is the sequence of values passed to `progress_bar.progress`. The 0 the bar is
  created with (`st.progress(0)`, app.py:182, streamlit_app.py:194) is not part of it.
- The download's result does not depend on the URL's text, with one exception. A URL that is not a
  non-empty string makes `requests.get` raise before any request is made (`Fetchable`).

A well-shaped reply is a reply whose body, and its `result` if present, are objects. The code's
behaviour on three points is easy to miss:

- A poll body that is a number, boolean or null, or whose `result` is one, makes a membership test
  raise. The attempt then ends in the `except` clause with `None` (app.py:195-196, 228-230). It is
  not treated as pending.
- Progress is set to 1.0 on every "done" reply, before the audio URL is looked at, so also when the
  URL then turns out to be missing (app.py:197).
- A failed download raises inside the same `try` and ends in the same `except` as every other
  exception (app.py:209-210, 228-230). There is no separate download error.

## Model

| member | source | states |
|---|---|---|
| `Typecast.SpeakUrl` | app.py:170-176 | For a reply whose body, and its `result` if present, are objects, the handle is `result.speak_v2_url` if present, else `result.speak_url`, else none. Any found handle comes from `speak_v2_url`, or from `speak_url` when `speak_v2_url` is absent. A scalar reply raises. |
| `Typecast.Outcome` | app.py:207-219 | After "done", audio is saved, with the downloaded bytes, exactly when a URL was found, it is a non-empty string, and the download succeeds. No URL is `AudioUrlMissing`. A raising lookup, a URL `requests.get` rejects, or a failed download is `Exception`. Never `PollLimit`. |
| `Typecast.FetchTarget` | app.py:207-209 | The download is called exactly when a URL was found, and with that URL. |
| `Typecast.PollFrom` | app.py:185-226 | Reference definition of the loop from a given attempt: between 1 and the remaining attempts are polled, with at most one sleep per poll. |
| `Typecast.Poll` | app.py:185-226 | The imperative attempt loop gives exactly the run of the reference definition: result, poll count, sleeps, progress values and download URL. |
| `Typecast.PollStopsAtFirstVerdict` | app.py:195-221 | Every poll but the last was pending. `PollLimit` happens exactly when all remaining replies are pending, and then every attempt was polled and slept after. Otherwise the last reply is the first non-pending one, and it decides the result and the download. |
| `Typecast.PollProgress` | app.py:186-187 | The progress values are k/30 for each attempt made, then 1.0, unless the run ended on a reply that raised. |
| `Typecast.NeverDoneGivesUpAfterThirtyPolls` | app.py:223-226 | A provider that never reports "done" gets exactly 30 polls and 30 sleeps, no download, progress 0/30 … 29/30 then 1.0, and `PollLimit`. |
| `Typecast.StopsOnFirstDone` | app.py:195-216 | A "done" reply after j pending ones ends the loop on that same attempt: j+1 polls, j sleeps, and the outcome of that reply. |
| `Typecast.ProgressIsMonotone` | app.py:186-197 | From any attempt k, progress values start at k/30, lie in [k/30, 1], never decrease, and stay below 1 until the last value. The last value is 1.0 exactly when the run ended on "done" or on exhaustion. From attempt 0 this is the whole bar. |
| `Typecast.Synthesis` | app.py:164-230 | At most 30 polls. A failed submit, or a reply with no speak URL, gives no poll, no progress and no download, with `Exception` or `SpeakUrlMissing`. A raising handle lookup is `Exception` with no poll. When a handle was found, the run is exactly the poll loop's run from attempt 0. |
| `Chat.HistoryMessages` | app.py:114-117 | The history contributes one user message per entry plus one assistant message per answered entry. The first is the first entry's user message. |
| `Chat.Prompt` | app.py:109-120 | The message list is the system prompt first, the history messages in between, and the current input last as a user message. |
| `Chat.HistoryMessagesAppend` | app.py:114-117 | Appending an entry to the history appends exactly that entry's messages. |
| `Chat.CompleteHistoryAlternates` | app.py:114-117 | When every entry has an assistant reply, messages alternate: entry i's user text at 2i and its reply at 2i+1. |
| `Chat.NextPromptExtends` | app.py:133-136 | After a completed turn, the next request's messages are this request's messages followed by the assistant reply and the next input. |
| `Chat.Strip` | app.py:234 | `not s.strip()` holds exactly when every character of `s` is Python whitespace. |
| `Chat.BuildMessages` | app.py:109-120 | The append loop builds exactly the message list `Prompt` describes. |
| `Chat.Session.GenerateResponse` | app.py:104-141 | Sends the prompt built from the old history. A completed reply appends exactly one `{user, assistant}` entry and is returned. A failure leaves the history alone and returns the "Sorry, …" text. |
| `App.IsDone` | app.py:195-196 | For a reply whose body, and its `result` if present, are objects: "done" at the top-level `status` or at `result.status`. A scalar reply raises. |
| `App.AudioUrl` | app.py:201-207 | For a reply whose body, and its `result` if present, are objects: `result.audio_download_url` if present, else the top-level `audio_download_url`. A Python-false value counts as no URL, without a fallback. |
| `App.PollStep` | app.py:190-221 | A faulted poll raises. A well-shaped reply (body and `result` objects) is terminal exactly when it reports "done", otherwise pending (sleep, poll again), and never raises at the status test. A number, boolean or null body raises. On "done" the URL is `AudioUrl`'s. |
| `App.GenerateSpeech` | app.py:144-230 | Computes the `Synthesis` run with app.py's reading of poll replies. At most 30 polls and 30 s of sleep. |
| `App.SpeechLanguageCode` | app.py:70-77 | Korean gives `ko`, English gives `en`, and every other choice, including the unset default "Auto-detect", gives no hint. |
| `App.ProcessMessage` | app.py:233-266 | A whitespace-only input does nothing. Any other input sends the prompt, appends at most one history entry, speaks the reply, and stores saved audio in the session. |
| `App.DoneReplyDecides` | app.py:195-219 | A well-shaped "done" reply after j pending ones gives j+1 polls and j sleeps. No usable URL is `AudioUrlMissing` with no download. A found URL is passed to the download: the audio is saved when it is a non-empty string and the download succeeds, otherwise `Exception`. |
| `App.ThirdPollDoneSavesAudio` | app.py:185-216 | Handle at `speak_v2_url`, two pending polls, then `result.status == "done"` with a URL: three polls, two sleeps, progress 0, 1/30, 2/30, 1.0, and the 8 bytes saved. |
| `App.NoSpeakUrlMeansNoPolls` | app.py:170-176 | A submit reply whose `result` has neither speak URL fails with `SpeakUrlMissing` before any poll. |
| `StreamlitApp.TopBranchAudioUrl` | streamlit_app.py:212-227 | In the top-level "done" branch, for a reply whose body, and its `result` if present, are objects, the URL is `result.audio_download_url` or none. The top-level URL is ignored. |
| `StreamlitApp.NestedBranchAudioUrl` | streamlit_app.py:233-248 | In the nested "done" branch, for a reply whose body, and its `result` if present, are objects and that has a `result`, the URL is `result.audio_download_url` or none. |
| `StreamlitApp.PollStep` | streamlit_app.py:202-250 | A faulted poll raises. A well-shaped reply (body and `result` objects) is terminal exactly when it reports "done" at either location, otherwise pending. On "done" only `result.audio_download_url` is taken, untested for truthiness. |
| `StreamlitApp.GenerateSpeech` | streamlit_app.py:154-259 | Computes the `Synthesis` run with this copy's reading of poll replies. At most 30 polls and 60 s of sleep. |
| `StreamlitApp.ProcessMessage` | streamlit_app.py:262-285 | A whitespace-only input does nothing. Any other input is answered, recorded once on success, spoken, and its saved audio stored. |
| `StreamlitApp.DoneReplyDecides` | streamlit_app.py:207-248 | A well-shaped "done" reply after j pending ones gives j+1 polls and j sleeps. An absent `result.audio_download_url` is `AudioUrlMissing` with no download. A present one, whatever its value, is passed to the download: the audio is saved when it is a non-empty string and the download succeeds, otherwise `Exception`. |
| `StreamlitApp.NullNestedUrlRaises` | streamlit_app.py:233-248 | A "done" reply whose `result.audio_download_url` is null: this copy calls the download with it and fails with `Exception`. app.py reports `AudioUrlMissing` with no download. |
| `StreamlitApp.CopiesAgreeOnNestedUrl` | streamlit_app.py:207-248 | On well-shaped replies (body and `result` objects) both copies find the same replies terminal. They read a reply identically whenever `result.audio_download_url` is present and truthy. |
| `StreamlitApp.TopLevelUrlOnlyDivergence` | streamlit_app.py:207-227 | A "done" reply whose only URL is top-level is downloaded and saved by app.py. This copy reports `AudioUrlMissing` instead. |

## Left out

- Rendering is left out: Streamlit spinners, progress and status widgets, chat bubbles, the sidebar, captions, warnings, `st.audio` playback and the `auto_play` and `is_listening` flags. Progress is kept as the sequence of values passed to `progress_bar.progress`.
- Request details are not modelled: authentication headers, endpoint URLs and the submit payload (`text`, `lang`, `actor_id`, `xapi_hd`, `model_version`, tempo 1.1 or 1, volume, pitch). The provider's replies are inputs, so the text spoken (the turn's `reply`) does not affect them.
- The download result does not depend on the URL once it is a non-empty string. A string without a scheme, an unreachable host and a non-2xx status are all `FetchFault`, chosen by the caller.
- The poll replies do not depend on the handle's value. The model does not pass the speak URL to the provider.
- A provider that runs out of poll replies is treated as a transport fault. This is a modelling choice, not something the source does.
- Wall-clock time (`int(time.time())`) and the file system are left out. So are the `./audio_files/speech_<seconds>.wav` filename and the write. `Saved(bytes)` stands for the written file and `audioFile` for its name in the session.
- `time.sleep` is counted but takes no time.
- Speech-to-text is left out: Whisper transcription, temp-file export and removal, and `process_audio_recording` are external calls and file I/O.
- The chat-completion call is an input (`ChatReply`). A reply whose `content` is `None` is not modelled: reply texts are strings.
- Also left out: `get_api_keys`, `utils/api_config.py` (environment lookup only), `clear_conversation`, `toggle_auto_play` and the history display loop, which are outside the turn logic.
- `StreamlitApp.ProcessMessage`: the long Korean system prompt of streamlit_app.py is a parameter rather than a constant.
- `Typecast.Fraction`: progress values are the exact reals k/30, where Python computes the nearest float. Their order and bounds are the same.
- JSON numbers are reals. NaN, infinities and repeated object keys are not represented.
- Exceptions raised by the Streamlit calls themselves inside the `try` block are not modelled.
