# Stream audio service: a Dafny model of its capture, session, enrichment and broadcast core

The stream audio service captures desktop audio and streams it to a remote
real-time transcription session. It suppresses repeated utterances, formats each
utterance through a language model, and fans the resulting events out to local
WebSocket subscribers. This project models the sequential state logic under that
plumbing and proves properties of it:

- **Capture engine** (`streamer.dfy`, class `Streamer.AudioStreamer`):
  - the bounded capture queue (500 blocks, the oldest is dropped when full);
  - the drain of that queue into the accumulation buffer;
  - the send step, which takes exactly one chunk of `min_send_samples` and applies the loudness gate;
  - the 5-second cap, the device-rate fallback, the resampled length and the retry loop of at most five stream attempts.
- **Session client** (`realtime.dfy`, class `Realtime.Client`):
  - duplicate-utterance suppression over an exact longest common substring;
  - the mostly-ASCII filter and the reaction to each inbound event;
  - the force-commit counter;
  - the `_closing` flag.
- **Enrichment queue** (`enricher.dfy`, class `Enricher.TranscriptEnricher`; `speaker.dfy`; `timestamp.dfy`):
  - the FIFO of items, each carrying the visual context it was enqueued with;
  - the processing of one item against a language-model oracle;
  - the fallback line, the sliding history window and the `M:SS` formatter;
  - the speaker label matcher and the first-label-wins speaker registry.
- **Broadcast server** (`broadcast.dfy`, class `Broadcast.Server`):
  - the client set and the unbounded event queue;
  - the fan-out that drops exactly the clients whose send failed;
  - the heartbeat condition, the connection handshake and ping/pong.

Shared modules:
- `wrappers.dfy`: `Option`.
- `config.dfy`: the named constants.
- `text.dfy`: Python's `strip`, ASCII `lower`, the substring test, decimal text, and `join`/`split` on a separator.
- `fifo.dfy`: the drop-oldest bounded FIFO used by both the history window and the capture queue.

Inputs that are I/O, clocks or foreign calls are parameters of the model:
- the clock (`now`);
- the device-query result;
- whether the session socket opens and whether its configuration write succeeds (`ConnectResult`);
- whether each later socket write succeeds (`ok`, `appendOk`, `commitOk`, an `ok` function per client);
- the language-model reply, as a function from the prompt to `Failed` or `Content(text)`;
- `20*log10(sqrt(mean square))`, as a function of the mean square;
- whether the asyncio loop is running.

Samples are exact reals.

## Model

| member | source | states |
|---|---|---|
| Realtime.Lcs | openai_realtime_client.py:106-107 | the longest match is the length of a run that occurs in both strings, and no shared run is longer: it is exactly the longest common substring |
| Realtime.LcsIsLongest | openai_realtime_client.py:106-107 | no run shared by the stored transcript and the candidate is longer than what the scan over start positions computes |
| Realtime.LcsIsCommon | openai_realtime_client.py:106-107 | the length the scan computes is that of a run that really occurs in both strings, at positions the lemma returns |
| Realtime.IsDuplicate | openai_realtime_client.py:99-108 | a candidate shorter than two characters is never a duplicate; one of two or more characters that equals or ends the stored transcript always is |
| Realtime.DuplicateIffLongRun | openai_realtime_client.py:99-108 | the three tests collapse into one: duplicate exactly when the candidate has at least two characters and its longest common run with the stored transcript exceeds 80% of its length |
| Realtime.RepeatSuppressed | openai_realtime_client.py:102-103 | an utterance of two or more characters, once stored, is a duplicate of itself |
| Realtime.TruncatedRepeatIsDuplicate | openai_realtime_client.py:106-108 | "hello worl" after "hello world" is suppressed by the longest-match test |
| Realtime.AsciiCountFull | openai_realtime_client.py:113 | the ASCII count equals the length exactly when every character is below 128 |
| Realtime.AsciiCountZero | openai_realtime_client.py:113 | the ASCII count is zero exactly when no character is below 128 |
| Realtime.FilterTranscript | openai_realtime_client.py:110-116 | nothing exactly for empty text or text whose ASCII share is below 0.7; otherwise the text itself |
| Realtime.FilterKeepsOrDrops | openai_realtime_client.py:110-116 | the filter returns the text unchanged or nothing; all-ASCII non-empty text passes and non-empty text with no ASCII character is dropped |
| Realtime.Accepted | openai_realtime_client.py:123-132 | a completed transcript is accepted exactly when its stripped form is non-empty, passes the filter and is not a duplicate of the stored one; what is accepted is the stripped form |
| Realtime.React | openai_realtime_client.py:118-146 | the counter is reset exactly by transcription-completed, speech-stopped and committed events; an emitted utterance is the stripped transcript, passes the filter and is not a duplicate, and every such transcript is emitted; an error is reported exactly for a non-benign message, as "API Error: " + the message, with "Unknown error" for a missing one |
| Realtime.EmitChangesLast | openai_realtime_client.py:128-130 | an emitted utterance differs from the stored one unless that stored one is shorter than two characters |
| Realtime.ReplayEmitsNothing | openai_realtime_client.py:123-132 | replaying a completed transcription of two or more characters right after it was emitted emits nothing |
| Realtime.CounterAfter | openai_realtime_client.py:161-166 | after a successful append and commit the counter is in [0, 3.0); a commit happens exactly when the new total reaches 3.0, and then the counter is 0 |
| Realtime.ForcedCommitOnce | openai_realtime_client.py:161-166 | chunks whose cumulative duration first reaches 3.0 s with the last chunk cause exactly one commit and leave the counter at 0 |
| Realtime.Client.constructor | openai_realtime_client.py:24-35 | not closing, no socket, counter 0, empty stored transcript |
| Realtime.Client.Connect | openai_realtime_client.py:37-63 | `_closing` is cleared; an opened socket receives the session configuration; a refused connection or a failed configuration write leaves no socket, sends nothing and reports "Connection failed: " + the detail; counter, stored transcript and emitted transcripts are untouched |
| Realtime.Client.Receive | openai_realtime_client.py:53-56 | while closing, a message ends the loop (no socket) and changes nothing else; otherwise the socket stays, and the counter, stored transcript, emitted transcripts and reported errors change exactly as `React` says |
| Realtime.Client.HandleMessage | openai_realtime_client.py:118-146 | counter, stored transcript, emitted transcripts and reported errors change exactly as `React` says |
| Realtime.Client.SendAudioChunk | openai_realtime_client.py:151-170 | nothing changes without a socket, while closing, or when the append fails; otherwise the append is sent and the counter grows by bytes/48000; at 3.0 s a successful commit follows and the counter becomes 0, and then the counter is below 3.0 |
| Realtime.Client.ConnectionEnded | openai_realtime_client.py:58-66 | the socket is gone; a failure is reported unless the client is closing |
| Realtime.Client.Disconnect | openai_realtime_client.py:68-75 | `_closing` set and the socket dropped |
| Text.Strip | openai_realtime_client.py:126-127 | the result is empty exactly for all-whitespace input; otherwise it starts and ends with non-whitespace and is the input without leading and trailing whitespace |
| Text.Lower | transcript_enricher.py:152-154 | same length, each character lower-cased |
| Text.ContainsIff | openai_realtime_client.py:143 | the substring test holds exactly when the needle occurs at some offset |
| Timestamp.TruncToInt | transcript_enricher.py:94 | `int()` on a float truncates toward zero |
| Timestamp.FmtTs | transcript_enricher.py:93-95 | the stamp is minutes, a colon and two digits; the digits are the whole seconds mod 60 and the minutes parse back as the whole seconds div 60 |
| Timestamp.FmtTsRoundTrip | transcript_enricher.py:93-95 | reading the stamp back gives exactly the truncated number of seconds |
| Speaker.Search | transcript_enricher.py:147-151 | `re.search` from a position: nothing exactly when the pattern matches at no later position; otherwise the match at the first position where it matches |
| Speaker.ExtractSpeaker | transcript_enricher.py:147-151 | nothing exactly when the pattern matches nowhere; otherwise the stripped group of the leftmost match, which is itself stripped |
| Speaker.ExtractsStampedLabel | transcript_enricher.py:147-151 | in a line `[digits:dd] Label (tone): text` or `[digits:dd] Label: text` with a plain label, the matcher extracts exactly `Label` |
| Speaker.ExtractsFormattedLabel | transcript_enricher.py:147-151 | for a non-negative time, a line starting with the `_fmt_ts` stamp and a plain label yields that label |
| Speaker.Candidate | transcript_enricher.py:147-153 | a candidate exists exactly when the matcher extracts a label that mentions a voice keyword, and it is that label, already stripped |
| Speaker.LabelAcrossLines | transcript_enricher.py:147-153 | the label group may span a line break: `[0:05] Male\nVoice: hi` yields the candidate `Male\nVoice` |
| Speaker.Track | transcript_enricher.py:146-156 | the registry only grows and by at most one item; it grows exactly when a candidate exists and its lower-case key is new, and the new item is that key with the label; afterwards the candidate's key is present |
| Speaker.AppendKeepsValid | transcript_enricher.py:154-156 | adding a new key, the lower-case form of a label that mentions a voice, keeps the registry valid |
| Speaker.TrackKeepsValid | transcript_enricher.py:152-156 | keys stay unique, each the lower-case form of a label that mentions a voice |
| Speaker.TrackIdempotent | transcript_enricher.py:154-156 | tracking the same line twice adds nothing the second time |
| Speaker.TrackAllKeepsFirstLabels | transcript_enricher.py:146-156 | over any run of lines the registry only grows, every earlier item keeps its label, and validity is kept |
| Enricher.SpeakerLines | transcript_enricher.py:100-102 | definition: one line `  - label: key` per registered speaker, in insertion order |
| Enricher.SpeakerHistory | transcript_enricher.py:97-99 | the "No speakers identified yet." text appears exactly for the empty registry |
| Enricher.SpeakerHistoryLines | transcript_enricher.py:97-103 | for a non-empty registry whose labels contain no line break, splitting the summary at line breaks gives the header followed by exactly one line per registered speaker |
| Enricher.LabelAcrossLinesInSummary | transcript_enricher.py:97-103 | a first line whose candidate label spans a line break registers one speaker whose summary line contains a line break |
| Fifo.PushBounded | audio_streamer.py:115-122 | the new element is last; the length grows by one up to the bound and then stays; the result is the old queue plus the new element minus at most its oldest element |
| Fifo.PushAllKeepsNewest | transcript_enricher.py:140-142 | starting within the bound, after any run of pushes the queue is exactly the newest `cap` of everything pushed |
| Enricher.PushHistory | transcript_enricher.py:140-142 | the new line is last; the window never exceeds 8; it grows until 8 and then evicts the oldest |
| Enricher.Recent | transcript_enricher.py:110-112 | the prompt shows the last min(len, 5) lines of the window |
| Enricher.RecentEndsWithNewest | transcript_enricher.py:110-112 | right after a push, the prompt history ends with the new line |
| Enricher.FallbackLine | transcript_enricher.py:88-89 | the fallback line is `[`, a stamp that reads back as the item's whole seconds, `] ` and the raw text |
| Enricher.MakePrompt | transcript_enricher.py:105-120 | the prompt shows the item's visual context, or a non-empty placeholder when it has none; the no-speakers text exactly for an empty registry; the last min(len, 5) history lines; the raw text; and a stamp that reads back as the item's whole seconds |
| Enricher.Process | transcript_enricher.py:80-89 | processing one item keeps the window within 8 and the registry valid |
| Enricher.ProcessEffect | transcript_enricher.py:80-89 | a delivery carries the item's id; a failure changes nothing and yields the fallback; an answer becomes the newest history line, never shrinks the registry, and is delivered exactly when it is not blank |
| Enricher.ProcessAll | transcript_enricher.py:74-91 | working off a queue keeps the memory valid and delivers at most one line per item |
| Enricher.DeliveriesInQueueOrder | transcript_enricher.py:77-84 | when no answer is blank, every item yields exactly one delivery and the deliveries carry the items' ids in queue order |
| Enricher.AllFailedGivesFallbacks | transcript_enricher.py:85-89 | when every call fails, item i yields exactly its fallback line with its id, in order, and the memory is untouched |
| Enricher.TranscriptEnricher.constructor | transcript_enricher.py:18-39 | empty context, history, registry and queue; not running |
| Enricher.TranscriptEnricher.Start | transcript_enricher.py:43-45 | running, with the session start at the given time |
| Enricher.TranscriptEnricher.Stop | transcript_enricher.py:52-53 | not running |
| Enricher.TranscriptEnricher.UpdateVisualContext | transcript_enricher.py:57-59 | the context is replaced; queued items are not touched |
| Enricher.TranscriptEnricher.Enrich | transcript_enricher.py:61-70 | text shorter than two characters after stripping leaves the queue unchanged; otherwise exactly one item joins the tail, with the raw text, the elapsed time, the current visual context and the id |
| Enricher.TranscriptEnricher.Step | transcript_enricher.py:76-89 | the front item leaves the queue; history, registry and deliveries change exactly as processing it says |
| Enricher.TranscriptEnricher.RunUntilIdle | transcript_enricher.py:74-91 | while running, the queue is worked off from the front, one item at a time, and the final memory and the deliveries are those of processing the items in insertion order; when not running nothing changes |
| Streamer.InputRate | audio_streamer.py:135-141 | definition: the reported device rate, or 48000 when the query fails |
| Streamer.MinSendSamples | audio_streamer.py:144 | the floor of rate × 1.2 |
| Streamer.ChunkSamples | audio_streamer.py:151 | the floor of rate × 0.1 |
| Streamer.MaxBuffer | audio_streamer.py:208 | definition: rate × 5 |
| Streamer.FallbackRates | audio_streamer.py:139-151 | without a device the sizes are 48000 Hz, 57600 samples per chunk, 4800 per block and 240000 in the buffer |
| Streamer.ResampleLength | audio_streamer.py:124-128 | equal rates return the input length; otherwise the floor of len × target / orig; a zero source rate has no result |
| Streamer.ResampleRoundTripAtMost | audio_streamer.py:124-128 | resampling there and back never gains samples |
| Streamer.ResampleRoundTripUpFirst | audio_streamer.py:124-128 | upsampling first and back loses at most one sample |
| Streamer.ResampleRoundTripDownFirst | audio_streamer.py:124-128 | downsampling first can lose more: 3 samples at 44100 Hz become 1 at 24000 Hz and stay 1 |
| Streamer.SumSqZero | audio_streamer.py:131-132 | the sum of squares is zero exactly on an all-zero chunk |
| Streamer.Db | audio_streamer.py:130-132 | definition: silence scores -100; otherwise the value is the dB of the mean square |
| Streamer.Clip | audio_streamer.py:194 | the result lies in [-1, 1] and equals the input inside that range |
| Streamer.Condition | audio_streamer.py:192-194 | definition: each sample is clip((x − mean) × 1.5), same length |
| Streamer.SilentChunkNeverSent | audio_streamer.py:192-196 | an all-zero chunk stays silent after conditioning and fails the −50 dB gate |
| Streamer.Scale | audio_streamer.py:180 | definition: each `int16` sample divided by 32768 |
| Streamer.ScaleInRange | audio_streamer.py:180 | scaled `int16` samples lie in [-1, 1) |
| Streamer.FlattenAppend | audio_streamer.py:177-183 | the samples of two block runs are the samples of the first followed by those of the second |
| Streamer.LastSlice | audio_streamer.py:210 | definition: `s[-k:]`: the last k elements, and the whole sequence for k = 0 |
| Streamer.Cap | audio_streamer.py:207-210 | the result is a suffix of the buffer; a buffer within the bound, or a zero bound, is kept; otherwise exactly the newest `max_buf` samples remain |
| Streamer.CapIdempotent | audio_streamer.py:207-210 | capping twice is capping once |
| Streamer.ThirdChunkForcesCommit | audio_streamer.py:196-203 | at 48 kHz a chunk resamples to 28800 samples, counted as 1.2 s by the session; two such chunks force no commit, the third forces exactly one and resets the counter |
| Streamer.RunWithRetries | audio_streamer.py:152-163 | no attempt when not running; at most five attempts; every attempt but the last failed while still running; fewer than five attempts means the last one succeeded or `running` was cleared |
| Streamer.AudioStreamer.constructor | audio_streamer.py:22-40 | not running, empty queue, input rate 16000 |
| Streamer.AudioStreamer.Start | audio_streamer.py:52-53 | running |
| Streamer.AudioStreamer.AudioCallback | audio_streamer.py:108-122 | nothing while stopped; otherwise the block joins the tail, after the oldest block leaves when 500 are queued; the queue never exceeds 500 |
| Streamer.AudioStreamer.ConfigureDevice | audio_streamer.py:135-151 | the input rate, `min_send_samples` and block size follow the device query |
| Streamer.AudioStreamer.OpenStream | audio_streamer.py:172-173 | empty buffer, last send at the given time |
| Streamer.AudioStreamer.DrainQueue | audio_streamer.py:177-183 | the queue is empty and the buffer is the old buffer followed by the queued blocks' samples, oldest first |
| Streamer.AudioStreamer.SendStep | audio_streamer.py:185-205 | when 1.2 s have passed and a full chunk is buffered, exactly the first `min_send_samples` samples leave and the last send becomes now, whether or not the chunk passes the gate, and the old buffer is that chunk followed by the new buffer; the conditioned chunk is handed off exactly when it is loud enough and the loop runs; otherwise nothing changes |
| Streamer.AudioStreamer.CapBuffer | audio_streamer.py:207-210 | the buffer becomes its 5-second cap |
| Streamer.AudioStreamer.StreamIteration | audio_streamer.py:175-212 | one pass drains the queue, sends at most one chunk and caps the buffer: the queue is empty, the buffer holds at most 5 s of samples, and the new buffer, the last send and the hand-offs are those of drain, send and cap in that order |
| Streamer.AudioStreamer.Stop | audio_streamer.py:64-89 | not running, the capture queue empty, and the session closing with no socket when its loop was running |
| Streamer.AudioStreamer.ClearQueue | audio_streamer.py:85-89 | the capture queue is empty |
| Broadcast.Survivors | websocket_server.py:94-100 | exactly the snapshot's clients whose send succeeded |
| Broadcast.Dead | websocket_server.py:93-98 | exactly the snapshot's clients whose send failed |
| Broadcast.RemovingDeadLeavesSurvivors | websocket_server.py:99-100 | removing the dead leaves exactly the survivors; dead and survivors are disjoint and together make up the snapshot |
| Broadcast.Server.constructor | websocket_server.py:14-18 | no clients, an empty queue, running, nothing received |
| Broadcast.Server.Stop | websocket_server.py:25-26 | not running |
| Broadcast.Server.Push | websocket_server.py:30-34 | the event always joins the tail of the queue |
| Broadcast.Server.Deliver | websocket_server.py:96 | a successful send appends the message to exactly that client's inbox; every other inbox is unchanged |
| Broadcast.Server.DoBroadcast | websocket_server.py:89-100 | every client of the set receives the message once if its send succeeds; afterwards the set is exactly the old set minus the clients whose send failed |
| Broadcast.Server.SendToAll | websocket_server.py:92-98 | each client of the snapshot is tried once; the collected dead set is exactly the failures |
| Broadcast.Server.ProcessTick | websocket_server.py:71-81 | while running and the queue is not empty, exactly the front event leaves and is fanned out; otherwise nothing changes |
| Broadcast.Server.HeartbeatTick | websocket_server.py:83-87 | a heartbeat is fanned out only while running and some client is connected; otherwise nothing changes |
| Broadcast.Server.ClientConnected | websocket_server.py:50-58 | the client joins and first receives `connection_established`; when that send fails it leaves again; nobody else receives anything |
| Broadcast.Server.OnClientMessage | websocket_server.py:59-65 | a `ping` is answered with a `pong` when the reply can be sent; anything else is ignored; the client set is untouched |
| Broadcast.Server.ClientDisconnected | websocket_server.py:66-69 | the client leaves the set |

## Behaviour worth noting

- **Prompt history.** The history keeps 8 lines, and the prompt uses only the last 5 (transcript_enricher.py:112). See `Enricher.Recent` and `Enricher.MakePrompt`.
- **Blank answers.** An answer that is blank after stripping produces no callback (transcript_enricher.py:83), so such an utterance has no output. `Enricher.DeliveriesInQueueOrder` therefore requires non-blank answers, and `Enricher.ProcessEffect` states the blank case.
- **Resample round trip.** Resampling A→B→A:
  - keeps the sample count within one when upsampling first (`Streamer.ResampleRoundTripUpFirst`);
  - can lose more when downsampling first: 44100→24000→44100 takes 3 samples to 1 (`Streamer.ResampleRoundTripDownFirst`).
- **Outbound queue.** `queue.Queue()` is unbounded (websocket_server.py:16), so `broadcast` always enqueues.
- **Device errors.**
  - A failed device query is not retried: the rate falls back to 48000 Hz (audio_streamer.py:139-142).
  - Any exception from `_run_stream`, whether raised when the stream opens or in the middle of streaming, is caught and retried, for at most five attempts in all (audio_streamer.py:152-163).
  - Giving up reports nothing.
- **Counter after a failed commit.** The counter stays below 3.0 only when the commit write succeeds. A failed commit write is swallowed, and the counter keeps its value of at least 3.0 (openai_realtime_client.py:164-170). The next successful send then commits.
- **Late replies to a dropped client.** A fan-out may drop a client whose session handler is still running. That client can still get a `pong`, because `Broadcast.Server.OnClientMessage` does not require membership.

## Left out

- **Floating point.** Samples, durations and ratios are exact reals and integers, so float32/float64 rounding is not modelled:
  - `int(rate*1.2)` and `int(rate*0.1)` agree with the floors for any realistic rate;
  - the 0.8 and 0.7 comparisons agree with the exact fractions for any realistic length.
- **Signal processing.** These are not modelled:
  - the sample values produced by `signal.resample` (only the output length is);
  - `sqrt`/`log10` in `_db` beyond the silent case: the dB of a non-silent chunk is a parameter;
  - the conversion to `int16` PCM, which only contributes its length, two bytes per sample;
  - the volume level passed to `volume_callback`.
- **numpy edge cases.**
  - `Streamer.Db`: the mean of an empty chunk is NaN in numpy, which also scores -100. The model gives it -100 directly.
  - A `ZeroDivisionError` in `_resample` needs a zero input rate, and is top-level behaviour not modelled.
- **Wire formats.** JSON encoding and parsing, base64 audio and the session-configuration fields are not modelled. Inbound and outbound messages are datatypes.
- **Concurrency.** Threads, asyncio loops, locks, `run_coroutine_threadsafe`, joins and the sleeps are not modelled.
  - Each worker is one sequential step: `Enricher.TranscriptEnricher.Step`, `Streamer.AudioStreamer.StreamIteration`, `Broadcast.Server.ProcessTick` and `Broadcast.Server.HeartbeatTick`.
  - The capture callback running while the queue drains is not modelled.
  - The call to `send_audio_chunk` is asynchronous; it is recorded as a hand-off in `handedOff`.
- **Clocks and devices.** The clock and the device query are parameters: `time.time()` becomes `now`. The query is a `nat` rate, so `int()` of a fractional `default_samplerate` is taken as already done.
- **Language model.** The chat-completions call is an oracle from the prompt's ingredients to a reply. The exact prompt wording is not modelled; the `Prompt` datatype carries what the prompt is built from.
- **Text matching.**
  - `difflib`: with the default `autojunk`, `find_longest_match` can report less than the true longest common substring for candidates of 200 or more characters. `Realtime.IsDuplicate` uses the exact longest common substring.
  - The speaker pattern is a deterministic matcher that follows the regex engine's first choices. Full backtracking over unusual lines is not reproduced.
  - `Text.Lower` lower-cases ASCII letters only.
  - `Text.IsDigit`, and with it the `\d+` of the speaker pattern, accepts the ASCII digits 0–9 only, while Python's `\d` on `str` also matches every other Unicode decimal digit.
  - `Text.Strip` uses Python's whitespace set for `str`.
- SpeakerHistoryLines: stated only for labels without a line break. The speaker pattern's `[^:(]` also matches a line break, so a label can span lines (`Speaker.LabelAcrossLines`), and such a label breaks the one-line-per-speaker layout of the summary (`Enricher.LabelAcrossLinesInSummary`).
- **Callbacks.**
  - An exception raised by `on_enriched` itself would also reach the fallback branch; that is not modelled.
  - `on_enriched` is assumed to be set.
  - `Enricher.TranscriptEnricher.RunUntilIdle` covers the worker loop only until the queue is empty.
- **Broadcast failure paths.** The `except Exception` around a fan-out in `_queue_processor` only matters for a `json.dumps` failure, and serialisation is not modelled.
- **Unused state.** `speaker_counter` is never read or written after initialisation.
- **Other files.** `service.py`, `http_control.py` and `main.py` are orchestration, the HTTP control plane and the entry point; they are not part of this model.
- **`min_send_samples` before configuration.** It is `None` until the device is queried. It is modelled as 0, and no send step runs before configuration.
