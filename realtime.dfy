/**
 * The realtime transcription session client (openai_realtime_client.py).
 *
 * Pure part: duplicate-utterance suppression (exact match, suffix match, or a
 * longest common substring above 80% of the candidate), the mostly-ASCII filter,
 * the reaction to one inbound server event, and the force-commit counter.
 * Stateful part: class `Client`, whose methods update `audio_accumulated_sec`,
 * `last_transcript`, `_closing` and the socket, and log what is sent over the
 * socket and what the `on_transcript` / `on_error` callbacks receive.
 */
module Realtime {
  import opened Wrappers
  import opened Text
  import opened Config

  // ---------------------------------------------------------------------------
  // Longest common substring (difflib's `find_longest_match` over the whole ranges)

  /** Length of the longest common prefix of `a` and `b`. */
  function CommonPrefixLen(a: string, b: string): (n: nat)
    ensures n <= |a| && n <= |b|
    ensures a[..n] == b[..n]
    ensures n < |a| && n < |b| ==> a[n] != b[n]
  {
    if |a| == 0 || |b| == 0 || a[0] != b[0] then 0
    else
      var m := CommonPrefixLen(a[1..], b[1..]);
      assert a[..m + 1] == [a[0]] + a[1..][..m];
      assert b[..m + 1] == [b[0]] + b[1..][..m];
      m + 1
  }

  /** `a[i..i+k]` and `b[j..j+k]` are the same run of characters. */
  ghost predicate CommonRun(a: string, b: string, i: int, j: int, k: nat) {
    0 <= i && 0 <= j && i + k <= |a| && j + k <= |b| && a[i..i + k] == b[j..j + k]
  }

  function Max(x: nat, y: nat): nat { if x >= y then x else y }

  /** Longest prefix of `x` that starts somewhere in `b` at or after offset `j`. */
  function BestFrom(x: string, b: string, j: nat): nat
    requires j <= |b|
    decreases |b| - j
  {
    if j == |b| then 0 else Max(CommonPrefixLen(x, b[j..]), BestFrom(x, b, j + 1))
  }

  /** Longest common run of `a[i'..]` and `b`, over all `i' >= i`. */
  function LcsFrom(a: string, b: string, i: nat): nat
    requires i <= |a|
    decreases |a| - i
  {
    if i == |a| then 0 else Max(BestFrom(a[i..], b, 0), LcsFrom(a, b, i + 1))
  }

  /**
   * Length of the longest common substring of `a` and `b`: no common run is
   * longer, and some common run has exactly this length.
   */
  function Lcs(a: string, b: string): (r: nat)
    ensures forall i, j, k: nat :: CommonRun(a, b, i, j, k) ==> k <= r
    ensures exists i, j :: CommonRun(a, b, i, j, r)
  {
    LcsExact(a, b);
    LcsFrom(a, b, 0)
  }

  lemma LcsExact(a: string, b: string)
    ensures forall i, j, k: nat :: CommonRun(a, b, i, j, k) ==> k <= LcsFrom(a, b, 0)
    ensures exists i, j :: CommonRun(a, b, i, j, LcsFrom(a, b, 0))
  {
    forall i, j, k: nat | CommonRun(a, b, i, j, k) ensures k <= LcsFrom(a, b, 0) {
      LcsIsLongest(a, b, i, j, k);
    }
    var i, j := LcsIsCommon(a, b);
  }

  lemma {:induction false} PrefixBound(x: string, y: string, k: nat)
    requires k <= |x| && k <= |y| && x[..k] == y[..k]
    ensures k <= CommonPrefixLen(x, y)
  {
    if k > 0 {
      assert x[0] == y[0] by { assert x[..k][0] == y[..k][0]; }
      assert x[1..][..k - 1] == x[..k][1..];
      assert y[1..][..k - 1] == y[..k][1..];
      PrefixBound(x[1..], y[1..], k - 1);
    }
  }

  lemma {:induction false} BestFromBound(x: string, b: string, j0: nat, j: nat)
    requires j0 <= j < |b|
    ensures CommonPrefixLen(x, b[j..]) <= BestFrom(x, b, j0)
    decreases j - j0
  {
    if j0 < j { BestFromBound(x, b, j0 + 1, j); }
  }

  lemma {:induction false} LcsFromBound(a: string, b: string, i0: nat, i: nat)
    requires i0 <= i < |a|
    ensures BestFrom(a[i..], b, 0) <= LcsFrom(a, b, i0)
    decreases i - i0
  {
    if i0 < i { LcsFromBound(a, b, i0 + 1, i); }
  }

  /** No common run is longer than the scan over all start offsets finds. */
  lemma LcsIsLongest(a: string, b: string, i: int, j: int, k: nat)
    requires CommonRun(a, b, i, j, k)
    ensures k <= LcsFrom(a, b, 0)
  {
    if k > 0 {
      assert a[i..][..k] == a[i..i + k] && b[j..][..k] == b[j..j + k];
      PrefixBound(a[i..], b[j..], k);
      BestFromBound(a[i..], b, 0, j);
      LcsFromBound(a, b, 0, i);
    }
  }

  lemma {:induction false} BestFromWitness(x: string, b: string, j0: nat) returns (j: nat)
    requires j0 <= |b|
    ensures j0 <= j <= |b|
    ensures BestFrom(x, b, j0) == if j == |b| then 0 else CommonPrefixLen(x, b[j..])
    decreases |b| - j0
  {
    if j0 == |b| {
      j := j0;
    } else if CommonPrefixLen(x, b[j0..]) >= BestFrom(x, b, j0 + 1) {
      j := j0;
    } else {
      j := BestFromWitness(x, b, j0 + 1);
    }
  }

  lemma {:induction false} LcsFromWitness(a: string, b: string, i0: nat) returns (i: nat, j: nat)
    requires i0 <= |a|
    ensures CommonRun(a, b, i, j, LcsFrom(a, b, i0))
    decreases |a| - i0
  {
    if i0 == |a| {
      i, j := |a|, |b|;
      assert a[i..i] == b[j..j];
    } else if BestFrom(a[i0..], b, 0) >= LcsFrom(a, b, i0 + 1) {
      i := i0;
      j := RunAt(a, b, i0);
    } else {
      i, j := LcsFromWitness(a, b, i0 + 1);
    }
  }

  /** The best run starting at offset `i0` of `a` occurs in `b`. */
  lemma RunAt(a: string, b: string, i0: nat) returns (j: nat)
    requires i0 < |a|
    ensures CommonRun(a, b, i0, j, BestFrom(a[i0..], b, 0))
  {
    j := BestFromWitness(a[i0..], b, 0);
    if j < |b| {
      var n := CommonPrefixLen(a[i0..], b[j..]);
      assert a[i0..][..n] == a[i0..i0 + n] && b[j..][..n] == b[j..j + n];
    } else {
      assert a[i0..i0] == b[j..j];
    }
  }

  /** The scan's result is achieved: some common run has exactly that length. */
  lemma LcsIsCommon(a: string, b: string) returns (i: nat, j: nat)
    ensures CommonRun(a, b, i, j, LcsFrom(a, b, 0))
  {
    i, j := LcsFromWitness(a, b, 0);
  }

  // ---------------------------------------------------------------------------
  // Duplicate suppression (`_is_duplicate`)

  /** `_is_duplicate(text)` against the stored `last_transcript`. */
  function IsDuplicate(last: string, text: string): (r: bool)
    ensures |text| < 2 ==> !r
    ensures |text| >= 2 && EndsWith(last, text) ==> r
  {
    if text == [] || |text| < 2 then false
    else if text == last then true
    else if EndsWith(last, text) then true
    else DUPLICATE_RATIO_DEN * Lcs(last, text) > DUPLICATE_RATIO_NUM * |text|
  }

  /**
   * The three tests collapse into one: a candidate of at least two characters is a
   * duplicate exactly when it shares with `last` a run longer than 80% of itself.
   */
  lemma DuplicateIffLongRun(last: string, text: string)
    ensures IsDuplicate(last, text) <==> |text| >= 2 && 10 * Lcs(last, text) > 8 * |text|
  {
    if |text| >= 2 && EndsWith(last, text) {
      assert last[|last| - |text|..|last| - |text| + |text|] == text;
      assert CommonRun(last, text, |last| - |text|, 0, |text|);
    }
  }

  /** An utterance of two or more characters, once stored, suppresses its own replay. */
  lemma RepeatSuppressed(text: string)
    requires |text| >= 2
    ensures IsDuplicate(text, text)
  {
  }

  /** A prefix that keeps more than 80% of the stored utterance is still a duplicate. */
  lemma TruncatedRepeatIsDuplicate()
    ensures IsDuplicate("hello world", "hello worl")
  {
    assert CommonRun("hello world", "hello worl", 0, 0, 10);
  }

  // ---------------------------------------------------------------------------
  // Character-set filter (`_filter_transcript`)

  predicate IsAscii(c: char) { (c as int) < 128 }

  function AsciiCount(s: string): (n: nat)
    ensures n <= |s|
  {
    if s == [] then 0 else (if IsAscii(s[0]) then 1 else 0) + AsciiCount(s[1..])
  }

  /** `_filter_transcript`: `None` for empty text or when fewer than 70% of the characters are ASCII. */
  function FilterTranscript(text: string): (r: Option<string>)
    ensures r.None? <==> text == [] || ASCII_RATIO_DEN * AsciiCount(text) < ASCII_RATIO_NUM * |text|
    ensures r.Some? ==> r.value == text
  {
    if text == [] then None
    else if ASCII_RATIO_DEN * AsciiCount(text) < ASCII_RATIO_NUM * |text| then None
    else Some(text)
  }

  /** Every character is ASCII exactly when the count is the full length. */
  lemma {:induction false} AsciiCountFull(s: string)
    ensures AsciiCount(s) == |s| <==> forall k :: 0 <= k < |s| ==> IsAscii(s[k])
  {
    if s != [] {
      AsciiCountFull(s[1..]);
      assert forall k :: 1 <= k < |s| ==> s[k] == s[1..][k - 1];
    }
  }

  /** No character is ASCII exactly when the count is zero. */
  lemma {:induction false} AsciiCountZero(s: string)
    ensures AsciiCount(s) == 0 <==> forall k :: 0 <= k < |s| ==> !IsAscii(s[k])
  {
    if s != [] {
      AsciiCountZero(s[1..]);
      assert forall k :: 1 <= k < |s| ==> s[k] == s[1..][k - 1];
    }
  }

  /** The filter passes text through unchanged or drops it; pure-ASCII text always passes. */
  lemma FilterKeepsOrDrops(text: string)
    ensures FilterTranscript(text) == None || FilterTranscript(text) == Some(text)
    ensures text != [] && (forall k :: 0 <= k < |text| ==> IsAscii(text[k])) ==> FilterTranscript(text) == Some(text)
    ensures text != [] && (forall k :: 0 <= k < |text| ==> !IsAscii(text[k])) ==> FilterTranscript(text) == None
  {
    AsciiCountFull(text);
    AsciiCountZero(text);
  }

  // ---------------------------------------------------------------------------
  // Inbound events (`_handle_message`)

  /** A decoded server message; `Malformed` stands for JSON that does not parse. */
  datatype ServerEvent =
    | TranscriptionCompleted(transcript: string)  // the `transcript` field, "" when absent
    | SpeechStopped
    | BufferCommitted
    | ApiError(message: Option<string>)           // `error.message`, if present
    | OtherEvent(eventType: string)
    | Malformed

  /** What handling one event does: reset the counter, emit a transcript, report an error. */
  datatype Reaction = Reaction(resetCounter: bool, emit: Option<string>, report: Option<string>)

  const UNKNOWN_ERROR: string := "Unknown error"

  /** Remote errors that only say the input buffer was too short to commit. */
  predicate Benign(msg: string) {
    Contains(msg, "buffer too small") || Contains(msg, "buffer only has")
  }

  /** The cleaned, non-duplicate utterance a completed transcription yields, if any. */
  function Accepted(last: string, transcript: string): (r: Option<string>)
    ensures r.Some? <==> var c := Strip(transcript);
      c != [] && FilterTranscript(c).Some? && !IsDuplicate(last, c)
    ensures r.Some? ==> r.value == Strip(transcript)
  {
    if transcript == [] || Strip(transcript) == [] then None
    else match FilterTranscript(Strip(transcript))
      case Some(cleaned) => if cleaned != [] && !IsDuplicate(last, cleaned) then Some(cleaned) else None
      case None => None
  }

  /** The effect of `_handle_message` for one event, given the stored `last_transcript`. */
  function React(last: string, e: ServerEvent): (r: Reaction)
    ensures r.resetCounter <==> e.TranscriptionCompleted? || e.SpeechStopped? || e.BufferCommitted?
    ensures r.emit.Some? ==> e.TranscriptionCompleted? && r.report.None?
    ensures r.emit.Some? ==> var c := r.emit.value;
      c == Strip(e.transcript) && c != [] && FilterTranscript(c) == Some(c) && !IsDuplicate(last, c)
    ensures (e.TranscriptionCompleted? && Strip(e.transcript) != [] && FilterTranscript(Strip(e.transcript)).Some?
             && !IsDuplicate(last, Strip(e.transcript))) ==> r.emit == Some(Strip(e.transcript))
    ensures r.report.Some? <==> e.ApiError? && !Benign(e.message.GetOr(UNKNOWN_ERROR))
    ensures r.report.Some? ==> r.report.value == "API Error: " + e.message.GetOr(UNKNOWN_ERROR)
  {
    match e
    case TranscriptionCompleted(t) => Reaction(true, Accepted(last, t), None)
    case SpeechStopped => Reaction(true, None, None)
    case BufferCommitted => Reaction(true, None, None)
    case ApiError(m) =>
      var msg := m.GetOr(UNKNOWN_ERROR);
      if Benign(msg) then Reaction(false, None, None)
      else Reaction(false, None, Some("API Error: " + msg))
    case OtherEvent(_) => Reaction(false, None, None)
    case Malformed => Reaction(false, None, None)
  }

  /**
   * An emitted utterance replaces `last_transcript` with a different value, except
   * for one-character utterances, which are never treated as duplicates.
   */
  lemma EmitChangesLast(last: string, e: ServerEvent)
    requires React(last, e).emit.Some?
    ensures React(last, e).emit.value != last || |last| < 2
  {
  }

  /** Replaying a completed transcription right after it was emitted emits nothing. */
  lemma ReplayEmitsNothing(last: string, t: string)
    requires React(last, TranscriptionCompleted(t)).emit.Some?
    requires |Strip(t)| >= 2
    ensures React(React(last, TranscriptionCompleted(t)).emit.value, TranscriptionCompleted(t)).emit.None?
  {
  }

  // ---------------------------------------------------------------------------
  // Force-commit counter (`send_audio_chunk`)

  /** Seconds of 24 kHz 16-bit PCM in `nbytes` bytes. */
  function Duration(nbytes: nat): real {
    nbytes as real / BYTES_PER_SECOND as real
  }

  /** Does appending `nbytes` to a counter at `acc` force a commit? */
  predicate CommitDue(acc: real, nbytes: nat) {
    acc + Duration(nbytes) >= FORCE_COMMIT_INTERVAL_S
  }

  /** The counter after an append (and, when due, a commit) succeed. */
  function CounterAfter(acc: real, nbytes: nat): (r: real)
    requires acc >= 0.0
    ensures 0.0 <= r < FORCE_COMMIT_INTERVAL_S
    ensures r == 0.0 || r == acc + Duration(nbytes)
    ensures CommitDue(acc, nbytes) <==> r == 0.0 && (acc > 0.0 || nbytes > 0)
  {
    if CommitDue(acc, nbytes) then 0.0 else acc + Duration(nbytes)
  }

  /** Total duration of a run of chunk sizes. */
  function TotalDuration(sizes: seq<nat>): (d: real)
    ensures d >= 0.0
  {
    if sizes == [] then 0.0 else Duration(sizes[0]) + TotalDuration(sizes[1..])
  }

  /** Number of commits over a run of successful sends with no reset event in between. */
  function CommitsOver(acc: real, sizes: seq<nat>): nat
    requires acc >= 0.0
    decreases |sizes|
  {
    if sizes == [] then 0
    else (if CommitDue(acc, sizes[0]) then 1 else 0) + CommitsOver(CounterAfter(acc, sizes[0]), sizes[1..])
  }

  /** The counter at the end of such a run. */
  function CounterOver(acc: real, sizes: seq<nat>): (r: real)
    requires acc >= 0.0
    ensures 0.0 <= r
    decreases |sizes|
  {
    if sizes == [] then acc else CounterOver(CounterAfter(acc, sizes[0]), sizes[1..])
  }

  /**
   * Sending chunks whose cumulative duration first reaches the force-commit
   * interval with the last chunk triggers exactly one commit and leaves the
   * counter at zero.
   */
  lemma {:induction false} ForcedCommitOnce(acc: real, sizes: seq<nat>)
    requires acc >= 0.0 && |sizes| >= 1
    requires acc + TotalDuration(sizes[..|sizes| - 1]) < FORCE_COMMIT_INTERVAL_S
    requires acc + TotalDuration(sizes) >= FORCE_COMMIT_INTERVAL_S
    ensures CommitsOver(acc, sizes) == 1
    ensures CounterOver(acc, sizes) == 0.0
    decreases |sizes|
  {
    if |sizes| == 1 {
      assert sizes[1..] == [];
      assert TotalDuration(sizes) == Duration(sizes[0]);
    } else {
      var front := sizes[..|sizes| - 1];
      assert front[0] == sizes[0] && front[1..] == sizes[1..][..|sizes[1..]| - 1];
      assert TotalDuration(front) == Duration(sizes[0]) + TotalDuration(sizes[1..][..|sizes[1..]| - 1]);
      assert !CommitDue(acc, sizes[0]);
      ForcedCommitOnce(acc + Duration(sizes[0]), sizes[1..]);
    }
  }

  // ---------------------------------------------------------------------------
  // The session object

  /** What the client writes to the socket (JSON and base64 framing not modelled). */
  datatype OutMessage = SessionUpdate | AudioAppend(audio: seq<bv8>) | BufferCommit

  /**
   * Outcome of `connect` up to the message loop: the socket opens and the session
   * configuration is written, the socket opens but that write raises, or the
   * socket does not open.
   */
  datatype ConnectResult = Opened | ConfigWriteFailed(detail: string) | Refused(detail: string)

  class Client {
    /** `self.ws is not None`. */
    var connected: bool
    var closing: bool
    var audioAccumulatedSec: real
    var lastTranscript: string
    /** Messages written to the socket, in order. */
    var sent: seq<OutMessage>
    /** Arguments of the `on_transcript` callback, in order. */
    var transcripts: seq<string>
    /** Arguments of the `on_error` callback, in order. */
    var errors: seq<string>

    ghost predicate Valid()
      reads this
    {
      audioAccumulatedSec >= 0.0
    }

    constructor ()
      ensures Valid()
      ensures !connected && !closing && audioAccumulatedSec == 0.0 && lastTranscript == ""
      ensures sent == [] && transcripts == [] && errors == []
    {
      connected, closing := false, false;
      audioAccumulatedSec, lastTranscript := 0.0, "";
      sent, transcripts, errors := [], [], [];
    }

    /** `connect` up to the message loop: clear `_closing`, open the socket, configure the session. */
    method Connect(result: ConnectResult)
      requires Valid()
      modifies this
      ensures Valid() && !closing
      ensures audioAccumulatedSec == old(audioAccumulatedSec) && lastTranscript == old(lastTranscript)
      ensures transcripts == old(transcripts)
      ensures result.Opened? ==> connected && sent == old(sent) + [SessionUpdate] && errors == old(errors)
      ensures !result.Opened? ==>
        !connected && sent == old(sent) && errors == old(errors) + ["Connection failed: " + result.detail]
    {
      closing := false;
      match result
      case Opened =>
        connected := true;
        sent := sent + [SessionUpdate];
      case ConfigWriteFailed(detail) =>
        connected := false;
        errors := errors + ["Connection failed: " + detail];
      case Refused(detail) =>
        connected := false;
        errors := errors + ["Connection failed: " + detail];
    }

    /** One pass of the `async for message in ws` loop of `connect`. */
    method Receive(e: ServerEvent)
      requires Valid()
      modifies this`connected, this`audioAccumulatedSec, this`lastTranscript, this`transcripts, this`errors
      ensures Valid()
      ensures old(closing) ==>
        !connected && audioAccumulatedSec == old(audioAccumulatedSec) && lastTranscript == old(lastTranscript)
        && transcripts == old(transcripts) && errors == old(errors)
      ensures !old(closing) ==> connected == old(connected) && var r := React(old(lastTranscript), e);
        && audioAccumulatedSec == (if r.resetCounter then 0.0 else old(audioAccumulatedSec))
        && lastTranscript == r.emit.GetOr(old(lastTranscript))
        && transcripts == old(transcripts) + (if r.emit.Some? then [r.emit.value] else [])
        && errors == old(errors) + (if r.report.Some? then [r.report.value] else [])
    {
      if closing {
        connected := false;
      } else {
        HandleMessage(e);
      }
    }

    /** `_handle_message`: apply `React` to the stored state and the callbacks. */
    method HandleMessage(e: ServerEvent)
      requires Valid()
      modifies this`audioAccumulatedSec, this`lastTranscript, this`transcripts, this`errors
      ensures Valid()
      ensures var r := React(old(lastTranscript), e);
        && audioAccumulatedSec == (if r.resetCounter then 0.0 else old(audioAccumulatedSec))
        && lastTranscript == r.emit.GetOr(old(lastTranscript))
        && transcripts == old(transcripts) + (if r.emit.Some? then [r.emit.value] else [])
        && errors == old(errors) + (if r.report.Some? then [r.report.value] else [])
    {
      var r := React(lastTranscript, e);
      if r.resetCounter {
        audioAccumulatedSec := 0.0;
      }
      if r.emit.Some? {
        lastTranscript := r.emit.value;
        transcripts := transcripts + [r.emit.value];
      }
      if r.report.Some? {
        errors := errors + [r.report.value];
      }
    }

    /**
     * `send_audio_chunk`; `appendOk` and `commitOk` say whether the two socket
     * writes succeed (a failing write raises and is swallowed).
     */
    method SendAudioChunk(audio: seq<bv8>, appendOk: bool, commitOk: bool)
      requires Valid()
      modifies this`audioAccumulatedSec, this`sent
      ensures Valid()
      ensures !old(connected) || old(closing) || !appendOk ==>
        audioAccumulatedSec == old(audioAccumulatedSec) && sent == old(sent)
      ensures old(connected) && !old(closing) && appendOk ==>
        if CommitDue(old(audioAccumulatedSec), |audio|) then
          if commitOk then
            sent == old(sent) + [AudioAppend(audio), BufferCommit] && audioAccumulatedSec == 0.0
          else
            sent == old(sent) + [AudioAppend(audio)]
            && audioAccumulatedSec == old(audioAccumulatedSec) + Duration(|audio|)
        else
          sent == old(sent) + [AudioAppend(audio)]
          && audioAccumulatedSec == old(audioAccumulatedSec) + Duration(|audio|)
      ensures old(connected) && !old(closing) && appendOk && (commitOk || !CommitDue(old(audioAccumulatedSec), |audio|)) ==>
        audioAccumulatedSec == CounterAfter(old(audioAccumulatedSec), |audio|)
        && audioAccumulatedSec < FORCE_COMMIT_INTERVAL_S
    {
      if !connected || closing {
        return;
      }
      if !appendOk {
        return;
      }
      sent := sent + [AudioAppend(audio)];
      audioAccumulatedSec := audioAccumulatedSec + Duration(|audio|);
      if audioAccumulatedSec >= FORCE_COMMIT_INTERVAL_S {
        if !commitOk {
          return;
        }
        sent := sent + [BufferCommit];
        audioAccumulatedSec := 0.0;
      }
    }

    /**
     * The message loop of `connect` ends: normally (`failure` is `None`) or by an
     * exception, reported through `on_error` unless the client is closing.
     */
    method ConnectionEnded(failure: Option<string>)
      modifies this`connected, this`errors
      ensures !connected
      ensures errors == old(errors) + (if failure.Some? && !closing then ["Connection failed: " + failure.value] else [])
    {
      if failure.Some? && !closing {
        errors := errors + ["Connection failed: " + failure.value];
      }
      connected := false;
    }

    /** `disconnect`: set `_closing` and drop the socket (a failing close is ignored). */
    method Disconnect()
      modifies this`closing, this`connected
      ensures closing && !connected
    {
      closing := true;
      connected := false;
    }
  }
}
