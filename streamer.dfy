/**
 * The desktop capture engine (audio_streamer.py).
 *
 * Pure part: the device-rate fallback and the sizes derived from the rate, the
 * resampled length, the loudness value with its silent case, the conditioning of
 * a chunk (DC removal, gain 1.5, clipping), the 5-second cap, and the loop of at
 * most five stream attempts.
 * Stateful part: class `AudioStreamer`, whose methods update the bounded capture
 * queue, the accumulation buffer and the time of the last send, and record the
 * chunks handed to the realtime client.
 *
 * Samples are exact reals: the float32 arithmetic of numpy is not modelled.
 */
module Streamer {
  import opened Wrappers
  import opened Config
  import opened Fifo
  import Realtime

  // ---------------------------------------------------------------------------
  // Rates and sizes

  /** `input_rate` after the device query: the reported rate, or 48000 when the query fails. */
  function InputRate(query: Option<nat>): (rate: nat)
    ensures query.None? ==> rate == DEFAULT_INPUT_RATE
    ensures query.Some? ==> rate == query.value
  {
    query.GetOr(DEFAULT_INPUT_RATE)
  }

  /**
   * `int(input_rate * 1.2)`. The double nearest to 1.2 lies below it by less than
   * half an ulp of any product with a rate below 2^50, so the float product
   * truncates to the exact floor of `6 * rate / 5`.
   */
  function MinSendSamples(rate: nat): (n: nat)
    ensures n as real <= rate as real * SEND_INTERVAL_S < (n + 1) as real
  {
    (rate * 6) / 5
  }

  /** `int(input_rate * 0.1)`: the capture block size, a tenth of a second. */
  function ChunkSamples(rate: nat): (n: nat)
    ensures n as real <= rate as real * 0.1 < (n + 1) as real
  {
    rate / 10
  }

  /** `int(input_rate * 5)`: the largest number of samples the buffer keeps. */
  function MaxBuffer(rate: nat): (n: nat)
    ensures n == rate * BUFFER_CAP_S
  {
    rate * BUFFER_CAP_S
  }

  /** For a device that cannot be queried the stream uses 48 kHz, sends 1.2 s chunks and reads 0.1 s blocks. */
  lemma FallbackRates()
    ensures InputRate(None) == 48000
    ensures MinSendSamples(InputRate(None)) == 57600
    ensures ChunkSamples(InputRate(None)) == 4800
    ensures MaxBuffer(InputRate(None)) == 240000
  {
  }

  /**
   * `_resample`'s output length: the input itself when the rates agree, otherwise
   * `int(len * target / orig)`; `None` stands for the `ZeroDivisionError` of a zero
   * source rate.
   */
  function ResampleLength(n: nat, orig: nat, target: nat): (r: Option<nat>)
    ensures r.Some? <==> orig == target || orig > 0
    ensures orig == target ==> r == Some(n)
    ensures r.Some? && orig > 0 ==> r.value * orig <= n * target < (r.value + 1) * orig
  {
    if orig == target then Some(n)
    else if orig == 0 then None
    else Some((n * target) / orig)
  }

  /** Resampling there and back never gains samples. */
  lemma ResampleRoundTripAtMost(n: nat, a: nat, b: nat)
    requires a > 0 && b > 0
    ensures ResampleLength(ResampleLength(n, a, b).value, b, a).value <= n
  {
    var m := ResampleLength(n, a, b).value;
    var k := ResampleLength(m, b, a).value;
    assert k * b <= m * a <= n * b;
    CancelMul(k, n, b);
  }

  /** Upsampling first and downsampling back loses at most one sample. */
  lemma ResampleRoundTripUpFirst(n: nat, a: nat, b: nat)
    requires 0 < a <= b
    ensures var k := ResampleLength(ResampleLength(n, a, b).value, b, a).value;
      n - 1 <= k <= n
  {
    ResampleRoundTripAtMost(n, a, b);
    var m := ResampleLength(n, a, b).value;
    var k := ResampleLength(m, b, a).value;
    // n * b < m * a + a <= m * a + b, and m * a < k * b + b.
    assert n * b < m * a + a;
    assert m * a < k * b + b;
    assert n * b < (k + 2) * b;
    CancelMulStrict(n, k + 2, b);
  }

  lemma CancelMul(k: nat, n: nat, b: nat)
    requires b > 0 && k * b <= n * b
    ensures k <= n
  {
  }

  lemma CancelMulStrict(k: nat, n: nat, b: nat)
    requires b > 0 && k * b < n * b
    ensures k < n
  {
  }

  /** Downsampling first can lose more: three samples at 44.1 kHz come back as one. */
  lemma ResampleRoundTripDownFirst()
    ensures ResampleLength(3, 44100, 24000) == Some(1)
    ensures ResampleLength(1, 24000, 44100) == Some(1)
  {
  }

  // ---------------------------------------------------------------------------
  // Loudness and conditioning of a chunk

  function Product(a: real, b: real): real { a * b }

  function Square(x: real): real { Product(x, x) }

  lemma ProductPositive(a: real, b: real)
    requires a > 0.0 && b > 0.0
    ensures Product(a, b) > 0.0
  {
  }

  lemma ProductNegated(a: real, b: real)
    ensures Product(-a, -b) == Product(a, b)
  {
  }

  /** A square is never negative, and positive off zero. */
  lemma SquarePositive(x: real)
    ensures x == 0.0 ==> Square(x) == 0.0
    ensures x != 0.0 ==> Square(x) > 0.0
  {
    if x > 0.0 {
      ProductPositive(x, x);
    } else if x < 0.0 {
      ProductPositive(-x, -x);
      ProductNegated(x, x);
    }
  }

  function SumSq(xs: seq<real>): (r: real)
    ensures r >= 0.0
  {
    if xs == [] then 0.0
    else
      SquarePositive(xs[0]);
      Square(xs[0]) + SumSq(xs[1..])
  }

  /** The sum of squares vanishes exactly on silence. */
  lemma {:induction false} SumSqZero(xs: seq<real>)
    ensures SumSq(xs) == 0.0 <==> forall i :: 0 <= i < |xs| ==> xs[i] == 0.0
  {
    if xs != [] {
      var rest := xs[1..];
      SumSqZero(rest);
      SquarePositive(xs[0]);
      assert forall i :: 0 <= i < |rest| ==> rest[i] == xs[i + 1];
      if SumSq(xs) == 0.0 {
        forall i | 0 <= i < |xs| ensures xs[i] == 0.0 {
          if i > 0 { assert xs[i] == rest[i - 1]; }
        }
      }
    }
  }

  /**
   * `_db`: `20 * log10(rms)` when the root mean square is positive, and -100 for
   * silence. The logarithm of the mean square is a parameter; the mean of an empty
   * chunk is NaN in numpy, which also fails `rms > 0`.
   */
  function Db(xs: seq<real>, dbOfMeanSquare: real -> real): (r: real)
    ensures SumSq(xs) == 0.0 ==> r == SILENCE_DB
    ensures SumSq(xs) > 0.0 ==> r == dbOfMeanSquare(SumSq(xs) / |xs| as real)
  {
    if SumSq(xs) > 0.0 then dbOfMeanSquare(SumSq(xs) / |xs| as real) else SILENCE_DB
  }

  /** The loudness gate of the send step. */
  predicate Loud(xs: seq<real>, dbOfMeanSquare: real -> real) {
    Db(xs, dbOfMeanSquare) >= DB_THRESHOLD
  }

  function Sum(xs: seq<real>): real {
    if xs == [] then 0.0 else xs[0] + Sum(xs[1..])
  }

  function Mean(xs: seq<real>): real {
    if xs == [] then 0.0 else Sum(xs) / |xs| as real
  }

  /** `np.clip(x, -1.0, 1.0)`. */
  function Clip(x: real): (r: real)
    ensures -1.0 <= r <= 1.0
    ensures -1.0 <= x <= 1.0 ==> r == x
  {
    if x < -1.0 then -1.0 else if x > 1.0 then 1.0 else x
  }

  /** `np.clip((chunk - mean(chunk)) * 1.5, -1, 1)`. */
  function Condition(xs: seq<real>): (r: seq<real>)
    ensures |r| == |xs|
    ensures forall i :: 0 <= i < |xs| ==> r[i] == Clip((xs[i] - Mean(xs)) * 1.5)
  {
    var m := Mean(xs);
    seq(|xs|, i requires 0 <= i < |xs| => Clip((xs[i] - m) * 1.5))
  }

  lemma {:induction false} SumZero(xs: seq<real>)
    requires forall i :: 0 <= i < |xs| ==> xs[i] == 0.0
    ensures Sum(xs) == 0.0
  {
    if xs != [] {
      assert forall i :: 0 <= i < |xs| - 1 ==> xs[1..][i] == xs[i + 1];
      SumZero(xs[1..]);
    }
  }

  /** A silent captured chunk stays silent and fails the gate, so it is never handed off. */
  lemma SilentChunkNeverSent(xs: seq<real>, dbOfMeanSquare: real -> real)
    requires forall i :: 0 <= i < |xs| ==> xs[i] == 0.0
    ensures !Loud(Condition(xs), dbOfMeanSquare)
  {
    SumZero(xs);
    var c := Condition(xs);
    assert forall i :: 0 <= i < |c| ==> c[i] == 0.0;
    SumSqZero(c);
  }

  // ---------------------------------------------------------------------------
  // Blocks, the buffer and its cap

  /** A capture block of `int16` samples. */
  predicate Int16Block(block: seq<int>) {
    forall i :: 0 <= i < |block| ==> -32768 <= block[i] < 32768
  }

  /** `block.flatten().astype(np.float32) / 32768.0`. */
  function Scale(block: seq<int>): (r: seq<real>)
    ensures |r| == |block|
    ensures forall i :: 0 <= i < |block| ==> r[i] == block[i] as real / 32768.0
  {
    seq(|block|, i requires 0 <= i < |block| => block[i] as real / 32768.0)
  }

  /** Scaled `int16` samples lie in `[-1, 1)`. */
  lemma ScaleInRange(block: seq<int>)
    requires Int16Block(block)
    ensures forall i :: 0 <= i < |block| ==> -1.0 <= Scale(block)[i] < 1.0
  {
  }

  /** The samples of a run of blocks, oldest block first. */
  function Flatten(blocks: seq<seq<int>>): seq<real> {
    if blocks == [] then [] else Scale(blocks[0]) + Flatten(blocks[1..])
  }

  /** Flattening distributes over concatenation of block runs. */
  lemma {:induction false} FlattenAppend(a: seq<seq<int>>, b: seq<seq<int>>)
    ensures Flatten(a + b) == Flatten(a) + Flatten(b)
  {
    if a == [] {
      assert a + b == b;
    } else {
      assert (a + b)[0] == a[0];
      assert (a + b)[1..] == a[1..] + b;
      FlattenAppend(a[1..], b);
      AppendAssoc(Scale(a[0]), Flatten(a[1..]), Flatten(b));
    }
  }

  /** Python's `s[-k:]` for `0 <= k <= len(s)`: the last `k` elements, except that `s[-0:]` is all of `s`. */
  function LastSlice<T>(s: seq<T>, k: nat): (r: seq<T>)
    requires k <= |s|
    ensures k > 0 ==> r == s[|s| - k..] && |r| == k
    ensures k == 0 ==> r == s
  {
    if k == 0 then s else s[|s| - k..]
  }

  /**
   * The cap: `audio_buf[-max_buf:]` when the buffer is longer than `max_buf`. A
   * zero bound keeps the whole buffer.
   */
  function Cap(buf: seq<real>, max: nat): (r: seq<real>)
    ensures |r| <= |buf| && r == buf[|buf| - |r|..]
    ensures |buf| <= max || max == 0 ==> r == buf
    ensures max > 0 ==> |r| == Min(|buf|, max)
  {
    if |buf| > max then LastSlice(buf, max) else buf
  }

  /** Capping twice is capping once. */
  lemma CapIdempotent(buf: seq<real>, max: nat)
    ensures Cap(Cap(buf, max), max) == Cap(buf, max)
  {
  }

  // ---------------------------------------------------------------------------
  // What a sent chunk costs the session

  /** `(resampled * 32767).astype(np.int16).tobytes()`: two bytes per sample. */
  function PcmBytes(samples: nat): nat { 2 * samples }

  /**
   * At 48 kHz a chunk of `min_send_samples` resamples to 28800 samples at 24 kHz,
   * 57600 bytes, which the session counts as 1.2 s; so the third such chunk in a
   * row forces a buffer commit and the first two do not.
   */
  lemma ThirdChunkForcesCommit()
    ensures ResampleLength(MinSendSamples(DEFAULT_INPUT_RATE), DEFAULT_INPUT_RATE, TARGET_RATE) == Some(28800)
    ensures Realtime.Duration(PcmBytes(28800)) == SEND_INTERVAL_S
    ensures Realtime.CommitsOver(0.0, [57600, 57600]) == 0
    ensures Realtime.CommitsOver(0.0, [57600, 57600, 57600]) == 1
    ensures Realtime.CounterOver(0.0, [57600, 57600, 57600]) == 0.0
  {
    var sizes := [57600, 57600, 57600];
    assert sizes[..2] == [57600, 57600];
    assert [57600, 57600][1..] == [57600];
    assert [57600][1..] == [];
    assert sizes[1..] == [57600, 57600];
    Realtime.ForcedCommitOnce(0.0, sizes);
  }

  // ---------------------------------------------------------------------------
  // `_process_worker`'s retry loop

  /**
   * `while self.running and retry < 5`: attempt the stream; stop after an attempt
   * that returns, or after a failed one once `running` is false; otherwise count
   * the failure and try again. `fails(i)` says whether attempt `i` raises and
   * `runningAfter(i)` what `running` is when it does.
   */
  method RunWithRetries(running: bool, fails: nat -> bool, runningAfter: nat -> bool) returns (attempts: nat)
    ensures attempts <= MAX_RETRY
    ensures running <==> attempts > 0
    ensures forall i :: 0 <= i < attempts - 1 ==> fails(i) && runningAfter(i)
    ensures 0 < attempts < MAX_RETRY ==> !fails(attempts - 1) || !runningAfter(attempts - 1)
  {
    var retry := 0;
    var live := running;
    attempts := 0;
    while live && retry < MAX_RETRY
      invariant attempts == retry <= MAX_RETRY
      invariant live == (retry == 0 ==> running)
      invariant retry > 0 ==> running
      invariant forall i :: 0 <= i < retry ==> fails(i) && runningAfter(i)
      decreases MAX_RETRY - retry
    {
      attempts := attempts + 1;
      if !fails(retry) {
        return;
      }
      live := runningAfter(retry);
      if !live {
        return;
      }
      retry := retry + 1;
    }
  }

  // ---------------------------------------------------------------------------
  // The capture engine

  class AudioStreamer {
    var running: bool
    /** The capture queue of `int16` blocks, oldest first. */
    var queue: seq<seq<int>>
    var inputRate: nat
    /** `min_send_samples`; zero until the device has been queried. */
    var minSendSamples: nat
    var chunkSamples: nat
    /** `audio_buf`: scaled samples waiting to be sent. */
    var audioBuf: seq<real>
    var lastSend: real
    /** Conditioned chunks handed to the realtime client, in order. */
    var handedOff: seq<seq<real>>

    ghost predicate Valid()
      reads this
    {
      |queue| <= QUEUE_CAPACITY
    }

    constructor ()
      ensures Valid()
      ensures !running && queue == [] && inputRate == 16000
      ensures audioBuf == [] && handedOff == []
    {
      running := false;
      queue := [];
      inputRate := 16000;
      minSendSamples := 0;
      chunkSamples := 0;
      audioBuf := [];
      lastSend := 0.0;
      handedOff := [];
    }

    method Start()
      modifies this`running
      ensures running
    {
      running := true;
    }

    /**
     * `_audio_callback`: nothing while stopped; otherwise the block joins the tail,
     * and when the queue is full the oldest block makes room for it.
     */
    method AudioCallback(block: seq<int>)
      requires Valid()
      modifies this`queue
      ensures Valid()
      ensures !running ==> queue == old(queue)
      ensures running && |old(queue)| < QUEUE_CAPACITY ==> queue == old(queue) + [block]
      ensures running && |old(queue)| == QUEUE_CAPACITY ==> queue == old(queue)[1..] + [block]
    {
      if !running {
        return;
      }
      if |queue| < QUEUE_CAPACITY {
        queue := queue + [block];
      } else {
        queue := queue[1..];
        queue := queue + [block];
      }
      assert queue == PushBounded(old(queue), block, QUEUE_CAPACITY);
    }

    /** The rate set-up at the top of `_process_worker`. */
    method ConfigureDevice(query: Option<nat>)
      modifies this`inputRate, this`minSendSamples, this`chunkSamples
      ensures inputRate == InputRate(query)
      ensures minSendSamples == MinSendSamples(inputRate)
      ensures chunkSamples == ChunkSamples(inputRate)
    {
      inputRate := InputRate(query);
      minSendSamples := MinSendSamples(inputRate);
      chunkSamples := ChunkSamples(inputRate);
    }

    /** Entering `_run_stream`: an empty buffer and the clock as the last send. */
    method OpenStream(now: real)
      modifies this`audioBuf, this`lastSend
      ensures audioBuf == [] && lastSend == now
    {
      audioBuf := [];
      lastSend := now;
    }

    /** Drain the capture queue into the buffer, oldest block first. */
    method DrainQueue()
      modifies this`queue, this`audioBuf
      ensures queue == []
      ensures audioBuf == old(audioBuf) + Flatten(old(queue))
    {
      while queue != []
        invariant audioBuf + Flatten(queue) == old(audioBuf) + Flatten(old(queue))
        decreases |queue|
      {
        var data := queue[0];
        AppendAssoc(audioBuf, Scale(data), Flatten(queue[1..]));
        queue := queue[1..];
        audioBuf := audioBuf + Scale(data);
      }
    }

    /**
     * The send step: once 1.2 s have passed and a full chunk is buffered, exactly
     * the first `min_send_samples` samples leave the buffer and the clock is taken,
     * whether or not the conditioned chunk is loud enough to be handed off.
     */
    method SendStep(now: real, loopAlive: bool, dbOfMeanSquare: real -> real)
      modifies this`audioBuf, this`lastSend, this`handedOff
      ensures var due := now - old(lastSend) >= SEND_INTERVAL_S && |old(audioBuf)| >= minSendSamples;
        && (due ==> audioBuf == old(audioBuf)[minSendSamples..] && lastSend == now)
        && (due ==> old(audioBuf) == old(audioBuf)[..minSendSamples] + audioBuf)
        && (!due ==> audioBuf == old(audioBuf) && lastSend == old(lastSend))
        && var chunk := Condition(old(audioBuf)[..if due then minSendSamples else 0]);
           handedOff == old(handedOff) + (if due && Loud(chunk, dbOfMeanSquare) && loopAlive then [chunk] else [])
    {
      if now - lastSend >= SEND_INTERVAL_S && |audioBuf| >= minSendSamples {
        var toSend := audioBuf[..minSendSamples];
        audioBuf := audioBuf[minSendSamples..];
        var chunk := Condition(toSend);
        if Loud(chunk, dbOfMeanSquare) && loopAlive {
          handedOff := handedOff + [chunk];
        }
        lastSend := now;
      }
    }

    /** The 5-second cap at the end of an iteration. */
    method CapBuffer()
      modifies this`audioBuf
      ensures audioBuf == Cap(old(audioBuf), MaxBuffer(inputRate))
    {
      var maxBuf := MaxBuffer(inputRate);
      if |audioBuf| > maxBuf {
        audioBuf := LastSlice(audioBuf, maxBuf);
      }
    }

    /** One pass of the `while self.running` loop of `_run_stream`. */
    method StreamIteration(now: real, loopAlive: bool, dbOfMeanSquare: real -> real)
      modifies this`queue, this`audioBuf, this`lastSend, this`handedOff
      ensures queue == []
      ensures inputRate > 0 ==> |audioBuf| <= MaxBuffer(inputRate)
      ensures var buf := old(audioBuf) + Flatten(old(queue));
        var due := now - old(lastSend) >= SEND_INTERVAL_S && |buf| >= minSendSamples;
        var rest := if due then buf[minSendSamples..] else buf;
        && audioBuf == Cap(rest, MaxBuffer(inputRate))
        && lastSend == (if due then now else old(lastSend))
        && var chunk := Condition(buf[..if due then minSendSamples else 0]);
           handedOff == old(handedOff) + (if due && Loud(chunk, dbOfMeanSquare) && loopAlive then [chunk] else [])
    {
      DrainQueue();
      SendStep(now, loopAlive, dbOfMeanSquare);
      CapBuffer();
    }

    /**
     * `stop`: clear `running`, ask the session to disconnect while the network loop
     * runs, then empty the capture queue.
     */
    method Stop(client: Realtime.Client, loopAlive: bool)
      modifies this`running, this`queue, client`closing, client`connected
      ensures !running && queue == []
      ensures loopAlive ==> client.closing && !client.connected
      ensures !loopAlive ==> client.closing == old(client.closing) && client.connected == old(client.connected)
    {
      running := false;
      if loopAlive {
        client.Disconnect();
      }
      ClearQueue();
    }

    /** `while not self.queue.empty(): self.queue.get_nowait()`. */
    method ClearQueue()
      modifies this`queue
      ensures queue == []
    {
      while queue != []
        decreases |queue|
      {
        queue := queue[1..];
      }
    }
  }
}
