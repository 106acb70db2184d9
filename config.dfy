/** Tuning constants of the stream audio service (config.py and the class initialisers). */
module Config {

  /** Seconds of audio appended before an explicit buffer commit is forced. */
  const FORCE_COMMIT_INTERVAL_S: real := 3.0

  /** Bytes per second of 16-bit mono PCM at 24 kHz, the divisor used by the session client. */
  const BYTES_PER_SECOND: nat := 48000

  /** A candidate is a duplicate when its longest shared run exceeds 80% of its length. */
  const DUPLICATE_RATIO_NUM: nat := 8
  const DUPLICATE_RATIO_DEN: nat := 10

  /** A transcript is kept only when at least 70% of its characters are ASCII. */
  const ASCII_RATIO_NUM: nat := 7
  const ASCII_RATIO_DEN: nat := 10

  /** Enricher: sliding window of enriched lines, and how many of them go into a prompt. */
  const MAX_HISTORY: nat := 8
  const PROMPT_HISTORY: nat := 5

  /** Streamer: inbound queue capacity, default device rate and target rate. */
  const QUEUE_CAPACITY: nat := 500
  const DEFAULT_INPUT_RATE: nat := 48000
  const TARGET_RATE: nat := 24000
  const SEND_INTERVAL_S: real := 1.2
  const BUFFER_CAP_S: nat := 5
  const DB_THRESHOLD: real := -50.0
  const SILENCE_DB: real := -100.0
  const MAX_RETRY: nat := 5
}
