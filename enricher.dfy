/**
 * The transcript enricher (`TranscriptEnricher`): a FIFO of raw transcripts, each
 * with a snapshot of the visual context, worked off one item at a time by asking the
 * language model for a formatted line; a sliding history of formatted lines and the
 * speaker registry feed the next prompt.
 */
module Enricher {
  import opened Wrappers
  import opened Text
  import opened Config
  import opened Timestamp
  import opened Speaker
  import opened Fifo

  /** A queued transcript: the dict built by `enrich`. */
  datatype Item = Item(text: string, timestamp: real, visualContext: string, id: Option<string>)

  /** One call of `on_enriched(line, id)`. */
  datatype Delivery = Delivery(line: string, id: Option<string>)

  /** What the prompt is built from; the model sees these and nothing else of the state. */
  datatype Prompt = Prompt(visual: string, speakers: string, history: seq<string>, raw: string, stamp: string)

  /** The language-model call: it raises, or answers with a message content. */
  datatype Reply = Failed | Content(text: string)

  /** The state `_enrich` reads and updates: `recent_transcripts` and `known_speakers`. */
  datatype Memory = Memory(recent: seq<string>, speakers: Registry)

  const NO_VISUAL: string := "No visual context available"
  const NO_SPEAKERS: string := "No speakers identified yet."
  const SPEAKERS_HEADER: string := "Previously identified speakers:"

  ghost predicate ValidMemory(mem: Memory) {
    |mem.recent| <= MAX_HISTORY && ValidRegistry(mem.speakers)
  }

  // ---------------------------------------------------------------------------
  // The speaker summary in the prompt (`_speaker_history`)

  function SpeakerLine(name: string, key: string): string {
    "  - " + name + ": " + key
  }

  /** `f"  - {label}: {desc}"` for each item, in the registry's insertion order. */
  function SpeakerLines(reg: Registry): (r: seq<string>)
    ensures |r| == |reg|
    ensures forall i :: 0 <= i < |r| ==> r[i] == SpeakerLine(reg[i].name, reg[i].key)
  {
    seq(|reg|, i requires 0 <= i < |reg| => SpeakerLine(reg[i].name, reg[i].key))
  }

  function SpeakerHistory(reg: Registry): (r: string)
    ensures reg == [] <==> r == NO_SPEAKERS
  {
    if reg == [] then NO_SPEAKERS
    else
      var lines := [SPEAKERS_HEADER] + SpeakerLines(reg);
      var r := Join(lines, '\n');
      assert r == lines[0] + ['\n'] + Join(lines[1..], '\n');
      assert r[0] == 'P';
      r
  }

  /** Lower-casing never produces a line break. */
  lemma LowerKeepsNoNewline(s: string)
    requires '\n' !in s
    ensures '\n' !in Lower(s)
  {
    var l := Lower(s);
    forall i | 0 <= i < |l| ensures l[i] != '\n' {
      assert l[i] == LowerChar(s[i]);
    }
  }

  /** Labels without line breaks give speaker lines without line breaks. */
  lemma SpeakerLinesSingle(reg: Registry)
    requires forall i :: 0 <= i < |reg| ==> reg[i].key == Lower(reg[i].name) && '\n' !in reg[i].name
    ensures forall i :: 0 <= i < |reg| ==> '\n' !in SpeakerLines(reg)[i]
  {
    forall i | 0 <= i < |reg| ensures '\n' !in SpeakerLines(reg)[i] {
      var name := reg[i].name;
      LowerKeepsNoNewline(name);
      assert SpeakerLines(reg)[i] == "  - " + name + ": " + Lower(name);
    }
  }

  /** The summary is the header followed by exactly one line per registered speaker. */
  lemma {:induction false} SpeakerHistoryLines(reg: Registry)
    requires reg != []
    requires forall i :: 0 <= i < |reg| ==> reg[i].key == Lower(reg[i].name) && '\n' !in reg[i].name
    ensures Split(SpeakerHistory(reg), '\n') == [SPEAKERS_HEADER] + SpeakerLines(reg)
  {
    var lines := [SPEAKERS_HEADER] + SpeakerLines(reg);
    assert SpeakerHistory(reg) == Join(lines, '\n');
    SpeakerLinesSingle(reg);
    HistoryLinesSingle(SpeakerLines(reg));
    SplitJoin(lines, '\n');
  }

  lemma HistoryLinesSingle(body: seq<string>)
    requires forall i :: 0 <= i < |body| ==> '\n' !in body[i]
    ensures var lines := [SPEAKERS_HEADER] + body;
      forall i :: 0 <= i < |lines| ==> '\n' !in lines[i]
  {
    var lines := [SPEAKERS_HEADER] + body;
    HeaderSingle();
    assert lines[0] == SPEAKERS_HEADER;
    assert forall i :: 1 <= i < |lines| ==> lines[i] == body[i - 1];
  }

  lemma HeaderSingle()
    ensures '\n' !in SPEAKERS_HEADER
  {
  }

  /**
   * A label that spans lines (as `Speaker.LabelAcrossLines` shows one can) is
   * registered like any other, and then its line of the summary itself contains a
   * line break.
   */
  lemma LabelAcrossLinesInSummary(line: string)
    requires Candidate(line).Some? && '\n' in Candidate(line).value
    ensures var reg := Track([], line);
      |reg| == 1 && '\n' in SpeakerLines(reg)[0]
  {
    var name := Candidate(line).value;
    assert Track([], line) == [Entry(Lower(name), name)];
    LineBreakStaysInLine(name, Lower(name));
  }

  lemma LineBreakStaysInLine(name: string, key: string)
    requires '\n' in name
    ensures '\n' in SpeakerLine(name, key)
  {
    var k :| 0 <= k < |name| && name[k] == '\n';
    var a := "  - " + name;
    assert a[4 + k] == name[k];
    assert (a + ": " + key)[4 + k] == a[4 + k];
  }

  // ---------------------------------------------------------------------------
  // The history window (`recent_transcripts`)

  /** `append` then `pop(0)` when longer than `max_history`. */
  function PushHistory(h: seq<string>, line: string): (r: seq<string>)
    ensures r != [] && r[|r| - 1] == line
    ensures |h| <= MAX_HISTORY ==> |r| <= MAX_HISTORY
    ensures |r| == if |h| < MAX_HISTORY then |h| + 1 else |h|
    ensures r == (h + [line])[|h| + 1 - |r|..]
  {
    PushBounded(h, line, MAX_HISTORY)
  }

  /** `recent_transcripts[-5:]`: what the prompt shows of the history. */
  function Recent(h: seq<string>): (r: seq<string>)
    ensures |r| == Min(|h|, PROMPT_HISTORY)
    ensures r == h[|h| - |r|..]
  {
    if |h| <= PROMPT_HISTORY then h else h[|h| - PROMPT_HISTORY..]
  }

  /** Right after a push, the prompt history ends with the new line. */
  lemma RecentEndsWithNewest(h: seq<string>, line: string)
    ensures var r := Recent(PushHistory(h, line)); r != [] && r[|r| - 1] == line
  {
  }

  // ---------------------------------------------------------------------------
  // Processing one item (`_enrich` and the body of `_loop`)

  /**
   * The callback text when enrichment raised, `f"[{ts}] {item['text']}"`: the
   * stamp in brackets reads back as the item's whole seconds, and the raw text
   * follows after one space.
   */
  function FallbackLine(item: Item): (r: string)
    ensures var ts := FmtTs(item.timestamp);
      && |r| == 3 + |ts| + |item.text| && r[0] == '[' && r[1 + |ts|] == ']' && r[2 + |ts|] == ' '
      && ParseTs(r[1..1 + |ts|]) == Some(TruncToInt(item.timestamp))
      && r[3 + |ts|..] == item.text
  {
    var ts := FmtTs(item.timestamp);
    var r := "[" + ts + "] " + item.text;
    assert r[1..1 + |ts|] == ts;
    assert r[3 + |ts|..] == item.text;
    FmtTsRoundTrip(item.timestamp);
    r
  }

  /**
   * What `_enrich` puts into the prompt: the item's own visual context (or the
   * placeholder), the speaker summary, the last lines of the history, the raw text
   * and its stamp.
   */
  function MakePrompt(mem: Memory, item: Item): (p: Prompt)
    ensures p.visual != "" && (item.visualContext != "" ==> p.visual == item.visualContext)
    ensures p.speakers == NO_SPEAKERS <==> mem.speakers == []
    ensures |p.history| == Min(|mem.recent|, PROMPT_HISTORY) && p.history == mem.recent[|mem.recent| - |p.history|..]
    ensures p.raw == item.text
    ensures ParseTs(p.stamp) == Some(TruncToInt(item.timestamp))
  {
    FmtTsRoundTrip(item.timestamp);
    Prompt(if item.visualContext == "" then NO_VISUAL else item.visualContext,
           SpeakerHistory(mem.speakers), Recent(mem.recent), item.text, FmtTs(item.timestamp))
  }

  /** One item through `_enrich` and the callback: the new memory and what is delivered. */
  function Process(mem: Memory, item: Item, llm: Prompt -> Reply): (r: (Memory, Option<Delivery>))
    ensures ValidMemory(mem) ==> ValidMemory(r.0)
  {
    match llm(MakePrompt(mem, item))
    case Failed => (mem, Some(Delivery(FallbackLine(item), item.id)))
    case Content(text) =>
      var enriched := Strip(text);
      TrackKeepsValid(mem.speakers, enriched);
      var mem' := Memory(PushHistory(mem.recent, enriched), Track(mem.speakers, enriched));
      (mem', if enriched == [] then None else Some(Delivery(enriched, item.id)))
  }

  /** A failed call: the memory is untouched and the fallback line is delivered. */
  lemma ProcessFailed(mem: Memory, item: Item, llm: Prompt -> Reply)
    requires llm(MakePrompt(mem, item)).Failed?
    ensures Process(mem, item, llm) == (mem, Some(Delivery(FallbackLine(item), item.id)))
  {
  }

  /**
   * What one item does: a failed call leaves the memory alone and delivers the fallback;
   * an answer is stripped, recorded as the newest history line, offered to the registry,
   * and delivered under the item's id unless it is empty.
   */
  lemma ProcessEffect(mem: Memory, item: Item, llm: Prompt -> Reply)
    ensures var (mem', d) := Process(mem, item, llm);
      && (d.Some? ==> d.value.id == item.id)
      && (llm(MakePrompt(mem, item)).Failed? ==> mem' == mem && d == Some(Delivery(FallbackLine(item), item.id)))
      && (llm(MakePrompt(mem, item)).Content? ==>
            var line := Strip(llm(MakePrompt(mem, item)).text);
            && mem'.recent[|mem'.recent| - 1] == line
            && mem.speakers <= mem'.speakers
            && (d.Some? <==> line != [])
            && (d.Some? ==> d.value.line == line))
  {
  }

  /** The items in queue order, each processed on the memory its predecessors left. */
  function ProcessAll(mem: Memory, items: seq<Item>, llm: Prompt -> Reply): (r: (Memory, seq<Delivery>))
    ensures ValidMemory(mem) ==> ValidMemory(r.0)
    ensures |r.1| <= |items|
    decreases |items|
  {
    if items == [] then (mem, [])
    else
      ProcessEffect(mem, items[0], llm);
      var (mem', d) := Process(mem, items[0], llm);
      var (last, ds) := ProcessAll(mem', items[1..], llm);
      (last, AsSeq(d) + ds)
  }

  function AsSeq<T>(d: Option<T>): seq<T> {
    if d.Some? then [d.value] else []
  }

  /** Working off a non-empty queue is processing its front, then the rest. */
  lemma ProcessAllFront(mem: Memory, items: seq<Item>, llm: Prompt -> Reply)
    requires items != []
    ensures var (mem', d) := Process(mem, items[0], llm);
      && ProcessAll(mem, items, llm).0 == ProcessAll(mem', items[1..], llm).0
      && ProcessAll(mem, items, llm).1 == AsSeq(d) + ProcessAll(mem', items[1..], llm).1
  {
  }

  /** Replies that are never blank: one delivery per item, with the items' ids in queue order. */
  lemma {:induction false} DeliveriesInQueueOrder(mem: Memory, items: seq<Item>, llm: Prompt -> Reply)
    requires forall p :: llm(p).Content? ==> Strip(llm(p).text) != []
    ensures var ds := ProcessAll(mem, items, llm).1;
      |ds| == |items| && forall i :: 0 <= i < |items| ==> ds[i].id == items[i].id
    decreases |items|
  {
    if items != [] {
      ProcessEffect(mem, items[0], llm);
      ProcessAllFront(mem, items, llm);
      var (mem', d) := Process(mem, items[0], llm);
      DeliveriesInQueueOrder(mem', items[1..], llm);
      var rest := ProcessAll(mem', items[1..], llm).1;
      assert d.Some? && ProcessAll(mem, items, llm).1 == [d.value] + rest;
      IdsOfCons(d.value, rest, items);
    }
  }

  /** Putting a delivery for the front item before deliveries matching the rest matches the whole queue. */
  lemma IdsOfCons(d: Delivery, rest: seq<Delivery>, items: seq<Item>)
    requires items != [] && d.id == items[0].id
    requires |rest| == |items| - 1 && forall i :: 0 <= i < |rest| ==> rest[i].id == items[1..][i].id
    ensures var ds := [d] + rest; |ds| == |items| && forall i :: 0 <= i < |items| ==> ds[i].id == items[i].id
  {
    var ds := [d] + rest;
    forall i | 0 < i < |items| ensures ds[i].id == items[i].id {
      assert ds[i] == rest[i - 1] && items[i] == items[1..][i - 1];
    }
  }

  /** When every call fails, each item yields its fallback line, in order, and the memory is untouched. */
  lemma {:induction false} AllFailedGivesFallbacks(mem: Memory, items: seq<Item>, llm: Prompt -> Reply)
    requires forall p :: llm(p).Failed?
    ensures ProcessAll(mem, items, llm).0 == mem
    ensures var ds := ProcessAll(mem, items, llm).1;
      |ds| == |items| && forall i :: 0 <= i < |items| ==> ds[i] == Delivery(FallbackLine(items[i]), items[i].id)
    decreases |items|
  {
    if items != [] {
      ProcessFailed(mem, items[0], llm);
      ProcessAllFront(mem, items, llm);
      AllFailedGivesFallbacks(mem, items[1..], llm);
      var rest := ProcessAll(mem, items[1..], llm).1;
      assert ProcessAll(mem, items, llm).1 == [Delivery(FallbackLine(items[0]), items[0].id)] + rest;
      FallbacksOfCons(rest, items);
    }
  }

  /** The front item's fallback before the rest's fallbacks gives the whole queue's fallbacks. */
  lemma FallbacksOfCons(rest: seq<Delivery>, items: seq<Item>)
    requires items != []
    requires |rest| == |items| - 1
    requires forall i :: 0 <= i < |rest| ==> rest[i] == Delivery(FallbackLine(items[1..][i]), items[1..][i].id)
    ensures var ds := [Delivery(FallbackLine(items[0]), items[0].id)] + rest;
      |ds| == |items| && forall i :: 0 <= i < |items| ==> ds[i] == Delivery(FallbackLine(items[i]), items[i].id)
  {
    var ds := [Delivery(FallbackLine(items[0]), items[0].id)] + rest;
    forall i | 0 < i < |items| ensures ds[i] == Delivery(FallbackLine(items[i]), items[i].id) {
      assert ds[i] == rest[i - 1] && items[i] == items[1..][i - 1];
    }
  }

  // ---------------------------------------------------------------------------
  // The enricher object

  class TranscriptEnricher {
    var visualContext: string
    var recentTranscripts: seq<string>
    var knownSpeakers: Registry
    var queue: seq<Item>
    var running: bool
    var sessionStart: real
    /** Every `on_enriched(line, id)` call so far. */
    var delivered: seq<Delivery>

    ghost predicate Valid()
      reads this
    {
      ValidMemory(Mem())
    }

    function Mem(): Memory
      reads this
    {
      Memory(recentTranscripts, knownSpeakers)
    }

    constructor(now: real)
      ensures Valid()
      ensures visualContext == "" && recentTranscripts == [] && knownSpeakers == []
      ensures queue == [] && !running && sessionStart == now && delivered == []
    {
      visualContext := "";
      recentTranscripts := [];
      knownSpeakers := [];
      queue := [];
      running := false;
      sessionStart := now;
      delivered := [];
    }

    /** `start`: the worker runs and elapsed times count from `now`. */
    method Start(now: real)
      modifies this`running, this`sessionStart
      ensures running && sessionStart == now
    {
      running := true;
      sessionStart := now;
    }

    /** `stop`: the worker loop ends. */
    method Stop()
      modifies this`running
      ensures !running
    {
      running := false;
    }

    /** `update_visual_context`: queued items keep the context they were enqueued with. */
    method UpdateVisualContext(context: string)
      modifies this`visualContext
      ensures visualContext == context
    {
      visualContext := context;
    }

    /** `enrich`: transcripts shorter than two characters after stripping are ignored. */
    method Enrich(raw: string, id: Option<string>, now: real)
      modifies this`queue
      ensures |Strip(raw)| < 2 ==> queue == old(queue)
      ensures |Strip(raw)| >= 2 ==> queue == old(queue) + [Item(raw, now - sessionStart, visualContext, id)]
    {
      if |Strip(raw)| < 2 {
        return;
      }
      queue := queue + [Item(raw, now - sessionStart, visualContext, id)];
    }

    /** One pass of `_loop` that finds an item: pop the front, process it, hand the result to `on_enriched`. */
    method Step(llm: Prompt -> Reply)
      requires Valid() && queue != []
      modifies this`queue, this`recentTranscripts, this`knownSpeakers, this`delivered
      ensures Valid()
      ensures queue == old(queue[1..])
      ensures Mem() == Process(old(Mem()), old(queue[0]), llm).0
      ensures delivered == old(delivered) + AsSeq(Process(old(Mem()), old(queue[0]), llm).1)
    {
      var item := queue[0];
      queue := queue[1..];
      var (mem', d) := Process(Mem(), item, llm);
      recentTranscripts, knownSpeakers := mem'.recent, mem'.speakers;
      delivered := delivered + AsSeq(d);
    }

    /** `_loop` while there is work: items leave from the front, in insertion order, one at a time. */
    method RunUntilIdle(llm: Prompt -> Reply)
      requires Valid()
      modifies this`queue, this`recentTranscripts, this`knownSpeakers, this`delivered
      ensures Valid()
      ensures old(running) ==> queue == [] && Mem() == ProcessAll(old(Mem()), old(queue), llm).0
      ensures old(running) ==> delivered == old(delivered) + ProcessAll(old(Mem()), old(queue), llm).1
      ensures !old(running) ==> queue == old(queue) && Mem() == old(Mem()) && delivered == old(delivered)
    {
      if !running {
        return;
      }
      ghost var goal := ProcessAll(Mem(), queue, llm);
      ghost var start := delivered;
      while queue != []
        invariant Valid()
        invariant ProcessAll(Mem(), queue, llm).0 == goal.0
        invariant delivered + ProcessAll(Mem(), queue, llm).1 == start + goal.1
        decreases |queue|
      {
        ProcessAllFront(Mem(), queue, llm);
        ghost var before := delivered;
        ghost var (next, d) := Process(Mem(), queue[0], llm);
        ghost var rest := ProcessAll(next, queue[1..], llm).1;
        Step(llm);
        AppendAssoc(before, AsSeq(d), rest);
      }
    }
  }
}
