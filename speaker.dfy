/**
 * Speaker tracking of the enricher (`_track_speaker`).
 *
 * The label is found with the pattern
 *   `\[\d+:\d+\]\s*(?:\[.*?\]\s*)?([^:(]+?)(?:\s*\([^)]+\))?:`
 * searched anywhere in the enriched line. It is modelled here by a deterministic
 * matcher that follows the regex engine's first choices: the leftmost start, all
 * the whitespace, the optional bracket group closed at its first `]`, and the
 * shortest label after which the optional `(tone)` and the colon follow.
 * A label that mentions a voice keyword is registered under its lower-case form,
 * and only if that key is new.
 */
module Speaker {
  import opened Wrappers
  import opened Text
  import opened Timestamp

  // ---------------------------------------------------------------------------
  // Matching the label pattern

  /** Digits starting at `i`. */
  function DigitRun(s: string, i: nat): (n: nat)
    requires i <= |s|
    ensures i + n <= |s|
    ensures forall k :: i <= k < i + n ==> IsDigit(s[k])
    ensures i + n < |s| ==> !IsDigit(s[i + n])
    decreases |s| - i
  {
    if i < |s| && IsDigit(s[i]) then 1 + DigitRun(s, i + 1) else 0
  }

  /** Whitespace starting at `i` (`\s*`). */
  function SpaceRun(s: string, i: nat): (n: nat)
    requires i <= |s|
    ensures i + n <= |s|
    ensures forall k :: i <= k < i + n ==> IsSpace(s[k])
    ensures i + n < |s| ==> !IsSpace(s[i + n])
    decreases |s| - i
  {
    if i < |s| && IsSpace(s[i]) then 1 + SpaceRun(s, i + 1) else 0
  }

  /** `\[\d+:\d+\]` at `i`: the position just after its `]`. */
  function MatchStamp(s: string, i: nat): (r: Option<nat>)
    requires i <= |s|
    ensures r.Some? ==> i < r.value <= |s|
  {
    if i < |s| && s[i] == '[' then
      var d1 := DigitRun(s, i + 1);
      var c := i + 1 + d1;
      if d1 > 0 && c < |s| && s[c] == ':' then
        var d2 := DigitRun(s, c + 1);
        var e := c + 1 + d2;
        if d2 > 0 && e < |s| && s[e] == ']' then Some(e + 1) else None
      else None
    else None
  }

  /** The first `]` at or after `j` on the same line (`.*?\]`; `.` does not match a newline). */
  function CloseBracket(s: string, j: nat): (r: Option<nat>)
    requires j <= |s|
    ensures r.Some? ==> j <= r.value < |s| && s[r.value] == ']'
    decreases |s| - j
  {
    if j == |s| || s[j] == '\n' then None
    else if s[j] == ']' then Some(j)
    else CloseBracket(s, j + 1)
  }

  /** The first `)` at or after `j` (`[^)]+` matches newlines). */
  function CloseParen(s: string, j: nat): (r: Option<nat>)
    requires j <= |s|
    ensures r.Some? ==> j <= r.value < |s| && s[r.value] == ')'
    decreases |s| - j
  {
    if j == |s| then None
    else if s[j] == ')' then Some(j)
    else CloseParen(s, j + 1)
  }

  /** `\s*\([^)]+\):` at `e`. */
  predicate ToneThenColon(s: string, e: nat)
    requires e <= |s|
  {
    var q := e + SpaceRun(s, e);
    q < |s| && s[q] == '(' &&
    match CloseParen(s, q + 1)
    case Some(k) => k > q + 1 && k + 1 < |s| && s[k + 1] == ':'
    case None => false
  }

  /** `(?:\s*\([^)]+\))?:` at `e`: what must follow the label. */
  predicate TailAt(s: string, e: nat)
    requires e <= |s|
  {
    ToneThenColon(s, e) || (e < |s| && s[e] == ':')
  }

  predicate LabelChar(c: char) { c != ':' && c != '(' }

  /** Lazy `[^:(]+?` started at `st`: the first end `e` after which the tail matches. */
  function LabelEnd(s: string, st: nat, e: nat): (r: Option<nat>)
    requires st < e <= |s|
    ensures r.Some? ==> e <= r.value <= |s|
    decreases |s| - e
  {
    if !LabelChar(s[e - 1]) then None
    else if TailAt(s, e) then Some(e)
    else if e == |s| then None
    else LabelEnd(s, st, e + 1)
  }

  /** The label (regex group 1) when it starts at `st`. */
  function LabelAt(s: string, st: nat): Option<string>
    requires st <= |s|
  {
    if st == |s| then None
    else match LabelEnd(s, st, st + 1)
      case Some(e) => Some(s[st..e])
      case None => None
  }

  /** Group 1 of a match whose stamp ends at `p`: the optional bracket group, then the label. */
  function AfterStamp(s: string, p: nat): Option<string>
    requires p <= |s|
  {
    var q := p + SpaceRun(s, p);
    var viaGroup :=
      if q < |s| && s[q] == '[' then
        match CloseBracket(s, q + 1)
        case Some(k) => LabelAt(s, k + 1 + SpaceRun(s, k + 1))
        case None => None
      else None;
    if viaGroup.Some? then viaGroup else LabelAt(s, q)
  }

  /** Group 1 of a match starting at `i`, if the pattern matches there. */
  function MatchAt(s: string, i: nat): Option<string>
    requires i <= |s|
  {
    match MatchStamp(s, i)
    case None => None
    case Some(p) => AfterStamp(s, p)
  }

  /** `re.search`: the leftmost start at or after `i` where the pattern matches. */
  function Search(s: string, i: nat): (r: Option<string>)
    requires i <= |s|
    ensures r.None? <==> forall k :: i <= k <= |s| ==> MatchAt(s, k).None?
    ensures r.Some? ==> exists k :: i <= k <= |s| && MatchAt(s, k) == r && forall k' :: i <= k' < k ==> MatchAt(s, k').None?
    decreases |s| - i
  {
    match MatchAt(s, i)
    case Some(g) => Some(g)
    case None => if i == |s| then None else Search(s, i + 1)
  }

  /** `match.group(1).strip()`, when the line matches at all. */
  function ExtractSpeaker(line: string): (r: Option<string>)
    ensures r.None? <==> forall k :: 0 <= k <= |line| ==> MatchAt(line, k).None?
    ensures r.Some? ==> r.value == Strip(r.value)
    ensures r.Some? ==>
      exists k :: 0 <= k <= |line| && MatchAt(line, k).Some? && r.value == Strip(MatchAt(line, k).value) &&
        forall k' :: 0 <= k' < k ==> MatchAt(line, k').None?
  {
    match Search(line, 0)
    case Some(g) =>
      StripIdempotent(g);
      Some(Strip(g))
    case None => None
  }

  // ---------------------------------------------------------------------------
  // The matcher recognises the formatter's own lines

  lemma {:induction false} DigitRunExact(s: string, i: nat, n: nat)
    requires i + n <= |s|
    requires forall k :: i <= k < i + n ==> IsDigit(s[k])
    requires i + n == |s| || !IsDigit(s[i + n])
    ensures DigitRun(s, i) == n
    decreases n
  {
    if n > 0 { DigitRunExact(s, i + 1, n - 1); }
  }

  lemma {:induction false} CloseParenExact(s: string, j: nat, n: nat)
    requires j + n < |s| && s[j + n] == ')'
    requires forall k :: j <= k < j + n ==> s[k] != ')'
    ensures CloseParen(s, j) == Some(j + n)
    decreases n
  {
    if n > 0 { CloseParenExact(s, j + 1, n - 1); }
  }

  lemma {:induction false} LabelEndScan(s: string, st: nat, e: nat, end: nat)
    requires st < e <= end <= |s|
    requires forall k :: st <= k < end ==> LabelChar(s[k])
    requires forall k :: e <= k < end ==> !TailAt(s, k)
    requires TailAt(s, end)
    ensures LabelEnd(s, st, e) == Some(end)
    decreases end - e
  {
    if e < end { LabelEndScan(s, st, e + 1, end); }
  }

  /** A label as the formatter writes it: non-empty, trimmed, not bracketed, without `:` or `(`. */
  predicate PlainLabel(name: string) {
    && name != [] && !IsSpace(name[0]) && !IsSpace(name[|name| - 1]) && name[0] != '['
    && forall k :: 0 <= k < |name| ==> LabelChar(name[k])
  }

  /** What may follow the label: `" (tone): …"` with a non-empty tone, or `": …"`. */
  function Suffix(tone: Option<string>, body: string): string {
    match tone
    case Some(t) => " (" + t + "): " + body
    case None => ": " + body
  }

  predicate PlainTone(tone: Option<string>) {
    tone.Some? ==> tone.value != [] && forall k :: 0 <= k < |tone.value| ==> tone.value[k] != ')'
  }

  /** The tail matches at `e` when what follows is a formatter suffix. */
  lemma TailAfterName(s: string, e: nat, tone: Option<string>, body: string)
    requires PlainTone(tone)
    requires e <= |s| && s[e..] == Suffix(tone, body)
    ensures TailAt(s, e)
  {
    var post := Suffix(tone, body);
    assert s[e] == post[0];
    match tone {
      case Some(t) =>
        assert s[e] == ' ' && s[e + 1] == post[1] == '(';
        assert SpaceRun(s, e + 1) == 0;
        assert SpaceRun(s, e) == 1;
        forall k | e + 2 <= k < e + 2 + |t|
          ensures s[k] != ')'
        {
          assert s[k] == post[k - e] == t[k - e - 2];
        }
        assert s[e + 2 + |t|] == post[2 + |t|] == ')';
        assert s[e + 3 + |t|] == post[3 + |t|] == ':';
        CloseParenExact(s, e + 2, |t|);
      case None =>
    }
  }

  /** The tail cannot match strictly inside a plain label. */
  lemma NoTailInside(s: string, st: nat, name: string)
    requires PlainLabel(name)
    requires st + |name| <= |s| && s[st..st + |name|] == name
    ensures forall k :: st < k < st + |name| ==> !TailAt(s, k)
  {
    forall k | st < k < st + |name| ensures !TailAt(s, k) {
      NoTailAt(s, st, name, k);
    }
  }

  lemma NoTailAt(s: string, st: nat, name: string, k: nat)
    requires PlainLabel(name)
    requires st + |name| <= |s| && s[st..st + |name|] == name
    requires st < k < st + |name|
    ensures !TailAt(s, k)
  {
    assert s[k] == name[k - st];
    var n := SpaceRun(s, k);
    var last := st + |name| - 1;
    assert s[last] == name[|name| - 1];
    assert !IsSpace(s[last]);
    assert k + n <= last;
    assert s[k + n] == name[k + n - st];
  }

  /** The stamp of a line `[digits:dd]…` ends right after its `]`. */
  lemma StampMatches(s: string, m: nat)
    requires 0 < m && 5 + m <= |s|
    requires s[0] == '[' && s[1 + m] == ':' && s[4 + m] == ']'
    requires forall k :: 1 <= k < 1 + m ==> IsDigit(s[k])
    requires IsDigit(s[2 + m]) && IsDigit(s[3 + m])
    ensures MatchStamp(s, 0) == Some(5 + m)
  {
    DigitRunExact(s, 1, m);
    DigitRunExact(s, 2 + m, 2);
  }

  /** The lazy label that starts at `st` ends exactly where the tail first matches. */
  lemma LabelEndsAtTail(s: string, st: nat, e: nat, name: string)
    requires PlainLabel(name)
    requires e == st + |name| <= |s| && s[st..e] == name
    requires TailAt(s, e)
    ensures LabelEnd(s, st, st + 1) == Some(e)
  {
    NoTailInside(s, st, name);
    forall k | st <= k < e ensures LabelChar(s[k]) {
      assert s[k] == s[st..e][k - st];
    }
    LabelEndScan(s, st, st + 1, e);
  }

  /** After the stamp and one space, the lazy label is group 1. */
  lemma MatchesPlainLine(s: string, p: nat, st: nat, e: nat)
    requires st == p + 1 && st < e <= |s| && s[p] == ' '
    requires !IsSpace(s[st]) && s[st] != '['
    requires LabelEnd(s, st, st + 1) == Some(e)
    ensures AfterStamp(s, p) == Some(s[st..e])
  {
    assert SpaceRun(s, p + 1) == 0;
    assert SpaceRun(s, p) == 1;
  }

  /** A match at the very start is what `re.search` reports. */
  lemma SearchFindsFirst(s: string, p: nat, g: string)
    requires MatchStamp(s, 0) == Some(p) && AfterStamp(s, p) == Some(g)
    ensures ExtractSpeaker(s) == Some(Strip(g))
  {
  }

  /** A stamp of the shape `digits:dd`, as `_fmt_ts` writes for non-negative times. */
  predicate ClockText(ts: string) {
    |ts| >= 4 && ts[|ts| - 3] == ':' && AllDigits(ts[..|ts| - 3]) && AllDigits(ts[|ts| - 2..])
  }

  /** The characters of `"[" + ts + "] " + name + tail` around the stamp. */
  lemma StampedLine(s: string, ts: string, name: string, tail: string)
    requires ClockText(ts) && s == "[" + ts + "] " + name + tail
    ensures MatchStamp(s, 0) == Some(2 + |ts|) && s[2 + |ts|] == ' '
    ensures s[3 + |ts|..3 + |ts| + |name|] == name && s[3 + |ts| + |name|..] == tail
  {
    var m := |ts| - 3;
    forall k | 1 <= k < 1 + m ensures IsDigit(s[k]) {
      assert s[k] == ts[k - 1] == ts[..m][k - 1];
    }
    assert s[1 + m] == ts[m];
    assert s[2 + m] == ts[m + 1] == ts[m + 1..][0];
    assert s[3 + m] == ts[m + 2] == ts[m + 1..][1];
    assert s[4 + m] == ']' && s[5 + m] == ' ';
    StampMatches(s, m);
  }

  /** After a stamp and one space, a plain label and a tail: the label is extracted. */
  lemma ExtractsAfterStamp(s: string, m: nat, name: string, tone: Option<string>, body: string)
    requires PlainLabel(name) && PlainTone(tone)
    requires MatchStamp(s, 0) == Some(5 + m) && 6 + m + |name| <= |s| && s[5 + m] == ' '
    requires s[6 + m..6 + m + |name|] == name
    requires s[6 + m + |name|..] == Suffix(tone, body)
    ensures ExtractSpeaker(s) == Some(name)
  {
    var p, st, e := 5 + m, 6 + m, 6 + m + |name|;
    TailAfterName(s, e, tone, body);
    assert s[st] == name[0];
    LabelEndsAtTail(s, st, e, name);
    MatchesPlainLine(s, p, st, e);
    SearchFindsFirst(s, p, name);
    StripOfTrimmed(name);
  }

  /** A line `[digits:dd] Label (tone): text`, or without the tone, yields exactly `Label`. */
  lemma ExtractsStampedLabel(ts: string, name: string, tone: Option<string>, body: string)
    requires ClockText(ts) && PlainLabel(name) && PlainTone(tone)
    ensures ExtractSpeaker("[" + ts + "] " + name + Suffix(tone, body)) == Some(name)
  {
    var s := "[" + ts + "] " + name + Suffix(tone, body);
    StampedLine(s, ts, name, Suffix(tone, body));
    ExtractsAfterStamp(s, |ts| - 3, name, tone, body);
  }

  /**
   * The formatter's own lines parse back: for a non-negative time the stamp of
   * `_fmt_ts` matches `\[\d+:\d+\]`, so the label that follows is extracted.
   */
  lemma ExtractsFormattedLabel(seconds: real, name: string, tone: Option<string>, body: string)
    requires seconds >= 0.0
    requires PlainLabel(name) && PlainTone(tone)
    ensures ExtractSpeaker("[" + FmtTs(seconds) + "] " + name + Suffix(tone, body)) == Some(name)
  {
    ExtractsStampedLabel(FmtTs(seconds), name, tone, body);
  }

  /**
   * `[^:(]` also matches a line break, so a label may span lines; this one names
   * a voice and is a candidate for the registry.
   */
  lemma LabelAcrossLines()
    ensures Candidate("[0:05] Male\nVoice: hi") == Some("Male\nVoice")
  {
    var name := "Male\nVoice";
    ShortClock();
    assert PlainLabel(name);
    assert "[0:05] Male\nVoice: hi" == "[" + "0:05" + "] " + name + Suffix(None, "hi");
    ExtractsStampedLabel("0:05", name, None, "hi");
    NamesAVoice(name);
  }

  lemma ShortClock()
    ensures ClockText("0:05")
  {
    assert "0:05"[..1] == "0" && "0:05"[2..] == "05";
  }

  lemma NamesAVoice(name: string)
    requires name == "Male\nVoice"
    ensures MentionsVoice(name)
  {
    assert Lower(name)[..4] == "male";
    assert Contains(Lower(name), KEYWORDS[1]);
  }

  // ---------------------------------------------------------------------------
  // The speaker registry (`known_speakers`, an insertion-ordered dict)

  const KEYWORDS: seq<string> := ["female", "male", "voice", "singer", "girl", "boy", "woman", "man"]

  /** `any(x in speaker.lower() for x in KEYWORDS)`. */
  predicate MentionsVoice(speaker: string) {
    exists k :: 0 <= k < |KEYWORDS| && Contains(Lower(speaker), KEYWORDS[k])
  }

  /** The label `_track_speaker` would register from `line`, before the key check. */
  function Candidate(line: string): (r: Option<string>)
    ensures r.Some? <==> ExtractSpeaker(line).Some? && MentionsVoice(ExtractSpeaker(line).value)
    ensures r.Some? ==> r == ExtractSpeaker(line) && MentionsVoice(r.value) && r.value == Strip(r.value)
  {
    match ExtractSpeaker(line)
    case Some(sp) => if MentionsVoice(sp) then Some(sp) else None
    case None => None
  }

  /** One `known_speakers` item: the lower-case key and the label first seen for it. */
  datatype Entry = Entry(key: string, name: string)

  /** `known_speakers`, an insertion-ordered dict, as its items in insertion order. */
  type Registry = seq<Entry>

  /** `key in known_speakers`. */
  predicate Has(reg: Registry, key: string) {
    exists i :: 0 <= i < |reg| && reg[i].key == key
  }

  /** Keys listed once each, each the lower-case form of its label, each label naming a voice. */
  ghost predicate ValidRegistry(reg: Registry) {
    && (forall i, j :: 0 <= i < j < |reg| ==> reg[i].key != reg[j].key)
    && (forall i :: 0 <= i < |reg| ==> reg[i].key == Lower(reg[i].name) && MentionsVoice(reg[i].name))
  }

  /**
   * `_track_speaker(line)`: a candidate label is registered under its lower-case key
   * when that key is new; an existing key keeps the label it was first seen with.
   */
  function Track(reg: Registry, line: string): (r: Registry)
    ensures reg <= r && |r| <= |reg| + 1
    ensures |r| == |reg| + 1 <==> Candidate(line).Some? && !Has(reg, Lower(Candidate(line).value))
    ensures |r| == |reg| + 1 ==> r[|reg|] == Entry(Lower(Candidate(line).value), Candidate(line).value)
    ensures Candidate(line).Some? ==> Has(r, Lower(Candidate(line).value))
  {
    match Candidate(line)
    case None => reg
    case Some(sp) =>
      var key := Lower(sp);
      if Has(reg, key) then reg
      else reg + [Entry(key, sp)]
  }

  /** Registering keeps keys unique and each key the lower-case form of a voice label. */
  lemma TrackKeepsValid(reg: Registry, line: string)
    ensures ValidRegistry(reg) ==> ValidRegistry(Track(reg, line))
  {
    var c := Candidate(line);
    if ValidRegistry(reg) && c.Some? && !Has(reg, Lower(c.value)) {
      assert Track(reg, line) == reg + [Entry(Lower(c.value), c.value)];
      AppendKeepsValid(reg, Lower(c.value), c.value);
    }
  }

  /** A new key, the lower-case form of a voice label, may join a valid registry. */
  lemma AppendKeepsValid(reg: Registry, key: string, name: string)
    requires ValidRegistry(reg) && !Has(reg, key)
    requires key == Lower(name) && MentionsVoice(name)
    ensures ValidRegistry(reg + [Entry(key, name)])
  {
    var r := reg + [Entry(key, name)];
    forall i, j | 0 <= i < j < |r| ensures r[i].key != r[j].key {
      assert r[i] == reg[i];
      if j < |reg| {
        assert r[j] == reg[j];
      }
    }
    forall i | 0 <= i < |r| ensures r[i].key == Lower(r[i].name) && MentionsVoice(r[i].name) {
      if i < |reg| {
        assert r[i] == reg[i];
      }
    }
  }

  /** Tracking the same line twice registers nothing new the second time. */
  lemma TrackIdempotent(reg: Registry, line: string)
    ensures Track(Track(reg, line), line) == Track(reg, line)
  {
  }

  /** The registry after a sequence of enriched lines. */
  function TrackAll(reg: Registry, lines: seq<string>): Registry
    decreases |lines|
  {
    if lines == [] then reg else TrackAll(Track(reg, lines[0]), lines[1..])
  }

  /** The registry only grows, every earlier item keeps its label, and validity is kept. */
  lemma {:induction false} TrackAllKeepsFirstLabels(reg: Registry, lines: seq<string>)
    ensures reg <= TrackAll(reg, lines)
    ensures ValidRegistry(reg) ==> ValidRegistry(TrackAll(reg, lines))
    decreases |lines|
  {
    if lines != [] {
      TrackKeepsValid(reg, lines[0]);
      TrackAllKeepsFirstLabels(Track(reg, lines[0]), lines[1..]);
    }
  }
}
