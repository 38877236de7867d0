/**
 * The chat panel of app/src/components/chat-panel.tsx: the parser that cuts
 * an assistant message into text paragraphs and groups of choice cards, and
 * the two input handlers.
 *
 * A choice card is written on a line as `{{choice:LABEL|DESCRIPTION}}`.
 * The parser looks for it with the regular expression
 * `/\{\{choice:(.+?)\|(.+?)\}\}/`, which is written out here exactly:
 * the leftmost opening `{{choice:`, then the shortest label, then the
 * shortest description, where `.` is any character but a line terminator.
 */
module ChatPanel {
  import opened Wrappers
  import opened Text

  // ---------------------------------------------------------------------
  // The choice pattern

  const ChoiceOpen := "{{choice:"

  /** What the regular-expression `.` matches (no line terminators). */
  predicate IsDot(c: char) {
    c != '\n' && c != '\r' && c != '\U{2028}' && c != '\U{2029}'
  }

  predicate Dots(s: string, a: int, b: int) {
    0 <= a <= b <= |s| && forall k :: a <= k < b ==> IsDot(s[k])
  }

  predicate OpenAt(s: string, i: int) {
    0 <= i && i + |ChoiceOpen| <= |s| && s[i..i + |ChoiceOpen|] == ChoiceOpen
  }

  predicate CloseAt(s: string, q: int) {
    0 <= q && q + 2 <= |s| && s[q] == '}' && s[q + 1] == '}'
  }

  /**
   * The pattern occurs with its opening at i, its `|` at p and its closing
   * `}}` at q: a non-empty label s[i+9..p] and description s[p+1..q], both free
   * of line terminators.
   */
  predicate Occurrence(s: string, i: int, p: int, q: int) {
    OpenAt(s, i) && i + |ChoiceOpen| < p < |s| && s[p] == '|' && p + 1 < q && CloseAt(s, q)
    && Dots(s, i + |ChoiceOpen|, p) && Dots(s, p + 1, q)
  }

  /** Scans for the first `}}` at or after q, the description running from d. */
  function CloseFrom(s: string, d: nat, q: nat): (r: Option<nat>)
    requires d < q <= |s| && Dots(s, d, q)
    ensures r.Some? ==> q <= r.value && CloseAt(s, r.value) && Dots(s, d, r.value)
    ensures r.Some? ==> forall k :: q <= k < r.value ==> !CloseAt(s, k)
    decreases |s| - q
  {
    if q + 2 > |s| then None
    else if s[q] == '}' && s[q + 1] == '}' then Some(q)
    else if !IsDot(s[q]) then None
    else CloseFrom(s, d, q + 1)
  }

  /** The end of the shortest description starting at d, if any. */
  function DescriptionEnd(s: string, d: nat): (r: Option<nat>)
    ensures r.Some? ==> d < r.value && CloseAt(s, r.value) && Dots(s, d, r.value)
    ensures r.Some? ==> forall k :: d < k < r.value ==> !CloseAt(s, k)
  {
    if d >= |s| || !IsDot(s[d]) then None else CloseFrom(s, d, d + 1)
  }

  /** A `|` at p followed by a description. */
  predicate SplitsAt(s: string, p: nat) {
    p < |s| && s[p] == '|' && DescriptionEnd(s, p + 1).Some?
  }

  /** Scans for the first `|` at or after p after which a description follows. */
  function LabelFrom(s: string, a: nat, p: nat): (r: Option<(nat, nat)>)
    requires a < p <= |s| && Dots(s, a, p)
    ensures r.Some? ==> p <= r.value.0 < |s| && s[r.value.0] == '|' && Dots(s, a, r.value.0)
                        && DescriptionEnd(s, r.value.0 + 1) == Some(r.value.1)
    ensures r.Some? ==> forall k :: p <= k < r.value.0 ==> !SplitsAt(s, k)
    decreases |s| - p
  {
    if p >= |s| then None
    else if SplitsAt(s, p) then Some((p, DescriptionEnd(s, p + 1).value))
    else if !IsDot(s[p]) then None
    else LabelFrom(s, a, p + 1)
  }

  /** The positions of `|` and `}}` when the pattern matches with its opening at i. */
  function MatchAt(s: string, i: nat): (r: Option<(nat, nat)>)
    ensures r.Some? ==> Occurrence(s, i, r.value.0, r.value.1)
    ensures r.Some? ==> DescriptionEnd(s, r.value.0 + 1) == Some(r.value.1)
    ensures r.Some? ==> forall k :: i + |ChoiceOpen| < k < r.value.0 ==> !SplitsAt(s, k)
  {
    var a := i + |ChoiceOpen|;
    if OpenAt(s, i) && a < |s| && IsDot(s[a]) then LabelFrom(s, a, a + 1) else None
  }

  /** The leftmost match at or after i: its opening, its `|` and its `}}`. */
  function FindFrom(s: string, i: nat): (r: Option<(nat, nat, nat)>)
    ensures r.Some? ==> i <= r.value.0 && MatchAt(s, r.value.0) == Some((r.value.1, r.value.2))
    ensures r.Some? ==> forall k :: i <= k < r.value.0 ==> MatchAt(s, k).None?
    ensures r.None? ==> forall k :: i <= k ==> MatchAt(s, k).None?
    decreases |s| - i
  {
    if i > |s| then
      assert forall k :: i <= k ==> !OpenAt(s, k);
      None
    else if MatchAt(s, i).Some? then Some((i, MatchAt(s, i).value.0, MatchAt(s, i).value.1))
    else FindFrom(s, i + 1)
  }

  lemma {:induction false} CloseFromFinds(s: string, d: nat, q0: nat, q: nat)
    requires d < q0 <= q && CloseAt(s, q) && Dots(s, d, q)
    ensures CloseFrom(s, d, q0).Some?
    decreases q - q0
  {
    if q0 + 2 <= |s| && !(s[q0] == '}' && s[q0 + 1] == '}') {
      assert q0 < q;
      CloseFromFinds(s, d, q0 + 1, q);
    }
  }

  lemma {:induction false} LabelFromFinds(s: string, a: nat, p0: nat, p: nat, q: nat)
    requires a < p0 <= p && Occurrence(s, a - |ChoiceOpen|, p, q) && a >= |ChoiceOpen|
    ensures LabelFrom(s, a, p0).Some?
    decreases p - p0
  {
    CloseFromFinds(s, p + 1, p + 2, q);
    if !(s[p0] == '|' && DescriptionEnd(s, p0 + 1).Some?) {
      assert p0 < p;
      LabelFromFinds(s, a, p0 + 1, p, q);
    }
  }

  /** The matcher misses no occurrence of the pattern. */
  lemma {:induction false} OccurrenceMatches(s: string, i: nat, p: nat, q: nat)
    requires Occurrence(s, i, p, q)
    ensures MatchAt(s, i).Some?
    ensures FindFrom(s, 0).Some? && FindFrom(s, 0).value.0 <= i
  {
    LabelFromFinds(s, i + |ChoiceOpen|, i + |ChoiceOpen| + 1, p, q);
  }

  /**
   * What the lazy quantifiers choose at an opening i: among the occurrences
   * there, the shortest label, and for it the shortest description.
   */
  ghost predicate Lazy(s: string, i: int, p: int, q: int) {
    && Occurrence(s, i, p, q)
    && (forall p', q' :: p' < p ==> !Occurrence(s, i, p', q'))
    && (forall q' :: q' < q ==> !Occurrence(s, i, p, q'))
  }

  /** No occurrence opens before i. */
  ghost predicate Leftmost(s: string, i: int) {
    forall k, p', q' :: 0 <= k < i ==> !Occurrence(s, k, p', q')
  }

  /** The `|` of any occurrence is one after which a shortest description exists. */
  lemma {:induction false} OccurrenceSplits(s: string, i: int, p: int, q: int)
    requires Occurrence(s, i, p, q)
    ensures SplitsAt(s, p)
  {
    CloseFromFinds(s, p + 1, p + 2, q);
  }

  /** The matcher's `|` and `}}` at an opening are the lazy choice there. */
  lemma {:induction false} MatchIsLazy(s: string, i: nat)
    requires MatchAt(s, i).Some?
    ensures Lazy(s, i, MatchAt(s, i).value.0, MatchAt(s, i).value.1)
  {
    var (p, q) := MatchAt(s, i).value;
    forall p', q' | p' < p && Occurrence(s, i, p', q') ensures false {
      OccurrenceSplits(s, i, p', q');
    }
    forall q' | q' < q && Occurrence(s, i, p, q') ensures false {
    }
  }

  /** A match is the leftmost opening that works, with the lazy label and description there. */
  lemma {:induction false} MatchIsLeftmost(s: string)
    requires FindFrom(s, 0).Some?
    ensures var (i, p, q) := FindFrom(s, 0).value;
      Lazy(s, i, p, q) && Leftmost(s, i)
  {
    var (i, p, q) := FindFrom(s, 0).value;
    MatchIsLazy(s, i);
    forall k, p', q' | 0 <= k < i ensures !Occurrence(s, k, p', q') {
      if Occurrence(s, k, p', q') { OccurrenceMatches(s, k, p', q'); }
    }
  }

  /** The leftmost, lazy occurrence is unique. */
  lemma {:induction false} LazyUnique(s: string, i: int, p: int, q: int, i2: int, p2: int, q2: int)
    requires Lazy(s, i, p, q) && Leftmost(s, i) && Lazy(s, i2, p2, q2) && Leftmost(s, i2)
    ensures i == i2 && p == p2 && q == q2
  {
  }

  // ---------------------------------------------------------------------
  // Parts

  datatype ChoiceCard = ChoiceCard(caption: string, description: string)

  datatype Part = TextPart(text: string) | ChoicesPart(choices: seq<ChoiceCard>)

  /** The trimmed label and description of an occurrence. */
  function CardAt(line: string, i: nat, p: nat, q: nat): ChoiceCard
    requires Occurrence(line, i, p, q)
  {
    ChoiceCard(Trim(line[i + |ChoiceOpen|..p]), Trim(line[p + 1..q]))
  }

  /** The card a line carries: the trimmed label and description of its match. */
  function ChoiceOf(line: string): Option<ChoiceCard> {
    match FindFrom(line, 0)
    case None => None
    case Some((i, p, q)) =>
      assert Occurrence(line, i, p, q);
      Some(CardAt(line, i, p, q))
  }

  /**
   * A line is a choice line exactly when the pattern occurs in it; its card
   * is then the trimmed label and description of the leftmost occurrence,
   * with the shortest label and, for it, the shortest description.
   */
  lemma {:induction false} ChoiceLine(line: string)
    ensures ChoiceOf(line).Some? <==> exists i: nat, p: nat, q: nat :: Occurrence(line, i, p, q)
    ensures forall i: nat, p: nat, q: nat :: Lazy(line, i, p, q) && Leftmost(line, i) ==>
              ChoiceOf(line) == Some(ChoiceCard(Trim(line[i + |ChoiceOpen|..p]), Trim(line[p + 1..q])))
  {
    if FindFrom(line, 0).None? {
      NoOccurrence(line);
    } else {
      var (i, p, q) := FindFrom(line, 0).value;
      LeftmostCard(line, i, p, q);
      assert Occurrence(line, i, p, q);
      forall i2: nat, p2: nat, q2: nat | Lazy(line, i2, p2, q2) && Leftmost(line, i2)
        ensures ChoiceOf(line) == Some(ChoiceCard(Trim(line[i2 + |ChoiceOpen|..p2]), Trim(line[p2 + 1..q2])))
      {
        ChoiceOfLazy(line, i2, p2, q2);
      }
    }
  }

  /** The card of a line is that of its leftmost occurrence with the lazy label and description. */
  lemma {:induction false} ChoiceOfLazy(line: string, i: nat, p: nat, q: nat)
    requires Lazy(line, i, p, q) && Leftmost(line, i)
    ensures ChoiceOf(line) == Some(CardAt(line, i, p, q))
  {
    OccurrenceMatches(line, i, p, q);
    var (i2, p2, q2) := FindFrom(line, 0).value;
    LeftmostCard(line, i2, p2, q2);
    LazyUnique(line, i, p, q, i2, p2, q2);
  }

  /** A `|` inside the description stays in it: the label is the shortest that works. */
  lemma {:induction false} LazyLabel(line: string)
    requires line == ChoiceOpen + "a|b|c" + "}}"
    ensures ChoiceOf(line) == Some(ChoiceCard("a", "b|c"))
  {
    LazyLabelCard(line);
    ChoiceOfLazy(line, 0, 10, 14);
  }

  lemma {:induction false} LazyLabelCard(line: string)
    requires line == ChoiceOpen + "a|b|c" + "}}"
    ensures Lazy(line, 0, 10, 14) && Leftmost(line, 0)
    ensures CardAt(line, 0, 10, 14) == ChoiceCard("a", "b|c")
  {
    assert line[0..9] == ChoiceOpen;
    assert line[9..10] == "a" && line[11..14] == "b|c";
    assert Occurrence(line, 0, 10, 14);
    assert !CloseAt(line, 12) && !CloseAt(line, 13);
    FirstOpenIsLazy(line, 10, 14);
    CardOfSlices(line, 0, 10, 14, "a", "b|c");
  }

  /** Two cards on one line: the description ends at the first `}}`, so the first card is taken. */
  lemma {:induction false} LazyDescription(line: string)
    requires line == ChoiceOpen + "a|b" + "}} x " + ChoiceOpen + "c|d" + "}}"
    ensures ChoiceOf(line) == Some(ChoiceCard("a", "b"))
  {
    LazyDescriptionCard(line);
    ChoiceOfLazy(line, 0, 10, 12);
  }

  lemma {:induction false} LazyDescriptionCard(line: string)
    requires line == ChoiceOpen + "a|b" + "}} x " + ChoiceOpen + "c|d" + "}}"
    ensures Lazy(line, 0, 10, 12) && Leftmost(line, 0)
    ensures CardAt(line, 0, 10, 12) == ChoiceCard("a", "b")
  {
    assert line[0..9] == ChoiceOpen;
    assert line[9..10] == "a" && line[11..12] == "b";
    assert Occurrence(line, 0, 10, 12);
    FirstOpenIsLazy(line, 10, 12);
    CardOfSlices(line, 0, 10, 12, "a", "b");
  }

  /**
   * An occurrence at the start of the line whose label is one character and
   * whose description holds no earlier `}}` is the leftmost lazy one.
   */
  lemma FirstOpenIsLazy(line: string, p: int, q: int)
    requires Occurrence(line, 0, p, q) && p == |ChoiceOpen| + 1
    requires forall k :: p + 1 < k < q ==> !CloseAt(line, k)
    ensures Lazy(line, 0, p, q) && Leftmost(line, 0)
  {
  }

  /** The card of an occurrence whose label and description are already trimmed. */
  lemma CardOfSlices(line: string, i: nat, p: nat, q: nat, labelText: string, descriptionText: string)
    requires Occurrence(line, i, p, q)
    requires line[i + |ChoiceOpen|..p] == labelText && line[p + 1..q] == descriptionText
    requires Trimmed(labelText) && Trimmed(descriptionText)
    ensures CardAt(line, i, p, q) == ChoiceCard(labelText, descriptionText)
  {
    TrimmedIsTrim(labelText);
    TrimmedIsTrim(descriptionText);
  }


  lemma {:induction false} NoOccurrence(line: string)
    requires FindFrom(line, 0).None?
    ensures ChoiceOf(line).None?
    ensures forall i: nat, p: nat, q: nat :: !Occurrence(line, i, p, q)
  {
    forall i: nat, p: nat, q: nat | Occurrence(line, i, p, q) ensures false {
      OccurrenceMatches(line, i, p, q);
    }
  }

  lemma {:induction false} LeftmostCard(line: string, i: nat, p: nat, q: nat)
    requires FindFrom(line, 0) == Some((i, p, q))
    ensures Lazy(line, i, p, q) && Leftmost(line, i)
    ensures ChoiceOf(line) == Some(CardAt(line, i, p, q))
  {
    CardOfMatch(line, i, p, q);
    MatchIsLeftmost(line);
  }

  lemma {:induction false} CardOfMatch(line: string, i: nat, p: nat, q: nat)
    requires FindFrom(line, 0) == Some((i, p, q))
    ensures Occurrence(line, i, p, q)
    ensures ChoiceOf(line) == Some(CardAt(line, i, p, q))
  {
    assert MatchAt(line, i) == Some((p, q));
  }

  /** The parser's three buffers: the parts so far, the pending text and the pending cards. */
  datatype Buffers = Buffers(parts: seq<Part>, text: string, choices: seq<ChoiceCard>)

  const NoBuffers := Buffers([], "", [])

  function FlushText(b: Buffers): Buffers {
    if Trim(b.text) != "" then Buffers(b.parts + [TextPart(Trim(b.text))], "", b.choices)
    else b.(text := "")
  }

  function FlushChoices(b: Buffers): Buffers {
    if |b.choices| > 0 then Buffers(b.parts + [ChoicesPart(b.choices)], b.text, [])
    else b.(choices := [])
  }

  /** The match of each line, computed once. */
  function Matches(lines: seq<string>): (ms: seq<Option<ChoiceCard>>)
    ensures |ms| == |lines|
  {
    seq(|lines|, k requires 0 <= k < |lines| => ChoiceOf(lines[k]))
  }

  /**
   * One line, with its match m: a choice line closes the pending text; any
   * other line closes the pending cards.
   */
  function StepLine(b: Buffers, line: string, m: Option<ChoiceCard>): Buffers {
    match m
    case Some(card) =>
      var b1 := if Trim(b.text) != "" then FlushText(b) else b;
      b1.(choices := b1.choices + [card])
    case None =>
      var b1 := if |b.choices| > 0 then FlushChoices(b) else b;
      b1.(text := b1.text + line + "\n")
  }

  function StepLines(b: Buffers, lines: seq<string>, ms: seq<Option<ChoiceCard>>): Buffers
    requires |ms| == |lines|
    decreases |lines|
  {
    if lines == [] then b else StepLines(StepLine(b, lines[0], ms[0]), lines[1..], ms[1..])
  }

  function Finish(b: Buffers): seq<Part> {
    var b1 := if |b.choices| > 0 then FlushChoices(b) else b;
    var b2 := if Trim(b1.text) != "" then FlushText(b1) else b1;
    b2.parts
  }

  /** What `parseContent` returns. */
  function Parts(content: string): seq<Part> {
    if content == "" then []
    else var lines := SplitLines(content); Finish(StepLines(NoBuffers, lines, Matches(lines)))
  }

  /** `parseContent`: the loop over the lines with its flushes. */
  method ParseContent(content: string) returns (parts: seq<Part>)
    ensures parts == Parts(content)
  {
    if content == "" {
      return [];
    }
    parts := [];
    var lines := SplitLines(content);
    var textBuffer := "";
    var choiceBuffer: seq<ChoiceCard> := [];
    ghost var ms := Matches(lines);
    for i := 0 to |lines|
      invariant StepLines(Buffers(parts, textBuffer, choiceBuffer), lines[i..], ms[i..])
                == StepLines(NoBuffers, lines, ms)
    {
      assert lines[i..][0] == lines[i] && lines[i..][1..] == lines[i + 1..];
      assert ms[i..][0] == ms[i] && ms[i..][1..] == ms[i + 1..];
      ghost var b := Buffers(parts, textBuffer, choiceBuffer);
      assert StepLines(b, lines[i..], ms[i..]) == StepLines(StepLine(b, lines[i], ms[i]), lines[i + 1..], ms[i + 1..]);
      var line := lines[i];
      var choiceMatch := ChoiceOf(line);
      assert choiceMatch == ms[i];
      if choiceMatch.Some? {
        if Trim(textBuffer) != "" {
          parts := parts + [TextPart(Trim(textBuffer))];
          textBuffer := "";
        }
        choiceBuffer := choiceBuffer + [choiceMatch.value];
      } else {
        if |choiceBuffer| > 0 {
          parts := parts + [ChoicesPart(choiceBuffer)];
          choiceBuffer := [];
        }
        textBuffer := textBuffer + line + "\n";
      }
      assert Buffers(parts, textBuffer, choiceBuffer) == StepLine(b, line, choiceMatch);
    }
    assert lines[|lines|..] == [] && ms[|lines|..] == [];
    if |choiceBuffer| > 0 {
      parts := parts + [ChoicesPart(choiceBuffer)];
      choiceBuffer := [];
    }
    if Trim(textBuffer) != "" {
      parts := parts + [TextPart(Trim(textBuffer))];
      textBuffer := "";
    }
  }

  // ---------------------------------------------------------------------
  // Structure of the parts

  /** Non-empty, with no whitespace at either end: what `trim` leaves of a non-blank string. */
  predicate Trimmed(t: string) {
    t != "" && !IsWhitespace(t[0]) && !IsWhitespace(t[|t| - 1])
  }

  predicate TextTrimmed(parts: seq<Part>) {
    forall k :: 0 <= k < |parts| && parts[k].TextPart? ==> Trimmed(parts[k].text)
  }

  predicate GroupsNonEmpty(parts: seq<Part>) {
    forall k :: 0 <= k < |parts| && parts[k].ChoicesPart? ==> parts[k].choices != []
  }

  predicate NoAdjacentText(parts: seq<Part>) {
    forall k :: 0 < k < |parts| && parts[k].TextPart? ==> !parts[k - 1].TextPart?
  }

  predicate WellFormed(parts: seq<Part>) {
    TextTrimmed(parts) && GroupsNonEmpty(parts) && NoAdjacentText(parts)
  }

  /** A text part is the last part only while cards are pending and the text is blank. */
  predicate Good(b: Buffers) {
    WellFormed(b.parts)
    && (b.parts != [] && b.parts[|b.parts| - 1].TextPart? ==> b.choices != [] && Trim(b.text) == "")
  }

  lemma {:induction false} AppendText(parts: seq<Part>, t: string)
    requires WellFormed(parts) && Trimmed(t)
    requires parts == [] || !parts[|parts| - 1].TextPart?
    ensures WellFormed(parts + [TextPart(t)])
  {
    var ps := parts + [TextPart(t)];
    assert forall k :: 0 <= k < |parts| ==> ps[k] == parts[k];
  }

  /** A trimmed part is its own trim. */
  lemma {:induction false} TrimmedIsTrim(t: string)
    requires Trimmed(t)
    ensures Trim(t) == t
  {
    TrimStartOfTrimmed(t);
    TrimEndOfTrimmed(t);
  }

  lemma {:induction false} AppendChoices(parts: seq<Part>, cs: seq<ChoiceCard>)
    requires WellFormed(parts) && cs != []
    ensures WellFormed(parts + [ChoicesPart(cs)])
  {
    var ps := parts + [ChoicesPart(cs)];
    assert forall k :: 0 <= k < |parts| ==> ps[k] == parts[k];
  }

  lemma {:induction false} StepLineGood(b: Buffers, line: string, m: Option<ChoiceCard>)
    requires Good(b)
    ensures Good(StepLine(b, line, m))
  {
    match m
    case Some(card) => ChoiceLineGood(b, card);
    case None => TextLineGood(b, line);
  }

  lemma {:induction false} ChoiceLineGood(b: Buffers, card: ChoiceCard)
    requires Good(b)
    ensures var b1 := if Trim(b.text) != "" then FlushText(b) else b;
      Good(b1.(choices := b1.choices + [card]))
  {
    if Trim(b.text) != "" {
      AppendText(b.parts, Trim(b.text));
    }
  }

  lemma {:induction false} TextLineGood(b: Buffers, line: string)
    requires Good(b)
    ensures var b1 := if |b.choices| > 0 then FlushChoices(b) else b;
      Good(b1.(text := b1.text + line + "\n"))
  {
    if |b.choices| > 0 {
      AppendChoices(b.parts, b.choices);
    }
  }

  lemma {:induction false} StepLinesGood(b: Buffers, lines: seq<string>, ms: seq<Option<ChoiceCard>>)
    requires Good(b) && |ms| == |lines|
    ensures Good(StepLines(b, lines, ms))
    decreases |lines|
  {
    if lines != [] {
      StepLineGood(b, lines[0], ms[0]);
      StepLinesGood(StepLine(b, lines[0], ms[0]), lines[1..], ms[1..]);
    }
  }

  lemma {:induction false} FinishWellFormed(b: Buffers)
    requires Good(b)
    ensures WellFormed(Finish(b))
  {
    var b1 := if |b.choices| > 0 then FlushChoices(b) else b;
    ChoicesFlushed(b);
    var t := Trim(b1.text);
    if t != "" {
      AppendText(b1.parts, t);
      assert Finish(b) == b1.parts + [TextPart(t)];
    } else {
      assert Finish(b) == b1.parts;
    }
  }

  /** Flushing the pending cards keeps the parts well formed and leaves no text part last. */
  lemma {:induction false} ChoicesFlushed(b: Buffers)
    requires Good(b)
    ensures var b1 := if |b.choices| > 0 then FlushChoices(b) else b;
      && WellFormed(b1.parts) && (b1.parts == [] || !b1.parts[|b1.parts| - 1].TextPart?)
  {
    if |b.choices| > 0 {
      AppendChoices(b.parts, b.choices);
      assert FlushChoices(b).parts == b.parts + [ChoicesPart(b.choices)];
    }
  }

  /**
   * Every text part is trimmed and non-empty, every group holds a card, and
   * no two text parts are adjacent.
   */
  lemma {:induction false} PartsWellFormed(content: string)
    ensures WellFormed(Parts(content))
  {
    if content != "" {
      var lines := SplitLines(content);
      StepLinesGood(NoBuffers, lines, Matches(lines));
      FinishWellFormed(StepLines(NoBuffers, lines, Matches(lines)));
    }
  }

  lemma {:induction false} EmptyContentHasNoParts()
    ensures Parts("") == []
  {
  }

  // ---------------------------------------------------------------------
  // The cards are kept, in order

  /** The cards of a sequence of matches, in order. */
  function MatchCards(ms: seq<Option<ChoiceCard>>): seq<ChoiceCard> {
    if ms == [] then [] else (if ms[0].Some? then [ms[0].value] else []) + MatchCards(ms[1..])
  }

  /** The cards of the choice lines, in order. */
  function LineCards(lines: seq<string>): seq<ChoiceCard> {
    MatchCards(Matches(lines))
  }

  /** All cards of all groups, in order. */
  function Cards(parts: seq<Part>): seq<ChoiceCard> {
    if parts == [] then []
    else (if parts[0].ChoicesPart? then parts[0].choices else []) + Cards(parts[1..])
  }

  lemma {:induction false} CardsAppend(parts: seq<Part>, p: Part)
    ensures Cards(parts + [p]) == Cards(parts) + (if p.ChoicesPart? then p.choices else [])
    decreases |parts|
  {
    if parts == [] {
      assert [] + [p] == [p];
    } else {
      var c0 := if parts[0].ChoicesPart? then parts[0].choices else [];
      var e := if p.ChoicesPart? then p.choices else [];
      assert (parts + [p])[0] == parts[0];
      assert (parts + [p])[1..] == parts[1..] + [p];
      assert Cards(parts + [p]) == c0 + Cards(parts[1..] + [p]);
      CardsAppend(parts[1..], p);
      assert c0 + (Cards(parts[1..]) + e) == (c0 + Cards(parts[1..])) + e;
    }
  }

  function Pending(b: Buffers): seq<ChoiceCard> {
    Cards(b.parts) + b.choices
  }

  /** A choice line adds its card after the pending ones. */
  lemma {:induction false} ChoiceStepCards(b: Buffers, card: ChoiceCard)
    ensures var b1 := if Trim(b.text) != "" then FlushText(b) else b;
      Pending(b1.(choices := b1.choices + [card])) == Pending(b) + [card]
  {
    var b1 := if Trim(b.text) != "" then FlushText(b) else b;
    if Trim(b.text) != "" {
      CardsAppend(b.parts, TextPart(Trim(b.text)));
      assert b1.parts == b.parts + [TextPart(Trim(b.text))] && b1.choices == b.choices;
    }
    assert Cards(b1.parts) == Cards(b.parts) && b1.choices == b.choices;
    assert Cards(b1.parts) + (b1.choices + [card]) == (Cards(b1.parts) + b1.choices) + [card];
  }

  /** Any other line moves the pending cards into a group and adds none. */
  lemma {:induction false} TextStepCards(b: Buffers, line: string)
    ensures var b1 := if |b.choices| > 0 then FlushChoices(b) else b;
      Pending(b1.(text := b1.text + line + "\n")) == Pending(b)
  {
    var b1 := if |b.choices| > 0 then FlushChoices(b) else b;
    if |b.choices| > 0 {
      CardsAppend(b.parts, ChoicesPart(b.choices));
      assert b1.parts == b.parts + [ChoicesPart(b.choices)] && b1.choices == [];
    }
    assert Cards(b1.parts) + b1.choices == Cards(b.parts) + b.choices;
  }

  lemma {:induction false} StepLineCards(b: Buffers, line: string, m: Option<ChoiceCard>)
    ensures Pending(StepLine(b, line, m)) == Pending(b) + (if m.Some? then [m.value] else [])
  {
    match m
    case Some(card) => ChoiceStepCards(b, card);
    case None =>
      TextStepCards(b, line);
      assert Pending(b) + [] == Pending(b);
  }

  lemma {:induction false} StepLinesCards(b: Buffers, lines: seq<string>, ms: seq<Option<ChoiceCard>>)
    requires |ms| == |lines|
    ensures Pending(StepLines(b, lines, ms)) == Pending(b) + MatchCards(ms)
    decreases |lines|
  {
    if lines == [] {
      assert Pending(b) + [] == Pending(b);
    } else {
      StepLinesCards(StepLine(b, lines[0], ms[0]), lines[1..], ms[1..]);
      FirstLineCards(b, lines, ms);
    }
  }

  /** The first line's card, then the cards of the rest. */
  lemma {:induction false} FirstLineCards(b: Buffers, lines: seq<string>, ms: seq<Option<ChoiceCard>>)
    requires |ms| == |lines| > 0
    requires var b1 := StepLine(b, lines[0], ms[0]);
      Pending(StepLines(b1, lines[1..], ms[1..])) == Pending(b1) + MatchCards(ms[1..])
    ensures Pending(StepLines(b, lines, ms)) == Pending(b) + MatchCards(ms)
  {
    var b1 := StepLine(b, lines[0], ms[0]);
    var c := if ms[0].Some? then [ms[0].value] else [];
    StepLineCards(b, lines[0], ms[0]);
    AppendChain(Pending(b), c, MatchCards(ms[1..]), Pending(b1),
      Pending(StepLines(b, lines, ms)), MatchCards(ms));
  }

  /** Appending in two steps appends it all. */
  lemma AppendChain<T>(before: seq<T>, c: seq<T>, rest: seq<T>, mid: seq<T>, after: seq<T>, all: seq<T>)
    requires mid == before + c && after == mid + rest && all == c + rest
    ensures after == before + all
  {
  }

  lemma {:induction false} FinishCards(b: Buffers)
    ensures Cards(Finish(b)) == Pending(b)
  {
    var b1 := if |b.choices| > 0 then FlushChoices(b) else b;
    if |b.choices| > 0 {
      CardsAppend(b.parts, ChoicesPart(b.choices));
    } else {
      assert Pending(b) == Cards(b.parts) + [];
    }
    assert b1.choices == [];
    assert Cards(b1.parts) == Pending(b);
    if Trim(b1.text) != "" { CardsAppend(b1.parts, TextPart(Trim(b1.text))); }
  }

  /** The groups hold exactly the cards of the choice lines, in source order. */
  lemma {:induction false} CardsPreserved(content: string)
    requires content != ""
    ensures Cards(Parts(content)) == LineCards(SplitLines(content))
  {
    var lines := SplitLines(content);
    StepLinesCards(NoBuffers, lines, Matches(lines));
    FinishCards(StepLines(NoBuffers, lines, Matches(lines)));
    assert Pending(NoBuffers) == [];
  }

  // ---------------------------------------------------------------------
  // Grouping

  /** The cards of each choices part, one group per part, in order. */
  function Groups(parts: seq<Part>): seq<seq<ChoiceCard>> {
    if parts == [] then []
    else (if parts[0].ChoicesPart? then [parts[0].choices] else []) + Groups(parts[1..])
  }

  /**
   * The maximal runs of choice lines, after the run in progress: consecutive
   * matches form one group, and a line without a match ends the group.
   */
  function Runs(current: seq<ChoiceCard>, ms: seq<Option<ChoiceCard>>): seq<seq<ChoiceCard>>
    decreases |ms|
  {
    if ms == [] then (if current != [] then [current] else [])
    else if ms[0].Some? then Runs(current + [ms[0].value], ms[1..])
    else (if current != [] then [current] else []) + Runs([], ms[1..])
  }

  /** A run of k >= 1 choice lines is exactly one group holding their k cards. */
  lemma {:induction false} RunIsOneGroup(current: seq<ChoiceCard>, ms: seq<Option<ChoiceCard>>)
    requires forall k :: 0 <= k < |ms| ==> ms[k].Some?
    requires current != [] || ms != []
    ensures Runs(current, ms) == [current + MatchCards(ms)]
    ensures |current + MatchCards(ms)| == |current| + |ms|
    decreases |ms|
  {
    if ms == [] {
      assert current + [] == current;
    } else {
      var v, rest := ms[0].value, ms[1..];
      assert forall k :: 0 <= k < |rest| ==> rest[k] == ms[k + 1];
      RunIsOneGroup(current + [v], rest);
      assert MatchCards(ms) == [v] + MatchCards(rest);
      assert Runs(current, ms) == Runs(current + [v], rest);
      AppendChain(current, [v], MatchCards(rest), current + [v], (current + [v]) + MatchCards(rest), MatchCards(ms));
    }
  }

  /** A line without a match closes the group: what comes after it starts afresh. */
  lemma {:induction false} NonChoiceLineSplits(current: seq<ChoiceCard>, before: seq<Option<ChoiceCard>>,
                                               after: seq<Option<ChoiceCard>>)
    ensures Runs(current, before + [None] + after) == Runs(current, before) + Runs([], after)
    decreases |before|
  {
    var ms := before + [None] + after;
    if before == [] {
      assert ms[0] == None && ms[1..] == after;
    } else {
      assert ms[0] == before[0] && ms[1..] == before[1..] + [None] + after;
      if before[0].Some? {
        NonChoiceLineSplits(current + [before[0].value], before[1..], after);
      } else {
        NonChoiceLineSplits([], before[1..], after);
        var c := if current != [] then [current] else [];
        assert c + (Runs([], before[1..]) + Runs([], after)) == (c + Runs([], before[1..])) + Runs([], after);
      }
    }
  }

  lemma {:induction false} GroupsAppend(parts: seq<Part>, p: Part)
    ensures Groups(parts + [p]) == Groups(parts) + (if p.ChoicesPart? then [p.choices] else [])
    decreases |parts|
  {
    if parts == [] {
      assert [] + [p] == [p];
    } else {
      var g0 := if parts[0].ChoicesPart? then [parts[0].choices] else [];
      var e := if p.ChoicesPart? then [p.choices] else [];
      assert (parts + [p])[0] == parts[0];
      assert (parts + [p])[1..] == parts[1..] + [p];
      assert Groups(parts + [p]) == g0 + Groups(parts[1..] + [p]);
      GroupsAppend(parts[1..], p);
      assert g0 + (Groups(parts[1..]) + e) == (g0 + Groups(parts[1..])) + e;
    }
  }

  /** A choice line joins the pending cards; any other line turns them into a group. */
  lemma {:induction false} StepLineGroups(b: Buffers, line: string, m: Option<ChoiceCard>)
    ensures m.Some? ==>
              Groups(StepLine(b, line, m).parts) == Groups(b.parts)
              && StepLine(b, line, m).choices == b.choices + [m.value]
    ensures m.None? ==>
              Groups(StepLine(b, line, m).parts) == Groups(b.parts) + (if b.choices != [] then [b.choices] else [])
              && StepLine(b, line, m).choices == []
  {
    match m
    case Some(card) =>
      if Trim(b.text) != "" { GroupsAppend(b.parts, TextPart(Trim(b.text))); }
    case None =>
      if |b.choices| > 0 {
        GroupsAppend(b.parts, ChoicesPart(b.choices));
      } else {
        assert Groups(b.parts) + [] == Groups(b.parts);
      }
  }

  lemma {:induction false} FinishGroups(b: Buffers)
    ensures Groups(Finish(b)) == Groups(b.parts) + (if b.choices != [] then [b.choices] else [])
  {
    var b1 := if |b.choices| > 0 then FlushChoices(b) else b;
    if |b.choices| > 0 {
      GroupsAppend(b.parts, ChoicesPart(b.choices));
    } else {
      assert Groups(b.parts) + [] == Groups(b.parts);
    }
    if Trim(b1.text) != "" { GroupsAppend(b1.parts, TextPart(Trim(b1.text))); }
  }

  lemma {:induction false} StepLinesGroups(b: Buffers, lines: seq<string>, ms: seq<Option<ChoiceCard>>)
    requires |ms| == |lines|
    ensures Groups(Finish(StepLines(b, lines, ms))) == Groups(b.parts) + Runs(b.choices, ms)
    decreases |lines|
  {
    if lines == [] {
      FinishGroups(b);
    } else {
      StepLinesGroups(StepLine(b, lines[0], ms[0]), lines[1..], ms[1..]);
      FirstLineGroups(b, lines, ms);
    }
  }

  /** The first line's effect on the groups, then the groups of the rest. */
  lemma {:induction false} FirstLineGroups(b: Buffers, lines: seq<string>, ms: seq<Option<ChoiceCard>>)
    requires |ms| == |lines| > 0
    requires var b1 := StepLine(b, lines[0], ms[0]);
      Groups(Finish(StepLines(b1, lines[1..], ms[1..]))) == Groups(b1.parts) + Runs(b1.choices, ms[1..])
    ensures Groups(Finish(StepLines(b, lines, ms))) == Groups(b.parts) + Runs(b.choices, ms)
  {
    var b1 := StepLine(b, lines[0], ms[0]);
    StepLineGroups(b, lines[0], ms[0]);
    if ms[0].Some? {
      assert Runs(b.choices, ms) == Runs(b1.choices, ms[1..]);
    } else {
      var c := if b.choices != [] then [b.choices] else [];
      AppendChain(Groups(b.parts), c, Runs([], ms[1..]), Groups(b1.parts),
        Groups(Finish(StepLines(b, lines, ms))), Runs(b.choices, ms));
    }
  }

  /**
   * The choices parts are the maximal runs of choice lines: one part per run,
   * holding that run's cards in source order.
   */
  lemma {:induction false} GroupsAreRuns(content: string)
    requires content != ""
    ensures Groups(Parts(content)) == Runs([], Matches(SplitLines(content)))
  {
    var lines := SplitLines(content);
    StepLinesGroups(NoBuffers, lines, Matches(lines));
  }

  /** Two adjacent choice lines give one choices part holding both cards. */
  lemma {:induction false} AdjacentChoiceLines(content: string, c0: ChoiceCard, c1: ChoiceCard)
    requires Matches(SplitLines(content)) == [Some(c0), Some(c1)]
    ensures Groups(Parts(content)) == [[c0, c1]]
  {
    GroupsAreRuns(content);
    RunsOfTwo(c0, c1);
  }

  /**
   * A line without a match, a blank one included, between two choice lines
   * closes the first group: two choices parts.
   */
  lemma {:induction false} GapSplitsGroups(content: string, c0: ChoiceCard, c2: ChoiceCard)
    requires Matches(SplitLines(content)) == [Some(c0), None, Some(c2)]
    ensures Groups(Parts(content)) == [[c0], [c2]]
  {
    GroupsAreRuns(content);
    RunsAroundGap(c0, c2);
  }

  lemma RunsOfTwo(c0: ChoiceCard, c1: ChoiceCard)
    ensures Runs([], [Some(c0), Some(c1)]) == [[c0, c1]]
  {
    var ms := [Some(c0), Some(c1)];
    assert ms[1..] == [Some(c1)] && ms[1..][1..] == [];
    assert [] + [c0] == [c0] && [c0] + [c1] == [c0, c1];
    assert Runs([], ms) == Runs([c0], ms[1..]);
    assert Runs([c0], ms[1..]) == Runs([c0, c1], []);
  }

  lemma RunsAroundGap(c0: ChoiceCard, c2: ChoiceCard)
    ensures Runs([], [Some(c0), None, Some(c2)]) == [[c0], [c2]]
  {
    var ms := [Some(c0), None, Some(c2)];
    assert ms[1..] == [None, Some(c2)] && ms[1..][1..] == [Some(c2)] && ms[1..][1..][1..] == [];
    assert [] + [c0] == [c0] && [] + [c2] == [c2];
    assert Runs([], ms) == Runs([c0], ms[1..]);
    assert Runs([c0], ms[1..]) == [[c0]] + Runs([], ms[1..][1..]);
    assert Runs([], ms[1..][1..]) == Runs([c2], []);
  }

  /** A blank line is not a choice line. */
  lemma NoChoiceInBlank()
    ensures ChoiceOf("") == None
  {
    assert MatchAt("", 0).None?;
    assert FindFrom("", 0) == None;
  }

  // ---------------------------------------------------------------------
  // Plain text

  lemma {:induction false} PlainLines(b: Buffers, lines: seq<string>, ms: seq<Option<ChoiceCard>>)
    requires b.choices == [] && |ms| == |lines|
    requires forall k :: 0 <= k < |ms| ==> ms[k].None?
    ensures StepLines(b, lines, ms) == b.(text := b.text + Unlines(lines))
    decreases |lines|
  {
    if lines == [] {
      assert b.text + "" == b.text;
    } else {
      var b1 := StepLine(b, lines[0], ms[0]);
      assert b1 == b.(text := b.text + lines[0] + "\n");
      PlainLines(b1, lines[1..], ms[1..]);
      assert b.text + lines[0] + "\n" + Unlines(lines[1..]) == b.text + Unlines(lines);
    }
  }

  /** Content without choice lines is one text part, the whole content trimmed, or nothing if it is blank. */
  lemma {:induction false} PlainContent(content: string)
    requires forall k :: 0 <= k < |SplitLines(content)| ==> ChoiceOf(SplitLines(content)[k]).None?
    ensures Parts(content) == if Trim(content) == "" then [] else [TextPart(Trim(content))]
  {
    if content != "" {
      var lines := SplitLines(content);
      var ms := Matches(lines);
      assert forall k :: 0 <= k < |ms| ==> ms[k] == ChoiceOf(lines[k]);
      PlainLines(NoBuffers, lines, ms);
      UnlinesSplitLines(content);
      assert "" + (content + "\n") == content + "\n";
      TrimNewline(content);
    } else {
      assert Trim("") == "";
    }
  }

  // ---------------------------------------------------------------------
  // Input handlers

  /** The message box: its text, sent by the submit and choice handlers. */
  class ChatInput {
    var input: string

    constructor()
      ensures input == ""
    {
      input := "";
    }

    /**
     * `handleSubmit`: nothing while the input is blank or a reply is loading;
     * otherwise the trimmed input is sent and the box cleared.
     */
    method Submit(isLoading: bool) returns (sent: Option<string>)
      modifies this
      ensures Trim(old(input)) == "" || isLoading ==> sent == None && input == old(input)
      ensures Trim(old(input)) != "" && !isLoading ==> sent == Some(Trim(old(input))) && input == ""
    {
      if Trim(input) == "" || isLoading {
        return None;
      }
      sent := Some(Trim(input));
      input := "";
    }
  }

  /** `handleChoiceClick`: the card's label is sent unless a reply is loading. */
  function ChoiceClick(choiceLabel: string, isLoading: bool): (sent: Option<string>)
    ensures sent.Some? <==> !isLoading
    ensures sent.Some? ==> sent.value == choiceLabel
  {
    if isLoading then None else Some(choiceLabel)
  }

  /** A submitted message is never blank and never has surrounding whitespace. */
  lemma {:induction false} SubmittedIsTrimmed(input: string)
    requires Trim(input) != ""
    ensures Trim(Trim(input)) == Trim(input)
  {
    TrimIdempotent(input);
  }
}
