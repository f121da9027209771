/** The rows of one turn of the transcript, with repeated tool calls folded. */
module TranscriptRows {
  import opened Text
  import opened Wrappers
  import opened NoteLines
  import Envelopes

  type ToolStatus = Envelopes.ToolStatus

  datatype Row =
    | UserRow(text: string)
    | AssistantText(text: string, streaming: bool)
    | ToolHeader(text: string)
    | ToolDetail(text: string)
    | Evidence(text: string)
    | ErrorRow(text: string)
    | Plain(text: string)

  datatype Entry<Input> =
    | UserInput(text: string)
    | AssistantBlock(thinking: bool, collapsed: bool, content: string, streaming: bool)
    | ToolCall(id: string, name: string, input: Input, status: ToolStatus)
    | ToolResult(callId: string, output: string, isError: bool)
    | SystemNotice(message: string, error: bool)
    | OtherEntry

  /** How tool input is previewed, what a line is about, and how an outcome is shortened. */
  datatype Style<!Input> = Style(
    preview: (string, Input) -> string,
    target: string -> Option<string>,
    outcome: string -> string)

  const PENDING_LABEL := "Mapping adjacent sectors..."
  const COMPLETED_LABEL := "Response complete."
  const FOLD_PREFIX := "(repeated"
  const MAX_EVIDENCE_LINES: nat := 3

  // ------------------------------------------------------------------------------------------
  // The paragraph of one call.

  function NonBlank(lines: seq<string>): seq<string> {
    if lines == [] then []
    else (if Trim(lines[0]) == "" then [] else [TrimEnd(lines[0])]) + NonBlank(lines[1..])
  }

  /** `first_nonempty_line`, or a default. */
  function FirstLineOr(text: string, default: string): string {
    var lines := NonBlank(Lines(text));
    if lines == [] then default else lines[0]
  }

  function HeaderSummary(name: string, target: Option<string>, status: string): string {
    if target.Some? && target.value != "" then name + " \U{b7} " + target.value + " \U{b7} " + status
    else name + " \U{b7} " + status
  }

  function EvidenceRows(lines: seq<string>): (rows: seq<Row>)
    ensures |rows| == |lines|
    ensures forall i :: 0 <= i < |rows| ==> rows[i] == Evidence(lines[i])
  {
    seq(|lines|, i requires 0 <= i < |lines| => Evidence(lines[i]))
  }

  function PreviewRows(lines: seq<string>): seq<Row> {
    if lines == [] then [] else [ToolDetail("Input: " + lines[0])] + EvidenceRows(lines[1..])
  }

  function PendingParagraph<Input>(style: Style<Input>, name: string, preview: string, status: ToolStatus): seq<Row> {
    var word := if status.WaitingApproval? then "awaiting approval" else PENDING_LABEL;
    [ToolHeader(HeaderSummary(name, style.target(preview), word))] + PreviewRows(NonBlank(Lines(preview)))
  }

  /** Output lines worth showing: not blank, not a bare number, tabs as spaces. */
  function OutputLines(lines: seq<string>): seq<string> {
    if lines == [] then []
    else
      var end := TrimEnd(lines[0]);
      var shown := seq(|end|, i requires 0 <= i < |end| => if end[i] == '\t' then ' ' else end[i]);
      (if Trim(shown) == "" || AllDigits(Trim(shown)) then [] else [shown]) + OutputLines(lines[1..])
  }

  function OutputRows(output: string): seq<Row> {
    var lines := OutputLines(Lines(output));
    if |lines| <= MAX_EVIDENCE_LINES then EvidenceRows(lines)
    else EvidenceRows(lines[..MAX_EVIDENCE_LINES]) +
         [Evidence("+" + Decimal(|lines| - MAX_EVIDENCE_LINES) + " more lines")]
  }

  function CompletedHeader<Input>(
      style: Style<Input>, name: string, preview: string, output: string, isError: bool): string
  {
    var status := if isError then "failed" else COMPLETED_LABEL;
    var fromOutput := style.target(FirstLineOr(output, status));
    HeaderSummary(name, if fromOutput.Some? then fromOutput else style.target(preview), status)
  }

  function CompletedParagraph<Input>(style: Style<Input>, name: string, preview: string, output: string, isError: bool)
    : seq<Row>
  {
    var status := if isError then "failed" else COMPLETED_LABEL;
    var inputLines := NonBlank(Lines(preview));
    var input := if inputLines != [] && inputLines[0] != "(no arguments)" then PreviewRows(inputLines) else [];
    [ToolHeader(CompletedHeader(style, name, preview, output, isError))] + input +
    [ToolDetail("Result: " + style.outcome(FirstLineOr(output, status)))] + OutputRows(output)
  }

  // ------------------------------------------------------------------------------------------
  // Folding.

  /** The results of a turn by call; a later result for a call replaces an earlier one. */
  function Results<Input>(entries: seq<Entry<Input>>): map<string, (string, bool)> {
    if entries == [] then map[]
    else
      var front, last := Results(entries[..|entries| - 1]), entries[|entries| - 1];
      if last.ToolResult? then front[last.callId := (last.output, last.isError)] else front
  }

  /** What identifies a call for folding. */
  function Header<Input>(style: Style<Input>, results: map<string, (string, bool)>, call: Entry<Input>): string
    requires call.ToolCall?
  {
    var preview := style.preview(call.name, call.input);
    if call.id in results then CompletedHeader(style, call.name, preview, results[call.id].0, results[call.id].1)
    else HeaderSummary(call.name, style.target(preview), PENDING_LABEL)
  }

  function Paragraph<Input>(style: Style<Input>, results: map<string, (string, bool)>, call: Entry<Input>): seq<Row>
    requires call.ToolCall?
  {
    var preview := style.preview(call.name, call.input);
    if call.id in results then CompletedParagraph(style, call.name, preview, results[call.id].0, results[call.id].1)
    else PendingParagraph(style, call.name, preview, call.status)
  }

  function FoldRow(calls: nat): Row {
    ToolDetail(FOLD_PREFIX + " \U{d7}" + Decimal(calls) + ", same call)")
  }

  predicate IsFold(row: Row) {
    row.ToolDetail? && FOLD_PREFIX <= row.text
  }

  /** The rows so far, the header of the last call, and how often it was repeated. */
  datatype Fold = Fold(rows: seq<Row>, header: Option<string>, repeats: nat)

  function TextRows(lines: seq<string>, streaming: bool): seq<Row> {
    if lines == [] then []
    else if |lines| == 1 && streaming then [AssistantText(lines[0] + "|", true)]
    else [AssistantText(lines[0], false)] + TextRows(lines[1..], streaming)
  }

  function BlockRows(content: string, streaming: bool): seq<Row> {
    TextRows(Lines(content), streaming && content != "" && content[|content| - 1] != '\n')
  }

  function Repeated(f: Fold): Fold {
    var row := FoldRow(f.repeats + 2);
    var rows := if f.rows != [] && IsFold(f.rows[|f.rows| - 1]) then f.rows[..|f.rows| - 1] else f.rows;
    Fold(rows + [row], f.header, f.repeats + 1)
  }

  function Step<Input>(style: Style<Input>, results: map<string, (string, bool)>, f: Fold, entry: Entry<Input>): Fold {
    match entry
    case UserInput(text) => Fold(f.rows + (if Trim(text) == "" then [] else [UserRow(text)]), None, 0)
    case AssistantBlock(thinking, collapsed, content, streaming) =>
      if thinking && collapsed then f
      else
        var rows := f.rows + BlockRows(content, streaming);
        if Trim(content) == "" then f.(rows := rows) else Fold(rows, None, 0)
    case ToolCall(_, _, _, _) =>
      var header := Header(style, results, entry);
      if f.header == Some(header) then Repeated(f)
      else Fold(f.rows + Paragraph(style, results, entry), Some(header), 0)
    case SystemNotice(message, error) => Fold(f.rows + [if error then ErrorRow(message) else Plain(message)], None, 0)
    case _ => f
  }

  function Steps<Input>(
      style: Style<Input>, results: map<string, (string, bool)>, f: Fold, entries: seq<Entry<Input>>): Fold
  {
    if entries == [] then f
    else Step(style, results, Steps(style, results, f, entries[..|entries| - 1]), entries[|entries| - 1])
  }

  /** The rows of one turn. */
  function TurnRows<Input>(style: Style<Input>, entries: seq<Entry<Input>>): seq<Row> {
    Steps(style, Results(entries), Fold([], None, 0), entries).rows
  }

  // ------------------------------------------------------------------------------------------
  // Folding looks only at rows of its own turn.

  /** Rows that stand inside a paragraph, under its header. */
  predicate Inner(rows: seq<Row>) {
    forall i :: 0 <= i < |rows| ==> !rows[i].ToolHeader? && !IsFold(rows[i])
  }

  lemma InnerConcat(a: seq<Row>, b: seq<Row>)
    requires Inner(a) && Inner(b)
    ensures Inner(a + b)
  {
    hide IsFold;
  }

  lemma DetailInner(s: string)
    ensures Inner([ToolDetail("Input: " + s)]) && Inner([ToolDetail("Result: " + s)])
  {
    assert ("Input: " + s)[0] == 'I' && ("Result: " + s)[0] == 'R' && FOLD_PREFIX[0] == '(';
  }

  lemma EvidenceInner(lines: seq<string>)
    ensures Inner(EvidenceRows(lines))
  {
  }

  lemma PreviewInner(lines: seq<string>)
    ensures Inner(PreviewRows(lines))
  {
    hide Inner;
    EvidenceInner([]);
    if lines != [] {
      DetailInner(lines[0]);
      EvidenceInner(lines[1..]);
      InnerConcat([ToolDetail("Input: " + lines[0])], EvidenceRows(lines[1..]));
    }
  }

  lemma OutputInner(output: string)
    ensures Inner(OutputRows(output))
  {
  }

  lemma ParagraphRows<Input>(style: Style<Input>, results: map<string, (string, bool)>, call: Entry<Input>)
    requires call.ToolCall?
    ensures Paragraph(style, results, call) != [] && Paragraph(style, results, call)[0].ToolHeader?
    ensures Inner(Paragraph(style, results, call)[1..])
  {
    hide HeaderSummary, CompletedHeader, OutputRows, PreviewRows, NonBlank, Lines, FirstLineOr, Inner;
    var preview := style.preview(call.name, call.input);
    var lines := NonBlank(Lines(preview));
    PreviewInner(lines);
    if call.id in results {
      var (output, isError) := results[call.id];
      var result := style.outcome(FirstLineOr(output, if isError then "failed" else COMPLETED_LABEL));
      var input := if lines != [] && lines[0] != "(no arguments)" then PreviewRows(lines) else [];
      var below := input + [ToolDetail("Result: " + result)] + OutputRows(output);
      DetailInner(result);
      EvidenceInner([]);
      OutputInner(output);
      InnerConcat(input, [ToolDetail("Result: " + result)]);
      InnerConcat(input + [ToolDetail("Result: " + result)], OutputRows(output));
      assert Paragraph(style, results, call)[1..] == below;
    }
  }

  lemma TextRowsAreText(lines: seq<string>, streaming: bool)
    ensures forall i :: 0 <= i < |TextRows(lines, streaming)| ==> TextRows(lines, streaming)[i].AssistantText?
  {
  }

  /** A call was shown in this turn, and a fold row at the end is the one for the repetitions so far. */
  ghost predicate Grounded(f: Fold) {
    && (f.header.Some? ==>
          f.rows != [] && (IsFold(f.rows[|f.rows| - 1]) ==> f.rows[|f.rows| - 1] == FoldRow(f.repeats + 1)))
    && (f.header.None? ==> f.repeats == 0)
  }

  function Behind(base: seq<Row>, f: Fold): Fold {
    f.(rows := base + f.rows)
  }

  lemma RepeatedBehind(base: seq<Row>, f: Fold)
    requires f.rows != []
    ensures Repeated(Behind(base, f)) == Behind(base, Repeated(f))
  {
    hide IsFold, FoldRow;
    var last, row := f.rows[|f.rows| - 1], FoldRow(f.repeats + 2);
    assert (base + f.rows)[|base + f.rows| - 1] == last;
    var kept := if IsFold(last) then f.rows[..|f.rows| - 1] else f.rows;
    assert IsFold(last) ==> (base + f.rows)[..|base + f.rows| - 1] == base + kept;
    assert (base + kept) + [row] == base + (kept + [row]);
  }

  lemma StepGrounded<Input>(style: Style<Input>, results: map<string, (string, bool)>, f: Fold, entry: Entry<Input>)
    requires Grounded(f)
    ensures Grounded(Step(style, results, f, entry))
  {
    hide Paragraph, Header, IsFold, FoldRow, Trim, Lines;
    if entry.ToolCall? {
      ParagraphRows(style, results, entry);
      LastOfParagraph(f.rows, Paragraph(style, results, entry));
    } else if entry.AssistantBlock? {
      var content := entry.content;
      TextRowsAreText(Lines(content), entry.streaming && content != "" && content[|content| - 1] != '\n');
      HeaderNotFold();
    }
  }

  lemma HeaderNotFold()
    ensures forall row: Row :: IsFold(row) ==> row.ToolDetail?
  {
  }

  lemma StepBehind<Input>(
      style: Style<Input>, results: map<string, (string, bool)>, base: seq<Row>, f: Fold, entry: Entry<Input>)
    requires Grounded(f)
    ensures Step(style, results, Behind(base, f), entry) == Behind(base, Step(style, results, f, entry))
  {
    hide Paragraph, Header, IsFold, FoldRow, Trim, BlockRows;
    var g := Step(style, results, f, entry);
    if entry.ToolCall? && f.header == Some(Header(style, results, entry)) {
      hide Repeated;
      RepeatedBehind(base, f);
    } else {
      var added := match entry
        case UserInput(text) => if Trim(text) == "" then [] else [UserRow(text)]
        case AssistantBlock(thinking, collapsed, content, streaming) =>
          if thinking && collapsed then [] else BlockRows(content, streaming)
        case ToolCall(_, _, _, _) => Paragraph(style, results, entry)
        case SystemNotice(message, error) => [if error then ErrorRow(message) else Plain(message)]
        case _ => [];
      assert g.rows == f.rows + added;
      assert (base + f.rows) + added == base + (f.rows + added);
    }
  }

  /** What stands above a turn is never touched by it and does not influence it. */
  lemma {:induction false} StepsBehind<Input>(
      style: Style<Input>, results: map<string, (string, bool)>, base: seq<Row>, f: Fold, entries: seq<Entry<Input>>)
    requires Grounded(f)
    ensures Steps(style, results, Behind(base, f), entries) == Behind(base, Steps(style, results, f, entries))
    ensures Grounded(Steps(style, results, f, entries))
    decreases |entries|
  {
    hide Step, Grounded, Behind;
    if entries != [] {
      var front, last := entries[..|entries| - 1], entries[|entries| - 1];
      StepsBehind(style, results, base, f, front);
      StepBehind(style, results, base, Steps(style, results, f, front), last);
      StepGrounded(style, results, Steps(style, results, f, front), last);
    }
  }

  // ------------------------------------------------------------------------------------------
  // The loop.

  method CollectResults<Input>(entries: seq<Entry<Input>>) returns (results: map<string, (string, bool)>)
    ensures results == Results(entries)
  {
    results := map[];
    for i := 0 to |entries|
      invariant results == Results(entries[..i])
    {
      assert entries[..i + 1][..i] == entries[..i];
      if entries[i].ToolResult? {
        results := results[entries[i].callId := (entries[i].output, entries[i].isError)];
      }
    }
    assert entries[..|entries|] == entries;
  }

  method PushBlock(rows: seq<Row>, content: string, streaming: bool) returns (pushed: seq<Row>)
    ensures pushed == rows + BlockRows(content, streaming)
  {
    hide Lines;
    var lines := Lines(content);
    var marked := streaming && content != "" && content[|content| - 1] != '\n';
    pushed := rows;
    for i := 0 to |lines|
      invariant pushed == rows + TextRows(lines[..i], false)
    {
      TextRowsSnoc(lines[..i], lines[i]);
      assert lines[..i + 1] == lines[..i] + [lines[i]];
      pushed := pushed + [AssistantText(lines[i], false)];
    }
    assert lines[..|lines|] == lines;
    if marked && lines != [] {
      assert lines == lines[..|lines| - 1] + [lines[|lines| - 1]];
      TextRowsSnoc(lines[..|lines| - 1], lines[|lines| - 1]);
      var last := pushed[|pushed| - 1];
      pushed := pushed[..|pushed| - 1] + [AssistantText(last.text + "|", true)];
    }
  }

  lemma TextRowsSnoc(lines: seq<string>, line: string)
    ensures TextRows(lines + [line], false) == TextRows(lines, false) + [AssistantText(line, false)]
    ensures TextRows(lines + [line], true) == TextRows(lines, false) + [AssistantText(line + "|", true)]
  {
    var all := lines + [line];
    if lines != [] {
      assert all[0] == lines[0] && all[1..] == lines[1..] + [line];
      TextRowsSnoc(lines[1..], line);
    } else {
      assert all[1..] == [];
    }
  }

  /** `append_turn_rows`. */
  method AppendTurnRows<Input>(style: Style<Input>, above: seq<Row>, entries: seq<Entry<Input>>) returns (rows: seq<Row>)
    ensures rows == above + TurnRows(style, entries)
  {
    hide Paragraph, Header, IsFold, FoldRow, Trim, BlockRows, Grounded, Steps, Results;
    var results := CollectResults(entries);
    rows := above;
    var lastToolHeader: Option<string> := None;
    var repeatCount := 0;
    ghost var start := Fold(above, None, 0);
    StepsNone(style, results, start);
    for i := 0 to |entries|
      invariant Fold(rows, lastToolHeader, repeatCount) == Steps(style, results, start, entries[..i])
    {
      StepsSnoc(style, results, start, entries, i);
      match entries[i] {
        case UserInput(text) =>
          if Trim(text) != "" {
            rows := rows + [UserRow(text)];
          }
          lastToolHeader, repeatCount := None, 0;
        case AssistantBlock(thinking, collapsed, content, streaming) =>
          if thinking && collapsed {
            continue;
          }
          rows := PushBlock(rows, content, streaming);
          if Trim(content) != "" {
            lastToolHeader, repeatCount := None, 0;
          }
        case ToolCall(_, _, _, _) =>
          var header := Header(style, results, entries[i]);
          if lastToolHeader == Some(header) {
            repeatCount := repeatCount + 1;
            var foldLine := FoldRow(repeatCount + 1);
            if rows != [] && IsFold(rows[|rows| - 1]) {
              rows := rows[|rows| - 1 := foldLine];
            } else {
              rows := rows + [foldLine];
            }
          } else {
            repeatCount := 0;
            lastToolHeader := Some(header);
            rows := rows + Paragraph(style, results, entries[i]);
          }
        case SystemNotice(message, error) =>
          rows := rows + [if error then ErrorRow(message) else Plain(message)];
          lastToolHeader, repeatCount := None, 0;
        case _ =>
      }
    }
    assert entries[..|entries|] == entries;
    assert start == Behind(above, Fold([], None, 0));
    GroundedAtStart();
    StepsBehind(style, results, above, Fold([], None, 0), entries);
  }

  lemma GroundedAtStart()
    ensures Grounded(Fold([], None, 0))
  {
  }

  lemma StepsNone<Input>(style: Style<Input>, results: map<string, (string, bool)>, f: Fold)
    ensures Steps(style, results, f, []) == f
  {
  }

  lemma StepsSnoc<Input>(
      style: Style<Input>, results: map<string, (string, bool)>, f: Fold, entries: seq<Entry<Input>>, i: nat)
    requires i < |entries|
    ensures Steps(style, results, f, entries[..i + 1]) ==
            Step(style, results, Steps(style, results, f, entries[..i]), entries[i])
  {
    hide Step;
    assert entries[..i + 1][..i] == entries[..i];
  }

  // ------------------------------------------------------------------------------------------
  // A run of equal calls.

  /** Entries that show nothing and end no run. */
  predicate Invisible<Input>(entry: Entry<Input>) {
    match entry
    case AssistantBlock(thinking, collapsed, content, _) => (thinking && collapsed) || content == ""
    case ToolResult(_, _, _) => true
    case OtherEntry => true
    case _ => false
  }

  /** Only calls with one header, and things that do not show. */
  ghost predicate IsRun<Input>(
      style: Style<Input>, results: map<string, (string, bool)>, header: string, entries: seq<Entry<Input>>)
  {
    forall i :: 0 <= i < |entries| ==>
      Invisible(entries[i]) || (entries[i].ToolCall? && Header(style, results, entries[i]) == header)
  }

  function Calls<Input>(entries: seq<Entry<Input>>): nat {
    if entries == [] then 0
    else Calls(entries[..|entries| - 1]) + if entries[|entries| - 1].ToolCall? then 1 else 0
  }

  lemma InvisibleStep<Input>(style: Style<Input>, results: map<string, (string, bool)>, f: Fold, entry: Entry<Input>)
    requires Invisible(entry)
    ensures Step(style, results, f, entry) == f
  {
    hide Header, Paragraph;
    if entry.AssistantBlock? && entry.content == "" {
      assert BlockRows("", entry.streaming) == [];
    }
  }

  /** However many calls with the same header follow a call, they show as that call's paragraph and one fold
      row with the number of calls. */
  lemma {:induction false} RunFolds<Input>(
      style: Style<Input>, results: map<string, (string, bool)>, f: Fold, first: Entry<Input>, more: seq<Entry<Input>>)
    requires first.ToolCall? && f.header != Some(Header(style, results, first))
    requires IsRun(style, results, Header(style, results, first), more)
    ensures Steps(style, results, Step(style, results, f, first), more) ==
            Fold(f.rows + Paragraph(style, results, first) + (if Calls(more) == 0 then [] else [FoldRow(Calls(more) + 1)]),
                 Some(Header(style, results, first)), Calls(more))
    decreases |more|
  {
    hide Paragraph, Header, FoldRow, IsFold, Invisible;
    var header, shown := Header(style, results, first), f.rows + Paragraph(style, results, first);
    if more == [] {
      assert shown + [] == shown;
    } else {
      var front, last := more[..|more| - 1], more[|more| - 1];
      RunFolds(style, results, f, first, front);
      var g := Steps(style, results, Step(style, results, f, first), front);
      if Invisible(last) {
        InvisibleIsNoCall(last);
        InvisibleStep(style, results, g, last);
      } else {
        ParagraphRows(style, results, first);
        FoldRowIsFold(Calls(front) + 1);
        LastOfParagraph(f.rows, Paragraph(style, results, first));
        RepeatedReplaces(g, shown);
      }
    }
  }

  lemma InvisibleIsNoCall<Input>(entry: Entry<Input>)
    ensures Invisible(entry) ==> !entry.ToolCall?
  {
  }

  lemma FoldRowIsFold(calls: nat)
    ensures IsFold(FoldRow(calls))
  {
    hide Decimal;
    var text := FOLD_PREFIX + " \U{d7}" + Decimal(calls) + ", same call)";
    assert text[..|FOLD_PREFIX|] == FOLD_PREFIX;
  }

  lemma LastOfParagraph(above: seq<Row>, paragraph: seq<Row>)
    requires paragraph != [] && paragraph[0].ToolHeader? && Inner(paragraph[1..])
    ensures var shown := above + paragraph; shown != [] && !IsFold(shown[|shown| - 1])
  {
    assert (above + paragraph)[|above + paragraph| - 1] == paragraph[|paragraph| - 1];
    if |paragraph| > 1 {
      assert paragraph[|paragraph| - 1] == paragraph[1..][|paragraph| - 2];
    }
  }

  lemma RepeatedReplaces(f: Fold, shown: seq<Row>)
    requires shown != [] && !IsFold(shown[|shown| - 1])
    requires f.rows == shown + if f.repeats == 0 then [] else [FoldRow(f.repeats + 1)]
    ensures Repeated(f).rows == shown + [FoldRow(f.repeats + 2)]
  {
    hide IsFold, FoldRow;
    if f.repeats > 0 {
      FoldRowIsFold(f.repeats + 1);
      assert f.rows[..|f.rows| - 1] == shown;
    } else {
      assert f.rows == shown;
    }
  }

  // ------------------------------------------------------------------------------------------
  // Every call is accounted for.

  /** The number a fold row states. */
  function StatedCalls(row: Row): Option<nat> {
    if !IsFold(row) then None
    else
      var split := SplitOnce(row.text[|FOLD_PREFIX|..], ",");
      if split.Some? && " \U{d7}" <= split.value.0 && AllDigits(split.value.0[2..])
      then Some(DecimalValue(split.value.0[2..])) else None
  }

  lemma FoldRowStates(calls: nat)
    ensures StatedCalls(FoldRow(calls)) == Some(calls)
  {
    hide Decimal, SplitOnce, DecimalValue;
    var digits := Decimal(calls);
    FoldRowIsFold(calls);
    var before := " \U{d7}" + digits;
    assert FoldRow(calls).text[|FOLD_PREFIX|..] == before + "," + " same call)";
    SplitOnceAfter(before, ",", " same call)");
    assert before[2..] == digits;
    DecimalIsRead(calls);
  }

  /** What a reader of the rows counts: all calls so far, and those of the paragraph being read. */
  datatype Count = Count(total: int, current: int)

  function CountRow(c: Count, row: Row): Count {
    if row.ToolHeader? then Count(c.total + 1, 1)
    else if StatedCalls(row).Some? then Count(c.total - c.current + StatedCalls(row).value, StatedCalls(row).value)
    else c
  }

  function CountRows(rows: seq<Row>): Count {
    if rows == [] then Count(0, 0) else CountRow(CountRows(rows[..|rows| - 1]), rows[|rows| - 1])
  }

  lemma CountSnoc(rows: seq<Row>, row: Row)
    ensures CountRows(rows + [row]) == CountRow(CountRows(rows), row)
  {
    hide CountRow;
    assert (rows + [row])[..|rows|] == rows;
  }

  predicate Neutral(row: Row) {
    !row.ToolHeader? && StatedCalls(row).None?
  }

  lemma {:induction false} CountNeutral(rows: seq<Row>, added: seq<Row>)
    requires forall i :: 0 <= i < |added| ==> Neutral(added[i])
    ensures CountRows(rows + added) == CountRows(rows)
    decreases |added|
  {
    hide StatedCalls;
    if added == [] {
      assert rows + added == rows;
    } else {
      var front, last := added[..|added| - 1], added[|added| - 1];
      CountNeutral(rows, front);
      CountSnoc(rows + front, last);
      assert Neutral(last);
      assert rows + added == (rows + front) + [last];
    }
  }

  lemma CountParagraph(rows: seq<Row>, paragraph: seq<Row>)
    requires paragraph != [] && paragraph[0].ToolHeader? && Inner(paragraph[1..])
    ensures CountRows(rows + paragraph) == Count(CountRows(rows).total + 1, 1)
  {
    hide IsFold;
    var head, tail := paragraph[0], paragraph[1..];
    assert paragraph == [head] + tail && rows + paragraph == (rows + [head]) + tail;
    CountSnoc(rows, head);
    CountNeutral(rows + [head], tail);
  }

  /** The count so far is the number of calls, and the calls of the last paragraph are counted in it. */
  ghost predicate Accounted(f: Fold, calls: nat) {
    CountRows(f.rows).total == calls && (f.header.Some? ==> CountRows(f.rows).current == f.repeats + 1)
  }

  lemma RepeatedAccounted(f: Fold, calls: nat)
    requires Grounded(f) && f.header.Some? && Accounted(f, calls)
    ensures Accounted(Repeated(f), calls + 1)
  {
    hide IsFold, FoldRow, StatedCalls, CountRows;
    var last := f.rows[|f.rows| - 1];
    var kept := if IsFold(last) then f.rows[..|f.rows| - 1] else f.rows;
    FoldRowStates(f.repeats + 2);
    FoldRowStates(f.repeats + 1);
    FoldIsDetail(f.repeats + 1);
    FoldIsDetail(f.repeats + 2);
    CountSnoc(kept, FoldRow(f.repeats + 2));
    if IsFold(last) {
      CountSnoc(kept, last);
      assert f.rows == kept + [last];
    }
  }

  lemma FoldIsDetail(calls: nat)
    ensures FoldRow(calls).ToolDetail?
  {
  }

  lemma NeutralKinds()
    ensures forall row: Row :: !row.ToolDetail? && !row.ToolHeader? ==> Neutral(row)
  {
  }

  lemma AddedAccounted(f: Fold, added: seq<Row>, g: Fold, calls: nat)
    requires Accounted(f, calls) && g.rows == f.rows + added
    requires g.header.None? || (g.header, g.repeats) == (f.header, f.repeats)
    requires forall i :: 0 <= i < |added| ==> !added[i].ToolDetail? && !added[i].ToolHeader?
    ensures Accounted(g, calls)
  {
    hide CountRows, Neutral;
    NeutralKinds();
    CountNeutral(f.rows, added);
  }

  lemma StepAccounted<Input>(
      style: Style<Input>, results: map<string, (string, bool)>, f: Fold, entry: Entry<Input>, calls: nat)
    requires Grounded(f) && Accounted(f, calls)
    ensures Accounted(Step(style, results, f, entry), calls + if entry.ToolCall? then 1 else 0)
  {
    hide Paragraph, Header, IsFold, FoldRow, Trim, Lines, CountRows, Grounded, Repeated;
    var g := Step(style, results, f, entry);
    match entry {
      case UserInput(text) => AddedAccounted(f, if Trim(text) == "" then [] else [UserRow(text)], g, calls);
      case AssistantBlock(thinking, collapsed, content, streaming) =>
        if !(thinking && collapsed) {
          TextRowsAreText(Lines(content), streaming && content != "" && content[|content| - 1] != '\n');
          AddedAccounted(f, BlockRows(content, streaming), g, calls);
        }
      case ToolCall(_, _, _, _) =>
        if f.header == Some(Header(style, results, entry)) {
          RepeatedAccounted(f, calls);
        } else {
          ParagraphRows(style, results, entry);
          CountParagraph(f.rows, Paragraph(style, results, entry));
        }
      case SystemNotice(message, error) =>
        AddedAccounted(f, [if error then ErrorRow(message) else Plain(message)], g, calls);
      case _ =>
    }
  }

  /** Adding up paragraphs and what the fold rows state gives exactly the calls of the turn, for every turn. */
  lemma {:induction false} CallsAccounted<Input>(
      style: Style<Input>, results: map<string, (string, bool)>, entries: seq<Entry<Input>>)
    ensures Accounted(Steps(style, results, Fold([], None, 0), entries), Calls(entries))
    decreases |entries|
  {
    hide Step, Accounted, Grounded;
    if entries == [] {
      NothingAccounted();
    } else {
      var front := entries[..|entries| - 1];
      CallsAccounted(style, results, front);
      GroundedAtStart();
      StepsBehind(style, results, [], Fold([], None, 0), front);
      StepAccounted(style, results, Steps(style, results, Fold([], None, 0), front), entries[|entries| - 1], Calls(front));
    }
  }

  lemma NothingAccounted()
    ensures Accounted(Fold([], None, 0), 0)
  {
  }

  lemma TurnCallsAccounted<Input>(style: Style<Input>, entries: seq<Entry<Input>>)
    ensures CountRows(TurnRows(style, entries)).total == Calls(entries)
  {
    hide CountRows, Steps;
    CallsAccounted(style, Results(entries), entries);
  }
}
