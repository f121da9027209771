/** Which rows a turn shows, told entry by entry. */
module TranscriptShown {
  import opened Text
  import opened Wrappers
  import opened NoteLines
  import opened TranscriptRows

  // ------------------------------------------------------------------------------------------
  // What each entry shows.

  /** Does not end a run of equal calls. */
  predicate KeepsRun<Input>(entry: Entry<Input>) {
    match entry
    case AssistantBlock(thinking, collapsed, content, _) => (thinking && collapsed) || Trim(content) == ""
    case ToolResult(_, _, _) => true
    case OtherEntry => true
    case _ => false
  }

  /** The header of the run of calls that the entries end in, if they end in one. */
  function RunHeader<Input>(
      style: Style<Input>, results: map<string, (string, bool)>, entries: seq<Entry<Input>>): Option<string>
  {
    if entries == [] then None
    else
      var last := entries[|entries| - 1];
      if last.ToolCall? then Some(Header(style, results, last))
      else if KeepsRun(last) then RunHeader(style, results, entries[..|entries| - 1])
      else None
  }

  /** The rows an entry shows of its own: a call none if it goes on with the run before it. */
  function ShownBy<Input>(
      style: Style<Input>, results: map<string, (string, bool)>, before: seq<Entry<Input>>, entry: Entry<Input>): seq<Row>
  {
    match entry
    case UserInput(text) => if Trim(text) == "" then [] else [UserRow(text)]
    case AssistantBlock(thinking, collapsed, content, streaming) =>
      if thinking && collapsed then [] else BlockRows(content, streaming)
    case ToolCall(_, _, _, _) =>
      if RunHeader(style, results, before) == Some(Header(style, results, entry)) then []
      else Paragraph(style, results, entry)
    case SystemNotice(message, error) => [if error then ErrorRow(message) else Plain(message)]
    case _ => []
  }

  function AllShown<Input>(
      style: Style<Input>, results: map<string, (string, bool)>, entries: seq<Entry<Input>>): seq<Row>
  {
    if entries == [] then []
    else
      var before := entries[..|entries| - 1];
      AllShown(style, results, before) + ShownBy(style, results, before, entries[|entries| - 1])
  }

  /** The rows without those that fold repetitions. */
  function WithoutFolds(rows: seq<Row>): seq<Row> {
    if rows == [] then []
    else WithoutFolds(rows[..|rows| - 1]) + if IsFold(rows[|rows| - 1]) then [] else [rows[|rows| - 1]]
  }

  lemma {:induction false} WithoutFoldsConcat(x: seq<Row>, y: seq<Row>)
    ensures WithoutFolds(x + y) == WithoutFolds(x) + WithoutFolds(y)
    decreases |y|
  {
    hide IsFold;
    if y == [] {
      assert x + y == x;
    } else {
      assert (x + y)[..|x + y| - 1] == x + y[..|y| - 1];
      WithoutFoldsConcat(x, y[..|y| - 1]);
    }
  }

  lemma {:induction false} NoFoldIn(rows: seq<Row>)
    requires forall i :: 0 <= i < |rows| ==> !IsFold(rows[i])
    ensures WithoutFolds(rows) == rows
  {
    hide IsFold;
    if rows != [] {
      NoFoldIn(rows[..|rows| - 1]);
    }
  }

  lemma ShownHasNoFold<Input>(
      style: Style<Input>, results: map<string, (string, bool)>, before: seq<Entry<Input>>, entry: Entry<Input>)
    ensures WithoutFolds(ShownBy(style, results, before, entry)) == ShownBy(style, results, before, entry)
  {
    hide Paragraph, Header, Trim, Lines, WithoutFolds;
    var shown := ShownBy(style, results, before, entry);
    if entry.ToolCall? {
      ParagraphRows(style, results, entry);
      var paragraph := Paragraph(style, results, entry);
      assert forall i :: 0 < i < |paragraph| ==> paragraph[i] == paragraph[1..][i - 1];
    } else if entry.AssistantBlock? {
      var content := entry.content;
      TextRowsAreText(Lines(content), entry.streaming && content != "" && content[|content| - 1] != '\n');
    }
    NoFoldIn(shown);
  }

  /** Counting a repetition replaces or adds a fold row, and nothing else. */
  lemma RepeatedShows(f: Fold)
    ensures WithoutFolds(Repeated(f).rows) == WithoutFolds(f.rows)
  {
    hide FoldRow, IsFold;
    var row := FoldRow(f.repeats + 2);
    FoldRowIsFold(f.repeats + 2);
    var kept := if f.rows != [] && IsFold(f.rows[|f.rows| - 1]) then f.rows[..|f.rows| - 1] else f.rows;
    WithoutFoldsConcat(kept, [row]);
    assert WithoutFolds([row]) == [] by {
      assert [row][..0] == [];
    }
  }

  /** The state of the fold is what the entries tell. */
  ghost predicate Tells<Input>(
      style: Style<Input>, results: map<string, (string, bool)>, f: Fold, entries: seq<Entry<Input>>)
  {
    WithoutFolds(f.rows) == AllShown(style, results, entries) && f.header == RunHeader(style, results, entries)
  }

  lemma StepTells<Input>(
      style: Style<Input>, results: map<string, (string, bool)>, f: Fold, entries: seq<Entry<Input>>, entry: Entry<Input>)
    requires Tells(style, results, f, entries)
    ensures Tells(style, results, Step(style, results, f, entry), entries + [entry])
  {
    hide Paragraph, Header, Trim, BlockRows, IsFold, WithoutFolds, Repeated;
    var all := entries + [entry];
    assert all[..|entries|] == entries && all[|entries|] == entry;
    var shown := ShownBy(style, results, entries, entry);
    ShownHasNoFold(style, results, entries, entry);
    WithoutFoldsConcat(f.rows, shown);
    RepeatedShows(f);
    RepeatedKeepsHeader(f);
    assert f.rows + [] == f.rows && AllShown(style, results, entries) + [] == AllShown(style, results, entries);
  }

  lemma RepeatedKeepsHeader(f: Fold)
    ensures Repeated(f).header == f.header
  {
    hide FoldRow, IsFold;
  }

  lemma {:induction false} StepsTell<Input>(
      style: Style<Input>, results: map<string, (string, bool)>, entries: seq<Entry<Input>>)
    ensures Tells(style, results, Steps(style, results, Fold([], None, 0), entries), entries)
    decreases |entries|
  {
    hide Step, Tells;
    if entries == [] {
      NothingTold(style, results);
    } else {
      var front, last := entries[..|entries| - 1], entries[|entries| - 1];
      assert entries == front + [last];
      StepsTell(style, results, front);
      StepTells(style, results, Steps(style, results, Fold([], None, 0), front), front, last);
    }
  }

  lemma NothingTold<Input>(style: Style<Input>, results: map<string, (string, bool)>)
    ensures Tells(style, results, Fold([], None, 0), [])
  {
  }

  /** Apart from the rows that fold repetitions, a turn shows for each entry, in order, exactly what that entry
      shows of its own: nothing is dropped, added or moved, and a call is left to a fold row if and only if it
      goes on with a run of calls with its header. */
  lemma TurnShowsEachEntry<Input>(style: Style<Input>, entries: seq<Entry<Input>>)
    ensures WithoutFolds(TurnRows(style, entries)) == AllShown(style, Results(entries), entries)
  {
    hide Steps, AllShown, WithoutFolds;
    StepsTell(style, Results(entries), entries);
  }

  // ------------------------------------------------------------------------------------------
  // Results, blocks and paragraphs.

  ghost predicate LastResult<Input>(entries: seq<Entry<Input>>, id: string, i: nat)
    requires i < |entries|
  {
    && entries[i].ToolResult? && entries[i].callId == id
    && forall k :: i < k < |entries| ==> !(entries[k].ToolResult? && entries[k].callId == id)
  }

  /** A call has the last of the results given under its id. */
  lemma {:induction false} ResultIsLast<Input>(entries: seq<Entry<Input>>, id: string)
    ensures id in Results(entries) <==> exists i :: 0 <= i < |entries| && LastResult(entries, id, i)
    ensures forall i :: 0 <= i < |entries| && LastResult(entries, id, i) ==>
              id in Results(entries) && Results(entries)[id] == (entries[i].output, entries[i].isError)
    decreases |entries|
  {
    if entries != [] {
      var front, n := entries[..|entries| - 1], |entries| - 1;
      ResultIsLast(front, id);
      if entries[n].ToolResult? && entries[n].callId == id {
        assert LastResult(entries, id, n);
        assert forall i :: 0 <= i < n ==> !LastResult(entries, id, i);
      } else {
        assert forall i :: 0 <= i < n ==> (LastResult(entries, id, i) <==> LastResult(front, id, i));
      }
    }
  }

  /** A block shows its lines; only the last can be marked, where the text is still being streamed in it. */
  lemma BlockShowsLines(content: string, streaming: bool)
    ensures var rows, lines := BlockRows(content, streaming), Lines(content);
            var marked := streaming && content != "" && content[|content| - 1] != '\n';
            && |rows| == |lines|
            && forall i :: 0 <= i < |lines| ==>
                 rows[i] == if marked && i == |lines| - 1 then AssistantText(lines[i] + "|", true)
                            else AssistantText(lines[i], false)
  {
    hide Lines;
    TextRowsAre(Lines(content), streaming && content != "" && content[|content| - 1] != '\n');
  }

  lemma {:induction false} TextRowsAre(lines: seq<string>, streaming: bool)
    ensures var rows := TextRows(lines, streaming);
            && |rows| == |lines|
            && forall i :: 0 <= i < |lines| ==>
                 rows[i] == if streaming && i == |lines| - 1 then AssistantText(lines[i] + "|", true)
                            else AssistantText(lines[i], false)
  {
    if lines != [] {
      TextRowsAre(lines[1..], streaming);
      assert forall i :: 0 < i < |lines| ==> lines[i] == lines[1..][i - 1];
    }
  }

  /** A line of output is worth showing unless it is blank or only a number. */
  predicate Worth(line: string) {
    var shown := Trim(Shown(line));
    shown != "" && exists i :: 0 <= i < |shown| && !IsDigit(shown[i])
  }

  /** A line without the space at its end, tabs as spaces. */
  function Shown(line: string): (r: string)
    ensures |r| == |TrimEnd(line)|
    ensures forall i :: 0 <= i < |r| ==> r[i] == if TrimEnd(line)[i] == '\t' then ' ' else TrimEnd(line)[i]
  {
    var end := TrimEnd(line);
    seq(|end|, i requires 0 <= i < |end| => if end[i] == '\t' then ' ' else end[i])
  }

  lemma {:induction false} OutputLineByLine(before: seq<string>, line: string, after: seq<string>)
    ensures OutputLines(before + [line] + after) ==
            OutputLines(before) + (if Worth(line) then [Shown(line)] else []) + OutputLines(after)
  {
    hide Trim, TrimEnd, Shown;
    var all := before + [line] + after;
    if before == [] {
      assert all[0] == line && all[1..] == after;
      OutputLine(line, after);
    } else {
      assert all[0] == before[0] && all[1..] == before[1..] + [line] + after;
      OutputLineByLine(before[1..], line, after);
      OutputLine(before[0], all[1..]);
      OutputLine(before[0], before[1..]);
      assert before == [before[0]] + before[1..] && all == [before[0]] + all[1..];
    }
  }

  lemma OutputLine(line: string, rest: seq<string>)
    ensures OutputLines([line] + rest) == (if Worth(line) then [Shown(line)] else []) + OutputLines(rest)
  {
    hide Trim, TrimEnd;
    assert ([line] + rest)[1..] == rest;
    var end := TrimEnd(line);
    assert Shown(line) == seq(|end|, i requires 0 <= i < |end| => if end[i] == '\t' then ' ' else end[i]);
    assert AllDigits(Trim(Shown(line))) <==> !exists i :: 0 <= i < |Trim(Shown(line))| && !IsDigit(Trim(Shown(line))[i]);
  }

  predicate EndsWith(s: string, suffix: string) {
    |suffix| <= |s| && s[|s| - |suffix|..] == suffix
  }

  lemma HeaderParts(name: string, target: Option<string>, status: string)
    ensures name <= HeaderSummary(name, target, status)
    ensures EndsWith(HeaderSummary(name, target, status), " \U{b7} " + status)
    ensures target.Some? && target.value != "" ==>
              HeaderSummary(name, target, status) == name + " \U{b7} " + target.value + " \U{b7} " + status
  {
    var header := HeaderSummary(name, target, status);
    var tail := " \U{b7} " + status;
    var front := if target.Some? && target.value != "" then name + " \U{b7} " + target.value else name;
    assert header == front + tail;
    assert header[|header| - |tail|..] == tail;
  }

  /** The status a header ends in. */
  predicate Says(row: Row, name: string, status: string) {
    row.ToolHeader? && name <= row.text && EndsWith(row.text, " \U{b7} " + status)
  }

  /** The first line of an output that can be seen, or the status where there is none. */
  function Outcome<Input>(style: Style<Input>, output: string, isError: bool): Row {
    ToolDetail("Result: " + style.outcome(FirstLineOr(output, if isError then "failed" else COMPLETED_LABEL)))
  }

  lemma CompletedSays<Input>(style: Style<Input>, name: string, preview: string, output: string, isError: bool)
    ensures var rows := CompletedParagraph(style, name, preview, output, isError);
            && rows != [] && Says(rows[0], name, if isError then "failed" else "Response complete.")
            && exists i :: 0 < i <= |rows| && rows[i..] == [Outcome(style, output, isError)] + OutputRows(output)
  {
    hide HeaderSummary, EndsWith, OutputRows, PreviewRows, NonBlank, Lines, FirstLineOr;
    var status := if isError then "failed" else COMPLETED_LABEL;
    var fromOutput := style.target(FirstLineOr(output, status));
    HeaderParts(name, if fromOutput.Some? then fromOutput else style.target(preview), status);
    var lines := NonBlank(Lines(preview));
    var input := if lines != [] && lines[0] != "(no arguments)" then PreviewRows(lines) else [];
    var header, tail := ToolHeader(CompletedHeader(style, name, preview, output, isError)), OutputRows(output);
    var rows := CompletedParagraph(style, name, preview, output, isError);
    assert rows == ([header] + input) + ([Outcome(style, output, isError)] + tail);
    assert rows[|[header] + input|..] == [Outcome(style, output, isError)] + tail;
  }

  lemma PendingSays<Input>(style: Style<Input>, name: string, preview: string, status: ToolStatus)
    ensures var rows := PendingParagraph(style, name, preview, status);
            rows != [] && Says(rows[0], name, if status.WaitingApproval? then "awaiting approval" else PENDING_LABEL)
  {
    hide HeaderSummary, EndsWith, PreviewRows, NonBlank, Lines;
    HeaderParts(name, style.target(preview), if status.WaitingApproval? then "awaiting approval" else PENDING_LABEL);
  }

  /** What the paragraph of a call says: the name first, the status last, failed exactly if its result was an
      error; and below it, where there is a result, the outcome and the lines of the output. */
  lemma ParagraphSays<Input>(style: Style<Input>, results: map<string, (string, bool)>, call: Entry<Input>)
    requires call.ToolCall?
    ensures var rows := Paragraph(style, results, call);
            && rows != []
            && if call.id in results then
                 && Says(rows[0], call.name, if results[call.id].1 then "failed" else "Response complete.")
                 && exists i :: 0 < i <= |rows| &&
                      rows[i..] == [Outcome(style, results[call.id].0, results[call.id].1)] + OutputRows(results[call.id].0)
               else Says(rows[0], call.name, if call.status.WaitingApproval? then "awaiting approval" else PENDING_LABEL)
  {
    hide Says, CompletedParagraph, PendingParagraph, OutputRows, Outcome;
    var preview := style.preview(call.name, call.input);
    if call.id in results {
      CompletedSays(style, call.name, preview, results[call.id].0, results[call.id].1);
    } else {
      PendingSays(style, call.name, preview, call.status);
    }
  }

  /** At most three lines of output are shown, in order, and the others are counted. */
  lemma OutputShown(output: string)
    ensures var lines, rows := OutputLines(Lines(output)), OutputRows(output);
            && |rows| == (if |lines| <= 3 then |lines| else 4)
            && (forall i :: 0 <= i < |lines| && i < 3 ==> rows[i] == Evidence(lines[i]))
            && (|lines| > 3 ==> rows[3] == Evidence("+" + Decimal(|lines| - 3) + " more lines"))
  {
    hide OutputLines, Lines, Decimal;
  }
}
