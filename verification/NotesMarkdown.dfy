/** The notes file and the candidate store: reading the one, writing the other, and coming back. */
module NotesMarkdown {
  import opened Text
  import opened Wrappers
  import opened NoteLines

  datatype Source = User | Feedback | Project | Reference

  datatype Status = Pending | Accepted

  datatype Candidate = Candidate(source: Source, topic: string, body: string, status: Status, sourceReference: string)

  const MAX_TOPIC_CHARS: nat := 48

  function TopicFrom(body: string): string {
    var trimmed := Trim(body);
    if |trimmed| <= MAX_TOPIC_CHARS then trimmed else trimmed[..MAX_TOPIC_CHARS] + "..."
  }

  /** The topic is the text itself without its margin, cut after 48 characters, which three dots then mark. */
  lemma TopicIs(body: string)
    ensures |TopicFrom(body)| <= MAX_TOPIC_CHARS + 3
    ensures |Trim(body)| <= MAX_TOPIC_CHARS ==> TopicFrom(body) == Trim(body)
    ensures forall i :: 0 <= i < MAX_TOPIC_CHARS && i < |Trim(body)| ==>
              i < |TopicFrom(body)| && TopicFrom(body)[i] == Trim(body)[i]
    ensures |Trim(body)| > MAX_TOPIC_CHARS ==> TopicFrom(body)[MAX_TOPIC_CHARS..] == "..."
  {
    hide Trim;
  }

  const AUTO_REFERENCE := "auto:"
  const FILE_REFERENCE := "memory.md"

  function AutoCandidate(timestamp: string, body: string): Candidate {
    Candidate(Feedback, TopicFrom(body), body, Pending, AUTO_REFERENCE + timestamp)
  }

  function UserCandidate(body: string): Candidate {
    Candidate(User, TopicFrom(body), body, Accepted, FILE_REFERENCE)
  }

  /** What a line that is not blank becomes. */
  function CandidateOf(trimmed: string): Candidate {
    if IsAutoNoteLine(trimmed) then AutoCandidate(ParseAutoTimestamp(trimmed), StripAutoNoteBody(trimmed))
    else UserCandidate(trimmed)
  }

  predicate Blank(line: string) {
    Trim(line) == ""
  }

  function MigrateLine(line: string): seq<Candidate> {
    if Blank(line) then [] else [CandidateOf(Trim(line))]
  }

  function MigrateLines(lines: seq<string>): seq<Candidate> {
    FlatMap(MigrateLine, lines)
  }

  function Migrate(content: string): seq<Candidate> {
    MigrateLines(Lines(content))
  }

  method MigrateMarkdownLines(content: string) returns (out: seq<Candidate>)
    ensures out == Migrate(content)
  {
    hide FlatMap, IsAutoNoteLine, StripAutoNoteBody, ParseAutoTimestamp, Trim, TopicFrom;
    var lines := Lines(content);
    out := [];
    MigrateNothing();
    for i := 0 to |lines|
      invariant out == MigrateLines(lines[..i])
    {
      assert lines[..i + 1] == lines[..i] + [lines[i]];
      FlatMapSnoc(MigrateLine, lines[..i], lines[i]);
      var trimmed := Trim(lines[i]);
      if trimmed == "" {
        continue;
      }
      if IsAutoNoteLine(trimmed) {
        var body := StripAutoNoteBody(trimmed);
        var timestamp := ParseAutoTimestamp(trimmed);
        out := out + [Candidate(Feedback, TopicFrom(body), body, Pending, AUTO_REFERENCE + timestamp)];
      } else {
        out := out + [Candidate(User, TopicFrom(trimmed), trimmed, Accepted, FILE_REFERENCE)];
      }
    }
    assert lines[..|lines|] == lines;
  }

  lemma MigrateNothing()
    ensures MigrateLines([]) == []
  {
  }

  // ------------------------------------------------------------------------------------------
  // Writing the store back.

  /** The line a candidate is written as. */
  function RenderedLine(c: Candidate): string {
    if c.source == Feedback then
      if AUTO_REFERENCE <= c.sourceReference then AutoLine(c.sourceReference[|AUTO_REFERENCE|..], c.body)
      else AutoLine("0", c.body)
    else c.body
  }

  function TerminatedLine(c: Candidate): string {
    RenderedLine(c) + "\n"
  }

  function Render(candidates: seq<Candidate>): string {
    FlatMap(TerminatedLine, candidates)
  }

  method RenderNotesMarkdown(candidates: seq<Candidate>) returns (out: string)
    ensures out == Render(candidates)
  {
    hide FlatMap;
    RenderNothing();
    if candidates == [] {
      return "";
    }
    out := "";
    for i := 0 to |candidates|
      invariant out == Render(candidates[..i])
    {
      var c := candidates[i];
      assert candidates[..i + 1] == candidates[..i] + [c];
      FlatMapSnoc(TerminatedLine, candidates[..i], c);
      match c.source {
        case Feedback =>
          if AUTO_REFERENCE <= c.sourceReference {
            out := out + AutoLine(c.sourceReference[|AUTO_REFERENCE|..], c.body) + "\n";
          } else {
            out := out + AutoLine("0", c.body) + "\n";
          }
        case _ =>
          out := out + c.body + "\n";
      }
    }
    assert candidates[..|candidates|] == candidates;
  }

  lemma RenderNothing()
    ensures Render([]) == ""
  {
  }

  // ------------------------------------------------------------------------------------------
  // The round trip.

  predicate EndsVisibly(s: string) {
    s != "" && !IsWhitespace(s[|s| - 1])
  }

  /** The candidates a notes file can hold: what can be checked before writing one. */
  predicate Projectable(c: Candidate) {
    && c.topic == TopicFrom(c.body) && Lacks(c.body, '\n') && EndsVisibly(c.body)
    && match c.source
       case Feedback =>
         && c.status == Pending && AUTO_REFERENCE < c.sourceReference
         && AllDigits(c.sourceReference[|AUTO_REFERENCE|..])
       case User =>
         && c.status == Accepted && c.sourceReference == FILE_REFERENCE
         && !IsWhitespace(c.body[0]) && !IsAutoNoteLine(c.body)
       case _ => false
  }

  lemma AutoLineEnds(timestamp: string, note: string)
    requires AllDigits(timestamp) && Lacks(note, '\n')
    ensures Lacks(AutoLine(timestamp, note), '\n') && AutoLine(timestamp, note)[0] == '['
    ensures EndsVisibly(AutoLine(timestamp, note)) <==> EndsVisibly(note)
  {
  }

  lemma VisibleIsTrimmed(s: string)
    requires EndsVisibly(s) && !IsWhitespace(s[0])
    ensures Trim(s) == s && DropCarriageReturn(s) == s
  {
    TrimIsTrimmed(s);
  }

  /** A projectable candidate is written as one line that is read back as that candidate. */
  lemma ProjectableLine(c: Candidate)
    requires Projectable(c)
    ensures var line := RenderedLine(c);
            Lacks(line, '\n') && DropCarriageReturn(line) == line && Trim(line) == line != "" && CandidateOf(line) == c
  {
    hide TopicFrom, IsAutoNoteLine, StripAutoNoteBody, ParseAutoTimestamp, AutoLine, Trim, DropCarriageReturn;
    if c.source == Feedback {
      var timestamp := c.sourceReference[|AUTO_REFERENCE|..];
      assert c.sourceReference == AUTO_REFERENCE + timestamp;
      AutoLineEnds(timestamp, c.body);
      AutoNoteRoundTrip(timestamp, c.body);
    }
    VisibleIsTrimmed(RenderedLine(c));
  }

  lemma TrimLacks(s: string, c: char)
    requires Lacks(s, c)
    ensures Lacks(Trim(s), c)
  {
    TrimStartKeeps(s);
    TrimEndKeeps(TrimStart(s));
  }

  /** Every line read becomes a projectable candidate. */
  lemma CandidateIsProjectable(line: string)
    requires Lacks(line, '\n') && !Blank(line)
    ensures Projectable(CandidateOf(Trim(line)))
  {
    hide TopicFrom, IsAutoNoteLine, StripAutoNoteBody, ParseAutoTimestamp, AutoLine, Trim, TrimStart;
    var trimmed := Trim(line);
    TrimLacks(line, '\n');
    TrimIsTrimmed(line);
    if IsAutoNoteLine(trimmed) {
      AutoLineFromParts(trimmed);
      var timestamp, note := ParseAutoTimestamp(trimmed), StripAutoNoteBody(trimmed);
      TrimStartOfTrimmed(trimmed);
      AutoLineParts(timestamp, note);
      assert (AUTO_REFERENCE + timestamp)[|AUTO_REFERENCE|..] == timestamp;
    }
  }

  lemma AutoLineParts(timestamp: string, note: string)
    requires Lacks(AutoLine(timestamp, note), '\n') && EndsVisibly(AutoLine(timestamp, note))
    ensures Lacks(note, '\n') && EndsVisibly(note)
  {
    var line := AutoLine(timestamp, note);
    var offset := |line| - |note|;
    assert forall i :: 0 <= i < |note| ==> note[i] == line[offset + i];
    assert line[|line| - 1] == if note == "" then ' ' else note[|note| - 1];
  }

  lemma {:induction false} MigratedIsProjectable(lines: seq<string>)
    requires forall i :: 0 <= i < |lines| ==> Lacks(lines[i], '\n')
    ensures forall i :: 0 <= i < |MigrateLines(lines)| ==> Projectable(MigrateLines(lines)[i])
  {
    hide Projectable, CandidateOf;
    if lines != [] {
      var first, rest := MigrateLine(lines[0]), MigrateLines(lines[1..]);
      if !Blank(lines[0]) {
        CandidateIsProjectable(lines[0]);
      }
      MigratedIsProjectable(lines[1..]);
      assert MigrateLines(lines) == first + rest;
      assert forall i :: 0 <= i < |first + rest| ==>
                           (first + rest)[i] == if i < |first| then first[i] else rest[i - |first|];
    }
  }

  lemma {:induction false} ProjectableRoundTrip(candidates: seq<Candidate>)
    requires forall i :: 0 <= i < |candidates| ==> Projectable(candidates[i])
    ensures Migrate(Render(candidates)) == candidates
  {
    hide Projectable, CandidateOf, RenderedLine, Trim, DropCarriageReturn, Lines;
    if candidates == [] {
      assert Lines("") == [] by { LinesOfNothing(); }
    } else {
      var c, rest := candidates[0], candidates[1..];
      ProjectableLine(c);
      LinesCons(RenderedLine(c), Render(rest));
      ProjectableRoundTrip(rest);
      FlatMapCons(MigrateLine, RenderedLine(c), Lines(Render(rest)));
    }
  }

  lemma LinesOfNothing()
    ensures Lines("") == []
  {
  }

  /** Reading a notes file, writing the store back and reading again changes nothing, for every text. */
  lemma MigrateRenderMigrate(content: string)
    ensures Migrate(Render(Migrate(content))) == Migrate(content)
  {
    hide Projectable, Lines;
    LinesLackLineFeeds(content);
    MigratedIsProjectable(Lines(content));
    ProjectableRoundTrip(Migrate(content));
  }

  /** A store survives being written out and read back exactly when every candidate is projectable. */
  lemma RenderMigrateIff(candidates: seq<Candidate>)
    ensures Migrate(Render(candidates)) == candidates <==>
            forall i :: 0 <= i < |candidates| ==> Projectable(candidates[i])
  {
    hide Projectable, Lines;
    if Migrate(Render(candidates)) == candidates {
      LinesLackLineFeeds(Render(candidates));
      MigratedIsProjectable(Lines(Render(candidates)));
    } else if forall i :: 0 <= i < |candidates| ==> Projectable(candidates[i]) {
      ProjectableRoundTrip(candidates);
    }
  }

  /** What any candidate is read back as: a note extracted from an answer keeps its stamp, if it has one, and
      every other becomes an accepted note of the user. */
  function ReadBack(c: Candidate): Candidate {
    if c.source != Feedback then UserCandidate(c.body)
    else if AUTO_REFERENCE <= c.sourceReference then AutoCandidate(c.sourceReference[|AUTO_REFERENCE|..], c.body)
    else AutoCandidate("0", c.body)
  }

  function AllReadBack(candidates: seq<Candidate>): seq<Candidate> {
    if candidates == [] then [] else [ReadBack(candidates[0])] + AllReadBack(candidates[1..])
  }

  lemma SameLine(c: Candidate)
    ensures RenderedLine(ReadBack(c)) == RenderedLine(c)
  {
    hide TopicFrom, AutoLine;
    if c.source == Feedback {
      var stamp := if AUTO_REFERENCE <= c.sourceReference then c.sourceReference[|AUTO_REFERENCE|..] else "0";
      assert (AUTO_REFERENCE + stamp)[|AUTO_REFERENCE|..] == stamp;
    }
  }

  lemma {:induction false} SameText(candidates: seq<Candidate>)
    ensures Render(AllReadBack(candidates)) == Render(candidates) && |AllReadBack(candidates)| == |candidates|
    ensures forall i :: 0 <= i < |candidates| ==> AllReadBack(candidates)[i] == ReadBack(candidates[i])
  {
    hide ReadBack, RenderedLine;
    if candidates != [] {
      SameText(candidates[1..]);
      SameLine(candidates[0]);
      FlatMapCons(TerminatedLine, ReadBack(candidates[0]), AllReadBack(candidates[1..]));
    }
  }

  /** A store of any candidates whose bodies a line can hold is read back candidate by candidate. */
  lemma ReadBackIff(candidates: seq<Candidate>)
    ensures Migrate(Render(candidates)) == AllReadBack(candidates) <==>
            forall i :: 0 <= i < |candidates| ==> Projectable(ReadBack(candidates[i]))
  {
    hide Projectable, ReadBack, Migrate, Render;
    SameText(candidates);
    RenderMigrateIff(AllReadBack(candidates));
  }

  // ------------------------------------------------------------------------------------------
  // A note added by command.

  const ADD_REFERENCE := "/memory add"

  function AddedNote(note: string): Candidate {
    Candidate(User, TopicFrom(note), note, Accepted, ADD_REFERENCE)
  }

  /** No store with such a note in it is what its notes file reads back as. */
  lemma AddedNoteNotReadBack(store: seq<Candidate>, note: string)
    requires AddedNote(note) in store
    ensures Migrate(Render(store)) != store
  {
    hide TopicFrom, Lacks, Migrate, Render, EndsVisibly;
    RenderMigrateIff(store);
    var i :| 0 <= i < |store| && store[i] == AddedNote(note);
    assert !Projectable(store[i]);
  }

  /** Behind a store that does read back, nothing but the reference of the note changes, exactly when the
      note is one visible line without a margin that does not look like an extracted note. */
  lemma AddedNoteReadsBackIff(store: seq<Candidate>, note: string)
    requires Migrate(Render(store)) == store
    ensures Migrate(Render(store + [AddedNote(note)])) == store + [UserCandidate(note)] <==>
            Lacks(note, '\n') && EndsVisibly(note) && !IsWhitespace(note[0]) && !IsAutoNoteLine(note)
  {
    hide TopicFrom, Lacks, Migrate, EndsVisibly, IsAutoNoteLine, IsWhitespace, FlatMap;
    var read := store + [UserCandidate(note)];
    FlatMapSnoc(TerminatedLine, store, AddedNote(note));
    FlatMapSnoc(TerminatedLine, store, UserCandidate(note));
    RenderMigrateIff(store);
    RenderMigrateIff(read);
    assert read[|store|] == UserCandidate(note);
    assert forall i :: 0 <= i < |store| ==> read[i] == store[i];
  }

  /** `add_user_note`: the note goes behind the store, and the file stops mirroring it. */
  method AddUserNote(store: seq<Candidate>, note: string) returns (candidates: seq<Candidate>, file: string)
    ensures candidates == store + [AddedNote(note)] && file == Render(candidates)
    ensures Migrate(file) != candidates
  {
    hide TopicFrom, Migrate, Render;
    candidates := store + [Candidate(User, TopicFrom(note), note, Accepted, ADD_REFERENCE)];
    assert candidates[|store|] == AddedNote(note);
    AddedNoteNotReadBack(candidates, note);
    file := RenderNotesMarkdown(candidates);
  }

  function NotBlank(lines: seq<string>): seq<string> {
    if lines == [] then []
    else (if Blank(lines[0]) then [] else [lines[0]]) + NotBlank(lines[1..])
  }

  /** One candidate for each line that is not blank, in order, and nothing of such a line but its margin
      is lost: the candidate is written out again as the line without the white space around it. */
  lemma {:induction false} OneCandidatePerLine(lines: seq<string>, i: nat)
    requires i < |NotBlank(lines)|
    ensures |MigrateLines(lines)| == |NotBlank(lines)|
    ensures RenderedLine(MigrateLines(lines)[i]) == Trim(NotBlank(lines)[i])
  {
    hide CandidateOf, RenderedLine, Trim;
    var first, rest := lines[0], lines[1..];
    if !Blank(first) {
      CandidateKeepsText(first);
    }
    if i > 0 || Blank(first) {
      OneCandidatePerLine(rest, if Blank(first) then i else i - 1);
    } else {
      SameCount(rest);
    }
  }

  lemma SameCount(lines: seq<string>)
    ensures |MigrateLines(lines)| == |NotBlank(lines)|
  {
  }

  lemma CandidateKeepsText(line: string)
    ensures RenderedLine(CandidateOf(Trim(line))) == Trim(line)
  {
    hide TopicFrom, IsAutoNoteLine, StripAutoNoteBody, ParseAutoTimestamp, AutoLine, Trim, TrimStart;
    var trimmed := Trim(line);
    TrimIsTrimmed(line);
    if IsAutoNoteLine(trimmed) {
      AutoLineFromParts(trimmed);
      RenderedAuto(ParseAutoTimestamp(trimmed), StripAutoNoteBody(trimmed));
      TrimStartOfTrimmed(trimmed);
    }
  }

  lemma RenderedAuto(timestamp: string, body: string)
    ensures RenderedLine(AutoCandidate(timestamp, body)) == AutoLine(timestamp, body)
  {
    hide TopicFrom, AutoLine;
    assert (AUTO_REFERENCE + timestamp)[|AUTO_REFERENCE|..] == timestamp;
  }
}
