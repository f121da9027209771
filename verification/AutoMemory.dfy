/** Notes taken out of a model's answer, stamped, and appended to the candidate store. */
module AutoMemory {
  import opened Text
  import opened Wrappers
  import opened NoteLines
  import opened NotesMarkdown

  predicate ContainsAny(s: string, patterns: seq<string>) {
    exists i :: 0 <= i < |patterns| && Contains(s, patterns[i])
  }

  predicate StartsWithAny(s: string, patterns: seq<string>) {
    exists i :: 0 <= i < |patterns| && patterns[i] <= s
  }

  /** What follows a bullet; whether a character is alphanumeric is left open. */
  function StripBulletPrefix(line: string, alphanumeric: char -> bool): Option<string> {
    if "- " <= line || "* " <= line then Some(line[2..])
    else if line != "" && !alphanumeric(line[0]) && !IsWhitespace(line[0]) && " " <= line[1..] then
      Some(TrimStart(line[1..]))
    else None
  }

  predicate IsNumbered(trimmed: string) {
    var split := SplitOnce(trimmed, ". ");
    split.Some? && AllDigits(split.value.0)
  }

  predicate IsKeyValue(trimmed: string) {
    Contains(trimmed, ": ") && !("//" <= trimmed) && !ContainsAny(trimmed, ["::", "{", "}", "[", "]", "`", ";"])
  }

  predicate LooksStructured(content: string) {
    || ContainsAny(content, ["```", "{", "}", "[", "]", "`", "::", ";"])
    || StartsWithAny(content, ["fn ", "let ", "pub ", "impl "])
  }

  /** The note a trimmed line outside a code block holds, if any. */
  function NoteOf(trimmed: string, alphanumeric: char -> bool): Option<string> {
    var bullet := StripBulletPrefix(trimmed, alphanumeric);
    if bullet.Some? || IsNumbered(trimmed) || IsKeyValue(trimmed) then
      var content := if bullet.Some? then Trim(bullet.value) else trimmed;
      if content != "" && !LooksStructured(content) then Some(content) else None
    else None
  }

  /** All notes of a response, whatever their number: nothing is taken from inside a fenced block. */
  function AllNotes(lines: seq<string>, inCodeBlock: bool, alphanumeric: char -> bool): seq<string> {
    if lines == [] then []
    else
      var trimmed, rest := Trim(lines[0]), lines[1..];
      if "```" <= trimmed then AllNotes(rest, !inCodeBlock, alphanumeric)
      else if inCodeBlock || trimmed == "" then AllNotes(rest, inCodeBlock, alphanumeric)
      else
        var note := NoteOf(trimmed, alphanumeric);
        var later := AllNotes(rest, inCodeBlock, alphanumeric);
        if note.Some? then [note.value] + later else later
  }

  method ExtractNotesFromTurn(response: string, maxNotes: nat, alphanumeric: char -> bool) returns (notes: seq<string>)
    ensures notes == Take(NotesUpTo(Lines(response), |Lines(response)|, alphanumeric), maxNotes)
  {
    NotesAreLineByLine(Lines(response), alphanumeric);
    hide NoteOf, Trim, Lines;
    if maxNotes == 0 {
      return [];
    }
    var lines := Lines(response);
    notes := [];
    var inCodeBlock := false;
    assert lines[0..] == lines;
    for i := 0 to |lines|
      invariant |notes| < maxNotes
      invariant notes + AllNotes(lines[i..], inCodeBlock, alphanumeric) == AllNotes(lines, false, alphanumeric)
    {
      assert lines[i..][1..] == lines[i + 1..];
      var trimmed := Trim(lines[i]);
      if "```" <= trimmed {
        inCodeBlock := !inCodeBlock;
        continue;
      }
      if inCodeBlock {
        continue;
      }
      if trimmed == "" {
        continue;
      }
      var note := NoteOf(trimmed, alphanumeric);
      ghost var rest := AllNotes(lines[i + 1..], inCodeBlock, alphanumeric);
      if note.Some? {
        Associates(notes, [note.value], rest);
        notes := notes + [note.value];
      }
      if |notes| >= maxNotes {
        assert notes == (notes + rest)[..maxNotes];
        return;
      }
    }
  }

  // ------------------------------------------------------------------------------------------
  // Which lines are notes.

  predicate IsFence(line: string) {
    "```" <= Trim(line)
  }

  function Fences(lines: seq<string>): nat {
    if lines == [] then 0 else Fences(lines[..|lines| - 1]) + if IsFence(lines[|lines| - 1]) then 1 else 0
  }

  /** The note line `i` gives: none inside a fenced block, which an odd number of fences before it opens. */
  function NoteAt(lines: seq<string>, i: nat, alphanumeric: char -> bool): Option<string>
    requires i < |lines|
  {
    if Fences(lines[..i]) % 2 == 1 || IsFence(lines[i]) then None else NoteOf(Trim(lines[i]), alphanumeric)
  }

  /** The notes of the first `n` lines, line by line. */
  function NotesUpTo(lines: seq<string>, n: nat, alphanumeric: char -> bool): seq<string>
    requires n <= |lines|
  {
    if n == 0 then []
    else
      NotesUpTo(lines, n - 1, alphanumeric) +
      (var note := NoteAt(lines, n - 1, alphanumeric); if note.Some? then [note.value] else [])
  }

  lemma BlankIsNoNote(alphanumeric: char -> bool)
    ensures NoteOf("", alphanumeric) == None
  {
    assert Contains("", ": ") == false;
  }

  lemma {:induction false} NotesFrom(lines: seq<string>, n: nat, alphanumeric: char -> bool)
    requires n <= |lines|
    ensures NotesUpTo(lines, n, alphanumeric) + AllNotes(lines[n..], Fences(lines[..n]) % 2 == 1, alphanumeric) ==
            AllNotes(lines, false, alphanumeric)
  {
    hide NoteOf, Trim;
    if n == 0 {
      assert lines[0..] == lines && lines[..0] == [];
    } else {
      NotesFrom(lines, n - 1, alphanumeric);
      BlankIsNoNote(alphanumeric);
      assert lines[n - 1..][1..] == lines[n..] && lines[..n][..n - 1] == lines[..n - 1];
      var before, note := NotesUpTo(lines, n - 1, alphanumeric), NoteAt(lines, n - 1, alphanumeric);
      if note.Some? {
        Associates(before, [note.value], AllNotes(lines[n..], Fences(lines[..n]) % 2 == 1, alphanumeric));
      } else {
        assert before + [] == before;
      }
    }
  }

  /** The notes of a response are those of its lines outside fenced blocks, in order. */
  lemma NotesAreLineByLine(lines: seq<string>, alphanumeric: char -> bool)
    ensures AllNotes(lines, false, alphanumeric) == NotesUpTo(lines, |lines|, alphanumeric)
  {
    NotesFrom(lines, |lines|, alphanumeric);
    assert lines[|lines|..] == [];
  }

  /** None of the marks of code in it. */
  predicate Prose(s: string) {
    && (forall i :: 0 <= i < |s| ==> s[i] !in "{}[]`;")
    && (forall i :: 0 <= i < |s| - 1 ==> !(s[i] == ':' && s[i + 1] == ':'))
  }

  /** A list item: a bullet or any other mark before a space. */
  predicate Bulleted(trimmed: string, alphanumeric: char -> bool) {
    |trimmed| >= 2 && trimmed[1] == ' ' &&
    (trimmed[0] in "-*" || (!alphanumeric(trimmed[0]) && !IsWhitespace(trimmed[0])))
  }

  /** Digits, a full stop and a space to begin with. */
  ghost predicate NumberedItem(trimmed: string) {
    exists n :: 0 <= n && n + 2 <= |trimmed| && AllDigits(trimmed[..n]) && trimmed[n] == '.' && trimmed[n + 1] == ' '
  }

  /** A colon and a space somewhere, in prose that is no comment. */
  ghost predicate Labelled(trimmed: string) {
    && (exists i :: 0 <= i < |trimmed| - 1 && trimmed[i] == ':' && trimmed[i + 1] == ' ')
    && !("//" <= trimmed) && Prose(trimmed)
  }

  predicate Keyword(s: string) {
    "fn " <= s || "let " <= s || "pub " <= s || "impl " <= s
  }

  /** A line is a note exactly when it is a list item, numbered or labelled, and its text is prose that does
      not begin like code; the text of a list item is what follows its mark. */
  lemma NoteIff(trimmed: string, alphanumeric: char -> bool, note: string)
    ensures NoteOf(trimmed, alphanumeric) == Some(note) <==>
            && note != "" && Prose(note) && !Keyword(note)
            && (if Bulleted(trimmed, alphanumeric) then note == Trim(trimmed[2..])
                else (NumberedItem(trimmed) || Labelled(trimmed)) && note == trimmed)
  {
    hide Contains, Trim, TrimStart, SplitOnce;
    BulletIs(trimmed, alphanumeric);
    NumberedIs(trimmed);
    LabelledIs(trimmed);
    StructuredIs(note);
    var content := if Bulleted(trimmed, alphanumeric) then Trim(trimmed[2..]) else trimmed;
    StructuredIs(content);
    hide StripBulletPrefix, IsNumbered, IsKeyValue, LooksStructured, Prose, Keyword, Bulleted, NumberedItem, Labelled;
  }

  lemma BulletIs(trimmed: string, alphanumeric: char -> bool)
    ensures StripBulletPrefix(trimmed, alphanumeric).Some? <==> Bulleted(trimmed, alphanumeric)
    ensures Bulleted(trimmed, alphanumeric) ==>
              Trim(StripBulletPrefix(trimmed, alphanumeric).value) == Trim(trimmed[2..])
  {
    hide Trim;
    if Bulleted(trimmed, alphanumeric) {
      var rest := trimmed[1..];
      assert rest[0] == ' ' && rest[1..] == trimmed[2..];
      TrimOfTrimStart(trimmed[2..]);
      assert TrimStart(rest) == TrimStart(trimmed[2..]);
    }
  }

  lemma TrimOfTrimStart(s: string)
    ensures Trim(TrimStart(s)) == Trim(s)
  {
    TrimStartKeeps(s);
    TrimStartTwice(s);
  }

  lemma TrimStartTwice(s: string)
    ensures TrimStart(TrimStart(s)) == TrimStart(s)
  {
  }

  lemma NumberedIs(trimmed: string)
    ensures IsNumbered(trimmed) <==> NumberedItem(trimmed)
  {
    hide FirstIndex;
    if IsNumbered(trimmed) {
      var before := SplitOnce(trimmed, ". ").value.0;
      var n := |before|;
      assert trimmed[..n] == before && trimmed[n..n + 2] == ". ";
      assert trimmed[n] == trimmed[n..n + 2][0] && trimmed[n + 1] == trimmed[n..n + 2][1];
    }
    if NumberedItem(trimmed) {
      var n :| 0 <= n && n + 2 <= |trimmed| && AllDigits(trimmed[..n]) && trimmed[n] == '.' && trimmed[n + 1] == ' ';
      assert trimmed == trimmed[..n] + ". " + trimmed[n + 2..];
      SplitOnceAfter(trimmed[..n], ". ", trimmed[n + 2..]);
    }
  }

  lemma PairIs(s: string, a: char, b: char)
    ensures Contains(s, [a, b]) <==> exists i :: 0 <= i < |s| - 1 && s[i] == a && s[i + 1] == b
  {
    ContainsIff(s, [a, b]);
    if Within([a, b], s) {
      var i, j :| 0 <= i <= j <= |s| && s[i..j] == [a, b];
      assert s[i] == s[i..j][0] && s[i + 1] == s[i..j][1];
    }
    if i :| 0 <= i < |s| - 1 && s[i] == a && s[i + 1] == b {
      assert s[i..i + 2] == [a, b];
    }
  }

  lemma SingleIs(s: string, a: char)
    ensures Contains(s, [a]) <==> !Lacks(s, a)
  {
    ContainsIff(s, [a]);
    if Within([a], s) {
      var i, j :| 0 <= i <= j <= |s| && s[i..j] == [a];
      assert s[i] == s[i..j][0];
    }
    if !Lacks(s, a) {
      var i :| 0 <= i < |s| && s[i] == a;
      assert s[i..i + 1] == [a];
    }
  }

  /** The marks of code, told one by one. */
  lemma CodeMarks(s: string)
    ensures Prose(s) <==> !ContainsAny(s, ["::", "{", "}", "[", "]", "`", ";"])
    ensures Contains(s, "```") ==> !Prose(s)
  {
    hide Contains;
    PairIs(s, ':', ':');
    SingleIs(s, '{');
    SingleIs(s, '}');
    SingleIs(s, '[');
    SingleIs(s, ']');
    SingleIs(s, '`');
    SingleIs(s, ';');
    ContainsIff(s, "```");
    if Contains(s, "```") {
      var i, j :| 0 <= i <= j <= |s| && s[i..j] == "```";
      assert s[i] == s[i..j][0];
    }
    AnyOfSeven(s, "::", "{", "}", "[", "]", "`", ";");
  }

  lemma AnyOfSeven(s: string, a: string, b: string, c: string, d: string, e: string, f: string, g: string)
    ensures ContainsAny(s, [a, b, c, d, e, f, g]) <==>
            Contains(s, a) || Contains(s, b) || Contains(s, c) || Contains(s, d) || Contains(s, e) || Contains(s, f) ||
            Contains(s, g)
  {
    hide Contains;
    var patterns := [a, b, c, d, e, f, g];
    assert patterns[0] == a && patterns[1] == b && patterns[2] == c && patterns[3] == d;
    assert patterns[4] == e && patterns[5] == f && patterns[6] == g;
  }

  lemma AnyOfEight(s: string, a: string, b: string, c: string, d: string, e: string, f: string, g: string, h: string)
    ensures ContainsAny(s, [a, b, c, d, e, f, g, h]) <==>
            Contains(s, a) || Contains(s, b) || Contains(s, c) || Contains(s, d) || Contains(s, e) || Contains(s, f) ||
            Contains(s, g) || Contains(s, h)
  {
    hide Contains;
    var patterns := [a, b, c, d, e, f, g, h];
    assert patterns[0] == a && patterns[1] == b && patterns[2] == c && patterns[3] == d;
    assert patterns[4] == e && patterns[5] == f && patterns[6] == g && patterns[7] == h;
  }

  lemma LabelledIs(trimmed: string)
    ensures IsKeyValue(trimmed) <==> Labelled(trimmed)
  {
    hide Contains, ContainsAny, Prose;
    PairIs(trimmed, ':', ' ');
    CodeMarks(trimmed);
  }

  lemma StructuredIs(content: string)
    ensures LooksStructured(content) <==> !Prose(content) || Keyword(content)
  {
    hide Contains, ContainsAny, Prose;
    CodeMarks(content);
    AnyOfEight(content, "```", "{", "}", "[", "]", "`", "::", ";");
    AnyOfSeven(content, "::", "{", "}", "[", "]", "`", ";");
    var keywords := ["fn ", "let ", "pub ", "impl "];
    assert keywords[0] == "fn " && keywords[1] == "let " && keywords[2] == "pub " && keywords[3] == "impl ";
  }

  /** `append_feedback_notes`: each formatted line is taken apart into a pending candidate. */
  method AppendFeedbackNotes(store: seq<Candidate>, formattedLines: seq<string>) returns (candidates: seq<Candidate>)
    ensures |candidates| == |store| + |formattedLines| && store <= candidates
    ensures forall i :: 0 <= i < |formattedLines| ==>
              candidates[|store| + i] ==
              AutoCandidate(ParseAutoTimestamp(formattedLines[i]), StripAutoNoteBody(formattedLines[i]))
  {
    hide TopicFrom, ParseAutoTimestamp, StripAutoNoteBody;
    candidates := store;
    for i := 0 to |formattedLines|
      invariant |candidates| == |store| + i && store <= candidates
      invariant forall j :: 0 <= j < i ==>
                  candidates[|store| + j] ==
                  AutoCandidate(ParseAutoTimestamp(formattedLines[j]), StripAutoNoteBody(formattedLines[j]))
    {
      var body := StripAutoNoteBody(formattedLines[i]);
      var timestamp := ParseAutoTimestamp(formattedLines[i]);
      candidates := candidates + [Candidate(Feedback, TopicFrom(body), body, Pending, AUTO_REFERENCE + timestamp)];
    }
  }

  // ------------------------------------------------------------------------------------------
  // From the answer to the file and back.

  predicate IsNote(note: string) {
    note != "" && Trimmed(note) && Lacks(note, '\n')
  }

  lemma BulletLacks(line: string, alphanumeric: char -> bool, c: char)
    requires Lacks(line, c)
    ensures StripBulletPrefix(line, alphanumeric).Some? ==> Lacks(StripBulletPrefix(line, alphanumeric).value, c)
  {
    if line != "" {
      TrimStartKeeps(line[1..]);
    }
  }

  lemma NoteOfIsNote(line: string, alphanumeric: char -> bool)
    requires Lacks(line, '\n')
    ensures NoteOf(Trim(line), alphanumeric).Some? ==> IsNote(NoteOf(Trim(line), alphanumeric).value)
  {
    hide StripBulletPrefix, IsNumbered, IsKeyValue, LooksStructured, Trim;
    var trimmed := Trim(line);
    TrimLacks(line, '\n');
    TrimIsTrimmed(line);
    BulletLacks(trimmed, alphanumeric, '\n');
    var bullet := StripBulletPrefix(trimmed, alphanumeric);
    if bullet.Some? {
      TrimLacks(bullet.value, '\n');
      TrimIsTrimmed(bullet.value);
    }
  }

  lemma {:induction false} AllNotesAreNotes(lines: seq<string>, inCodeBlock: bool, alphanumeric: char -> bool)
    requires forall i :: 0 <= i < |lines| ==> Lacks(lines[i], '\n')
    ensures forall i :: 0 <= i < |AllNotes(lines, inCodeBlock, alphanumeric)| ==>
              IsNote(AllNotes(lines, inCodeBlock, alphanumeric)[i])
  {
    hide IsNote, NoteOf, Trim, Lacks;
    if lines != [] {
      NoteOfIsNote(lines[0], alphanumeric);
      AllNotesAreNotes(lines[1..], !inCodeBlock, alphanumeric);
      AllNotesAreNotes(lines[1..], inCodeBlock, alphanumeric);
    }
  }

  lemma StampedNoteIsProjectable(note: string, timestampSeconds: nat)
    requires IsNote(note)
    ensures Projectable(AutoCandidate(Decimal(timestampSeconds), note))
  {
    hide TopicFrom, IsAutoNoteLine, Decimal;
    var timestamp := Decimal(timestampSeconds);
    assert (AUTO_REFERENCE + timestamp)[|AUTO_REFERENCE|..] == timestamp;
  }

  /** The whole way: the notes of any answer, stamped and appended, are in the store word for word, pending,
      and the rewritten notes file mirrors the store if and only if it did before. */
  method RecordTurn(store: seq<Candidate>, response: string, maxNotes: nat, alphanumeric: char -> bool, now: nat)
    returns (candidates: seq<Candidate>, file: string)
    ensures var notes := Take(NotesUpTo(Lines(response), |Lines(response)|, alphanumeric), maxNotes);
            && |candidates| == |store| + |notes| && store <= candidates
            && (forall i :: 0 <= i < |notes| ==> candidates[|store| + i] == AutoCandidate(Decimal(now), notes[i]))
    ensures file == Render(candidates)
    ensures Migrate(file) == candidates <==> Migrate(Render(store)) == store
  {
    hide Lines, AllNotes, Projectable, Decimal, TopicFrom, StripAutoNoteBody, ParseAutoTimestamp, AutoLine, Render, Migrate;
    hide IsAutoNoteLine, IsNote, Lacks, NotesUpTo;
    NotesAreLineByLine(Lines(response), alphanumeric);
    var notes := ExtractNotesFromTurn(response, maxNotes, alphanumeric);
    var lines := FormatAutoNotes(notes, now);
    candidates := AppendFeedbackNotes(store, lines);
    file := RenderNotesMarkdown(candidates);
    forall i | 0 <= i < |notes|
      ensures candidates[|store| + i] == AutoCandidate(Decimal(now), notes[i])
    {
      AutoNoteRoundTrip(Decimal(now), notes[i]);
      assert lines[i] == AutoLine(Decimal(now), notes[i]);
    }
    RenderMigrateIff(store);
    LinesLackLineFeeds(response);
    AllNotesAreNotes(Lines(response), false, alphanumeric);
    assert forall k :: 0 <= k < |store| ==> candidates[k] == store[k];
    forall k | |store| <= k < |candidates| ensures Projectable(candidates[k]) {
      StampedNoteIsProjectable(notes[k - |store|], now);
    }
    RenderMigrateIff(candidates);
  }
}
