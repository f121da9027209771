/** The line grammar shared by the notes file and the automatic notes, and what it gives back. */
module NoteLines {
  import opened Text
  import opened Wrappers

  // ------------------------------------------------------------------------------------------
  // Lines, as the standard library of the program defines them.

  function DropCarriageReturn(line: string): string {
    if line != "" && line[|line| - 1] == '\r' then line[..|line| - 1] else line
  }

  /** Lines end at a line feed, with or without a carriage return before it; the last may be unfinished. */
  function Lines(s: string): seq<string>
    decreases |s|
  {
    if s == "" then []
    else
      var split := SplitOnce(s, "\n");
      if split.None? then [s] else [DropCarriageReturn(split.value.0)] + Lines(split.value.1)
  }

  lemma {:induction false} NoLineFeedBefore(s: string)
    ensures FirstIndex(s, "\n").Some? ==> Lacks(s[..FirstIndex(s, "\n").value], '\n')
    ensures FirstIndex(s, "\n").None? ==> Lacks(s, '\n')
  {
    if s != "" && s[0] != '\n' {
      NoLineFeedBefore(s[1..]);
      var later := FirstIndex(s[1..], "\n");
      if later.Some? {
        assert s[..later.value + 1] == [s[0]] + s[1..][..later.value];
      } else {
        assert s == [s[0]] + s[1..];
      }
    }
  }

  lemma {:induction false} LinesLackLineFeeds(s: string)
    ensures forall i :: 0 <= i < |Lines(s)| ==> Lacks(Lines(s)[i], '\n')
    decreases |s|
  {
    if s != "" {
      NoLineFeedBefore(s);
      var split := SplitOnce(s, "\n");
      if split.Some? {
        LinesLackLineFeeds(split.value.1);
      }
    }
  }

  /** A line that does not end in a carriage return is read back as it was written. */
  lemma LinesCons(line: string, rest: string)
    requires Lacks(line, '\n') && DropCarriageReturn(line) == line
    ensures Lines(line + "\n" + rest) == [line] + Lines(rest)
  {
    SplitOnceAfter(line, "\n", rest);
  }

  // ------------------------------------------------------------------------------------------
  // Timestamps in decimal.

  predicate IsDigit(c: char) {
    '0' <= c <= '9'
  }

  predicate AllDigits(s: string) {
    forall i :: 0 <= i < |s| ==> IsDigit(s[i])
  }

  function Decimal(n: nat): (s: string)
    ensures s != "" && AllDigits(s)
  {
    var digit := [('0' as int + n % 10) as char];
    if n < 10 then digit else Decimal(n / 10) + digit
  }

  function DecimalValue(s: string): nat
    requires AllDigits(s)
  {
    if s == "" then 0
    else 10 * DecimalValue(s[..|s| - 1]) + (s[|s| - 1] as int - '0' as int)
  }

  lemma {:induction false} DecimalIsRead(n: nat)
    ensures DecimalValue(Decimal(n)) == n
  {
    var digit := [('0' as int + n % 10) as char];
    if n < 10 {
      assert digit[..0] == "";
    } else {
      DecimalIsRead(n / 10);
      assert (Decimal(n / 10) + digit)[..|Decimal(n / 10)|] == Decimal(n / 10);
    }
  }

  // ------------------------------------------------------------------------------------------
  // Automatic notes.

  const AUTO := "[auto] "

  function AutoLine(timestamp: string, note: string): string {
    "[" + timestamp + "] " + AUTO + note
  }

  function FormatAutoNotes(notes: seq<string>, timestampSeconds: nat): (lines: seq<string>)
    ensures |lines| == |notes|
  {
    seq(|notes|, i requires 0 <= i < |notes| => AutoLine(Decimal(timestampSeconds), notes[i]))
  }

  predicate IsAutoNoteLine(line: string) {
    var trimmed := TrimStart(line);
    && "[" <= trimmed
    && var split := SplitOnce(trimmed[1..], "] ");
       split.Some? && split.value.0 != "" && AllDigits(split.value.0) && AUTO <= split.value.1
  }

  function StripAutoNoteBody(line: string): string {
    var trimmed := TrimStart(line);
    if "[" <= trimmed then
      var split := SplitOnce(trimmed[1..], "] ");
      if split.Some? && AUTO <= split.value.1 then split.value.1[|AUTO|..] else trimmed
    else trimmed
  }

  function ParseAutoTimestamp(line: string): (r: string)
    ensures r != "" && AllDigits(r)
  {
    var trimmed := TrimStart(line);
    if "[" <= trimmed then
      var split := SplitOnce(trimmed[1..], "]");
      if split.Some? && split.value.0 != "" && AllDigits(split.value.0) then split.value.0 else "0"
    else "0"
  }

  lemma AutoLineSplits(timestamp: string, note: string)
    requires AllDigits(timestamp)
    ensures TrimStart(AutoLine(timestamp, note)) == AutoLine(timestamp, note)
    ensures "[" <= AutoLine(timestamp, note)
    ensures SplitOnce(AutoLine(timestamp, note)[1..], "] ") == Some((timestamp, AUTO + note))
    ensures SplitOnce(AutoLine(timestamp, note)[1..], "]") == Some((timestamp, " " + AUTO + note))
  {
    hide SplitOnce;
    var rest := AutoLine(timestamp, note)[1..];
    assert rest == timestamp + "] " + (AUTO + note);
    assert rest == timestamp + "]" + (" " + AUTO + note);
    SplitOnceAfter(timestamp, "] ", AUTO + note);
    SplitOnceAfter(timestamp, "]", " " + AUTO + note);
  }

  /** Formatting a note and taking it apart again gives the note and the time, whatever the note says. */
  lemma AutoNoteRoundTrip(timestamp: string, note: string)
    requires timestamp != "" && AllDigits(timestamp)
    ensures IsAutoNoteLine(AutoLine(timestamp, note))
    ensures StripAutoNoteBody(AutoLine(timestamp, note)) == note
    ensures ParseAutoTimestamp(AutoLine(timestamp, note)) == timestamp
  {
    hide SplitOnce, TrimStart, AutoLine;
    AutoLineSplits(timestamp, note);
    assert AUTO <= AUTO + note && (AUTO + note)[|AUTO|..] == note;
  }

  /** The same for a note stamped with a number of seconds, which can be read back as that number. */
  lemma FormattedNotesRoundTrip(notes: seq<string>, timestampSeconds: nat, i: nat)
    requires i < |notes|
    ensures var line := FormatAutoNotes(notes, timestampSeconds)[i];
            && IsAutoNoteLine(line) && StripAutoNoteBody(line) == notes[i]
            && DecimalValue(ParseAutoTimestamp(line)) == timestampSeconds
  {
    hide IsAutoNoteLine, StripAutoNoteBody, ParseAutoTimestamp, Decimal, AutoLine;
    AutoNoteRoundTrip(Decimal(timestampSeconds), notes[i]);
    DecimalIsRead(timestampSeconds);
  }

  lemma AutoLineAssembled(trimmed: string, timestamp: string, suffix: string)
    requires "[" <= trimmed && trimmed[1..] == timestamp + "] " + suffix && AUTO <= suffix
    ensures trimmed == AutoLine(timestamp, suffix[|AUTO|..])
  {
    assert trimmed == "[" + trimmed[1..];
    assert suffix == AUTO + suffix[|AUTO|..];
  }

  /** Conversely a line that is recognised is, without its indentation, the line formatted from its parts. */
  lemma AutoLineFromParts(line: string)
    requires IsAutoNoteLine(line)
    ensures TrimStart(line) == AutoLine(ParseAutoTimestamp(line), StripAutoNoteBody(line))
  {
    hide SplitOnce, AutoLine, TrimStart;
    var trimmed := TrimStart(line);
    var split := SplitOnce(trimmed[1..], "] ").value;
    AutoLineAssembled(trimmed, split.0, split.1);
    AutoLineSplits(split.0, split.1[|AUTO|..]);
  }
}
