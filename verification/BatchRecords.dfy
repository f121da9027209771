/** Batch records rebuilt from an envelope stream, and what they say about it. */
module BatchRecords {
  import opened Text
  import opened Wrappers
  import opened Envelopes

  datatype Evidence = Evidence(program: string, exitCode: int)

  function CommandEvidence(toolName: string, isError: bool): Option<Evidence> {
    var exitCode := if isError then 1 else 0;
    match toolName
    case "git_status" => Some(Evidence("git status", exitCode))
    case "git_diff" => Some(Evidence("git diff", exitCode))
    case "git_log" => Some(Evidence("git log", exitCode))
    case "git_show" => Some(Evidence("git show", exitCode))
    case "git_add" => Some(Evidence("git add", exitCode))
    case "git_commit" => Some(Evidence("git commit", exitCode))
    case _ => None
  }

  const GIT_COMMANDS := {"status", "diff", "log", "show", "add", "commit"}

  /** The command a git tool stands for leaves evidence, failed exactly on an error. */
  lemma GitEvidence(command: string, isError: bool)
    requires command in GIT_COMMANDS
    ensures CommandEvidence("git_" + command, isError) == Some(Evidence("git " + command, if isError then 1 else 0))
  {
    match command {
      case "status" => assert "git_" + command == "git_status" && "git " + command == "git status";
      case "diff" => assert "git_" + command == "git_diff" && "git " + command == "git diff";
      case "log" => assert "git_" + command == "git_log" && "git " + command == "git log";
      case "show" => assert "git_" + command == "git_show" && "git " + command == "git show";
      case "add" => assert "git_" + command == "git_add" && "git " + command == "git add";
      case "commit" => assert "git_" + command == "git_commit" && "git " + command == "git commit";
    }
  }

  /** No other tool does. */
  lemma NoOtherEvidence(toolName: string, isError: bool)
    requires CommandEvidence(toolName, isError).Some?
    ensures "git_" <= toolName && toolName[4..] in GIT_COMMANDS
  {
    assert "git_status"[4..] == "status" && "git_diff"[4..] == "diff" && "git_log"[4..] == "log";
    assert "git_show"[4..] == "show" && "git_add"[4..] == "add" && "git_commit"[4..] == "commit";
  }

  datatype Record = Record(pulse: nat, input: string, response: string, changedFiles: set<string>, commands: seq<Evidence>)

  /** Open text blocks, in the order they were first started. */
  type Blocks<K> = seq<(K, string)>

  /** A block started again keeps its place and loses what it held. */
  function Started<K(==)>(blocks: Blocks<K>, key: K, content: string): Blocks<K> {
    if blocks == [] then [(key, content)]
    else if blocks[0].0 == key then [(key, content)] + blocks[1..]
    else [blocks[0]] + Started(blocks[1..], key, content)
  }

  function Extended<K(==)>(blocks: Blocks<K>, key: K, delta: string): Blocks<K> {
    if blocks == [] then []
    else if blocks[0].0 == key then [(key, blocks[0].1 + delta)] + blocks[1..]
    else [blocks[0]] + Extended(blocks[1..], key, delta)
  }

  /** The content of a block, and the others without it. */
  function Removed<K(==)>(blocks: Blocks<K>, key: K): (Option<string>, Blocks<K>) {
    if blocks == [] then (None, [])
    else if blocks[0].0 == key then (Some(blocks[0].1), blocks[1..])
    else
      var (content, rest) := Removed(blocks[1..], key);
      (content, [blocks[0]] + rest)
  }

  function Contents<K>(blocks: Blocks<K>): string {
    if blocks == [] then "" else blocks[0].1 + Contents(blocks[1..])
  }

  datatype Turn = Turn(
    pulse: nat,
    input: string,
    response: string,
    blocks: Blocks<nat>,
    changedFiles: set<string>,
    commands: seq<Evidence>)
  {
    function NoteResult(name: Option<string>, status: ToolStatus): Turn {
      var evidence := if name.Some? then CommandEvidence(name.value, status == Error) else None;
      if evidence.Some? then this.(commands := commands + [evidence.value]) else this
    }

    function Complete(index: nat): Turn {
      var (content, rest) := Removed(blocks, index);
      if content.Some? then this.(response := response + content.value, blocks := rest) else this
    }

    /** Everything but the boundaries of a turn. */
    function Read(signal: Signal): Turn {
      match signal
      case BlockStart(index, FinalText(content)) => this.(blocks := Started(blocks, index, content))
      case BlockDelta(index, delta) => this.(blocks := Extended(blocks, index, delta))
      case BlockComplete(index) => Complete(index)
      case ToolCallCompleted(_, name, status, _) => NoteResult(name, status)
      case ToolCallFailed(_, name, status, _) => NoteResult(name, status)
      case _ => this
    }

    /** Blocks that were never completed are flushed in order. */
    function IntoRecord(): Record {
      Record(pulse, input, response + Contents(blocks), changedFiles, commands)
    }
  }

  datatype Fold = Fold(
    records: seq<Record>,
    current: Option<Turn>,
    lastStatus: Option<string>,
    changedFiles: set<string>,
    maxTurnsReached: bool)
  {
    /** The turn still being read counts as a record. */
    function Records(): seq<Record> {
      if current.Some? then records + [current.value.IntoRecord()] else records
    }

    function Read(e: Envelope): Fold {
      match e.signal
      case PulseStart(input) =>
        var turn := Turn(e.pulse, if input.Some? then input.value else "", "", [], {}, []);
        this.(records := Records(), current := Some(turn))
      case PulseEnd(status, files) =>
        if current.None? then this
        else
          var record := current.value.(changedFiles := files).IntoRecord();
          Fold(records + [record], None, Some(status), changedFiles + files, maxTurnsReached)
      case MaxTurnsReached(_) => this.(maxTurnsReached := true)
      case signal => if current.Some? then this.(current := Some(current.value.Read(signal))) else this
    }
  }

  const NOTHING_READ := Fold([], None, None, {}, false)

  datatype Summary = Summary(status: string, totalTurns: nat, changedFiles: set<string>)

  datatype Derived = Derived(records: seq<Record>, summary: Option<Summary>, maxTurnsReached: bool)

  function Finished(f: Fold): Derived {
    var files := f.changedFiles + if f.current.Some? then f.current.value.changedFiles else {};
    Derived(f.Records(),
            if f.lastStatus.Some? then Some(Summary(f.lastStatus.value, |f.Records()|, files)) else None,
            f.maxTurnsReached)
  }

  function ReadAll(f: Fold, envelopes: seq<Envelope>): Fold {
    if envelopes == [] then f
    else ReadAll(f, envelopes[..|envelopes| - 1]).Read(envelopes[|envelopes| - 1])
  }

  function Derive(envelopes: seq<Envelope>): Derived {
    Finished(ReadAll(NOTHING_READ, envelopes))
  }

  /** The loop with its accumulators. */
  method DeriveBatchRecords(envelopes: seq<Envelope>) returns (derived: Derived)
    ensures derived == Derive(envelopes)
  {
    hide Turn.Read, Turn.IntoRecord, Turn.NoteResult;
    var records: seq<Record> := [];
    var current: Option<Turn> := None;
    var lastStatus: Option<string> := None;
    var changedFiles: set<string> := {};
    var maxTurnsReached := false;
    for i := 0 to |envelopes|
      invariant ReadAll(NOTHING_READ, envelopes[..i]) == Fold(records, current, lastStatus, changedFiles, maxTurnsReached)
    {
      assert envelopes[..i + 1][..i] == envelopes[..i];
      match envelopes[i].signal {
        case PulseStart(input) =>
          if current.Some? {
            records := records + [current.value.IntoRecord()];
          }
          current := Some(Turn(envelopes[i].pulse, if input.Some? then input.value else "", "", [], {}, []));
        case PulseEnd(status, files) =>
          if current.Some? {
            var turn := current.value.(changedFiles := files);
            current := None;
            changedFiles := changedFiles + files;
            lastStatus := Some(status);
            records := records + [turn.IntoRecord()];
          }
        case MaxTurnsReached(_) =>
          maxTurnsReached := true;
        case signal =>
          if current.Some? {
            current := Some(current.value.Read(signal));
          }
      }
    }
    assert envelopes[..|envelopes|] == envelopes;
    assert changedFiles + {} == changedFiles;
    if current.Some? {
      changedFiles := changedFiles + current.value.changedFiles;
      records := records + [current.value.IntoRecord()];
    }
    return Derived(records,
                   if lastStatus.Some? then Some(Summary(lastStatus.value, |records|, changedFiles)) else None,
                   maxTurnsReached);
  }

  // ------------------------------------------------------------------------------------------
  // Reading in two parts.

  lemma {:induction false} ReadAllConcat(f: Fold, x: seq<Envelope>, y: seq<Envelope>)
    ensures ReadAll(f, x + y) == ReadAll(ReadAll(f, x), y)
    decreases |y|
  {
    hide Fold.Read;
    if y == [] {
      assert x + y == x;
    } else {
      var front := y[..|y| - 1];
      assert (x + y)[..|x + y| - 1] == x + front;
      ReadAllConcat(f, x, front);
    }
  }

  /** What was read before, put in front of what is read later. */
  function Onto(before: Fold, f: Fold): Fold {
    Fold(before.Records() + f.records, f.current,
         if f.lastStatus.Some? then f.lastStatus else before.lastStatus,
         before.changedFiles + f.changedFiles, before.maxTurnsReached || f.maxTurnsReached)
  }

  lemma OntoRead(before: Fold, f: Fold, e: Envelope)
    ensures Onto(before, f.Read(e)) == Onto(before, f).Read(e)
  {
    hide Turn.Read, Turn.IntoRecord;
  }

  lemma {:induction false} OntoReadAll(before: Fold, f: Fold, envelopes: seq<Envelope>)
    ensures Onto(before, ReadAll(f, envelopes)) == ReadAll(Onto(before, f), envelopes)
    decreases |envelopes|
  {
    hide Fold.Read, Onto;
    if envelopes != [] {
      var front := envelopes[..|envelopes| - 1];
      OntoReadAll(before, f, front);
      OntoRead(before, ReadAll(f, front), envelopes[|envelopes| - 1]);
    }
  }

  lemma StartForgets(before: Fold, start: Envelope)
    requires start.signal.PulseStart?
    ensures before.Read(start) == Onto(before, NOTHING_READ.Read(start))
  {
    hide Turn.IntoRecord;
    assert before.Records() + [] == before.Records();
  }

  lemma ReadOne(f: Fold, e: Envelope)
    ensures ReadAll(f, [e]) == f.Read(e)
  {
    hide Fold.Read;
    assert [e][..0] == [];
  }

  lemma RecordsOnto(before: Fold, f: Fold)
    ensures Onto(before, f).Records() == before.Records() + f.Records()
  {
    hide Turn.IntoRecord;
  }

  // ------------------------------------------------------------------------------------------
  // One record for each pulse.

  /** The pulses a stream starts, in order, with their numbers and inputs. */
  function Starts(envelopes: seq<Envelope>): seq<(nat, string)> {
    if envelopes == [] then []
    else
      var front, last := Starts(envelopes[..|envelopes| - 1]), envelopes[|envelopes| - 1];
      if last.signal.PulseStart? then
        front + [(last.pulse, if last.signal.input.Some? then last.signal.input.value else "")]
      else front
  }

  function Headings(records: seq<Record>): (r: seq<(nat, string)>)
    ensures |r| == |records|
  {
    seq(|records|, i requires 0 <= i < |records| => (records[i].pulse, records[i].input))
  }

  lemma HeadingsSnoc(records: seq<Record>, r: Record)
    ensures Headings(records + [r]) == Headings(records) + [(r.pulse, r.input)]
  {
  }

  lemma ReadKeepsHeading(t: Turn, signal: Signal)
    ensures t.Read(signal).IntoRecord().pulse == t.IntoRecord().pulse
    ensures t.Read(signal).IntoRecord().input == t.IntoRecord().input
    ensures t.Read(signal).changedFiles == t.changedFiles
  {
    hide CommandEvidence, Started, Extended, Removed, Contents;
  }

  lemma HeadingsStep(f: Fold, e: Envelope)
    ensures Headings(f.Read(e).Records()) ==
            Headings(f.Records()) +
            if e.signal.PulseStart? then [(e.pulse, if e.signal.input.Some? then e.signal.input.value else "")] else []
  {
    hide Turn.Read, Headings;
    if e.signal.PulseStart? {
      HeadingsSnoc(f.Records(), f.Read(e).current.value.IntoRecord());
    } else if f.current.Some? {
      var turn := f.current.value;
      HeadingsSnoc(f.records, turn.IntoRecord());
      ReadKeepsHeading(turn, e.signal);
      HeadingsSnoc(f.records, turn.Read(e.signal).IntoRecord());
      if e.signal.PulseEnd? {
        HeadingsSnoc(f.records, turn.(changedFiles := e.signal.changedFiles).IntoRecord());
      }
    }
  }

  /** There is exactly one record for each pulse start, in order, with its number and its input. */
  lemma {:induction false} OneRecordPerStart(envelopes: seq<Envelope>)
    ensures Headings(Derive(envelopes).records) == Starts(envelopes)
    decreases |envelopes|
  {
    hide Fold.Read, Headings;
    if envelopes == [] {
      NoHeadings();
    } else {
      var front := envelopes[..|envelopes| - 1];
      OneRecordPerStart(front);
      HeadingsStep(ReadAll(NOTHING_READ, front), envelopes[|envelopes| - 1]);
    }
  }

  lemma NoHeadings()
    ensures Headings([]) == []
  {
  }

  // ------------------------------------------------------------------------------------------
  // The summary.

  /** A pulse is open after the first `n` envelopes: some start has no end after it. */
  ghost predicate OpenAt(envelopes: seq<Envelope>, n: nat)
    requires n <= |envelopes|
  {
    exists s :: 0 <= s < n && envelopes[s].signal.PulseStart? && NoEndBetween(envelopes, s, n)
  }

  ghost predicate NoEndBetween(envelopes: seq<Envelope>, s: nat, n: nat)
    requires s < n <= |envelopes|
  {
    forall k :: s < k < n ==> !envelopes[k].signal.PulseEnd?
  }

  /** An end that closes an open pulse. */
  ghost predicate Closes(envelopes: seq<Envelope>, i: nat)
    requires i < |envelopes|
  {
    envelopes[i].signal.PulseEnd? && OpenAt(envelopes, i)
  }

  lemma OpenAtStep(envelopes: seq<Envelope>, n: nat)
    requires n < |envelopes|
    ensures OpenAt(envelopes, n + 1) <==>
            envelopes[n].signal.PulseStart? || (OpenAt(envelopes, n) && !envelopes[n].signal.PulseEnd?)
  {
    if envelopes[n].signal.PulseStart? {
      assert NoEndBetween(envelopes, n, n + 1);
    } else if OpenAt(envelopes, n + 1) {
      var s :| 0 <= s < n + 1 && envelopes[s].signal.PulseStart? && NoEndBetween(envelopes, s, n + 1);
      assert s < n && NoEndBetween(envelopes, s, n);
    } else if OpenAt(envelopes, n) {
      var s :| 0 <= s < n && envelopes[s].signal.PulseStart? && NoEndBetween(envelopes, s, n);
      assert !NoEndBetween(envelopes, s, n + 1);
    }
  }

  /** The last of the first `n` envelopes that closes a pulse. */
  ghost predicate LastToClose(envelopes: seq<Envelope>, n: nat, i: nat)
    requires i < n <= |envelopes|
  {
    Closes(envelopes, i) && forall k :: i < k < n ==> !Closes(envelopes, k)
  }

  /** The status, if there is one, is that of the last envelope that closes a pulse. */
  ghost predicate StatusOfLast(envelopes: seq<Envelope>, n: nat, status: Option<string>)
    requires n <= |envelopes|
  {
    if status.None? then forall k :: 0 <= k < n ==> !Closes(envelopes, k)
    else exists i :: 0 <= i < n && LastToClose(envelopes, n, i) && envelopes[i].signal.endStatus == status.value
  }

  lemma StatusStep(envelopes: seq<Envelope>, n: nat, status: Option<string>)
    requires n < |envelopes| && StatusOfLast(envelopes, n, status)
    ensures StatusOfLast(envelopes, n + 1, if Closes(envelopes, n) then Some(envelopes[n].signal.endStatus) else status)
  {
    hide OpenAt;
    if Closes(envelopes, n) {
      assert LastToClose(envelopes, n + 1, n);
    } else if status.Some? {
      var i :| 0 <= i < n && LastToClose(envelopes, n, i) && envelopes[i].signal.endStatus == status.value;
      assert LastToClose(envelopes, n + 1, i);
    }
  }

  lemma ReadStatus(f: Fold, e: Envelope)
    ensures f.Read(e).current.Some? <==> e.signal.PulseStart? || (f.current.Some? && !e.signal.PulseEnd?)
    ensures f.Read(e).lastStatus ==
            if e.signal.PulseEnd? && f.current.Some? then Some(e.signal.endStatus) else f.lastStatus
  {
    hide Turn.Read, Turn.IntoRecord;
  }

  lemma {:induction false} StatusOverPrefix(envelopes: seq<Envelope>, n: nat)
    requires n <= |envelopes|
    ensures ReadAll(NOTHING_READ, envelopes[..n]).current.Some? <==> OpenAt(envelopes, n)
    ensures StatusOfLast(envelopes, n, ReadAll(NOTHING_READ, envelopes[..n]).lastStatus)
  {
    hide Fold.Read, OpenAt;
    if n == 0 {
      NothingOpen(envelopes);
    } else {
      StatusOverPrefix(envelopes, n - 1);
      OpenAtStep(envelopes, n - 1);
      assert envelopes[..n][..n - 1] == envelopes[..n - 1];
      ReadStatus(ReadAll(NOTHING_READ, envelopes[..n - 1]), envelopes[n - 1]);
      StatusStep(envelopes, n - 1, ReadAll(NOTHING_READ, envelopes[..n - 1]).lastStatus);
    }
  }

  lemma NothingOpen(envelopes: seq<Envelope>)
    ensures !OpenAt(envelopes, 0)
  {
  }

  /** There is a summary exactly when some end closed an open pulse, and its status is the last such end's. */
  lemma SummaryIff(envelopes: seq<Envelope>)
    ensures Derive(envelopes).summary.Some? <==> exists i :: 0 <= i < |envelopes| && Closes(envelopes, i)
    ensures Derive(envelopes).summary.Some? ==>
              StatusOfLast(envelopes, |envelopes|, Some(Derive(envelopes).summary.value.status))
  {
    hide ReadAll, Closes, Fold.Records;
    assert envelopes[..|envelopes|] == envelopes;
    StatusOverPrefix(envelopes, |envelopes|);
  }

  lemma ReadLimit(f: Fold, e: Envelope)
    ensures f.Read(e).maxTurnsReached == (f.maxTurnsReached || e.signal.MaxTurnsReached?)
  {
    hide Turn.Read, Turn.IntoRecord;
  }

  /** The limit counts as reached exactly when some envelope says so. */
  lemma {:induction false} LimitIff(envelopes: seq<Envelope>)
    ensures Derive(envelopes).maxTurnsReached <==>
            exists i :: 0 <= i < |envelopes| && envelopes[i].signal.MaxTurnsReached?
    decreases |envelopes|
  {
    hide Fold.Read;
    if envelopes != [] {
      var front, last := envelopes[..|envelopes| - 1], envelopes[|envelopes| - 1];
      LimitIff(front);
      ReadLimit(ReadAll(NOTHING_READ, front), last);
      assert forall i :: 0 <= i < |front| ==> front[i] == envelopes[i];
    }
  }

  function FilesOf(records: seq<Record>): set<string> {
    if records == [] then {} else FilesOf(records[..|records| - 1]) + records[|records| - 1].changedFiles
  }

  lemma FilesSnoc(records: seq<Record>, r: Record)
    ensures FilesOf(records + [r]) == FilesOf(records) + r.changedFiles
  {
    assert (records + [r])[..|records|] == records;
  }

  ghost predicate FilesAgree(f: Fold) {
    f.changedFiles == FilesOf(f.records) && (f.current.Some? ==> f.current.value.changedFiles == {})
  }

  lemma FilesStep(f: Fold, e: Envelope)
    requires FilesAgree(f)
    ensures FilesAgree(f.Read(e))
  {
    hide FilesOf, Turn.Read;
    if f.current.Some? {
      var turn := f.current.value;
      ReadKeepsHeading(turn, e.signal);
      FilesSnoc(f.records, turn.IntoRecord());
      if e.signal.PulseEnd? {
        FilesSnoc(f.records, turn.(changedFiles := e.signal.changedFiles).IntoRecord());
      }
    }
  }

  lemma {:induction false} FilesOverPrefix(envelopes: seq<Envelope>)
    ensures FilesAgree(ReadAll(NOTHING_READ, envelopes))
    decreases |envelopes|
  {
    hide Fold.Read, FilesAgree;
    if envelopes == [] {
      NoFiles();
    } else {
      FilesOverPrefix(envelopes[..|envelopes| - 1]);
      FilesStep(ReadAll(NOTHING_READ, envelopes[..|envelopes| - 1]), envelopes[|envelopes| - 1]);
    }
  }

  lemma NoFiles()
    ensures FilesAgree(NOTHING_READ)
  {
  }

  /** The summary counts the records and names exactly the files that some record names. */
  lemma SummaryTotals(envelopes: seq<Envelope>)
    requires Derive(envelopes).summary.Some?
    ensures var derived := Derive(envelopes);
            && derived.summary.value.totalTurns == |derived.records|
            && derived.summary.value.changedFiles == FilesOf(derived.records)
  {
    hide ReadAll, FilesOf;
    FilesOverPrefix(envelopes);
    var f := ReadAll(NOTHING_READ, envelopes);
    if f.current.Some? {
      FilesSnoc(f.records, f.current.value.IntoRecord());
    }
  }

  lemma {:induction false} FilesConcat(x: seq<Record>, y: seq<Record>)
    ensures FilesOf(x + y) == FilesOf(x) + FilesOf(y)
    decreases |y|
  {
    if y == [] {
      assert x + y == x;
    } else {
      var front := y[..|y| - 1];
      assert x + y == (x + front) + [y[|y| - 1]];
      FilesSnoc(x + front, y[|y| - 1]);
      FilesConcat(x, front);
    }
  }

  /** A stream may be cut wherever a pulse starts: the records are those of the two parts, one after the
      other, the status is the later one that exists, and its turns and files are those of both. */
  lemma SplitAtPulseStart(x: seq<Envelope>, start: Envelope, y: seq<Envelope>)
    requires start.signal.PulseStart?
    ensures var whole, first, second := Derive(x + [start] + y), Derive(x), Derive([start] + y);
            && whole.records == first.records + second.records
            && whole.maxTurnsReached == (first.maxTurnsReached || second.maxTurnsReached)
            && (whole.summary.Some? <==> first.summary.Some? || second.summary.Some?)
            && (whole.summary.Some? ==>
                  && whole.summary.value.status == (if second.summary.Some? then second else first).summary.value.status
                  && whole.summary.value.totalTurns == |first.records| + |second.records|
                  && whole.summary.value.changedFiles == FilesOf(first.records) + FilesOf(second.records))
  {
    hide FilesOf, Fold.Read, Turn.IntoRecord;
    var before, after := ReadAll(NOTHING_READ, x), ReadAll(NOTHING_READ, [start] + y);
    assert x + [start] + y == (x + [start]) + y;
    ReadAllConcat(NOTHING_READ, x + [start], y);
    ReadAllConcat(NOTHING_READ, x, [start]);
    ReadAllConcat(NOTHING_READ, [start], y);
    ReadOne(before, start);
    ReadOne(NOTHING_READ, start);
    StartForgets(before, start);
    OntoReadAll(before, NOTHING_READ.Read(start), y);
    assert ReadAll(NOTHING_READ, x + [start] + y) == Onto(before, after);
    RecordsOnto(before, after);
    FilesConcat(before.Records(), after.Records());
    if Derive(x + [start] + y).summary.Some? {
      SummaryTotals(x + [start] + y);
    }
  }
}
