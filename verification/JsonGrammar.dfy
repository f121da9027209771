/** The JSON grammar of RFC 8259 as concrete syntax trees, and the proof that the streaming scanner
    never turns away the beginning of a JSON text. */
module JsonGrammar {
  import opened Text
  import opened JsonPrefix

  // ------------------------------------------------------------------------------------------
  // Sections 2 to 7 of RFC 8259. A tree stands for one derivation; `Print` gives the derived text.

  /** One `char` of a string (section 7). */
  datatype StringChar =
    | Unescaped(c: char)
    | Escape(c: char)
    | Unicode(hex: string)

  /** White space around a structural character (section 2). */
  datatype Pad = Pad(before: string, after: string)

  datatype Value =
    | Literal(name: string)
    | Number(minus: bool, digits: string, frac: string, exp: string)
    | String(body: seq<StringChar>)
    | Array(open: Pad, items: Items, close: Pad)
    | Object(open: Pad, members: Members, close: Pad)

  datatype Items =
    | NoItems
    | Items(head: Value, tail: MoreItems)

  datatype MoreItems =
    | EndItems
    | NextItem(separator: Pad, head: Value, tail: MoreItems)

  datatype Members =
    | NoMembers
    | Members(key: seq<StringChar>, colon: Pad, head: Value, tail: MoreMembers)

  datatype MoreMembers =
    | EndMembers
    | NextMember(separator: Pad, key: seq<StringChar>, colon: Pad, head: Value, tail: MoreMembers)

  predicate IsWs(s: string) {
    forall c :: c in s ==> c in " \t\n\r"
  }

  predicate IsDigits(s: string) {
    s != "" && forall c :: c in s ==> '0' <= c <= '9'
  }

  predicate IsHex(s: string) {
    |s| == 4 && forall c :: c in s ==> '0' <= c <= '9' || 'a' <= c <= 'f' || 'A' <= c <= 'F'
  }

  predicate StringCharOk(x: StringChar) {
    match x
    case Unescaped(c) => c as int >= 0x20 && c != '"' && c != '\\'
    case Escape(c) => c in "\"\\/bfnrt"
    case Unicode(hex) => IsHex(hex)
  }

  predicate StringOk(body: seq<StringChar>) {
    forall x :: x in body ==> StringCharOk(x)
  }

  predicate PadOk(p: Pad) {
    IsWs(p.before) && IsWs(p.after)
  }

  predicate FracOk(s: string) {
    s == "" || (s[0] == '.' && IsDigits(s[1..]))
  }

  predicate ExpOk(s: string) {
    s == "" ||
    (s[0] in "eE" && (IsDigits(s[1..]) || (|s| > 1 && s[1] in "+-" && IsDigits(s[2..]))))
  }

  predicate ValueOk(v: Value) {
    match v
    case Literal(name) => name in ["false", "null", "true"]
    case Number(_, digits, frac, exp) =>
      IsDigits(digits) && (digits == "0" || digits[0] != '0') && FracOk(frac) && ExpOk(exp)
    case String(body) => StringOk(body)
    case Array(open, items, close) => PadOk(open) && ItemsOk(items) && PadOk(close)
    case Object(open, members, close) => PadOk(open) && MembersOk(members) && PadOk(close)
  }

  predicate ItemsOk(items: Items) {
    items.Items? ==> ValueOk(items.head) && MoreItemsOk(items.tail)
  }

  predicate MoreItemsOk(m: MoreItems) {
    m.NextItem? ==> PadOk(m.separator) && ValueOk(m.head) && MoreItemsOk(m.tail)
  }

  predicate MembersOk(members: Members) {
    members.Members? ==>
      StringOk(members.key) && PadOk(members.colon) && ValueOk(members.head) && MoreMembersOk(members.tail)
  }

  predicate MoreMembersOk(m: MoreMembers) {
    m.NextMember? ==>
      PadOk(m.separator) && StringOk(m.key) && PadOk(m.colon) && ValueOk(m.head) && MoreMembersOk(m.tail)
  }

  function PrintChar(x: StringChar): string {
    match x
    case Unescaped(c) => [c]
    case Escape(c) => ['\\', c]
    case Unicode(hex) => "\\u" + hex
  }

  function PrintBody(body: seq<StringChar>): string {
    if body == [] then "" else PrintChar(body[0]) + PrintBody(body[1..])
  }

  function PrintString(body: seq<StringChar>): string {
    "\"" + PrintBody(body) + "\""
  }

  /** A structural character with the white space the grammar allows around it. */
  function PrintMark(p: Pad, mark: char): string {
    p.before + [mark] + p.after
  }

  function Print(v: Value): string {
    match v
    case Literal(name) => name
    case Number(minus, digits, frac, exp) => (if minus then "-" else "") + digits + frac + exp
    case String(body) => PrintString(body)
    case Array(open, items, close) => PrintMark(open, '[') + (PrintItems(items) + PrintMark(close, ']'))
    case Object(open, members, close) => PrintMark(open, '{') + (PrintMembers(members) + PrintMark(close, '}'))
  }

  function PrintItems(items: Items): string {
    match items
    case NoItems => ""
    case Items(head, tail) => Print(head) + PrintMoreItems(tail)
  }

  function PrintMoreItems(m: MoreItems): string {
    match m
    case EndItems => ""
    case NextItem(separator, head, tail) => PrintMark(separator, ',') + (Print(head) + PrintMoreItems(tail))
  }

  function PrintMember(key: seq<StringChar>, colon: Pad): string {
    PrintString(key) + PrintMark(colon, ':')
  }

  function PrintMembers(members: Members): string {
    match members
    case NoMembers => ""
    case Members(key, colon, head, tail) => PrintMember(key, colon) + (Print(head) + PrintMoreMembers(tail))
  }

  function PrintMoreMembers(m: MoreMembers): string {
    match m
    case EndMembers => ""
    case NextMember(separator, key, colon, head, tail) =>
      PrintMark(separator, ',') + (PrintMember(key, colon) + (Print(head) + PrintMoreMembers(tail)))
  }

  /** `JSON-text = ws value ws` (section 2). */
  ghost predicate IsJsonText(text: string) {
    exists v: Value, before: string, after: string ::
      ValueOk(v) && IsWs(before) && IsWs(after) && text == before + Print(v) + after
  }

  // ------------------------------------------------------------------------------------------
  // Every construct leaves the scanner exactly as it found it.

  ghost predicate Idle(s: Scan) {
    s.Scanning? && !s.inString && !s.escaped
  }

  lemma {:induction false} PlainKeeps(s: Scan, text: string)
    requires Idle(s)
    requires forall c :: c in text ==> c !in "\"{}[]"
    ensures Run(s, text) == s
    decreases |text|
  {
    if text != "" {
      assert text[0] in text;
      assert forall c :: c in text[1..] ==> c in text;
      PlainKeeps(s, text[1..]);
    }
  }

  lemma RunThen(s: Scan, a: string, mid: Scan, b: string, end: Scan)
    requires Run(s, a) == mid && Run(mid, b) == end
    ensures Run(s, a + b) == end
  {
    RunConcat(s, a, b);
  }

  lemma CharKeeps(s: Scan, x: StringChar)
    requires s.Scanning? && s.inString && !s.escaped && StringCharOk(x)
    ensures Run(s, PrintChar(x)) == s
  {
    match x
    case Unescaped(c) =>
      assert [c][1..] == "";
    case Escape(c) =>
      assert ['\\', c][1..] == [c] && [c][1..] == "";
      assert Run(s, ['\\', c]) == Run(Step(Step(s, '\\'), c), "");
    case Unicode(hex) =>
      var text := "\\u" + hex;
      assert text[1..] == "u" + hex && ("u" + hex)[1..] == hex;
      assert Run(s, text) == Run(Step(Step(s, '\\'), 'u'), hex);
      HexKeeps(s, hex);
  }

  lemma {:induction false} HexKeeps(s: Scan, hex: string)
    requires s.Scanning? && s.inString && !s.escaped
    requires forall c :: c in hex ==> c != '"' && c != '\\'
    ensures Run(s, hex) == s
    decreases |hex|
  {
    if hex != "" {
      assert hex[0] in hex;
      assert forall c :: c in hex[1..] ==> c in hex;
      HexKeeps(s, hex[1..]);
    }
  }

  lemma {:induction false} BodyKeeps(s: Scan, body: seq<StringChar>)
    requires s.Scanning? && s.inString && !s.escaped && StringOk(body)
    ensures Run(s, PrintBody(body)) == s
    decreases |body|
  {
    if body != [] {
      assert body[0] in body;
      assert forall x :: x in body[1..] ==> x in body;
      CharKeeps(s, body[0]);
      BodyKeeps(s, body[1..]);
      RunThen(s, PrintChar(body[0]), s, PrintBody(body[1..]), s);
    }
  }

  lemma StringKeeps(s: Scan, body: seq<StringChar>)
    requires Idle(s) && StringOk(body)
    ensures Run(s, PrintString(body)) == s
  {
    var inside := s.(inString := true);
    BodyKeeps(inside, body);
    assert "\""[1..] == "";
    assert Run(s, "\"") == inside && Run(inside, "\"") == s;
    RunThen(s, "\"", inside, PrintBody(body), inside);
    RunThen(s, "\"" + PrintBody(body), inside, "\"", s);
  }

  lemma MarkSteps(s: Scan, p: Pad, mark: char, end: Scan)
    requires Idle(s) && PadOk(p) && Step(s, mark) == end && Idle(end)
    ensures Run(s, PrintMark(p, mark)) == end
  {
    PlainKeeps(s, p.before);
    PlainKeeps(end, p.after);
    assert [mark][1..] == "";
    RunThen(s, p.before, s, [mark], end);
    RunThen(s, p.before + [mark], end, p.after, end);
  }

  lemma FracKeeps(s: Scan, frac: string)
    requires Idle(s) && FracOk(frac)
    ensures Run(s, frac) == s
  {
    assert forall c :: c in frac ==> c == '.' || c in frac[1..];
    PlainKeeps(s, frac);
  }

  lemma ExpKeeps(s: Scan, exp: string)
    requires Idle(s) && ExpOk(exp)
    ensures Run(s, exp) == s
  {
    if exp == "" || IsDigits(exp[1..]) {
      assert forall c :: c in exp ==> c in "eE" || c in exp[1..];
    } else {
      assert forall c :: c in exp ==> c in "eE" || c in "+-" || c in exp[2..];
    }
    PlainKeeps(s, exp);
  }

  lemma NumberKeeps(s: Scan, v: Value)
    requires Idle(s) && v.Number? && ValueOk(v)
    ensures Run(s, Print(v)) == s
  {
    var sign := if v.minus then "-" else "";
    PlainKeeps(s, sign);
    PlainKeeps(s, v.digits);
    FracKeeps(s, v.frac);
    ExpKeeps(s, v.exp);
    hide Run, ValueOk;
    RunThen(s, sign, s, v.digits, s);
    RunThen(s, sign + v.digits, s, v.frac, s);
    RunThen(s, sign + v.digits + v.frac, s, v.exp, s);
  }

  /** The central fact: at any depth, scanning one whole value is invisible to the scanner. */
  lemma {:induction false} ValueKeeps(s: Scan, v: Value)
    requires Idle(s) && ValueOk(v)
    ensures Run(s, Print(v)) == s
    decreases v
  {
    match v
    case Literal(name) =>
      PlainKeeps(s, name);
    case Number(_, _, _, _) =>
      NumberKeeps(s, v);
    case String(body) =>
      StringKeeps(s, body);
    case Array(open, items, close) =>
      var inside := s.(brackets := s.brackets + 1);
      MarkSteps(s, open, '[', inside);
      ItemsKeep(inside, items);
      MarkSteps(inside, close, ']', s);
      RunThen(inside, PrintItems(items), inside, PrintMark(close, ']'), s);
      RunThen(s, PrintMark(open, '['), inside, PrintItems(items) + PrintMark(close, ']'), s);
    case Object(open, members, close) =>
      var inside := s.(braces := s.braces + 1);
      MarkSteps(s, open, '{', inside);
      MembersKeep(inside, members);
      MarkSteps(inside, close, '}', s);
      RunThen(inside, PrintMembers(members), inside, PrintMark(close, '}'), s);
      RunThen(s, PrintMark(open, '{'), inside, PrintMembers(members) + PrintMark(close, '}'), s);
  }

  lemma {:induction false} ItemsKeep(s: Scan, items: Items)
    requires Idle(s) && ItemsOk(items)
    ensures Run(s, PrintItems(items)) == s
    decreases items
  {
    match items
    case NoItems =>
    case Items(head, tail) =>
      ValueKeeps(s, head);
      MoreItemsKeep(s, tail);
      RunThen(s, Print(head), s, PrintMoreItems(tail), s);
  }

  lemma {:induction false} MoreItemsKeep(s: Scan, m: MoreItems)
    requires Idle(s) && MoreItemsOk(m)
    ensures Run(s, PrintMoreItems(m)) == s
    decreases m
  {
    match m
    case EndItems =>
    case NextItem(separator, head, tail) =>
      MarkSteps(s, separator, ',', s);
      ValueKeeps(s, head);
      MoreItemsKeep(s, tail);
      RunThen(s, Print(head), s, PrintMoreItems(tail), s);
      RunThen(s, PrintMark(separator, ','), s, Print(head) + PrintMoreItems(tail), s);
  }

  lemma MemberKeeps(s: Scan, key: seq<StringChar>, colon: Pad)
    requires Idle(s) && StringOk(key) && PadOk(colon)
    ensures Run(s, PrintMember(key, colon)) == s
  {
    StringKeeps(s, key);
    MarkSteps(s, colon, ':', s);
    RunThen(s, PrintString(key), s, PrintMark(colon, ':'), s);
  }

  lemma {:induction false} MembersKeep(s: Scan, members: Members)
    requires Idle(s) && MembersOk(members)
    ensures Run(s, PrintMembers(members)) == s
    decreases members
  {
    match members
    case NoMembers =>
    case Members(key, colon, head, tail) =>
      MemberKeeps(s, key, colon);
      ValueKeeps(s, head);
      MoreMembersKeep(s, tail);
      RunThen(s, Print(head), s, PrintMoreMembers(tail), s);
      RunThen(s, PrintMember(key, colon), s, Print(head) + PrintMoreMembers(tail), s);
  }

  lemma {:induction false} MoreMembersKeep(s: Scan, m: MoreMembers)
    requires Idle(s) && MoreMembersOk(m)
    ensures Run(s, PrintMoreMembers(m)) == s
    decreases m
  {
    match m
    case EndMembers =>
    case NextMember(separator, key, colon, head, tail) =>
      MarkSteps(s, separator, ',', s);
      MemberKeeps(s, key, colon);
      ValueKeeps(s, head);
      MoreMembersKeep(s, tail);
      RunThen(s, Print(head), s, PrintMoreMembers(tail), s);
      RunThen(s, PrintMember(key, colon), s, Print(head) + PrintMoreMembers(tail), s);
      RunThen(s, PrintMark(separator, ','), s, PrintMember(key, colon) + (Print(head) + PrintMoreMembers(tail)), s);
  }

  /** No beginning of any JSON text is ever turned away, and a whole text brings the scanner home. */
  lemma JsonTextAccepted(text: string, prefix: string)
    requires IsJsonText(text) && prefix <= text
    ensures Accepts(prefix)
    ensures Run(START, text) == START
  {
    var v: Value, before: string, after: string :|
      ValueOk(v) && IsWs(before) && IsWs(after) && text == before + Print(v) + after;
    PlainKeeps(START, before);
    ValueKeeps(START, v);
    PlainKeeps(START, after);
    hide Run, ValueOk, Print, IsWs;
    RunThen(START, before, START, Print(v), START);
    RunThen(START, before + Print(v), START, after, START);
    assert text == prefix + text[|prefix|..];
    PrefixClosed(prefix, text[|prefix|..]);
  }

  /** The converse fails: the scanner is a filter, not a parser. */
  lemma AcceptanceIsNotJson()
    ensures Accepts("]") == false
    ensures Accepts("[}") == false
    ensures Accepts("x") && forall rest: string :: !IsJsonText("x" + rest)
  {
    assert "]"[1..] == "" && "[}"[1..] == "}" && "}"[1..] == "" && "x"[1..] == "";
    assert Run(START, "]") == Run(Step(START, ']'), "");
    assert Run(START, "[}") == Run(Step(START, '['), "}") == Run(Step(Step(START, '['), '}'), "");
    assert Run(START, "x") == Run(Step(START, 'x'), "");
    forall rest: string ensures !IsJsonText("x" + rest) {
      assert ("x" + rest)[0] == 'x';
      forall v: Value, before: string, after: string | ValueOk(v) && IsWs(before) && IsWs(after)
        ensures "x" + rest != before + Print(v) + after
      {
        FirstOfValue(v);
        assert before != "" ==> before[0] in before;
        assert (before + Print(v) + after)[0] != 'x';
      }
    }
  }

  lemma FirstOfValue(v: Value)
    requires ValueOk(v)
    ensures Print(v) != "" && Print(v)[0] != 'x'
  {
    match v
    case Literal(name) =>
    case Number(minus, digits, frac, exp) =>
      assert digits[0] in digits;
    case String(body) =>
    case Array(open, items, close) =>
      if open.before != "" { assert open.before[0] in open.before; }
    case Object(open, members, close) =>
      if open.before != "" { assert open.before[0] in open.before; }
  }
}
