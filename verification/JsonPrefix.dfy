/** The hand-written scanner that decides whether streamed tool arguments may still become JSON,
    and its relation to the grammar of RFC 8259. */
module JsonPrefix {
  import opened Text

  /** What the scanner remembers between two characters. */
  datatype Scan =
    | Rejected
    | Scanning(braces: nat, brackets: nat, inString: bool, escaped: bool)

  const START := Scanning(0, 0, false, false)

  function Step(s: Scan, c: char): Scan {
    match s
    case Rejected => Rejected
    case Scanning(braces, brackets, true, true) => s.(escaped := false)
    case Scanning(braces, brackets, true, false) =>
      if c == '\\' then s.(escaped := true) else if c == '"' then s.(inString := false) else s
    case Scanning(braces, brackets, false, _) =>
      match c
      case '"' => s.(inString := true)
      case '{' => s.(braces := braces + 1)
      case '}' => if braces == 0 then Rejected else s.(braces := braces - 1)
      case '[' => s.(brackets := brackets + 1)
      case ']' => if brackets == 0 then Rejected else s.(brackets := brackets - 1)
      case _ => s
  }

  function Run(s: Scan, text: string): Scan
    decreases |text|
  {
    if text == "" then s else Run(Step(s, text[0]), text[1..])
  }

  predicate Accepts(text: string) {
    Run(START, text) != Rejected
  }

  lemma {:induction false} RunConcat(s: Scan, a: string, b: string)
    ensures Run(s, a + b) == Run(Run(s, a), b)
    decreases |a|
  {
    if a == "" {
      assert a + b == b;
    } else {
      assert (a + b)[0] == a[0] && (a + b)[1..] == a[1..] + b;
      RunConcat(Step(s, a[0]), a[1..], b);
    }
  }

  lemma RunSnoc(s: Scan, a: string, c: char)
    ensures Run(s, a + [c]) == Step(Run(s, a), c)
  {
    RunConcat(s, a, [c]);
    assert Run(Run(s, a), [c]) == Run(Step(Run(s, a), c), [c][1..]);
  }

  lemma {:induction false} RejectedStays(text: string)
    ensures Run(Rejected, text) == Rejected
    decreases |text|
  {
    if text != "" {
      RejectedStays(text[1..]);
    }
  }

  /** Whatever is accepted was accepted at every earlier moment. */
  lemma PrefixClosed(a: string, b: string)
    requires Accepts(a + b)
    ensures Accepts(a)
  {
    RunConcat(START, a, b);
    RejectedStays(b);
  }

  /** The scanner as written: one pass over the stored text and the incoming chunk, five local
      variables, an early exit on the first closing mark that has no opening one. */
  method IsValidJsonPrefix(existing: string, incoming: string) returns (ok: bool)
    ensures ok <==> Accepts(existing + incoming)
  {
    var chars := existing + incoming;
    var braceDepth: int, bracketDepth: int := 0, 0;
    var inString, escaped := false, false;
    for i := 0 to |chars|
      invariant braceDepth >= 0 && bracketDepth >= 0
      invariant Run(START, chars[..i]) == Scanning(braceDepth, bracketDepth, inString, escaped)
      invariant !inString ==> !escaped
    {
      var ch := chars[i];
      assert chars[..i + 1] == chars[..i] + [ch];
      assert chars == chars[..i + 1] + chars[i + 1..];
      RunSnoc(START, chars[..i], ch);
      if inString {
        if escaped {
          escaped := false;
          continue;
        }
        match ch {
          case '\\' => escaped := true;
          case '"' => inString := false;
          case _ =>
        }
        continue;
      }
      match ch {
        case '"' => inString := true;
        case '{' => braceDepth := braceDepth + 1;
        case '}' =>
          braceDepth := braceDepth - 1;
          if braceDepth < 0 {
            if Accepts(chars) { PrefixClosed(chars[..i + 1], chars[i + 1..]); }
            return false;
          }
        case '[' => bracketDepth := bracketDepth + 1;
        case ']' =>
          bracketDepth := bracketDepth - 1;
          if bracketDepth < 0 {
            if Accepts(chars) { PrefixClosed(chars[..i + 1], chars[i + 1..]); }
            return false;
          }
        case _ =>
      }
    }
    assert chars[..|chars|] == chars;
    return true;
  }

  // ------------------------------------------------------------------------------------------
  // What acceptance means, said without the scanner.

  /** True when the position after `text` lies inside a JSON string, and whether it is escaped. */
  function Quoting(text: string): (bool, bool) {
    if text == "" then (false, false)
    else
      var (inString, escaped) := Quoting(text[..|text| - 1]);
      var c := text[|text| - 1];
      if inString && escaped then (true, false)
      else if inString && c == '\\' then (true, true)
      else if c == '"' then (!inString, false)
      else (inString, false)
  }

  /** Opening marks minus closing marks, counted outside strings only. */
  function Balance(text: string, opening: char, closing: char): int {
    if text == "" then 0
    else
      var before := text[..|text| - 1];
      var c := text[|text| - 1];
      Balance(before, opening, closing) +
      (if Quoting(before).0 then 0 else if c == opening then 1 else if c == closing then -1 else 0)
  }

  predicate NeverUnderflows(text: string) {
    forall n :: 0 <= n <= |text| ==>
                  Balance(text[..n], '{', '}') >= 0 && Balance(text[..n], '[', ']') >= 0
  }

  ghost predicate Computes(text: string, s: Scan) {
    && s.Scanning?
    && s.braces == Balance(text, '{', '}')
    && s.brackets == Balance(text, '[', ']')
    && (s.inString, s.escaped) == Quoting(text)
  }

  lemma NeverUnderflowsSnoc(before: string, c: char)
    ensures NeverUnderflows(before + [c]) <==>
            NeverUnderflows(before) &&
            Balance(before + [c], '{', '}') >= 0 && Balance(before + [c], '[', ']') >= 0
  {
    var text := before + [c];
    assert text[..|text|] == text;
    assert forall n :: 0 <= n <= |before| ==> text[..n] == before[..n];
    if NeverUnderflows(text) {
      assert Balance(text[..|text|], '{', '}') >= 0 && Balance(text[..|text|], '[', ']') >= 0;
      forall n | 0 <= n <= |before|
        ensures Balance(before[..n], '{', '}') >= 0 && Balance(before[..n], '[', ']') >= 0
      {
        assert Balance(text[..n], '{', '}') >= 0 && Balance(text[..n], '[', ']') >= 0;
      }
    }
  }

  /** The scanner computes exactly these quantities and rejects exactly on an underflow. */
  lemma {:induction false} AcceptsIffNeverUnderflows(text: string)
    ensures Accepts(text) <==> NeverUnderflows(text)
    ensures Accepts(text) ==> Computes(text, Run(START, text))
    decreases |text|
  {
    if text == "" {
      assert forall n :: 0 <= n <= |text| ==> text[..n] == "";
    } else {
      var before, c := text[..|text| - 1], text[|text| - 1];
      assert text == before + [c];
      AcceptsIffNeverUnderflows(before);
      RunSnoc(START, before, c);
      NeverUnderflowsSnoc(before, c);
    }
  }
}
