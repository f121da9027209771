/** One tool's stored arguments: what a chunk does to them, and what a whole chunked stream does. */
module ToolArguments {
  import opened Text
  import opened JsonPrefix
  import opened JsonGrammar

  const MAX_STORED_PARTIAL_BYTES: nat := 65_536
  const MAX_TOOL_DELTA_QUEUE_DEPTH: nat := 32

  /** The longest beginning of `chunk` that still fits behind `stored`, appended to it. */
  function Store(stored: string, chunk: string): (r: string)
    requires ByteLen(stored) <= MAX_STORED_PARTIAL_BYTES
    ensures ByteLen(r) <= MAX_STORED_PARTIAL_BYTES
    decreases |chunk|
  {
    if chunk == "" then stored
    else
      ByteLenSnoc(stored, chunk[0]);
      if ByteLen(stored) + Utf8Width(chunk[0]) > MAX_STORED_PARTIAL_BYTES then stored
      else Store(stored + [chunk[0]], chunk[1..])
  }

  predicate Overflows(stored: string, chunk: string) {
    ByteLen(stored) + ByteLen(chunk) > MAX_STORED_PARTIAL_BYTES
  }

  /** What `Store` keeps: some first `k` characters, and `k` is as large as the cap allows. */
  lemma {:induction false} StoreIsLongestFit(stored: string, chunk: string) returns (k: nat)
    requires ByteLen(stored) <= MAX_STORED_PARTIAL_BYTES
    ensures k <= |chunk| && Store(stored, chunk) == stored + chunk[..k]
    ensures k == |chunk| <==> !Overflows(stored, chunk)
    ensures k < |chunk| ==> ByteLen(stored + chunk[..k + 1]) > MAX_STORED_PARTIAL_BYTES
    decreases |chunk|
  {
    if chunk == "" {
      k := 0;
      assert stored + chunk[..0] == stored;
    } else {
      var c, rest := chunk[0], chunk[1..];
      ByteLenSnoc(stored, c);
      ByteLenConcat(stored, chunk[..1]);
      assert chunk[..1] == [c];
      if ByteLen(stored) + Utf8Width(c) > MAX_STORED_PARTIAL_BYTES {
        k := 0;
        assert stored + chunk[..0] == stored;
        assert stored + chunk[..1] == stored + [c];
      } else {
        var j := StoreIsLongestFit(stored + [c], rest);
        k := j + 1;
        ByteLenSnoc(stored, c);
        assert Overflows(stored, chunk) == Overflows(stored + [c], rest);
        assert Store(stored, chunk) == Store(stored + [c], rest);
        hide Store, ByteLen, Overflows;
        assert stored + [c] + rest[..j] == stored + chunk[..k];
        if j < |rest| { assert stored + [c] + rest[..j + 1] == stored + chunk[..k + 1]; }
      }
    }
  }

  /** Whatever is stored stays acceptable, also after the cap has cut something off. */
  lemma StoreAccepted(stored: string, chunk: string)
    requires ByteLen(stored) <= MAX_STORED_PARTIAL_BYTES && Accepts(stored + chunk)
    ensures Accepts(Store(stored, chunk))
  {
    var k := StoreIsLongestFit(stored, chunk);
    assert stored + chunk == stored + chunk[..k] + chunk[k..];
    PrefixClosed(stored + chunk[..k], chunk[k..]);
  }

  /** The last `n` elements, or all of them. */
  function LastN<T>(s: seq<T>, n: nat): seq<T> {
    if |s| <= n then s else s[|s| - n..]
  }

  // ------------------------------------------------------------------------------------------
  // A whole stream of chunks for one resident tool.

  /** The stored text after the chunks, or nothing as soon as one is refused as malformed. */
  datatype Fed = Refused | Stored(text: string)

  function Feed(stored: string, chunks: seq<string>): (r: Fed)
    requires ByteLen(stored) <= MAX_STORED_PARTIAL_BYTES
    decreases |chunks|
  {
    if chunks == [] then Stored(stored)
    else if !Accepts(stored + chunks[0]) then Refused
    else Feed(Store(stored, chunks[0]), chunks[1..])
  }

  lemma {:induction false} EmptyChunksAccepted(stored: string, chunks: seq<string>)
    requires ByteLen(stored) <= MAX_STORED_PARTIAL_BYTES && Accepts(stored)
    requires ByteLen(Flatten(chunks)) == 0
    ensures Feed(stored, chunks) == Stored(stored)
    decreases |chunks|
  {
    if chunks != [] {
      ByteLenConcat(chunks[0], Flatten(chunks[1..]));
      assert chunks[0] == "" && stored + chunks[0] == stored;
      EmptyChunksAccepted(stored, chunks[1..]);
    }
  }

  /** Chunking does not matter: up to one byte past the cap, the chunks are all accepted exactly when
      their concatenation passes the scanner; within the cap the text is stored in full. */
  lemma {:induction false} ChunkingIndependent(stored: string, chunks: seq<string>)
    requires Accepts(stored)
    requires ByteLen(stored) <= MAX_STORED_PARTIAL_BYTES
    requires ByteLen(stored) + ByteLen(Flatten(chunks)) <= MAX_STORED_PARTIAL_BYTES + 1
    ensures Feed(stored, chunks).Stored? <==> Accepts(stored + Flatten(chunks))
    ensures Feed(stored, chunks).Stored? && !Overflows(stored, Flatten(chunks)) ==>
              Feed(stored, chunks).text == stored + Flatten(chunks)
    decreases |chunks|
  {
    if chunks == [] {
      assert stored + Flatten(chunks) == stored;
    } else {
      var chunk, rest := chunks[0], Flatten(chunks[1..]);
      ByteLenConcat(chunk, rest);
      assert stored + Flatten(chunks) == stored + chunk + rest;
      if !Accepts(stored + chunk) {
        if Accepts(stored + chunk + rest) { PrefixClosed(stored + chunk, rest); }
      } else {
        StoreAccepted(stored, chunk);
        var k := StoreIsLongestFit(stored, chunk);
        if Overflows(stored, chunk) {
          assert rest == "" && stored + chunk + rest == stored + chunk;
          EmptyChunksAccepted(Store(stored, chunk), chunks[1..]);
        } else {
          assert chunk[..k] == chunk;
          ByteLenConcat(stored, chunk);
          ChunkingIndependent(stored + chunk, chunks[1..]);
        }
      }
    }
  }

  /** Every JSON text of `bytes` bytes, however it is cut into chunks, is accepted chunk by chunk. */
  ghost predicate AlwaysAccepted(bytes: nat) {
    forall chunks: seq<string> {:trigger Feed("", chunks)} ::
      IsJsonText(Flatten(chunks)) && ByteLen(Flatten(chunks)) == bytes ==> Feed("", chunks).Stored?
  }

  /** The bytes that scanning still gets right: the cap and one byte more, and not one further. */
  lemma JsonAlwaysAcceptedIff(bytes: nat)
    ensures AlwaysAccepted(bytes) <==> bytes <= MAX_STORED_PARTIAL_BYTES + 1
  {
    if bytes <= MAX_STORED_PARTIAL_BYTES + 1 {
      forall chunks: seq<string> {:trigger Feed("", chunks)}
        | IsJsonText(Flatten(chunks)) && ByteLen(Flatten(chunks)) == bytes
        ensures Feed("", chunks).Stored?
      {
        assert "" + Flatten(chunks) == Flatten(chunks);
        JsonTextAccepted(Flatten(chunks), Flatten(chunks));
        ChunkingIndependent("", chunks);
      }
    } else {
      LongJsonRefused(bytes - 2);
    }
  }

  /** The failing family: enough leading blanks use up the cap, the opening brace is cut off, and the
      closing brace of the empty object then looks unmatched. */
  lemma LongJsonRefused(blanks: nat)
    requires blanks >= MAX_STORED_PARTIAL_BYTES
    ensures var chunks := [Repeat(' ', blanks), "{", "}"];
            && IsJsonText(Flatten(chunks))
            && ByteLen(Flatten(chunks)) == blanks + 2
            && Feed("", chunks) == Refused
  {
    var pad := Repeat(' ', blanks);
    var chunks := [pad, "{", "}"];
    EmptyObjectAfterBlanks(blanks);
    var k := StoreIsLongestFit("", pad);
    var kept := Store("", pad);
    assert kept == pad[..k];
    FullOfBlanks(blanks, k);
    BlanksThenBrace(pad, kept);
    assert "" + pad == pad;
    assert chunks[1..] == ["{", "}"] && ["{", "}"][1..] == ["}"];
    hide Accepts, Store;
    calc {
      Feed("", chunks);
      Feed(kept, ["{", "}"]);
      Feed(kept, ["}"]);
      Refused;
    }
  }

  lemma EmptyObjectAfterBlanks(blanks: nat)
    ensures var text := Flatten([Repeat(' ', blanks), "{", "}"]);
            IsJsonText(text) && ByteLen(text) == blanks + 2
  {
    var pad := Repeat(' ', blanks);
    var chunks := [pad, "{", "}"];
    assert chunks[1..] == ["{", "}"] && ["{", "}"][1..] == ["}"] && ["}"][1..] == [];
    assert Flatten(["{", "}"]) == "{" + ("}" + Flatten<char>([])) == "{}";
    assert Flatten(chunks) == pad + "{}";
    ByteLenRepeat(' ', blanks);
    ByteLenConcat(pad, "{}");
    assert "{}"[1..] == "}" && "}"[1..] == "";
    var none := Pad("", "");
    var v := Object(none, NoMembers, none);
    assert Print(v) == "{}";
    assert pad + "{}" == pad + Print(v) + "";
    assert ValueOk(v) && IsWs(pad) && IsWs("");
  }

  /** With the cap used up by blanks an opening brace is accepted but not kept, a closing one refused. */
  lemma BlanksThenBrace(pad: string, kept: string)
    requires (forall c :: c in pad ==> c == ' ') && (forall c :: c in kept ==> c == ' ')
    requires ByteLen(kept) == MAX_STORED_PARTIAL_BYTES
    ensures Accepts(pad) && Accepts(kept + "{") && !Accepts(kept + "}")
    ensures Store(kept, "{") == kept
  {
    PlainKeeps(START, pad);
    PlainKeeps(START, kept);
    assert "{"[1..] == "" && "}"[1..] == "";
    RunThen(START, kept, START, "{", START.(braces := 1));
    RunThen(START, kept, START, "}", Rejected);
  }

  /** The blanks kept from an overlong run are exactly as many as the cap allows. */
  lemma FullOfBlanks(blanks: nat, k: nat)
    requires blanks >= MAX_STORED_PARTIAL_BYTES && k <= blanks
    requires Store("", Repeat(' ', blanks)) == Repeat(' ', blanks)[..k]
    requires k == blanks <==> !Overflows("", Repeat(' ', blanks))
    requires k < blanks ==> ByteLen("" + Repeat(' ', blanks)[..k + 1]) > MAX_STORED_PARTIAL_BYTES
    ensures k == MAX_STORED_PARTIAL_BYTES && ByteLen(Repeat(' ', blanks)[..k]) == k
  {
    var pad := Repeat(' ', blanks);
    ByteLenRepeat(' ', blanks);
    assert pad[..k] == Repeat(' ', k);
    ByteLenRepeat(' ', k);
    if k < blanks {
      assert "" + pad[..k + 1] == Repeat(' ', k + 1);
      ByteLenRepeat(' ', k + 1);
    }
  }
}
