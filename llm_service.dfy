/** Output handling of backend/services/llm_service.py: the response clean-up, the token
    filter of the streaming path, the stand-in generator used when no model is loaded,
    the engine's fallback branches and the cache-first inference service. The llama
    call itself is an input: what it returned, or the error it raised. */
module LlmService {
  import opened Text

  /** The two regular-expression steps the clean-up applies and this model leaves
      uninterpreted: the removal of `<think>...</think>` blocks and the case-insensitive
      search for a reasoning marker. */
  datatype Patterns = Patterns(removeThink: string -> string, isReasoning: string -> bool)

  /** What the engine hands back: a whole string, or the pieces a generator yields. */
  datatype Reply = Whole(text: string) | Pieces(pieces: seq<string>)

  /** What the llama call did: returned output (the completion text, and the per-chunk
      texts when streaming), or raised an error with the given message. */
  datatype ModelOutcome = Output(text: string, chunks: seq<string>) | Raised(error: string)

  const ERROR_PREFIX := "Error generating response: "
  const BROKEN_END := "</|im_end>>"
  const IM_END := "<|im_end|>"
  const USER_TAG := "<|user|>"
  const EOS := "</s>"
  const DEFAULT_QUERY := "your question"
  const QUERY_LIMIT := 50
  const MOCK_PREFIX := "[FAIL TO LOAD MODEL] Could not process: '"
  const MOCK_SUFFIX := "'. The actual LLM model is not loaded."

  /** The text a reply stands for: the string, or its pieces one after another. */
  function Flatten(r: Reply): string {
    match r
    case Whole(t) => t
    case Pieces(ps) => Concat(ps)
  }

  // ---------------------------------------------------------------------
  // Line-level clean-up (_clean_response)
  // ---------------------------------------------------------------------

  /** `re.sub` of a literal pattern: every leftmost occurrence removed. */
  function RemoveAll(s: string, pattern: string): string
    requires |pattern| > 0
  {
    Concat(Split(s, pattern))
  }

  /** `[l.strip() for l in pieces if l.strip()]`. */
  function StrippedLines(pieces: seq<string>): seq<string>
    decreases |pieces|
  {
    if pieces == [] then []
    else
      var l := Strip(pieces[|pieces| - 1]);
      StrippedLines(pieces[..|pieces| - 1]) + (if l != "" then [l] else [])
  }

  /** The lines on which the reasoning-marker search fails, in order. */
  function WithoutReasoning(lines: seq<string>, isReasoning: string -> bool): seq<string>
    decreases |lines|
  {
    if lines == [] then []
    else
      var l := lines[|lines| - 1];
      WithoutReasoning(lines[..|lines| - 1], isReasoning) + (if isReasoning(l) then [] else [l])
  }

  /** The first occurrence of each line, in order. */
  function Dedup(xs: seq<string>): seq<string>
    decreases |xs|
  {
    if xs == [] then []
    else
      var d := Dedup(xs[..|xs| - 1]);
      var x := xs[|xs| - 1];
      if x in d then d else d + [x]
  }

  predicate Distinct(xs: seq<string>) {
    forall i, j :: 0 <= i < j < |xs| ==> xs[i] != xs[j]
  }

  /** The position of the first occurrence of `x` in `xs`. */
  function FirstIndex(xs: seq<string>, x: string): (n: nat)
    requires x in xs
    ensures n < |xs| && xs[n] == x
    ensures forall k :: 0 <= k < n ==> xs[k] != x
  {
    if xs[0] == x then 0 else 1 + FirstIndex(xs[1..], x)
  }

  lemma {:induction false} FirstIndexAppend(xs: seq<string>, y: string, x: string)
    requires x in xs
    ensures x in xs + [y] && FirstIndex(xs + [y], x) == FirstIndex(xs, x)
  {
    var n := FirstIndex(xs, x);
    var m := FirstIndex(xs + [y], x);
    assert (xs + [y])[n] == x;
    assert m <= n;
    assert xs[m] == x;
  }

  /** Deduplication keeps exactly the lines of its input, once each. */
  lemma {:induction false} DedupSpec(xs: seq<string>)
    ensures forall x :: x in Dedup(xs) <==> x in xs
    ensures Distinct(Dedup(xs))
    decreases |xs|
  {
    if xs != [] {
      var init := xs[..|xs| - 1];
      DedupSpec(init);
      assert xs == init + [xs[|xs| - 1]];
    }
  }

  /** The kept lines appear in the order of their first occurrences. */
  lemma {:induction false} DedupOrder(xs: seq<string>)
    ensures forall x :: x in Dedup(xs) ==> x in xs
    ensures forall i, j :: 0 <= i < j < |Dedup(xs)| ==>
      FirstIndex(xs, Dedup(xs)[i]) < FirstIndex(xs, Dedup(xs)[j])
    decreases |xs|
  {
    DedupSpec(xs);
    if xs != [] {
      var init := xs[..|xs| - 1];
      var x := xs[|xs| - 1];
      DedupOrder(init);
      DedupSpec(init);
      var d := Dedup(init);
      assert xs == init + [x];
      forall y | y in d ensures FirstIndex(xs, y) == FirstIndex(init, y) && FirstIndex(init, y) < |init| {
        FirstIndexAppend(init, x, y);
      }
      if x !in d {
        assert x !in init;
        assert FirstIndex(xs, x) == |init|;
        forall i, j | 0 <= i < j < |Dedup(xs)|
          ensures FirstIndex(xs, Dedup(xs)[i]) < FirstIndex(xs, Dedup(xs)[j])
        {
          assert Dedup(xs)[i] == d[i];
          if j < |d| {
            assert Dedup(xs)[j] == d[j];
          }
        }
      }
    }
  }

  /** The text after the pattern removals, before it is cut into lines. */
  function Unwrapped(text: string, patterns: Patterns): string {
    RemoveAll(RemoveAll(patterns.removeThink(text), BROKEN_END), IM_END)
  }

  /** The `final` list of _clean_response. */
  function CleanedLines(text: string, patterns: Patterns): seq<string> {
    Dedup(WithoutReasoning(StrippedLines(Split(Unwrapped(text, patterns), "\n")), patterns.isReasoning))
  }

  /** _clean_response: empty input comes back unchanged; otherwise the kept lines joined
      by line breaks, stripped. */
  function CleanedText(text: string, patterns: Patterns): (r: string)
    ensures text == "" ==> r == ""
  {
    if text == "" then text else Strip(Join(CleanedLines(text, patterns), "\n"))
  }

  /** `x` is the strip of one of the pieces. */
  predicate StripOfPiece(pieces: seq<string>, x: string) {
    exists i :: 0 <= i < |pieces| && x == Strip(pieces[i])
  }

  lemma StripOfSnoc(pieces: seq<string>, x: string)
    requires pieces != []
    ensures StripOfPiece(pieces, x) <==>
      StripOfPiece(pieces[..|pieces| - 1], x) || x == Strip(pieces[|pieces| - 1])
  {
    var init := pieces[..|pieces| - 1];
    if exists i :: 0 <= i < |pieces| && x == Strip(pieces[i]) {
      var i :| 0 <= i < |pieces| && x == Strip(pieces[i]);
      if i < |init| {
        assert init[i] == pieces[i];
      }
    }
    if exists i :: 0 <= i < |init| && x == Strip(init[i]) {
      var i :| 0 <= i < |init| && x == Strip(init[i]);
      assert init[i] == pieces[i];
    }
  }

  /** A line is kept by the strip pass exactly when it is the non-empty strip of a piece. */
  lemma {:induction false} StrippedLinesMembers(pieces: seq<string>, x: string)
    ensures x in StrippedLines(pieces) <==> x != "" && StripOfPiece(pieces, x)
    decreases |pieces|
  {
    if pieces != [] {
      var init := pieces[..|pieces| - 1];
      StrippedLinesMembers(init, x);
      StripOfSnoc(pieces, x);
    }
  }

  lemma {:induction false} StrippedLinesClean(pieces: seq<string>)
    requires forall i :: 0 <= i < |pieces| ==> '\n' !in pieces[i]
    ensures forall i :: 0 <= i < |StrippedLines(pieces)| ==>
      var l := StrippedLines(pieces)[i]; l != "" && Strip(l) == l && '\n' !in l
    ensures forall x :: x in StrippedLines(pieces) <==> x != "" && StripOfPiece(pieces, x)
    decreases |pieces|
  {
    if pieces != [] {
      var p := pieces[|pieces| - 1];
      StrippedLinesClean(pieces[..|pieces| - 1]);
      StripIdempotent(p);
      StripSpec(p);
    }
    forall x ensures x in StrippedLines(pieces) <==> x != "" && StripOfPiece(pieces, x) {
      StrippedLinesMembers(pieces, x);
    }
  }

  lemma {:induction false} WithoutReasoningSpec(lines: seq<string>, isReasoning: string -> bool)
    ensures forall x :: x in WithoutReasoning(lines, isReasoning) <==> x in lines && !isReasoning(x)
    decreases |lines|
  {
    if lines != [] {
      var init := lines[..|lines| - 1];
      WithoutReasoningSpec(init, isReasoning);
      assert lines == init + [lines[|lines| - 1]];
    }
  }

  /** The lines of the clean-up are exactly the non-empty, marker-free strips of the
      pieces between line breaks. */
  lemma CleanedLinesMembers(text: string, patterns: Patterns, x: string)
    ensures x in CleanedLines(text, patterns) <==>
      x != "" && !patterns.isReasoning(x) && StripOfPiece(Split(Unwrapped(text, patterns), "\n"), x)
  {
    var pieces := Split(Unwrapped(text, patterns), "\n");
    var stripped := StrippedLines(pieces);
    var kept := WithoutReasoning(stripped, patterns.isReasoning);
    assert x in CleanedLines(text, patterns) <==> x in kept by {
      DedupSpec(kept);
    }
    assert x in kept <==> x in stripped && !patterns.isReasoning(x) by {
      WithoutReasoningSpec(stripped, patterns.isReasoning);
    }
    StrippedLinesMembers(pieces, x);
  }

  /** Every line of the clean-up is non-empty, its own strip, without a line break and
      without a reasoning marker, and no line occurs twice; and every such strip of a piece
      is kept. */
  lemma CleanedLinesSpec(text: string, patterns: Patterns)
    ensures var ls := CleanedLines(text, patterns);
      && Distinct(ls)
      && forall i :: 0 <= i < |ls| ==>
           ls[i] != "" && Strip(ls[i]) == ls[i] && '\n' !in ls[i] && !patterns.isReasoning(ls[i])
    ensures var pieces := Split(Unwrapped(text, patterns), "\n");
      forall i :: 0 <= i < |pieces| && Strip(pieces[i]) != "" && !patterns.isReasoning(Strip(pieces[i])) ==>
        Strip(pieces[i]) in CleanedLines(text, patterns)
  {
    forall i | 0 <= i < |Split(Unwrapped(text, patterns), "\n")|
      ensures var l := Strip(Split(Unwrapped(text, patterns), "\n")[i]);
        l != "" && !patterns.isReasoning(l) ==> l in CleanedLines(text, patterns)
    {
      CleanedLinesMembers(text, patterns, Strip(Split(Unwrapped(text, patterns), "\n")[i]));
    }
    var pieces := Split(Unwrapped(text, patterns), "\n");
    SplitPiecesFree(Unwrapped(text, patterns), "\n");
    forall i | 0 <= i < |pieces| ensures '\n' !in pieces[i] {
      if '\n' in pieces[i] {
        var k :| 0 <= k < |pieces[i]| && pieces[i][k] == '\n';
        assert pieces[i][k..k + 1] == "\n";
        assert OccursAt(pieces[i], "\n", k);
      }
    }
    var stripped := StrippedLines(pieces);
    StrippedLinesClean(pieces);
    forall x | x in stripped ensures x != "" && Strip(x) == x && '\n' !in x {
      var k :| 0 <= k < |stripped| && stripped[k] == x;
    }
    var kept := WithoutReasoning(stripped, patterns.isReasoning);
    WithoutReasoningSpec(stripped, patterns.isReasoning);
    DedupSpec(kept);
    var ls := Dedup(kept);
    forall i | 0 <= i < |ls|
      ensures ls[i] != "" && Strip(ls[i]) == ls[i] && '\n' !in ls[i] && !patterns.isReasoning(ls[i])
    {
      assert ls[i] in ls;
    }
  }

  /** The cleaned text is the kept lines joined by line breaks (the final strip changes
      nothing), so splitting it on line breaks gives the kept lines back. */
  lemma CleanedTextLines(text: string, patterns: Patterns)
    requires text != ""
    ensures var ls := CleanedLines(text, patterns);
      && CleanedText(text, patterns) == Join(ls, "\n")
      && (ls != [] ==> Split(CleanedText(text, patterns), "\n") == ls)
  {
    var ls := CleanedLines(text, patterns);
    CleanedLinesSpec(text, patterns);
    if ls != [] {
      JoinEnds(ls, "\n");
      var j := Join(ls, "\n");
      var last := ls[|ls| - 1];
      assert !IsSpace(ls[0][0]) by {
        StripSpec(ls[0]);
      }
      assert !IsSpace(last[|last| - 1]) by {
        StripSpec(last);
      }
      StripNoop(j);
      StripSpec(j);
      SplitJoin(ls, "\n");
    } else {
      assert Join(ls, "\n") == "";
    }
  }

  /** _clean_response: the three passes over the lines, then the final join. */
  method CleanResponse(text: string, patterns: Patterns) returns (r: string)
    ensures r == CleanedText(text, patterns)
  {
    if text == "" {
      return text;
    }
    var pieces := Split(Unwrapped(text, patterns), "\n");
    var lines := StripAll(pieces);
    var cleanLines := DropReasoning(lines, patterns.isReasoning);
    var final := DropRepeats(cleanLines);
    r := Strip(Join(final, "\n"));
  }

  /** The first pass: the stripped lines that are not empty. */
  method StripAll(pieces: seq<string>) returns (lines: seq<string>)
    ensures lines == StrippedLines(pieces)
  {
    lines := [];
    var i := 0;
    while i < |pieces|
      invariant 0 <= i <= |pieces|
      invariant lines == StrippedLines(pieces[..i])
    {
      assert pieces[..i + 1][..i] == pieces[..i];
      var l := Strip(pieces[i]);
      if l != "" {
        lines := lines + [l];
      }
      i := i + 1;
    }
    assert pieces[..|pieces|] == pieces;
  }

  /** The second pass: the lines without a reasoning marker. */
  method DropReasoning(lines: seq<string>, isReasoning: string -> bool) returns (kept: seq<string>)
    ensures kept == WithoutReasoning(lines, isReasoning)
  {
    kept := [];
    var i := 0;
    while i < |lines|
      invariant 0 <= i <= |lines|
      invariant kept == WithoutReasoning(lines[..i], isReasoning)
    {
      assert lines[..i + 1][..i] == lines[..i];
      if !isReasoning(lines[i]) {
        kept := kept + [lines[i]];
      }
      i := i + 1;
    }
    assert lines[..|lines|] == lines;
  }

  /** The third pass: each line the first time it is seen. */
  method DropRepeats(lines: seq<string>) returns (final: seq<string>)
    ensures final == Dedup(lines)
  {
    final := [];
    var i := 0;
    while i < |lines|
      invariant 0 <= i <= |lines|
      invariant final == Dedup(lines[..i])
    {
      assert lines[..i + 1][..i] == lines[..i];
      if lines[i] !in final {
        final := final + [lines[i]];
      }
      i := i + 1;
    }
    assert lines[..|lines|] == lines;
  }

  // ---------------------------------------------------------------------
  // Streaming filter (_stream_output)
  // ---------------------------------------------------------------------

  /** A chunk that is only a reasoning delimiter, ignoring surrounding space and case. */
  predicate IsThinkMarker(token: string) {
    var t := Lower(Strip(token));
    t == "<think>" || t == "</think>"
  }

  predicate Survives(token: string) {
    token != "" && !IsThinkMarker(token)
  }

  /** The chunks that get past the filter, in order. */
  function Survivors(chunks: seq<string>): seq<string>
    decreases |chunks|
  {
    if chunks == [] then []
    else
      var t := chunks[|chunks| - 1];
      Survivors(chunks[..|chunks| - 1]) + (if Survives(t) then [t] else [])
  }

  /** What the first surviving chunk becomes: its clean-up, when that is non-empty. */
  function FirstPiece(token: string, patterns: Patterns): seq<string> {
    var c := CleanedText(token, patterns);
    if c != "" then [c] else []
  }

  /** The pieces _stream_output yields: the cleaned first surviving chunk, if non-empty,
      then every later surviving chunk verbatim. */
  function StreamPieces(chunks: seq<string>, patterns: Patterns): seq<string> {
    var s := Survivors(chunks);
    if s == [] then [] else FirstPiece(s[0], patterns) + s[1..]
  }

  /** No yielded piece is empty, and every piece after the cleaned first chunk is a chunk
      that passed the filter. */
  lemma StreamPiecesSpec(chunks: seq<string>, patterns: Patterns)
    ensures var out := StreamPieces(chunks, patterns);
      && (forall i :: 0 <= i < |out| ==> out[i] != "")
      && (Survivors(chunks) != [] ==>
            var n := |FirstPiece(Survivors(chunks)[0], patterns)|;
            forall i :: n <= i < |out| ==> Survives(out[i]))
  {
    SurvivorsSurvive(chunks);
  }

  const THINK_OPEN := "<think>"

  /** Two think markers on two lines, as one chunk. */
  const TWO_MARKERS := THINK_OPEN + "\n" + THINK_OPEN

  lemma TwoMarkersUnwrapped(patterns: Patterns)
    requires patterns.removeThink(TWO_MARKERS) == TWO_MARKERS
    ensures Unwrapped(TWO_MARKERS, patterns) == TWO_MARKERS
  {
    var none: seq<string> := [];
    assert '|' !in TWO_MARKERS;
    FindMissingChar(TWO_MARKERS, BROKEN_END, 2);
    FindMissingChar(TWO_MARKERS, IM_END, 1);
    assert Concat([TWO_MARKERS]) == TWO_MARKERS by { assert [TWO_MARKERS][..0] == none; }
  }

  lemma TwoMarkersLines()
    ensures Split(TWO_MARKERS, "\n") == [THINK_OPEN, THINK_OPEN]
  {
    FindLead(THINK_OPEN, "\n", THINK_OPEN);
    SplitAt(TWO_MARKERS, "\n", 7);
    assert TWO_MARKERS[..7] == THINK_OPEN && TWO_MARKERS[8..] == THINK_OPEN;
    FindLeadNone(THINK_OPEN, "\n");
  }

  lemma TwoMarkersKept(isReasoning: string -> bool)
    requires !isReasoning(THINK_OPEN)
    ensures Dedup(WithoutReasoning(StrippedLines([THINK_OPEN, THINK_OPEN]), isReasoning)) == [THINK_OPEN]
  {
    var none: seq<string> := [];
    var two := [THINK_OPEN, THINK_OPEN];
    StripNoop(THINK_OPEN);
    assert two[..1] == [THINK_OPEN] && [THINK_OPEN][..0] == none;
    assert StrippedLines([THINK_OPEN]) == [THINK_OPEN];
    assert StrippedLines(two) == two;
    assert WithoutReasoning([THINK_OPEN], isReasoning) == [THINK_OPEN];
    assert WithoutReasoning(two, isReasoning) == two;
    assert Dedup([THINK_OPEN]) == [THINK_OPEN];
  }

  lemma TwoMarkersCleaned(patterns: Patterns)
    requires patterns.removeThink(TWO_MARKERS) == TWO_MARKERS
    requires !patterns.isReasoning(THINK_OPEN)
    ensures CleanedText(TWO_MARKERS, patterns) == THINK_OPEN
  {
    TwoMarkersUnwrapped(patterns);
    TwoMarkersLines();
    TwoMarkersKept(patterns.isReasoning);
    assert CleanedLines(TWO_MARKERS, patterns) == [THINK_OPEN];
    StripNoop(THINK_OPEN);
  }

  /** The first chunk is filtered before its clean-up and not after, so a think marker the
      clean-up uncovers is yielded: here a chunk holding the marker twice, once per line, is
      cut into lines, deduplicated and yielded as the bare marker. */
  lemma FirstPieceMayBeMarker(patterns: Patterns)
    requires patterns.removeThink(TWO_MARKERS) == TWO_MARKERS
    requires !patterns.isReasoning(THINK_OPEN)
    ensures var out := StreamPieces([TWO_MARKERS], patterns);
      out == [THINK_OPEN] && IsThinkMarker(out[0])
  {
    var none: seq<string> := [];
    assert Survives(TWO_MARKERS) by {
      StripNoop(TWO_MARKERS);
      assert |Lower(Strip(TWO_MARKERS))| == 15;
    }
    assert Survivors([TWO_MARKERS]) == [TWO_MARKERS] by {
      assert [TWO_MARKERS][..0] == none;
    }
    assert IsThinkMarker(THINK_OPEN) by {
      StripNoop(THINK_OPEN);
      assert Lower(THINK_OPEN) == THINK_OPEN;
    }
    TwoMarkersCleaned(patterns);
    assert FirstPiece(TWO_MARKERS, patterns) == [THINK_OPEN];
  }

  /** The evidently intended first piece: the clean-up passes the same filter as every
      later chunk. */
  function FirstPieceFiltered(token: string, patterns: Patterns): (r: seq<string>)
    ensures forall i :: 0 <= i < |r| ==> Survives(r[i])
  {
    var c := CleanedText(token, patterns);
    if Survives(c) then [c] else []
  }

  /** _stream_output with the filter also applied to the cleaned first chunk. */
  function StreamPiecesFiltered(chunks: seq<string>, patterns: Patterns): seq<string> {
    var s := Survivors(chunks);
    if s == [] then [] else FirstPieceFiltered(s[0], patterns) + s[1..]
  }

  /** With the filter after the clean-up, no yielded piece is empty or a think marker; and the
      result differs from the code's only when the cleaned first chunk is a marker. */
  lemma StreamPiecesFilteredClean(chunks: seq<string>, patterns: Patterns)
    ensures var out := StreamPiecesFiltered(chunks, patterns);
      forall i :: 0 <= i < |out| ==> out[i] != "" && !IsThinkMarker(out[i])
    ensures var s := Survivors(chunks);
      (s == [] || !IsThinkMarker(CleanedText(s[0], patterns))) ==>
        StreamPiecesFiltered(chunks, patterns) == StreamPieces(chunks, patterns)
  {
    SurvivorsSurvive(chunks);
    var s := Survivors(chunks);
    if s != [] {
      var out := StreamPiecesFiltered(chunks, patterns);
      var first := FirstPieceFiltered(s[0], patterns);
      forall i | 0 <= i < |out| ensures Survives(out[i]) {
        if i >= |first| {
          assert out[i] == s[1..][i - |first|];
        }
      }
    }
  }

  lemma {:induction false} SurvivorsSurvive(chunks: seq<string>)
    ensures forall i :: 0 <= i < |Survivors(chunks)| ==> Survives(Survivors(chunks)[i])
    decreases |chunks|
  {
    if chunks != [] {
      SurvivorsSurvive(chunks[..|chunks| - 1]);
    }
  }

  lemma SurvivorsStep(chunks: seq<string>, t: string)
    ensures Survivors(chunks + [t]) == Survivors(chunks) + (if Survives(t) then [t] else [])
  {
    assert (chunks + [t])[..|chunks + [t]| - 1] == chunks;
  }

  /** The first surviving chunk: buffered, cleaned, and yielded when the clean-up is
      non-empty. */
  method FirstChunk(buffer: string, token: string, patterns: Patterns) returns (yielded: seq<string>)
    requires buffer == ""
    ensures yielded == FirstPiece(token, patterns)
  {
    var buffered := buffer + token;
    assert buffered == token;
    var cleaned := CleanResponse(buffered, patterns);
    yielded := if cleaned != "" then [cleaned] else [];
  }

  /** What _stream_output has yielded after the chunks `seen`, given the first-token flag
      and the first chunk that got through the filter. */
  ghost predicate Streamed(seen: seq<string>, out: seq<string>, firstToken: bool, head: string, patterns: Patterns) {
    && (firstToken <==> Survivors(seen) == [])
    && (firstToken ==> out == [])
    && (!firstToken ==> Survivors(seen)[0] == head && out == FirstPiece(head, patterns) + Survivors(seen)[1..])
  }

  lemma StreamedPieces(seen: seq<string>, out: seq<string>, firstToken: bool, head: string, patterns: Patterns)
    requires Streamed(seen, out, firstToken, head, patterns)
    ensures out == StreamPieces(seen, patterns)
  {
  }

  /** One pass of the loop body of _stream_output over `token`. */
  method StreamChunk(token: string, out: seq<string>, firstToken: bool, buffer: string, patterns: Patterns,
                     ghost seen: seq<string>, ghost head: string)
    returns (out': seq<string>, firstToken': bool, buffer': string, ghost head': string)
    requires buffer == "" && Streamed(seen, out, firstToken, head, patterns)
    ensures buffer' == "" && Streamed(seen + [token], out', firstToken', head', patterns)
  {
    out', firstToken', buffer', head' := out, firstToken, buffer, head;
    ghost var s := Survivors(seen);
    SurvivorsStep(seen, token);
    if token == "" || IsThinkMarker(token) {
      return;
    }
    if firstToken {
      var first := FirstChunk(buffer, token, patterns);
      out' := out + first;
      head' := token;
      buffer' := "";
      firstToken' := false;
      assert [token][1..] == [];
    } else {
      out' := out + [token];
      assert (s + [token])[0] == s[0];
      assert (s + [token])[1..] == s[1..] + [token];
    }
  }

  /** _stream_output: the generator's loop with its first-token flag. */
  method StreamOutput(chunks: seq<string>, patterns: Patterns) returns (out: seq<string>)
    ensures out == StreamPieces(chunks, patterns)
  {
    var buffer := "";
    var firstToken := true;
    out := [];
    ghost var head := "";
    var i := 0;
    while i < |chunks|
      invariant 0 <= i <= |chunks|
      invariant buffer == "" && Streamed(chunks[..i], out, firstToken, head, patterns)
    {
      TakeOneMore(chunks, i);
      out, firstToken, buffer, head := StreamChunk(chunks[i], out, firstToken, buffer, patterns, chunks[..i], head);
      i := i + 1;
    }
    assert chunks[..|chunks|] == chunks;
    StreamedPieces(chunks, out, firstToken, head, patterns);
  }

  // ---------------------------------------------------------------------
  // Stand-in generator (_mock_generate)
  // ---------------------------------------------------------------------

  /** The query the stand-in echoes: the text after the last user tag up to the first
      end-of-sequence tag, stripped and cut to fifty characters, or the default. */
  function MockQuery(prompt: string): (q: string)
    ensures 0 < |q| <= QUERY_LIMIT
    ensures !Contains(prompt, USER_TAG) ==> q == DEFAULT_QUERY
  {
    if Contains(prompt, USER_TAG) then
      var parts := Split(prompt, USER_TAG);
      if |parts| > 1 then
        var last := Strip(Split(parts[|parts| - 1], EOS)[0]);
        if last != "" then Take(last, QUERY_LIMIT) else DEFAULT_QUERY
      else DEFAULT_QUERY
    else DEFAULT_QUERY
  }

  /** The user tag splits a prompt that contains it into at least two parts, so the length
      test in the source never fails. */
  lemma TagSplitsPrompt(prompt: string)
    requires Contains(prompt, USER_TAG)
    ensures |Split(prompt, USER_TAG)| > 1
  {
    ContainsMeansOccurs(prompt, USER_TAG);
    FindFirst(prompt, USER_TAG);
    var i :| OccursAt(prompt, USER_TAG, i);
    if Find(prompt, USER_TAG).None? {
      assert false;
    }
  }

  /** The echoed query is read from the text after the last user tag, up to the first
      end-of-sequence tag: stripped, cut to fifty characters, or the default when blank. */
  lemma MockQueryAfterLastTag(prompt: string, i: nat)
    requires OccursAt(prompt, USER_TAG, i) && Free(prompt[i + |USER_TAG|..], USER_TAG)
    ensures var tail := prompt[i + |USER_TAG|..];
      var f := Find(tail, EOS);
      var head := if f.Some? then tail[..f.value] else tail;
      MockQuery(prompt) == if Strip(head) == "" then DEFAULT_QUERY else Take(Strip(head), QUERY_LIMIT)
  {
    ContainsMeansOccurs(prompt, USER_TAG);
    TagSplitsPrompt(prompt);
    assert HeadUnique(USER_TAG);
    SplitLastPiece(prompt, USER_TAG, i);
  }

  /** A prompt holding a user tag has a last one, so the lemma above covers it. */
  lemma MockQueryHasLastTag(prompt: string)
    requires Contains(prompt, USER_TAG)
    ensures exists i :: OccursAt(prompt, USER_TAG, i) && Free(prompt[i + |USER_TAG|..], USER_TAG)
  {
    ContainsMeansOccurs(prompt, USER_TAG);
    var i :| OccursAt(prompt, USER_TAG, i);
    LastOccurrence(prompt, USER_TAG, i);
  }

  /** An echoed query holds neither a user tag nor an end-of-sequence tag: it comes from the
      last user segment only. */
  lemma MockQueryFromLastSegment(prompt: string)
    ensures var q := MockQuery(prompt);
      q == DEFAULT_QUERY || (Free(q, USER_TAG) && Free(q, EOS))
  {
    if Contains(prompt, USER_TAG) {
      var parts := Split(prompt, USER_TAG);
      TagSplitsPrompt(prompt);
      var seg := parts[|parts| - 1];
      SplitPiecesFree(prompt, USER_TAG);
      assert Free(seg, USER_TAG);
      var head := Split(seg, EOS)[0];
      SplitPiecesFree(seg, EOS);
      assert Free(head, EOS);
      SplitHead(seg, EOS);
      FreeSlice(seg, USER_TAG, 0, |head|);
      var last := Strip(head);
      StripFree(head, USER_TAG);
      StripFree(head, EOS);
      if last != "" {
        var q := Take(last, QUERY_LIMIT);
        FreeSlice(last, USER_TAG, 0, |q|);
        FreeSlice(last, EOS, 0, |q|);
      }
    }
  }

  function MockResponse(query: string): string {
    MOCK_PREFIX + query + MOCK_SUFFIX
  }

  /** _mock_generate: the canned response, whole or as word pieces. */
  function MockGenerate(prompt: string, stream: bool): (r: Reply)
    ensures r.Pieces? <==> stream
  {
    var response := MockResponse(MockQuery(prompt));
    if stream then Pieces(WordTokens(response)) else Whole(response)
  }

  /** The streamed pieces of the stand-in put together are its whole response. */
  lemma MockStreamMatchesWhole(prompt: string)
    ensures Flatten(MockGenerate(prompt, true)) == Flatten(MockGenerate(prompt, false))
  {
    WordTokensRoundTrip(MockResponse(MockQuery(prompt)));
  }

  // ---------------------------------------------------------------------
  // Engine and inference service
  // ---------------------------------------------------------------------

  /** LLMEngine.generate as a function of whether a model is ready and what its call did. */
  function Generated(ready: bool, prompt: string, stream: bool, outcome: ModelOutcome, patterns: Patterns): Reply {
    if !ready then MockGenerate(prompt, stream)
    else match outcome
      case Raised(e) => Whole(ERROR_PREFIX + e)
      case Output(text, chunks) =>
        if stream then Pieces(StreamPieces(chunks, patterns)) else Whole(CleanedText(Strip(text), patterns))
  }

  /** generate never raises, and without streaming it always returns a string, so the
      `isinstance(response, str)` test in infer always passes. */
  lemma GeneratedShape(ready: bool, prompt: string, stream: bool, outcome: ModelOutcome, patterns: Patterns)
    ensures !stream ==> Generated(ready, prompt, stream, outcome, patterns).Whole?
    ensures ready && outcome.Raised? ==>
      Generated(ready, prompt, stream, outcome, patterns) == Whole(ERROR_PREFIX + outcome.error)
    ensures !ready ==> Flatten(Generated(ready, prompt, stream, outcome, patterns)) == MockResponse(MockQuery(prompt))
  {
    if !ready {
      MockStreamMatchesWhole(prompt);
    }
  }

  class LLMEngine {
    /** `model_loaded and model`: set only by load_model, which is not part of this model. */
    var ready: bool

    constructor ()
      ensures !ready
    {
      ready := false;
    }

    method Generate(prompt: string, stream: bool, outcome: ModelOutcome, patterns: Patterns) returns (r: Reply)
      ensures r == Generated(ready, prompt, stream, outcome, patterns)
    {
      if !ready {
        return MockGenerate(prompt, stream);
      }
      match outcome {
        case Raised(e) =>
          return Whole(ERROR_PREFIX + e);
        case Output(text, chunks) =>
          if stream {
            var pieces := StreamOutput(chunks, patterns);
            return Pieces(pieces);
          } else {
            var response := Strip(text);
            response := CleanResponse(response, patterns);
            return Whole(response);
          }
      }
    }
  }

  /** The cache manager's key: the prompt and the generation parameters. */
  datatype CacheKey = CacheKey(prompt: string, maxTokens: Option<int>, temperature: Option<real>)

  /** The response cache, as a map the inference service reads and writes. */
  class ResponseCache {
    var entries: map<CacheKey, string>

    constructor ()
      ensures entries == map[]
    {
      entries := map[];
    }
  }

  /** A cache lookup counts as a hit only for a present, non-empty entry. */
  predicate Hit(entries: map<CacheKey, string>, key: CacheKey) {
    key in entries && entries[key] != ""
  }

  class InferenceService {
    const cache: ResponseCache
    const engine: LLMEngine

    constructor (cache: ResponseCache, engine: LLMEngine)
      ensures this.cache == cache && this.engine == engine
    {
      this.cache := cache;
      this.engine := engine;
    }

    /** infer: a cache hit is returned as cached without calling the engine; otherwise the
        engine's string is returned as fresh and, when caching is on, stored under the key,
        an error string included. */
    method Infer(prompt: string, maxTokens: Option<int>, temperature: Option<real>, useCache: bool,
                 outcome: ModelOutcome, patterns: Patterns) returns (response: string, cached: bool)
      modifies cache
      ensures var key := CacheKey(prompt, maxTokens, temperature);
        if useCache && Hit(old(cache.entries), key) then
          response == old(cache.entries)[key] && cached && cache.entries == old(cache.entries)
        else
          && response == Generated(engine.ready, prompt, false, outcome, patterns).text && !cached
          && cache.entries == if useCache then old(cache.entries)[key := response] else old(cache.entries)
    {
      var key := CacheKey(prompt, maxTokens, temperature);
      if useCache && key in cache.entries && cache.entries[key] != "" {
        return cache.entries[key], true;
      }
      var reply := engine.Generate(prompt, false, outcome, patterns);
      GeneratedShape(engine.ready, prompt, false, outcome, patterns);
      response := reply.text;
      if useCache && reply.Whole? {
        cache.entries := cache.entries[key := response];
      }
      cached := false;
    }

    /** stream_infer: the engine in streaming mode, without the cache. */
    method StreamInfer(prompt: string, outcome: ModelOutcome, patterns: Patterns) returns (r: Reply)
      ensures r == Generated(engine.ready, prompt, true, outcome, patterns)
    {
      r := engine.Generate(prompt, true, outcome, patterns);
    }
  }
}
