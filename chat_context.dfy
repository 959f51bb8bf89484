/** The client chat engine of frontend/contexts/ChatContext.tsx.
    State: the transcript, the bound session id, the loading flag and the abort
    controller reference. One call of sendMessage is an in-flight Turn whose
    awaits are separate steps (Respond, Feed, Finish), so that the engine's other
    operations can run between them as they can in the browser. */
module ChatContext {
  import opened Text

  datatype Role = User | Assistant

  /** A Date: a clock reading in milliseconds, or the Invalid Date that parsing unreadable text yields. */
  datatype Instant = At(millis: int) | InvalidDate

  /** A transcript entry. `timestamp` is None only for a falsy value: the TypeScript
      type rules that out, but the `done` handler tests for it. */
  datatype Message = Message(id: string, role: Role, content: string, timestamp: Option<Instant>)

  /** What JSON.parse makes of one frame payload, seen through the fields the handler reads. */
  datatype Payload =
    | StartEvent(sessionId: Option<string>)
    | TokenEvent(content: string)
    | DoneEvent(timestamp: Option<string>)
    | ErrorEvent(message: string)
    | OtherEvent   // parsed, but its `type` is none of the four above
    | Unparsable   // JSON.parse threw

  /** JSON.parse and `new Date(text)`, which the engine calls but does not define. */
  datatype Parsers = Parsers(json: string -> Payload, date: string -> Instant)

  /** The values a turn captures when sendMessage is called. */
  datatype TurnContext = TurnContext(assistantId: string, sessionAtCall: Option<string>, parsers: Parsers)

  /** The JSON body of the POST to /api/chat/stream. */
  datatype ChatRequest = ChatRequest(prompt: string, sessionId: Option<string>)

  /** How the awaited fetch resolved. */
  datatype Response = Ok(hasBody: bool) | NotOk(status: int, body: string)

  /** How the read loop ended: the reader reported done, the signal was aborted, or anything else was thrown. */
  datatype ReadEnd = EndOfStream | Aborted | Failed(reason: string)

  datatype Phase = AwaitingResponse | Reading | Settled

  /** What the transcript, session binding and accumulated text are while a turn streams. */
  datatype StreamState = StreamState(messages: seq<Message>, sessionId: Option<string>, fullContent: string)

  const FRAME_SEP := "\n\n"
  const DATA_PREFIX := "data: "
  const STOP_MARKER := "\n\n[Generation stopped]"
  const APOLOGY := "Sorry, I encountered an error. Please try again."

  // ---------------------------------------------------------------------
  // Server timestamps
  // ---------------------------------------------------------------------

  predicate IsDigit(c: char) { '0' <= c <= '9' }
  predicate IsSign(c: char) { c == '+' || c == '-' }

  /** The text ends in a numeric offset `±hhmm` or `±hh:mm`. */
  predicate EndsWithOffset(s: string) {
    var n := |s|;
    (n >= 5 && IsSign(s[n - 5]) && IsDigit(s[n - 4]) && IsDigit(s[n - 3]) && IsDigit(s[n - 2]) && IsDigit(s[n - 1]))
    || (n >= 6 && IsSign(s[n - 6]) && IsDigit(s[n - 5]) && IsDigit(s[n - 4]) && s[n - 3] == ':'
        && IsDigit(s[n - 2]) && IsDigit(s[n - 1]))
  }

  /** The zone test `/[zZ]|[+-]\d{2}:?\d{2}$/`: a `z` or `Z` anywhere, or a trailing offset. */
  predicate HasZone(s: string) {
    'z' in s || 'Z' in s || EndsWithOffset(s)
  }

  /** A timestamp with a zone marker is kept; any other gets the UTC designator appended,
      so the result always carries a zone marker. */
  function NormalizeTimestamp(value: string): (r: string)
    ensures HasZone(value) ==> r == value
    ensures !HasZone(value) ==> r == value + "Z"
    ensures HasZone(r)
  {
    if HasZone(value) then value
    else
      assert (value + "Z")[|value|] == 'Z';
      value + "Z"
  }

  lemma NormalizeIdempotent(value: string)
    ensures NormalizeTimestamp(NormalizeTimestamp(value)) == NormalizeTimestamp(value)
  {
  }

  /** safeParseServerTimestamp: absent or empty gives None; otherwise the normalised text
      is parsed, and an Invalid Date gives None. */
  function SafeParseServerTimestamp(value: Option<string>, date: string -> Instant): (r: Option<Instant>)
    ensures !Truthy(value) ==> r == None
    ensures r.Some? ==> r.value != InvalidDate && r.value == date(NormalizeTimestamp(value.value))
    ensures Truthy(value) && date(NormalizeTimestamp(value.value)) != InvalidDate ==> r.Some?
  {
    if !Truthy(value) then None
    else
      var parsed := date(NormalizeTimestamp(value.value));
      if parsed == InvalidDate then None else Some(parsed)
  }

  // ---------------------------------------------------------------------
  // Event interpretation
  // ---------------------------------------------------------------------

  /** `prev.map(msg => msg.id === id ? { ...msg, content } : msg)`. */
  function SetContent(ms: seq<Message>, id: string, content: string): (r: seq<Message>)
    ensures |r| == |ms|
    ensures forall k :: 0 <= k < |ms| ==> r[k] == if ms[k].id == id then ms[k].(content := content) else ms[k]
  {
    seq(|ms|, k requires 0 <= k < |ms| => if ms[k].id == id then ms[k].(content := content) else ms[k])
  }

  /** `msg.timestamp || parsedServerTimestamp || new Date()`. */
  function FirstTimestamp(current: Option<Instant>, parsed: Option<Instant>, now: Instant): (r: Option<Instant>)
    ensures r.Some?
    ensures current.Some? ==> r == current
  {
    if current.Some? then current else if parsed.Some? then parsed else Some(now)
  }

  /** The `done` handler's map over the transcript. */
  function PatchTimestamp(ms: seq<Message>, id: string, parsed: Option<Instant>, now: Instant): (r: seq<Message>)
    ensures |r| == |ms|
    ensures forall k :: 0 <= k < |ms| ==>
      r[k] == if ms[k].id == id then ms[k].(timestamp := FirstTimestamp(ms[k].timestamp, parsed, now)) else ms[k]
  {
    seq(|ms|, k requires 0 <= k < |ms| =>
      if ms[k].id == id then ms[k].(timestamp := FirstTimestamp(ms[k].timestamp, parsed, now)) else ms[k])
  }

  /** The effect of one parsed payload (lines 136-163). An `error` payload throws inside the
      per-event try and is caught at once, exactly like a payload that fails to parse. */
  function ApplyPayload(st: StreamState, p: Payload, ctx: TurnContext, now: int): (r: StreamState)
    ensures p.ErrorEvent? || p.OtherEvent? || p.Unparsable? ==> r == st
    ensures !p.TokenEvent? ==> r.fullContent == st.fullContent
    ensures !p.StartEvent? ==> r.sessionId == st.sessionId
  {
    match p
    case StartEvent(sid) =>
      if Truthy(sid) && !Truthy(ctx.sessionAtCall) then st.(sessionId := sid) else st
    case TokenEvent(c) =>
      var full := st.fullContent + c;
      StreamState(SetContent(st.messages, ctx.assistantId, full), st.sessionId, full)
    case DoneEvent(ts) =>
      var parsed := SafeParseServerTimestamp(ts, ctx.parsers.date);
      st.(messages := PatchTimestamp(st.messages, ctx.assistantId, parsed, At(now)))
    case _ => st
  }

  predicate IsDataFrame(frame: string) {
    StartsWith(frame, DATA_PREFIX)
  }

  /** The parsed payload of a data frame: the frame without its six-character prefix. */
  function PayloadOf(frame: string, ctx: TurnContext): Payload
    requires IsDataFrame(frame)
  {
    ctx.parsers.json(frame[|DATA_PREFIX|..])
  }

  /** One complete piece of the stream: only pieces that start with `data: ` are parsed. */
  function ApplyFrame(st: StreamState, frame: string, ctx: TurnContext, now: int): (r: StreamState)
    ensures !IsDataFrame(frame) ==> r == st
    ensures IsDataFrame(frame) ==> r == ApplyPayload(st, PayloadOf(frame, ctx), ctx, now)
  {
    if IsDataFrame(frame) then ApplyPayload(st, PayloadOf(frame, ctx), ctx, now) else st
  }

  /** The complete pieces applied in order, the last one last. */
  function ApplyFrames(st: StreamState, frames: seq<string>, ctx: TurnContext, now: int): StreamState
    decreases |frames|
  {
    if |frames| == 0 then st
    else ApplyFrame(ApplyFrames(st, frames[..|frames| - 1], ctx, now), frames[|frames| - 1], ctx, now)
  }

  /** Applying one more frame, and counting it. */
  lemma FramesSnoc(st: StreamState, frames: seq<string>, f: string, ctx: TurnContext, now: int)
    ensures ApplyFrames(st, frames + [f], ctx, now) == ApplyFrame(ApplyFrames(st, frames, ctx, now), f, ctx, now)
    ensures DataCount(frames + [f]) == DataCount(frames) + (if IsDataFrame(f) then 1 else 0)
  {
    assert (frames + [f])[..|frames|] == frames;
  }

  /** Applying a run of frames in two parts is applying it in one. */
  lemma {:induction false} ApplyFramesAppend(st: StreamState, a: seq<string>, b: seq<string>, ctx: TurnContext, now: int)
    ensures ApplyFrames(st, a + b, ctx, now) == ApplyFrames(ApplyFrames(st, a, ctx, now), b, ctx, now)
    decreases |b|
  {
    if b == [] {
      assert a + b == a;
    } else {
      var init := b[..|b| - 1];
      var last := b[|b| - 1];
      assert a + b == (a + init) + [last];
      FramesSnoc(st, a + init, last, ctx, now);
      ApplyFramesAppend(st, a, init, ctx, now);
    }
  }

  /** Every message with the turn's id already carries a timestamp. */
  predicate Stamped(ms: seq<Message>, aid: string) {
    forall k :: 0 <= k < |ms| && ms[k].id == aid ==> ms[k].timestamp.Some?
  }

  /** Once the turn's message is stamped, the clock reading a frame is given changes nothing,
      and the message stays stamped. */
  lemma ApplyFrameNow(st: StreamState, frame: string, ctx: TurnContext, now1: int, now2: int)
    requires Stamped(st.messages, ctx.assistantId)
    ensures ApplyFrame(st, frame, ctx, now1) == ApplyFrame(st, frame, ctx, now2)
    ensures Stamped(ApplyFrame(st, frame, ctx, now1).messages, ctx.assistantId)
  {
    ApplyFrameEvolves(st, frame, ctx, now1);
    if IsDataFrame(frame) && PayloadOf(frame, ctx).DoneEvent? {
      var parsed := SafeParseServerTimestamp(PayloadOf(frame, ctx).timestamp, ctx.parsers.date);
      var m1 := PatchTimestamp(st.messages, ctx.assistantId, parsed, At(now1));
      var m2 := PatchTimestamp(st.messages, ctx.assistantId, parsed, At(now2));
      assert m1 == m2;
    }
  }

  lemma {:induction false} ApplyFramesNow(st: StreamState, frames: seq<string>, ctx: TurnContext, now1: int, now2: int)
    requires Stamped(st.messages, ctx.assistantId)
    ensures ApplyFrames(st, frames, ctx, now1) == ApplyFrames(st, frames, ctx, now2)
    ensures Stamped(ApplyFrames(st, frames, ctx, now1).messages, ctx.assistantId)
    decreases |frames|
  {
    if frames != [] {
      var init := frames[..|frames| - 1];
      ApplyFramesNow(st, init, ctx, now1, now2);
      ApplyFrameNow(ApplyFrames(st, init, ctx, now1), frames[|frames| - 1], ctx, now1, now2);
    }
  }

  /** Two successive reads, each with its own clock reading, end where one pass over all
      their frames ends, provided the turn's message is stamped (as sendMessage stamps the
      placeholder). */
  lemma FeedsCompose(st: StreamState, a: seq<string>, b: seq<string>, ctx: TurnContext, now1: int, now2: int)
    requires Stamped(st.messages, ctx.assistantId)
    ensures ApplyFrames(ApplyFrames(st, a, ctx, now1), b, ctx, now2) == ApplyFrames(st, a + b, ctx, now1)
  {
    ApplyFramesNow(st, a, ctx, now1, now2);
    ApplyFramesNow(ApplyFrames(st, a, ctx, now1), b, ctx, now2, now1);
    ApplyFramesAppend(st, a, b, ctx, now1);
  }

  /** The contents of the token payloads among `frames`, in order. */
  function TokenContents(frames: seq<string>, ctx: TurnContext): seq<string>
    decreases |frames|
  {
    if |frames| == 0 then []
    else
      var last := frames[|frames| - 1];
      TokenContents(frames[..|frames| - 1], ctx)
      + (if IsDataFrame(last) && PayloadOf(last, ctx).TokenEvent? then [PayloadOf(last, ctx).content] else [])
  }

  /** The non-empty session ids carried by the start payloads among `frames`, in order. */
  function StartSessions(frames: seq<string>, ctx: TurnContext): seq<string>
    decreases |frames|
  {
    if |frames| == 0 then []
    else
      var last := frames[|frames| - 1];
      StartSessions(frames[..|frames| - 1], ctx)
      + (if IsDataFrame(last) && PayloadOf(last, ctx).StartEvent? && Truthy(PayloadOf(last, ctx).sessionId)
         then [PayloadOf(last, ctx).sessionId.value] else [])
  }

  /** The number of data frames among `frames` (the `eventCount` counter). */
  function DataCount(frames: seq<string>): nat
    decreases |frames|
  {
    if |frames| == 0 then 0
    else DataCount(frames[..|frames| - 1]) + (if IsDataFrame(frames[|frames| - 1]) then 1 else 0)
  }

  /** How a transcript may evolve while a turn streams: the length, every id and role, and
      every message with another id stay as they were; a message with the turn's id that held
      the accumulated text still holds it; a timestamp that was set is never replaced. */
  ghost predicate Evolves(a: StreamState, b: StreamState, aid: string) {
    |b.messages| == |a.messages|
    && forall k :: 0 <= k < |a.messages| ==>
         && b.messages[k].id == a.messages[k].id
         && b.messages[k].role == a.messages[k].role
         && (a.messages[k].id != aid ==> b.messages[k] == a.messages[k])
         && (a.messages[k].timestamp.Some? ==> b.messages[k].timestamp == a.messages[k].timestamp)
         && (a.messages[k].id == aid && a.messages[k].content == a.fullContent ==>
               b.messages[k].content == b.fullContent)
  }

  lemma EvolvesTransitive(a: StreamState, b: StreamState, c: StreamState, aid: string)
    requires Evolves(a, b, aid) && Evolves(b, c, aid)
    ensures Evolves(a, c, aid)
  {
  }

  /** One frame keeps the transcript evolving. */
  lemma ApplyFrameEvolves(st: StreamState, frame: string, ctx: TurnContext, now: int)
    ensures Evolves(st, ApplyFrame(st, frame, ctx, now), ctx.assistantId)
  {
  }

  /** One frame adds its token content, if any, to the text. */
  lemma ApplyFrameText(st: StreamState, frame: string, ctx: TurnContext, now: int)
    ensures ApplyFrame(st, frame, ctx, now).fullContent == st.fullContent
      + (if IsDataFrame(frame) && PayloadOf(frame, ctx).TokenEvent? then PayloadOf(frame, ctx).content else "")
  {
  }

  /** A run of frames keeps the transcript evolving. */
  lemma {:induction false} ApplyFramesEvolves(st: StreamState, frames: seq<string>, ctx: TurnContext, now: int)
    ensures Evolves(st, ApplyFrames(st, frames, ctx, now), ctx.assistantId)
    decreases |frames|
  {
    if |frames| > 0 {
      var init := frames[..|frames| - 1];
      ApplyFramesEvolves(st, init, ctx, now);
      var mid := ApplyFrames(st, init, ctx, now);
      ApplyFrameEvolves(mid, frames[|frames| - 1], ctx, now);
      EvolvesTransitive(st, mid, ApplyFrame(mid, frames[|frames| - 1], ctx, now), ctx.assistantId);
    }
  }

  /** A run of frames grows the accumulated text by exactly the token contents, in the order
      they arrived. */
  lemma {:induction false} ApplyFramesText(st: StreamState, frames: seq<string>, ctx: TurnContext, now: int)
    ensures ApplyFrames(st, frames, ctx, now).fullContent == st.fullContent + Concat(TokenContents(frames, ctx))
    decreases |frames|
  {
    if |frames| == 0 {
      assert Concat([]) == "";
    } else {
      var init := frames[..|frames| - 1];
      var last := frames[|frames| - 1];
      var mid := ApplyFrames(st, init, ctx, now);
      var tail := if IsDataFrame(last) && PayloadOf(last, ctx).TokenEvent? then [PayloadOf(last, ctx).content] else [];
      var c := if tail != [] then tail[0] else "";
      assert ApplyFrames(st, frames, ctx, now).fullContent == mid.fullContent + c by {
        ApplyFrameText(mid, last, ctx, now);
      }
      assert Concat(TokenContents(frames, ctx)) == Concat(TokenContents(init, ctx)) + c by {
        assert TokenContents(frames, ctx) == TokenContents(init, ctx) + tail;
        ConcatAppend(TokenContents(init, ctx), tail);
        if tail != [] {
          assert Concat(tail) == tail[0] by { assert tail[..0] == []; }
        } else {
          assert Concat(tail) == "";
        }
      }
      ApplyFramesText(st, init, ctx, now);
      AppendAssoc(st.fullContent, Concat(TokenContents(init, ctx)), c);
    }
  }

  /** The session binding after a run of frames: it changes only when no session was bound
      when sendMessage was called, and then to the last non-empty start session id. */
  lemma {:induction false} ApplyFramesSession(st: StreamState, frames: seq<string>, ctx: TurnContext, now: int)
    ensures var r := ApplyFrames(st, frames, ctx, now);
      var ids := StartSessions(frames, ctx);
      r.sessionId == if !Truthy(ctx.sessionAtCall) && |ids| > 0 then Some(ids[|ids| - 1]) else st.sessionId
    decreases |frames|
  {
    if |frames| > 0 {
      ApplyFramesSession(st, frames[..|frames| - 1], ctx, now);
    }
  }

  // ---------------------------------------------------------------------
  // Turn endings (the catch block, lines 170-202)
  // ---------------------------------------------------------------------

  /** AbortError: the marker is appended to the last message when it is the assistant's;
      nothing else changes. */
  function MarkStopped(ms: seq<Message>): (r: seq<Message>)
    ensures |r| == |ms|
    ensures forall k :: 0 <= k < |ms| - 1 ==> r[k] == ms[k]
    ensures ms != [] && ms[|ms| - 1].role == Assistant ==>
      r[|ms| - 1] == ms[|ms| - 1].(content := ms[|ms| - 1].content + STOP_MARKER)
    ensures ms == [] || ms[|ms| - 1].role != Assistant ==> r == ms
  {
    if ms != [] && ms[|ms| - 1].role == Assistant then
      var last := ms[|ms| - 1];
      ms[..|ms| - 1] + [last.(content := last.content + STOP_MARKER)]
    else ms
  }

  /** Any other error: an empty assistant message at the end becomes the apology text;
      otherwise nothing changes. */
  function ApologizeIfEmpty(ms: seq<Message>): (r: seq<Message>)
    ensures |r| == |ms|
    ensures forall k :: 0 <= k < |ms| - 1 ==> r[k] == ms[k]
    ensures ms != [] && ms[|ms| - 1].role == Assistant && ms[|ms| - 1].content == "" ==>
      r[|ms| - 1] == ms[|ms| - 1].(content := APOLOGY)
    ensures ms == [] || ms[|ms| - 1].role != Assistant || ms[|ms| - 1].content != "" ==> r == ms
  {
    if ms != [] && ms[|ms| - 1].role == Assistant && ms[|ms| - 1].content == "" then
      var last := ms[|ms| - 1];
      ms[..|ms| - 1] + [last.(content := APOLOGY)]
    else ms
  }

  function Settle(ms: seq<Message>, end: ReadEnd): seq<Message> {
    match end
    case EndOfStream => ms
    case Aborted => MarkStopped(ms)
    case Failed(_) => ApologizeIfEmpty(ms)
  }

  // ---------------------------------------------------------------------
  // Frames versus the received text
  // ---------------------------------------------------------------------

  /** The complete pieces of everything received: all pieces of the split but the last. */
  function CompleteFrames(received: string): seq<string> {
    var pieces := Split(received, FRAME_SEP);
    pieces[..|pieces| - 1]
  }

  /** The retained tail: the last piece of the split. */
  function Retained(received: string): string {
    var pieces := Split(received, FRAME_SEP);
    pieces[|pieces| - 1]
  }

  /** What the splitter keeps between chunks: the pieces emitted so far and the retained
      buffer split the received text exactly. */
  ghost predicate SplitsInto(received: string, frames: seq<string>, buffer: string) {
    Split(received, FRAME_SEP) == frames + [buffer]
  }

  /** When the splitter invariant holds, the buffer holds no separator, the emitted pieces
      joined by the separator and followed by the buffer give back all received text, and the
      emitted pieces are the complete pieces of that text, however it was chunked. */
  lemma SplitterInvariant(received: string, frames: seq<string>, buffer: string)
    requires SplitsInto(received, frames, buffer)
    ensures Free(buffer, FRAME_SEP)
    ensures Join(frames + [buffer], FRAME_SEP) == received
    ensures frames == CompleteFrames(received) && buffer == Retained(received)
  {
    SplitPiecesFree(received, FRAME_SEP);
    JoinSplit(received, FRAME_SEP);
    var pieces := Split(received, FRAME_SEP);
    assert pieces[|pieces| - 1] == buffer;
    assert pieces[..|pieces| - 1] == frames;
  }

  /** Feeding one chunk: `buffer += chunk; lines = buffer.split('\n\n'); buffer = lines.pop()`
      keeps the splitter invariant for the longer received text. */
  lemma FeedKeepsSplit(received: string, frames: seq<string>, buffer: string, chunk: string)
    requires SplitsInto(received, frames, buffer)
    ensures var lines := Split(buffer + chunk, FRAME_SEP);
      SplitsInto(received + chunk, frames + lines[..|lines| - 1], lines[|lines| - 1])
  {
    SplitAppend(received, chunk, FRAME_SEP, frames, buffer);
    var lines := Split(buffer + chunk, FRAME_SEP);
    assert lines == lines[..|lines| - 1] + [lines[|lines| - 1]];
  }

  /** The state and retained buffer after one read, as `Turn.Feed` leaves them. */
  function ReadStep(st: StreamState, buffer: string, chunk: string, ctx: TurnContext, now: int): (StreamState, string) {
    var lines := Split(buffer + chunk, FRAME_SEP);
    (ApplyFrames(st, lines[..|lines| - 1], ctx, now), lines[|lines| - 1])
  }

  /** Successive reads of `chunks`, the k-th one seeing the clock reading `nows[k]`. */
  function Reads(st: StreamState, buffer: string, chunks: seq<string>, nows: seq<int>, ctx: TurnContext): (StreamState, string)
    requires |nows| == |chunks|
    decreases |chunks|
  {
    if |chunks| == 0 then (st, buffer)
    else
      var next := ReadStep(st, buffer, chunks[0], ctx, nows[0]);
      Reads(next.0, next.1, chunks[1..], nows[1..], ctx)
  }

  /** One read's complete pieces, followed by the complete pieces of its retained tail and
      what comes after, are the complete pieces of the whole; the tail holds no separator. */
  lemma ReadStepPieces(buffer: string, chunk: string, later: string)
    ensures var lines := Split(buffer + chunk, FRAME_SEP);
      var tail := lines[|lines| - 1];
      && Free(tail, FRAME_SEP)
      && CompleteFrames((buffer + chunk) + later) == lines[..|lines| - 1] + CompleteFrames(tail + later)
      && Retained((buffer + chunk) + later) == Retained(tail + later)
  {
    var lines := Split(buffer + chunk, FRAME_SEP);
    var done, tail := lines[..|lines| - 1], lines[|lines| - 1];
    assert lines == done + [tail];
    SplitPiecesFree(buffer + chunk, FRAME_SEP);
    SplitAppend(buffer + chunk, later, FRAME_SEP, done, tail);
  }

  /** However the body is cut into reads, and whatever clock each read sees, a turn whose
      message is stamped ends in the state of one pass over the complete pieces of the
      whole text, with the whole text's last piece retained. */
  lemma {:induction false} ReadsAnyChunking(st: StreamState, buffer: string, chunks: seq<string>, nows: seq<int>, ctx: TurnContext, now: int)
    requires |nows| == |chunks| && Free(buffer, FRAME_SEP)
    requires Stamped(st.messages, ctx.assistantId)
    ensures Reads(st, buffer, chunks, nows, ctx)
         == (ApplyFrames(st, CompleteFrames(buffer + Concat(chunks)), ctx, now), Retained(buffer + Concat(chunks)))
    decreases |chunks|
  {
    if |chunks| == 0 {
      assert buffer + Concat(chunks) == buffer;
      SplitFreeSingle(buffer, FRAME_SEP);
      assert CompleteFrames(buffer) == [];
    } else {
      var c, rest := chunks[0], chunks[1..];
      var lines := Split(buffer + c, FRAME_SEP);
      var done, tail := lines[..|lines| - 1], lines[|lines| - 1];
      ReadStepPieces(buffer, c, Concat(rest));
      ApplyFramesNow(st, done, ctx, nows[0], now);
      ReadsAnyChunking(ApplyFrames(st, done, ctx, nows[0]), tail, rest, nows[1..], ctx, now);
      assert buffer + Concat(chunks) == (buffer + c) + Concat(rest) by {
        assert chunks == [c] + rest;
        ConcatCons(c, rest);
      }
      ApplyFramesAppend(st, done, CompleteFrames(tail + Concat(rest)), ctx, now);
    }
  }

  // ---------------------------------------------------------------------
  // Identities
  // ---------------------------------------------------------------------

  /** `Date.now().toString()` for the user message. */
  function UserMessageId(clock: nat): string { NatToString(clock) }

  /** `msg-${Date.now()}` for the assistant placeholder. */
  function AssistantMessageId(clock: nat): string { "msg-" + NatToString(clock) }

  lemma TurnIdsDiffer(c1: nat, c2: nat)
    ensures UserMessageId(c1) != AssistantMessageId(c2)
  {
    assert AssistantMessageId(c2)[0] == 'm';
    assert '0' <= UserMessageId(c1)[0] <= '9';
  }

  /** What a whole run of frames does to a transcript that sendMessage has just extended:
      the earlier messages and the user message are untouched, and the placeholder's content
      is the concatenation of the token contents in the order they arrived. */
  lemma StreamingFillsPlaceholder(prev: seq<Message>, user: Message, placeholder: Message,
                                  sid: Option<string>, frames: seq<string>, ctx: TurnContext, now: int)
    requires placeholder.id == ctx.assistantId && placeholder.content == ""
    requires user.id != ctx.assistantId
    requires forall k :: 0 <= k < |prev| ==> prev[k].id != ctx.assistantId
    ensures var r := ApplyFrames(StreamState(prev + [user, placeholder], sid, ""), frames, ctx, now);
      && |r.messages| == |prev| + 2
      && r.messages[..|prev| + 1] == prev + [user]
      && r.messages[|prev| + 1].content == Concat(TokenContents(frames, ctx))
      && r.messages[|prev| + 1].role == placeholder.role
      && (placeholder.timestamp.Some? ==> r.messages[|prev| + 1].timestamp == placeholder.timestamp)
  {
    var ms := prev + [user, placeholder];
    var st := StreamState(ms, sid, "");
    ApplyFramesEvolves(st, frames, ctx, now);
    ApplyFramesText(st, frames, ctx, now);
    var r := ApplyFrames(st, frames, ctx, now);
    assert ms[|prev| + 1] == placeholder;
    assert ms[|prev|] == user;
    assert r.messages[..|prev| + 1] == prev + [user] by {
      forall k | 0 <= k < |prev| + 1 ensures r.messages[k] == (prev + [user])[k] {
        assert ms[k] == (prev + [user])[k];
      }
    }
  }

  // ---------------------------------------------------------------------
  // The engine
  // ---------------------------------------------------------------------

  class AbortController {
    var aborted: bool

    constructor ()
      ensures !aborted
    {
      aborted := false;
    }
  }

  class ChatEngine {
    var messages: seq<Message>
    var sessionId: Option<string>
    var isLoading: bool
    var abortRef: AbortController?

    constructor ()
      ensures messages == [] && sessionId == None && !isLoading && abortRef == null
    {
      messages, sessionId, isLoading, abortRef := [], None, false, null;
    }

    /** stopGenerating: aborts and drops the held controller and clears the loading flag;
        without a held controller it does nothing. */
    method StopGenerating()
      modifies this, abortRef
      ensures messages == old(messages) && sessionId == old(sessionId)
      ensures old(abortRef) == null ==> abortRef == null && isLoading == old(isLoading)
      ensures old(abortRef) != null ==> old(abortRef).aborted && abortRef == null && !isLoading
    {
      if abortRef != null {
        abortRef.aborted := true;
        abortRef := null;
        isLoading := false;
      }
    }

    /** sendMessage up to its first await. Blank content changes nothing. Otherwise the
        transcript grows by the user message and an empty assistant placeholder, the loading
        flag is raised and a fresh controller is held; the request carries the session id
        bound at call time, if any. A call while loading is not refused. The four clock
        readings are the two `Date.now()` calls behind the ids and the two `new Date()` calls
        behind the timestamps. */
    method SendMessage(content: string, userClock: nat, userDate: int, assistantClock: nat, assistantDate: int,
                       parsers: Parsers) returns (turn: Turn?)
      modifies this
      ensures AllSpace(content) ==> turn == null && unchanged(this)
      ensures !AllSpace(content) ==>
        && turn != null && fresh(turn) && fresh(turn.controller) && turn.engine == this
        && messages == old(messages) + [
             Message(UserMessageId(userClock), User, content, Some(At(userDate))),
             Message(AssistantMessageId(assistantClock), Assistant, "", Some(At(assistantDate)))]
        && sessionId == old(sessionId) && isLoading && abortRef == turn.controller
        && turn.ctx == TurnContext(AssistantMessageId(assistantClock), old(sessionId), parsers)
        && turn.request == ChatRequest(content, if Truthy(old(sessionId)) then old(sessionId) else None)
        && turn.phase == AwaitingResponse && turn.Valid() && turn.received == "" && turn.frames == []
        && turn.buffer == "" && turn.fullContent == "" && turn.eventCount == 0
    {
      var trimmed := Strip(content);
      StripSpec(content);
      if trimmed == "" {
        return null;
      }
      var userMessage := Message(UserMessageId(userClock), User, content, Some(At(userDate)));
      ghost var before := messages;
      messages := messages + [userMessage];
      isLoading := true;
      var controller := new AbortController();
      abortRef := controller;
      var assistantId := AssistantMessageId(assistantClock);
      var placeholder := Message(assistantId, Assistant, "", Some(At(assistantDate)));
      messages := messages + [placeholder];
      assert messages == before + [userMessage, placeholder];
      var request := ChatRequest(content, if Truthy(sessionId) then sessionId else None);
      turn := new Turn(this, controller, TurnContext(assistantId, sessionId, parsers), request);
    }

    /** addMessage: appends at the end. */
    method AddMessage(m: Message)
      modifies this
      ensures messages == old(messages) + [m]
      ensures sessionId == old(sessionId) && isLoading == old(isLoading) && abortRef == old(abortRef)
    {
      messages := messages + [m];
    }

    /** clearMessages: empties the transcript, forgets the session and stops generation. */
    method ClearMessages()
      modifies this, abortRef
      ensures messages == [] && sessionId == None && abortRef == null
      ensures old(abortRef) != null ==> old(abortRef).aborted && !isLoading
      ensures old(abortRef) == null ==> isLoading == old(isLoading)
    {
      messages := [];
      sessionId := None;
      StopGenerating();
    }

    /** clearAllChatState, run on the logout notification: empties the transcript and forgets
        the session, but neither aborts a stream in flight nor touches the loading flag. */
    method ClearAllChatState()
      modifies this
      ensures messages == [] && sessionId == None
      ensures isLoading == old(isLoading) && abortRef == old(abortRef)
    {
      messages := [];
      sessionId := None;
    }

    /** loadSession: replaces the session id and the whole transcript. */
    method LoadSession(newSessionId: string, newMessages: seq<Message>)
      modifies this
      ensures sessionId == Some(newSessionId) && messages == newMessages
      ensures isLoading == old(isLoading) && abortRef == old(abortRef)
    {
      sessionId := Some(newSessionId);
      messages := newMessages;
    }
  }

  /** One in-flight call of sendMessage: the values it captured and the locals of its read loop. */
  class Turn {
    const engine: ChatEngine
    const controller: AbortController
    const ctx: TurnContext
    const request: ChatRequest
    var phase: Phase
    var buffer: string
    var fullContent: string
    var eventCount: nat
    ghost var received: string
    ghost var frames: seq<string>

    /** The splitter invariant over the text received so far. */
    ghost predicate Valid()
      reads this
    {
      SplitsInto(received, frames, buffer)
    }

    function State(): StreamState
      reads this, engine
    {
      StreamState(engine.messages, engine.sessionId, fullContent)
    }

    constructor (engine: ChatEngine, controller: AbortController, ctx: TurnContext, request: ChatRequest)
      ensures this.engine == engine && this.controller == controller && this.ctx == ctx && this.request == request
      ensures phase == AwaitingResponse && buffer == "" && fullContent == "" && eventCount == 0
      ensures received == "" && frames == [] && Valid()
    {
      this.engine := engine;
      this.controller := controller;
      this.ctx := ctx;
      this.request := request;
      phase := AwaitingResponse;
      buffer, fullContent, eventCount := "", "", 0;
      received, frames := "", [];
      new;
      assert Split("", FRAME_SEP) == [""] by {
        FindFirst("", FRAME_SEP);
      }
    }

    /** The catch branch for anything but an abort, then the finally block. */
    method FailAndSettle()
      modifies this, engine
      ensures phase == Settled
      ensures engine.messages == ApologizeIfEmpty(old(engine.messages))
      ensures engine.sessionId == old(engine.sessionId) && !engine.isLoading && engine.abortRef == null
      ensures buffer == old(buffer) && fullContent == old(fullContent) && eventCount == old(eventCount)
      ensures received == old(received) && frames == old(frames)
    {
      engine.messages := ApologizeIfEmpty(engine.messages);
      engine.isLoading := false;
      engine.abortRef := null;
      phase := Settled;
    }

    /** The awaited fetch resolves. A success status with a body starts the read loop; a
        non-success status or a missing body throws into the generic error path, which turns
        an empty placeholder into the apology text and does not remove it. */
    method Respond(response: Response)
      requires phase == AwaitingResponse
      modifies this, engine
      ensures response == Ok(true) ==> phase == Reading && unchanged(engine)
      ensures response != Ok(true) ==>
        && phase == Settled
        && engine.messages == ApologizeIfEmpty(old(engine.messages))
        && engine.sessionId == old(engine.sessionId) && !engine.isLoading && engine.abortRef == null
      ensures buffer == old(buffer) && fullContent == old(fullContent) && eventCount == old(eventCount)
      ensures received == old(received) && frames == old(frames)
    {
      if response == Ok(true) {
        phase := Reading;
      } else {
        FailAndSettle();
      }
    }

    /** One `reader.read()` that delivered `chunk`: the chunk joins the buffer, the complete
        pieces are interpreted in order and the incomplete tail is kept. `now` stands for
        `new Date()` in the done handler. */
    method Feed(chunk: string, now: int)
      requires phase == Reading && Valid()
      modifies this, engine
      ensures Valid() && phase == Reading
      ensures received == old(received) + chunk
      ensures var lines := Split(old(buffer) + chunk, FRAME_SEP);
        && frames == old(frames) + lines[..|lines| - 1]
        && buffer == lines[|lines| - 1]
        && State() == ApplyFrames(old(State()), lines[..|lines| - 1], ctx, now)
        && eventCount == old(eventCount) + DataCount(lines[..|lines| - 1])
      ensures engine.isLoading == old(engine.isLoading) && engine.abortRef == old(engine.abortRef)
    {
      ghost var start := State();
      var text := buffer + chunk;
      var lines := Split(text, FRAME_SEP);
      FeedKeepsSplit(received, frames, buffer, chunk);
      received := received + chunk;
      frames := frames + lines[..|lines| - 1];
      buffer := lines[|lines| - 1];
      ghost var count0 := eventCount;
      var i := 0;
      while i < |lines| - 1
        invariant 0 <= i <= |lines| - 1
        invariant State() == ApplyFrames(start, lines[..i], ctx, now)
        invariant eventCount == count0 + DataCount(lines[..i])
        invariant engine.isLoading == old(engine.isLoading) && engine.abortRef == old(engine.abortRef)
        invariant received == old(received) + chunk && frames == old(frames) + lines[..|lines| - 1]
        invariant buffer == lines[|lines| - 1] && phase == Reading
      {
        TakeOneMore(lines, i);
        FramesSnoc(start, lines[..i], lines[i], ctx, now);
        HandleLine(lines[i], now);
        i := i + 1;
      }
      assert lines[..|lines| - 1][..|lines| - 1] == lines[..|lines| - 1];
    }

    /** The body of the loop over the complete pieces: a piece that starts with `data: ` is
        counted and parsed, and its payload handled by type. */
    method HandleLine(line: string, now: int)
      modifies this, engine
      ensures State() == ApplyFrame(old(State()), line, ctx, now)
      ensures eventCount == old(eventCount) + (if IsDataFrame(line) then 1 else 0)
      ensures engine.isLoading == old(engine.isLoading) && engine.abortRef == old(engine.abortRef)
      ensures received == old(received) && frames == old(frames) && buffer == old(buffer) && phase == old(phase)
    {
      if StartsWith(line, DATA_PREFIX) {
        eventCount := eventCount + 1;
        var data := ctx.parsers.json(line[|DATA_PREFIX|..]);
        match data {
          case StartEvent(sid) =>
            if Truthy(sid) && !Truthy(ctx.sessionAtCall) {
              engine.sessionId := sid;
            }
          case TokenEvent(c) =>
            fullContent := fullContent + c;
            engine.messages := SetContent(engine.messages, ctx.assistantId, fullContent);
          case DoneEvent(ts) =>
            var parsed := SafeParseServerTimestamp(ts, ctx.parsers.date);
            engine.messages := PatchTimestamp(engine.messages, ctx.assistantId, parsed, At(now));
          case ErrorEvent(_) =>
            // thrown at line 162 and caught at line 164: the loop goes on
          case OtherEvent =>
          case Unparsable =>
            // JSON.parse threw; caught at line 164
        }
      }
    }

    /** The read loop ends: the reader reported done, the signal was aborted, or something
        was thrown. The catch block rewrites only the last message; the finally block always
        clears the loading flag and the controller reference. Pieces still in the buffer are
        never interpreted. */
    method Finish(end: ReadEnd)
      requires phase != Settled
      requires end == EndOfStream ==> phase == Reading
      modifies this, engine
      ensures phase == Settled
      ensures engine.messages == Settle(old(engine.messages), end)
      ensures engine.sessionId == old(engine.sessionId) && !engine.isLoading && engine.abortRef == null
      ensures buffer == old(buffer) && fullContent == old(fullContent) && eventCount == old(eventCount)
      ensures received == old(received) && frames == old(frames)
    {
      match end {
        case EndOfStream =>
        case Aborted =>
          engine.messages := MarkStopped(engine.messages);
        case Failed(_) =>
          engine.messages := ApologizeIfEmpty(engine.messages);
      }
      engine.isLoading := false;
      engine.abortRef := null;
      phase := Settled;
    }
  }
}
