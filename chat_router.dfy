/** The server side of the chat protocol in backend/routers/chat_router.py: session
    resolution and its ownership checks, the history window handed to the prompt
    builder, and the event sequence of generate_stream. The session service, the cache
    manager and the token source are collaborators whose behaviour is modelled by their
    effect on a map (sessions, cache entries) or passed in (what the model produced,
    which collaborator raised). */
module ChatRouter {
  import opened Text
  import PB = PromptBuilder
  import LS = LlmService

  /** A stored chat message as add_message records it. */
  datatype StoredMessage = StoredMessage(role: string, content: string, tokensUsed: Option<nat>)

  datatype Session = Session(owner: string, messages: seq<StoredMessage>)

  /** The body of a chat request. */
  datatype Request = Request(prompt: string, sessionId: Option<string>, maxTokens: Option<int>, temperature: Option<real>)

  /** The events generate_stream emits, each as one `data: ` frame. */
  datatype Event =
    | Start(sessionId: string, messageId: string)
    | Token(content: string)
    | Done(tokensUsed: nat, cached: bool, timestamp: string)
    | Failure(message: string)

  /** The outcome of the session check at the top of both endpoints. */
  datatype Resolution = Resolved(id: string, created: bool) | Refused(status: nat, detail: string)

  /** An exception raised by the session service while storing the user message. */
  datatype StoreFault = ValueFault(detail: string) | OtherFault(detail: string)

  /** Exceptions raised by collaborators while the stream is produced: by the cache lookup,
      by a live model's token iterator once it has yielded its chunks, and by the session
      service when the assistant message is saved. */
  datatype Faults = Faults(cacheGet: Option<string>, tokenStream: Option<string>, saveFails: bool)

  /** What an endpoint answers: an HTTP error, or an event stream of frames. */
  datatype HttpReply = Rejected(status: nat, detail: string) | EventStream(sessionId: string, frames: seq<string>)

  const NOT_FOUND := "Session not found"
  const FORBIDDEN := "Access denied to this session"
  const STREAM_WINDOW := 5
  const PLAIN_WINDOW := 3
  /** The body the framework sends for an exception no handler catches. */
  const INTERNAL_ERROR := "Internal Server Error"

  // ---------------------------------------------------------------------
  // Session resolution
  // ---------------------------------------------------------------------

  /** The session check: no session id creates one under the new id; an unknown id is a
      404; a session of another user is a 403; otherwise the requested session is used. */
  function Resolve(sessions: map<string, Session>, requested: Option<string>, user: string, newId: string): Resolution {
    if !Truthy(requested) then Resolved(newId, true)
    else if requested.value !in sessions then Refused(404, NOT_FOUND)
    else if sessions[requested.value].owner != user then Refused(403, FORBIDDEN)
    else Resolved(requested.value, false)
  }

  /** The sessions after the check: a created session is added, empty and owned by the user. */
  function AfterResolve(sessions: map<string, Session>, r: Resolution, user: string): map<string, Session> {
    if r.Resolved? && r.created then sessions[r.id := Session(user, [])] else sessions
  }

  /** A request proceeds only with a session that exists and belongs to the requester; it
      uses the requested session whenever one was named, and a new empty one otherwise. */
  lemma ResolveAuthorizes(sessions: map<string, Session>, requested: Option<string>, user: string, newId: string)
    ensures var r := Resolve(sessions, requested, user, newId);
      r.Resolved? ==>
        var after := AfterResolve(sessions, r, user);
        && r.id in after && after[r.id].owner == user
        && (Truthy(requested) ==> r.id == requested.value && !r.created && after == sessions)
        && (!Truthy(requested) ==> r.created && after[r.id].messages == [])
    ensures var r := Resolve(sessions, requested, user, newId);
      Truthy(requested) && requested.value in sessions && sessions[requested.value].owner == user ==> r.Resolved?
  {
  }

  /** A refusal is a 404 exactly for an unknown id and a 403 exactly for another user's
      session, and it leaves the sessions as they were. */
  lemma ResolveRefuses(sessions: map<string, Session>, requested: Option<string>, user: string, newId: string)
    ensures var r := Resolve(sessions, requested, user, newId);
      && (r == Refused(404, NOT_FOUND) <==> Truthy(requested) && requested.value !in sessions)
      && (r == Refused(403, FORBIDDEN) <==>
            Truthy(requested) && requested.value in sessions && sessions[requested.value].owner != user)
      && (r.Refused? ==> AfterResolve(sessions, r, user) == sessions)
  {
  }

  /** The sessions with one message appended to session `id`. */
  function Appended(sessions: map<string, Session>, id: string, m: StoredMessage): (r: map<string, Session>)
    requires id in sessions
    ensures r.Keys == sessions.Keys
    ensures r[id].owner == sessions[id].owner && r[id].messages == sessions[id].messages + [m]
    ensures forall k :: k in sessions && k != id ==> r[k] == sessions[k]
  {
    sessions[id := sessions[id].(messages := sessions[id].messages + [m])]
  }

  /** The session service, as the map from session ids to sessions it keeps. */
  class SessionStore {
    var sessions: map<string, Session>

    constructor ()
      ensures sessions == map[]
    {
      sessions := map[];
    }

    /** create_session, with the new uuid as an input. */
    method CreateSession(owner: string, newId: string) returns (id: string)
      requires newId !in sessions
      modifies this
      ensures id == newId && sessions == old(sessions)[newId := Session(owner, [])]
    {
      sessions := sessions[newId := Session(owner, [])];
      id := newId;
    }

    method AddMessage(id: string, m: StoredMessage)
      requires id in sessions
      modifies this
      ensures sessions == Appended(old(sessions), id, m)
    {
      sessions := sessions[id := sessions[id].(messages := sessions[id].messages + [m])];
    }
  }

  // ---------------------------------------------------------------------
  // History window: `messages[:-1][-n:]`
  // ---------------------------------------------------------------------

  function AsHistory(ms: seq<StoredMessage>): (h: seq<PB.HistoryMessage>)
    ensures |h| == |ms|
    ensures forall i :: 0 <= i < |ms| ==> h[i] == PB.HistoryMessage(ms[i].role, Some(ms[i].content))
  {
    seq(|ms|, i requires 0 <= i < |ms| => PB.HistoryMessage(ms[i].role, Some(ms[i].content)))
  }

  /** Python's `ms[:-1][-n:]` for n > 0: all but the last message, then at most the last n of those. */
  function Window(ms: seq<StoredMessage>, n: nat): seq<PB.HistoryMessage>
    requires n > 0
  {
    var prior := if ms == [] then [] else ms[..|ms| - 1];
    AsHistory(if |prior| <= n then prior else prior[|prior| - n..])
  }

  /** Right after the user message is stored, the window holds the at most `n` messages that
      came before it, in order, and never the message just added. */
  lemma WindowAfterAdd(prev: seq<StoredMessage>, m: StoredMessage, n: nat)
    requires n > 0
    ensures var w := Window(prev + [m], n);
      var k := if |prev| <= n then |prev| else n;
      && |w| == k
      && w == AsHistory(prev[|prev| - k..])
  {
    assert (prev + [m])[..|prev|] == prev;
  }

  /** The stored messages as the prompt builder reads them. */
  function HistoryOf(sessions: map<string, Session>, id: string, n: nat): seq<PB.HistoryMessage>
    requires id in sessions && n > 0
  {
    Window(sessions[id].messages, n)
  }

  /** The prompt build_prompt produces, as BuildPrompt states it. */
  function PromptText(history: seq<PB.HistoryMessage>, systemPrompt: string, userPrompt: string): string {
    PB.FmtChat("system", systemPrompt) + PB.HistoryBlock(history)
    + PB.FmtChat("user", Strip(userPrompt)) + PB.ASSISTANT_OPEN
  }

  // ---------------------------------------------------------------------
  // The event sequence of generate_stream
  // ---------------------------------------------------------------------

  /** `[t for t in tokens if t]`. */
  function NonEmpty(tokens: seq<string>): seq<string>
    decreases |tokens|
  {
    if tokens == [] then []
    else
      var t := tokens[|tokens| - 1];
      NonEmpty(tokens[..|tokens| - 1]) + (if t != "" then [t] else [])
  }

  function TokenEvents(contents: seq<string>): (es: seq<Event>)
    ensures |es| == |contents|
    ensures forall i :: 0 <= i < |contents| ==> es[i] == Token(contents[i])
  {
    seq(|contents|, i requires 0 <= i < |contents| => Token(contents[i]))
  }

  /** The one-character strings of `t`: what a `for` loop over a Python string yields. */
  function Characters(t: string): (cs: seq<string>)
    ensures |cs| == |t|
    ensures forall i :: 0 <= i < |t| ==> cs[i] == [t[i]]
  {
    seq(|t|, i requires 0 <= i < |t| => [t[i]])
  }

  /** What iterating over the value stream_infer returns yields: the pieces of a generator,
      or the characters of a string (the stand-in's text or an error message). */
  function TokenSeq(r: LS.Reply): seq<string> {
    match r
    case Whole(t) => Characters(t)
    case Pieces(ps) => ps
  }

  /** The contents of the token events, in order. */
  function EmittedTokens(es: seq<Event>): seq<string>
    decreases |es|
  {
    if es == [] then []
    else
      var e := es[|es| - 1];
      EmittedTokens(es[..|es| - 1]) + (if e.Token? then [e.content] else [])
  }

  /** The assistant message generate_stream saves: the full response and its word count. */
  function AssistantMessage(full: string): StoredMessage {
    StoredMessage("assistant", full, Some(|Words(full)|))
  }

  /** What one run of generate_stream does: the events it emits, the assistant message it
      saves, if any, and the response it writes to the cache, if any. */
  datatype Plan = Plan(events: seq<Event>, saved: Option<StoredMessage>, cacheWrite: Option<string>)

  /** The cached path (lines 186-193): the word tokens of the cached response, then `done`
      marked as cached; the response is saved unless that raises, and not cached again. */
  function CachedPlan(sid: string, mid: string, c: string, saveFails: bool, now: string): Plan {
    Plan([Start(sid, mid)] + TokenEvents(WordTokens(c)) + [Done(|Words(c)|, true, now)],
         if saveFails then None else Some(AssistantMessage(c)), None)
  }

  /** The live path (lines 195-226): the non-empty tokens, then `error` if the source raised,
      and otherwise `done`, the saved response and a cache write of a non-empty response. */
  function LivePlan(sid: string, mid: string, tokens: seq<string>, streamFault: Option<string>,
                    saveFails: bool, now: string): Plan
  {
    var live := NonEmpty(tokens);
    var full := Concat(live);
    if streamFault.Some? then
      Plan([Start(sid, mid)] + TokenEvents(live) + [Failure(streamFault.value)], None, None)
    else
      Plan([Start(sid, mid)] + TokenEvents(live) + [Done(|Words(full)|, false, now)],
           if saveFails then None else Some(AssistantMessage(full)),
           if full != "" then Some(full) else None)
  }

  /** The specification of generate_stream. `cached` is what the cache lookup returned,
      `tokens` what iterating the live token source yields, `streamFault` the exception that
      source raises after them, if any. */
  function StreamPlan(sid: string, mid: string, cached: Option<string>, tokens: seq<string>,
                      streamFault: Option<string>, faults: Faults, now: string): Plan
  {
    if faults.cacheGet.Some? then Plan([Start(sid, mid), Failure(faults.cacheGet.value)], None, None)
    else if Truthy(cached) then CachedPlan(sid, mid, cached.value, faults.saveFails, now)
    else LivePlan(sid, mid, tokens, streamFault, faults.saveFails, now)
  }

  lemma {:induction false} NonEmptySpec(tokens: seq<string>)
    ensures forall i :: 0 <= i < |NonEmpty(tokens)| ==> NonEmpty(tokens)[i] != ""
    ensures Concat(NonEmpty(tokens)) == Concat(tokens)
    decreases |tokens|
  {
    if tokens != [] {
      var init := tokens[..|tokens| - 1];
      var t := tokens[|tokens| - 1];
      NonEmptySpec(init);
      var tail := if t != "" then [t] else [];
      ConcatAppend(NonEmpty(init), tail);
      if t != "" {
        assert Concat(tail) == t by { assert tail[..0] == []; }
      } else {
        assert Concat(tail) == "";
      }
    }
  }

  lemma {:induction false} CharactersConcat(t: string)
    ensures Concat(Characters(t)) == t
    decreases |t|
  {
    if t != [] {
      var init := t[..|t| - 1];
      assert Characters(t)[..|t| - 1] == Characters(init);
      CharactersConcat(init);
      assert init + [t[|t| - 1]] == t;
    }
  }

  /** Iterating a reply yields its text, piece by piece. */
  lemma TokenSeqFlatten(r: LS.Reply)
    ensures Concat(TokenSeq(r)) == LS.Flatten(r)
  {
    if r.Whole? {
      CharactersConcat(r.text);
    }
  }

  lemma {:induction false} EmittedTokensAppend(a: seq<Event>, b: seq<Event>)
    ensures EmittedTokens(a + b) == EmittedTokens(a) + EmittedTokens(b)
    decreases |b|
  {
    if b == [] {
      assert a + b == a;
    } else {
      var init := b[..|b| - 1];
      EmittedTokensAppend(a, init);
      assert (a + b)[..|a + b| - 1] == a + init;
    }
  }

  lemma {:induction false} EmittedTokenEvents(contents: seq<string>)
    ensures EmittedTokens(TokenEvents(contents)) == contents
    decreases |contents|
  {
    if contents != [] {
      var init := contents[..|contents| - 1];
      assert TokenEvents(contents)[..|contents| - 1] == TokenEvents(init);
      EmittedTokenEvents(init);
    }
  }

  /** The token contents of a run framed by a start and a terminal event are the run's. */
  lemma EmittedBetween(sid: string, mid: string, contents: seq<string>, last: Event)
    requires !last.Token?
    ensures EmittedTokens([Start(sid, mid)] + TokenEvents(contents) + [last]) == contents
  {
    EmittedTokensAppend([Start(sid, mid)], TokenEvents(contents));
    EmittedTokensAppend([Start(sid, mid)] + TokenEvents(contents), [last]);
    EmittedTokenEvents(contents);
    assert EmittedTokens([Start(sid, mid)]) == [] by { assert [Start(sid, mid)][..0] == []; }
    assert EmittedTokens([last]) == [] by { assert [last][..0] == []; }
  }

  /** Every stream opens with `start` carrying the resolved session, continues with token
      events only, and closes with exactly one `done` or `error`, which is the last event. */
  lemma PlanShape(sid: string, mid: string, cached: Option<string>, tokens: seq<string>,
                  streamFault: Option<string>, faults: Faults, now: string)
    ensures var es := StreamPlan(sid, mid, cached, tokens, streamFault, faults, now).events;
      && |es| >= 2
      && es[0] == Start(sid, mid)
      && (forall i :: 0 < i < |es| - 1 ==> es[i].Token?)
      && (es[|es| - 1].Done? || es[|es| - 1].Failure?)
  {
  }

  /** An `error` event is emitted exactly when the cache lookup raised, or the live token
      source raised; then nothing is saved or cached, and no `done` event is emitted. */
  lemma PlanFailure(sid: string, mid: string, cached: Option<string>, tokens: seq<string>,
                    streamFault: Option<string>, faults: Faults, now: string)
    ensures var p := StreamPlan(sid, mid, cached, tokens, streamFault, faults, now);
      && (p.events[|p.events| - 1].Failure? <==>
            faults.cacheGet.Some? || (!Truthy(cached) && streamFault.Some?))
      && (p.events[|p.events| - 1].Failure? ==>
            p.saved.None? && p.cacheWrite.None? && forall i :: 0 <= i < |p.events| ==> !p.events[i].Done?)
  {
  }

  /** On success the `done` event reports the whitespace word count of exactly the text that
      was streamed, and the saved assistant message holds that text with the same count,
      unless saving it raised. */
  lemma PlanSuccess(sid: string, mid: string, cached: Option<string>, tokens: seq<string>,
                    streamFault: Option<string>, faults: Faults, now: string)
    ensures var p := StreamPlan(sid, mid, cached, tokens, streamFault, faults, now);
      var last := p.events[|p.events| - 1];
      var full := Concat(EmittedTokens(p.events));
      last.Done? ==>
        && last.tokensUsed == |Words(full)|
        && last.cached == Truthy(cached)
        && last.timestamp == now
        && p.saved == (if faults.saveFails then None else Some(StoredMessage("assistant", full, Some(last.tokensUsed))))
  {
    var p := StreamPlan(sid, mid, cached, tokens, streamFault, faults, now);
    var last := p.events[|p.events| - 1];
    if last.Done? {
      if Truthy(cached) {
        EmittedBetween(sid, mid, WordTokens(cached.value), last);
        WordTokensRoundTrip(cached.value);
      } else {
        EmittedBetween(sid, mid, NonEmpty(tokens), last);
      }
    }
  }

  /** The cached path emits the first word, then a space and each later word, and those
      contents put together are the cached response exactly; the cache is not written. */
  lemma PlanCachedRoundTrip(sid: string, mid: string, cached: Option<string>, tokens: seq<string>,
                            streamFault: Option<string>, faults: Faults, now: string)
    requires faults.cacheGet.None? && Truthy(cached)
    ensures var p := StreamPlan(sid, mid, cached, tokens, streamFault, faults, now);
      var words := Split(cached.value, " ");
      var emitted := EmittedTokens(p.events);
      && |emitted| == |words|
      && emitted[0] == words[0]
      && (forall i :: 0 < i < |words| ==> emitted[i] == " " + words[i])
      && Concat(emitted) == cached.value
      && p.cacheWrite.None?
  {
    var c := cached.value;
    var p := StreamPlan(sid, mid, cached, tokens, streamFault, faults, now);
    EmittedBetween(sid, mid, WordTokens(c), p.events[|p.events| - 1]);
    WordTokensRoundTrip(c);
  }

  /** The live path never emits an empty token, emits the source's whole text, and writes
      that text to the cache exactly when it is non-empty and the source did not raise. */
  lemma PlanLive(sid: string, mid: string, cached: Option<string>, tokens: seq<string>,
                 streamFault: Option<string>, faults: Faults, now: string)
    requires faults.cacheGet.None? && !Truthy(cached)
    ensures var p := StreamPlan(sid, mid, cached, tokens, streamFault, faults, now);
      var emitted := EmittedTokens(p.events);
      && (forall i :: 0 <= i < |emitted| ==> emitted[i] != "")
      && Concat(emitted) == Concat(tokens)
      && (p.cacheWrite.Some? <==> streamFault.None? && Concat(tokens) != "")
      && (p.cacheWrite.Some? ==> p.cacheWrite.value == Concat(tokens))
  {
    var p := StreamPlan(sid, mid, cached, tokens, streamFault, faults, now);
    EmittedBetween(sid, mid, NonEmpty(tokens), p.events[|p.events| - 1]);
    NonEmptySpec(tokens);
  }

  // ---------------------------------------------------------------------
  // Frames
  // ---------------------------------------------------------------------

  /** One server-sent event line: `data: ` and the JSON text of the event. */
  function DataLine(e: Event, dumps: Event -> string): string {
    "data: " + dumps(e)
  }

  /** One frame: the data line and the blank line that ends it. */
  function Frame(e: Event, dumps: Event -> string): string {
    DataLine(e, dumps) + "\n\n"
  }

  function Frames(es: seq<Event>, dumps: Event -> string): (fs: seq<string>)
    ensures |fs| == |es|
    ensures forall i :: 0 <= i < |es| ==> fs[i] == Frame(es[i], dumps)
  {
    seq(|es|, i requires 0 <= i < |es| => Frame(es[i], dumps))
  }

  lemma FramesAppend(a: seq<Event>, b: seq<Event>, dumps: Event -> string)
    ensures Frames(a + b, dumps) == Frames(a, dumps) + Frames(b, dumps)
  {
  }

  /** The frames of a start event, a run of token events and a closing event. */
  lemma FramesOfRun(start: Event, contents: seq<string>, last: Event, dumps: Event -> string)
    ensures Frames([start] + TokenEvents(contents) + [last], dumps)
            == [Frame(start, dumps)] + Frames(TokenEvents(contents), dumps) + [Frame(last, dumps)]
  {
  }

  /** The cache entries after a run: the response written under the key, if one was. */
  function Written(entries: map<LS.CacheKey, string>, key: LS.CacheKey, write: Option<string>): map<LS.CacheKey, string> {
    if write.Some? then entries[key := write.value] else entries
  }

  /** The sessions after a run: the assistant message appended, if one was saved. */
  function Saved(sessions: map<string, Session>, id: string, saved: Option<StoredMessage>): map<string, Session>
    requires id in sessions
  {
    if saved.Some? then Appended(sessions, id, saved.value) else sessions
  }

  /** What cache_manager.get returns for a key. */
  function Lookup(entries: map<LS.CacheKey, string>, key: LS.CacheKey): Option<string> {
    if key in entries then Some(entries[key]) else None
  }

  /** The exception the live token source raises: only a loaded model's stream can raise
      while it is iterated (the stand-in's pieces and strings cannot). */
  function LiveFault(ready: bool, outcome: LS.ModelOutcome, faults: Faults): Option<string> {
    if ready && outcome.Output? then faults.tokenStream else None
  }

  /** The cached path's loop: one token frame per word of `split(' ')`, the first word as
      it is and every later one after a space. */
  method CachedTokenFrames(full: string, dumps: Event -> string) returns (frames: seq<string>)
    ensures frames == Frames(TokenEvents(WordTokens(full)), dumps)
  {
    var words := Split(full, " ");
    ghost var all := WordTokens(full);
    frames := [];
    var i := 0;
    while i < |words|
      invariant 0 <= i <= |words| == |all|
      invariant frames == Frames(TokenEvents(all[..i]), dumps)
    {
      var token := if i == 0 then words[i] else " " + words[i];
      assert token == all[i];
      TokenFrameStep(all, i, dumps);
      frames := frames + [Frame(Token(token), dumps)];
      i := i + 1;
    }
    assert all[..|words|] == all;
  }

  lemma TokenFrameStep(all: seq<string>, i: nat, dumps: Event -> string)
    requires i < |all|
    ensures Frames(TokenEvents(all[..i + 1]), dumps) == Frames(TokenEvents(all[..i]), dumps) + [Frame(Token(all[i]), dumps)]
  {
    assert TokenEvents(all[..i + 1]) == TokenEvents(all[..i]) + [Token(all[i])];
    FramesAppend(TokenEvents(all[..i]), [Token(all[i])], dumps);
  }

  lemma ConcatSnoc(xs: seq<string>, x: string)
    ensures Concat(xs + [x]) == Concat(xs) + x
  {
    assert (xs + [x])[..|xs|] == xs;
  }

  /** One turn of the live loop: a non-empty token extends the text and the frames, an
      empty one changes neither. */
  lemma LiveStep(tokens: seq<string>, i: nat, dumps: Event -> string)
    requires i < |tokens|
    ensures tokens[i] == "" ==> NonEmpty(tokens[..i + 1]) == NonEmpty(tokens[..i])
    ensures tokens[i] != "" ==> Concat(NonEmpty(tokens[..i + 1])) == Concat(NonEmpty(tokens[..i])) + tokens[i]
    ensures tokens[i] != "" ==> Frames(TokenEvents(NonEmpty(tokens[..i + 1])), dumps)
                                == Frames(TokenEvents(NonEmpty(tokens[..i])), dumps) + [Frame(Token(tokens[i]), dumps)]
  {
    assert tokens[..i + 1][..i] == tokens[..i];
    var prev := NonEmpty(tokens[..i]);
    if tokens[i] != "" {
      assert NonEmpty(tokens[..i + 1]) == prev + [tokens[i]];
      ConcatSnoc(prev, tokens[i]);
      assert TokenEvents(prev + [tokens[i]]) == TokenEvents(prev) + [Token(tokens[i])];
      FramesAppend(TokenEvents(prev), [Token(tokens[i])], dumps);
    }
  }

  /** The live path's loop: a token frame for every non-empty token, accumulating the full
      response. */
  method LiveTokenFrames(tokens: seq<string>, dumps: Event -> string) returns (frames: seq<string>, full: string)
    ensures full == Concat(NonEmpty(tokens))
    ensures frames == Frames(TokenEvents(NonEmpty(tokens)), dumps)
  {
    full := "";
    frames := [];
    var i := 0;
    while i < |tokens|
      invariant 0 <= i <= |tokens|
      invariant full == Concat(NonEmpty(tokens[..i]))
      invariant frames == Frames(TokenEvents(NonEmpty(tokens[..i])), dumps)
    {
      var token := tokens[i];
      LiveStep(tokens, i, dumps);
      if token != "" {
        full := full + token;
        frames := frames + [Frame(Token(token), dumps)];
      }
      i := i + 1;
    }
    assert tokens[..|tokens|] == tokens;
  }

  /** The cache key generate_stream uses: the user's plain prompt, not the formatted one. */
  function KeyOf(request: Request): LS.CacheKey {
    LS.CacheKey(request.prompt, request.maxTokens, request.temperature)
  }

  /** The plan of one generate_stream run for the given cache contents and model. */
  function RunPlan(sid: string, mid: string, request: Request, entries: map<LS.CacheKey, string>, ready: bool,
                   formatted: string, outcome: LS.ModelOutcome, patterns: LS.Patterns, faults: Faults, now: string): Plan
  {
    StreamPlan(sid, mid, Lookup(entries, KeyOf(request)),
               TokenSeq(LS.Generated(ready, formatted, true, outcome, patterns)),
               LiveFault(ready, outcome, faults), faults, now)
  }

  /** The plan of a run, branch by branch. */
  lemma RunPlanBranches(sid: string, mid: string, request: Request, entries: map<LS.CacheKey, string>, ready: bool,
                        formatted: string, outcome: LS.ModelOutcome, patterns: LS.Patterns, faults: Faults, now: string)
    ensures var p := RunPlan(sid, mid, request, entries, ready, formatted, outcome, patterns, faults, now);
      var cached := Lookup(entries, KeyOf(request));
      && (faults.cacheGet.Some? ==> p == Plan([Start(sid, mid), Failure(faults.cacheGet.value)], None, None))
      && (faults.cacheGet.None? && Truthy(cached) ==> p == CachedPlan(sid, mid, cached.value, faults.saveFails, now))
      && (faults.cacheGet.None? && !Truthy(cached) ==>
            p == LivePlan(sid, mid, TokenSeq(LS.Generated(ready, formatted, true, outcome, patterns)),
                          LiveFault(ready, outcome, faults), faults.saveFails, now))
  {
  }

  /** The cached branch of generate_stream, after the start frame. */
  method ServeCached(store: SessionStore, sid: string, mid: string, c: string, saveFails: bool,
                     dumps: Event -> string, now: string) returns (frames: seq<string>)
    requires sid in store.sessions
    modifies store
    ensures frames == Frames(CachedPlan(sid, mid, c, saveFails, now).events, dumps)
    ensures store.sessions == Saved(old(store.sessions), sid, CachedPlan(sid, mid, c, saveFails, now).saved)
  {
    var tokenFrames := CachedTokenFrames(c, dumps);
    if !saveFails {
      store.AddMessage(sid, AssistantMessage(c));
    }
    var done := Done(|Words(c)|, true, now);
    FramesOfRun(Start(sid, mid), WordTokens(c), done, dumps);
    frames := [Frame(Start(sid, mid), dumps)] + tokenFrames + [Frame(done, dumps)];
  }

  /** The live branch of generate_stream once stream_infer has returned: the token loop,
      the cache write and the save. `tokens` is what iterating the returned value yields and
      `raised` the exception the iteration ends with, if any. */
  method ServeLive(store: SessionStore, cache: LS.ResponseCache, sid: string, mid: string, key: LS.CacheKey,
                   tokens: seq<string>, raised: Option<string>, saveFails: bool,
                   dumps: Event -> string, now: string) returns (frames: seq<string>)
    requires sid in store.sessions
    modifies store, cache
    ensures frames == Frames(LivePlan(sid, mid, tokens, raised, saveFails, now).events, dumps)
    ensures store.sessions == Saved(old(store.sessions), sid, LivePlan(sid, mid, tokens, raised, saveFails, now).saved)
    ensures cache.entries == Written(old(cache.entries), key, LivePlan(sid, mid, tokens, raised, saveFails, now).cacheWrite)
  {
    var tokenFrames, full := LiveTokenFrames(tokens, dumps);
    var last;
    if raised.Some? {
      last := Failure(raised.value);
    } else {
      if full != "" {
        cache.entries := cache.entries[key := full];
      }
      if !saveFails {
        store.AddMessage(sid, AssistantMessage(full));
      }
      last := Done(|Words(full)|, false, now);
    }
    FramesOfRun(Start(sid, mid), NonEmpty(tokens), last, dumps);
    frames := [Frame(Start(sid, mid), dumps)] + tokenFrames + [Frame(last, dumps)];
  }

  /** generate_stream, run to its end. */
  method GenerateStream(store: SessionStore, cache: LS.ResponseCache, service: LS.InferenceService,
                        sid: string, mid: string, request: Request, formatted: string,
                        outcome: LS.ModelOutcome, patterns: LS.Patterns, faults: Faults,
                        dumps: Event -> string, now: string) returns (frames: seq<string>)
    requires sid in store.sessions
    modifies store, cache
    ensures var p := RunPlan(sid, mid, request, old(cache.entries), service.engine.ready, formatted,
                             outcome, patterns, faults, now);
      && frames == Frames(p.events, dumps)
      && store.sessions == Saved(old(store.sessions), sid, p.saved)
      && cache.entries == Written(old(cache.entries), KeyOf(request), p.cacheWrite)
  {
    RunPlanBranches(sid, mid, request, old(cache.entries), service.engine.ready, formatted, outcome, patterns, faults, now);
    if faults.cacheGet.Some? {
      return [Frame(Start(sid, mid), dumps), Frame(Failure(faults.cacheGet.value), dumps)];
    }
    var key := KeyOf(request);
    var cachedResponse := Lookup(cache.entries, key);
    if Truthy(cachedResponse) {
      frames := ServeCached(store, sid, mid, cachedResponse.value, faults.saveFails, dumps, now);
    } else {
      var reply := service.StreamInfer(formatted, outcome, patterns);
      var raised := LiveFault(service.engine.ready, outcome, faults);
      frames := ServeLive(store, cache, sid, mid, key, TokenSeq(reply), raised, faults.saveFails, dumps, now);
    }
  }

  // ---------------------------------------------------------------------
  // Endpoints
  // ---------------------------------------------------------------------

  /** The HTTP error for a failure to store the user message: 403 for a ValueError, 500 otherwise. */
  function StoreRejection(f: StoreFault): HttpReply {
    match f
    case ValueFault(d) => Rejected(403, d)
    case OtherFault(d) => Rejected(500, "Failed to save message: " + d)
  }

  /** send_message_stream: resolve the session, store the user message, build the prompt from
      the last five earlier messages, then stream. */
  method SendMessageStream(store: SessionStore, cache: LS.ResponseCache, service: LS.InferenceService,
                           user: string, request: Request, newId: string, mid: string, systemPrompt: string,
                           userFault: Option<StoreFault>, outcome: LS.ModelOutcome, patterns: LS.Patterns,
                           faults: Faults, dumps: Event -> string, now: string) returns (reply: HttpReply)
    requires !Truthy(request.sessionId) ==> newId !in store.sessions
    modifies store, cache
    ensures var r := Resolve(old(store.sessions), request.sessionId, user, newId);
      && (r.Refused? ==>
            reply == Rejected(r.status, r.detail)
            && store.sessions == old(store.sessions) && cache.entries == old(cache.entries))
      && (r.Resolved? && userFault.Some? ==>
            reply == StoreRejection(userFault.value)
            && store.sessions == AfterResolve(old(store.sessions), r, user) && cache.entries == old(cache.entries))
      && (r.Resolved? && userFault.None? ==>
            var withUser := Appended(AfterResolve(old(store.sessions), r, user), r.id,
                                     StoredMessage("user", request.prompt, None));
            var formatted := PromptText(HistoryOf(withUser, r.id, STREAM_WINDOW), systemPrompt, request.prompt);
            var key := LS.CacheKey(request.prompt, request.maxTokens, request.temperature);
            var tokens := TokenSeq(LS.Generated(service.engine.ready, formatted, true, outcome, patterns));
            var p := StreamPlan(r.id, mid, Lookup(old(cache.entries), key), tokens,
                                LiveFault(service.engine.ready, outcome, faults), faults, now);
            && reply == EventStream(r.id, Frames(p.events, dumps))
            && store.sessions == Saved(withUser, r.id, p.saved)
            && cache.entries == Written(old(cache.entries), key, p.cacheWrite))
  {
    var r := Resolve(store.sessions, request.sessionId, user, newId);
    if r.Refused? {
      return Rejected(r.status, r.detail);
    }
    var sid := r.id;
    if r.created {
      sid := store.CreateSession(user, newId);
    }
    if userFault.Some? {
      return StoreRejection(userFault.value);
    }
    store.AddMessage(sid, StoredMessage("user", request.prompt, None));
    var history := Window(store.sessions[sid].messages, STREAM_WINDOW);
    var formatted := PB.BuildPrompt(history, systemPrompt, request.prompt);
    var frames := GenerateStream(store, cache, service, sid, mid, request, formatted, outcome, patterns, faults, dumps, now);
    reply := EventStream(sid, frames);
  }

  /** send_message: resolves the session and stores the user message like the streaming
      endpoint, with a window of the last three earlier messages, but its call to infer
      passes a `cache_key` argument the service does not accept, so every request that gets
      that far ends in an internal server error before anything is generated or cached. A
      failure to store the user message is not caught either; both reach the client as the
      framework's generic 500 reply. */
  method SendMessage(store: SessionStore, user: string, request: Request, newId: string, systemPrompt: string,
                     userFault: Option<StoreFault>) returns (reply: HttpReply, formatted: string)
    requires !Truthy(request.sessionId) ==> newId !in store.sessions
    modifies store
    ensures var r := Resolve(old(store.sessions), request.sessionId, user, newId);
      && (r.Refused? ==> reply == Rejected(r.status, r.detail) && store.sessions == old(store.sessions))
      && (r.Resolved? && userFault.Some? ==>
            reply == Rejected(500, INTERNAL_ERROR) && store.sessions == AfterResolve(old(store.sessions), r, user))
      && (r.Resolved? && userFault.None? ==>
            var withUser := Appended(AfterResolve(old(store.sessions), r, user), r.id,
                                     StoredMessage("user", request.prompt, None));
            && reply == Rejected(500, INTERNAL_ERROR)
            && formatted == PromptText(HistoryOf(withUser, r.id, PLAIN_WINDOW), systemPrompt, request.prompt)
            && store.sessions == withUser)
  {
    formatted := "";
    var r := Resolve(store.sessions, request.sessionId, user, newId);
    if r.Refused? {
      return Rejected(r.status, r.detail), formatted;
    }
    var sid := r.id;
    if r.created {
      sid := store.CreateSession(user, newId);
    }
    if userFault.Some? {
      return Rejected(500, INTERNAL_ERROR), formatted;
    }
    store.AddMessage(sid, StoredMessage("user", request.prompt, None));
    var history := Window(store.sessions[sid].messages, PLAIN_WINDOW);
    formatted := PB.BuildPrompt(history, systemPrompt, request.prompt);
    reply := Rejected(500, INTERNAL_ERROR);
  }
}
