/** The wire between generate_stream (backend/routers/chat_router.py) and the client's frame
    splitter and event interpreter (frontend/contexts/ChatContext.tsx): the body the server
    writes is cut by the client into exactly the server's data lines, whatever the chunking,
    and the client's transcript ends up with the text the server streamed and saved. */
module Wire {
  import opened Text
  import CR = ChatRouter
  import CC = ChatContext

  /** The payload the client's handler sees for each server event, through the fields it reads. */
  function AsPayload(e: CR.Event): CC.Payload {
    match e
    case Start(sid, _) => CC.StartEvent(Some(sid))
    case Token(c) => CC.TokenEvent(c)
    case Done(_, _, ts) => CC.DoneEvent(Some(ts))
    case Failure(m) => CC.ErrorEvent(m)
  }

  /** The server's JSON rendering never holds a raw line break (json.dumps escapes them). */
  ghost predicate NoBreaks(dumps: CR.Event -> string) {
    forall e :: '\n' !in dumps(e)
  }

  /** The client's JSON.parse reads every rendering back as the event's payload. */
  ghost predicate Faithful(dumps: CR.Event -> string, ctx: CC.TurnContext) {
    NoBreaks(dumps) && forall e :: ctx.parsers.json(dumps(e)) == AsPayload(e)
  }

  function DataLines(es: seq<CR.Event>, dumps: CR.Event -> string): (ls: seq<string>)
    ensures |ls| == |es|
    ensures forall i :: 0 <= i < |es| ==> ls[i] == CR.DataLine(es[i], dumps)
  {
    seq(|es|, i requires 0 <= i < |es| => CR.DataLine(es[i], dumps))
  }

  /** The body is the data lines joined by the blank-line separator, with one more separator
      after the last line. */
  lemma {:induction false} BodyIsJoin(es: seq<CR.Event>, dumps: CR.Event -> string)
    ensures Concat(CR.Frames(es, dumps)) == Join(DataLines(es, dumps) + [""], CC.FRAME_SEP)
    decreases |es|
  {
    if es == [] {
      assert DataLines(es, dumps) + [""] == [""];
      assert Concat(CR.Frames(es, dumps)) == "";
    } else {
      var rest := es[1..];
      var line := CR.DataLine(es[0], dumps);
      assert CR.Frames(es, dumps) == [CR.Frame(es[0], dumps)] + CR.Frames(rest, dumps);
      ConcatCons(CR.Frame(es[0], dumps), CR.Frames(rest, dumps));
      BodyIsJoin(rest, dumps);
      assert DataLines(es, dumps) + [""] == [line] + (DataLines(rest, dumps) + [""]);
      JoinCons(line, DataLines(rest, dumps) + [""], CC.FRAME_SEP);
      AppendAssoc(line, CC.FRAME_SEP, Join(DataLines(rest, dumps) + [""], CC.FRAME_SEP));
    }
  }

  /** The client's splitter cuts the whole body into exactly the server's data lines and
      retains nothing; each line is a data frame whose payload is the event's JSON. */
  lemma ClientSplitsBody(es: seq<CR.Event>, dumps: CR.Event -> string)
    requires NoBreaks(dumps)
    ensures var body := Concat(CR.Frames(es, dumps));
      && CC.CompleteFrames(body) == DataLines(es, dumps)
      && CC.Retained(body) == ""
      && forall i :: 0 <= i < |es| ==>
           CC.IsDataFrame(DataLines(es, dumps)[i]) && DataLines(es, dumps)[i][|CC.DATA_PREFIX|..] == dumps(es[i])
  {
    BodyIsJoin(es, dumps);
    var parts := DataLines(es, dumps) + [""];
    forall i | 0 <= i < |parts| ensures CC.FRAME_SEP[0] !in parts[i] {
      if i < |es| {
        assert parts[i] == "data: " + dumps(es[i]);
        assert '\n' !in dumps(es[i]);
      }
    }
    SplitJoin(parts, CC.FRAME_SEP);
    forall i | 0 <= i < |es|
      ensures CC.IsDataFrame(DataLines(es, dumps)[i]) && DataLines(es, dumps)[i][|CC.DATA_PREFIX|..] == dumps(es[i])
    {
      assert DataLines(es, dumps)[i] == CC.DATA_PREFIX + dumps(es[i]);
    }
  }

  /** The non-empty session ids of the start events, in order. */
  function StartIds(es: seq<CR.Event>): seq<string>
    decreases |es|
  {
    if es == [] then []
    else
      var e := es[|es| - 1];
      StartIds(es[..|es| - 1]) + (if e.Start? && e.sessionId != "" then [e.sessionId] else [])
  }

  /** Over a faithful wire the client reads the server's token contents and start session
      ids, in order, from the data lines. */
  lemma {:induction false} ClientReadsEvents(es: seq<CR.Event>, dumps: CR.Event -> string, ctx: CC.TurnContext)
    requires Faithful(dumps, ctx)
    ensures CC.TokenContents(DataLines(es, dumps), ctx) == CR.EmittedTokens(es)
    ensures CC.StartSessions(DataLines(es, dumps), ctx) == StartIds(es)
    decreases |es|
  {
    if es != [] {
      var init := es[..|es| - 1];
      var e := es[|es| - 1];
      assert DataLines(es, dumps)[..|es| - 1] == DataLines(init, dumps);
      ClientReadsEvents(init, dumps, ctx);
      var line := DataLines(es, dumps)[|es| - 1];
      assert line == CC.DATA_PREFIX + dumps(e);
      assert CC.IsDataFrame(line);
      assert line[|CC.DATA_PREFIX|..] == dumps(e);
      assert CC.PayloadOf(line, ctx) == AsPayload(e);
    }
  }

  /** A run whose only start event is the first has that event's session id, if non-empty. */
  lemma {:induction false} StartIdsOfRun(es: seq<CR.Event>)
    requires |es| >= 1 && forall i :: 0 < i < |es| ==> !es[i].Start?
    ensures StartIds(es) == if es[0].Start? && es[0].sessionId != "" then [es[0].sessionId] else []
    decreases |es|
  {
    if |es| > 1 {
      StartIdsOfRun(es[..|es| - 1]);
    } else {
      assert es[..0] == [];
    }
  }

  /** A client that has just added the user message and the empty placeholder, and reads the
      body written for a run that opens with the one start event, shows in the placeholder the
      token contents of the run and binds the server's session id if it had none. */
  lemma ClientReadsRun(es: seq<CR.Event>, dumps: CR.Event -> string, ctx: CC.TurnContext,
                       prev: seq<CC.Message>, user: CC.Message, placeholder: CC.Message,
                       clientSid: Option<string>, clock: int)
    requires Faithful(dumps, ctx)
    requires placeholder.id == ctx.assistantId && placeholder.content == ""
    requires user.id != ctx.assistantId
    requires forall k :: 0 <= k < |prev| ==> prev[k].id != ctx.assistantId
    requires |es| >= 1 && es[0].Start? && forall i :: 0 < i < |es| ==> !es[i].Start?
    ensures var frames := CC.CompleteFrames(Concat(CR.Frames(es, dumps)));
      var r := CC.ApplyFrames(CC.StreamState(prev + [user, placeholder], clientSid, ""), frames, ctx, clock);
      && |r.messages| == |prev| + 2
      && r.messages[..|prev| + 1] == prev + [user]
      && r.messages[|prev| + 1].content == Concat(CR.EmittedTokens(es))
      && r.sessionId == if !Truthy(ctx.sessionAtCall) && es[0].sessionId != "" then Some(es[0].sessionId) else clientSid
  {
    ClientSplitsBody(es, dumps);
    var frames := DataLines(es, dumps);
    ClientReadsEvents(es, dumps, ctx);
    CC.StreamingFillsPlaceholder(prev, user, placeholder, clientSid, frames, ctx, clock);
    StartIdsOfRun(es);
    CC.ApplyFramesSession(CC.StreamState(prev + [user, placeholder], clientSid, ""), frames, ctx, clock);
  }

  /** End to end: a client that has just added the user message and the empty placeholder,
      and reads the whole body a generate_stream run writes, shows in the placeholder exactly
      the text the server streamed, which on success is the text it saved; and a client that
      had no session bound takes the server's session id. */
  lemma ClientShowsWhatServerSaved(sid: string, mid: string, cached: Option<string>, tokens: seq<string>,
                                   streamFault: Option<string>, faults: CR.Faults, now: string,
                                   dumps: CR.Event -> string, ctx: CC.TurnContext,
                                   prev: seq<CC.Message>, user: CC.Message, placeholder: CC.Message,
                                   clientSid: Option<string>, clock: int)
    requires Faithful(dumps, ctx)
    requires placeholder.id == ctx.assistantId && placeholder.content == ""
    requires user.id != ctx.assistantId
    requires forall k :: 0 <= k < |prev| ==> prev[k].id != ctx.assistantId
    ensures var p := CR.StreamPlan(sid, mid, cached, tokens, streamFault, faults, now);
      var frames := CC.CompleteFrames(Concat(CR.Frames(p.events, dumps)));
      var r := CC.ApplyFrames(CC.StreamState(prev + [user, placeholder], clientSid, ""), frames, ctx, clock);
      && |r.messages| == |prev| + 2
      && r.messages[..|prev| + 1] == prev + [user]
      && r.messages[|prev| + 1].content == Concat(CR.EmittedTokens(p.events))
      && (p.saved.Some? ==> r.messages[|prev| + 1].content == p.saved.value.content)
      && r.sessionId == if !Truthy(ctx.sessionAtCall) && sid != "" then Some(sid) else clientSid
  {
    var p := CR.StreamPlan(sid, mid, cached, tokens, streamFault, faults, now);
    var es := p.events;
    assert |es| >= 1 && es[0] == CR.Start(sid, mid) && forall i :: 0 < i < |es| ==> !es[i].Start? by {
      CR.PlanShape(sid, mid, cached, tokens, streamFault, faults, now);
    }
    assert p.saved.Some? ==> p.saved.value.content == Concat(CR.EmittedTokens(es)) by {
      CR.PlanShape(sid, mid, cached, tokens, streamFault, faults, now);
      CR.PlanFailure(sid, mid, cached, tokens, streamFault, faults, now);
      CR.PlanSuccess(sid, mid, cached, tokens, streamFault, faults, now);
    }
    ClientReadsRun(es, dumps, ctx, prev, user, placeholder, clientSid, clock);
  }
}
