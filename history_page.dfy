/** The pure parts of the history page (frontend/app/history/page.tsx): turning a stored
    session into a client transcript for loadSession, the search filter over the session
    list, and the two title expressions. */
module HistoryPage {
  import opened Text
  import CC = ChatContext

  /** A message of a session as the history endpoint returns it. */
  datatype HistoryMessage = HistoryMessage(role: CC.Role, content: string, timestamp: string)

  /** A session as the history endpoint returns it, through the fields the page reads. */
  datatype HistorySession = HistorySession(sessionId: string, messages: seq<HistoryMessage>)

  const LIST_TITLE_LENGTH := 50
  const HEADER_TITLE_LENGTH := 100
  const ELLIPSIS := "..."
  const UNTITLED := "New Conversation"
  const HEADER_FALLBACK := "Conversation"

  // ---------------------------------------------------------------- restoreSession

  /** The id restoreSession gives the message at `index`. */
  function RestoredId(sessionId: string, index: nat): string {
    "restored-" + sessionId + "-" + NatToString(index)
  }

  /** restoreSession's map over the messages; `date` is `new Date(text)`, and a Date object
      is never falsy, so every restored timestamp is present. */
  function Restored(s: HistorySession, date: string -> CC.Instant): (ms: seq<CC.Message>)
    ensures |ms| == |s.messages|
    ensures forall i :: 0 <= i < |ms| ==>
      && ms[i].role == s.messages[i].role
      && ms[i].content == s.messages[i].content
      && ms[i].timestamp == Some(date(s.messages[i].timestamp))
      && ms[i].id == RestoredId(s.sessionId, i)
  {
    seq(|s.messages|, i requires 0 <= i < |s.messages| =>
      CC.Message(RestoredId(s.sessionId, i), s.messages[i].role, s.messages[i].content,
                 Some(date(s.messages[i].timestamp))))
  }

  /** Two ids of one restore are equal only for the same index. */
  lemma RestoredIdInjective(sessionId: string, i: nat, j: nat)
    requires RestoredId(sessionId, i) == RestoredId(sessionId, j)
    ensures i == j
  {
    var p := "restored-" + sessionId + "-";
    assert RestoredId(sessionId, i)[|p|..] == NatToString(i);
    assert RestoredId(sessionId, j)[|p|..] == NatToString(j);
    NatToStringInjective(i, j);
  }

  /** The restored transcript has pairwise distinct ids, so the client's id-based updates
      touch one message each. */
  lemma RestoredIdsDistinct(s: HistorySession, date: string -> CC.Instant)
    ensures var ms := Restored(s, date);
      forall i, j :: 0 <= i < |ms| && 0 <= j < |ms| && i != j ==> ms[i].id != ms[j].id
  {
    var ms := Restored(s, date);
    forall i, j | 0 <= i < |ms| && 0 <= j < |ms| && ms[i].id == ms[j].id ensures i == j {
      RestoredIdInjective(s.sessionId, i, j);
    }
  }

  /** Restored ids all start with "restored-", which the ids sendMessage draws from the clock
      never do. */
  lemma RestoredIdsTagged(s: HistorySession, date: string -> CC.Instant)
    ensures var ms := Restored(s, date);
      forall i :: 0 <= i < |ms| ==> StartsWith(ms[i].id, "restored-")
  {
    var ms := Restored(s, date);
    forall i | 0 <= i < |ms| ensures StartsWith(ms[i].id, "restored-") {
      assert ms[i].id[..|"restored-"|] == "restored-";
    }
  }

  /** restoreSession: loads the converted transcript under the session's id (the navigation
      to the chat page is not modelled). */
  method RestoreSession(engine: CC.ChatEngine, s: HistorySession, date: string -> CC.Instant)
    modifies engine
    ensures engine.sessionId == Some(s.sessionId)
    ensures engine.messages == Restored(s, date)
    ensures engine.isLoading == old(engine.isLoading) && engine.abortRef == old(engine.abortRef)
  {
    engine.LoadSession(s.sessionId, Restored(s, date));
  }

  // ---------------------------------------------------------------- find / search

  /** `messages.find(msg => msg.role === 'user')`: the index of the first user message. */
  function FirstUser(ms: seq<HistoryMessage>): (r: Option<nat>)
    ensures r.Some? ==> r.value < |ms| && ms[r.value].role == CC.User
    ensures r.Some? ==> forall k :: 0 <= k < r.value ==> ms[k].role != CC.User
    ensures r.None? <==> forall k :: 0 <= k < |ms| ==> ms[k].role != CC.User
    decreases |ms|
  {
    if ms == [] then None
    else if ms[0].role == CC.User then Some(0)
    else match FirstUser(ms[1..])
      case None => None
      case Some(k) => Some(k + 1)
  }

  /** `firstUserMessage?.content.toLowerCase() || ''`. */
  function SearchTitle(s: HistorySession): string {
    match FirstUser(s.messages)
    case None => ""
    case Some(k) => Lower(s.messages[k].content)
  }

  /** The filter callback. */
  predicate Matches(s: HistorySession, query: string) {
    query == "" || Contains(SearchTitle(s), Lower(query))
  }

  /** filteredSessions. */
  function Filtered(ss: seq<HistorySession>, query: string): (r: seq<HistorySession>)
    ensures |r| <= |ss|
    ensures forall s :: s in r ==> s in ss && Matches(s, query)
    decreases |ss|
  {
    if ss == [] then []
    else (if Matches(ss[0], query) then [ss[0]] else []) + Filtered(ss[1..], query)
  }

  /** The filter keeps order: filtering a concatenation filters each part. */
  lemma {:induction false} FilteredAppend(a: seq<HistorySession>, b: seq<HistorySession>, query: string)
    ensures Filtered(a + b, query) == Filtered(a, query) + Filtered(b, query)
    decreases |a|
  {
    if a != [] {
      var head := if Matches(a[0], query) then [a[0]] else [];
      assert (a + b)[0] == a[0] && (a + b)[1..] == a[1..] + b;
      FilteredAppend(a[1..], b, query);
      assert Filtered(a + b, query) == head + (Filtered(a[1..], query) + Filtered(b, query));
      assert head + (Filtered(a[1..], query) + Filtered(b, query)) == (head + Filtered(a[1..], query)) + Filtered(b, query);
    } else {
      assert a + b == b;
    }
  }

  /** Every session that matches is kept, and only those. */
  lemma {:induction false} FilteredMembers(ss: seq<HistorySession>, query: string, s: HistorySession)
    ensures s in Filtered(ss, query) <==> s in ss && Matches(s, query)
    decreases |ss|
  {
    if ss != [] {
      FilteredMembers(ss[1..], query, s);
      assert ss == [ss[0]] + ss[1..];
    }
  }

  /** An empty query keeps the whole list. */
  lemma {:induction false} EmptyQueryKeepsAll(ss: seq<HistorySession>)
    ensures Filtered(ss, "") == ss
    decreases |ss|
  {
    if ss != [] {
      EmptyQueryKeepsAll(ss[1..]);
    }
  }

  /** With a non-empty query a session stays exactly when it has a user message and the
      lower-cased first one holds the lower-cased query somewhere. */
  lemma MatchesSpec(s: HistorySession, query: string)
    requires query != ""
    ensures Matches(s, query) <==>
      FirstUser(s.messages).Some? &&
      exists i :: OccursAt(Lower(s.messages[FirstUser(s.messages).value].content), Lower(query), i)
  {
    ContainsMeansOccurs(SearchTitle(s), Lower(query));
    if FirstUser(s.messages).None? {
      assert SearchTitle(s) == "";
      forall i ensures !OccursAt("", Lower(query), i) {}
    }
  }

  lemma LowerIdempotent(s: string)
    ensures Lower(Lower(s)) == Lower(s)
  {
  }

  /** The search does not care about the query's case. */
  lemma SearchIgnoresCase(ss: seq<HistorySession>, query: string)
    ensures Filtered(ss, Lower(query)) == Filtered(ss, query)
  {
    LowerIdempotent(query);
    forall s ensures Matches(s, Lower(query)) == Matches(s, query) {
      assert Lower(query) == "" <==> query == "";
    }
    FilterSameMatches(ss, Lower(query), query);
  }

  lemma {:induction false} FilterSameMatches(ss: seq<HistorySession>, q1: string, q2: string)
    requires forall s :: Matches(s, q1) == Matches(s, q2)
    ensures Filtered(ss, q1) == Filtered(ss, q2)
    decreases |ss|
  {
    if ss != [] {
      FilterSameMatches(ss[1..], q1, q2);
    }
  }

  // ---------------------------------------------------------------- titles

  /** The title of a session in the list. */
  function ListTitle(s: HistorySession): string {
    match FirstUser(s.messages)
    case None => UNTITLED
    case Some(k) =>
      var c := s.messages[k].content;
      Take(c, LIST_TITLE_LENGTH) + (if |c| > LIST_TITLE_LENGTH then ELLIPSIS else "")
  }

  /** A session without a user message is "New Conversation"; otherwise the title is the first
      user message when it fits in 50 characters, and its first 50 followed by "..." when it
      is longer. */
  lemma ListTitleSpec(s: HistorySession)
    ensures FirstUser(s.messages).None? ==> ListTitle(s) == "New Conversation"
    ensures FirstUser(s.messages).Some? ==>
      var c := s.messages[FirstUser(s.messages).value].content;
      && (|c| <= 50 ==> ListTitle(s) == c)
      && (|c| > 50 ==> |ListTitle(s)| == 53 && ListTitle(s)[..50] == c[..50] && ListTitle(s)[50..] == "...")
  {
  }

  /** The list title never runs past 53 characters. */
  lemma ListTitleBounded(s: HistorySession)
    ensures |ListTitle(s)| <= 53
  {
  }

  /** The heading of the selected session. The `||` also falls back when the first user
      message is empty. */
  function HeaderTitle(s: HistorySession): string {
    match FirstUser(s.messages)
    case None => HEADER_FALLBACK
    case Some(k) =>
      var t := Take(s.messages[k].content, HEADER_TITLE_LENGTH);
      if t == "" then HEADER_FALLBACK else t
  }

  /** The heading is "Conversation" when there is no user message or the first one is empty;
      otherwise it is the first 100 characters of that message. */
  lemma HeaderTitleSpec(s: HistorySession)
    ensures FirstUser(s.messages).None? || s.messages[FirstUser(s.messages).value].content == "" ==>
      HeaderTitle(s) == "Conversation"
    ensures FirstUser(s.messages).Some? && s.messages[FirstUser(s.messages).value].content != "" ==>
      var c := s.messages[FirstUser(s.messages).value].content;
      HeaderTitle(s) == c[..if |c| <= 100 then |c| else 100]
  {
  }

  /** The list title and the heading show the same text for a user message of at most 50
      characters. */
  lemma TitlesAgreeOnShortMessages(s: HistorySession)
    requires FirstUser(s.messages).Some?
    requires 0 < |s.messages[FirstUser(s.messages).value].content| <= 50
    ensures ListTitle(s) == HeaderTitle(s) == s.messages[FirstUser(s.messages).value].content
  {
  }
}
