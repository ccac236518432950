/** `MemoryManager` and `ConversationMemory`: an append-only list of entries
    trimmed to its newest `max_memory_size`, with suffix queries, a
    case-insensitive substring search, and a session of conversation turns
    rendered back as text.

    Each `datetime.now().isoformat()` read is a parameter: the model never looks
    inside a timestamp, and two reads of the clock are two parameters. Metadata values are strings.
 */
module Memory {
  import opened Wrappers
  import opened PySeq
  import opened Text

  /** The bound `ConversationMemory` passes to its base class. */
  const ConversationMaxSize: int := 50

  /** One memory entry: `{'timestamp', 'content', 'metadata'}`. */
  datatype Entry = Entry(timestamp: string, content: string, metadata: map<string, string>)

  /** A `MemoryManager`: its bound and its entries, oldest first. */
  datatype Manager = Manager(maxSize: int, memory: seq<Entry>)

  function NewManager(maxSize: int): (m: Manager)
    ensures m.maxSize == maxSize && m.memory == []
  {
    Manager(maxSize, [])
  }

  /** The store never holds more than its bound (meaningful for a positive bound). */
  predicate Bounded(m: Manager)
  {
    m.maxSize >= 1 ==> |m.memory| <= m.maxSize
  }

  /** `add_memory(content, metadata)`: append the entry (`metadata or {}`), then,
      if the list is longer than the bound, keep `memory[-max_memory_size:]`.
      For a positive bound that is the newest `max` entries; a zero bound keeps
      everything because `-0 == 0`; a negative bound drops the oldest `-max`. */
  function AddMemory(m: Manager, content: string, metadata: Option<map<string, string>>, now: string)
    : (r: Manager)
    ensures r.maxSize == m.maxSize
    ensures |r.memory| <= |m.memory| + 1
    ensures var all := m.memory + [Entry(now, content, metadata.GetOr(map[]))];
            && r.memory == all[|all| - |r.memory|..]
            && (m.maxSize >= 1 ==> |r.memory| == Min(m.maxSize, |all|))
            && (m.maxSize == 0 ==> r.memory == all)
            && (m.maxSize < 0 ==> |r.memory| == |all| - Min(-m.maxSize, |all|))
    ensures m.maxSize >= 0 ==> r.memory[|r.memory| - 1] == Entry(now, content, metadata.GetOr(map[]))
    ensures Bounded(r)
  {
    var all := m.memory + [Entry(now, content, metadata.GetOr(map[]))];
    if |all| > m.maxSize then Manager(m.maxSize, Tail(all, -m.maxSize))
    else Manager(m.maxSize, all)
  }

  /** Below the bound nothing is dropped; at the bound the oldest entry goes. */
  lemma AddMemoryShift(m: Manager, content: string, now: string)
    requires m.maxSize >= 1 && Bounded(m)
    ensures var r := AddMemory(m, content, None, now);
            && (|m.memory| < m.maxSize ==> r.memory == m.memory + [Entry(now, content, map[])])
            && (|m.memory| == m.maxSize ==> r.memory == m.memory[1..] + [Entry(now, content, map[])])
  {
    var e := Entry(now, content, map[]);
    var r := AddMemory(m, content, None, now);
    if |m.memory| == m.maxSize {
      assert r.memory == (m.memory + [e])[1..];
      assert (m.memory + [e])[1..] == m.memory[1..] + [e];
    }
  }

  /** `get_recent_memories(count)`, i.e. `memory[-count:]`: the newest `count`
      entries for a positive count, all of them for zero, and all but the oldest
      `-count` for a negative count. */
  function GetRecentMemories(m: Manager, count: int): (r: seq<Entry>)
    ensures |r| <= |m.memory|
    ensures r == m.memory[|m.memory| - |r|..]
    ensures count >= 1 ==> |r| == Min(count, |m.memory|)
    ensures count == 0 ==> r == m.memory
    ensures count < 0 ==> |r| == |m.memory| - Min(-count, |m.memory|)
  {
    Tail(m.memory, -count)
  }

  /** The entry just added is the most recent memory. The bound must not be
      negative: `memory[-max:]` with a negative bound can drop the new entry too. */
  lemma RecentAfterAdd(m: Manager, content: string, now: string)
    requires m.maxSize >= 0
    ensures GetRecentMemories(AddMemory(m, content, None, now), 1) == [Entry(now, content, map[])]
  {
    var r := AddMemory(m, content, None, now);
    var recent := GetRecentMemories(r, 1);
    assert |recent| == 1;
    assert recent[0] == r.memory[|r.memory| - 1];
  }

  /** `query.lower() in memory['content'].lower()`. */
  predicate Matches(e: Entry, query: string)
  {
    Contains(Lower(e.content), Lower(query))
  }

  /** Matching ignores case on both sides: lowercasing the query or the
      content first finds the same entries. */
  lemma MatchesIgnoresCase(e: Entry, query: string)
    ensures Matches(e, query) <==> Matches(e, Lower(query))
    ensures Matches(e, query) <==> Matches(e.(content := Lower(e.content)), query)
  {
    LowerNormalizes(query);
    LowerNormalizes(e.content);
  }

  /** Searching for a query or for its lowercase form gives the same results. */
  lemma {:induction false} SearchIgnoresQueryCase(es: seq<Entry>, query: string)
    ensures Filter(es, query) == Filter(es, Lower(query))
    decreases |es|
  {
    if |es| > 0 {
      MatchesIgnoresCase(es[0], query);
      SearchIgnoresQueryCase(es[1..], query);
    }
  }

  /** The entries of `es` matching `query`, in their order. */
  function Filter(es: seq<Entry>, query: string): (r: seq<Entry>)
    ensures |r| <= |es|
    ensures forall k :: 0 <= k < |r| ==> r[k] in es && Matches(r[k], query)
    ensures forall j :: 0 <= j < |es| && Matches(es[j], query) ==> es[j] in r
  {
    if |es| == 0 then []
    else (if Matches(es[0], query) then [es[0]] else []) + Filter(es[1..], query)
  }

  lemma {:induction false} FilterAppend(a: seq<Entry>, b: seq<Entry>, query: string)
    ensures Filter(a + b, query) == Filter(a, query) + Filter(b, query)
    decreases |a|
  {
    if |a| == 0 {
      assert a + b == b;
    } else {
      assert (a + b)[1..] == a[1..] + b;
      FilterAppend(a[1..], b, query);
    }
  }

  /** `search_memories(query)`: the loop over `self.memory`, appending every
      entry whose lowercased content contains the lowercased query. */
  method SearchMemories(m: Manager, query: string) returns (results: seq<Entry>)
    ensures results == Filter(m.memory, query)
    ensures forall k :: 0 <= k < |results| ==> results[k] in m.memory && Matches(results[k], query)
    ensures forall j :: 0 <= j < |m.memory| && Matches(m.memory[j], query) ==> m.memory[j] in results
  {
    results := [];
    var i := 0;
    while i < |m.memory|
      invariant 0 <= i <= |m.memory|
      invariant results == Filter(m.memory[..i], query)
    {
      var e := m.memory[i];
      assert m.memory[..i + 1] == m.memory[..i] + [e];
      FilterAppend(m.memory[..i], [e], query);
      if Contains(Lower(e.content), Lower(query)) {
        results := results + [e];
      }
      i := i + 1;
    }
    assert m.memory[..i] == m.memory;
  }

  /** The search keeps exactly the matching entries: a matching entry is kept,
      a non-matching one dropped, and the order of the kept ones is preserved. */
  lemma {:induction false} FilterSpec(es: seq<Entry>, query: string, j: nat)
    requires j < |es|
    ensures Filter(es, query) == Filter(es[..j], query)
                                 + (if Matches(es[j], query) then [es[j]] else [])
                                 + Filter(es[j + 1..], query)
  {
    var front, back := es[..j], es[j + 1..];
    assert es == front + ([es[j]] + back);
    FilterAppend(front, [es[j]] + back, query);
    FilterAppend([es[j]], back, query);
    FilterOne(es[j], query);
  }

  lemma FilterOne(e: Entry, query: string)
    ensures Filter([e], query) == if Matches(e, query) then [e] else []
  {
    assert [e][1..] == [];
  }

  /** An empty query matches every entry, so the search returns the whole list. */
  lemma {:induction false} EmptyQueryKeepsAll(es: seq<Entry>)
    ensures Filter(es, "") == es
    decreases |es|
  {
    if |es| > 0 {
      ContainsEmpty(Lower(es[0].content));
      assert Lower("") == "";
      EmptyQueryKeepsAll(es[1..]);
    }
  }

  /** Searching the results of a search again changes nothing. */
  lemma {:induction false} FilterIdempotent(es: seq<Entry>, query: string)
    ensures Filter(Filter(es, query), query) == Filter(es, query)
    decreases |es|
  {
    if |es| > 0 {
      var head := if Matches(es[0], query) then [es[0]] else [];
      FilterAppend(head, Filter(es[1..], query), query);
      FilterIdempotent(es[1..], query);
      assert Filter(head, query) == head by {
        if head != [] {
          assert Filter(head, query) == [es[0]] + Filter([], query);
        }
      }
    }
  }

  /** `clear_memory()`: no entries, same bound. */
  function ClearMemory(m: Manager): (r: Manager)
    ensures r.maxSize == m.maxSize && r.memory == []
    ensures Bounded(r)
  {
    m.(memory := [])
  }

  /** After a clear, no query finds anything and nothing is recent. */
  lemma ClearForgets(m: Manager, query: string, count: int)
    ensures Filter(ClearMemory(m).memory, query) == []
    ensures GetRecentMemories(ClearMemory(m), count) == []
  {
  }

  // ----- ConversationMemory -------------------------------------------------

  /** One turn of `current_session`. */
  datatype Turn = Turn(user: string, agent: string, timestamp: string)

  /** A `ConversationMemory`: its bounded store and its unbounded session. */
  datatype Conversation = Conversation(store: Manager, session: seq<Turn>)

  /** `ConversationMemory()`: a store bounded at 50 and an empty session. */
  function NewConversation(): (c: Conversation)
    ensures c.store.maxSize == ConversationMaxSize && c.store.memory == [] && c.session == []
  {
    Conversation(NewManager(ConversationMaxSize), [])
  }

  /** The memory text `f"User: {user_input}\nAgent: {agent_response}"`. */
  function TurnText(user: string, agent: string): string
  {
    "User: " + user + "\nAgent: " + agent
  }

  /** `add_conversation_turn(user_input, agent_response)`: the turn is appended
      to the session, and its text is added to the bounded store. The clock is
      read twice: `turnTime` for the turn, then `entryTime` inside `add_memory`. */
  function AddConversationTurn(c: Conversation, user: string, agent: string,
                               turnTime: string, entryTime: string): (r: Conversation)
    ensures |r.session| == |c.session| + 1
    ensures r.session[..|c.session|] == c.session
    ensures r.session[|c.session|] == Turn(user, agent, turnTime)
    ensures r.store == AddMemory(c.store, TurnText(user, agent), None, entryTime)
  {
    Conversation(AddMemory(c.store, TurnText(user, agent), None, entryTime),
                 c.session + [Turn(user, agent, turnTime)])
  }

  /** A conversation's store stays within 50 entries however many turns are added. */
  predicate ConversationValid(c: Conversation)
  {
    c.store.maxSize == ConversationMaxSize && |c.store.memory| <= ConversationMaxSize
  }

  lemma TurnKeepsBound(c: Conversation, user: string, agent: string, turnTime: string, entryTime: string)
    requires ConversationValid(c)
    ensures ConversationValid(AddConversationTurn(c, user, agent, turnTime, entryTime))
  {
  }

  /** The lines `"User: …"`, `"Agent: …"` of the turns, in order. */
  function ContextLines(turns: seq<Turn>): (lines: seq<string>)
    ensures |lines| == 2 * |turns|
    ensures forall k :: 0 <= k < |turns| ==>
              lines[2 * k] == "User: " + turns[k].user && lines[2 * k + 1] == "Agent: " + turns[k].agent
  {
    if |turns| == 0 then []
    else
      var rest := ContextLines(turns[1..]);
      ContextLinesCons(turns, rest);
      ["User: " + turns[0].user, "Agent: " + turns[0].agent] + rest
  }

  lemma ContextLinesCons(turns: seq<Turn>, rest: seq<string>)
    requires |turns| > 0 && |rest| == 2 * (|turns| - 1)
    requires forall k :: 0 <= k < |turns| - 1 ==>
               rest[2 * k] == "User: " + turns[k + 1].user && rest[2 * k + 1] == "Agent: " + turns[k + 1].agent
    ensures var lines := ["User: " + turns[0].user, "Agent: " + turns[0].agent] + rest;
            forall k :: 0 <= k < |turns| ==>
              lines[2 * k] == "User: " + turns[k].user && lines[2 * k + 1] == "Agent: " + turns[k].agent
  {
    var lines := ["User: " + turns[0].user, "Agent: " + turns[0].agent] + rest;
    forall k | 1 <= k < |turns|
      ensures lines[2 * k] == "User: " + turns[k].user && lines[2 * k + 1] == "Agent: " + turns[k].agent
    {
      var m := k - 1;
      assert 2 * k == 2 * m + 2;
      assert lines[2 * m + 2] == rest[2 * m] && lines[2 * m + 3] == rest[2 * m + 1];
    }
  }

  /** `get_conversation_context(turns_back)`: the last `turns_back` turns
      (`session[-turns_back:]`, so all of them for zero) as alternating user and
      agent lines joined by newlines. */
  function GetConversationContext(c: Conversation, turnsBack: int): (r: string)
    ensures c.session == [] ==> r == ""
    ensures turnsBack >= 1 ==>
              r == Join("\n", ContextLines(c.session[|c.session| - Min(turnsBack, |c.session|)..]))
    ensures turnsBack == 0 ==> r == Join("\n", ContextLines(c.session))
    ensures turnsBack < 0 ==> r == Join("\n", ContextLines(c.session[Min(-turnsBack, |c.session|)..]))
  {
    Join("\n", ContextLines(Tail(c.session, -turnsBack)))
  }

  /** The last turn's context is exactly the text the turn stored in memory. */
  lemma ContextOfNewTurn(c: Conversation, user: string, agent: string, turnTime: string, entryTime: string)
    ensures GetConversationContext(AddConversationTurn(c, user, agent, turnTime, entryTime), 1)
            == TurnText(user, agent)
    ensures c.store.maxSize >= 0 ==>
              var r := AddConversationTurn(c, user, agent, turnTime, entryTime);
              r.store.memory[|r.store.memory| - 1].content == GetConversationContext(r, 1)
  {
    var r := AddConversationTurn(c, user, agent, turnTime, entryTime);
    assert r.session[|r.session| - 1] == Turn(user, agent, turnTime);
    LastTurnContext(r);
  }

  /** A one-turn context is the text of the latest turn. */
  lemma LastTurnContext(c: Conversation)
    requires |c.session| > 0
    ensures var t := c.session[|c.session| - 1];
            GetConversationContext(c, 1) == TurnText(t.user, t.agent)
  {
    var t := c.session[|c.session| - 1];
    var recent := Tail(c.session, -1);
    assert recent == [t];
    var lines := ContextLines(recent);
    assert lines == ["User: " + t.user, "Agent: " + t.agent];
    assert Join("\n", lines) == lines[0] + "\n" + Join("\n", lines[1..]);
  }

  /** The context window: with at least `k` turns (`k >= 1`), older turns do not
      affect the context. */
  lemma ContextIgnoresOlder(c: Conversation, older: seq<Turn>, k: int)
    requires k >= 1 && |c.session| >= k
    ensures GetConversationContext(c.(session := older + c.session), k) == GetConversationContext(c, k)
  {
    var s := older + c.session;
    assert Tail(s, -k) == s[|s| - k..];
    assert s[|s| - k..] == c.session[|c.session| - k..];
  }
}
