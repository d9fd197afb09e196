/**
 * The in-memory session store: a process-wide dictionary from session id to
 * the ordered list of messages of that conversation, and the read, clear and
 * list operations exposed over it.
 */
module Sessions {
  import opened Text

  /** How many recent messages feed a prompt; twice this many triggers a trim. */
  const MaxHistoryMessages := 20

  datatype Message = Message(role: string, content: string, timestamp: string)

  /** `messages[-20:]`: the most recent 20 messages (all of them when there are fewer), in stored order. */
  function Window(messages: seq<Message>): (w: seq<Message>)
    ensures |w| == if |messages| < MaxHistoryMessages then |messages| else MaxHistoryMessages
    ensures w == messages[|messages| - |w|..]
  {
    if |messages| <= MaxHistoryMessages then messages
    else messages[|messages| - MaxHistoryMessages..]
  }

  /** The trim rule: a history longer than 40 messages is replaced by its last 20. */
  function Trimmed(messages: seq<Message>): (t: seq<Message>)
    ensures |messages| <= 2 * MaxHistoryMessages ==> t == messages
    ensures |messages| > 2 * MaxHistoryMessages ==>
              |t| == MaxHistoryMessages && t == messages[|messages| - MaxHistoryMessages..]
    ensures |t| <= 2 * MaxHistoryMessages
  {
    if |messages| > 2 * MaxHistoryMessages then Window(messages) else messages
  }

  datatype HistoryReport = HistoryReport(sessionId: string, messageCount: nat, messages: seq<Message>, maxHistory: nat)

  datatype ClearReport = ClearReport(success: bool, message: string, sessionId: string)

  datatype SessionSummary = SessionSummary(sessionId: string, messageCount: nat, lastMessageTime: string, firstMessageTime: string)

  datatype SessionsReport = SessionsReport(totalSessions: nat, sessions: seq<SessionSummary>)

  ghost predicate Distinct(keys: seq<string>) {
    forall i, j :: 0 <= i < j < |keys| ==> keys[i] != keys[j]
  }

  /** The key order after `del`: the same keys, in the same order, without `id`. */
  function Without(keys: seq<string>, id: string): (r: seq<string>)
    ensures forall k :: k in r <==> k in keys && k != id
    ensures Distinct(keys) ==> Distinct(r)
    ensures id !in keys ==> r == keys
  {
    if keys == [] then []
    else
      var rest := Without(keys[1..], id);
      assert Distinct(keys) ==> Distinct(keys[1..]) && keys[0] !in keys[1..] by {
        if Distinct(keys) {
          forall j | 0 <= j < |keys[1..]| ensures keys[1..][j] != keys[0] {
            assert keys[1..][j] == keys[j + 1];
          }
        }
      }
      (if keys[0] == id then [] else [keys[0]]) + rest
  }

  /**
   * Deleting a key that occurs (once) at position `i`: the keys before it,
   * then the keys after it, each run in its old order.
   */
  lemma {:induction false} WithoutAt(keys: seq<string>, id: string, i: nat)
    requires Distinct(keys) && i < |keys| && keys[i] == id
    ensures Without(keys, id) == keys[..i] + keys[i + 1..]
  {
    var tail := keys[1..];
    if i == 0 {
      assert id !in tail by {
        forall j | 0 <= j < |tail| ensures tail[j] != id {
          assert tail[j] == keys[j + 1];
        }
      }
    } else {
      assert Distinct(tail) by {
        forall p, q | 0 <= p < q < |tail| ensures tail[p] != tail[q] {
          assert tail[p] == keys[p + 1] && tail[q] == keys[q + 1];
        }
      }
      assert keys[0] != id;
      WithoutAt(tail, id, i - 1);
      assert [keys[0]] + tail[..i - 1] == keys[..i];
      assert tail[i..] == keys[i + 1..];
    }
  }

  function Summary(id: string, messages: seq<Message>): SessionSummary
    requires messages != []
  {
    SessionSummary(id, |messages|, messages[|messages| - 1].timestamp, messages[0].timestamp)
  }

  /** The entries `list_sessions` reports: the keys in order, skipping empty sessions. */
  function Summaries(keys: seq<string>, sessions: map<string, seq<Message>>): seq<SessionSummary> {
    if keys == [] then []
    else
      var id := keys[|keys| - 1];
      Summaries(keys[..|keys| - 1], sessions)
        + (if id in sessions && sessions[id] != [] then [Summary(id, sessions[id])] else [])
  }

  /** Every listed entry is a non-empty session, with its true count and first and last timestamps. */
  lemma {:induction false} SummariesSound(keys: seq<string>, sessions: map<string, seq<Message>>)
    ensures |Summaries(keys, sessions)| <= |keys|
    ensures forall i :: 0 <= i < |Summaries(keys, sessions)| ==>
              var e := Summaries(keys, sessions)[i];
              e.sessionId in keys && e.sessionId in sessions && sessions[e.sessionId] != []
              && e == Summary(e.sessionId, sessions[e.sessionId])
  {
    if keys != [] {
      var init := keys[..|keys| - 1];
      SummariesSound(init, sessions);
      forall k | k in init ensures k in keys {
        var j :| 0 <= j < |init| && init[j] == k;
        assert keys[j] == k;
      }
    }
  }

  /** Every non-empty session among the keys is listed. */
  lemma {:induction false} SummariesComplete(keys: seq<string>, sessions: map<string, seq<Message>>, id: string)
    requires id in keys && id in sessions && sessions[id] != []
    ensures exists i :: 0 <= i < |Summaries(keys, sessions)| && Summaries(keys, sessions)[i].sessionId == id
  {
    var init := keys[..|keys| - 1];
    var s := Summaries(keys, sessions);
    if keys[|keys| - 1] == id {
      assert s[|s| - 1].sessionId == id;
    } else {
      var j :| 0 <= j < |keys| && keys[j] == id;
      assert init[j] == id;
      SummariesComplete(init, sessions, id);
      var i :| 0 <= i < |Summaries(init, sessions)| && Summaries(init, sessions)[i].sessionId == id;
      assert s[i] == Summaries(init, sessions)[i];
    }
  }

  /** With distinct keys, no session is listed twice. */
  lemma {:induction false} SummariesOnce(keys: seq<string>, sessions: map<string, seq<Message>>)
    requires Distinct(keys)
    ensures forall i, j :: 0 <= i < j < |Summaries(keys, sessions)| ==>
              Summaries(keys, sessions)[i].sessionId != Summaries(keys, sessions)[j].sessionId
  {
    if keys != [] {
      var init := keys[..|keys| - 1];
      var last := keys[|keys| - 1];
      SummariesOnce(init, sessions);
      SummariesSound(init, sessions);
      assert last !in init;
    }
  }

  /**
   * The session list holds exactly the non-empty sessions of a store, each
   * once: a session created empty by a failed turn is never reported.
   */
  lemma ListingIsExact(order: seq<string>, sessions: map<string, seq<Message>>, id: string)
    requires forall k :: k in sessions <==> k in order
    requires Distinct(order)
    ensures (exists i :: 0 <= i < |Summaries(order, sessions)| && Summaries(order, sessions)[i].sessionId == id)
            <==> id in sessions && sessions[id] != []
    ensures forall i, j :: 0 <= i < j < |Summaries(order, sessions)| ==>
              Summaries(order, sessions)[i].sessionId != Summaries(order, sessions)[j].sessionId
  {
    SummariesSound(order, sessions);
    SummariesOnce(order, sessions);
    if id in sessions && sessions[id] != [] {
      SummariesComplete(order, sessions, id);
    }
  }

  /**
   * `chat_sessions`. `order` lists the keys in insertion order, the order in
   * which a Python dict iterates them: a new key goes to the end, a deleted
   * key leaves, and reassigning an existing key keeps its place.
   */
  class SessionStore {
    var sessions: map<string, seq<Message>>
    var order: seq<string>

    ghost predicate Valid()
      reads this
    {
      (forall id :: id in sessions <==> id in order) && Distinct(order)
    }

    /** `chat_sessions.get(id, [])`. */
    function History(id: string): seq<Message>
      reads this
    {
      if id in sessions then sessions[id] else []
    }

    constructor ()
      ensures Valid() && sessions == map[] && order == []
    {
      sessions := map[];
      order := [];
    }

    /** `chat_sessions[id]` through the defaultdict: a missing session is created, empty, at the end. */
    method Touch(id: string)
      requires Valid()
      modifies this
      ensures Valid()
      ensures sessions == if id in old(sessions) then old(sessions) else old(sessions)[id := []]
      ensures order == if id in old(sessions) then old(order) else old(order) + [id]
    {
      if id !in sessions {
        sessions := sessions[id := []];
        order := order + [id];
      }
    }

    /** `chat_sessions[id].append(m)`: the message goes last; a missing session is created first. */
    method Append(id: string, m: Message)
      requires Valid()
      modifies this
      ensures Valid()
      ensures sessions == old(sessions)[id := old(History(id)) + [m]]
      ensures order == if id in old(sessions) then old(order) else old(order) + [id]
    {
      Touch(id);
      sessions := sessions[id := sessions[id] + [m]];
    }

    /** The end-of-turn clean-up: more than 40 messages are replaced by the last 20. */
    method Trim(id: string)
      requires Valid()
      modifies this
      ensures Valid()
      ensures sessions == old(sessions)[id := Trimmed(old(History(id)))]
      ensures order == if id in old(sessions) then old(order) else old(order) + [id]
    {
      Touch(id);
      if |sessions[id]| > 2 * MaxHistoryMessages {
        sessions := sessions[id := sessions[id][|sessions[id]| - MaxHistoryMessages..]];
      }
    }

    /** `get_chat_history`: reads the session without creating it. */
    method GetHistory(id: string) returns (rep: HistoryReport)
      ensures rep.sessionId == id && rep.maxHistory == MaxHistoryMessages
      ensures rep.messages == History(id) && rep.messageCount == |History(id)|
      ensures id !in sessions ==> rep.messages == [] && rep.messageCount == 0
    {
      var history := if id in sessions then sessions[id] else [];
      rep := HistoryReport(id, |history|, history, MaxHistoryMessages);
    }

    /** `clear_chat_history`: deletes the session and always reports success. */
    method Clear(id: string) returns (rep: ClearReport)
      requires Valid()
      modifies this
      ensures Valid()
      ensures sessions == old(sessions) - {id}
      ensures order == Without(old(order), id)
      ensures rep.success && rep.sessionId == id
      ensures rep.message == if id in old(sessions)
                             then "Cleared " + NatToString(|old(sessions)[id]|) + " messages from session " + id
                             else "Session not found or already empty"
    {
      if id in sessions {
        var count := |sessions[id]|;
        sessions := sessions - {id};
        order := Without(order, id);
        rep := ClearReport(true, "Cleared " + NatToString(count) + " messages from session " + id, id);
      } else {
        rep := ClearReport(true, "Session not found or already empty", id);
      }
    }

    /** `list_sessions`: one summary per non-empty session, in key order. */
    method ListSessions() returns (rep: SessionsReport)
      requires Valid()
      ensures rep.sessions == Summaries(order, sessions)
      ensures rep.totalSessions == |rep.sessions|
    {
      var listed: seq<SessionSummary> := [];
      var i := 0;
      while i < |order|
        invariant 0 <= i <= |order|
        invariant listed == Summaries(order[..i], sessions)
      {
        var id := order[i];
        var messages := sessions[id];
        if messages != [] {
          listed := listed + [Summary(id, messages)];
        }
        assert order[..i + 1][..i] == order[..i];
        i := i + 1;
      }
      assert order[..|order|] == order;
      rep := SessionsReport(|listed|, listed);
    }
  }
}
