/**
 The bounded buffers of crates/quic against the full history: the terminal ledger is the 32 most
 recently closed distinct sessions, the event buffer the last 256 events.
 */
module Ledger {
  import opened Model
  import opened Transport

  predicate HasId(s: seq<SessionSnapshot>, id: SessionId) {
    exists i :: 0 <= i < |s| && s[i].sessionId == id
  }

  /** The closes that no later close of the same session supersedes, in order. */
  function LastCloses(history: seq<SessionSnapshot>): seq<SessionSnapshot> {
    if history == [] then []
    else if HasId(history[1..], history[0].sessionId) then
      LastCloses(history[1..])
    else [history[0]] + LastCloses(history[1..])
  }

  function LedgerOf(history: seq<SessionSnapshot>): seq<SessionSnapshot> {
    LastN(LastCloses(history), MAX_TERMINAL_SESSIONS)
  }

  function PushAllTerminal(terminal: seq<SessionSnapshot>, closes: seq<SessionSnapshot>): seq<SessionSnapshot>
    decreases |closes|
  {
    if closes == [] then terminal else PushAllTerminal(PushTerminal(terminal, closes[0]), closes[1..])
  }

  function PushAllEvents(events: seq<RuntimeEvent>, emitted: seq<RuntimeEvent>): seq<RuntimeEvent>
    decreases |emitted|
  {
    if emitted == [] then events else PushAllEvents(PushEvent(events, emitted[0]), emitted[1..])
  }

  ghost predicate DistinctIds(s: seq<SessionSnapshot>) {
    forall i, j :: 0 <= i < j < |s| ==> s[i].sessionId != s[j].sessionId
  }

  lemma HasIdCons(first: SessionSnapshot, rest: seq<SessionSnapshot>, id: SessionId)
    ensures HasId([first] + rest, id) <==> first.sessionId == id || HasId(rest, id)
  {
    if HasId(rest, id) {
      var i :| 0 <= i < |rest| && rest[i].sessionId == id;
      assert ([first] + rest)[i + 1].sessionId == id;
    }
    if first.sessionId == id {
      assert ([first] + rest)[0].sessionId == id;
    }
  }

  lemma {:induction false} LastClosesIds(history: seq<SessionSnapshot>, id: SessionId)
    ensures HasId(LastCloses(history), id) <==> HasId(history, id)
  {
    if history != [] {
      LastClosesIds(history[1..], id);
      HasIdCons(history[0], history[1..], id);
      HasIdCons(history[0], LastCloses(history[1..]), id);
      assert history == [history[0]] + history[1..];
    }
  }

  /** The ledger order lists no session twice. */
  lemma {:induction false} LastClosesDistinct(history: seq<SessionSnapshot>)
    ensures DistinctIds(LastCloses(history))
  {
    if history != [] {
      LastClosesDistinct(history[1..]);
      LastClosesIds(history[1..], history[0].sessionId);
    }
  }

  lemma {:induction false} HasIdSnoc(s: seq<SessionSnapshot>, last: SessionSnapshot, id: SessionId)
    ensures HasId(s + [last], id) <==> HasId(s, id) || last.sessionId == id
  {
    if HasId(s, id) {
      var i :| 0 <= i < |s| && s[i].sessionId == id;
      assert (s + [last])[i].sessionId == id;
    }
    if last.sessionId == id {
      assert (s + [last])[|s|].sessionId == id;
    }
  }

  lemma {:induction false} LastClosesSnoc(history: seq<SessionSnapshot>, last: SessionSnapshot)
    ensures LastCloses(history + [last]) ==
            Filter(LastCloses(history), (e: SessionSnapshot) => e.sessionId != last.sessionId) + [last]
  {
    var keep := (e: SessionSnapshot) => e.sessionId != last.sessionId;
    if history == [] {
      assert history + [last] == [last];
      assert LastCloses([last][1..]) == [];
    } else {
      var first, rest := history[0], history[1..];
      assert (history + [last])[1..] == rest + [last];
      LastClosesSnoc(rest, last);
      HasIdSnoc(rest, last, first.sessionId);
      var tail := LastCloses(rest);
      assert ([first] + tail)[1..] == tail;
      if !HasId(rest, first.sessionId) && first.sessionId != last.sessionId {
        assert [first] + (Filter(tail, keep) + [last]) == ([first] + Filter(tail, keep)) + [last];
      }
    }
  }

  /** Distinct ids lose at most one entry when one id is filtered out. */
  lemma {:induction false} FilterOneId(s: seq<SessionSnapshot>, id: SessionId)
    requires DistinctIds(s)
    ensures |Filter(s, (e: SessionSnapshot) => e.sessionId != id)| >= |s| - 1
  {
    if s != [] {
      if s[0].sessionId == id {
        FilterAll(s[1..], (e: SessionSnapshot) => e.sessionId != id);
      } else {
        FilterOneId(s[1..], id);
      }
    }
  }

  lemma PushTerminalRefines(history: seq<SessionSnapshot>, last: SessionSnapshot)
    ensures PushTerminal(LedgerOf(history), last) == LedgerOf(history + [last])
  {
    var keep := (e: SessionSnapshot) => e.sessionId != last.sessionId;
    var all := LastCloses(history);
    var kept := LastN(all, MAX_TERMINAL_SESSIONS);
    var older := all[..|all| - |kept|];
    assert all == older + kept;
    FilterAppend(older, kept, keep);
    LastClosesSnoc(history, last);
    LastClosesDistinct(history);
    FilterOneId(kept, last.sessionId);
    if |all| > MAX_TERMINAL_SESSIONS {
      LastNDropsPrefix(Filter(older, keep), Filter(kept, keep) + [last], MAX_TERMINAL_SESSIONS);
      assert Filter(older, keep) + (Filter(kept, keep) + [last]) == Filter(all, keep) + [last];
    } else {
      assert older == [];
    }
  }

  lemma LastNDropsPrefix<T>(prefix: seq<T>, s: seq<T>, n: nat)
    requires |s| >= n
    ensures LastN(prefix + s, n) == LastN(s, n)
  {
  }

  /** After any sequence of closes the ledger holds the 32 most recently closed distinct sessions. */
  lemma {:induction false} LedgerRefinesHistory(history: seq<SessionSnapshot>, closes: seq<SessionSnapshot>)
    ensures PushAllTerminal(LedgerOf(history), closes) == LedgerOf(history + closes)
    ensures |LedgerOf(history + closes)| <= MAX_TERMINAL_SESSIONS && DistinctIds(LedgerOf(history + closes))
    decreases |closes|
  {
    LedgerBounded(history + closes);
    if closes == [] {
      assert history + closes == history;
    } else {
      PushTerminalRefines(history, closes[0]);
      LedgerRefinesHistory(history + [closes[0]], closes[1..]);
      assert history + [closes[0]] + closes[1..] == history + closes;
    }
  }

  lemma LedgerBounded(history: seq<SessionSnapshot>)
    ensures |LedgerOf(history)| <= MAX_TERMINAL_SESSIONS && DistinctIds(LedgerOf(history))
  {
    LastClosesDistinct(history);
  }

  lemma PushEventRefines(history: seq<RuntimeEvent>, event: RuntimeEvent)
    ensures PushEvent(LastN(history, MAX_EVENTS), event) == LastN(history + [event], MAX_EVENTS)
  {
  }

  lemma {:induction false} EventsRefineHistory(history: seq<RuntimeEvent>, emitted: seq<RuntimeEvent>)
    ensures PushAllEvents(LastN(history, MAX_EVENTS), emitted) == LastN(history + emitted, MAX_EVENTS)
    decreases |emitted|
  {
    if emitted == [] {
      assert history + emitted == history;
    } else {
      PushEventRefines(history, emitted[0]);
      EventsRefineHistory(history + [emitted[0]], emitted[1..]);
      assert history + [emitted[0]] + emitted[1..] == history + emitted;
    }
  }

  /** What a reader of the buffer gets, in terms of the whole history. */
  lemma RecentEventsOfHistory(history: seq<RuntimeEvent>, limit: nat)
    ensures var wanted := Min(if limit >= 1 then limit else 1, Min(|history|, MAX_EVENTS));
            RecentEvents(LastN(history, MAX_EVENTS), limit) == history[|history| - wanted..]
  {
    var buffer := LastN(history, MAX_EVENTS);
    var wanted := Min(if limit >= 1 then limit else 1, |buffer|);
    assert buffer == history[|history| - |buffer|..];
    assert buffer[|buffer| - wanted..] == history[|history| - wanted..];
  }
}
