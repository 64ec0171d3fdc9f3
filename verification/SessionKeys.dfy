/**
 Logical session ids and suppression keys: the hashed bytes determine the key, the registry holds at
 most one live session per key, and a suppressed key stays down.
 */
module SessionKeys {
  import opened Model
  import opened RelayWire
  import opened Transport
  import opened AdapterRuns

  // ---------------------------------------------------------------- hashed bytes

  ghost predicate InjectiveHash(hash: string -> SessionId) {
    forall a, b :: hash(a) == hash(b) ==> a == b
  }

  function ProtocolText(protocol: Option<ProtocolId>): string {
    match protocol case None => "" case Some(text) => text
  }

  lemma ClassTextsSeparate(a: TrafficClass, b: TrafficClass, x: string, y: string)
    requires ClassText(a) + x == ClassText(b) + y
    ensures a == b && x == y
  {
    assert (ClassText(a) + x)[0] == ClassText(a)[0] && (ClassText(b) + y)[0] == ClassText(b)[0];
    assert (ClassText(a) + x)[1] == ClassText(a)[1] && (ClassText(b) + y)[1] == ClassText(b)[1];
    assert x == (ClassText(a) + x)[|ClassText(a)|..];
    assert y == (ClassText(b) + y)[|ClassText(b)|..];
  }

  lemma SplitEqual(a: string, b: string, x: string, y: string)
    requires |a| == |b| && a + x == b + y
    ensures a == b && x == y
  {
    assert a == (a + x)[..|a|] && b == (b + y)[..|b|];
    assert x == (a + x)[|a|..] && y == (b + y)[|b|..];
  }

  function Tail(key: SessionKey): string {
    ClassText(key.class_) + ProtocolText(key.protocol)
  }

  lemma BytesNested(instance: string, local: PeerId, key: SessionKey)
    ensures SessionIdBytes(instance, local, key) == instance + (local + (key.peer + Tail(key)))
  {
    hide ClassText;
  }

  /**
   For peer ids of one length the bytes determine local peer, peer, class and protocol text. The path
   does not enter. An absent protocol and an empty one are the only keys that share their bytes.
   */
  lemma IdBytesDetermineKey(instance: string, localA: PeerId, a: SessionKey, localB: PeerId, b: SessionKey)
    requires |localA| == |localB| && |a.peer| == |b.peer|
    ensures SessionIdBytes(instance, localA, a) == SessionIdBytes(instance, localB, b) <==>
            (localA == localB && a.peer == b.peer && a.class_ == b.class_
             && ProtocolText(a.protocol) == ProtocolText(b.protocol))
  {
    hide SessionIdBytes, ClassText, ProtocolText;
    BytesNested(instance, localA, a);
    BytesNested(instance, localB, b);
    if SessionIdBytes(instance, localA, a) == SessionIdBytes(instance, localB, b) {
      SplitEqual(instance, instance, localA + (a.peer + Tail(a)), localB + (b.peer + Tail(b)));
      SplitEqual(localA, localB, a.peer + Tail(a), b.peer + Tail(b));
      SplitEqual(a.peer, b.peer, Tail(a), Tail(b));
      ClassTextsSeparate(a.class_, b.class_, ProtocolText(a.protocol), ProtocolText(b.protocol));
    }
  }

  predicate WellFormedKey(key: SessionKey, peerLength: nat) {
    |key.peer| == peerLength && key.protocol != Some("")
  }

  lemma SessionIdsIdentifyKeys(cfg: Config, local: PeerId, peerLength: nat, a: SessionKey, b: SessionKey)
    requires InjectiveHash(cfg.hash) && WellFormedKey(a, peerLength) && WellFormedKey(b, peerLength)
    ensures IdFor(cfg, local, a) == IdFor(cfg, local, b) <==> a == b
  {
    IdBytesDetermineKey(cfg.runtimeInstanceId, local, a, local, b);
  }

  /** Without a fixed length the parts run together: two different pairs of peers hash the same bytes. */
  lemma LengthsMatter()
    ensures var a := SessionKey("c", None, Bulk);
            var b := SessionKey("bc", None, Bulk);
            a != b && SessionIdBytes("i", "ab", a) == SessionIdBytes("i", "a", b)
  {
    assert SessionIdBytes("i", "ab", SessionKey("c", None, Bulk)) == "iabcbulk";
    assert SessionIdBytes("i", "a", SessionKey("bc", None, Bulk)) == "iabcbulk";
  }

  // ---------------------------------------------------------------- one live session per key

  function IdFor(cfg: Config, local: PeerId, key: SessionKey): SessionId {
    cfg.hash(SessionIdBytes(cfg.runtimeInstanceId, local, key))
  }

  /** Every live session sits at the id of its own key. */
  ghost predicate KeysAtIds(cfg: Config, local: PeerId, w: World) {
    forall id :: id in w.sessions ==> w.sessions[id].sessionId == id && id == IdFor(cfg, local, KeyOf(w.sessions[id]))
  }

  /** A migration is asked for a route of the session's own peer, protocol and class. */
  predicate OwnKey(w: World, step: AdapterStep) {
    step.MigrateStep? && step.id in w.sessions ==> RouteKey(step.route) == KeyOf(w.sessions[step.id])
  }

  ghost predicate OwnKeyRun(cfg: Config, w: World, steps: seq<AdapterStep>)
    decreases |steps|
  {
    steps != [] ==> OwnKey(w, steps[0]) && OwnKeyRun(cfg, Step(cfg, w, steps[0]), steps[1..])
  }

  lemma SnapshotShape(cfg: Config, w: World, route: RoutePlan, inputs: Inputs)
    ensures var (after, outcome) := SnapshotForRoute(cfg, w, route, inputs);
            && after == w.(relays := after.relays)
            && (outcome.Ok? ==>
                 && OwnsRoute(cfg, route)
                 && outcome.value.sessionId == LogicalSessionId(cfg, route)
                 && KeyOf(outcome.value) == RouteKey(route))
  {
    hide OpenAt, LogicalSessionId;
  }

  lemma UpsertShape(w: World, session: SessionSnapshot, now: nat)
    ensures var after := Upsert(w, session, now).0;
            after == w.(sessions := w.sessions[session.sessionId := session], events := after.events, relays := after.relays)
  {
    hide CloseAt, PushEvent, ReleasesRelay;
  }

  lemma RelayCloseShape(w: World, endpoint: Option<Endpoint>, id: SessionId)
    ensures var after := RelayClose(w, endpoint, id).0; after == w.(relays := after.relays)
  {
  }

  /** What the operations on sessions can touch at all. */
  lemma ConnectTouches(cfg: Config, w: World, route: RoutePlan, inputs: Inputs)
    ensures var after := Connect(cfg, w, route, inputs).0;
            after == w.(sessions := after.sessions, events := after.events, relays := after.relays)
  {
    hide SnapshotForRoute, Upsert, FindSuppression, PushEvent;
    SnapshotShape(cfg, w, route, inputs);
    var (dialed, outcome) := SnapshotForRoute(cfg, w, route, inputs);
    if outcome.Ok? {
      UpsertShape(dialed, outcome.value, inputs.now);
    }
  }

  lemma MigrateTouches(cfg: Config, w: World, id: SessionId, route: RoutePlan, inputs: Inputs)
    ensures var after := Migrate(cfg, w, id, route, inputs).0;
            after == w.(sessions := after.sessions, events := after.events, relays := after.relays)
  {
    hide SnapshotForRoute, Upsert, RelayClose, ReleasesRelay, PushEvent;
    var marked := UpdateSessionState(w, id, Migrating, None, Some("daemon requested path migration"), inputs.now);
    if id in marked.sessions {
      var existing := marked.sessions[id];
      SnapshotShape(cfg, marked, route, inputs);
      var (dialed, outcome) := SnapshotForRoute(cfg, marked, route, inputs);
      if outcome.Ok? {
        var migrated := outcome.value.(sessionId := existing.sessionId, createdAt := existing.createdAt,
                                       lastActivity := inputs.now);
        RelayCloseShape(dialed, existing.relayControlEndpoint, existing.transportSessionId);
        UpsertShape(RelayClose(dialed, existing.relayControlEndpoint, existing.transportSessionId).0, migrated, inputs.now);
        UpsertShape(dialed, migrated, inputs.now);
      }
    }
  }

  lemma CloseTouches(w: World, session: SessionSnapshot, now: nat)
    ensures var after := CloseRuntimeSession(w, session, now).0;
            after == w.(sessions := after.sessions, events := after.events, relays := after.relays, terminal := after.terminal)
  {
    hide CloseAt, PushEvent, PushTerminal;
  }

  /** What an operation may do to the registry: store a record of the route's key, or drop one. */
  lemma ConnectStores(cfg: Config, w: World, route: RoutePlan, inputs: Inputs)
    ensures var after := Connect(cfg, w, route, inputs).0;
            && (after.sessions == w.sessions
                || (&& OwnsRoute(cfg, route)
                    && FindSuppression(w.suppressions, RouteKey(route)).None?
                    && LogicalSessionId(cfg, route) in after.sessions
                    && after.sessions == w.sessions[LogicalSessionId(cfg, route) :=
                         after.sessions[LogicalSessionId(cfg, route)]]
                    && KeyOf(after.sessions[LogicalSessionId(cfg, route)]) == RouteKey(route)
                    && after.sessions[LogicalSessionId(cfg, route)].sessionId == LogicalSessionId(cfg, route)))
  {
    hide LogicalSessionId, SnapshotForRoute, Upsert, FindSuppression;
    var (dialed, outcome) := SnapshotForRoute(cfg, w, route, inputs);
    SnapshotShape(cfg, w, route, inputs);
    if outcome.Ok? {
      UpsertShape(dialed, outcome.value, inputs.now);
    }
  }

  lemma MigrateStores(cfg: Config, w: World, id: SessionId, route: RoutePlan, inputs: Inputs)
    requires id in w.sessions ==> w.sessions[id].sessionId == id && KeyOf(w.sessions[id]) == RouteKey(route)
    ensures var after := Migrate(cfg, w, id, route, inputs).0;
            && after.sessions.Keys == w.sessions.Keys
            && (forall k :: k in w.sessions && k != id ==> after.sessions[k] == w.sessions[k])
            && (id in w.sessions ==> after.sessions[id].sessionId == id && KeyOf(after.sessions[id]) == RouteKey(route))
  {
    hide LogicalSessionId, SnapshotForRoute, Upsert, RelayClose, ReleasesRelay;
    var marked := UpdateSessionState(w, id, Migrating, None, Some("daemon requested path migration"), inputs.now);
    if id in marked.sessions {
      var existing := marked.sessions[id];
      var (dialed, outcome) := SnapshotForRoute(cfg, marked, route, inputs);
      SnapshotShape(cfg, marked, route, inputs);
      if outcome.Ok? {
        var migrated := outcome.value.(sessionId := existing.sessionId, createdAt := existing.createdAt,
                                       lastActivity := inputs.now);
        RelayCloseShape(dialed, existing.relayControlEndpoint, existing.transportSessionId);
        var released := RelayClose(dialed, existing.relayControlEndpoint, existing.transportSessionId).0;
        UpsertShape(released, migrated, inputs.now);
        UpsertShape(dialed, migrated, inputs.now);
      }
    }
  }

  lemma CloseStores(w: World, session: SessionSnapshot, now: nat)
    ensures var after := CloseRuntimeSession(w, session, now).0;
            && after.sessions == w.sessions - {session.sessionId}
  {
    hide CloseAt, PushEvent, PushTerminal;
    if session.sessionId !in w.sessions {
      assert w.sessions - {session.sessionId} == w.sessions;
    }
  }

  lemma StepKeepsKeys(cfg: Config, local: PeerId, w: World, step: AdapterStep)
    requires cfg.localIdentity == Some(local) && KeysAtIds(cfg, local, w) && OwnKey(w, step)
    ensures KeysAtIds(cfg, local, Step(cfg, w, step))
  {
    hide Connect, Migrate, CloseRuntimeSession, OpenAt, CloseAt, SessionIdBytes, PushEvent, FindAttempt, PutAttempt, DropAttempt,
         NextAttempt, ClearedEvent, FindSuppression, PutSuppression, DropSuppression;
    match step
    case ConnectStep(route, inputs) => ConnectStores(cfg, w, route, inputs);
    case MigrateStep(id, route, inputs) => MigrateStores(cfg, w, id, route, inputs);
    case CloseStep(session, now) => CloseStores(w, session, now);
    case _ =>
  }

  /** Over any run from an empty registry no two live sessions have the same key. */
  lemma {:induction false} OneSessionPerKey(cfg: Config, local: PeerId, w: World, steps: seq<AdapterStep>)
    requires cfg.localIdentity == Some(local) && KeysAtIds(cfg, local, w) && OwnKeyRun(cfg, w, steps)
    ensures var after := Run(cfg, w, steps);
            && KeysAtIds(cfg, local, after)
            && (forall a, b :: a in after.sessions && b in after.sessions ==>
                  (KeyOf(after.sessions[a]) == KeyOf(after.sessions[b]) ==> a == b))
    decreases |steps|
  {
    hide Step, IdFor;
    if steps != [] {
      StepKeepsKeys(cfg, local, w, steps[0]);
      OneSessionPerKey(cfg, local, Step(cfg, w, steps[0]), steps[1..]);
    }
  }

  /** A connect leaves the sessions of every other key as they were. */
  lemma ConnectTouchesOneKey(cfg: Config, local: PeerId, peerLength: nat, w: World, route: RoutePlan, inputs: Inputs,
                             id: SessionId)
    requires cfg.localIdentity == Some(local) && InjectiveHash(cfg.hash) && KeysAtIds(cfg, local, w)
    requires id in w.sessions && KeyOf(w.sessions[id]) != RouteKey(route)
    requires WellFormedKey(KeyOf(w.sessions[id]), peerLength) && WellFormedKey(RouteKey(route), peerLength)
    ensures var after := Connect(cfg, w, route, inputs).0;
            id in after.sessions && after.sessions[id] == w.sessions[id]
  {
    hide Connect, SessionIdBytes;
    SessionIdsIdentifyKeys(cfg, local, peerLength, KeyOf(w.sessions[id]), RouteKey(route));
    ConnectStores(cfg, w, route, inputs);
  }

  // ---------------------------------------------------------------- suppression lists

  ghost predicate UniqueKeys(suppressions: seq<ReconnectSuppression>) {
    forall i, j :: 0 <= i < j < |suppressions| ==> suppressions[i].key != suppressions[j].key
  }

  lemma {:induction false} FindInList(s: seq<ReconnectSuppression>, key: SessionKey)
    ensures FindSuppression(s, key).Some? <==> exists i :: 0 <= i < |s| && s[i].key == key
    ensures FindSuppression(s, key).Some? ==> FindSuppression(s, key).value in s
  {
    if s != [] {
      FindInList(s[1..], key);
      if exists i :: 0 <= i < |s| && s[i].key == key {
        var i :| 0 <= i < |s| && s[i].key == key;
        assert i > 0 ==> s[1..][i - 1].key == key;
      }
      if FindSuppression(s[1..], key).Some? {
        var i :| 0 <= i < |s[1..]| && s[1..][i].key == key;
        assert s[i + 1].key == key;
      }
    }
  }

  /** Suppressing a key shows for that key only, and keeps keys unique. */
  lemma {:induction false} PutFinds(s: seq<ReconnectSuppression>, entry: ReconnectSuppression, key: SessionKey)
    ensures FindSuppression(PutSuppression(s, entry), key) ==
            if key == entry.key then Some(entry) else FindSuppression(s, key)
    ensures |PutSuppression(s, entry)| == |s| + if FindSuppression(s, entry.key).Some? then 0 else 1
  {
    if s != [] {
      PutFinds(s[1..], entry, key);
      var put := PutSuppression(s[1..], entry);
      assert ([s[0]] + put)[1..] == put;
      assert ([entry] + s[1..])[1..] == s[1..];
    }
  }

  lemma {:induction false} PutKeepsUnique(s: seq<ReconnectSuppression>, entry: ReconnectSuppression)
    requires UniqueKeys(s)
    ensures UniqueKeys(PutSuppression(s, entry))
  {
    if s != [] && s[0].key != entry.key {
      var put := PutSuppression(s[1..], entry);
      PutKeepsUnique(s[1..], entry);
      FindInList(s[1..], s[0].key);
      PutFinds(s[1..], entry, s[0].key);
      FindInList(put, s[0].key);
    }
  }

  /** Clearing a key removes that key and leaves every other entry intact. */
  lemma {:induction false} DropFinds(s: seq<ReconnectSuppression>, dropped: SessionKey, key: SessionKey)
    ensures FindSuppression(DropSuppression(s, dropped), key) ==
            if key == dropped then None else FindSuppression(s, key)
  {
    if s != [] {
      DropFinds(s[1..], dropped, key);
      var rest := DropSuppression(s[1..], dropped);
      assert ([s[0]] + rest)[1..] == rest;
    }
  }

  lemma {:induction false} DropKeepsUnique(s: seq<ReconnectSuppression>, dropped: SessionKey)
    requires UniqueKeys(s)
    ensures UniqueKeys(DropSuppression(s, dropped))
    ensures |DropSuppression(s, dropped)| == |s| - if FindSuppression(s, dropped).Some? then 1 else 0
  {
    if s != [] {
      DropKeepsUnique(s[1..], dropped);
      FindInList(s[1..], s[0].key);
      var rest := DropSuppression(s[1..], dropped);
      DropFinds(s[1..], dropped, s[0].key);
      FindInList(rest, s[0].key);
    }
  }

  // ---------------------------------------------------------------- a suppressed key stays down

  predicate Suppressed(w: World, key: SessionKey) {
    FindSuppression(w.suppressions, key).Some?
  }

  ghost predicate NoLive(w: World, key: SessionKey) {
    forall id :: id in w.sessions ==> KeyOf(w.sessions[id]) != key
  }

  ghost predicate HeldDown(w: World, key: SessionKey) {
    Suppressed(w, key) && NoLive(w, key) && (forall id :: id in w.sessions ==> w.sessions[id].sessionId == id)
  }

  predicate Clears(step: AdapterStep, key: SessionKey) {
    step.ClearStep? && step.key == key
  }

  lemma UpdateKeepsDown(w: World, id: SessionId, state: RuntimeSessionState, closureReason: Option<SessionClosureReason>,
                        stateReason: Option<string>, now: nat, key: SessionKey)
    requires HeldDown(w, key)
    ensures HeldDown(UpdateSessionState(w, id, state, closureReason, stateReason, now), key)
  {
    hide PushEvent, FindSuppression;
  }

  lemma DownDepends(w: World, after: World, key: SessionKey)
    requires HeldDown(w, key) && after.sessions == w.sessions
    requires FindSuppression(after.suppressions, key).Some?
    ensures HeldDown(after, key)
  {
    hide FindSuppression;
  }

  lemma HeldIsSuppressed(w: World, key: SessionKey)
    requires HeldDown(w, key)
    ensures FindSuppression(w.suppressions, key).Some?
  {
    hide FindSuppression;
  }

  lemma ConnectKeepsDown(cfg: Config, w: World, route: RoutePlan, inputs: Inputs, key: SessionKey)
    requires HeldDown(w, key)
    ensures HeldDown(Connect(cfg, w, route, inputs).0, key)
  {
    hide Connect, FindSuppression, LogicalSessionId;
    ConnectStores(cfg, w, route, inputs);
    ConnectTouches(cfg, w, route, inputs);
  }

  lemma MigrateKeepsDown(cfg: Config, w: World, id: SessionId, route: RoutePlan, inputs: Inputs, key: SessionKey)
    requires HeldDown(w, key) && OwnKey(w, MigrateStep(id, route, inputs))
    ensures HeldDown(Migrate(cfg, w, id, route, inputs).0, key)
  {
    hide Migrate, FindSuppression;
    MigrateStores(cfg, w, id, route, inputs);
    MigrateTouches(cfg, w, id, route, inputs);
  }

  lemma CloseKeepsDown(w: World, session: SessionSnapshot, now: nat, key: SessionKey)
    requires HeldDown(w, key)
    ensures HeldDown(CloseRuntimeSession(w, session, now).0, key)
  {
    hide CloseRuntimeSession, FindSuppression;
    CloseStores(w, session, now);
    CloseTouches(w, session, now);
  }

  lemma StepKeepsDown(cfg: Config, w: World, step: AdapterStep, key: SessionKey)
    requires HeldDown(w, key) && OwnKey(w, step) && !Clears(step, key)
    ensures HeldDown(Step(cfg, w, step), key)
  {
    hide HeldDown, Connect, Migrate, CloseRuntimeSession, UpdateSessionState, OpenAt, CloseAt, FindSuppression, PutSuppression,
         DropSuppression, PushEvent, NextAttempt, PutAttempt, DropAttempt, FindAttempt, ClearedEvent;
    HeldIsSuppressed(w, key);
    match step
    case ConnectStep(route, inputs) => ConnectKeepsDown(cfg, w, route, inputs, key);
    case MigrateStep(id, route, inputs) => MigrateKeepsDown(cfg, w, id, route, inputs, key);
    case CloseStep(session, now) => CloseKeepsDown(w, session, now, key);
    case UpdateStep(id, state, closureReason, stateReason, now) =>
      UpdateKeepsDown(w, id, state, closureReason, stateReason, now, key);
    case SuppressStep(other, reason, now) =>
      PutFinds(w.suppressions, ReconnectSuppression(other, reason, now), key);
      DownDepends(w, Step(cfg, w, step), key);
    case ClearStep(other, now) =>
      DropFinds(w.suppressions, other, key);
      DownDepends(w, Step(cfg, w, step), key);
    case _ => DownDepends(w, Step(cfg, w, step), key);
  }
}
