/** The control service: sessions, their subscribers, and the timed removal of zombies. */
module Control {
  import opened Ledger

  datatype Phase = WAITING | READY | ZOMBIE

  datatype SessionState = SessionState(phase: Phase, delivered: seq<Trade>)

  datatype ControlState = ControlState(
    nextSessionId: nat,
    sessions: map<nat, SessionState>,
    subscribers: set<nat>,
    zombies: set<nat>,
    nextCleanup: int)

  const START := ControlState(0, map[], {}, {}, 0)

  const CLEANUP_FREQUENCY := 1_000_000_000

  datatype Event =
    | Connect
    | Upgrade(id: nat)
    | Disconnect(id: nat)
    | Timer(now: int)
    | Publish(trade: Trade)

  function SetPhase(s: ControlState, id: nat, phase: Phase): ControlState
    requires id in s.sessions
  {
    s.(sessions := s.sessions[id := s.sessions[id].(phase := phase)])
  }

  function Delivered(s: SessionState, trade: Trade): SessionState {
    s.(delivered := s.delivered + [trade])
  }

  function Deliver(sessions: map<nat, SessionState>, ids: set<nat>, trade: Trade): map<nat, SessionState> {
    map id | id in sessions :: if id in ids then Delivered(sessions[id], trade) else sessions[id]
  }

  lemma DeliverOneMore(sessions: map<nat, SessionState>, ids: set<nat>, id: nat, trade: Trade)
    requires id !in ids
    ensures Deliver(sessions, ids + {id}, trade) ==
              if id in sessions then Deliver(sessions, ids, trade)[id := Delivered(sessions[id], trade)]
              else Deliver(sessions, ids, trade)
    ensures id in sessions ==> Deliver(sessions, ids, trade)[id] == sessions[id]
  {
  }

  /** An event of a session that is no longer held does not occur. */
  function Step(s: ControlState, e: Event): ControlState {
    match e
    case Connect =>
      s.(nextSessionId := s.nextSessionId + 1, sessions := s.sessions[s.nextSessionId + 1 := SessionState(WAITING, [])])
    case Upgrade(id) =>
      if id !in s.sessions then s else SetPhase(s, id, READY).(subscribers := s.subscribers + {id})
    case Disconnect(id) =>
      if id !in s.sessions then s
      else SetPhase(s, id, ZOMBIE).(zombies := s.zombies + {id}, subscribers := s.subscribers - {id})
    case Timer(now) =>
      if now <= s.nextCleanup then s
      else s.(nextCleanup := now + CLEANUP_FREQUENCY, sessions := s.sessions - s.zombies, zombies := {})
    case Publish(trade) =>
      s.(sessions := Deliver(s.sessions, s.subscribers, trade))
  }

  function At(es: seq<Event>, i: nat): ControlState
    requires i <= |es|
  {
    if i == 0 then START else Step(At(es, i - 1), es[i - 1])
  }

  // ---- objects

  class Session {
    const id: nat
    var phase: Phase
    var delivered: seq<Trade>

    ghost function View(): SessionState
      reads this
    {
      SessionState(phase, delivered)
    }

    constructor (id: nat)
      ensures this.id == id && View() == SessionState(WAITING, [])
    {
      this.id := id;
      phase, delivered := WAITING, [];
    }

    /** A trade may only be handed to a session that is ready. */
    method OnTrade(trade: Trade)
      requires phase == READY
      modifies this
      ensures View() == old(View()).(delivered := old(delivered) + [trade])
    {
      delivered := delivered + [trade];
    }
  }

  class Manager {
    var nextSessionId: nat
    var sessions: map<nat, Session>
    var subscribers: set<nat>
    var zombies: set<nat>
    var nextCleanup: int

    ghost predicate Valid()
      reads this, sessions.Values
    {
      && (forall i <- sessions :: sessions[i].id == i)
      && Sound(View())
    }

    ghost function View(): ControlState
      reads this, sessions.Values
    {
      ControlState(nextSessionId, map i | i in sessions :: sessions[i].View(), subscribers, zombies, nextCleanup)
    }

    constructor ()
      ensures Valid() && View() == START && sessions == map[]
    {
      nextSessionId, sessions, subscribers, zombies, nextCleanup := 0, map[], {}, {}, 0;
    }

    twostate lemma Kept()
      requires old(Valid())
      requires unchanged(this) && forall i <- sessions :: unchanged(sessions[i])
      ensures Valid() && View() == old(View())
    {
    }

    method OnConnect()
      requires Valid()
      modifies this
      ensures Valid() && View() == Step(old(View()), Connect)
      ensures forall i <- sessions :: fresh(sessions[i]) || (i in old(sessions) && sessions[i] == old(sessions)[i])
    {
      nextSessionId := nextSessionId + 1;
      var session := new Session(nextSessionId);
      sessions := sessions[nextSessionId := session];
      assert View().sessions == old(View()).sessions[nextSessionId := SessionState(WAITING, [])];
      StepKeepsSound(old(View()), Connect);
    }

    method SetPhaseOf(id: nat, phase: Phase)
      requires id in sessions && forall i <- sessions :: sessions[i].id == i
      modifies sessions[id]
      ensures View() == SetPhase(old(View()), id, phase)
    {
      sessions[id].phase := phase;
    }

    method OnUpgrade(id: nat)
      requires Valid() && id in sessions
      modifies this, sessions[id]
      ensures Valid() && View() == Step(old(View()), Upgrade(id)) && sessions == old(sessions)
    {
      StepKeepsSound(View(), Upgrade(id));
      SetPhaseOf(id, READY);
      subscribers := subscribers + {id};
    }

    method OnDisconnect(id: nat)
      requires Valid() && id in sessions
      modifies this, sessions[id]
      ensures Valid() && View() == Step(old(View()), Disconnect(id)) && sessions == old(sessions)
    {
      StepKeepsSound(View(), Disconnect(id));
      SetPhaseOf(id, ZOMBIE);
      zombies := zombies + {id};
      subscribers := subscribers - {id};
    }

    method OnTimer(now: int)
      requires Valid()
      modifies this
      ensures Valid() && View() == Step(old(View()), Timer(now))
      ensures forall i <- sessions :: i in old(sessions) && sessions[i] == old(sessions)[i]
    {
      if nextCleanup < now {
        nextCleanup := now + CLEANUP_FREQUENCY;
        RemoveZombies();
      }
      StepKeepsSound(old(View()), Timer(now));
    }

    method RemoveZombies()
      modifies this`sessions, this`zombies
      ensures sessions == old(sessions - zombies) && zombies == {}
    {
      var todo := zombies;
      while todo != {}
        invariant todo <= zombies && zombies == old(zombies)
        invariant sessions == old(sessions) - (zombies - todo)
      {
        var id :| id in todo;
        todo := todo - {id};
        sessions := sessions - {id};
      }
      zombies := {};
    }

    method DeliverTo(id: nat, trade: Trade)
      requires id in sessions && sessions[id].phase == READY
      requires forall i <- sessions :: sessions[i].id == i
      modifies sessions[id]
      ensures View().sessions == old(View()).sessions[id := Delivered(old(View()).sessions[id], trade)]
    {
      sessions[id].OnTrade(trade);
    }

    /** Fans a trade out to the subscribers in any order; every session that is reached is ready. */
    method OnTrade(trade: Trade)
      requires Valid()
      modifies sessions.Values
      ensures Valid() && View() == Step(old(View()), Publish(trade))
    {
      var todo := subscribers;
      ghost var before := View();
      ghost var done: set<nat> := {};
      assert Deliver(before.sessions, done, trade) == before.sessions;
      while todo != {}
        invariant todo <= subscribers && done == subscribers - todo
        invariant View().sessions == Deliver(before.sessions, done, trade)
      {
        var id :| id in todo;
        DeliverOneMore(before.sessions, done, id, trade);
        if id in sessions {
          DeliverTo(id, trade);
        }
        todo, done := todo - {id}, done + {id};
      }
      assert done == subscribers;
      StepKeepsSound(before, Publish(trade));
    }
  }

  // ---- what holds of every run

  /**
   Every held session is subscribed exactly when it is ready, zombies are marked for removal, and ids are handed out
   in order.
   */
  ghost predicate Sound(s: ControlState) {
    && (forall id <- s.sessions :: 1 <= id <= s.nextSessionId)
    && (forall id <- s.subscribers :: 1 <= id <= s.nextSessionId)
    && (forall id <- s.zombies :: id in s.sessions)
    && (forall id <- s.sessions :: id in s.subscribers <==> s.sessions[id].phase == READY)
    && (forall id <- s.sessions :: s.sessions[id].phase == ZOMBIE ==> id in s.zombies)
  }

  lemma StepKeepsSound(s: ControlState, e: Event)
    requires Sound(s)
    ensures Sound(Step(s, e))
    ensures s.nextSessionId <= Step(s, e).nextSessionId && s.nextCleanup <= Step(s, e).nextCleanup
  {
  }

  lemma {:induction false} RunIsSound(es: seq<Event>, i: nat)
    requires i <= |es|
    ensures Sound(At(es, i))
  {
    if i > 0 {
      RunIsSound(es, i - 1);
      StepKeepsSound(At(es, i - 1), es[i - 1]);
    }
  }

  /** In every run, a trade reaches every ready session exactly once and no other session. */
  lemma TradeReachesTheReady(es: seq<Event>, i: nat, id: nat)
    requires i < |es| && es[i].Publish? && id in At(es, i).sessions
    ensures id in At(es, i + 1).sessions
    ensures var before := At(es, i).sessions[id];
            At(es, i + 1).sessions[id] ==
              if before.phase == READY then before.(delivered := before.delivered + [es[i].trade]) else before
  {
    RunIsSound(es, i);
  }

  /** How one event changes what is held of one session, and which trades it is delivered. */
  ghost predicate SessionStep(s: ControlState, e: Event, t: ControlState, id: nat) {
    var removed := e.Timer? && s.nextCleanup < e.now && id in s.zombies;
    && (id in t.sessions <==> (id in s.sessions && !removed) || (e.Connect? && id == s.nextSessionId + 1))
    && (e.Connect? && id == s.nextSessionId + 1 ==> t.sessions[id] == SessionState(WAITING, []))
    && (id in s.sessions && id in t.sessions && !(e.Connect? && id == s.nextSessionId + 1) ==>
          && t.sessions[id].phase ==
               (if e == Upgrade(id) then READY else if e == Disconnect(id) then ZOMBIE else s.sessions[id].phase)
          && t.sessions[id].delivered ==
               s.sessions[id].delivered + if e.Publish? && id in s.subscribers then [e.trade] else [])
  }

  /** Every event changes every session in exactly this way; a due pass removes every marked session. */
  lemma SessionsExactly(s: ControlState, e: Event, id: nat)
    ensures SessionStep(s, e, Step(s, e), id)
  {
    if id in s.sessions {
      assert s.sessions[id].delivered + [] == s.sessions[id].delivered;
    }
  }

  /** Sessions are subscribed by an upgrade and marked by a disconnect; a due pass leaves none marked. */
  lemma SetsExactly(s: ControlState, e: Event, id: nat)
    ensures id in Step(s, e).subscribers <==>
              if e == Upgrade(id) then id in s.sessions || id in s.subscribers
              else id in s.subscribers && !(e == Disconnect(id) && id in s.sessions)
    ensures id in Step(s, e).zombies <==>
              if e.Timer? && s.nextCleanup < e.now then false
              else id in s.zombies || (e == Disconnect(id) && id in s.sessions)
    ensures Step(s, e).nextCleanup == if e.Timer? && s.nextCleanup < e.now then e.now + 1_000_000_000 else s.nextCleanup
  {
  }

  /** In every run, a session that is marked before a due pass is not held after it, nor ever again. */
  lemma MarkedIsRemoved(es: seq<Event>, i: nat, j: nat, id: nat)
    requires CleansUp(es, i) && id in At(es, i).zombies && i < j <= |es|
    ensures id !in At(es, j).sessions
  {
    RunIsSound(es, i);
    SessionsExactly(At(es, i), es[i], id);
    GoneStaysGone(es, i, i + 1, j, id);
  }

  // ---- ids are never reused

  lemma {:induction false} NextIdGrows(es: seq<Event>, i: nat, k: nat)
    requires i <= k <= |es|
    ensures At(es, i).nextSessionId <= At(es, k).nextSessionId
    ensures At(es, i).nextCleanup <= At(es, k).nextCleanup
    decreases k
  {
    if i < k {
      NextIdGrows(es, i, k - 1);
      RunIsSound(es, k - 1);
      StepKeepsSound(At(es, k - 1), es[k - 1]);
    }
  }

  ghost predicate Gone(s: ControlState, id: nat) {
    id !in s.sessions && id <= s.nextSessionId
  }

  lemma GoneStep(s: ControlState, e: Event, id: nat)
    requires Gone(s, id)
    ensures Gone(Step(s, e), id)
  {
  }

  /** A session id that has left never comes back. */
  lemma GoneStaysGone(es: seq<Event>, i: nat, j: nat, k: nat, id: nat)
    requires i <= j <= k <= |es|
    requires id in At(es, i).sessions && id !in At(es, j).sessions
    ensures id !in At(es, k).sessions
  {
    RunIsSound(es, i);
    NextIdGrows(es, i, j);
    for m := j to k
      invariant Gone(At(es, m), id)
    {
      GoneStep(At(es, m), es[m], id);
    }
  }

  // ---- cleanup passes

  ghost predicate CleansUp(es: seq<Event>, i: nat) {
    i < |es| && es[i].Timer? && At(es, i).nextCleanup < es[i].now
  }

  /** Any two executed cleanup passes are more than one second apart. */
  lemma CleanupsAreApart(es: seq<Event>, i: nat, j: nat)
    requires i < j && CleansUp(es, i) && CleansUp(es, j)
    ensures es[i].now + 1_000_000_000 < es[j].now
  {
    NextIdGrows(es, i + 1, j);
  }

  // ---- subscribers and zombies, exactly

  /** Subscribers are exactly the held ready sessions, zombies exactly the held zombie sessions. */
  ghost predicate Exact(s: ControlState) {
    && s.subscribers == (set id | id in s.sessions && s.sessions[id].phase == READY)
    && s.zombies == (set id | id in s.sessions && s.sessions[id].phase == ZOMBIE)
  }

  /** A session that has been disconnected and is still held is upgraded. */
  ghost predicate LateUpgrade(s: ControlState, e: Event) {
    e.Upgrade? && e.id in s.sessions && s.sessions[e.id].phase == ZOMBIE
  }

  /** Every step but one keeps the two sets exact; an upgrade keeps them exactly when the session is not a zombie. */
  lemma ExactIsKept(s: ControlState, e: Event)
    requires Sound(s) && Exact(s)
    ensures Exact(Step(s, e)) <==> !LateUpgrade(s, e)
  {
    var t := Step(s, e);
    match e
    case Upgrade(id) =>
      if id in s.sessions {
        assert id in t.sessions && t.sessions[id].phase == READY;
        if s.sessions[id].phase == ZOMBIE {
          assert id in t.zombies;
        }
      }
    case _ =>
  }

  ghost predicate ExactAt(es: seq<Event>, i: nat) {
    i <= |es| && Exact(At(es, i))
  }

  /** Event `i` upgrades a zombie. */
  ghost predicate LateAt(es: seq<Event>, i: nat) {
    i < |es| && LateUpgrade(At(es, i), es[i])
  }

  lemma ExactStep(es: seq<Event>, i: nat)
    requires i < |es| && ExactAt(es, i)
    ensures ExactAt(es, i + 1) <==> !LateAt(es, i)
  {
    RunIsSound(es, i);
    ExactIsKept(At(es, i), es[i]);
  }

  lemma NoLateUpgradeIsExact(es: seq<Event>, i: nat)
    requires i <= |es| && forall k: nat | k < i :: !LateAt(es, k)
    ensures ExactAt(es, i)
  {
    for k := 0 to i
      invariant ExactAt(es, k)
    {
      ExactStep(es, k);
    }
  }

  /** Both sets are exact throughout a run exactly when no held zombie is upgraded in it. */
  lemma RunIsExactExactly(es: seq<Event>, i: nat)
    requires i <= |es|
    ensures (forall k: nat | k <= i :: ExactAt(es, k)) <==> (forall k: nat | k < i :: !LateAt(es, k))
  {
    if forall k: nat | k <= i :: ExactAt(es, k) {
      forall k: nat | k < i ensures !LateAt(es, k) {
        ExactStep(es, k);
      }
    }
    if forall k: nat | k < i :: !LateAt(es, k) {
      forall k: nat | k <= i ensures ExactAt(es, k) {
        NoLateUpgradeIsExact(es, k);
      }
    }
  }

  /** No session is upgraded after it was disconnected. */
  ghost predicate Orderly(es: seq<Event>) {
    forall i, j | 0 <= i < j < |es| && es[i].Disconnect? && es[j].Upgrade? :: es[i].id != es[j].id
  }

  lemma {:induction false} ZombieWasDisconnected(es: seq<Event>, i: nat, id: nat)
    requires i <= |es| && id in At(es, i).sessions && At(es, i).sessions[id].phase == ZOMBIE
    ensures exists k :: 0 <= k < i && es[k] == Disconnect(id)
  {
    var s, e := At(es, i - 1), es[i - 1];
    if e == Disconnect(id) {
      assert es[i - 1] == Disconnect(id);
    } else {
      assert id in s.sessions && s.sessions[id].phase == ZOMBIE;
      ZombieWasDisconnected(es, i - 1, id);
    }
  }

  /** In every orderly run both sets are exact. */
  lemma OrderlyRunsAreExact(es: seq<Event>, i: nat)
    requires i <= |es| && Orderly(es)
    ensures Exact(At(es, i))
  {
    forall k: nat | k < i ensures !LateAt(es, k) {
      if LateAt(es, k) {
        ZombieWasDisconnected(es, k, es[k].id);
      }
    }
    NoLateUpgradeIsExact(es, i);
  }

  /** Connect, disconnect, upgrade: a live session is both subscribed and due for removal. */
  lemma LateUpgradeIsInexact()
    ensures !Exact(At([Connect, Disconnect(1), Upgrade(1)], 3))
  {
    var es := [Connect, Disconnect(1), Upgrade(1)];
    OrderlyRunsAreExact([Connect, Disconnect(1)], 2);
    assert At([Connect, Disconnect(1)], 1) == At(es, 1);
    RunIsSound(es, 2);
    assert At(es, 1).sessions == map[1 := SessionState(WAITING, [])];
    assert At(es, 2).sessions[1].phase == ZOMBIE;
    ExactIsKept(At(es, 2), es[2]);
  }
}
