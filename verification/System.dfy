/** The whole program: the controller and the control service that its trades are handed to. */
module Systems {
  import opened Types
  import opened Ledger
  import opened Reachability
  import opened Controllers
  import opened Hosts
  import M = Machine
  import C = Control
  import A = Agreement

  datatype Event =
    | Gateway(event: M.Event)
    | Tick(now: int)
    | Connect
    | Upgrade(id: nat)
    | Disconnect(id: nat)

  datatype State = State(desk: M.State, service: C.ControlState)

  /** The control service is handed the trades of one event, one by one. */
  function PublishAll(c: C.ControlState, trades: seq<Trade>): C.ControlState {
    if trades == [] then c else C.Step(PublishAll(c, trades[..|trades| - 1]), C.Publish(trades[|trades| - 1]))
  }

  function Next(s: State, e: Event): State {
    match e
    case Gateway(event) => State(M.Next(s.desk, event), PublishAll(s.service, M.Handed(s.desk, event)))
    case Tick(now) => State(M.Next(s.desk, M.Timer), C.Step(s.service, C.Timer(now)))
    case Connect => s.(service := C.Step(s.service, C.Connect))
    case Upgrade(id) => s.(service := C.Step(s.service, C.Upgrade(id)))
    case Disconnect(id) => s.(service := C.Step(s.service, C.Disconnect(id)))
  }

  function At(s: State, es: seq<Event>, i: nat): State
    requires i <= |es|
  {
    if i == 0 then s else Next(At(s, es, i - 1), es[i - 1])
  }

  lemma {:induction false} AtPrefix(s: State, es: seq<Event>, e: Event, i: nat)
    requires i <= |es|
    ensures At(s, es + [e], i) == At(s, es, i)
  {
    if i > 0 {
      AtPrefix(s, es, e, i - 1);
    }
  }

  lemma AtGrows(s: State, es: seq<Event>, e: Event)
    ensures At(s, es + [e], |es + [e]|) == Next(At(s, es, |es|), e)
  {
    AtPrefix(s, es, e, |es|);
  }

  // ---- one step

  /** A session after the trades: a ready one has them appended in order, any other is as it was. */
  function Receives(s: C.SessionState, trades: seq<Trade>): C.SessionState {
    if s.phase == C.READY then s.(delivered := s.delivered + trades) else s
  }

  lemma {:induction false} PublishAllDelivers(c: C.ControlState, trades: seq<Trade>)
    requires C.Sound(c)
    ensures C.Sound(PublishAll(c, trades))
    ensures PublishAll(c, trades) == c.(sessions := map id | id in c.sessions :: Receives(c.sessions[id], trades))
  {
    if trades == [] {
      forall id | id in c.sessions ensures Receives(c.sessions[id], trades) == c.sessions[id] {
        assert c.sessions[id].delivered + [] == c.sessions[id].delivered;
      }
      assert c.sessions == map id | id in c.sessions :: Receives(c.sessions[id], trades);
    } else {
      var init, last := trades[..|trades| - 1], trades[|trades| - 1];
      PublishAllDelivers(c, init);
      var d := PublishAll(c, init);
      C.StepKeepsSound(d, C.Publish(last));
      assert trades == init + [last];
      forall id | id in c.sessions ensures PublishAll(c, trades).sessions[id] == Receives(c.sessions[id], trades) {
        DeliversOneMore(d, c.sessions[id], init, last, id);
      }
    }
  }

  lemma DeliversOneMore(d: C.ControlState, s: C.SessionState, init: seq<Trade>, last: Trade, id: nat)
    requires C.Sound(d) && id in d.sessions && d.sessions[id] == Receives(s, init)
    ensures C.Step(d, C.Publish(last)).sessions[id] == Receives(s, init + [last])
  {
    assert s.delivered + init + [last] == s.delivered + (init + [last]);
  }

  // ---- every run

  ghost predicate Starts(s: State) {
    Ok(s.desk) && s.service == C.START
  }

  lemma StepKeepsSound(s: State, e: Event)
    requires C.Sound(s.service)
    ensures C.Sound(Next(s, e).service)
  {
    match e
    case Gateway(event) => PublishAllDelivers(s.service, M.Handed(s.desk, event));
    case Tick(now) => C.StepKeepsSound(s.service, C.Timer(now));
    case Connect => C.StepKeepsSound(s.service, C.Connect);
    case Upgrade(id) => C.StepKeepsSound(s.service, C.Upgrade(id));
    case Disconnect(id) => C.StepKeepsSound(s.service, C.Disconnect(id));
  }

  lemma RunIsSound(s: State, es: seq<Event>, i: nat)
    requires Starts(s) && i <= |es|
    ensures C.Sound(At(s, es, i).service)
  {
    for k := 0 to i
      invariant C.Sound(At(s, es, k).service)
    {
      StepKeepsSound(At(s, es, k), es[k]);
    }
  }

  /** The trades that event `k` hands on. */
  ghost function HandedAt(s: State, es: seq<Event>, k: nat): seq<Trade>
    requires k < |es|
  {
    if es[k].Gateway? then M.Handed(At(s, es, k).desk, es[k].event) else []
  }

  /**
   In every run, every fill of an accepted update is delivered to every ready session, once and in the order of the
   update, and to no other session.
   */
  lemma FillsReachTheReady(s: State, es: seq<Event>, k: nat, id: nat)
    requires Starts(s) && k < |es| && es[k].Gateway? && id in At(s, es, k).service.sessions
    ensures id in At(s, es, k + 1).service.sessions
    ensures At(s, es, k + 1).service.sessions[id]
         == Receives(At(s, es, k).service.sessions[id], HandedAt(s, es, k))
  {
    RunIsSound(s, es, k);
    PublishAllDelivers(At(s, es, k).service, HandedAt(s, es, k));
  }

  // ---- a run of the system is a run of each part

  /** The events of the controller among the first `i`. */
  ghost function DeskEvents(es: seq<Event>, i: nat): seq<M.Event>
    requires i <= |es|
  {
    if i == 0 then [] else DeskEvents(es, i - 1) + DeskEvent(es[i - 1])
  }

  function DeskEvent(e: Event): seq<M.Event> {
    match e
    case Gateway(event) => [event]
    case Tick(_) => [M.Timer]
    case _ => []
  }

  /** The events of the control service among the first `i`: its own, the timers, and the trades handed to it. */
  ghost function ServiceEvents(s: State, es: seq<Event>, i: nat): seq<C.Event>
    requires i <= |es|
  {
    if i == 0 then [] else ServiceEvents(s, es, i - 1) + ServiceEvent(At(s, es, i - 1), es[i - 1])
  }

  function Publishes(trades: seq<Trade>): seq<C.Event> {
    seq(|trades|, k requires 0 <= k < |trades| => C.Publish(trades[k]))
  }

  function ServiceEvent(s: State, e: Event): seq<C.Event> {
    match e
    case Gateway(event) => Publishes(M.Handed(s.desk, event))
    case Tick(now) => [C.Timer(now)]
    case Connect => [C.Connect]
    case Upgrade(id) => [C.Upgrade(id)]
    case Disconnect(id) => [C.Disconnect(id)]
  }

  ghost function DeskEnd(s: M.State, es: seq<M.Event>): M.State {
    M.At(s, es, |es|)
  }

  ghost function ServiceEnd(es: seq<C.Event>): C.ControlState {
    C.At(es, |es|)
  }

  lemma DeskAppend(s: M.State, es: seq<M.Event>, e: M.Event)
    ensures DeskEnd(s, es + [e]) == M.Next(DeskEnd(s, es), e)
  {
    M.AtPrefix(s, es, es + [e], |es|);
  }

  lemma {:induction false} ControlPrefix(es: seq<C.Event>, e: C.Event, i: nat)
    requires i <= |es|
    ensures C.At(es + [e], i) == C.At(es, i)
  {
    if i > 0 {
      ControlPrefix(es, e, i - 1);
    }
  }

  lemma ServiceAppend(es: seq<C.Event>, e: C.Event)
    ensures ServiceEnd(es + [e]) == C.Step(ServiceEnd(es), e)
  {
    ControlPrefix(es, e, |es|);
  }

  lemma {:induction false} ServiceAppendAll(es: seq<C.Event>, trades: seq<Trade>)
    ensures ServiceEnd(es + Publishes(trades)) == PublishAll(ServiceEnd(es), trades)
  {
    if trades == [] {
      assert es + Publishes(trades) == es;
    } else {
      var init, last := trades[..|trades| - 1], trades[|trades| - 1];
      ServiceAppendAll(es, init);
      ServiceAppend(es + Publishes(init), C.Publish(last));
      assert es + Publishes(trades) == es + Publishes(init) + [C.Publish(last)];
    }
  }

  ghost predicate Alone(s: State, es: seq<Event>, i: nat)
    requires i <= |es|
  {
    && At(s, es, i).desk == DeskEnd(s.desk, DeskEvents(es, i))
    && At(s, es, i).service == ServiceEnd(ServiceEvents(s, es, i))
  }

  lemma DeskStep(s: State, es: seq<Event>, i: nat)
    requires i < |es| && At(s, es, i).desk == DeskEnd(s.desk, DeskEvents(es, i))
    ensures At(s, es, i + 1).desk == DeskEnd(s.desk, DeskEvents(es, i + 1))
  {
    var before := DeskEvents(es, i);
    match es[i]
    case Gateway(event) => DeskAppend(s.desk, before, event);
    case Tick(_) => DeskAppend(s.desk, before, M.Timer);
    case _ => assert before + [] == before;
  }

  lemma ServiceStep(s: State, es: seq<Event>, i: nat)
    requires i < |es| && At(s, es, i).service == ServiceEnd(ServiceEvents(s, es, i))
    ensures At(s, es, i + 1).service == ServiceEnd(ServiceEvents(s, es, i + 1))
  {
    var t, before := At(s, es, i), ServiceEvents(s, es, i);
    match es[i]
    case Gateway(event) => ServiceAppendAll(before, M.Handed(t.desk, event));
    case Tick(now) => ServiceAppend(before, C.Timer(now));
    case Connect => ServiceAppend(before, C.Connect);
    case Upgrade(id) => ServiceAppend(before, C.Upgrade(id));
    case Disconnect(id) => ServiceAppend(before, C.Disconnect(id));
  }

  /**
   In every run of the system, each part does what it does alone: the controller on its own events, the control service
   on its own events, the timers, and one event for every fill that the controller hands on.
   */
  lemma PartsRunAlone(s: State, es: seq<Event>, i: nat)
    requires i <= |es| && s.service == C.START
    ensures Alone(s, es, i)
  {
    for k := 0 to i
      invariant Alone(s, es, k)
    {
      DeskStep(s, es, k);
      ServiceStep(s, es, k);
    }
  }

  // ---- a subscriber

  /** The elements of `parts` from `a` up to `b`, one after the other. */
  ghost function Concat(parts: seq<seq<Trade>>, a: nat, b: nat): seq<Trade>
    requires b <= |parts|
  {
    if b <= a then [] else Concat(parts, a, b - 1) + parts[b - 1]
  }

  ghost function AllHanded(s: State, es: seq<Event>): (parts: seq<seq<Trade>>)
    ensures |parts| == |es| && forall k | 0 <= k < |es| :: parts[k] == HandedAt(s, es, k)
  {
    seq(|es|, k requires 0 <= k < |es| => HandedAt(s, es, k))
  }

  /** The trades handed on by events `a` up to `b`. */
  ghost function Stream(s: State, es: seq<Event>, a: nat, b: nat): seq<Trade>
    requires b <= |es|
  {
    Concat(AllHanded(s, es), a, b)
  }

  ghost predicate ReadyIn(c: C.ControlState, id: nat) {
    id in c.sessions && c.sessions[id].phase == C.READY && id !in c.zombies
  }

  /** A ready session stays ready until it is disconnected, and is delivered what is handed on. */
  lemma ReadyStep(s: State, e: Event, id: nat)
    requires C.Sound(s.service) && ReadyIn(s.service, id) && e != Disconnect(id)
    ensures ReadyIn(Next(s, e).service, id)
    ensures Next(s, e).service.sessions[id].delivered ==
              s.service.sessions[id].delivered + if e.Gateway? then M.Handed(s.desk, e.event) else []
  {
    assert s.service.sessions[id].delivered + [] == s.service.sessions[id].delivered;
    match e
    case Gateway(event) => PublishAllDelivers(s.service, M.Handed(s.desk, event));
    case _ =>
  }

  ghost predicate ReadyBefore(s: State, es: seq<Event>, i: nat, id: nat) {
    i <= |es| && ReadyIn(At(s, es, i).service, id)
  }

  lemma ReadyOneMore(s: State, es: seq<Event>, i: nat, id: nat)
    requires Starts(s) && i < |es| && ReadyBefore(s, es, i, id) && es[i] != Disconnect(id)
    ensures ReadyBefore(s, es, i + 1, id)
    ensures DeliveredAt(s, es, i + 1, id) == DeliveredAt(s, es, i, id) + HandedAt(s, es, i)
  {
    RunIsSound(s, es, i);
    ReadyStep(At(s, es, i), es[i], id);
  }

  lemma {:induction false} ReadyUpTo(s: State, es: seq<Event>, a: nat, b: nat, id: nat)
    requires Starts(s) && a <= b <= |es| && ReadyBefore(s, es, a, id)
    requires forall k | a <= k < b :: es[k] != Disconnect(id)
    ensures ReadyBefore(s, es, b, id)
  {
    if a < b {
      ReadyUpTo(s, es, a, b - 1, id);
      ReadyOneMore(s, es, b - 1, id);
    }
  }

  /** What a session has been delivered before event `i`. */
  ghost function DeliveredAt(s: State, es: seq<Event>, i: nat, id: nat): seq<Trade>
    requires i <= |es|
  {
    var sessions := At(s, es, i).service.sessions;
    if id in sessions then sessions[id].delivered else []
  }

  ghost function AllDelivered(s: State, es: seq<Event>, id: nat): (lists: seq<seq<Trade>>)
    ensures |lists| == |es| + 1 && forall k | 0 <= k <= |es| :: lists[k] == DeliveredAt(s, es, k, id)
  {
    seq(|es| + 1, k requires 0 <= k <= |es| => DeliveredAt(s, es, k, id))
  }

  /** List `k + 1` is list `k` and part `k`. */
  ghost predicate AppendedAt(lists: seq<seq<Trade>>, parts: seq<seq<Trade>>, k: nat)
    requires |lists| == |parts| + 1 && k < |parts|
  {
    lists[k + 1] == lists[k] + parts[k]
  }

  lemma {:induction false} AppendedUpTo(lists: seq<seq<Trade>>, parts: seq<seq<Trade>>, a: nat, b: nat)
    requires |lists| == |parts| + 1 && a <= b <= |parts|
    requires forall k | a <= k < b :: AppendedAt(lists, parts, k)
    ensures lists[b] == lists[a] + Concat(parts, a, b)
  {
    if a < b {
      AppendedUpTo(lists, parts, a, b - 1);
      assert AppendedAt(lists, parts, b - 1);
    }
  }

  /** In every run, a session that is ready at `a` and not disconnected before `b` is delivered exactly the stream. */
  lemma SubscriberGetsStream(s: State, es: seq<Event>, a: nat, b: nat, id: nat)
    requires Starts(s) && a <= b <= |es| && ReadyBefore(s, es, a, id)
    requires forall k | a <= k < b :: es[k] != Disconnect(id)
    ensures ReadyBefore(s, es, b, id)
    ensures DeliveredAt(s, es, b, id) == DeliveredAt(s, es, a, id) + Stream(s, es, a, b)
  {
    var lists, parts := AllDelivered(s, es, id), AllHanded(s, es);
    ReadyUpTo(s, es, a, b, id);
    forall k | a <= k < b ensures AppendedAt(lists, parts, k) {
      ReadyUpTo(s, es, a, k, id);
      ReadyOneMore(s, es, k, id);
    }
    AppendedUpTo(lists, parts, a, b);
  }

  // ---- what a subscriber knows of the table

  lemma {:induction false} InsertInTwo(table: Table, a: seq<Trade>, b: seq<Trade>)
    ensures InsertTrades(table, a + b) == InsertTrades(InsertTrades(table, a), b)
  {
    if b == [] {
      assert a + b == a;
    } else {
      var n := |a + b| - 1;
      assert (a + b)[..n] == a + b[..|b| - 1];
      InsertInTwo(table, a, b[..|b| - 1]);
    }
  }

  lemma TradesInExchange(table: Table, trades: seq<Trade>)
    ensures Part(InsertTrades(table, trades), EXCHANGE) == InsertTrades(Part(table, EXCHANGE), trades)
  {
    var rows := Part(table, EXCHANGE);
    assert map[] + rows == rows && map[] + InsertTrades(rows, trades) == InsertTrades(rows, trades);
    A.TradesChangeExchange(table, map[], rows, trades);
  }

  lemma ExchangeStep(s: M.State, e: M.Event)
    ensures Part(M.Next(s, e).table, EXCHANGE) == InsertTrades(Part(s.table, EXCHANGE), M.Handed(s, e))
  {
    A.TableStep(s, e);
    if A.AcceptedTrade(s.lastTime, e) {
      TradesInExchange(s.table, M.TradesOf(e.update));
    } else if e.Corrected? {
      A.CorrectionsChangeManual(s.table, e.corrections, e.now);
    }
  }

  ghost function Exchange(s: State, es: seq<Event>, i: nat): Table
    requires i <= |es|
  {
    Part(At(s, es, i).desk.table, EXCHANGE)
  }

  lemma ExchangeAt(s: State, es: seq<Event>, k: nat)
    requires k < |es|
    ensures Exchange(s, es, k + 1) == InsertTrades(Exchange(s, es, k), HandedAt(s, es, k))
  {
    var desk := At(s, es, k).desk;
    match es[k]
    case Gateway(event) => ExchangeStep(desk, event);
    case Tick(now) => ExchangeStep(desk, M.Timer);
    case _ =>
  }

  ghost function AllExchange(s: State, es: seq<Event>): (tables: seq<Table>)
    ensures |tables| == |es| + 1 && forall k | 0 <= k <= |es| :: tables[k] == Exchange(s, es, k)
  {
    seq(|es| + 1, k requires 0 <= k <= |es| => Exchange(s, es, k))
  }

  /** Each table is the one before it with its part written to it. */
  ghost predicate Chained(tables: seq<Table>, parts: seq<seq<Trade>>) {
    |tables| == |parts| + 1 && forall k | 0 <= k < |parts| :: ChainedAt(tables, parts, k)
  }

  ghost predicate ChainedAt(tables: seq<Table>, parts: seq<seq<Trade>>, k: nat)
    requires |tables| == |parts| + 1 && k < |parts|
  {
    tables[k + 1] == InsertTrades(tables[k], parts[k])
  }

  lemma {:induction false} ChainIsWritten(tables: seq<Table>, parts: seq<seq<Trade>>, a: nat, b: nat)
    requires Chained(tables, parts) && a <= b <= |parts|
    ensures tables[b] == InsertTrades(tables[a], Concat(parts, a, b))
  {
    if a < b {
      ChainIsWritten(tables, parts, a, b - 1);
      assert ChainedAt(tables, parts, b - 1);
      InsertInTwo(tables[a], Concat(parts, a, b - 1), parts[b - 1]);
    }
  }

  /** In every run, the exchange rows are those at `a` with the stream since then written to them. */
  lemma StreamIsWritten(s: State, es: seq<Event>, a: nat, b: nat)
    requires a <= b <= |es|
    ensures Exchange(s, es, b) == InsertTrades(Exchange(s, es, a), Stream(s, es, a, b))
  {
    var tables, parts := AllExchange(s, es), AllHanded(s, es);
    forall k | 0 <= k < |parts| ensures ChainedAt(tables, parts, k) {
      ExchangeAt(s, es, k);
    }
    ChainIsWritten(tables, parts, a, b);
  }

  /**
   A subscriber can keep a copy of the trade table: whoever knows the exchange rows when a session is ready, and writes
   to them what the session is delivered from then on, has the exchange rows at any later point before a disconnect.
   */
  lemma SubscriberMirrorsTable(s: State, es: seq<Event>, a: nat, b: nat, id: nat) returns (received: seq<Trade>)
    requires Starts(s) && a <= b <= |es| && ReadyBefore(s, es, a, id)
    requires forall k | a <= k < b :: es[k] != Disconnect(id)
    ensures ReadyBefore(s, es, b, id)
    ensures DeliveredAt(s, es, b, id) == DeliveredAt(s, es, a, id) + received
    ensures Exchange(s, es, b) == InsertTrades(Exchange(s, es, a), received)
  {
    received := Stream(s, es, a, b);
    SubscriberGetsStream(s, es, a, b, id);
    StreamIsWritten(s, es, a, b);
  }

  // ---- objects

  class Program {
    const host: Host
    const manager: C.Manager
    ghost const start: State
    ghost var trace: seq<Event>

    /** The controller and the control service share no object. */
    ghost predicate Apart()
      reads this, host, manager
    {
      this !in host.Repr && manager !in host.Repr && forall i <- manager.sessions :: manager.sessions[i] !in host.Repr
    }

    ghost predicate Valid()
      reads this, host, host.Repr, manager, manager.sessions.Values
    {
      && Apart() && host.Valid() && manager.Valid() && |host.start.sessions| == |start.desk.sessions|
      && View() == At(start, trace, |trace|)
    }

    ghost function View(): State
      requires host.Valid()
      reads this, host, host.Repr, manager, manager.sessions.Values
    {
      State(host.controller.View(), manager.View())
    }

    constructor Over(host: Host, manager: C.Manager, ghost start: State)
      ensures this.host == host && this.manager == manager && this.start == start && trace == []
    {
      this.host, this.manager := host, manager;
      this.start := start;
      trace := [];
    }

    static method Create(accounts: Limits, users: Limits, sources: nat, table: Table, rows: seq<M.LoadedRow>)
      returns (p: Program)
      ensures p.Valid() && Starts(p.start) && p.trace == []
      ensures p.start.desk == M.Initial(accounts, users, sources, table, rows)
    {
      var h := new Host(accounts, users, sources, table, rows);
      label Hosted:
      var m := new C.Manager();
      h.Kept@Hosted();
      label Managed:
      p := new Program.Over(h, m, State(M.Initial(accounts, users, sources, table, rows), C.START));
      h.Kept@Managed();
      m.Kept@Managed();
      InitialOk(accounts, users, sources, table, rows);
    }

    /** Hands the trades to the control service, one by one. */
    method Publish(trades: seq<Trade>)
      requires manager.Valid()
      modifies manager.sessions.Values
      ensures manager.Valid() && manager.View() == PublishAll(old(manager.View()), trades)
    {
      for i := 0 to |trades|
        invariant manager.Valid() && manager.View() == PublishAll(old(manager.View()), trades[..i])
      {
        assert trades[..i + 1][..i] == trades[..i];
        manager.OnTrade(trades[i]);
      }
      assert trades[..|trades|] == trades;
    }

    /** A gateway event goes to the controller, and the trades that it hands on to the control service. */
    method OnGateway(event: M.Event) returns (out: seq<Message>)
      requires host.Valid() && manager.Valid() && Apart() && FromSource(event, |host.start.sessions|)
      modifies host, host.Repr, manager.sessions.Values
      ensures host.Valid() && manager.Valid() && Apart()
      ensures host.controller.View() == M.Next(old(host.controller.View()), event)
      ensures manager.View() == PublishAll(old(manager.View()), M.Handed(old(host.controller.View()), event))
      ensures Batch(out, M.Sends(old(host.controller.View()), event))
    {
      var trades;
      out, trades := host.Dispatch(event);
      manager.Kept();
      label Dispatched:
      Publish(trades);
      host.Kept@Dispatched();
    }

    /** A timer drives both. */
    method OnTick(now: int) returns (out: seq<Message>)
      requires host.Valid() && manager.Valid() && Apart()
      modifies host, host.Repr, manager
      ensures host.Valid() && manager.Valid() && Apart()
      ensures host.controller.View() == M.Next(old(host.controller.View()), M.Timer)
      ensures manager.View() == C.Step(old(manager.View()), C.Timer(now))
      ensures Batch(out, M.Sends(old(host.controller.View()), M.Timer))
    {
      manager.OnTimer(now);
      host.Kept();
      label Managed:
      var sent, _ := host.Dispatch(M.Timer);
      manager.Kept@Managed();
      out := sent;
    }

    // ---- connections of the control service

    method OnConnect()
      requires host.Valid() && manager.Valid() && Apart()
      modifies manager
      ensures host.Valid() && manager.Valid() && Apart() && host.controller.View() == old(host.controller.View())
      ensures manager.View() == C.Step(old(manager.View()), C.Connect)
    {
      manager.OnConnect();
      host.Kept();
    }

    method OnUpgrade(id: nat)
      requires host.Valid() && manager.Valid() && Apart() && id in manager.sessions
      modifies manager, manager.sessions[id]
      ensures host.Valid() && manager.Valid() && Apart() && host.controller.View() == old(host.controller.View())
      ensures manager.View() == C.Step(old(manager.View()), C.Upgrade(id))
    {
      assert manager.sessions[id] !in host.Repr;
      manager.OnUpgrade(id);
      host.Kept();
    }

    method OnDisconnect(id: nat)
      requires host.Valid() && manager.Valid() && Apart() && id in manager.sessions
      modifies manager, manager.sessions[id]
      ensures host.Valid() && manager.Valid() && Apart() && host.controller.View() == old(host.controller.View())
      ensures manager.View() == C.Step(old(manager.View()), C.Disconnect(id))
    {
      assert manager.sessions[id] !in host.Repr;
      manager.OnDisconnect(id);
      host.Kept();
    }

    /** Events that can occur: from known sources, and of sessions that are held. */
    ghost predicate Occurs(e: Event)
      reads manager
    {
      match e
      case Gateway(event) => FromSource(event, |start.desk.sessions|)
      case Upgrade(id) => id in manager.sessions
      case Disconnect(id) => id in manager.sessions
      case _ => true
    }

    method Handle(e: Event)
      requires host.Valid() && manager.Valid() && Apart() && |host.start.sessions| == |start.desk.sessions| && Occurs(e)
      modifies host, host.Repr, manager, manager.sessions.Values
      ensures host.Valid() && manager.Valid() && Apart() && View() == Next(old(View()), e)
    {
      match e
      case Gateway(event) => var _ := OnGateway(event);
      case Tick(now) => var _ := OnTick(now);
      case Connect => OnConnect();
      case Upgrade(id) => OnUpgrade(id);
      case Disconnect(id) => OnDisconnect(id);
    }

    /** Any program object stays in the state that the system reaches on its trace of events. */
    method Dispatch(e: Event)
      requires Valid() && Occurs(e)
      modifies this, host, host.Repr, manager, manager.sessions.Values
      ensures Valid() && trace == old(trace) + [e] && View() == Next(old(View()), e)
    {
      AtGrows(start, trace, e);
      Handle(e);
      Record(e);
    }

    ghost method Record(e: Event)
      requires host.Valid() && manager.Valid() && Apart()
      modifies this
      ensures trace == old(trace) + [e] && host.Valid() && manager.Valid() && Apart() && View() == old(View())
    {
      trace := trace + [e];
      host.Kept();
      manager.Kept();
    }
  }
}
