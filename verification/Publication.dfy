/** What subscribers end up knowing: no update is lost, and a reconnect is followed by a full snapshot. */
module Publication {
  import opened Types
  import opened Positions
  import opened Registries
  import opened Books
  import opened Machine
  import opened Reachability
  import opened Gating

  predicate Addresses(x: Send, kind: Kind, name: string, id: nat) {
    x.kind == kind && x.owner == name && id in x.limits
  }

  /** The published long and short are those of the position. */
  ghost predicate Reports(x: Send, id: nat, p: PositionState)
    requires id in x.limits
  {
    x.limits[id].longPosition == p.longPosition && x.limits[id].shortPosition == p.shortPosition
  }

  ghost predicate HasPosition(s: State, kind: Kind, name: string, id: nat) {
    name in BookOf(s, kind).owners && id in BookOf(s, kind).owners[name]
  }

  ghost function PositionAt(s: State, kind: Kind, name: string, id: nat): PositionState
    requires HasPosition(s, kind, name, id)
  {
    BookOf(s, kind).owners[name][id]
  }

  ghost predicate Waiting(s: State, kind: Kind, name: string, id: nat) {
    id in DirtyOf(BookOf(s, kind), name)
  }

  ghost predicate AnyReady(s: State) {
    exists k :: 0 <= k < |s.sessions| && s.sessions[k].ready
  }

  // ---- one step

  lemma TradeIntoSteps(r: RegistryState, b: BookState, owner: string, update: TradeUpdate, name: string, id: nat)
    requires name in b.owners && id in b.owners[name]
    ensures var b' := TradeInto(r, b, owner, update).1;
            && name in b'.owners && id in b'.owners[name]
            && (b'.owners[name][id] == b.owners[name][id] || id in DirtyOf(b', name))
            && DirtyOf(b, name) <= DirtyOf(b', name)
  {
  }

  /** A position either stays as it was or is waiting, and does not stop waiting. */
  ghost predicate Quiet(s: State, t: State, kind: Kind, name: string, id: nat)
    requires HasPosition(s, kind, name, id)
  {
    && HasPosition(t, kind, name, id)
    && (PositionAt(t, kind, name, id) == PositionAt(s, kind, name, id) || Waiting(t, kind, name, id))
    && (Waiting(s, kind, name, id) ==> Waiting(t, kind, name, id))
  }

  lemma QuietTrade(s: State, info: MessageInfo, update: TradeUpdate, kind: Kind, name: string, id: nat)
    requires HasPosition(s, kind, name, id)
    ensures Quiet(s, OnTraded(s, info, update), kind, name, id)
  {
    match kind
    case ByAccount => TradeIntoSteps(s.registry, s.accounts, update.account, update, name, id);
    case ByUser => TradeIntoSteps(TradeInto(s.registry, s.accounts, update.account, update).0, s.users, update.user,
                                  update, name, id);
  }

  lemma QuietDownload(s: State, info: MessageInfo, account: string, kind: Kind, name: string, id: nat)
    requires HasPosition(s, kind, name, id)
    ensures Quiet(s, OnDownloadEnd(s, info, account), kind, name, id)
  {
  }

  lemma QuietReady(s: State, info: MessageInfo, kind: Kind, name: string, id: nat)
    requires HasPosition(s, kind, name, id)
    ensures Quiet(s, OnReady(s, info), kind, name, id)
  {
  }

  lemma QuietReference(s: State, key: InstrumentKey, minTradeVol: Number, kind: Kind, name: string, id: nat)
    requires HasPosition(s, kind, name, id)
    ensures Quiet(s, OnReferenceData(s, key, minTradeVol), kind, name, id)
  {
  }

  lemma QuietStep(s: State, e: Event, kind: Kind, name: string, id: nat)
    requires !e.Timer? && HasPosition(s, kind, name, id)
    ensures Quiet(s, Next(s, e), kind, name, id)
  {
    match e
    case DownloadEnd(info, account) => QuietDownload(s, info, account, kind, name, id);
    case Ready(info) => QuietReady(s, info, kind, name, id);
    case ReferenceData(key, minTradeVol) => QuietReference(s, key, minTradeVol, kind, name, id);
    case Traded(info, update) => QuietTrade(s, info, update, kind, name, id);
    case _ =>
  }

  /** A source is sent a position exactly when it is waiting, and what it is sent is the position as it stands. */
  lemma SourceSendsWaiting(s: State, source: nat, kind: Kind, name: string, id: nat)
    requires Ok(s) && HasPosition(s, kind, name, id) && source < |s.sessions|
    ensures Waiting(s, kind, name, id) ==> exists x <- SourceSends(s, source) :: Addresses(x, kind, name, id)
    ensures forall x <- SourceSends(s, source) | Addresses(x, kind, name, id) ::
              Waiting(s, kind, name, id) && Reports(x, id, PositionAt(s, kind, name, id))
  {
    if Waiting(s, kind, name, id) {
      var out := Outgoing(BookOf(s, kind), s.registry.instruments, name);
      assert PositionOk(BookOf(s, kind), s.registry, name, id);
      assert id in out;
      var x := Send(source, kind, name, out, s.sessions[source].sessionId, s.sessions[source].seqno);
      assert x in BookSends(s, kind, source);
      assert Addresses(x, kind, name, id);
    }
  }

  /** A timer changes no position; with a ready source it sends exactly what was waiting, otherwise nothing happens. */
  lemma TimerStep(s: State, kind: Kind, name: string, id: nat)
    requires Ok(s) && HasPosition(s, kind, name, id)
    ensures HasPosition(Next(s, Timer), kind, name, id)
    ensures PositionAt(Next(s, Timer), kind, name, id) == PositionAt(s, kind, name, id)
    ensures !AnyReady(s) ==> Next(s, Timer) == s && Sends(s, Timer) == {}
    ensures AnyReady(s) ==> !Waiting(Next(s, Timer), kind, name, id)
    ensures AnyReady(s) && Waiting(s, kind, name, id) ==>
              exists x <- Sends(s, Timer) :: Addresses(x, kind, name, id)
    ensures forall x <- Sends(s, Timer) | Addresses(x, kind, name, id) ::
              Waiting(s, kind, name, id) && Reports(x, id, PositionAt(s, kind, name, id))
  {
    FirstReadyGetsAll(s, 0);
    var source := FirstReady(s, 0);
    if source < |s.sessions| {
      SourceSendsWaiting(s, source, kind, name, id);
      assert Next(s, Timer) == DrainedState(s);
    }
  }

  /** A timer with a ready source sends what waits, as it stands. */
  lemma WaitingIsSent(s: State, es: seq<Event>, t: nat, kind: Kind, name: string, id: nat) returns (x: Send)
    requires t < |es| && es[t].Timer? && Ok(At(s, es, t)) && AnyReady(At(s, es, t))
    requires HasPosition(At(s, es, t), kind, name, id) && Waiting(At(s, es, t), kind, name, id)
    ensures x in SendsAt(s, es, t) && Addresses(x, kind, name, id)
    ensures Reports(x, id, PositionAt(At(s, es, t), kind, name, id))
  {
    TimerStep(At(s, es, t), kind, name, id);
    x :| x in Sends(At(s, es, t), Timer) && Addresses(x, kind, name, id);
  }

  /** A waiting position is sent to a ready source exactly when no source before it is ready. */
  lemma SentToExactly(s: State, kind: Kind, name: string, id: nat, source: nat)
    requires Ok(s) && HasPosition(s, kind, name, id) && Waiting(s, kind, name, id)
    requires source < |s.sessions| && s.sessions[source].ready
    ensures (exists x <- Sends(s, Timer) :: x.source == source && Addresses(x, kind, name, id))
            <==> forall k | 0 <= k < source :: !s.sessions[k].ready
  {
    FirstReadyGetsAll(s, 0);
    var r := FirstReady(s, 0);
    SourceSendsWaiting(s, r, kind, name, id);
  }

  // ---- no lost update

  /** The latest message about a position before event `i` is `x`, sent while handling event `k`. */
  ghost predicate LastSent(s: State, es: seq<Event>, i: nat, kind: Kind, name: string, id: nat, k: nat, x: Send) {
    && k < i <= |es|
    && x in SendsAt(s, es, k) && Addresses(x, kind, name, id)
    && forall j: nat, y: Send | k < j < i && y in SendsAt(s, es, j) :: !Addresses(y, kind, name, id)
  }

  lemma SentMeansHeld(s: State, e: Event, x: Send, kind: Kind, name: string, id: nat)
    requires x in Sends(s, e) && Addresses(x, kind, name, id)
    ensures e.Timer? && HasPosition(s, kind, name, id)
  {
    FirstReadyGetsAll(s, 0);
  }

  /** In every reachable state, whatever was last sent about a position is current, or the position is waiting. */
  lemma {:induction false} NoLostUpdate(s: State, es: seq<Event>, i: nat, kind: Kind, name: string, id: nat, k: nat, x: Send)
    requires Ok(s) && LastSent(s, es, i, kind, name, id, k, x)
    ensures HasPosition(At(s, es, i), kind, name, id)
    ensures Reports(x, id, PositionAt(At(s, es, i), kind, name, id)) || Waiting(At(s, es, i), kind, name, id)
    decreases i
  {
    RunOk(s, es, i - 1);
    var t := At(s, es, i - 1);
    if k == i - 1 {
      SentMeansHeld(t, es[k], x, kind, name, id);
      TimerStep(t, kind, name, id);
    } else {
      NoLostUpdate(s, es, i - 1, kind, name, id, k, x);
      if es[i - 1].Timer? {
        TimerStep(t, kind, name, id);
        assert forall y <- SendsAt(s, es, i - 1) :: !Addresses(y, kind, name, id);
      } else {
        QuietStep(t, es[i - 1], kind, name, id);
      }
    }
  }

  /** Event `e` counts a trade for this owner and instrument. */
  ghost predicate TradesFor(s: State, e: Event, kind: Kind, name: string, key: InstrumentKey) {
    && e.Traded? && s.lastTime < e.update.createTime && e.update.key == key
    && name in BookOf(s, kind).owners && Party(e.update, kind) == name
  }

  ghost predicate Held(s: State, kind: Kind, name: string, key: InstrumentKey) {
    key in s.registry.lookup && HasPosition(s, kind, name, s.registry.lookup[key])
  }

  ghost predicate EverSent(s: State, es: seq<Event>, i: nat, kind: Kind, name: string, id: nat) {
    exists k: nat, x: Send :: LastSent(s, es, i, kind, name, id, k, x)
  }

  lemma StillSent(s: State, es: seq<Event>, i: nat, kind: Kind, name: string, id: nat)
    requires 0 < i <= |es|
    requires EverSent(s, es, i - 1, kind, name, id) || exists y <- SendsAt(s, es, i - 1) :: Addresses(y, kind, name, id)
    ensures EverSent(s, es, i, kind, name, id)
  {
    if y :| y in SendsAt(s, es, i - 1) && Addresses(y, kind, name, id) {
      assert LastSent(s, es, i, kind, name, id, i - 1, y);
    } else {
      var k: nat, x: Send :| LastSent(s, es, i - 1, kind, name, id, k, x);
      assert LastSent(s, es, i, kind, name, id, k, x);
    }
  }

  lemma TradeIntoMarks(r: RegistryState, b: BookState, name: string, update: TradeUpdate)
    requires name in b.owners
    ensures var (r', b') := TradeInto(r, b, name, update);
            var id := r'.lookup[update.key];
            name in b'.owners && id in b'.owners[name] && id in DirtyOf(b', name)
  {
  }

  lemma AccountTradeMarks(s: State, e: Event, name: string, key: InstrumentKey)
    requires Ok(s) && TradesFor(s, e, ByAccount, name, key)
    ensures Held(Next(s, e), ByAccount, name, key)
    ensures Waiting(Next(s, e), ByAccount, name, Next(s, e).registry.lookup[key])
  {
    TradeIntoMarks(s.registry, s.accounts, name, e.update);
    InternKeepsBijection(s.registry, key);
    var (r, _) := TradeInto(s.registry, s.accounts, name, e.update);
    var (r', _) := TradeInto(r, s.users, e.update.user, e.update);
    assert r' == r;
  }

  lemma UserTradeMarks(s: State, e: Event, name: string, key: InstrumentKey)
    requires TradesFor(s, e, ByUser, name, key)
    ensures Held(Next(s, e), ByUser, name, key)
    ensures Waiting(Next(s, e), ByUser, name, Next(s, e).registry.lookup[key])
  {
    var (r, _) := TradeInto(s.registry, s.accounts, e.update.account, e.update);
    TradeIntoMarks(r, s.users, name, e.update);
  }

  lemma TradeMarks(s: State, e: Event, kind: Kind, name: string, key: InstrumentKey)
    requires Ok(s) && TradesFor(s, e, kind, name, key)
    ensures Held(Next(s, e), kind, name, key)
    ensures Waiting(Next(s, e), kind, name, Next(s, e).registry.lookup[key])
  {
    match kind
    case ByAccount => AccountTradeMarks(s, e, name, key);
    case ByUser => UserTradeMarks(s, e, name, key);
  }

  lemma HeldStep(s: State, e: Event, kind: Kind, name: string, key: InstrumentKey)
    requires Ok(s) && Held(s, kind, name, key)
    ensures Held(Next(s, e), kind, name, key)
    ensures Next(s, e).registry.lookup[key] == s.registry.lookup[key]
  {
    NextOk(s, e);
  }

  /** A position that a trade has reached is waiting, or has been sent. */
  lemma {:induction false} TradedIsWaitingOrSent(s: State, es: seq<Event>, k: nat, i: nat, kind: Kind, name: string,
                                                 key: InstrumentKey)
    requires Ok(s) && k < i <= |es| && TradesFor(At(s, es, k), es[k], kind, name, key)
    ensures Held(At(s, es, i), kind, name, key)
    ensures var id := At(s, es, i).registry.lookup[key];
            Waiting(At(s, es, i), kind, name, id) || EverSent(s, es, i, kind, name, id)
    decreases i
  {
    RunOk(s, es, i - 1);
    var t := At(s, es, i - 1);
    if k == i - 1 {
      TradeMarks(t, es[k], kind, name, key);
    } else {
      TradedIsWaitingOrSent(s, es, k, i - 1, kind, name, key);
      HeldStep(t, es[i - 1], kind, name, key);
      var id := t.registry.lookup[key];
      if es[i - 1].Timer? {
        TimerStep(t, kind, name, id);
      } else {
        QuietStep(t, es[i - 1], kind, name, id);
      }
      if !Waiting(At(s, es, i), kind, name, id) {
        StillSent(s, es, i, kind, name, id);
      }
    }
  }

  /** Right after a timer with a ready source, the last message about every position is current. */
  lemma LastSentIsCurrent(s: State, es: seq<Event>, i: nat, kind: Kind, name: string, id: nat, k: nat, x: Send)
    requires Ok(s) && 0 < i <= |es| && es[i - 1].Timer? && AnyReady(At(s, es, i - 1))
    requires LastSent(s, es, i, kind, name, id, k, x)
    ensures HasPosition(At(s, es, i), kind, name, id)
    ensures Reports(x, id, PositionAt(At(s, es, i), kind, name, id))
  {
    RunOk(s, es, i - 1);
    NoLostUpdate(s, es, i, kind, name, id, k, x);
    TimerKeepsKeys(At(s, es, i - 1), kind, name, id);
    TimerStep(At(s, es, i - 1), kind, name, id);
  }

  /** Right after a timer with a ready source, every position that a trade has reached has been sent as it stands. */
  lemma TradedIsSent(s: State, es: seq<Event>, k: nat, i: nat, kind: Kind, name: string, key: InstrumentKey)
    requires Ok(s) && k < i <= |es| && TradesFor(At(s, es, k), es[k], kind, name, key)
    requires es[i - 1].Timer? && AnyReady(At(s, es, i - 1))
    ensures Held(At(s, es, i), kind, name, key)
    ensures var id := At(s, es, i).registry.lookup[key];
            exists j: nat, x: Send :: LastSent(s, es, i, kind, name, id, j, x)
                                      && Reports(x, id, PositionAt(At(s, es, i), kind, name, id))
  {
    RunOk(s, es, i - 1);
    TradedIsWaitingOrSent(s, es, k, i, kind, name, key);
    var id := At(s, es, i).registry.lookup[key];
    TimerKeepsKeys(At(s, es, i - 1), kind, name, id);
    TimerStep(At(s, es, i - 1), kind, name, id);
    var j: nat, x: Send :| LastSent(s, es, i, kind, name, id, j, x);
    LastSentIsCurrent(s, es, i, kind, name, id, j, x);
  }

  lemma TimerKeepsKeys(s: State, kind: Kind, name: string, id: nat)
    ensures HasPosition(Next(s, Timer), kind, name, id) <==> HasPosition(s, kind, name, id)
  {
    FirstReadyGetsAll(s, 0);
  }
}
