/** What each event does, exactly: what becomes known, held, waiting, written and handed on, and nothing more. */
module Effects {
  import opened Types
  import opened Registries
  import opened Books
  import opened Ledger
  import opened Machine
  import opened Reachability
  import opened Gating
  import opened Publication
  import opened Snapshots

  // ---- trades

  /** An update after the loaded time is written and handed on; any other changes nothing but the stamp. */
  lemma TradedExactly(s: State, info: MessageInfo, update: TradeUpdate)
    ensures var e := Traded(info, update);
            var t := Next(s, e);
            if s.lastTime < update.createTime
            then Handed(s, e) == TradesOf(update) && t.table == InsertTrades(s.table, TradesOf(update))
            else
              && Handed(s, e) == [] && t.table == s.table
              && t.registry == s.registry && t.accounts == s.accounts && t.users == s.users
  {
  }

  /** Each fill of an accepted update is handed on with the columns of the update and of the fill. */
  lemma HandedFields(s: State, info: MessageInfo, update: TradeUpdate, j: nat)
    requires s.lastTime < update.createTime && j < |update.fills|
    ensures var trades, item := Handed(s, Traded(info, update)), update.fills[j];
            && |trades| == |update.fills|
            && trades[j].user == update.user && trades[j].strategyId == update.strategyId
            && trades[j].account == update.account && trades[j].key == update.key && trades[j].side == update.side
            && trades[j].time == update.createTime
            && trades[j].externalAccount == update.externalAccount
            && trades[j].externalOrderId == update.externalOrderId
            && trades[j].quantity == item.quantity && trades[j].price == item.price && trades[j].tradeId == item.tradeId
  {
  }

  /** The row of the last fill of an update with a given trade id. */
  lemma WrittenFields(s: State, info: MessageInfo, update: TradeUpdate, j: nat)
    requires s.lastTime < update.createTime && j < |update.fills|
    requires forall i | j < i < |update.fills| :: update.fills[i].tradeId != update.fills[j].tradeId
    ensures var table, item := Next(s, Traded(info, update)).table, update.fills[j];
            var k := PrimaryKey(user := update.user, strategyId := update.strategyId, account := update.account,
                                key := update.key, time := update.createTime, tradeId := item.tradeId,
                                rowType := EXCHANGE);
            && k in table
            && table[k].side == update.side && table[k].quantity == item.quantity && table[k].price == item.price
            && table[k].externalAccount == update.externalAccount
            && table[k].externalOrderId == update.externalOrderId && table[k].reason == ""
  {
    var trades := TradesOf(update);
    assert trades[j] == TradeOf(update, update.fills[j]);
    LastWriteWins(s.table, trades, TradeKey(trades[j]));
  }

  // ---- what is known

  /** The pair that an event looks up. */
  ghost predicate LooksUp(s: State, e: Event, key: InstrumentKey) {
    || (e.ReferenceData? && e.key == key)
    || (e.Traded? && s.lastTime < e.update.createTime && e.update.key == key
        && (e.update.account in s.accounts.owners || e.update.user in s.users.owners))
  }

  lemma TradeIntoKnows(r: RegistryState, b: BookState, owner: string, update: TradeUpdate, key: InstrumentKey)
    requires Bijective(r)
    ensures Bijective(TradeInto(r, b, owner, update).0)
    ensures key in TradeInto(r, b, owner, update).0.lookup <==>
              key in r.lookup || (owner in b.owners && update.key == key)
  {
    InternKeepsBijection(r, update.key);
  }

  lemma TradedKnows(s: State, info: MessageInfo, update: TradeUpdate, key: InstrumentKey)
    requires Ok(s)
    ensures key in OnTraded(s, info, update).registry.lookup <==>
              key in s.registry.lookup || LooksUp(s, Traded(info, update), key)
  {
    TradeIntoKnows(s.registry, s.accounts, update.account, update, key);
    TradeIntoKnows(TradeInto(s.registry, s.accounts, update.account, update).0, s.users, update.user, update, key);
  }

  lemma TimerKnows(s: State)
    ensures Next(s, Timer).registry == s.registry
  {
    FirstReadyGetsAll(s, 0);
  }

  lemma SessionKnows(s: State, e: Event)
    requires !e.Timer? && !e.Traded? && !e.ReferenceData?
    ensures Next(s, e).registry == s.registry
  {
  }

  lemma ReferenceKnows(s: State, newKey: InstrumentKey, minTradeVol: Number, key: InstrumentKey)
    requires Ok(s)
    ensures key in OnReferenceData(s, newKey, minTradeVol).registry.lookup <==> key in s.registry.lookup || newKey == key
  {
    InternKeepsBijection(s.registry, newKey);
  }

  /** An instrument becomes known exactly by reference data, or by an accepted trade of a configured account or user. */
  lemma KnownExactly(s: State, e: Event, key: InstrumentKey)
    requires Ok(s)
    ensures key in Next(s, e).registry.lookup <==> key in s.registry.lookup || LooksUp(s, e, key)
  {
    match e
    case Timer => TimerKnows(s);
    case ReferenceData(newKey, minTradeVol) => ReferenceKnows(s, newKey, minTradeVol, key);
    case Traded(info, update) => TradedKnows(s, info, update, key);
    case _ => SessionKnows(s, e);
  }

  // ---- what is held

  ghost predicate HeldIn(r: RegistryState, b: BookState, name: string, key: InstrumentKey) {
    key in r.lookup && name in b.owners && r.lookup[key] in b.owners[name]
  }

  lemma InternHeld(r: RegistryState, b: BookState, interned: InstrumentKey, name: string, key: InstrumentKey)
    requires Bijective(r) && BookOk(b, r)
    ensures HeldIn(Intern(r, interned), b, name, key) <==> HeldIn(r, b, name, key)
  {
    InternKeepsBijection(r, interned);
    if HeldIn(Intern(r, interned), b, name, key) {
      assert PositionOk(b, r, name, Intern(r, interned).lookup[key]);
    }
  }

  lemma TradeBookHeld(r: RegistryState, b: BookState, owner: string, update: TradeUpdate, name: string,
                      key: InstrumentKey)
    requires Bijective(r) && update.key in r.lookup && owner in b.owners
    ensures HeldIn(r, TradeBook(b, owner, r.lookup[update.key], update), name, key) <==>
              HeldIn(r, b, name, key) || (owner == name && update.key == key)
  {
  }

  lemma TradeIntoHeld(r: RegistryState, b: BookState, owner: string, update: TradeUpdate, name: string,
                      key: InstrumentKey)
    requires Bijective(r) && BookOk(b, r)
    ensures var (r', b') := TradeInto(r, b, owner, update);
            HeldIn(r', b', name, key) <==>
              HeldIn(r, b, name, key) || (owner == name && name in b.owners && update.key == key)
  {
    if owner in b.owners {
      InternKeepsBijection(r, update.key);
      InternHeld(r, b, update.key, name, key);
      TradeBookHeld(Intern(r, update.key), b, owner, update, name, key);
    }
  }

  /** Looking an instrument up for another book changes nothing here. */
  lemma OtherTradeHeld(r: RegistryState, b: BookState, other: BookState, owner: string, update: TradeUpdate,
                       name: string, key: InstrumentKey)
    requires Bijective(r) && BookOk(b, r)
    ensures HeldIn(TradeInto(r, other, owner, update).0, b, name, key) <==> HeldIn(r, b, name, key)
  {
    if owner in other.owners {
      InternHeld(r, b, update.key, name, key);
    }
  }

  lemma AccountTradedHeld(s: State, info: MessageInfo, update: TradeUpdate, name: string, key: InstrumentKey)
    requires Ok(s) && s.lastTime < update.createTime
    ensures Held(OnTraded(s, info, update), ByAccount, name, key) <==>
              Held(s, ByAccount, name, key) || TradesFor(s, Traded(info, update), ByAccount, name, key)
  {
    var (r, accounts) := TradeInto(s.registry, s.accounts, update.account, update);
    TradeIntoOk(s.registry, s.accounts, update.account, update);
    TradeIntoHeld(s.registry, s.accounts, update.account, update, name, key);
    OtherTradeHeld(r, accounts, s.users, update.user, update, name, key);
    var t := OnTraded(s, info, update);
    assert Held(t, ByAccount, name, key) <==> HeldIn(t.registry, t.accounts, name, key);
  }

  lemma UserTradedHeld(s: State, info: MessageInfo, update: TradeUpdate, name: string, key: InstrumentKey)
    requires Ok(s) && s.lastTime < update.createTime
    ensures Held(OnTraded(s, info, update), ByUser, name, key) <==>
              Held(s, ByUser, name, key) || TradesFor(s, Traded(info, update), ByUser, name, key)
  {
    var (r, accounts) := TradeInto(s.registry, s.accounts, update.account, update);
    TradeIntoOk(s.registry, s.accounts, update.account, update);
    BookOkExtends(s.users, s.registry, r);
    OtherTradeHeld(s.registry, s.users, s.accounts, update.account, update, name, key);
    TradeIntoHeld(r, s.users, update.user, update, name, key);
    var t := OnTraded(s, info, update);
    assert Held(t, ByUser, name, key) <==> HeldIn(t.registry, t.users, name, key);
  }

  /** Reference data creates a position for this owner and instrument. */
  ghost predicate Creates(s: State, e: Event, kind: Kind, name: string, key: InstrumentKey) {
    e.ReferenceData? && e.key == key && !e.minTradeVol.NaN? && name in BookOf(s, kind).owners
  }

  lemma ReferenceBookHeld(r: RegistryState, b: BookState, newKey: InstrumentKey, name: string, key: InstrumentKey)
    requires Bijective(r) && newKey in r.lookup
    ensures HeldIn(r, ReferenceBook(b, r.lookup[newKey], newKey), name, key) <==>
              HeldIn(r, b, name, key) || (name in b.owners && newKey == key)
  {
  }

  lemma ReferenceHeld(s: State, newKey: InstrumentKey, minTradeVol: Number, kind: Kind, name: string, key: InstrumentKey)
    requires Ok(s)
    ensures Held(OnReferenceData(s, newKey, minTradeVol), kind, name, key) <==>
              Held(s, kind, name, key) || Creates(s, ReferenceData(newKey, minTradeVol), kind, name, key)
  {
    InternKeepsBijection(s.registry, newKey);
    InternHeld(s.registry, BookOf(s, kind), newKey, name, key);
    ReferenceBookHeld(Intern(s.registry, newKey), BookOf(s, kind), newKey, name, key);
  }

  lemma TimerHeld(s: State, kind: Kind, name: string, key: InstrumentKey)
    ensures Held(Next(s, Timer), kind, name, key) <==> Held(s, kind, name, key)
  {
    FirstReadyGetsAll(s, 0);
  }

  lemma SessionHeld(s: State, e: Event, kind: Kind, name: string, key: InstrumentKey)
    requires !e.Timer? && !e.Traded? && !e.ReferenceData?
    ensures Held(Next(s, e), kind, name, key) <==> Held(s, kind, name, key)
  {
  }

  /**
   A position comes into being exactly by an accepted trade of its owner in its instrument, or, for every configured
   owner, by reference data with a trade volume; none ever goes.
   */
  lemma HeldExactly(s: State, e: Event, kind: Kind, name: string, key: InstrumentKey)
    requires Ok(s)
    ensures Held(Next(s, e), kind, name, key) <==>
              Held(s, kind, name, key) || TradesFor(s, e, kind, name, key) || Creates(s, e, kind, name, key)
  {
    match e
    case Traded(info, update) =>
      if s.lastTime < update.createTime {
        match kind
        case ByAccount => AccountTradedHeld(s, info, update, name, key);
        case ByUser => UserTradedHeld(s, info, update, name, key);
      }
    case ReferenceData(newKey, minTradeVol) => ReferenceHeld(s, newKey, minTradeVol, kind, name, key);
    case Timer => TimerHeld(s, kind, name, key);
    case _ => SessionHeld(s, e, kind, name, key);
  }

  /** Once held, always held, under the same id. */
  lemma HeldUpTo(s: State, es: seq<Event>, i: nat, j: nat, kind: Kind, name: string, key: InstrumentKey)
    requires Ok(s) && i <= j <= |es| && Held(At(s, es, i), kind, name, key)
    ensures Held(At(s, es, j), kind, name, key)
    ensures At(s, es, j).registry.lookup[key] == At(s, es, i).registry.lookup[key]
  {
    RunGrows(s, es, i, j);
  }

  lemma CreatedAt(s: State, es: seq<Event>, k: nat, kind: Kind, name: string, key: InstrumentKey)
    requires Ok(s) && k < |es| && Creates(s, es[k], kind, name, key)
    ensures Held(At(s, es, k + 1), kind, name, key)
  {
    var t := At(s, es, k);
    RunOk(s, es, k);
    assert Creates(t, es[k], kind, name, key);
    HeldExactly(t, es[k], kind, name, key);
  }

  lemma ReferencedIsHeld(s: State, es: seq<Event>, k: nat, i: nat, kind: Kind, name: string, key: InstrumentKey)
    requires Ok(s) && k < i <= |es| && name in BookOf(s, kind).owners
    requires es[k].ReferenceData? && es[k].key == key && !es[k].minTradeVol.NaN?
    ensures Held(At(s, es, i), kind, name, key)
  {
    CreatedAt(s, es, k, kind, name, key);
    HeldUpTo(s, es, k + 1, i, kind, name, key);
  }

  /** Every instrument with reference data before Ready is in the first message to the source, for every user. */
  lemma ReferencedIsInSnapshot(s: State, es: seq<Event>, c: nat, r: nat, t: nat, k: nat, user: string, key: InstrumentKey)
    requires Ok(s) && Fresh(s) && |s.sessions| == 1 && FirstTimer(es, c, r, t) && k < r
    requires user in s.users.owners && es[k].ReferenceData? && es[k].key == key && !es[k].minTradeVol.NaN?
    ensures Held(At(s, es, r), ByUser, user, key)
    ensures Snapshot(s, es, t, ByUser, user, At(s, es, r).registry.lookup[key])
  {
    ReferencedIsHeld(s, es, k, r, ByUser, user, key);
    FullUserSnapshot(s, es, c, r, t, user, At(s, es, r).registry.lookup[key]);
  }

  // ---- what waits

  /** An event makes a position wait: a trade, the account's first download on a connection, or Ready for users. */
  ghost predicate Causes(s: State, e: Event, kind: Kind, name: string, id: nat) {
    match e
    case Traded(_, update) =>
      && TradesFor(s, e, kind, name, update.key)
      && update.key in Next(s, e).registry.lookup && Next(s, e).registry.lookup[update.key] == id
    case DownloadEnd(info, account) =>
      && kind == ByAccount && account == name && name != "" && id in s.registry.instruments
      && info.source < |s.sessions| && name !in s.sessions[info.source].latch
    case Ready(info) =>
      && kind == ByUser && name in s.users.owners && id in s.registry.instruments
      && info.source < |s.sessions| && !s.sessions[info.source].ready
    case _ => false
  }

  lemma TradeIntoWaits(r: RegistryState, b: BookState, owner: string, update: TradeUpdate, name: string, id: nat)
    requires Bijective(r)
    ensures var (r', b') := TradeInto(r, b, owner, update);
            id in DirtyOf(b', name) <==>
              id in DirtyOf(b, name) || (owner == name && name in b.owners && r'.lookup[update.key] == id)
  {
  }

  /** The id under which an accepted update of a configured owner is counted. */
  lemma TradedId(s: State, info: MessageInfo, update: TradeUpdate)
    requires Ok(s) && s.lastTime < update.createTime && update.account in s.accounts.owners
    ensures var r := Intern(s.registry, update.key); OnTraded(s, info, update).registry.lookup == r.lookup
  {
    InternKeepsBijection(s.registry, update.key);
  }

  lemma AccountTradedWaits(s: State, info: MessageInfo, update: TradeUpdate, name: string, id: nat)
    requires Ok(s) && s.lastTime < update.createTime
    ensures Waiting(OnTraded(s, info, update), ByAccount, name, id) <==>
              || Waiting(s, ByAccount, name, id)
              || (update.account == name && name in s.accounts.owners
                  && Intern(s.registry, update.key).lookup[update.key] == id)
  {
    TradeIntoWaits(s.registry, s.accounts, update.account, update, name, id);
  }

  lemma UserTradedWaits(s: State, info: MessageInfo, update: TradeUpdate, name: string, id: nat)
    requires Ok(s) && s.lastTime < update.createTime
    ensures Waiting(OnTraded(s, info, update), ByUser, name, id) <==>
              || Waiting(s, ByUser, name, id)
              || (update.user == name && name in s.users.owners
                  && update.key in OnTraded(s, info, update).registry.lookup
                  && OnTraded(s, info, update).registry.lookup[update.key] == id)
  {
    var (r, accounts) := TradeInto(s.registry, s.accounts, update.account, update);
    TradeIntoKnows(s.registry, s.accounts, update.account, update, update.key);
    TradeIntoWaits(r, s.users, update.user, update, name, id);
  }

  lemma AccountTradeCauses(s: State, info: MessageInfo, update: TradeUpdate, name: string, id: nat)
    requires Ok(s) && s.lastTime < update.createTime
    ensures Causes(s, Traded(info, update), ByAccount, name, id) <==>
              update.account == name && name in s.accounts.owners
              && Intern(s.registry, update.key).lookup[update.key] == id
  {
    if update.account in s.accounts.owners {
      TradedId(s, info, update);
    }
  }

  lemma UserTradeCauses(s: State, info: MessageInfo, update: TradeUpdate, name: string, id: nat)
    requires Ok(s) && s.lastTime < update.createTime
    ensures Causes(s, Traded(info, update), ByUser, name, id) <==>
              update.user == name && name in s.users.owners
              && update.key in OnTraded(s, info, update).registry.lookup
              && OnTraded(s, info, update).registry.lookup[update.key] == id
  {
  }

  lemma TradedWaits(s: State, info: MessageInfo, update: TradeUpdate, kind: Kind, name: string, id: nat)
    requires Ok(s)
    ensures Waiting(OnTraded(s, info, update), kind, name, id) <==>
              Waiting(s, kind, name, id) || Causes(s, Traded(info, update), kind, name, id)
  {
    if s.lastTime < update.createTime {
      match kind
      case ByAccount =>
        AccountTradedWaits(s, info, update, name, id);
        AccountTradeCauses(s, info, update, name, id);
      case ByUser =>
        UserTradedWaits(s, info, update, name, id);
        UserTradeCauses(s, info, update, name, id);
    }
  }

  lemma SessionWaits(s: State, e: Event, kind: Kind, name: string, id: nat)
    requires !e.Timer? && !e.Traded?
    ensures Waiting(Next(s, e), kind, name, id) <==> Waiting(s, kind, name, id) || Causes(s, e, kind, name, id)
  {
  }

  /** What waits after an event: what waited, unless a ready source was sent it, and what the event makes wait. */
  lemma WaitingExactly(s: State, e: Event, kind: Kind, name: string, id: nat)
    requires Ok(s) && name in BookOf(s, kind).owners
    ensures Waiting(Next(s, e), kind, name, id) <==>
              if e.Timer? then Waiting(s, kind, name, id) && !AnyReady(s)
              else Waiting(s, kind, name, id) || Causes(s, e, kind, name, id)
  {
    match e
    case Timer => FirstReadyGetsAll(s, 0);
    case Traded(info, update) => TradedWaits(s, info, update, kind, name, id);
    case _ => SessionWaits(s, e, kind, name, id);
  }

  ghost predicate CausesAt(s: State, es: seq<Event>, k: nat, kind: Kind, name: string, id: nat) {
    k < |es| && Causes(At(s, es, k), es[k], kind, name, id)
  }

  /** Event `k` is a timer that finds a ready source. */
  ghost predicate DrainsAt(s: State, es: seq<Event>, k: nat) {
    k < |es| && es[k].Timer? && AnyReady(At(s, es, k))
  }

  ghost function CausesIn(s: State, es: seq<Event>, kind: Kind, name: string, id: nat): (r: seq<bool>)
    ensures |r| == |es| && forall k | 0 <= k < |es| :: r[k] == CausesAt(s, es, k, kind, name, id)
  {
    seq(|es|, k requires 0 <= k < |es| => CausesAt(s, es, k, kind, name, id))
  }

  ghost function DrainsIn(s: State, es: seq<Event>): (r: seq<bool>)
    ensures |r| == |es| && forall k | 0 <= k < |es| :: r[k] == DrainsAt(s, es, k)
  {
    seq(|es|, k requires 0 <= k < |es| => DrainsAt(s, es, k))
  }

  /** Some event before `i` is a cause, and none since then is a drain. */
  ghost predicate Caused(causes: seq<bool>, drains: seq<bool>, i: nat) {
    |causes| == |drains| && exists k :: CausedBy(causes, drains, i, k)
  }

  ghost predicate CausedBy(causes: seq<bool>, drains: seq<bool>, i: nat, k: int)
    requires |causes| == |drains|
  {
    0 <= k < i <= |causes| && causes[k] && forall j | k < j < i :: !drains[j]
  }

  lemma CauseLasts(causes: seq<bool>, drains: seq<bool>, i: nat)
    requires |causes| == |drains| && i < |causes|
    requires causes[i] || (Caused(causes, drains, i) && !drains[i])
    ensures Caused(causes, drains, i + 1)
  {
    if causes[i] {
      assert CausedBy(causes, drains, i + 1, i);
    } else {
      var k :| CausedBy(causes, drains, i, k);
      assert CausedBy(causes, drains, i + 1, k);
    }
  }

  ghost predicate Explained(s: State, es: seq<Event>, i: nat, kind: Kind, name: string, id: nat)
    requires i <= |es|
  {
    Waiting(At(s, es, i), kind, name, id) ==> Caused(CausesIn(s, es, kind, name, id), DrainsIn(s, es), i)
  }

  lemma ExplainedStep(s: State, es: seq<Event>, i: nat, kind: Kind, name: string, id: nat)
    requires Ok(s) && i < |es| && name in BookOf(s, kind).owners && Explained(s, es, i, kind, name, id)
    ensures Explained(s, es, i + 1, kind, name, id)
  {
    RunOk(s, es, i);
    WaitingExactly(At(s, es, i), es[i], kind, name, id);
    if Waiting(At(s, es, i + 1), kind, name, id) {
      CauseLasts(CausesIn(s, es, kind, name, id), DrainsIn(s, es), i);
    }
  }

  lemma WaitingHasCause(s: State, es: seq<Event>, i: nat, kind: Kind, name: string, id: nat)
    requires Ok(s) && i <= |es| && name in BookOf(s, kind).owners && BookOf(s, kind).dirty == map[]
    ensures Explained(s, es, i, kind, name, id)
  {
    for k := 0 to i
      invariant Explained(s, es, k, kind, name, id)
    {
      ExplainedStep(s, es, k, kind, name, id);
    }
  }

  /**
   Nothing is sent without a cause: every entry of every message goes back to a trade, a first download or a Ready, since
   which no timer has found a ready source.
   */
  lemma SentHasCause(s: State, es: seq<Event>, i: nat, x: Send, id: nat) returns (k: nat)
    requires Ok(s) && i < |es| && x in SendsAt(s, es, i) && id in x.limits && BookOf(s, x.kind).dirty == map[]
    ensures k < i && CausesAt(s, es, k, x.kind, x.owner, id)
    ensures forall j: nat | k < j < i :: !DrainsAt(s, es, j)
  {
    RunOk(s, es, i);
    SentMeansHeld(At(s, es, i), es[i], x, x.kind, x.owner, id);
    TimerStep(At(s, es, i), x.kind, x.owner, id);
    WaitingHasCause(s, es, i, x.kind, x.owner, id);
    k :| CausedBy(CausesIn(s, es, x.kind, x.owner, id), DrainsIn(s, es), i, k);
  }
}
