/**
 The event-driven state machine: how each event changes instruments, books, source sessions and the trade table, and
 what each timer publishes.
 */
module Machine {
  import opened Types
  import opened Registries
  import opened Books
  import opened Ledger

  /** What is known of one source while it is connected. */
  datatype Session = Session(sessionId: nat, seqno: nat, ready: bool, latch: set<string>)

  const NO_SESSION := Session(0, 0, false, {})

  function NoSessions(sources: nat): seq<Session> {
    seq(sources, _ => NO_SESSION)
  }

  datatype State = State(
    registry: RegistryState,
    accounts: BookState,
    users: BookState,
    sessions: seq<Session>,
    lastTime: int,
    table: Table)

  datatype MessageInfo = MessageInfo(source: nat, sessionId: nat, seqno: nat)

  datatype Event =
    | Timer
    | Connected(source: nat)
    | Disconnected(source: nat)
    | DownloadBegin(info: MessageInfo, account: string)
    | DownloadEnd(info: MessageInfo, account: string)
    | Ready(info: MessageInfo)
    | ReferenceData(key: InstrumentKey, minTradeVol: Number)
    | Traded(info: MessageInfo, update: TradeUpdate)
    | Corrected(corrections: seq<Correction>, now: int)

  /** A database position row as handed to the controller at start-up. */
  datatype LoadedRow = LoadedRow(user: string, account: string, key: InstrumentKey, long: real, short: real, time: int)

  /** One message to a source: the published limits by instrument id. */
  datatype Send = Send(
    source: nat,
    kind: Kind,
    owner: string,
    limits: map<nat, RiskLimit>,
    sessionId: nat,
    seqno: nat)

  function BookOf(s: State, kind: Kind): BookState {
    match kind
    case ByAccount => s.accounts
    case ByUser => s.users
  }

  // ---- handlers

  function Stamp(s: State, info: MessageInfo): State {
    if info.source >= |s.sessions| then s
    else s.(sessions := s.sessions[info.source :=
                s.sessions[info.source].(sessionId := info.sessionId, seqno := info.seqno)])
  }

  function OnDisconnected(s: State, source: nat): State {
    if source >= |s.sessions| then s else s.(sessions := s.sessions[source := NO_SESSION])
  }

  /** The first download of an account on a connection schedules everything for that account. */
  function OnDownloadEnd(s: State, info: MessageInfo, account: string): State {
    var t := Stamp(s, info);
    if account == "" || info.source >= |t.sessions| || account in t.sessions[info.source].latch then t
    else
      var session := t.sessions[info.source];
      t.(sessions := t.sessions[info.source := session.(latch := session.latch + {account})],
         accounts := Mark(t.accounts, account, t.registry.instruments.Keys))
  }

  function OnReady(s: State, info: MessageInfo): State {
    var t := Stamp(s, info);
    if info.source >= |t.sessions| || t.sessions[info.source].ready then t
    else
      t.(sessions := t.sessions[info.source := t.sessions[info.source].(ready := true)],
         users := MarkOwners(t.users, t.registry.instruments.Keys))
  }

  function OnReferenceData(s: State, key: InstrumentKey, minTradeVol: Number): State {
    var t := s.(registry := Intern(s.registry, key));
    if minTradeVol.NaN? then t
    else
      var id := t.registry.lookup[key];
      t.(accounts := ReferenceBook(t.accounts, id, key), users := ReferenceBook(t.users, id, key))
  }

  /** An update reaches the owner it names, if there is one; only then is its instrument looked up. */
  function TradeInto(r: RegistryState, b: BookState, name: string, update: TradeUpdate): (RegistryState, BookState) {
    if name !in b.owners then (r, b)
    else
      var r' := Intern(r, update.key);
      (r', TradeBook(b, name, r'.lookup[update.key], update))
  }

  function TradeOf(update: TradeUpdate, item: Fill): Trade {
    Trade(update.user, update.strategyId, update.account, update.key, update.side, item.quantity, item.price,
          update.createTime, update.externalAccount, update.externalOrderId, item.tradeId)
  }

  function TradesOf(update: TradeUpdate): seq<Trade> {
    seq(|update.fills|, i requires 0 <= i < |update.fills| => TradeOf(update, update.fills[i]))
  }

  /** Trades up to the last loaded exchange time are dropped. */
  predicate Accepted(lastTime: int, update: TradeUpdate) {
    lastTime < update.createTime
  }

  function OnTraded(s: State, info: MessageInfo, update: TradeUpdate): State {
    var t := Stamp(s, info);
    if !Accepted(t.lastTime, update) then t
    else
      var (r, accounts) := TradeInto(t.registry, t.accounts, update.account, update);
      var (r', users) := TradeInto(r, t.users, update.user, update);
      t.(registry := r', accounts := accounts, users := users, table := InsertTrades(t.table, TradesOf(update)))
  }

  // ---- publishing

  /** The messages of one book to one source. */
  function BookSends(s: State, kind: Kind, source: nat): set<Send>
    requires source < |s.sessions|
  {
    set n | n in BookOf(s, kind).owners && Outgoing(BookOf(s, kind), s.registry.instruments, n) != map[] ::
      Send(source, kind, n, Outgoing(BookOf(s, kind), s.registry.instruments, n),
           s.sessions[source].sessionId, s.sessions[source].seqno)
  }

  function SourceSends(s: State, source: nat): (xs: set<Send>)
    requires source < |s.sessions|
    ensures forall x <- xs :: x.source == source
  {
    BookSends(s, ByAccount, source) + BookSends(s, ByUser, source)
  }

  function DrainedState(s: State): State {
    s.(accounts := Drained(s.accounts), users := Drained(s.users))
  }

  /** The state after publishing to the ready sources from `source` on. */
  function PublishFrom(s: State, source: nat): State
    decreases |s.sessions| - source
  {
    if source >= |s.sessions| then s
    else PublishFrom(if s.sessions[source].ready then DrainedState(s) else s, source + 1)
  }

  /** The messages sent by publishing to the ready sources from `source` on. */
  function SendsFrom(s: State, source: nat): set<Send>
    decreases |s.sessions| - source
  {
    if source >= |s.sessions| then {}
    else if !s.sessions[source].ready then SendsFrom(s, source + 1)
    else SourceSends(s, source) + SendsFrom(DrainedState(s), source + 1)
  }

  // ---- the machine

  function Next(s: State, e: Event): State {
    match e
    case Timer => PublishFrom(s, 0)
    case Connected(_) => s
    case Disconnected(source) => OnDisconnected(s, source)
    case DownloadBegin(info, _) => Stamp(s, info)
    case DownloadEnd(info, account) => OnDownloadEnd(s, info, account)
    case Ready(info) => OnReady(s, info)
    case ReferenceData(key, minTradeVol) => OnReferenceData(s, key, minTradeVol)
    case Traded(info, update) => OnTraded(s, info, update)
    case Corrected(corrections, now) => s.(table := InsertCorrections(s.table, corrections, now))
  }

  function Sends(s: State, e: Event): set<Send> {
    if e.Timer? then SendsFrom(s, 0) else {}
  }

  /** The trades that an event hands to the control service. */
  function Handed(s: State, e: Event): seq<Trade> {
    if e.Traded? && s.lastTime < e.update.createTime then TradesOf(e.update) else []
  }

  // ---- start-up

  function LoadInto(r: RegistryState, b: BookState, name: string, row: LoadedRow): (RegistryState, BookState) {
    if name == "" || name !in b.owners then (r, b)
    else
      var r' := Intern(r, row.key);
      (r', LoadBook(b, name, r'.lookup[row.key], row.key, row.long, row.short))
  }

  function LoadRow(s: State, row: LoadedRow): State {
    var (r, users) := LoadInto(s.registry, s.users, row.user, row);
    var (r', accounts) := LoadInto(r, s.accounts, row.account, row);
    s.(registry := r', accounts := accounts, users := users,
       lastTime := if s.lastTime < row.time then row.time else s.lastTime)
  }

  function LoadRows(s: State, rows: seq<LoadedRow>): State {
    if rows == [] then s else LoadRow(LoadRows(s, rows[..|rows| - 1]), rows[|rows| - 1])
  }

  function Empty(accounts: Limits, users: Limits, sources: nat, table: Table): State {
    State(EMPTY_REGISTRY, EmptyBook(accounts), EmptyBook(users), NoSessions(sources), 0, table)
  }

  function Initial(accounts: Limits, users: Limits, sources: nat, table: Table, rows: seq<LoadedRow>): State {
    LoadRows(Empty(accounts, users, sources, table), rows)
  }

  // ---- runs

  /** The state before event `i` of a run from `s`. */
  function At(s: State, es: seq<Event>, i: nat): State
    requires i <= |es|
  {
    if i == 0 then s else Next(At(s, es, i - 1), es[i - 1])
  }

  /** The messages sent while handling event `i`. */
  function SendsAt(s: State, es: seq<Event>, i: nat): set<Send>
    requires i < |es|
  {
    Sends(At(s, es, i), es[i])
  }

  lemma {:induction false} AtPrefix(s: State, es: seq<Event>, es': seq<Event>, i: nat)
    requires i <= |es| <= |es'| && es == es'[..|es|]
    ensures At(s, es, i) == At(s, es', i)
  {
    if i > 0 {
      AtPrefix(s, es, es', i - 1);
    }
  }
}
