/** The live positions agree with the trade table and with each other. */
module Agreement {
  import opened Types
  import opened Sums
  import opened Positions
  import opened Ledger
  import opened Machine
  import opened Reachability
  import opened Gating
  import opened Publication
  import opened Tracking
  import opened Composition

  // ---- what the accepted trades of a run say

  /** One fill with everything that the table's primary key and totals depend on. */
  datatype Occurrence = Occurrence(
    key: InstrumentKey,
    tradeId: string,
    user: string,
    strategyId: nat,
    account: string,
    time: int,
    side: Side,
    quantity: real)

  function OccurrenceOf(update: TradeUpdate, item: Fill): Occurrence {
    Occurrence(update.key, item.tradeId, update.user, update.strategyId, update.account, update.createTime, update.side,
               item.quantity)
  }

  ghost predicate AcceptedTrade(lastTime: int, e: Event) {
    e.Traded? && lastTime < e.update.createTime
  }

  ghost function Occurrences(lastTime: int, es: seq<Event>): set<Occurrence> {
    set i, j | 0 <= i < |es| && AcceptedTrade(lastTime, es[i]) && 0 <= j < |es[i].update.fills| ::
      OccurrenceOf(es[i].update, es[i].update.fills[j])
  }

  lemma OccurrenceIn(lastTime: int, es: seq<Event>, i: nat, j: nat)
    requires i < |es| && AcceptedTrade(lastTime, es[i]) && j < |es[i].update.fills|
    ensures OccurrenceOf(es[i].update, es[i].update.fills[j]) in Occurrences(lastTime, es)
  {
  }

  // ---- the table and one position

  /** A repeated trade id on an instrument repeats everything. */
  ghost predicate Identified(occurrences: set<Occurrence>) {
    forall o <- occurrences, p <- occurrences :: o.key == p.key && o.tradeId == p.tradeId ==> o == p
  }

  function RowOccurrence(k: PrimaryKey, row: Row): Occurrence {
    Occurrence(k.key, k.tradeId, k.user, k.strategyId, k.account, k.time, row.side, row.quantity)
  }

  /** Every row is an exchange trade among `occurrences`. */
  ghost predicate RowsFrom(rows: Table, occurrences: set<Occurrence>) {
    forall k <- rows :: k.rowType == EXCHANGE && RowOccurrence(k, rows[k]) in occurrences
  }

  ghost function Ids(rows: map<PrimaryKey, real>): set<string> {
    set k | k in rows :: k.tradeId
  }

  /** The position holds the trade ids of the rows of its owner and instrument, and their net total. */
  ghost predicate Mirrors(p: PositionState, rows: Table, kind: Kind, name: string, key: InstrumentKey) {
    && p.fills == Ids(SignedRows(rows, kind, name, key))
    && p.quantity == Sum(SignedRows(rows, kind, name, key))
  }

  predicate For(update: TradeUpdate, kind: Kind, name: string, key: InstrumentKey) {
    update.key == key && Party(update, kind) == name
  }

  lemma InsertedRow(rows: Table, update: TradeUpdate, item: Fill, kind: Kind, name: string, key: InstrumentKey)
    requires For(update, kind, name, key)
    ensures var t := TradeOf(update, item);
            SignedRows(rows[TradeKey(t) := TradeRow(t)], kind, name, key) ==
              SignedRows(rows, kind, name, key)[TradeKey(t) := Signed(update.side, item.quantity)]
  {
    assert Belongs(TradeKey(TradeOf(update, item)), kind, name, key);
  }

  /** A row with the trade id of a fill is the row that the fill is written to. */
  lemma SameIdSameRow(rows: Table, occurrences: set<Occurrence>, update: TradeUpdate, item: Fill, k: PrimaryKey)
    requires RowsFrom(rows, occurrences) && Identified(occurrences) && OccurrenceOf(update, item) in occurrences
    requires k in rows && k.key == update.key && k.tradeId == item.tradeId
    ensures k == TradeKey(TradeOf(update, item))
    ensures Signed(rows[k].side, rows[k].quantity) == Signed(update.side, item.quantity)
  {
    assert RowOccurrence(k, rows[k]) == OccurrenceOf(update, item);
  }

  /** Counting a fill by first id and writing it by primary key keep the position and the rows in step. */
  lemma InsertMirrors(p: PositionState, rows: Table, occurrences: set<Occurrence>, update: TradeUpdate, item: Fill,
                      kind: Kind, name: string, key: InstrumentKey)
    requires Mirrors(p, rows, kind, name, key) && RowsFrom(rows, occurrences)
    requires Identified(occurrences) && OccurrenceOf(update, item) in occurrences
    requires For(update, kind, name, key)
    ensures var t := TradeOf(update, item);
            Mirrors(CountFill(p, update.side, item), rows[TradeKey(t) := TradeRow(t)], kind, name, key)
  {
    var t := TradeOf(update, item);
    var k := TradeKey(t);
    var before := SignedRows(rows, kind, name, key);
    var after := SignedRows(rows[k := TradeRow(t)], kind, name, key);
    InsertedRow(rows, update, item, kind, name, key);
    if item.tradeId in p.fills {
      var k' :| k' in before && k'.tradeId == item.tradeId;
      SameIdSameRow(rows, occurrences, update, item, k');
      SumUpdate(before, k, Signed(update.side, item.quantity));
    } else {
      assert k !in before;
      SumInsert(before, k, Signed(update.side, item.quantity));
      assert k in after;
    }
  }

  lemma InsertElsewhere(rows: Table, update: TradeUpdate, item: Fill, kind: Kind, name: string, key: InstrumentKey)
    requires !For(update, kind, name, key)
    ensures var t := TradeOf(update, item);
            SignedRows(rows[TradeKey(t) := TradeRow(t)], kind, name, key) == SignedRows(rows, kind, name, key)
  {
    assert !Belongs(TradeKey(TradeOf(update, item)), kind, name, key);
  }

  ghost predicate Known(update: TradeUpdate, occurrences: set<Occurrence>) {
    forall j | 0 <= j < |update.fills| :: OccurrenceOf(update, update.fills[j]) in occurrences
  }

  /** The rows after the first `n` fills of an update. */
  ghost function Written(rows: Table, update: TradeUpdate, n: nat): Table
    requires n <= |update.fills|
  {
    InsertTrades(rows, TradesOf(update)[..n])
  }

  lemma WrittenStep(rows: Table, update: TradeUpdate, n: nat)
    requires n < |update.fills|
    ensures var t := TradeOf(update, update.fills[n]);
            Written(rows, update, n + 1) == Written(rows, update, n)[TradeKey(t) := TradeRow(t)]
  {
    assert TradesOf(update)[..n + 1][..n] == TradesOf(update)[..n];
  }

  lemma WrittenFrom(rows: Table, occurrences: set<Occurrence>, update: TradeUpdate, n: nat)
    requires RowsFrom(rows, occurrences) && n <= |update.fills| && Known(update, occurrences)
    ensures RowsFrom(Written(rows, update, n), occurrences)
  {
    for i := 0 to n
      invariant RowsFrom(Written(rows, update, i), occurrences)
    {
      WrittenStep(rows, update, i);
    }
  }

  /** The position after the first `n` fills of an update. */
  ghost function Counted(p: PositionState, update: TradeUpdate, n: nat, kind: Kind, name: string, key: InstrumentKey)
    : PositionState
    requires n <= |update.fills|
  {
    if For(update, kind, name, key) then CountFills(p, update.side, update.fills[..n]) else p
  }

  lemma CountedStep(p: PositionState, update: TradeUpdate, n: nat, kind: Kind, name: string, key: InstrumentKey)
    requires n < |update.fills| && For(update, kind, name, key)
    ensures Counted(p, update, n + 1, kind, name, key)
         == CountFill(Counted(p, update, n, kind, name, key), update.side, update.fills[n])
  {
    assert update.fills[..n + 1][..n] == update.fills[..n];
  }

  lemma MirrorsStep(p: PositionState, rows: Table, occurrences: set<Occurrence>, update: TradeUpdate, n: nat, kind: Kind,
                    name: string, key: InstrumentKey)
    requires n < |update.fills| && RowsFrom(Written(rows, update, n), occurrences)
    requires Identified(occurrences) && Known(update, occurrences)
    requires Mirrors(Counted(p, update, n, kind, name, key), Written(rows, update, n), kind, name, key)
    ensures Mirrors(Counted(p, update, n + 1, kind, name, key), Written(rows, update, n + 1), kind, name, key)
  {
    var before, item := Written(rows, update, n), update.fills[n];
    WrittenStep(rows, update, n);
    if For(update, kind, name, key) {
      CountedStep(p, update, n, kind, name, key);
      InsertMirrors(Counted(p, update, n, kind, name, key), before, occurrences, update, item, kind, name, key);
    } else {
      InsertElsewhere(before, update, item, kind, name, key);
    }
  }

  lemma WrittenMirrors(p: PositionState, rows: Table, occurrences: set<Occurrence>, update: TradeUpdate, kind: Kind,
                       name: string, key: InstrumentKey)
    requires Mirrors(p, rows, kind, name, key) && RowsFrom(rows, occurrences)
    requires Identified(occurrences) && Known(update, occurrences)
    ensures Mirrors(Counted(p, update, |update.fills|, kind, name, key), Written(rows, update, |update.fills|), kind, name,
                    key)
  {
    for n := 0 to |update.fills|
      invariant Mirrors(Counted(p, update, n, kind, name, key), Written(rows, update, n), kind, name, key)
    {
      WrittenFrom(rows, occurrences, update, n);
      MirrorsStep(p, rows, occurrences, update, n, kind, name, key);
    }
  }

  // ---- what a run writes

  /** The rows that the accepted trades among the first `i` events write, starting from none. */
  ghost function Delivered(lastTime: int, es: seq<Event>, i: nat): Table
    requires i <= |es|
  {
    if i == 0 then map[]
    else
      var before := Delivered(lastTime, es, i - 1);
      if AcceptedTrade(lastTime, es[i - 1]) then InsertTrades(before, TradesOf(es[i - 1].update)) else before
  }

  /** The manual rows after the corrections among the first `i` events. */
  ghost function ManualRows(table: Table, es: seq<Event>, i: nat): Table
    requires i <= |es|
  {
    if i == 0 then Part(table, MANUAL)
    else
      var before := ManualRows(table, es, i - 1);
      if es[i - 1].Corrected? then InsertCorrections(before, es[i - 1].corrections, es[i - 1].now) else before
  }

  lemma TableStep(s: State, e: Event)
    ensures Next(s, e).table ==
              if AcceptedTrade(s.lastTime, e) then InsertTrades(s.table, TradesOf(e.update))
              else if e.Corrected? then InsertCorrections(s.table, e.corrections, e.now)
              else s.table
  {
    match e
    case Timer => FirstReadyGetsAll(s, 0);
    case _ =>
  }

  /** Trades change the exchange part only, and there they are merged in. */
  lemma TradesChangeExchange(table: Table, start: Table, delivered: Table, trades: seq<Trade>)
    requires Part(table, EXCHANGE) == start + delivered
    ensures Part(InsertTrades(table, trades), EXCHANGE) == start + InsertTrades(delivered, trades)
    ensures Part(InsertTrades(table, trades), MANUAL) == Part(table, MANUAL)
  {
    TradesAreMerged(table, trades);
    TradesAreMerged(delivered, trades);
    var more := InsertTrades(map[], trades);
    assert Part(table + more, EXCHANGE) == Part(table, EXCHANGE) + more;
    assert start + delivered + more == start + (delivered + more);
    MergesCommute(table, more, map[]);
  }

  /** Corrections change the manual part only. */
  lemma CorrectionsChangeManual(table: Table, corrections: seq<Correction>, now: int)
    ensures Part(InsertCorrections(table, corrections, now), EXCHANGE) == Part(table, EXCHANGE)
    ensures Part(InsertCorrections(table, corrections, now), MANUAL)
         == InsertCorrections(Part(table, MANUAL), corrections, now)
  {
    CorrectionsAreMerged(table, corrections, now);
    CorrectionsAreMerged(Part(table, MANUAL), corrections, now);
    var more := InsertCorrections(map[], corrections, now);
    assert Part(table + more, MANUAL) == Part(table, MANUAL) + more;
    MergesCommute(table, map[], more);
  }

  /** What the two parts of the table are in a state `t` reached by the first `i` events. */
  ghost predicate Parts(s: State, es: seq<Event>, i: nat, t: State)
    requires i <= |es|
  {
    && Part(t.table, EXCHANGE) == Part(s.table, EXCHANGE) + Delivered(s.lastTime, es, i)
    && Part(t.table, MANUAL) == ManualRows(s.table, es, i)
  }

  lemma StepKeepsParts(s: State, es: seq<Event>, i: nat, t: State)
    requires i < |es| && Parts(s, es, i, t) && t.lastTime == s.lastTime
    ensures Parts(s, es, i + 1, Next(t, es[i]))
  {
    var e := es[i];
    TableStep(t, e);
    if AcceptedTrade(s.lastTime, e) {
      TradesChangeExchange(t.table, Part(s.table, EXCHANGE), Delivered(s.lastTime, es, i), TradesOf(e.update));
    } else if e.Corrected? {
      CorrectionsChangeManual(t.table, e.corrections, e.now);
    }
  }

  /**
   In every reachable state, the exchange rows are the start rows with the delivered ones merged in, and the manual rows
   are the start rows with the corrections written to them: neither kind is touched by the other.
   */
  lemma RunKeepsParts(s: State, es: seq<Event>, i: nat)
    requires Ok(s) && i <= |es|
    ensures Parts(s, es, i, At(s, es, i))
  {
    assert Part(s.table, EXCHANGE) + map[] == Part(s.table, EXCHANGE);
    for k := 0 to i
      invariant Parts(s, es, k, At(s, es, k))
    {
      RunOk(s, es, k);
      StepKeepsParts(s, es, k, At(s, es, k));
    }
  }

  // ---- positions mirror what a run writes

  ghost predicate InStep(s: State, es: seq<Event>, i: nat, t: State, kind: Kind, name: string, key: InstrumentKey)
    requires i <= |es|
  {
    && RowsFrom(Delivered(s.lastTime, es, i), Occurrences(s.lastTime, es))
    && Mirrors(PositionOf(t, kind, name, key), Delivered(s.lastTime, es, i), kind, name, key)
  }

  lemma FillsAreKnown(lastTime: int, es: seq<Event>, i: nat)
    requires i < |es| && AcceptedTrade(lastTime, es[i])
    ensures Known(es[i].update, Occurrences(lastTime, es))
  {
    var update := es[i].update;
    forall j | 0 <= j < |update.fills| ensures OccurrenceOf(update, update.fills[j]) in Occurrences(lastTime, es) {
      OccurrenceIn(lastTime, es, i, j);
    }
  }

  lemma StepKeepsInStep(s: State, es: seq<Event>, i: nat, t: State, kind: Kind, name: string, key: InstrumentKey)
    requires i < |es| && Ok(t) && Grows(s, t) && InStep(s, es, i, t, kind, name, key)
    requires Identified(Occurrences(s.lastTime, es)) && name in BookOf(s, kind).owners
    ensures InStep(s, es, i + 1, Next(t, es[i]), kind, name, key)
  {
    var e, rows := es[i], Delivered(s.lastTime, es, i);
    PositionStep(t, e, kind, name, key);
    if AcceptedTrade(s.lastTime, e) {
      var update, occurrences := e.update, Occurrences(s.lastTime, es);
      FillsAreKnown(s.lastTime, es, i);
      WrittenMirrors(PositionOf(t, kind, name, key), rows, occurrences, update, kind, name, key);
      WrittenFrom(rows, occurrences, update, |update.fills|);
      assert update.fills[..|update.fills|] == update.fills && TradesOf(update)[..|update.fills|] == TradesOf(update);
      assert TradesFor(t, e, kind, name, key) <==> For(update, kind, name, key);
    }
  }

  lemma StartsInStep(s: State, es: seq<Event>, kind: Kind, name: string, key: InstrumentKey)
    requires Uncounted(s)
    ensures InStep(s, es, 0, s, kind, name, key)
  {
    UncountedPosition(s, kind, name, key);
    assert SignedRows(map[], kind, name, key) == map[];
  }

  lemma RunInStep(s: State, es: seq<Event>, i: nat, kind: Kind, name: string, key: InstrumentKey)
    requires Uncounted(s) && i <= |es| && Identified(Occurrences(s.lastTime, es)) && name in BookOf(s, kind).owners
    ensures InStep(s, es, i, At(s, es, i), kind, name, key)
  {
    StartsInStep(s, es, kind, name, key);
    for k := 0 to i
      invariant InStep(s, es, k, At(s, es, k), kind, name, key)
    {
      RunOk(s, es, k);
      StepKeepsInStep(s, es, k, At(s, es, k), kind, name, key);
    }
  }

  // ---- the ledger

  /** The trades that the table holds at the start although they are younger than the loaded time. */
  ghost function YoungOccurrences(s: State): set<Occurrence> {
    set k | k in s.table && k.rowType == EXCHANGE && s.lastTime < k.time :: RowOccurrence(k, s.table[k])
  }

  /** The exchange rows of the start that a position counts again: young ones whose trade id is delivered. */
  ghost function Redelivered(s: State, seen: set<string>, kind: Kind, name: string, key: InstrumentKey)
    : map<PrimaryKey, real>
  {
    map k | k in SignedRows(Part(s.table, EXCHANGE), kind, name, key) && s.lastTime < k.time && k.tradeId in seen ::
      SignedRows(Part(s.table, EXCHANGE), kind, name, key)[k]
  }

  lemma DeliveredIsYoung(lastTime: int, es: seq<Event>, i: nat)
    requires i <= |es|
    ensures forall k <- Delivered(lastTime, es, i) :: lastTime < k.time && k.rowType == EXCHANGE
  {
    for j := 0 to i
      invariant forall k <- Delivered(lastTime, es, j) :: lastTime < k.time && k.rowType == EXCHANGE
    {
      if AcceptedTrade(lastTime, es[j]) {
        forall k | k in Delivered(lastTime, es, j + 1) ensures lastTime < k.time && k.rowType == EXCHANGE {
          LastWriteWins(Delivered(lastTime, es, j), TradesOf(es[j].update), k);
        }
      }
    }
  }

  /** A young start row and a delivered row with the same trade id are the same row. */
  lemma RedeliveredIsSame(s: State, delivered: Table, occurrences: set<Occurrence>, j: PrimaryKey, k: PrimaryKey)
    requires Identified(occurrences + YoungOccurrences(s)) && RowsFrom(delivered, occurrences)
    requires j in Part(s.table, EXCHANGE) && s.lastTime < j.time && k in delivered
    requires j.key == k.key && j.tradeId == k.tradeId
    ensures j == k
  {
    assert RowOccurrence(j, s.table[j]) in YoungOccurrences(s);
    assert RowOccurrence(j, s.table[j]) == RowOccurrence(k, delivered[k]);
  }

  /** A start row is overwritten exactly when it is young and its trade id is delivered. */
  lemma OverwrittenIsRedelivered(s: State, es: seq<Event>, i: nat, kind: Kind, name: string, key: InstrumentKey)
    requires i <= |es| && Identified(Occurrences(s.lastTime, es) + YoungOccurrences(s))
    requires RowsFrom(Delivered(s.lastTime, es, i), Occurrences(s.lastTime, es))
    ensures var rows := SignedRows(Delivered(s.lastTime, es, i), kind, name, key);
            Restrict(SignedRows(Part(s.table, EXCHANGE), kind, name, key), rows.Keys)
              == Redelivered(s, Ids(rows), kind, name, key)
  {
    var delivered := Delivered(s.lastTime, es, i);
    var start, rows := SignedRows(Part(s.table, EXCHANGE), kind, name, key), SignedRows(delivered, kind, name, key);
    DeliveredIsYoung(s.lastTime, es, i);
    forall j | j in start ensures j in rows <==> s.lastTime < j.time && j.tradeId in Ids(rows) {
      if s.lastTime < j.time && j.tradeId in Ids(rows) {
        var k :| k in rows && k.tradeId == j.tradeId;
        RedeliveredIsSame(s, delivered, Occurrences(s.lastTime, es), j, k);
      }
    }
  }

  lemma MergedRows(start: Table, delivered: Table, kind: Kind, name: string, key: InstrumentKey)
    ensures SignedRows(start + delivered, kind, name, key)
         == SignedRows(start, kind, name, key) + SignedRows(delivered, kind, name, key)
  {
  }

  ghost function RedeliveredNet(s: State, es: seq<Event>, i: nat, kind: Kind, name: string, key: InstrumentKey): real
    requires i <= |es|
  {
    Sum(Redelivered(s, SeenIds(s, es, i, kind, name, key), kind, name, key))
  }

  /**
   The exchange part of the table refines the live position: in every reachable state, for an owner and an instrument,
   its net is its net at start-up plus the live quantity, less the start rows that were delivered again: the table
   replaces them, the position counts them.
   */
  lemma LedgerRefinesLivePosition(s: State, es: seq<Event>, i: nat, kind: Kind, name: string, key: InstrumentKey)
    requires Uncounted(s) && i <= |es| && name in BookOf(s, kind).owners
    requires Identified(Occurrences(s.lastTime, es) + YoungOccurrences(s))
    ensures Net(Part(At(s, es, i).table, EXCHANGE), kind, name, key)
         == Net(Part(s.table, EXCHANGE), kind, name, key) + PositionOf(At(s, es, i), kind, name, key).quantity
            - RedeliveredNet(s, es, i, kind, name, key)
  {
    var start, delivered := Part(s.table, EXCHANGE), Delivered(s.lastTime, es, i);
    RunInStep(s, es, i, kind, name, key);
    RunSeen(s, es, i, kind, name, key);
    RunKeepsParts(s, es, i);
    NetIsSignedSum(Part(At(s, es, i).table, EXCHANGE), kind, name, key);
    NetIsSignedSum(start, kind, name, key);
    MergedRows(start, delivered, kind, name, key);
    SumMerge(SignedRows(start, kind, name, key), SignedRows(delivered, kind, name, key));
    OverwrittenIsRedelivered(s, es, i, kind, name, key);
  }

  /** What the table holds of an owner and instrument beside the fills counted since start-up. */
  ghost function Retained(s: State, es: seq<Event>, i: nat, kind: Kind, name: string, key: InstrumentKey): real
    requires i <= |es|
  {
    Net(Part(s.table, EXCHANGE), kind, name, key) - RedeliveredNet(s, es, i, kind, name, key)
    + Net(ManualRows(s.table, es, i), kind, name, key)
  }

  lemma NetSplitsByType(table: Table, kind: Kind, name: string, key: InstrumentKey)
    ensures Net(table, kind, name, key)
         == Net(Part(table, EXCHANGE), kind, name, key) + Net(Part(table, MANUAL), kind, name, key)
  {
    TotalsSplitByType(table, BUY, kind, name, key);
    TotalsSplitByType(table, SELL, kind, name, key);
  }

  /** In every reachable state, corrections included, the table's net is the live quantity and what is retained. */
  lemma LedgerNet(s: State, es: seq<Event>, i: nat, kind: Kind, name: string, key: InstrumentKey)
    requires Uncounted(s) && i <= |es| && name in BookOf(s, kind).owners
    requires Identified(Occurrences(s.lastTime, es) + YoungOccurrences(s))
    ensures Net(At(s, es, i).table, kind, name, key)
         == PositionOf(At(s, es, i), kind, name, key).quantity + Retained(s, es, i, kind, name, key)
  {
    LedgerRefinesLivePosition(s, es, i, kind, name, key);
    RunKeepsParts(s, es, i);
    NetSplitsByType(At(s, es, i).table, kind, name, key);
  }

  /**
   From any start: what is published matches the table exactly when the loaded net is what is retained, as long as nothing
   has been counted, and exactly when nothing is retained from then on: the first counted fill replaces the loaded net
   instead of adding to it.
   */
  lemma PublishedNetMatchesLedger(s: State, es: seq<Event>, i: nat, kind: Kind, name: string, key: InstrumentKey)
    requires Uncounted(s) && i <= |es| && name in BookOf(s, kind).owners
    requires Identified(Occurrences(s.lastTime, es) + YoungOccurrences(s))
    ensures NetOf(PositionOf(At(s, es, i), kind, name, key)) == Net(At(s, es, i).table, kind, name, key)
            <==>
            Retained(s, es, i, kind, name, key) ==
              if SeenIds(s, es, i, kind, name, key) == {} then NetOf(PositionOf(s, kind, name, key)) else 0.0
  {
    LedgerNet(s, es, i, kind, name, key);
    RunSeen(s, es, i, kind, name, key);
    RunNets(s, es, i, kind, name, key);
  }

  /** A start state whose table holds no row younger than the last loaded time. */
  ghost predicate LoadedUpToDate(s: State) {
    Uncounted(s) && forall k <- s.table :: k.time <= s.lastTime
  }

  /** Then nothing is delivered again, and trade ids need to be identified among the trades of the run only. */
  lemma UpToDateRetainsAll(s: State, es: seq<Event>, i: nat, kind: Kind, name: string, key: InstrumentKey)
    requires LoadedUpToDate(s) && i <= |es|
    ensures Occurrences(s.lastTime, es) + YoungOccurrences(s) == Occurrences(s.lastTime, es)
    ensures Retained(s, es, i, kind, name, key)
         == Net(Part(s.table, EXCHANGE), kind, name, key) + Net(ManualRows(s.table, es, i), kind, name, key)
  {
    assert YoungOccurrences(s) == {};
    assert Redelivered(s, SeenIds(s, es, i, kind, name, key), kind, name, key) == map[];
  }

  // ---- accounts and users

  /** A repeated trade id on an instrument names the same account and the same user. */
  ghost predicate PartiesIdentified(occurrences: set<Occurrence>) {
    forall o <- occurrences, p <- occurrences ::
      o.key == p.key && o.tradeId == p.tradeId ==> o.account == p.account && o.user == p.user
  }

  /** Every accepted trade names a configured account and a configured user. */
  ghost predicate Covered(s: State, es: seq<Event>) {
    forall i | 0 <= i < |es| && AcceptedTrade(s.lastTime, es[i]) ::
      es[i].update.account in s.accounts.owners && es[i].update.user in s.users.owners
  }

  /** A fill has been seen by its account exactly when it has been seen by its user. */
  lemma {:induction false} SeenByBoth(s: State, es: seq<Event>, i: nat, o: Occurrence)
    requires i <= |es| && PartiesIdentified(Occurrences(s.lastTime, es)) && Covered(s, es)
    requires o in Occurrences(s.lastTime, es)
    ensures o.tradeId in SeenIds(s, es, i, ByAccount, o.account, o.key)
       <==> o.tradeId in SeenIds(s, es, i, ByUser, o.user, o.key)
  {
    if i > 0 {
      SeenByBoth(s, es, i - 1, o);
      var e := es[i - 1];
      if AcceptedTrade(s.lastTime, e) && e.update.key == o.key && o.tradeId in TradeIds(e.update.fills) {
        var j :| 0 <= j < |e.update.fills| && e.update.fills[j].tradeId == o.tradeId;
        OccurrenceIn(s.lastTime, es, i - 1, j);
      }
    }
  }

  /** An event counts the same new quantity for its account as for its user. */
  lemma SameMoved(s: State, es: seq<Event>, i: nat, key: InstrumentKey)
    requires i < |es| && PartiesIdentified(Occurrences(s.lastTime, es)) && Covered(s, es)
    ensures Moved(s, es, i, ByAccount, key) == Moved(s, es, i, ByUser, key)
  {
    if !AcceptedTrade(s.lastTime, es[i]) || es[i].update.key != key {
      return;
    }
    var update := es[i].update;
    var seen := SeenIds(s, es, i, ByAccount, update.account, update.key);
    var seen' := SeenIds(s, es, i, ByUser, update.user, update.key);
    forall j | 0 <= j < |update.fills| ensures update.fills[j].tradeId in seen <==> update.fills[j].tradeId in seen' {
      OccurrenceIn(s.lastTime, es, i, j);
      SeenByBoth(s, es, i, OccurrenceOf(update, update.fills[j]));
    }
    FirstSeenSumAgrees(seen, seen', update.side, update.fills);
  }

  ghost function Quantities(s: State, kind: Kind, names: set<string>, key: InstrumentKey): map<string, real> {
    map n | n in names :: PositionOf(s, kind, n, key).quantity
  }

  /** The sum of an instrument's live quantities over all owners of one kind. */
  ghost function Holding(s: State, kind: Kind, names: set<string>, key: InstrumentKey): real {
    Sum(Quantities(s, kind, names, key))
  }

  lemma HoldingMoves(t: State, t': State, kind: Kind, names: set<string>, key: InstrumentKey, name: string, delta: real)
    requires name in names
    requires forall n <- names :: PositionOf(t', kind, n, key).quantity ==
               PositionOf(t, kind, n, key).quantity + if n == name then delta else 0.0
    ensures Holding(t', kind, names, key) == Holding(t, kind, names, key) + delta
  {
    SumMoves(Quantities(t, kind, names, key), Quantities(t', kind, names, key), name, delta);
  }

  lemma HoldingStays(t: State, t': State, kind: Kind, names: set<string>, key: InstrumentKey)
    requires forall n <- names :: PositionOf(t', kind, n, key).quantity == PositionOf(t, kind, n, key).quantity
    ensures Holding(t', kind, names, key) == Holding(t, kind, names, key)
  {
    assert Quantities(t', kind, names, key) == Quantities(t, kind, names, key);
  }

  /** What event `i` counts over all owners of one kind: it names at most one of them. */
  ghost function Moved(s: State, es: seq<Event>, i: nat, kind: Kind, key: InstrumentKey): real
    requires i < |es|
  {
    if AcceptedTrade(s.lastTime, es[i]) && es[i].update.key == key
    then NewFills(s, es, i, kind, Party(es[i].update, kind), key)
    else 0.0
  }

  lemma NamedOnly(s: State, es: seq<Event>, i: nat, kind: Kind, key: InstrumentKey, name: string)
    requires i < |es|
    requires !AcceptedTrade(s.lastTime, es[i]) || es[i].update.key != key || Party(es[i].update, kind) != name
    ensures NewFills(s, es, i, kind, name, key) == 0.0
  {
  }

  lemma HoldingStep(s: State, es: seq<Event>, i: nat, kind: Kind, key: InstrumentKey)
    requires Uncounted(s) && i < |es| && Covered(s, es)
    ensures var names := BookOf(s, kind).owners.Keys;
            Holding(At(s, es, i + 1), kind, names, key) ==
              Holding(At(s, es, i), kind, names, key) + Moved(s, es, i, kind, key)
  {
    var names := BookOf(s, kind).owners.Keys;
    var t, t' := At(s, es, i), At(s, es, i + 1);
    if AcceptedTrade(s.lastTime, es[i]) && es[i].update.key == key {
      var name, delta := Party(es[i].update, kind), Moved(s, es, i, kind, key);
      forall n | n in names ensures PositionOf(t', kind, n, key).quantity ==
          PositionOf(t, kind, n, key).quantity + if n == name then delta else 0.0
      {
        QuantityStep(s, es, i, kind, n, key);
        if n != name {
          NamedOnly(s, es, i, kind, key, n);
        }
      }
      HoldingMoves(t, t', kind, names, key, name, delta);
    } else {
      forall n | n in names ensures PositionOf(t', kind, n, key).quantity == PositionOf(t, kind, n, key).quantity {
        QuantityStep(s, es, i, kind, n, key);
        NamedOnly(s, es, i, kind, key, n);
      }
      HoldingStays(t, t', kind, names, key);
    }
  }

  lemma NothingHeldAtStart(s: State, kind: Kind, key: InstrumentKey)
    requires Uncounted(s)
    ensures Holding(s, kind, BookOf(s, kind).owners.Keys, key) == 0.0
  {
    forall n | n in BookOf(s, kind).owners.Keys ensures PositionOf(s, kind, n, key).quantity == 0.0 {
      UncountedPosition(s, kind, n, key);
    }
    SumZero(Quantities(s, kind, BookOf(s, kind).owners.Keys, key));
  }

  ghost predicate Balanced(s: State, t: State, key: InstrumentKey) {
    Holding(t, ByAccount, s.accounts.owners.Keys, key) == Holding(t, ByUser, s.users.owners.Keys, key)
  }

  lemma StepKeepsBalance(s: State, es: seq<Event>, i: nat, key: InstrumentKey)
    requires Uncounted(s) && i < |es| && PartiesIdentified(Occurrences(s.lastTime, es)) && Covered(s, es)
    requires Balanced(s, At(s, es, i), key)
    ensures Balanced(s, At(s, es, i + 1), key)
  {
    HoldingStep(s, es, i, ByAccount, key);
    HoldingStep(s, es, i, ByUser, key);
    SameMoved(s, es, i, key);
  }

  lemma StartsBalanced(s: State, key: InstrumentKey)
    requires Uncounted(s)
    ensures Balanced(s, s, key)
  {
    NothingHeldAtStart(s, ByAccount, key);
    NothingHeldAtStart(s, ByUser, key);
  }

  /** In every reachable state, accounts and users hold the same total of every instrument. */
  lemma {:induction false} AccountsAndUsersHoldTheSame(s: State, es: seq<Event>, i: nat, key: InstrumentKey)
    requires Uncounted(s) && i <= |es| && PartiesIdentified(Occurrences(s.lastTime, es)) && Covered(s, es)
    ensures Balanced(s, At(s, es, i), key)
  {
    StartsBalanced(s, key);
    for k := 0 to i
      invariant Balanced(s, At(s, es, k), key)
    {
      StepKeepsBalance(s, es, k, key);
    }
  }
}
