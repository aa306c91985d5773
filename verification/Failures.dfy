/** Runs in which what is published is wrong: concrete inputs for the conditions proved elsewhere. */
module Failures {
  import opened Types
  import opened Sums
  import opened Positions
  import opened Ledger
  import opened Machine
  import opened Reachability
  import opened Gating
  import opened Publication
  import opened Snapshots
  import opened Tracking
  import opened Composition
  import opened Agreement
  import opened PositionQueries
  import opened Restarts

  const BTC := InstrumentKey("deribit", "BTC-PERPETUAL")

  function OldTrade(): PrimaryKey {
    PrimaryKey("trader", 0, "A1", BTC, 1, "old", EXCHANGE)
  }

  /** One trade at time 1: a buy of 1. */
  function OneBuy(): Table {
    map[OldTrade() := Row(BUY, 1.0, 100.0, "", "", "")]
  }

  /** One more at time 2. */
  function NewTrade(): Event {
    Traded(MessageInfo(0, 1, 1), TradeUpdate("trader", 0, "A1", BTC, BUY, 2, "", "", [Fill("new", 1.0, 100.0)]))
  }

  lemma OneBuyIsHeld()
    ensures OneHolder(OneBuy(), ByAccount, "A1", BTC)
    ensures Net(OneBuy(), ByAccount, "A1", BTC) == 1.0
  {
    assert OldTrade() in Rows(OneBuy(), GroupAccount, BUY);
    assert GroupOf(OldTrade(), GroupAccount) in Groups(OneBuy(), GroupAccount, BUY);
    assert Ledger.Quantities(OneBuy(), BUY, ByAccount, "A1", BTC) == map[OldTrade() := 1.0];
    assert Ledger.Quantities(OneBuy(), SELL, ByAccount, "A1", BTC) == map[];
    SumOne(OldTrade(), 1.0);
  }

  /** A start on that table, with one account and one source. */
  function Restarted(a: Answers): State {
    StartUp(map["A1" := map[]], map[], 1, OneBuy(), a)
  }

  lemma RestartedIsRight(a: Answers)
    requires Answer(OneBuy(), a)
    ensures var s := Restarted(a);
            && LoadedUpToDate(s) && s.lastTime <= 1 && "A1" in s.accounts.owners && s.table == OneBuy()
            && NetOf(PositionOf(s, ByAccount, "A1", BTC)) == 1.0
  {
    OneBuyIsHeld();
    RestartRecovers(map["A1" := map[]], map[], 1, OneBuy(), a, ByAccount, "A1", BTC);
    AnswerIsBounded(OneBuy(), GroupUser, a.byUser, 1);
    AnswerIsBounded(OneBuy(), GroupStrategy, a.byStrategy, 1);
    AnswerIsBounded(OneBuy(), GroupAccount, a.byAccount, 1);
    StartUpTimeIsBounded(map["A1" := map[]], map[], 1, OneBuy(), a, 1);
  }

  lemma NewTradeIsCounted(s: State)
    requires Uncounted(s) && s.lastTime <= 1 && "A1" in s.accounts.owners
    ensures Identified(Occurrences(s.lastTime, [NewTrade()]))
    ensures SeenIds(s, [NewTrade()], 1, ByAccount, "A1", BTC) != {}
    ensures NetOf(PositionOf(At(s, [NewTrade()], 1), ByAccount, "A1", BTC)) == 1.0
  {
    var es, fills := [NewTrade()], [Fill("new", 1.0, 100.0)];
    assert At(s, es, 0) == s;
    assert TradesFor(s, es[0], ByAccount, "A1", BTC);
    assert fills[0].tradeId in TradeIds(fills);
    assert SeenIds(s, es, 0, ByAccount, "A1", BTC) == {};
    QuantityStep(s, es, 0, ByAccount, "A1", BTC);
    UncountedPosition(s, ByAccount, "A1", BTC);
    assert fills[..0] == [];
    assert FirstSeenSum({}, BUY, fills) == 1.0;
    RunSeen(s, es, 1, ByAccount, "A1", BTC);
    RunNets(s, es, 1, ByAccount, "A1", BTC);
  }

  lemma NewTradeFallsShort(s: State)
    requires LoadedUpToDate(s) && s.lastTime <= 1 && "A1" in s.accounts.owners
    ensures var t := At(s, [NewTrade()], 1);
            NetOf(PositionOf(t, ByAccount, "A1", BTC)) ==
              Net(t.table, ByAccount, "A1", BTC) - Net(s.table, ByAccount, "A1", BTC)
  {
    NewTradeIsCounted(s);
    CountedFallsShort(s, [NewTrade()], 1, ByAccount, "A1", BTC);
  }

  /**
   A restart after a buy of 1, and then a buy of 1: whatever the queries answered, the position was loaded as 1 and the
   table holds 2, but 1 is published.
   */
  lemma BaselineIsLost(a: Answers)
    requires Answer(OneBuy(), a)
    ensures var s := Restarted(a);
            var t := At(s, [NewTrade()], 1);
            && NetOf(PositionOf(s, ByAccount, "A1", BTC)) == 1.0 == Net(s.table, ByAccount, "A1", BTC)
            && NetOf(PositionOf(t, ByAccount, "A1", BTC)) == 1.0
            && Net(t.table, ByAccount, "A1", BTC) == 2.0
  {
    OneBuyIsHeld();
    RestartedIsRight(a);
    NewTradeIsCounted(Restarted(a));
    NewTradeFallsShort(Restarted(a));
  }

  /** The account connects and gets ready, a timer, the new trade, a timer. */
  function Connects(): seq<Event> {
    [DownloadEnd(MessageInfo(0, 1, 1), "A1"), Event.Ready(MessageInfo(0, 1, 2)), Timer,
     Traded(MessageInfo(0, 1, 3), NewTrade().update), Timer]
  }

  /** A position with a net exists. */
  lemma NetIsHeld(s: State, kind: Kind, name: string, key: InstrumentKey)
    requires NetOf(PositionOf(s, kind, name, key)) != 0.0
    ensures Held(s, kind, name, key)
  {
  }

  lemma FirstMessage(s: State, id: nat) returns (x: Send)
    requires Ok(s) && Fresh(s) && |s.sessions| == 1 && HasPosition(s, ByAccount, "A1", id)
    ensures x in SendsAt(s, Connects(), 2) && Addresses(x, ByAccount, "A1", id)
  {
    var es := Connects();
    assert At(s, es, 0) == s;
    assert Downloads(es[0], "A1") && MakesReady(es[1], 0);
    FullAccountSnapshot(s, es, 0, 0, 1, 2, "A1", id);
    x :| x in SendsAt(s, es, 2) && Addresses(x, ByAccount, "A1", id);
  }

  lemma SecondMarks(s: State)
    requires Ok(s) && s.lastTime <= 1 && "A1" in s.accounts.owners
    ensures var t := At(s, Connects(), 4);
            Held(t, ByAccount, "A1", BTC) && Waiting(t, ByAccount, "A1", t.registry.lookup[BTC])
  {
    RunOk(s, Connects(), 3);
    TradeMarks(At(s, Connects(), 3), Connects()[3], ByAccount, "A1", BTC);
  }

  lemma SecondWaits(s: State, id: nat)
    requires Ok(s) && s.lastTime <= 1 && "A1" in s.accounts.owners
    requires BTC in s.registry.lookup && s.registry.lookup[BTC] == id
    ensures HasPosition(At(s, Connects(), 4), ByAccount, "A1", id) && Waiting(At(s, Connects(), 4), ByAccount, "A1", id)
  {
    SecondMarks(s);
    RunOk(s, Connects(), 4);
  }

  lemma SecondMessage(s: State, id: nat) returns (y: Send)
    requires Ok(s) && Fresh(s) && |s.sessions| == 1 && s.lastTime <= 1 && "A1" in s.accounts.owners
    requires BTC in s.registry.lookup && s.registry.lookup[BTC] == id
    ensures y in SendsAt(s, Connects(), 4) && Addresses(y, ByAccount, "A1", id)
  {
    var es := Connects();
    SecondWaits(s, id);
    RunOk(s, es, 4);
    ReadyAfter(s, es, 1, 4);
    y := WaitingIsSent(s, es, 4, ByAccount, "A1", id);
  }

  lemma TradeIsBetween(s: State)
    requires s.lastTime <= 1 && "A1" in s.accounts.owners
    ensures SeenIds(s, Connects(), 2, ByAccount, "A1", BTC) == {}
    ensures SeenIds(s, Connects(), 4, ByAccount, "A1", BTC) != {}
  {
    var es := Connects();
    assert SeenIds(s, es, 1, ByAccount, "A1", BTC) == {};
    assert TradesFor(s, es[3], ByAccount, "A1", BTC);
    assert es[3].update.fills[0].tradeId in TradeIds(es[3].update.fills);
  }

  lemma ConnectsOnce()
    ensures OneSource(Connects()) && Connection(Connects(), 0, 5) && Increasing(Connects(), 0, 5)
  {
  }

  lemma LoadedSnapshots(s: State) returns (x: Send, y: Send, id: nat)
    requires Uncounted(s) && Fresh(s) && |s.sessions| == 1 && s.lastTime <= 1 && "A1" in s.accounts.owners
    requires NetOf(PositionOf(s, ByAccount, "A1", BTC)) != 0.0
    ensures var es := Connects();
            && x in SendsAt(s, es, 2) && y in SendsAt(s, es, 4)
            && Addresses(x, ByAccount, "A1", id) && Addresses(y, ByAccount, "A1", id) && x.limits[id].key == BTC
            && y.limits[id].longPosition - y.limits[id].shortPosition
                 != x.limits[id].longPosition - x.limits[id].shortPosition
                    + StampedFills(s, es, 0, 5, x.seqno, y.seqno, ByAccount, "A1", BTC)
  {
    var es := Connects();
    NetIsHeld(s, ByAccount, "A1", BTC);
    id := s.registry.lookup[BTC];
    x := FirstMessage(s, id);
    y := SecondMessage(s, id);
    SendContents(s, es, 2, x, id);
    RunOk(s, es, 2);
    TradeIsBetween(s);
    ConnectsOnce();
    SnapshotsCompose(s, es, 0, 5, 2, 4, x, y, id);
  }

  /** After the restart, two messages of one connection do not differ by the fills stamped between them. */
  lemma SnapshotsDoNotCompose(a: Answers) returns (x: Send, y: Send, id: nat)
    requires Answer(OneBuy(), a)
    ensures var s, es := Restarted(a), Connects();
            && x in SendsAt(s, es, 2) && y in SendsAt(s, es, 4)
            && Addresses(x, ByAccount, "A1", id) && Addresses(y, ByAccount, "A1", id) && x.limits[id].key == BTC
            && y.limits[id].longPosition - y.limits[id].shortPosition
                 != x.limits[id].longPosition - x.limits[id].shortPosition
                    + StampedFills(s, es, 0, 5, x.seqno, y.seqno, ByAccount, "A1", BTC)
  {
    RestartedIsRight(a);
    StartUpTime(map["A1" := map[]], map[], 1, OneBuy(), a);
    x, y, id := LoadedSnapshots(Restarted(a));
  }

  // ---- a restart that forgets how far it got

  const ETH := InstrumentKey("deribit", "ETH-PERPETUAL")

  function YoungTrade(): PrimaryKey {
    PrimaryKey("trader", 0, "A1", ETH, 2, "young", EXCHANGE)
  }

  /** The trade at time 1, and one in another instrument at time 2. */
  function TwoInstruments(): Table {
    OneBuy()[YoungTrade() := Row(BUY, 1.0, 50.0, "", "", "")]
  }

  /** The second trade once more, as it was. */
  function SameTrade(): Event {
    Traded(MessageInfo(0, 1, 1), TradeUpdate("trader", 0, "A1", ETH, BUY, 2, "", "", [Fill("young", 1.0, 50.0)]))
  }

  lemma Distinct()
    ensures ETH != BTC && OldTrade() != YoungTrade()
  {
    assert "ETH-PERPETUAL"[0] != "BTC-PERPETUAL"[0];
  }

  lemma OldIsOlder(col: Grouping, k: PrimaryKey)
    requires k in TwoInstruments() && GroupOf(k, col) == GroupOf(OldTrade(), col)
    ensures k.time == 1
  {
    Distinct();
  }

  /** The answer that takes its plain columns from the instrument traded first. */
  lemma OlderAnswer(col: Grouping) returns (row: PositionRow)
    ensures Selects(TwoInstruments(), col, row) && row.time <= 1
  {
    var table, g := TwoInstruments(), GroupOf(OldTrade(), col);
    if col.GroupStrategy? {
      JoinEmptyExactly(table, col);
      row := NO_POSITION;
    } else {
      RowHasGroup(table, col, BUY, OldTrade());
      row := AnswerFor(table, col, g);
      forall k | k in table && GroupOf(k, col) == g ensures k.time <= 1 {
        OldIsOlder(col, k);
      }
      JoinIsBounded(table, col, g, 1);
    }
  }

  lemma OlderAnswers() returns (a: Answers)
    ensures Answer(TwoInstruments(), a)
    ensures StartUp(map["A1" := map[]], map[], 1, TwoInstruments(), a).lastTime <= 1
  {
    var byUser := OlderAnswer(GroupUser);
    var byStrategy := OlderAnswer(GroupStrategy);
    var byAccount := OlderAnswer(GroupAccount);
    a := Answers(byUser, byStrategy, byAccount, 0.0);
    StartUpTimeIsBounded(map["A1" := map[]], map[], 1, TwoInstruments(), a, 1);
  }

  lemma YoungNet()
    ensures Net(TwoInstruments(), ByAccount, "A1", ETH) == 1.0
  {
    Distinct();
    assert Ledger.Quantities(TwoInstruments(), BUY, ByAccount, "A1", ETH) == map[YoungTrade() := 1.0];
    assert Ledger.Quantities(TwoInstruments(), SELL, ByAccount, "A1", ETH) == map[];
    SumOne(YoungTrade(), 1.0);
  }

  lemma SameTradeIsCounted(s: State)
    requires Uncounted(s) && s.lastTime <= 1 && "A1" in s.accounts.owners && s.table == TwoInstruments()
    ensures PositionOf(At(s, [SameTrade()], 1), ByAccount, "A1", ETH).quantity == 1.0
    ensures At(s, [SameTrade()], 1).table == s.table
  {
    var es, fills := [SameTrade()], [Fill("young", 1.0, 50.0)];
    assert At(s, es, 0) == s;
    assert TradesFor(s, es[0], ByAccount, "A1", ETH);
    assert SeenIds(s, es, 0, ByAccount, "A1", ETH) == {};
    QuantityStep(s, es, 0, ByAccount, "A1", ETH);
    UncountedPosition(s, ByAccount, "A1", ETH);
    assert fills[..0] == [];
    assert FirstSeenSum({}, BUY, fills) == 1.0;
    var trade := TradeOf(es[0].update, fills[0]);
    assert TradesOf(es[0].update) == [trade] && [trade][..0] == [];
    TableStep(s, es[0]);
  }

  /**
   The queries may answer with the older of two instruments. Then a trade that the table holds is counted when it is
   delivered again, and the table's net is not its net at start-up plus the live quantity.
   */
  lemma RedeliveredIsCountedTwice() returns (a: Answers)
    ensures Answer(TwoInstruments(), a)
    ensures var s := StartUp(map["A1" := map[]], map[], 1, TwoInstruments(), a);
            var t := At(s, [SameTrade()], 1);
            && Net(s.table, ByAccount, "A1", ETH) == 1.0
            && PositionOf(t, ByAccount, "A1", ETH).quantity == 1.0
            && Net(t.table, ByAccount, "A1", ETH) == 1.0
  {
    a := OlderAnswers();
    var s := StartUp(map["A1" := map[]], map[], 1, TwoInstruments(), a);
    StartUpTime(map["A1" := map[]], map[], 1, TwoInstruments(), a);
    StartUpPosition(map["A1" := map[]], map[], 1, TwoInstruments(), a, ByAccount, "A1", ETH);
    YoungNet();
    SameTradeIsCounted(s);
  }

  // ---- a trade of an account that is not configured

  function Sold(): PrimaryKey {
    PrimaryKey("trader", 0, "A1", BTC, 2, "sold", EXCHANGE)
  }

  function Foreign(): PrimaryKey {
    PrimaryKey("trader", 0, "B1", BTC, 3, "foreign", EXCHANGE)
  }

  /** The account bought 1 and sold it; another account, which is not configured, bought 5. */
  function TwoAccounts(): Table {
    OneBuy()[Sold() := Row(SELL, 1.0, 100.0, "", "", "")][Foreign() := Row(BUY, 5.0, 100.0, "", "", "")]
  }

  lemma TwoAccountsNet()
    ensures Net(TwoAccounts(), ByAccount, "A1", BTC) == 0.0
  {
    assert "A1"[0] != "B1"[0] && |"old"| != |"sold"|;
    assert Ledger.Quantities(TwoAccounts(), BUY, ByAccount, "A1", BTC) == map[OldTrade() := 1.0];
    assert Ledger.Quantities(TwoAccounts(), SELL, ByAccount, "A1", BTC) == map[Sold() := 1.0];
    SumOne(OldTrade(), 1.0);
    SumOne(Sold(), 1.0);
  }

  lemma TwoAccountsWhole()
    ensures WholeNet(TwoAccounts(), ByAccount) == 5.0
  {
    assert "A1"[0] != "B1"[0] && |"old"| != |"sold"|;
    assert Rows(TwoAccounts(), GroupAccount, BUY) == map[OldTrade() := 1.0][Foreign() := 5.0];
    assert Rows(TwoAccounts(), GroupAccount, SELL) == map[Sold() := 1.0];
    SumOne(OldTrade(), 1.0);
    SumOne(Sold(), 1.0);
    SumInsert(map[OldTrade() := 1.0], Foreign(), 5.0);
  }

  /** The queries may answer such that the configured account, which is flat, is loaded with the other account's net. */
  lemma ForeignNetIsLoaded() returns (a: Answers)
    ensures Answer(TwoAccounts(), a)
    ensures Net(TwoAccounts(), ByAccount, "A1", BTC) == 0.0
    ensures NetOf(PositionOf(StartUp(map["A1" := map[]], map[], 1, TwoAccounts(), a), ByAccount, "A1", BTC)) == 5.0
  {
    assert |"old"| != |"sold"| && "A1"[0] != "B1"[0];
    assert OldTrade() in Rows(TwoAccounts(), GroupAccount, BUY);
    RowHasGroup(TwoAccounts(), GroupAccount, BUY, OldTrade());
    a := AnswersFor(TwoAccounts(), ByAccount, GroupKey(Name("A1"), BTC));
    TwoAccountsNet();
    TwoAccountsWhole();
    StartUpNet(map["A1" := map[]], map[], 1, TwoAccounts(), a, ByAccount, "A1", BTC);
  }

  // ---- two ready sources

  /** A user with a loaded position, and two sources. */
  function TwoSources(): State {
    Initial(map[], map["trader" := map[]], 2, map[], [LoadedRow("trader", "", BTC, 1.0, 0.0, 1)])
  }

  /** Both sources get ready, then a timer. */
  function BothReady(): seq<Event> {
    [Event.Ready(MessageInfo(0, 1, 1)), Event.Ready(MessageInfo(1, 1, 1)), Timer]
  }

  lemma TwoSourcesHold()
    ensures var s := TwoSources();
            Ok(s) && |s.sessions| == 2 && !s.sessions[0].ready && HasPosition(s, ByUser, "trader", 1)
  {
    var row := LoadedRow("trader", "", BTC, 1.0, 0.0, 1);
    InitialOk(map[], map["trader" := map[]], 2, map[], [row]);
    LoadOne(Empty(map[], map["trader" := map[]], 2, map[]), row);
  }

  lemma FirstReadyMarks(s: State)
    requires Ok(s) && |s.sessions| == 2 && !s.sessions[0].ready && HasPosition(s, ByUser, "trader", 1)
    ensures HasPosition(At(s, BothReady(), 1), ByUser, "trader", 1) && Waiting(At(s, BothReady(), 1), ByUser, "trader", 1)
  {
    assert At(s, BothReady(), 0) == s && At(s, BothReady(), 1) == Next(s, BothReady()[0]);
    assert PositionOk(s.users, s.registry, "trader", 1);
  }

  lemma BothReadyMarks(s: State)
    requires Ok(s) && |s.sessions| == 2 && !s.sessions[0].ready && HasPosition(s, ByUser, "trader", 1)
    ensures var t := At(s, BothReady(), 2);
            && |t.sessions| == 2 && t.sessions[0].ready && t.sessions[1].ready
            && HasPosition(t, ByUser, "trader", 1) && Waiting(t, ByUser, "trader", 1)
  {
    var es := BothReady();
    FirstReadyMarks(s);
    QuietStep(At(s, es, 1), es[1], ByUser, "trader", 1);
    WitnessIsReady(s, es, 2, 0, 0);
    WitnessIsReady(s, es, 2, 1, 1);
  }

  /** With both sources ready, the position goes to the first; the second, ready as well, gets no message at all. */
  lemma SecondSourceGetsNothing()
    ensures var s, es := TwoSources(), BothReady();
            && |At(s, es, 2).sessions| == 2 && At(s, es, 2).sessions[1].ready
            && (exists x <- SendsAt(s, es, 2) :: x.source == 0 && Addresses(x, ByUser, "trader", 1))
            && (forall x <- SendsAt(s, es, 2) :: x.source != 1)
  {
    var s, es := TwoSources(), BothReady();
    TwoSourcesHold();
    BothReadyMarks(s);
    RunOk(s, es, 2);
    SentToExactly(At(s, es, 2), ByUser, "trader", 1, 0);
    FirstReadyGetsAll(At(s, es, 2), 0);
  }
}
