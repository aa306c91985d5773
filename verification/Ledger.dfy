/** The trade table: a finite map by its declared primary key, written by INSERT OR REPLACE. */
module Ledger {
  import opened Types
  import opened Sums

  datatype RowType = EXCHANGE | MANUAL

  datatype PrimaryKey = PrimaryKey(
    user: string,
    strategyId: nat,
    account: string,
    key: InstrumentKey,
    time: int,
    tradeId: string,
    rowType: RowType)

  datatype Row = Row(
    side: Side,
    quantity: real,
    price: real,
    externalAccount: string,
    externalOrderId: string,
    reason: string)

  type Table = map<PrimaryKey, Row>

  datatype Trade = Trade(
    user: string,
    strategyId: nat,
    account: string,
    key: InstrumentKey,
    side: Side,
    quantity: real,
    price: real,
    time: int,
    externalAccount: string,
    externalOrderId: string,
    tradeId: string)

  /** A time of zero means "now". */
  datatype Correction = Correction(
    user: string,
    strategyId: nat,
    account: string,
    key: InstrumentKey,
    side: Side,
    quantity: real,
    price: real,
    time: int,
    reason: string)

  function TradeKey(t: Trade): PrimaryKey {
    PrimaryKey(t.user, t.strategyId, t.account, t.key, t.time, t.tradeId, EXCHANGE)
  }

  function TradeRow(t: Trade): Row {
    Row(t.side, t.quantity, t.price, t.externalAccount, t.externalOrderId, "")
  }

  function CorrectionKey(c: Correction, now: int): PrimaryKey {
    PrimaryKey(c.user, c.strategyId, c.account, c.key, if c.time != 0 then c.time else now, "", MANUAL)
  }

  function CorrectionRow(c: Correction): Row {
    Row(c.side, c.quantity, c.price, "", "", c.reason)
  }

  function InsertTrades(table: Table, trades: seq<Trade>): Table {
    if trades == [] then table
    else
      var last := trades[|trades| - 1];
      InsertTrades(table, trades[..|trades| - 1])[TradeKey(last) := TradeRow(last)]
  }

  function InsertCorrections(table: Table, corrections: seq<Correction>, now: int): Table {
    if corrections == [] then table
    else
      var last := corrections[|corrections| - 1];
      InsertCorrections(table, corrections[..|corrections| - 1], now)[CorrectionKey(last, now) := CorrectionRow(last)]
  }

  class TradeTable {
    var rows: Table

    constructor (rows: Table)
      ensures this.rows == rows
    {
      this.rows := rows;
    }

    method Insert(trades: seq<Trade>)
      modifies this
      ensures rows == InsertTrades(old(rows), trades)
    {
      for i := 0 to |trades|
        invariant rows == InsertTrades(old(rows), trades[..i])
      {
        assert trades[..i + 1][..i] == trades[..i];
        rows := rows[TradeKey(trades[i]) := TradeRow(trades[i])];
      }
      assert trades[..|trades|] == trades;
    }

    method Correct(corrections: seq<Correction>, now: int)
      modifies this
      ensures rows == InsertCorrections(old(rows), corrections, now)
    {
      for i := 0 to |corrections|
        invariant rows == InsertCorrections(old(rows), corrections[..i], now)
      {
        assert corrections[..i + 1][..i] == corrections[..i];
        rows := rows[CorrectionKey(corrections[i], now) := CorrectionRow(corrections[i])];
      }
      assert corrections[..|corrections|] == corrections;
    }
  }

  // ---- last write by primary key

  /** The row of `k` is that of its last insert, or the old one when it was not inserted. */
  lemma {:induction false} LastWriteWins(table: Table, trades: seq<Trade>, k: PrimaryKey)
    ensures k in InsertTrades(table, trades) <==> k in table || exists i | 0 <= i < |trades| :: TradeKey(trades[i]) == k
    ensures forall i | 0 <= i < |trades| && TradeKey(trades[i]) == k &&
                       (forall j | i < j < |trades| :: TradeKey(trades[j]) != k) ::
              InsertTrades(table, trades)[k] == TradeRow(trades[i])
    ensures (forall i | 0 <= i < |trades| :: TradeKey(trades[i]) != k) && k in table ==>
              InsertTrades(table, trades)[k] == table[k]
  {
    if trades != [] {
      var rest, last := trades[..|trades| - 1], trades[|trades| - 1];
      LastWriteWins(table, rest, k);
      assert forall i | 0 <= i < |rest| :: trades[i] == rest[i];
    }
  }

  /** The primary key that a correction is written under: a zero time stands for the clock, and there is no trade id. */
  predicate WritesTo(c: Correction, now: int, k: PrimaryKey) {
    k == PrimaryKey(user := c.user, strategyId := c.strategyId, account := c.account, key := c.key,
                    time := if c.time != 0 then c.time else now, tradeId := "", rowType := MANUAL)
  }

  /** The columns of a corrected row. */
  predicate HoldsCorrection(row: Row, c: Correction) {
    && row.side == c.side && row.quantity == c.quantity && row.price == c.price && row.reason == c.reason
    && row.externalAccount == "" && row.externalOrderId == ""
  }

  /** The row of `k` is that of its last correction, or the old one when it was not corrected. */
  lemma {:induction false} LastCorrectionWins(table: Table, corrections: seq<Correction>, now: int, k: PrimaryKey)
    ensures k in InsertCorrections(table, corrections, now) <==>
              k in table || exists i | 0 <= i < |corrections| :: WritesTo(corrections[i], now, k)
    ensures forall i | 0 <= i < |corrections| && WritesTo(corrections[i], now, k) &&
                       (forall j | i < j < |corrections| :: !WritesTo(corrections[j], now, k)) ::
              HoldsCorrection(InsertCorrections(table, corrections, now)[k], corrections[i])
    ensures (forall i | 0 <= i < |corrections| :: !WritesTo(corrections[i], now, k)) && k in table ==>
              InsertCorrections(table, corrections, now)[k] == table[k]
  {
    if corrections != [] {
      var rest, last := corrections[..|corrections| - 1], corrections[|corrections| - 1];
      LastCorrectionWins(table, rest, now, k);
      assert forall i | 0 <= i < |rest| :: corrections[i] == rest[i];
    }
  }

  // ---- totals per owner and instrument

  predicate Belongs(k: PrimaryKey, kind: Kind, name: string, key: InstrumentKey) {
    k.key == key && match kind case ByAccount => k.account == name case ByUser => k.user == name
  }

  ghost function Quantities(table: Table, side: Side, kind: Kind, name: string, key: InstrumentKey)
    : map<PrimaryKey, real>
  {
    map k | k in table && Belongs(k, kind, name, key) && table[k].side == side :: table[k].quantity
  }

  ghost function Total(table: Table, side: Side, kind: Kind, name: string, key: InstrumentKey): real {
    Sum(Quantities(table, side, kind, name, key))
  }

  ghost function Net(table: Table, kind: Kind, name: string, key: InstrumentKey): real {
    Total(table, BUY, kind, name, key) - Total(table, SELL, kind, name, key)
  }

  ghost function SignedRows(table: Table, kind: Kind, name: string, key: InstrumentKey): map<PrimaryKey, real> {
    map k | k in table && Belongs(k, kind, name, key) :: Signed(table[k].side, table[k].quantity)
  }

  lemma NetIsSignedSum(table: Table, kind: Kind, name: string, key: InstrumentKey)
    ensures Sum(SignedRows(table, kind, name, key)) == Net(table, kind, name, key)
  {
    var all := SignedRows(table, kind, name, key);
    var buys := Quantities(table, BUY, kind, name, key);
    var sells := Quantities(table, SELL, kind, name, key);
    var minus := map k | k in sells :: -sells[k];
    assert Restrict(all, buys.Keys) == buys;
    assert all - buys.Keys == minus by {
      assert forall k :: k in all && k !in buys <==> k in sells;
    }
    SumSplit(all, buys.Keys);
    SumNegate(sells);
  }

  lemma OneCorrection(table: Table, c: Correction, now: int)
    ensures InsertCorrections(table, [c], now) == table[CorrectionKey(c, now) := CorrectionRow(c)]
  {
    assert [c][..0] == [];
  }

  lemma CorrectedRows(table: Table, c: Correction, now: int, k: PrimaryKey, kind: Kind)
    requires WritesTo(c, now, k)
    ensures var name := if kind == ByAccount then c.account else c.user;
            SignedRows(InsertCorrections(table, [c], now), kind, name, c.key)
              == SignedRows(table, kind, name, c.key)[k := Signed(c.side, c.quantity)]
  {
    OneCorrection(table, c, now);
    assert Belongs(k, kind, if kind == ByAccount then c.account else c.user, c.key);
  }

  /**
   One correction moves the net of its account and of its user in its instrument: it adds its signed quantity, and takes
   back that of the row that it replaces.
   */
  lemma CorrectionMovesNet(table: Table, c: Correction, now: int, k: PrimaryKey, kind: Kind)
    requires WritesTo(c, now, k)
    ensures var name := if kind == ByAccount then c.account else c.user;
            Net(InsertCorrections(table, [c], now), kind, name, c.key) ==
              Net(table, kind, name, c.key)
              + (if c.side == BUY then c.quantity else -c.quantity)
              - if k !in table then 0.0 else if table[k].side == BUY then table[k].quantity else -table[k].quantity
  {
    var name := if kind == ByAccount then c.account else c.user;
    var table' := InsertCorrections(table, [c], now);
    var rows, amount := SignedRows(table, kind, name, c.key), Signed(c.side, c.quantity);
    NetIsSignedSum(table, kind, name, c.key);
    NetIsSignedSum(table', kind, name, c.key);
    CorrectedRows(table, c, now, k, kind);
    if k in table {
      SumUpdate(rows, k, amount);
    } else {
      SumInsert(rows, k, amount);
    }
  }

  /** A correction moves the net of no other owner and no other instrument. */
  lemma CorrectionMovesNoOther(table: Table, c: Correction, now: int, kind: Kind, name: string, key: InstrumentKey)
    requires key != c.key || name != if kind == ByAccount then c.account else c.user
    ensures Net(InsertCorrections(table, [c], now), kind, name, key) == Net(table, kind, name, key)
  {
    var table' := InsertCorrections(table, [c], now);
    OneCorrection(table, c, now);
    assert !Belongs(CorrectionKey(c, now), kind, name, key);
    forall side: Side ensures Quantities(table', side, kind, name, key) == Quantities(table, side, kind, name, key) {
    }
  }

  // ---- trades and corrections never meet

  ghost function Part(table: Table, rowType: RowType): Table {
    map k | k in table && k.rowType == rowType :: table[k]
  }

  lemma {:induction false} TradesAreMerged(table: Table, trades: seq<Trade>)
    ensures InsertTrades(table, trades) == table + InsertTrades(map[], trades)
    ensures forall k <- InsertTrades(map[], trades) :: k.rowType == EXCHANGE
  {
    if trades != [] {
      TradesAreMerged(table, trades[..|trades| - 1]);
    }
  }

  lemma {:induction false} CorrectionsAreMerged(table: Table, corrections: seq<Correction>, now: int)
    ensures InsertCorrections(table, corrections, now) == table + InsertCorrections(map[], corrections, now)
    ensures forall k <- InsertCorrections(map[], corrections, now) :: k.rowType == MANUAL
  {
    if corrections != [] {
      CorrectionsAreMerged(table, corrections[..|corrections| - 1], now);
    }
  }

  lemma MergesCommute(table: Table, trades: Table, corrections: Table)
    requires forall k <- trades :: k.rowType == EXCHANGE
    requires forall k <- corrections :: k.rowType == MANUAL
    ensures table + trades + corrections == table + corrections + trades
    ensures Part(table + trades, MANUAL) == Part(table, MANUAL)
    ensures Part(table + corrections, EXCHANGE) == Part(table, EXCHANGE)
  {
  }

  /** Either order of a batch of trades and a batch of corrections gives the same table. */
  lemma TradesAndCorrectionsCommute(table: Table, trades: seq<Trade>, corrections: seq<Correction>, now: int)
    ensures InsertCorrections(InsertTrades(table, trades), corrections, now)
         == InsertTrades(InsertCorrections(table, corrections, now), trades)
    ensures Part(InsertTrades(table, trades), MANUAL) == Part(table, MANUAL)
    ensures Part(InsertCorrections(table, corrections, now), EXCHANGE) == Part(table, EXCHANGE)
  {
    TradesAreMerged(table, trades);
    TradesAreMerged(InsertCorrections(table, corrections, now), trades);
    CorrectionsAreMerged(table, corrections, now);
    CorrectionsAreMerged(InsertTrades(table, trades), corrections, now);
    MergesCommute(table, InsertTrades(map[], trades), InsertCorrections(map[], corrections, now));
  }

  /** Every total is the exchange part plus the manual part. */
  lemma TotalsSplitByType(table: Table, side: Side, kind: Kind, name: string, key: InstrumentKey)
    ensures Total(table, side, kind, name, key)
         == Total(Part(table, EXCHANGE), side, kind, name, key) + Total(Part(table, MANUAL), side, kind, name, key)
  {
    var all := Quantities(table, side, kind, name, key);
    var exchange := Quantities(Part(table, EXCHANGE), side, kind, name, key);
    var manual := Quantities(Part(table, MANUAL), side, kind, name, key);
    assert Restrict(all, exchange.Keys) == exchange;
    assert all - exchange.Keys == manual by {
      assert forall k :: k in all && k !in exchange <==> k in manual;
    }
    SumSplit(all, exchange.Keys);
  }
}
