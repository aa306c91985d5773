/**
 One position: fills are counted once by trade id and netted into a long or a short quantity.
 */
module Positions {
  import opened Types
  import opened Sums

  datatype PositionState = PositionState(
    limit: Limit,
    fills: set<string>,
    quantity: real,
    longPosition: real,
    shortPosition: real)

  function NewPosition(limit: Limit): PositionState {
    PositionState(limit, {}, 0.0, 0.0, 0.0)
  }

  /** A database position sets long and short but leaves the running quantity alone. */
  function LoadPosition(p: PositionState, long: real, short: real): PositionState {
    p.(longPosition := long, shortPosition := short)
  }

  function CountFill(p: PositionState, side: Side, fill: Fill): PositionState {
    if fill.tradeId in p.fills then p
    else
      var q := p.quantity + Signed(side, fill.quantity);
      p.(fills := p.fills + {fill.tradeId}, quantity := q, longPosition := Max(q, 0.0), shortPosition := Max(-q, 0.0))
  }

  function CountFills(p: PositionState, side: Side, fills: seq<Fill>): PositionState {
    if fills == [] then p
    else CountFill(CountFills(p, side, fills[..|fills| - 1]), side, fills[|fills| - 1])
  }

  function CountUpdates(p: PositionState, updates: seq<TradeUpdate>): PositionState {
    if updates == [] then p
    else
      var last := updates[|updates| - 1];
      CountFills(CountUpdates(p, updates[..|updates| - 1]), last.side, last.fills)
  }

  class Position {
    // the place of this object in its owner's table
    ghost const kind: Kind
    ghost const owner: string
    ghost const id: nat

    const limit: Limit
    var fills: set<string>
    var quantity: real
    var longPosition: real
    var shortPosition: real

    ghost function View(): PositionState
      reads this
    {
      PositionState(limit, fills, quantity, longPosition, shortPosition)
    }

    constructor (limit: Limit, ghost kind: Kind, ghost owner: string, ghost id: nat)
      ensures View() == NewPosition(limit)
      ensures this.kind == kind && this.owner == owner && this.id == id
    {
      this.kind, this.owner, this.id := kind, owner, id;
      this.limit := limit;
      fills, quantity, longPosition, shortPosition := {}, 0.0, 0.0, 0.0;
    }

    method OnDatabasePosition(long: real, short: real)
      modifies this
      ensures View() == LoadPosition(old(View()), long, short)
      ensures longPosition == long && shortPosition == short && quantity == old(quantity) && fills == old(fills)
    {
      longPosition := long;
      shortPosition := short;
    }

    method OnTradeUpdate(update: TradeUpdate)
      modifies this
      ensures View() == CountFills(old(View()), update.side, update.fills)
    {
      var sign := if update.side == BUY then 1.0 else -1.0;
      for i := 0 to |update.fills|
        invariant View() == CountFills(old(View()), update.side, update.fills[..i])
      {
        var item := update.fills[i];
        assert update.fills[..i + 1][..i] == update.fills[..i];
        if item.tradeId in fills {
          continue;
        }
        fills := fills + {item.tradeId};
        quantity := quantity + sign * item.quantity;
        longPosition := Max(quantity, 0.0);
        shortPosition := Max(-quantity, 0.0);
      }
      assert update.fills[..|update.fills|] == update.fills;
    }
  }

  // ---- what counting means

  function TradeIds(fills: seq<Fill>): set<string> {
    set i | 0 <= i < |fills| :: fills[i].tradeId
  }

  /** Signed sum of the fills whose trade id is neither in `seen` nor earlier in the same list. */
  ghost function FirstSeenSum(seen: set<string>, side: Side, fills: seq<Fill>): real {
    if fills == [] then 0.0
    else
      var rest, item := fills[..|fills| - 1], fills[|fills| - 1];
      FirstSeenSum(seen, side, rest) +
      if item.tradeId in seen + TradeIds(rest) then 0.0 else Signed(side, item.quantity)
  }

  /** Counting adds exactly the ids, and exactly the first-seen quantities. */
  lemma {:induction false} CountFillsAddsFirstSeen(p: PositionState, side: Side, fills: seq<Fill>)
    ensures CountFills(p, side, fills).fills == p.fills + TradeIds(fills)
    ensures CountFills(p, side, fills).quantity == p.quantity + FirstSeenSum(p.fills, side, fills)
    ensures CountFills(p, side, fills).limit == p.limit
  {
    if fills != [] {
      var rest, item := fills[..|fills| - 1], fills[|fills| - 1];
      CountFillsAddsFirstSeen(p, side, rest);
      assert TradeIds(fills) == TradeIds(rest) + {item.tradeId};
    }
  }

  /** The first-seen sum depends on `seen` only through the ids that occur in the fills. */
  lemma {:induction false} FirstSeenSumAgrees(seen: set<string>, seen': set<string>, side: Side, fills: seq<Fill>)
    requires forall i | 0 <= i < |fills| :: fills[i].tradeId in seen <==> fills[i].tradeId in seen'
    ensures FirstSeenSum(seen, side, fills) == FirstSeenSum(seen', side, fills)
  {
    if fills != [] {
      FirstSeenSumAgrees(seen, seen', side, fills[..|fills| - 1]);
      assert fills[|fills| - 1].tradeId in seen <==> fills[|fills| - 1].tradeId in seen';
    }
  }

  // ---- the netting invariant

  /**
   Once a fill has been counted, long and short are the two halves of the running quantity, so long - short is that
   quantity, neither is negative and at most one is non-zero.
   */
  ghost predicate Netted(p: PositionState) {
    && (p.fills == {} ==> p.quantity == 0.0)
    && (p.fills != {} ==>
          && p.longPosition - p.shortPosition == p.quantity
          && p.longPosition >= 0.0 && p.shortPosition >= 0.0
          && (p.longPosition == 0.0 || p.shortPosition == 0.0))
  }

  lemma {:induction false} CountFillsKeepsNetted(p: PositionState, side: Side, fills: seq<Fill>)
    requires Netted(p)
    ensures Netted(CountFills(p, side, fills))
    ensures CountFills(p, side, fills).fills == p.fills ==> CountFills(p, side, fills) == p
  {
    if fills != [] {
      CountFillsKeepsNetted(p, side, fills[..|fills| - 1]);
      CountFillsAddsFirstSeen(p, side, fills);
      CountFillsAddsFirstSeen(p, side, fills[..|fills| - 1]);
    }
  }

  // ---- the result depends on the set of fills only

  datatype Delta = Delta(tradeId: string, amount: real)

  ghost function DeltasOf(updates: seq<TradeUpdate>): set<Delta> {
    set i, j | 0 <= i < |updates| && 0 <= j < |updates[i].fills| ::
      Delta(updates[i].fills[j].tradeId, Signed(updates[i].side, updates[i].fills[j].quantity))
  }

  /** A trade id stands for one signed quantity. */
  ghost predicate Determined(deltas: set<Delta>) {
    forall d <- deltas, e <- deltas :: d.tradeId == e.tradeId ==> d == e
  }

  ghost function Amounts(deltas: set<Delta>): map<string, real>
    requires Determined(deltas)
  {
    map d | d in deltas :: d.tradeId := d.amount
  }

  lemma {:induction false} CountFillsSums(p: PositionState, side: Side, fills: seq<Fill>, amounts: map<string, real>)
    requires p.quantity == Sum(Restrict(amounts, p.fills))
    requires p.fills <= amounts.Keys
    requires forall i | 0 <= i < |fills| ::
               fills[i].tradeId in amounts && amounts[fills[i].tradeId] == Signed(side, fills[i].quantity)
    ensures var q := CountFills(p, side, fills); q.quantity == Sum(Restrict(amounts, q.fills))
  {
    if fills != [] {
      var rest, item := fills[..|fills| - 1], fills[|fills| - 1];
      CountFillsSums(p, side, rest, amounts);
      CountFillsAddsFirstSeen(p, side, rest);
      var q := CountFills(p, side, rest);
      if item.tradeId !in q.fills {
        SumInsert(Restrict(amounts, q.fills), item.tradeId, amounts[item.tradeId]);
        assert Restrict(amounts, q.fills)[item.tradeId := amounts[item.tradeId]]
            == Restrict(amounts, q.fills + {item.tradeId});
      }
    }
  }

  ghost function TradeIdsOf(updates: seq<TradeUpdate>): set<string> {
    set i, t | 0 <= i < |updates| && t in TradeIds(updates[i].fills) :: t
  }

  ghost predicate Prices(amounts: map<string, real>, update: TradeUpdate) {
    forall j | 0 <= j < |update.fills| ::
      && update.fills[j].tradeId in amounts
      && amounts[update.fills[j].tradeId] == Signed(update.side, update.fills[j].quantity)
  }

  lemma TradeIdsOfLast(updates: seq<TradeUpdate>)
    requires updates != []
    ensures TradeIdsOf(updates) == TradeIdsOf(updates[..|updates| - 1]) + TradeIds(updates[|updates| - 1].fills)
  {
    var init, last := updates[..|updates| - 1], updates[|updates| - 1];
    forall t | t in TradeIdsOf(init) ensures t in TradeIdsOf(updates) {
      var i :| 0 <= i < |init| && t in TradeIds(init[i].fills);
      assert t in TradeIds(updates[i].fills);
    }
    forall t | t in TradeIdsOf(updates) ensures t in TradeIdsOf(init) + TradeIds(last.fills) {
      var i :| 0 <= i < |updates| && t in TradeIds(updates[i].fills);
      assert i < |init| ==> t in TradeIds(init[i].fills);
    }
  }

  lemma {:induction false} CountUpdatesSums(limit: Limit, updates: seq<TradeUpdate>, amounts: map<string, real>)
    requires forall i | 0 <= i < |updates| :: Prices(amounts, updates[i])
    ensures var q := CountUpdates(NewPosition(limit), updates);
            && q.limit == limit && Netted(q)
            && q.fills == TradeIdsOf(updates) && q.fills <= amounts.Keys
            && q.quantity == Sum(Restrict(amounts, q.fills))
            && (q.fills == {} ==> q == NewPosition(limit))
  {
    if updates == [] {
      assert Restrict(amounts, {}) == map[];
    } else {
      var init, last := updates[..|updates| - 1], updates[|updates| - 1];
      CountUpdatesSums(limit, init, amounts);
      var p := CountUpdates(NewPosition(limit), init);
      assert Prices(amounts, last);
      CountFillsSums(p, last.side, last.fills, amounts);
      CountFillsAddsFirstSeen(p, last.side, last.fills);
      CountFillsKeepsNetted(p, last.side, last.fills);
      TradeIdsOfLast(updates);
    }
  }

  lemma DeltasPrice(updates: seq<TradeUpdate>)
    requires Determined(DeltasOf(updates))
    ensures forall i | 0 <= i < |updates| :: Prices(Amounts(DeltasOf(updates)), updates[i])
    ensures TradeIdsOf(updates) == Amounts(DeltasOf(updates)).Keys
  {
    var deltas := DeltasOf(updates);
    forall i | 0 <= i < |updates| ensures Prices(Amounts(deltas), updates[i]) {
      forall j | 0 <= j < |updates[i].fills|
        ensures updates[i].fills[j].tradeId in Amounts(deltas)
        ensures Amounts(deltas)[updates[i].fills[j].tradeId] == Signed(updates[i].side, updates[i].fills[j].quantity)
      {
        assert Delta(updates[i].fills[j].tradeId, Signed(updates[i].side, updates[i].fills[j].quantity)) in deltas;
      }
    }
    forall t | t in Amounts(deltas) ensures t in TradeIdsOf(updates) {
      var i, j :| 0 <= i < |updates| && 0 <= j < |updates[i].fills| && t == updates[i].fills[j].tradeId;
      assert t in TradeIds(updates[i].fills);
    }
    forall t | t in TradeIdsOf(updates) ensures t in Amounts(deltas) {
      var i :| 0 <= i < |updates| && t in TradeIds(updates[i].fills);
      assert Prices(Amounts(deltas), updates[i]);
    }
  }

  /** The state that a set of fills stands for: every id, the total, and the total netted. */
  ghost function Settled(limit: Limit, amounts: map<string, real>): PositionState {
    var q := Sum(amounts);
    PositionState(limit, amounts.Keys, q, Max(q, 0.0), Max(-q, 0.0))
  }

  lemma CountUpdatesSettles(limit: Limit, updates: seq<TradeUpdate>)
    requires Determined(DeltasOf(updates))
    ensures CountUpdates(NewPosition(limit), updates) == Settled(limit, Amounts(DeltasOf(updates)))
  {
    var amounts := Amounts(DeltasOf(updates));
    DeltasPrice(updates);
    CountUpdatesSums(limit, updates, amounts);
    assert Restrict(amounts, amounts.Keys) == amounts;
    if amounts == map[] {
      assert CountUpdates(NewPosition(limit), updates).fills == {};
    }
  }

  /**
   Any two sequences of updates that carry the same set of fills, in any order, grouping and multiplicity, leave a
   new position in the same state.
   */
  lemma FillSetDeterminism(limit: Limit, updates: seq<TradeUpdate>, updates': seq<TradeUpdate>)
    requires DeltasOf(updates) == DeltasOf(updates')
    requires Determined(DeltasOf(updates))
    ensures CountUpdates(NewPosition(limit), updates) == CountUpdates(NewPosition(limit), updates')
  {
    CountUpdatesSettles(limit, updates);
    CountUpdatesSettles(limit, updates');
  }
}
