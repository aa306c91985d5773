/**
 Snapshots are keyed by sequence number so that a gateway can extrapolate from them: two snapshots of one connection
 differ by exactly the fills stamped between them.
 */
module Composition {
  import opened Types
  import opened Positions
  import opened Books
  import opened Machine
  import opened Reachability
  import opened Gating
  import opened Publication
  import opened Snapshots
  import opened Tracking

  ghost function NetOf(p: PositionState): real {
    p.longPosition - p.shortPosition
  }

  /** Every published entry is the position of its owner and instrument as it stands, with its configured limit. */
  lemma SendContents(s: State, es: seq<Event>, i: nat, x: Send, id: nat)
    requires Ok(s) && i < |es| && x in SendsAt(s, es, i) && id in x.limits
    ensures var t, key := At(s, es, i), x.limits[id].key;
            && Ok(t) && Held(t, x.kind, x.owner, key) && t.registry.lookup[key] == id
            && x.limits[id].longPosition == PositionOf(t, x.kind, x.owner, key).longPosition
            && x.limits[id].shortPosition == PositionOf(t, x.kind, x.owner, key).shortPosition
            && x.limits[id].limit == LimitFor(BookOf(s, x.kind).limits, x.owner, key)
  {
    RunOk(s, es, i);
    var t := At(s, es, i);
    FirstReadyGetsAll(t, 0);
    assert x in BookSends(t, x.kind, FirstReady(t, 0));
    assert PositionOk(BookOf(t, x.kind), t.registry, x.owner, id);
  }

  // ---- what is counted at each event

  /** The trade ids brought to an owner and instrument by the first `i` events. */
  ghost function SeenIds(s: State, es: seq<Event>, i: nat, kind: Kind, name: string, key: InstrumentKey): set<string>
    requires i <= |es|
  {
    if i == 0 then {}
    else
      SeenIds(s, es, i - 1, kind, name, key) +
      if TradesFor(s, es[i - 1], kind, name, key) then TradeIds(es[i - 1].update.fills) else {}
  }

  /** The signed sum of the fills that event `k` is the first to bring. */
  ghost function NewFills(s: State, es: seq<Event>, k: nat, kind: Kind, name: string, key: InstrumentKey): real
    requires k < |es|
  {
    if TradesFor(s, es[k], kind, name, key)
    then FirstSeenSum(SeenIds(s, es, k, kind, name, key), es[k].update.side, es[k].update.fills)
    else 0.0
  }

  ghost predicate InWindow(e: Event, lo: nat, hi: nat) {
    e.Traded? && lo < e.info.seqno <= hi
  }

  /** The signed sum of the first-seen fills of events `c` up to `d` whose sequence number lies in (lo, hi]. */
  ghost function StampedFills(s: State, es: seq<Event>, c: nat, d: nat, lo: nat, hi: nat, kind: Kind, name: string,
                              key: InstrumentKey): real
    requires d <= |es|
  {
    if d <= c then 0.0
    else
      StampedFills(s, es, c, d - 1, lo, hi, kind, name, key) +
      if InWindow(es[d - 1], lo, hi) then NewFills(s, es, d - 1, kind, name, key) else 0.0
  }

  /** At start-up positions may hold a database baseline, but nothing has been counted. */
  ghost predicate Uncounted(s: State) {
    Ok(s) && NoFills(s.accounts) && NoFills(s.users)
  }

  lemma UncountedPosition(s: State, kind: Kind, name: string, key: InstrumentKey)
    requires Uncounted(s)
    ensures PositionOf(s, kind, name, key).fills == {} && PositionOf(s, kind, name, key).quantity == 0.0
  {
    if Held(s, kind, name, key) {
      assert PositionOk(BookOf(s, kind), s.registry, name, s.registry.lookup[key]);
    }
  }

  /** The published net is the running quantity once anything has been counted, and the baseline until then. */
  ghost predicate NetsFrom(p: PositionState, baseline: real) {
    Netted(p) && NetOf(p) == if p.fills != {} then p.quantity else baseline
  }

  lemma CountFillsNetsFrom(p: PositionState, side: Side, fills: seq<Fill>, baseline: real)
    requires NetsFrom(p, baseline)
    ensures NetsFrom(CountFills(p, side, fills), baseline)
  {
    CountFillsAddsFirstSeen(p, side, fills);
    CountFillsKeepsNetted(p, side, fills);
  }

  lemma {:induction false} RunSeen(s: State, es: seq<Event>, i: nat, kind: Kind, name: string, key: InstrumentKey)
    requires Uncounted(s) && i <= |es|
    ensures PositionOf(At(s, es, i), kind, name, key).fills == SeenIds(s, es, i, kind, name, key)
  {
    if i == 0 {
      UncountedPosition(s, kind, name, key);
    } else {
      RunSeen(s, es, i - 1, kind, name, key);
      RunOk(s, es, i - 1);
      var t, e := At(s, es, i - 1), es[i - 1];
      PositionStep(t, e, kind, name, key);
      TradesForFixed(s, t, e, kind, name, key);
      var seen := SeenIds(s, es, i - 1, kind, name, key);
      if TradesFor(s, e, kind, name, key) {
        CountFillsAddsFirstSeen(PositionOf(t, kind, name, key), e.update.side, e.update.fills);
      } else {
        assert seen + {} == seen;
      }
    }
  }

  lemma NetsStep(s: State, e: Event, kind: Kind, name: string, key: InstrumentKey, baseline: real)
    requires Ok(s) && NetsFrom(PositionOf(s, kind, name, key), baseline)
    ensures NetsFrom(PositionOf(Next(s, e), kind, name, key), baseline)
  {
    PositionStep(s, e, kind, name, key);
    if TradesFor(s, e, kind, name, key) {
      CountFillsNetsFrom(PositionOf(s, kind, name, key), e.update.side, e.update.fills, baseline);
    }
  }

  lemma RunNets(s: State, es: seq<Event>, i: nat, kind: Kind, name: string, key: InstrumentKey)
    requires Uncounted(s) && i <= |es|
    ensures NetsFrom(PositionOf(At(s, es, i), kind, name, key), NetOf(PositionOf(s, kind, name, key)))
  {
    var baseline := NetOf(PositionOf(s, kind, name, key));
    UncountedPosition(s, kind, name, key);
    for k := 0 to i
      invariant NetsFrom(PositionOf(At(s, es, k), kind, name, key), baseline)
    {
      RunOk(s, es, k);
      NetsStep(At(s, es, k), es[k], kind, name, key, baseline);
    }
  }

  ghost function QuantityAt(s: State, es: seq<Event>, i: nat, kind: Kind, name: string, key: InstrumentKey): real
    requires i <= |es|
  {
    PositionOf(At(s, es, i), kind, name, key).quantity
  }

  lemma QuantityStep(s: State, es: seq<Event>, i: nat, kind: Kind, name: string, key: InstrumentKey)
    requires Uncounted(s) && i < |es|
    ensures PositionOf(At(s, es, i + 1), kind, name, key).quantity
         == PositionOf(At(s, es, i), kind, name, key).quantity + NewFills(s, es, i, kind, name, key)
  {
    RunSeen(s, es, i, kind, name, key);
    RunOk(s, es, i);
    var t, e := At(s, es, i), es[i];
    PositionStep(t, e, kind, name, key);
    TradesForFixed(s, t, e, kind, name, key);
    if TradesFor(s, e, kind, name, key) {
      CountFillsAddsFirstSeen(PositionOf(t, kind, name, key), e.update.side, e.update.fills);
    }
  }

  // ---- stamps

  /** Sequence numbers increase along a connection. */
  ghost predicate Increasing(es: seq<Event>, c: nat, d: nat)
    requires d <= |es|
  {
    forall a, b | c <= a < b < d && Stamps(es[a], 0) && Stamps(es[b], 0) :: es[a].info.seqno < es[b].info.seqno
  }

  ghost predicate OneSource(es: seq<Event>) {
    forall k | 0 <= k < |es| && es[k].Traded? :: es[k].info.source == 0
  }

  /** Stamps up to `lo` come before event `i`, the others after. */
  ghost predicate Separates(es: seq<Event>, c: nat, d: nat, i: nat, lo: nat)
    requires d <= |es|
  {
    && (forall k | c <= k < i && k < d && Stamps(es[k], 0) :: es[k].info.seqno <= lo)
    && (forall k | i <= k < d && Stamps(es[k], 0) :: lo < es[k].info.seqno)
  }

  /** A message separates the stamps before it from the stamps after it. */
  lemma MessageSeparates(s: State, es: seq<Event>, c: nat, d: nat, i: nat, x: Send)
    requires Fresh(s) && |s.sessions| == 1 && Connection(es, c, d) && Increasing(es, c, d)
    requires c <= i < d && x in SendsAt(s, es, i)
    ensures Separates(es, c, d, i, x.seqno)
  {
    SendsAreGated(s, es, i, x);
    var r: nat, q: nat :| ReadySince(es, i, x.source, r, q) && x.seqno == es[q].info.seqno;
    assert c <= r by {
      assert c > 0 ==> Disconnects(es[c - 1], 0);
    }
  }

  lemma StampedOutside(s: State, es: seq<Event>, c: nat, a: nat, b: nat, lo: nat, hi: nat, kind: Kind, name: string,
                       key: InstrumentKey)
    requires c <= a <= b <= |es| && forall k | a <= k < b :: !InWindow(es[k], lo, hi)
    ensures StampedFills(s, es, c, b, lo, hi, kind, name, key) == StampedFills(s, es, c, a, lo, hi, kind, name, key)
  {
    for k := a to b
      invariant StampedFills(s, es, c, k, lo, hi, kind, name, key) == StampedFills(s, es, c, a, lo, hi, kind, name, key)
    {
      assert !InWindow(es[k], lo, hi);
    }
  }

  /** What has been counted before event `k` but not among the stamped fills. */
  ghost function Unstamped(s: State, es: seq<Event>, c: nat, k: nat, lo: nat, hi: nat, kind: Kind, name: string,
                           key: InstrumentKey): real
    requires k <= |es|
  {
    QuantityAt(s, es, k, kind, name, key) - StampedFills(s, es, c, k, lo, hi, kind, name, key)
  }

  lemma UnstampedStep(s: State, es: seq<Event>, c: nat, k: nat, lo: nat, hi: nat, kind: Kind, name: string,
                      key: InstrumentKey)
    requires Uncounted(s) && c <= k < |es| && (es[k].Traded? ==> InWindow(es[k], lo, hi))
    ensures Unstamped(s, es, c, k + 1, lo, hi, kind, name, key) == Unstamped(s, es, c, k, lo, hi, kind, name, key)
  {
    QuantityStep(s, es, k, kind, name, key);
  }

  lemma StampedInside(s: State, es: seq<Event>, c: nat, a: nat, b: nat, lo: nat, hi: nat, kind: Kind, name: string,
                      key: InstrumentKey)
    requires Uncounted(s) && c <= a <= b <= |es| && forall k | a <= k < b && es[k].Traded? :: InWindow(es[k], lo, hi)
    ensures Unstamped(s, es, c, b, lo, hi, kind, name, key) == Unstamped(s, es, c, a, lo, hi, kind, name, key)
  {
    for k := a to b
      invariant Unstamped(s, es, c, k, lo, hi, kind, name, key) == Unstamped(s, es, c, a, lo, hi, kind, name, key)
    {
      UnstampedStep(s, es, c, k, lo, hi, kind, name, key);
    }
  }

  lemma StampedBetween(s: State, es: seq<Event>, c: nat, i: nat, j: nat, d: nat, lo: nat, hi: nat, kind: Kind,
                       name: string, key: InstrumentKey)
    requires Uncounted(s) && OneSource(es) && c <= i <= j <= d <= |es|
    requires Separates(es, c, d, i, lo) && Separates(es, c, d, j, hi)
    ensures StampedFills(s, es, c, d, lo, hi, kind, name, key)
         == QuantityAt(s, es, j, kind, name, key) - QuantityAt(s, es, i, kind, name, key)
  {
    StampedOutside(s, es, c, c, i, lo, hi, kind, name, key);
    StampedInside(s, es, c, i, j, lo, hi, kind, name, key);
    StampedOutside(s, es, c, j, d, lo, hi, kind, name, key);
  }

  /** The same statement about the position itself. */
  lemma NetsCompose(s: State, es: seq<Event>, c: nat, i: nat, j: nat, d: nat, lo: nat, hi: nat, kind: Kind, name: string,
                    key: InstrumentKey)
    requires Uncounted(s) && OneSource(es) && c <= i <= j <= d <= |es|
    requires Separates(es, c, d, i, lo) && Separates(es, c, d, j, hi)
    ensures NetOf(PositionOf(At(s, es, j), kind, name, key)) ==
              NetOf(PositionOf(At(s, es, i), kind, name, key)) + StampedFills(s, es, c, d, lo, hi, kind, name, key)
            <==>
            (NetOf(PositionOf(s, kind, name, key)) == 0.0
             || SeenIds(s, es, i, kind, name, key) != {}
             || SeenIds(s, es, j, kind, name, key) == {})
  {
    StampedBetween(s, es, c, i, j, d, lo, hi, kind, name, key);
    RunGrows(s, es, i, j);
    RunSeen(s, es, i, kind, name, key);
    RunSeen(s, es, j, kind, name, key);
    RunNets(s, es, i, kind, name, key);
    RunNets(s, es, j, kind, name, key);
  }

  /**
   Two snapshots of a position on one connection: the later net is the earlier net plus the first-seen fills stamped
   between the two, except exactly when a non-zero database baseline was published first and a fill was counted in
   between.
   */
  lemma SnapshotsCompose(s: State, es: seq<Event>, c: nat, d: nat, i: nat, j: nat, x: Send, y: Send, id: nat)
    requires Uncounted(s) && Fresh(s) && |s.sessions| == 1 && OneSource(es)
    requires Connection(es, c, d) && Increasing(es, c, d) && c <= i <= j < d
    requires x in SendsAt(s, es, i) && y in SendsAt(s, es, j) && x.kind == y.kind && x.owner == y.owner
    requires id in x.limits && id in y.limits
    ensures y.limits[id].key == x.limits[id].key
    ensures var key := x.limits[id].key;
            var before := x.limits[id].longPosition - x.limits[id].shortPosition;
            var after := y.limits[id].longPosition - y.limits[id].shortPosition;
            after == before + StampedFills(s, es, c, d, x.seqno, y.seqno, x.kind, x.owner, key)
            <==>
            (NetOf(PositionOf(s, x.kind, x.owner, key)) == 0.0
             || SeenIds(s, es, i, x.kind, x.owner, key) != {}
             || SeenIds(s, es, j, x.kind, x.owner, key) == {})
  {
    var key := x.limits[id].key;
    SendContents(s, es, i, x, id);
    SendContents(s, es, j, y, id);
    RunGrows(s, es, i, j);
    MessageSeparates(s, es, c, d, i, x);
    MessageSeparates(s, es, c, d, j, y);
    NetsCompose(s, es, c, i, j, d, x.seqno, y.seqno, x.kind, x.owner, key);
  }
}
