/** A position followed through a run by owner and instrument, whatever id its instrument was given. */
module Tracking {
  import opened Types
  import opened Positions
  import opened Registries
  import opened Books
  import opened Machine
  import opened Reachability
  import opened Gating
  import opened Publication

  /** A position that does not exist yet counts as new. */
  ghost function View(r: RegistryState, b: BookState, name: string, key: InstrumentKey): PositionState {
    if key in r.lookup && name in b.owners && r.lookup[key] in b.owners[name] then b.owners[name][r.lookup[key]]
    else NewPosition(LimitFor(b.limits, name, key))
  }

  ghost function PositionOf(s: State, kind: Kind, name: string, key: InstrumentKey): PositionState {
    View(s.registry, BookOf(s, kind), name, key)
  }

  // ---- one step

  lemma InternView(r: RegistryState, b: BookState, interned: InstrumentKey, name: string, key: InstrumentKey)
    requires Bijective(r) && BookOk(b, r)
    ensures View(Intern(r, interned), b, name, key) == View(r, b, name, key)
  {
    InternKeepsBijection(r, interned);
    var r' := Intern(r, interned);
    if name in b.owners && key in r'.lookup && r'.lookup[key] in b.owners[name] {
      assert PositionOk(b, r, name, r'.lookup[key]);
    }
  }

  lemma TradeBookView(r: RegistryState, b: BookState, owner: string, update: TradeUpdate, name: string, key: InstrumentKey)
    requires Bijective(r) && BookOk(b, r) && update.key in r.lookup && owner in b.owners
    ensures View(r, TradeBook(b, owner, r.lookup[update.key], update), name, key) ==
              if owner == name && update.key == key
              then CountFills(View(r, b, name, key), update.side, update.fills)
              else View(r, b, name, key)
  {
  }

  lemma TradeIntoView(r: RegistryState, b: BookState, owner: string, update: TradeUpdate, name: string, key: InstrumentKey)
    requires Bijective(r) && BookOk(b, r)
    ensures var (r', b') := TradeInto(r, b, owner, update);
            View(r', b', name, key) ==
              if owner == name && name in b.owners && update.key == key
              then CountFills(View(r, b, name, key), update.side, update.fills)
              else View(r, b, name, key)
  {
    if owner in b.owners {
      InternView(r, b, update.key, name, key);
      InternKeepsBijection(r, update.key);
      BookOkExtends(b, r, Intern(r, update.key));
      TradeBookView(Intern(r, update.key), b, owner, update, name, key);
    }
  }

  /** Looking an instrument up for another owner changes no view. */
  lemma OtherTradeView(r: RegistryState, b: BookState, other: BookState, owner: string, update: TradeUpdate, name: string,
                       key: InstrumentKey)
    requires Bijective(r) && BookOk(b, r)
    ensures View(TradeInto(r, other, owner, update).0, b, name, key) == View(r, b, name, key)
  {
    if owner in other.owners {
      InternView(r, b, update.key, name, key);
    }
  }

  lemma AccountTradeStep(s: State, info: MessageInfo, update: TradeUpdate, name: string, key: InstrumentKey)
    requires Ok(s) && s.lastTime < update.createTime
    ensures PositionOf(OnTraded(s, info, update), ByAccount, name, key) ==
              if update.account == name && name in s.accounts.owners && update.key == key
              then CountFills(PositionOf(s, ByAccount, name, key), update.side, update.fills)
              else PositionOf(s, ByAccount, name, key)
  {
    var (r, accounts) := TradeInto(s.registry, s.accounts, update.account, update);
    TradeIntoOk(s.registry, s.accounts, update.account, update);
    TradeIntoView(s.registry, s.accounts, update.account, update, name, key);
    OtherTradeView(r, accounts, s.users, update.user, update, name, key);
  }

  lemma UserTradeStep(s: State, info: MessageInfo, update: TradeUpdate, name: string, key: InstrumentKey)
    requires Ok(s) && s.lastTime < update.createTime
    ensures PositionOf(OnTraded(s, info, update), ByUser, name, key) ==
              if update.user == name && name in s.users.owners && update.key == key
              then CountFills(PositionOf(s, ByUser, name, key), update.side, update.fills)
              else PositionOf(s, ByUser, name, key)
  {
    var (r, accounts) := TradeInto(s.registry, s.accounts, update.account, update);
    TradeIntoOk(s.registry, s.accounts, update.account, update);
    BookOkExtends(s.users, s.registry, r);
    OtherTradeView(s.registry, s.users, s.accounts, update.account, update, name, key);
    TradeIntoView(r, s.users, update.user, update, name, key);
  }

  lemma TradeStep(s: State, info: MessageInfo, update: TradeUpdate, kind: Kind, name: string, key: InstrumentKey)
    requires Ok(s)
    ensures PositionOf(OnTraded(s, info, update), kind, name, key) ==
              if TradesFor(s, Traded(info, update), kind, name, key)
              then CountFills(PositionOf(s, kind, name, key), update.side, update.fills)
              else PositionOf(s, kind, name, key)
  {
    if s.lastTime < update.createTime {
      match kind
      case ByAccount => AccountTradeStep(s, info, update, name, key);
      case ByUser => UserTradeStep(s, info, update, name, key);
    }
  }

  lemma ReferenceBookView(r: RegistryState, b: BookState, newKey: InstrumentKey, name: string, key: InstrumentKey)
    requires Bijective(r) && newKey in r.lookup
    ensures View(r, ReferenceBook(b, r.lookup[newKey], newKey), name, key) == View(r, b, name, key)
  {
  }

  lemma ReferenceStep(s: State, newKey: InstrumentKey, minTradeVol: Number, kind: Kind, name: string, key: InstrumentKey)
    requires Ok(s)
    ensures PositionOf(OnReferenceData(s, newKey, minTradeVol), kind, name, key) == PositionOf(s, kind, name, key)
  {
    InternView(s.registry, BookOf(s, kind), newKey, name, key);
    InternKeepsBijection(s.registry, newKey);
    ReferenceBookView(Intern(s.registry, newKey), BookOf(s, kind), newKey, name, key);
  }

  lemma TimerView(s: State, kind: Kind, name: string, key: InstrumentKey)
    ensures PositionOf(Next(s, Timer), kind, name, key) == PositionOf(s, kind, name, key)
  {
    FirstReadyGetsAll(s, 0);
  }

  /** Connecting, downloading and getting ready change no position. */
  lemma SessionView(s: State, e: Event, kind: Kind, name: string, key: InstrumentKey)
    requires !e.Timer? && !e.Traded? && !e.ReferenceData?
    ensures PositionOf(Next(s, e), kind, name, key) == PositionOf(s, kind, name, key)
  {
  }

  /** An event changes a position only by counting the accepted trades of that owner and instrument. */
  lemma PositionStep(s: State, e: Event, kind: Kind, name: string, key: InstrumentKey)
    requires Ok(s)
    ensures PositionOf(Next(s, e), kind, name, key) ==
              if TradesFor(s, e, kind, name, key)
              then CountFills(PositionOf(s, kind, name, key), e.update.side, e.update.fills)
              else PositionOf(s, kind, name, key)
  {
    match e
    case Timer => TimerView(s, kind, name, key);
    case Traded(info, update) => TradeStep(s, info, update, kind, name, key);
    case ReferenceData(newKey, minTradeVol) => ReferenceStep(s, newKey, minTradeVol, kind, name, key);
    case _ => SessionView(s, e, kind, name, key);
  }

  // ---- whole runs

  /** The accepted updates for one owner and instrument among the first `i` events. */
  ghost function UpdatesFor(s: State, es: seq<Event>, i: nat, kind: Kind, name: string, key: InstrumentKey)
    : seq<TradeUpdate>
    requires i <= |es|
  {
    if i == 0 then []
    else
      UpdatesFor(s, es, i - 1, kind, name, key) +
      if TradesFor(s, es[i - 1], kind, name, key) then [es[i - 1].update] else []
  }

  /** What an event means for an owner is fixed at start-up. */
  lemma TradesForFixed(s: State, t: State, e: Event, kind: Kind, name: string, key: InstrumentKey)
    requires Grows(s, t)
    ensures TradesFor(t, e, kind, name, key) == TradesFor(s, e, kind, name, key)
  {
  }

  /** In every reachable state, a position is its start value with exactly its accepted updates counted into it. */
  lemma {:induction false} RunCountsUpdates(s: State, es: seq<Event>, i: nat, kind: Kind, name: string, key: InstrumentKey)
    requires Ok(s) && i <= |es|
    ensures PositionOf(At(s, es, i), kind, name, key)
         == CountUpdates(PositionOf(s, kind, name, key), UpdatesFor(s, es, i, kind, name, key))
  {
    if i > 0 {
      RunCountsUpdates(s, es, i - 1, kind, name, key);
      RunOk(s, es, i - 1);
      var t := At(s, es, i - 1);
      PositionStep(t, es[i - 1], kind, name, key);
      TradesForFixed(s, t, es[i - 1], kind, name, key);
      var before := UpdatesFor(s, es, i - 1, kind, name, key);
      if TradesFor(s, es[i - 1], kind, name, key) {
        assert (before + [es[i - 1].update])[..|before|] == before;
      } else {
        assert before + [] == before;
      }
    }
  }

  /**
   Two runs, from start states without that position, that bring the same set of fills to an owner and instrument
   leave it with the same position, whatever else happens in either run.
   */
  lemma RunsWithSameFillsAgree(s: State, es: seq<Event>, s': State, es': seq<Event>, kind: Kind, name: string,
                               key: InstrumentKey)
    requires Ok(s) && Ok(s')
    requires PositionOf(s, kind, name, key) == NewPosition(PositionOf(s, kind, name, key).limit)
    requires PositionOf(s', kind, name, key) == PositionOf(s, kind, name, key)
    requires DeltasOf(UpdatesFor(s, es, |es|, kind, name, key)) == DeltasOf(UpdatesFor(s', es', |es'|, kind, name, key))
    requires Determined(DeltasOf(UpdatesFor(s, es, |es|, kind, name, key)))
    ensures PositionOf(At(s, es, |es|), kind, name, key) == PositionOf(At(s', es', |es'|), kind, name, key)
  {
    RunCountsUpdates(s, es, |es|, kind, name, key);
    RunCountsUpdates(s', es', |es'|, kind, name, key);
    FillSetDeterminism(PositionOf(s, kind, name, key).limit, UpdatesFor(s, es, |es|, kind, name, key),
                       UpdatesFor(s', es', |es'|, kind, name, key));
  }
}
