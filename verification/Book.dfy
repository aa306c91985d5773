/**
 A book holds one owner per configured name, the limits it was configured with and, per name, the instruments waiting
 to be published. Accounts and users are two books with the same code.
 */
module Books {
  import opened Types
  import opened Positions

  /** The positions of one owner by instrument id. */
  type OwnerState = map<nat, PositionState>

  datatype BookState = BookState(limits: Limits, owners: map<string, OwnerState>, dirty: map<string, set<nat>>)

  datatype RiskLimit = RiskLimit(key: InstrumentKey, longPosition: real, shortPosition: real, limit: Limit)

  // ---- lookups

  function LimitFor(limits: Limits, name: string, key: InstrumentKey): Limit {
    if name !in limits then NO_LIMIT
    else if key.exchange !in limits[name] then NO_LIMIT
    else if key.symbol !in limits[name][key.exchange] then NO_LIMIT
    else limits[name][key.exchange][key.symbol]
  }

  function DirtyOf(b: BookState, name: string): set<nat> {
    if name in b.dirty then b.dirty[name] else {}
  }

  // ---- updates

  /** One owner per configured name, nothing waiting. */
  function EmptyBook(limits: Limits): BookState {
    BookState(limits, map n | n in limits :: map[], map[])
  }

  /** The positions after making sure that `id` has one. */
  function Touch(o: OwnerState, id: nat, limit: Limit): (o': OwnerState)
    ensures id in o'
  {
    if id in o then o else o[id := NewPosition(limit)]
  }

  function Mark(b: BookState, name: string, ids: set<nat>): BookState {
    b.(dirty := b.dirty[name := DirtyOf(b, name) + ids])
  }

  /** All of `names` are marked. */
  function MarkNames(b: BookState, names: set<string>, ids: set<nat>): BookState {
    b.(dirty := map n | n in b.dirty.Keys + names :: if n in names then DirtyOf(b, n) + ids else b.dirty[n])
  }

  lemma MarkOneMore(b: BookState, names: set<string>, ids: set<nat>, name: string)
    requires name !in names
    ensures Mark(MarkNames(b, names, ids), name, ids) == MarkNames(b, names + {name}, ids)
  {
  }

  function MarkOwners(b: BookState, ids: set<nat>): BookState {
    MarkNames(b, b.owners.Keys, ids)
  }

  /** The update is counted into the position of one owner. */
  function CountPosition(o: OwnerState, id: nat, limit: Limit, update: TradeUpdate): OwnerState {
    var o' := Touch(o, id, limit);
    o'[id := CountFills(o'[id], update.side, update.fills)]
  }

  function CountOwner(owners: map<string, OwnerState>, limits: Limits, name: string, id: nat, update: TradeUpdate)
    : map<string, OwnerState>
    requires name in owners
  {
    owners[name := CountPosition(owners[name], id, LimitFor(limits, name, update.key), update)]
  }

  function TradeBook(b: BookState, name: string, id: nat, update: TradeUpdate): BookState
    requires name in b.owners
  {
    Mark(b.(owners := CountOwner(b.owners, b.limits, name, id, update)), name, {id})
  }

  /** A database position is put into the position of one owner. */
  function LoadInPosition(o: OwnerState, id: nat, limit: Limit, long: real, short: real): OwnerState {
    var o' := Touch(o, id, limit);
    o'[id := LoadPosition(o'[id], long, short)]
  }

  function LoadBook(b: BookState, name: string, id: nat, key: InstrumentKey, long: real, short: real): BookState
    requires name in b.owners
  {
    b.(owners := b.owners[name := LoadInPosition(b.owners[name], id, LimitFor(b.limits, name, key), long, short)])
  }

  /** Each of `names` has a position in the instrument; nothing else differs. */
  function TouchNames(owners: map<string, OwnerState>, limits: Limits, names: set<string>, id: nat, key: InstrumentKey)
    : map<string, OwnerState>
  {
    map n | n in owners :: if n in names then Touch(owners[n], id, LimitFor(limits, n, key)) else owners[n]
  }

  lemma TouchOneMore(owners: map<string, OwnerState>, limits: Limits, names: set<string>, id: nat, key: InstrumentKey,
                     name: string)
    requires name in owners && name !in names
    ensures TouchNames(owners, limits, names + {name}, id, key)
         == TouchNames(owners, limits, names, id, key)[name := Touch(owners[name], id, LimitFor(limits, name, key))]
  {
  }

  /** Reference data leaves existing positions alone and creates the missing ones. */
  function ReferenceBook(b: BookState, id: nat, key: InstrumentKey): BookState {
    b.(owners := TouchNames(b.owners, b.limits, b.owners.Keys, id, key))
  }

  // ---- publishing

  /** What draining `name` hands out. */
  function Outgoing(b: BookState, instruments: map<nat, InstrumentKey>, name: string): map<nat, RiskLimit> {
    map id | id in DirtyOf(b, name) && id in instruments && name in b.owners && id in b.owners[name] ::
      var p := b.owners[name][id];
      RiskLimit(instruments[id], p.longPosition, p.shortPosition, p.limit)
  }

  function Cleared(dirty: map<string, set<nat>>, names: set<string>): map<string, set<nat>> {
    map n | n in dirty :: if n in names then {} else dirty[n]
  }

  function Drained(b: BookState): BookState {
    b.(dirty := Cleared(b.dirty, b.owners.Keys))
  }

  /** `order` visits every element of `s` exactly once. */
  ghost predicate Visits<T(!new)>(order: seq<T>, s: set<T>) {
    && (forall i, j | 0 <= i < j < |order| :: order[i] != order[j])
    && (forall x :: x in order <==> x in s)
  }

  /** `limits` lists the entries of `m` in some order. */
  ghost predicate Lists(limits: seq<RiskLimit>, m: map<nat, RiskLimit>) {
    exists order: seq<nat> :: ListsIn(limits, m, order)
  }

  ghost predicate ListsIn(limits: seq<RiskLimit>, m: map<nat, RiskLimit>, order: seq<nat>) {
    && Visits(order, m.Keys)
    && |limits| == |order|
    && forall i | 0 <= i < |order| :: limits[i] == m[order[i]]
  }

  /** A loop over `all` in any order: what is done and what is left to do. */
  ghost predicate Progress<T>(all: set<T>, todo: set<T>, done: set<T>) {
    todo <= all && done == all - todo
  }

  lemma OneMore<T>(all: set<T>, todo: set<T>, done: set<T>, x: T)
    requires Progress(all, todo, done) && x in todo
    ensures Progress(all, todo - {x}, done + {x}) && x in all && x !in done
  {
  }

  // ---- objects

  class Owner {
    ghost const kind: Kind
    const name: string
    var positions: map<nat, Position>

    ghost predicate Valid()
      reads this
    {
      forall i <- positions :: positions[i].kind == kind && positions[i].owner == name && positions[i].id == i
    }

    ghost function View(): OwnerState
      reads this, positions.Values
    {
      map i | i in positions :: positions[i].View()
    }

    constructor (name: string, ghost kind: Kind)
      ensures this.name == name && this.kind == kind
      ensures Valid() && positions == map[]
    {
      this.name := name;
      this.kind := kind;
      positions := map[];
    }

    /** Only the entry of `id` may be new. */
    twostate predicate Grown(id: nat)
      reads this
    {
      if id in old(positions) then positions == old(positions)
      else id in positions && fresh(positions[id]) && positions == old(positions)[id := positions[id]]
    }

    /** The position of an instrument, created with `limit` when it is missing. */
    method FindOrCreate(id: nat, limit: Limit) returns (p: Position)
      requires Valid()
      modifies this
      ensures Valid()
      ensures if id in old(positions) then positions == old(positions) else fresh(p) && positions == old(positions)[id := p]
      ensures p == positions[id]
      ensures View() == Touch(old(View()), id, limit)
    {
      if id in positions {
        p := positions[id];
      } else {
        p := new Position(limit, kind, name, id);
        positions := positions[id := p];
      }
    }

    method OnTradeUpdate(id: nat, limit: Limit, update: TradeUpdate)
      requires Valid()
      modifies this, if id in positions then {positions[id]} else {}
      ensures Valid()
      ensures View() == CountPosition(old(View()), id, limit, update)
      ensures Grown(id)
    {
      var p := FindOrCreate(id, limit);
      p.OnTradeUpdate(update);
    }

    method OnDatabasePosition(id: nat, limit: Limit, long: real, short: real)
      requires Valid()
      modifies this, if id in positions then {positions[id]} else {}
      ensures Valid()
      ensures View() == LoadInPosition(old(View()), id, limit, long, short)
      ensures Grown(id)
    {
      var p := FindOrCreate(id, limit);
      p.OnDatabasePosition(long, short);
    }

    method OnReferenceData(id: nat, limit: Limit)
      requires Valid()
      modifies this
      ensures Valid()
      ensures View() == Touch(old(View()), id, limit)
      ensures Grown(id)
    {
      var _ := FindOrCreate(id, limit);
    }
  }

  class Book {
    ghost const kind: Kind
    const limits: Limits
    const owners: map<string, Owner>
    ghost const Members: set<Owner>
    var dirty: map<string, set<nat>>
    ghost var Repr: set<Position>

    /** Every owner sits under its own name, and all positions are tracked. */
    ghost predicate Valid()
      reads this`Repr, Members
    {
      && (forall n <- owners ::
            && owners[n] in Members && owners[n].name == n && owners[n].Valid()
            && forall i <- owners[n].positions :: owners[n].positions[i] in Repr)
      && (forall o <- Members :: o.kind == kind)
      && (forall p <- Repr :: p.kind == kind)
    }

    ghost function Owners(): map<string, OwnerState>
      requires Valid()
      reads this`Repr, Members, Repr
    {
      map n | n in owners :: owners[n].View()
    }

    ghost function View(): BookState
      requires Valid()
      reads this, Members, Repr
    {
      BookState(limits, Owners(), dirty)
    }

    /** A book is what its own objects make it. */
    twostate lemma Kept()
      requires old(Valid())
      requires unchanged(this) && unchanged(Members) && unchanged(old(Repr))
      ensures Valid() && View() == old(View())
    {
    }

    /** One owner per configured name, nothing waiting. */
    constructor (limits: Limits, ghost kind: Kind)
      ensures Valid() && this.kind == kind && fresh(Members) && Repr == {}
      ensures View() == EmptyBook(limits)
    {
      var table: map<string, Owner> := map[];
      var todo := limits.Keys;
      while todo != {}
        invariant todo <= limits.Keys && table.Keys == limits.Keys - todo
        invariant forall n <- table ::
                    fresh(table[n]) &&
                    table[n].kind == kind && table[n].name == n && table[n].Valid() && table[n].positions == map[]
      {
        var n :| n in todo;
        todo := todo - {n};
        var o := new Owner(n, kind);
        table := table[n := o];
      }
      this.kind := kind;
      this.limits := limits;
      owners := table;
      Members := table.Values;
      dirty := map[];
      Repr := {};
    }

    /** What does not belong to one position of `name` is as it was. */
    twostate lemma OtherOwner(new name: string, new id: nat, new other: string)
      requires old(Valid())
      requires name in owners && other in owners && other != name
      requires forall o <- Members | o != owners[name] :: unchanged(o)
      requires forall p <- old(Repr) | id !in old(owners[name].positions) || p != old(owners[name].positions[id]) ::
                 unchanged(p)
      ensures owners[other].Valid() && owners[other].positions == old(owners[other].positions)
      ensures owners[other].View() == old(owners[other].View())
    {
    }

    /** After an update of one position of `name`, all other owners are as they were. */
    twostate lemma OnlyOwner(new name: string, new id: nat)
      requires old(Valid())
      requires name in owners
      requires owners[name].Valid()
      requires owners[name].Grown(id)
      requires Repr == old(Repr) + {owners[name].positions[id]}
      requires forall o <- Members | o != owners[name] :: unchanged(o)
      requires forall p <- old(Repr) | id !in old(owners[name].positions) || p != old(owners[name].positions[id]) ::
                 unchanged(p)
      ensures Valid()
      ensures Owners() == old(Owners())[name := owners[name].View()]
    {
      forall n | n in owners && n != name
        ensures owners[n].Valid() && owners[n].positions == old(owners[n].positions)
        ensures owners[n].View() == old(owners[n].View())
      {
        OtherOwner(name, id, n);
      }
    }

    method OnTradeUpdate(name: string, id: nat, update: TradeUpdate)
      requires Valid() && name in owners
      modifies this, Members, Repr
      ensures Valid() && fresh(Repr - old(Repr))
      ensures View() == TradeBook(old(View()), name, id, update)
    {
      CountTrade(name, id, update);
      PublishInstrument(name, id);
    }

    method CountTrade(name: string, id: nat, update: TradeUpdate)
      requires Valid() && name in owners
      modifies this`Repr, Members, Repr
      ensures Valid() && fresh(Repr - old(Repr))
      ensures Owners() == old(Owners())[name := owners[name].View()]
      ensures owners[name].View() == CountPosition(old(owners[name].View()), id, LimitFor(limits, name, update.key), update)
    {
      var o, limit := owners[name], LimitFor(limits, name, update.key);
      o.OnTradeUpdate(id, limit, update);
      Repr := Repr + {owners[name].positions[id]};
      OnlyOwner(name, id);
    }

    method PublishInstrument(name: string, id: nat)
      requires Valid()
      modifies this`dirty
      ensures Valid() && Owners() == old(Owners())
      ensures dirty == Mark(old(View()), name, {id}).dirty
    {
      dirty := dirty[name := (if name in dirty then dirty[name] else {}) + {id}];
    }

    method OnDatabasePosition(name: string, id: nat, key: InstrumentKey, long: real, short: real)
      requires Valid() && name in owners
      modifies this`Repr, Members, Repr
      ensures Valid() && fresh(Repr - old(Repr))
      ensures View() == LoadBook(old(View()), name, id, key, long, short)
    {
      LoadInOwner(name, id, key, long, short);
    }

    method LoadInOwner(name: string, id: nat, key: InstrumentKey, long: real, short: real)
      requires Valid() && name in owners
      modifies this`Repr, Members, Repr
      ensures Valid() && fresh(Repr - old(Repr))
      ensures Owners() == old(Owners())[name := owners[name].View()]
      ensures owners[name].View() == LoadInPosition(old(owners[name].View()), id, LimitFor(limits, name, key), long, short)
    {
      var o, limit := owners[name], LimitFor(limits, name, key);
      o.OnDatabasePosition(id, limit, long, short);
      Repr := Repr + {owners[name].positions[id]};
      OnlyOwner(name, id);
    }

    method TouchOwner(name: string, id: nat, key: InstrumentKey)
      requires Valid() && name in owners
      modifies this`Repr, Members
      ensures Valid() && fresh(Repr - old(Repr))
      ensures Owners() == old(Owners())[name := Touch(old(Owners())[name], id, LimitFor(limits, name, key))]
    {
      owners[name].OnReferenceData(id, LimitFor(limits, name, key));
      Repr := Repr + {owners[name].positions[id]};
      OnlyOwner(name, id);
    }

    method OnReferenceData(id: nat, key: InstrumentKey)
      requires Valid()
      modifies this`Repr, Members
      ensures Valid() && fresh(Repr - old(Repr))
      ensures View() == ReferenceBook(old(View()), id, key)
    {
      ghost var before := Owners();
      ghost var done: set<string> := {};
      var names := owners.Keys;
      var todo := names;
      assert TouchNames(before, limits, done, id, key) == before;
      while todo != {}
        invariant Progress(names, todo, done)
        invariant Valid() && fresh(Repr - old(Repr))
        invariant Owners() == TouchNames(before, limits, done, id, key)
      {
        var n :| n in todo;
        OneMore(names, todo, done, n);
        TouchOneMore(before, limits, done, id, key, n);
        TouchOwner(n, id, key);
        todo, done := todo - {n}, done + {n};
      }
      assert done == before.Keys;
    }

    /** Marks every known instrument; the name need not be that of an owner. */
    method PublishAll(name: string, instruments: map<nat, InstrumentKey>)
      requires Valid()
      modifies this`dirty
      ensures View() == Mark(old(View()), name, instruments.Keys)
    {
      var tmp := if name in dirty then dirty[name] else {};
      var todo := instruments.Keys;
      while todo != {}
        invariant todo <= instruments.Keys
        invariant tmp == (if name in dirty then dirty[name] else {}) + (instruments.Keys - todo)
      {
        var id :| id in todo;
        todo := todo - {id};
        tmp := tmp + {id};
      }
      assert instruments.Keys - todo == instruments.Keys;
      dirty := dirty[name := tmp];
    }

    method PublishAllOwners(instruments: map<nat, InstrumentKey>)
      requires Valid()
      modifies this`dirty
      ensures View() == MarkOwners(old(View()), instruments.Keys)
    {
      ghost var before := View();
      ghost var done: set<string> := {};
      var names := owners.Keys;
      var todo := names;
      assert MarkNames(before, done, instruments.Keys).dirty == before.dirty;
      while todo != {}
        invariant Progress(names, todo, done)
        invariant View() == MarkNames(before, done, instruments.Keys)
      {
        var n :| n in todo;
        OneMore(names, todo, done, n);
        MarkOneMore(before, done, instruments.Keys, n);
        PublishAll(n, instruments);
        todo, done := todo - {n}, done + {n};
      }
      assert done == before.owners.Keys;
    }

    /** The waiting instruments of `name`, in any order. */
    method Collect(name: string, instruments: map<nat, InstrumentKey>) returns (out: seq<RiskLimit>)
      requires Valid()
      ensures Lists(out, Outgoing(View(), instruments, name))
    {
      out := [];
      ghost var m := Outgoing(View(), instruments, name);
      ghost var order: seq<nat> := [];
      var todo := if name in dirty then dirty[name] else {};
      while todo != {}
        invariant forall id <- todo :: id in DirtyOf(View(), name)
        invariant forall x :: x in order <==> x in m && x !in todo
        invariant forall i, j | 0 <= i < j < |order| :: order[i] != order[j]
        invariant |out| == |order| && forall i | 0 <= i < |order| :: out[i] == m[order[i]]
      {
        var id :| id in todo;
        todo := todo - {id};
        if id !in instruments || name !in owners {
          continue;
        }
        if id in owners[name].positions {
          var p := owners[name].positions[id];
          out := out + [RiskLimit(instruments[id], p.longPosition, p.shortPosition, p.limit)];
          order := order + [id];
        }
      }
      assert ListsIn(out, m, order);
    }

    /** Hands out what waits for `name` and clears its set. */
    method DrainOwner(name: string, instruments: map<nat, InstrumentKey>) returns (out: seq<RiskLimit>)
      requires Valid()
      modifies this`dirty
      ensures Valid() && View() == old(View()).(dirty := Cleared(old(dirty), {name}))
      ensures Lists(out, Outgoing(old(View()), instruments, name))
    {
      out := Collect(name, instruments);
      ClearOwner(name);
    }

    method ClearOwner(name: string)
      requires Valid()
      modifies this`dirty
      ensures Valid() && Owners() == old(Owners()) && dirty == Cleared(old(dirty), {name})
    {
      if name in dirty {
        dirty := dirty[name := {}];
      }
    }
  }
}
