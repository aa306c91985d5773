/** Instruments: every (exchange, symbol) pair is interned to an id on first use. */
module Registries {
  import opened Types

  datatype RegistryState = RegistryState(
    next: nat,
    lookup: map<InstrumentKey, nat>,
    instruments: map<nat, InstrumentKey>)

  const EMPTY_REGISTRY := RegistryState(0, map[], map[])

  function AssignId(r: RegistryState, key: InstrumentKey): (r': RegistryState)
    ensures key in r'.lookup
  {
    if key in r.lookup then r else r.(next := r.next + 1, lookup := r.lookup[key := r.next + 1])
  }

  /** The registry after looking up an instrument, creating it when it is missing. */
  function Intern(r: RegistryState, key: InstrumentKey): (r': RegistryState)
    ensures key in r'.lookup
  {
    var r' := AssignId(r, key);
    var id := r'.lookup[key];
    if id in r'.instruments then r' else r'.(instruments := r'.instruments[id := key])
  }

  /** The two tables are inverse bijections between the known pairs and 1..next. */
  ghost predicate Bijective(r: RegistryState) {
    && (forall id :: id in r.instruments <==> 1 <= id <= r.next)
    && (forall key <- r.lookup :: r.lookup[key] in r.instruments && r.instruments[r.lookup[key]] == key)
    && (forall id <- r.instruments :: r.instruments[id] in r.lookup && r.lookup[r.instruments[id]] == id)
  }

  /** `r'` knows everything `r` knows, under the same ids. */
  ghost predicate Extends(r: RegistryState, r': RegistryState) {
    && (forall key <- r.lookup :: key in r'.lookup && r'.lookup[key] == r.lookup[key])
    && (forall id <- r.instruments :: id in r'.instruments && r'.instruments[id] == r.instruments[id])
  }

  lemma InternKeepsBijection(r: RegistryState, key: InstrumentKey)
    requires Bijective(r)
    ensures Bijective(Intern(r, key))
    ensures Extends(r, Intern(r, key))
    ensures Intern(r, key).lookup.Keys == r.lookup.Keys + {key}
    ensures Intern(Intern(r, key), key) == Intern(r, key)
  {
    if key in r.lookup {
      assert r.lookup[key] in r.instruments;
    } else {
      assert r.next + 1 !in r.instruments;
      var r' := Intern(r, key);
      assert r' == RegistryState(r.next + 1, r.lookup[key := r.next + 1], r.instruments[r.next + 1 := key]);
    }
  }

  class Registry {
    var next: nat
    var lookup: map<InstrumentKey, nat>
    var instruments: map<nat, InstrumentKey>

    ghost function View(): RegistryState
      reads this
    {
      RegistryState(next, lookup, instruments)
    }

    constructor ()
      ensures View() == EMPTY_REGISTRY
    {
      next, lookup, instruments := 0, map[], map[];
    }

    method GetInstrumentId(key: InstrumentKey) returns (id: nat)
      modifies this
      ensures View() == AssignId(old(View()), key)
      ensures id == lookup[key]
    {
      if key !in lookup {
        next := next + 1;
        lookup := lookup[key := next];
      }
      id := lookup[key];
    }

    method GetInstrument(key: InstrumentKey) returns (id: nat)
      modifies this
      ensures View() == Intern(old(View()), key)
      ensures id == lookup[key]
    {
      id := GetInstrumentId(key);
      if id !in instruments {
        instruments := instruments[id := key];
      }
    }
  }

  // ---- 32-bit identifiers

  const WORD := 0x1_0000_0000

  /** An unsigned counter value as it is stored in the signed lookup table. */
  function StoreId(next: nat): int {
    var word := next % WORD;
    if word < WORD / 2 then word else word - WORD
  }

  /** A stored id as it is handed back; zero reads as "not assigned". */
  function LoadId(stored: int): nat
    requires -WORD / 2 <= stored < WORD / 2
  {
    if stored < 0 then stored + WORD else stored
  }

  /** The unbounded ids above are the program's ids exactly as long as fewer than 2^32 instruments are known. */
  lemma StoredIdsAreExact(next: nat)
    ensures -0x8000_0000 <= StoreId(next) < 0x8000_0000
    ensures next >= 1 ==> ((StoreId(next) != 0 && LoadId(StoreId(next)) == next) <==> next < 0x1_0000_0000)
  {
    assert next < WORD ==> next % WORD == next;
  }
}
