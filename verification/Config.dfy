/** The configuration parser: it consumes a TOML tree key by key and rejects whatever is left over. */
module Configs {
  import opened Types
  import opened Books

  datatype Node =
    | Table(entries: map<string, Node>)
    | Array(items: seq<Node>)
    | Text(text: string)
    | Real(number: Number)
    | Flag(flag: bool)

  datatype Result<+T> = Accepted(value: T) | Rejected

  datatype Config = Config(symbols: map<string, set<string>>, accounts: Limits, users: Limits)

  const EXCHANGE := "deribit"

  const LONG_POSITION := "long_position_limit"
  const SHORT_POSITION := "short_position_limit"
  const LONG_EXPOSURE := "long_risk_exposure_limit"
  const SHORT_EXPOSURE := "short_risk_exposure_limit"
  const NETTING := "allow_netting"

  const FIELDS := {LONG_POSITION, SHORT_POSITION, LONG_EXPOSURE, SHORT_EXPOSURE, NETTING}

  lemma NamesAreDistinct()
    ensures LONG_POSITION != SHORT_POSITION && LONG_POSITION != LONG_EXPOSURE && LONG_POSITION != SHORT_EXPOSURE
    ensures SHORT_POSITION != LONG_EXPOSURE && SHORT_POSITION != SHORT_EXPOSURE && LONG_EXPOSURE != SHORT_EXPOSURE
    ensures NETTING !in {LONG_POSITION, SHORT_POSITION, LONG_EXPOSURE, SHORT_EXPOSURE}
    ensures "symbols" != "accounts" && "symbols" != "users" && "accounts" != "users"
  {
    assert |LONG_POSITION| == 19 && |SHORT_POSITION| == 20 && |LONG_EXPOSURE| == 24 && |SHORT_EXPOSURE| == 25;
    assert |NETTING| == 13;
    assert |"symbols"| == 7 && |"accounts"| == 8 && |"users"| == 5;
  }

  // ---- what the parser takes for granted: values have the types it reads them at

  ghost predicate LeafTyped(leaf: map<string, Node>) {
    && (forall f | f in {LONG_POSITION, SHORT_POSITION, LONG_EXPOSURE, SHORT_EXPOSURE} && f in leaf :: leaf[f].Real?)
    && (NETTING in leaf ==> leaf[NETTING].Flag?)
  }

  ghost predicate SymbolsTyped(node: Node) {
    match node
    case Text(_) => true
    case Array(items) => forall i | 0 <= i < |items| :: items[i].Text?
    case Table(_) => true
    case _ => false
  }

  ghost predicate ByExchangeTyped(t: map<string, Node>) {
    forall s <- t :: t[s].Table? ==> LeafTyped(t[s].entries)
  }

  ghost predicate ByOwnerTyped(t: map<string, Node>) {
    forall e <- t :: t[e].Table? ==> ByExchangeTyped(t[e].entries)
  }

  ghost predicate LimitsTyped(node: Node) {
    node.Table? ==> forall a <- node.entries :: node.entries[a].Table? ==> ByOwnerTyped(node.entries[a].entries)
  }

  ghost predicate RootTyped(root: map<string, Node>) {
    && ("symbols" in root ==> SymbolsTyped(root["symbols"]))
    && ("accounts" in root ==> LimitsTyped(root["accounts"]))
    && ("users" in root ==> LimitsTyped(root["users"]))
  }

  // ---- what the tree says

  function NumberAt(leaf: map<string, Node>, field: string): Number {
    if field in leaf && leaf[field].Real? then leaf[field].number else NaN
  }

  /** The limit a leaf stands for: every missing field keeps its default. */
  function LeafLimit(leaf: map<string, Node>): Limit {
    Limit(NumberAt(leaf, LONG_POSITION), NumberAt(leaf, SHORT_POSITION), NumberAt(leaf, LONG_EXPOSURE),
          NumberAt(leaf, SHORT_EXPOSURE), NETTING in leaf && leaf[NETTING] == Flag(true))
  }

  /** The child of a node, or an empty table where there is none. */
  function Child(node: Node, key: string): Node {
    if node.Table? && key in node.entries then node.entries[key] else Table(map[])
  }

  /** The limit at section.owner.exchange.symbol of the tree. */
  function LimitAt(root: map<string, Node>, section: string, owner: string, key: InstrumentKey): Limit {
    var leaf := Child(Child(Child(Child(Table(root), section), owner), key.exchange), key.symbol);
    if leaf.Table? then LeafLimit(leaf.entries) else NO_LIMIT
  }

  // ---- what is accepted

  ghost predicate LeafOk(node: Node) {
    node.Table? && node.entries.Keys <= FIELDS
  }

  ghost predicate ByExchangeOk(node: Node) {
    node.Table? && forall s <- node.entries :: LeafOk(node.entries[s])
  }

  ghost predicate ByOwnerOk(node: Node) {
    node.Table? && forall e <- node.entries :: ByExchangeOk(node.entries[e])
  }

  ghost predicate LimitsOk(node: Node) {
    node.Table? && forall a <- node.entries :: ByOwnerOk(node.entries[a])
  }

  ghost predicate RootOk(root: map<string, Node>) {
    && root.Keys <= {"symbols", "accounts", "users"}
    && "symbols" in root && (root["symbols"].Text? || root["symbols"].Array?)
    && ("accounts" in root ==> LimitsOk(root["accounts"]))
    && ("users" in root ==> LimitsOk(root["users"]))
  }

  // ---- what an accepted tree says

  ghost function ExchangeLimits(node: Node): map<string, Limit>
    requires ByExchangeOk(node)
  {
    map s | s in node.entries :: LeafLimit(node.entries[s].entries)
  }

  ghost function OwnerLimits(node: Node): map<string, map<string, Limit>>
    requires ByOwnerOk(node)
  {
    map e | e in node.entries :: ExchangeLimits(node.entries[e])
  }

  ghost function SectionLimits(node: Node): Limits
    requires LimitsOk(node)
  {
    map a | a in node.entries :: OwnerLimits(node.entries[a])
  }

  ghost function LimitsUnder(root: map<string, Node>, section: string): Limits
    requires section in root ==> LimitsOk(root[section])
  {
    if section in root then SectionLimits(root[section]) else map[]
  }

  ghost function SymbolsOf(node: Node): map<string, set<string>>
    requires SymbolsTyped(node)
  {
    match node
    case Text(text) => map[EXCHANGE := {text}]
    case Array(items) =>
      if items == [] then map[] else map[EXCHANGE := set i | 0 <= i < |items| :: items[i].text]
    case _ => map[]
  }

  /** What an accepted tree says. */
  ghost function ConfigOf(root: map<string, Node>): Config
    requires RootTyped(root) && RootOk(root)
  {
    Config(SymbolsOf(root["symbols"]), LimitsUnder(root, "accounts"), LimitsUnder(root, "users"))
  }

  // ---- the parser

  /** A table that is consumed key by key. */
  class Entries {
    var entries: map<string, Node>

    constructor (entries: map<string, Node>)
      ensures this.entries == entries
    {
      this.entries := entries;
    }

    method FindAndRemove(key: string) returns (found: Option<Node>)
      modifies this
      ensures found == if key in old(entries) then Some(old(entries)[key]) else None
      ensures entries == old(entries) - {key}
    {
      if key !in entries {
        return None;
      }
      found := Some(entries[key]);
      entries := entries - {key};
    }

    method TakeNumber(field: string) returns (value: Number)
      requires field in entries ==> entries[field].Real?
      modifies this
      ensures value == NumberAt(old(entries), field) && entries == old(entries) - {field}
    {
      var found := FindAndRemove(field);
      value := if found.Some? then found.value.number else NaN;
    }

    method TakeFlag(field: string) returns (value: bool)
      requires field in entries ==> entries[field].Flag?
      modifies this
      ensures value == (field in old(entries) && old(entries)[field] == Flag(true)) && entries == old(entries) - {field}
    {
      var found := FindAndRemove(field);
      value := found.Some? && found.value.flag;
    }
  }

  lemma NothingIsLeft(entries: map<string, Node>, rest: map<string, Node>)
    requires rest ==
               entries - {LONG_POSITION} - {SHORT_POSITION} - {LONG_EXPOSURE} - {SHORT_EXPOSURE} - {NETTING}
    ensures rest == map[] <==> entries.Keys <= FIELDS
  {
    assert rest.Keys == entries.Keys - FIELDS;
    assert rest == map[] <==> rest.Keys == {};
  }

  method ParseLeaf(node: Node) returns (r: Result<Limit>)
    requires node.Table? ==> LeafTyped(node.entries)
    ensures r == if LeafOk(node) then Accepted(LeafLimit(node.entries)) else Rejected
  {
    if !node.Table? {
      return Rejected;
    }
    NamesAreDistinct();
    var t := new Entries(node.entries);
    var longPosition := t.TakeNumber(LONG_POSITION);
    var shortPosition := t.TakeNumber(SHORT_POSITION);
    var longExposure := t.TakeNumber(LONG_EXPOSURE);
    var shortExposure := t.TakeNumber(SHORT_EXPOSURE);
    var allowNetting := t.TakeFlag(NETTING);
    NothingIsLeft(node.entries, t.entries);
    r := if t.entries == map[] then Accepted(Limit(longPosition, shortPosition, longExposure, shortExposure, allowNetting))
         else Rejected;
  }

  /** symbol to limit */
  method ParseExchange(node: Node) returns (r: Result<map<string, Limit>>)
    requires node.Table? ==> ByExchangeTyped(node.entries)
    ensures r == if ByExchangeOk(node) then Accepted(ExchangeLimits(node)) else Rejected
  {
    if !node.Table? {
      return Rejected;
    }
    var result: map<string, Limit> := map[];
    var todo := node.entries.Keys;
    while todo != {}
      invariant todo <= node.entries.Keys
      invariant forall s <- node.entries | s !in todo :: LeafOk(node.entries[s])
      invariant result == map s | s in node.entries && s !in todo :: LeafLimit(node.entries[s].entries)
    {
      var s :| s in todo;
      todo := todo - {s};
      var leaf := ParseLeaf(node.entries[s]);
      if leaf.Rejected? {
        return Rejected;
      }
      result := result[s := leaf.value];
    }
    assert result == ExchangeLimits(node);
    r := Accepted(result);
  }

  /** exchange to symbol to limit */
  method ParseOwner(node: Node) returns (r: Result<map<string, map<string, Limit>>>)
    requires node.Table? ==> ByOwnerTyped(node.entries)
    ensures r == if ByOwnerOk(node) then Accepted(OwnerLimits(node)) else Rejected
  {
    if !node.Table? {
      return Rejected;
    }
    var result: map<string, map<string, Limit>> := map[];
    var todo := node.entries.Keys;
    while todo != {}
      invariant todo <= node.entries.Keys
      invariant forall e <- node.entries | e !in todo :: ByExchangeOk(node.entries[e])
      invariant result == map e | e in node.entries && e !in todo :: ExchangeLimits(node.entries[e])
    {
      var e :| e in todo;
      todo := todo - {e};
      var limits := ParseExchange(node.entries[e]);
      if limits.Rejected? {
        return Rejected;
      }
      result := result[e := limits.value];
    }
    assert result == OwnerLimits(node);
    r := Accepted(result);
  }

  method ParseSection(node: Node) returns (r: Result<Limits>)
    requires LimitsTyped(node)
    ensures r == if LimitsOk(node) then Accepted(SectionLimits(node)) else Rejected
  {
    if !node.Table? {
      return Rejected;
    }
    var result: Limits := map[];
    var todo := node.entries.Keys;
    while todo != {}
      invariant todo <= node.entries.Keys
      invariant forall a <- node.entries | a !in todo :: ByOwnerOk(node.entries[a])
      invariant result == map a | a in node.entries && a !in todo :: OwnerLimits(node.entries[a])
    {
      var a :| a in todo;
      todo := todo - {a};
      var limits := ParseOwner(node.entries[a]);
      if limits.Rejected? {
        return Rejected;
      }
      result := result[a := limits.value];
    }
    assert result == SectionLimits(node);
    r := Accepted(result);
  }

  /** An absent section is an empty one. */
  method ParseLimits(root: Entries, name: string) returns (r: Result<Limits>)
    requires name in root.entries ==> LimitsTyped(root.entries[name])
    modifies root
    ensures root.entries == old(root.entries) - {name}
    ensures r.Accepted? <==> (name in old(root.entries) ==> LimitsOk(old(root.entries)[name]))
    ensures r.Accepted? ==> r.value == LimitsUnder(old(root.entries), name)
  {
    var found := root.FindAndRemove(name);
    if found.Some? {
      r := ParseSection(found.value);
    } else {
      r := Accepted(map[]);
    }
  }

  method ParseSymbols(root: Entries) returns (r: Result<map<string, set<string>>>)
    requires "symbols" in root.entries ==> SymbolsTyped(root.entries["symbols"])
    modifies root
    ensures root.entries == old(root.entries) - {"symbols"}
    ensures r.Accepted? <==>
              "symbols" in old(root.entries) && var node := old(root.entries)["symbols"]; node.Text? || node.Array?
    ensures r.Accepted? ==> r.value == SymbolsOf(old(root.entries)["symbols"])
  {
    var found := root.FindAndRemove("symbols");
    if found.None? || found.value.Table? {
      return Rejected;
    }
    var result: map<string, set<string>> := map[];
    if found.value.Text? {
      result := map[EXCHANGE := {found.value.text}];
    } else {
      var items := found.value.items;
      for i := 0 to |items|
        invariant result == if i == 0 then map[] else map[EXCHANGE := set j | 0 <= j < i :: items[j].text]
      {
        var before := if EXCHANGE in result then result[EXCHANGE] else {};
        assert before == set j | 0 <= j < i :: items[j].text;
        assert (set j | 0 <= j < i + 1 :: items[j].text) == (set j | 0 <= j < i :: items[j].text) + {items[i].text};
        result := result[EXCHANGE := before + {items[i].text}];
      }
    }
    r := Accepted(result);
  }

  /** Parsing succeeds exactly on the accepted trees, and then returns what the tree says. */
  method Parse(root: map<string, Node>) returns (r: Result<Config>)
    requires RootTyped(root)
    ensures r == if RootOk(root) then Accepted(ConfigOf(root)) else Rejected
  {
    NamesAreDistinct();
    var t := new Entries(root);
    var symbols := ParseSymbols(t);
    if symbols.Rejected? {
      return Rejected;
    }
    var accounts := ParseLimits(t, "accounts");
    if accounts.Rejected? {
      return Rejected;
    }
    var users := ParseLimits(t, "users");
    if users.Rejected? {
      return Rejected;
    }
    assert t.entries.Keys == root.Keys - {"symbols", "accounts", "users"};
    assert t.entries == map[] <==> t.entries.Keys == {};
    if t.entries != map[] {
      return Rejected;
    }
    r := Accepted(Config(symbols.value, accounts.value, users.value));
  }

  /** The parsed limits agree with the tree at every path, and there is one owner per entry of the section. */
  lemma LimitsAgreeWithTree(root: map<string, Node>, section: string, owner: string, key: InstrumentKey)
    requires section in root ==> LimitsOk(root[section])
    ensures LimitFor(LimitsUnder(root, section), owner, key) == LimitAt(root, section, owner, key)
    ensures owner in LimitsUnder(root, section) <==> section in root && owner in root[section].entries
  {
    if section in root && owner in root[section].entries {
      var byOwner := root[section].entries[owner];
      assert ByOwnerOk(byOwner);
      if key.exchange in byOwner.entries {
        assert ByExchangeOk(byOwner.entries[key.exchange]);
      }
    }
  }

  // ---- what is accepted and what it means, written out

  /** A tree is accepted exactly when it has this shape and these keys. */
  lemma AcceptedExactly(root: map<string, Node>)
    ensures RootOk(root) <==>
              && root.Keys <= {"symbols", "accounts", "users"}
              && "symbols" in root && (root["symbols"].Text? || root["symbols"].Array?)
              && (forall section | section in {"accounts", "users"} && section in root ::
                    SectionAccepted(root[section]))
  {
    forall section | section in {"accounts", "users"} && section in root
      ensures SectionAccepted(root[section]) <==> LimitsOk(root[section])
    {
      SectionAcceptedExactly(root[section]);
    }
  }

  /** Tables down to owner, exchange and symbol, and there no other keys than the five. */
  ghost predicate SectionAccepted(node: Node) {
    && node.Table?
    && (forall owner <- node.entries :: node.entries[owner].Table?)
    && (forall owner <- node.entries, exchange <- node.entries[owner].entries ::
          node.entries[owner].entries[exchange].Table?)
    && (forall owner <- node.entries, exchange <- node.entries[owner].entries,
               symbol <- node.entries[owner].entries[exchange].entries ::
          var leaf := node.entries[owner].entries[exchange].entries[symbol];
          leaf.Table? && leaf.entries.Keys <=
            {"long_position_limit", "short_position_limit", "long_risk_exposure_limit", "short_risk_exposure_limit",
             "allow_netting"})
  }

  lemma SectionAcceptedExactly(node: Node)
    ensures SectionAccepted(node) <==> LimitsOk(node)
  {
    if LimitsOk(node) {
      forall owner, exchange, symbol |
        owner in node.entries && exchange in node.entries[owner].entries &&
        symbol in node.entries[owner].entries[exchange].entries
        ensures LeafOk(node.entries[owner].entries[exchange].entries[symbol])
      {
        assert ByOwnerOk(node.entries[owner]) && ByExchangeOk(node.entries[owner].entries[exchange]);
      }
    }
  }

  /** A limit as it is written in a leaf. */
  function LeafOf(limit: Limit): Node {
    Table(map["long_position_limit" := Real(limit.longPosition),
              "short_position_limit" := Real(limit.shortPosition),
              "long_risk_exposure_limit" := Real(limit.longExposure),
              "short_risk_exposure_limit" := Real(limit.shortExposure),
              "allow_netting" := Flag(limit.allowNetting)])
  }

  function SectionOf(limits: Limits): Node {
    Table(map owner | owner in limits ::
            Table(map exchange | exchange in limits[owner] ::
                    Table(map symbol | symbol in limits[owner][exchange] :: LeafOf(limits[owner][exchange][symbol]))))
  }

  /** A configuration as it is written in a file. */
  function TreeOf(symbols: seq<string>, accounts: Limits, users: Limits): map<string, Node> {
    map["symbols" := Array(seq(|symbols|, i requires 0 <= i < |symbols| => Text(symbols[i]))),
        "accounts" := SectionOf(accounts),
        "users" := SectionOf(users)]
  }

  lemma LeafRoundTrip(limit: Limit)
    ensures LeafOk(LeafOf(limit)) && LeafTyped(LeafOf(limit).entries) && LeafLimit(LeafOf(limit).entries) == limit
  {
    NamesAreDistinct();
  }

  lemma SectionRoundTrip(limits: Limits)
    ensures LimitsOk(SectionOf(limits)) && LimitsTyped(SectionOf(limits)) && SectionLimits(SectionOf(limits)) == limits
  {
    forall limit
      ensures LeafOk(LeafOf(limit)) && LeafTyped(LeafOf(limit).entries) && LeafLimit(LeafOf(limit).entries) == limit
    {
      LeafRoundTrip(limit);
    }
    var node := SectionOf(limits);
    forall a | a in limits ensures ByOwnerOk(node.entries[a]) && OwnerLimits(node.entries[a]) == limits[a] {
      forall e | e in limits[a]
        ensures ByExchangeOk(node.entries[a].entries[e])
        ensures ExchangeLimits(node.entries[a].entries[e]) == limits[a][e]
      {
      }
    }
  }

  /** Whatever is written in a file is what is read from it: every account, every user, every field. */
  lemma RoundTrip(symbols: seq<string>, accounts: Limits, users: Limits)
    ensures var root := TreeOf(symbols, accounts, users);
            && RootTyped(root) && RootOk(root)
            && ConfigOf(root).accounts == accounts && ConfigOf(root).users == users
            && ConfigOf(root).symbols ==
                 if symbols == [] then map[] else map["deribit" := set i | 0 <= i < |symbols| :: symbols[i]]
  {
    NamesAreDistinct();
    SectionRoundTrip(accounts);
    SectionRoundTrip(users);
    var items := TreeOf(symbols, accounts, users)["symbols"].items;
    assert forall i | 0 <= i < |symbols| :: items[i].text == symbols[i];
    assert (set i | 0 <= i < |items| :: items[i].text) == set i | 0 <= i < |symbols| :: symbols[i];
  }

  // ---- the copy kept beside the owners

  /** Copies the nested maps entry by entry. */
  method CreateLimits(limits: Limits) returns (result: Limits)
    ensures result == limits
  {
    result := map[];
    var todo := limits.Keys;
    while todo != {}
      invariant todo <= limits.Keys
      invariant result == map a | a in limits && a !in todo :: limits[a]
    {
      var a :| a in todo;
      todo := todo - {a};
      var tmp := CreateOwnerLimits(limits[a]);
      result := result[a := tmp];
    }
  }

  method CreateOwnerLimits(limits: map<string, map<string, Limit>>) returns (result: map<string, map<string, Limit>>)
    ensures result == limits
  {
    result := map[];
    var todo := limits.Keys;
    while todo != {}
      invariant todo <= limits.Keys
      invariant result == map e | e in limits && e !in todo :: limits[e]
    {
      var e :| e in todo;
      todo := todo - {e};
      var tmp: map<string, Limit> := map[];
      var symbols := limits[e].Keys;
      while symbols != {}
        invariant symbols <= limits[e].Keys
        invariant tmp == map s | s in limits[e] && s !in symbols :: limits[e][s]
      {
        var s :| s in symbols;
        symbols := symbols - {s};
        tmp := tmp[s := limits[e][s]];
      }
      assert tmp == limits[e];
      result := result[e := tmp];
    }
  }
}
