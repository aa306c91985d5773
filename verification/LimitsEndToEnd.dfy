/** From the configuration file to the wire: every published limit is the one written in the tree. */
module LimitsEndToEnd {
  import opened Types
  import opened Books
  import opened Ledger
  import opened Machine
  import opened Reachability
  import opened Composition
  import opened Controllers
  import opened Hosts
  import opened Configs

  function Section(kind: Kind): string {
    match kind
    case ByAccount => "accounts"
    case ByUser => "users"
  }

  /** `leaf` is the table at section.owner.exchange.symbol. */
  ghost predicate LeafAt(root: map<string, Node>, section: string, owner: string, key: InstrumentKey,
                         leaf: map<string, Node>)
  {
    && section in root && root[section].Table?
    && owner in root[section].entries && root[section].entries[owner].Table?
    && key.exchange in root[section].entries[owner].entries
    && root[section].entries[owner].entries[key.exchange].Table?
    && key.symbol in root[section].entries[owner].entries[key.exchange].entries
    && root[section].entries[owner].entries[key.exchange].entries[key.symbol] == Table(leaf)
  }

  predicate ReadsNumber(leaf: map<string, Node>, field: string, value: Number) {
    value == if field in leaf && leaf[field].Real? then leaf[field].number else NaN
  }

  /** The five fields of a limit are those of the tree, or the defaults where a field or the whole path is absent. */
  ghost predicate WrittenAt(root: map<string, Node>, kind: Kind, owner: string, key: InstrumentKey, limit: Limit) {
    var section := if kind == ByAccount then "accounts" else "users";
    && (forall leaf | LeafAt(root, section, owner, key, leaf) ::
          && ReadsNumber(leaf, "long_position_limit", limit.longPosition)
          && ReadsNumber(leaf, "short_position_limit", limit.shortPosition)
          && ReadsNumber(leaf, "long_risk_exposure_limit", limit.longExposure)
          && ReadsNumber(leaf, "short_risk_exposure_limit", limit.shortExposure)
          && limit.allowNetting == ("allow_netting" in leaf && leaf["allow_netting"] == Flag(true)))
    && ((forall leaf :: !LeafAt(root, section, owner, key, leaf)) ==>
          limit == Limit(longPosition := NaN, shortPosition := NaN, longExposure := NaN, shortExposure := NaN,
                         allowNetting := false))
  }

  lemma LimitAtIsWritten(root: map<string, Node>, kind: Kind, owner: string, key: InstrumentKey)
    requires RootOk(root)
    ensures WrittenAt(root, kind, owner, key, LimitAt(root, Section(kind), owner, key))
  {
    var section := Section(kind);
    if section in root && owner in root[section].entries {
      assert ByOwnerOk(root[section].entries[owner]);
      var byExchange := root[section].entries[owner].entries;
      if key.exchange in byExchange {
        assert ByExchangeOk(byExchange[key.exchange]);
        if key.symbol in byExchange[key.exchange].entries {
          assert LeafOk(byExchange[key.exchange].entries[key.symbol]);
          assert LeafAt(root, section, owner, key, byExchange[key.exchange].entries[key.symbol].entries);
        }
      }
    }
  }

  /**
   In every run of a controller that was configured from `root`, each published entry carries exactly the five fields
   at section.owner.exchange.symbol of the tree, with the defaults wherever the path or a field is absent.
   */
  lemma PublishedLimitsAreConfigured(root: map<string, Node>, sources: nat, table: Table, rows: seq<LoadedRow>,
                                     es: seq<Event>, i: nat, x: Send, id: nat)
    requires RootTyped(root) && RootOk(root) && i < |es|
    requires x in SendsAt(Initial(ConfigOf(root).accounts, ConfigOf(root).users, sources, table, rows), es, i)
    requires id in x.limits
    ensures WrittenAt(root, x.kind, x.owner, x.limits[id].key, x.limits[id].limit)
    ensures Section(x.kind) in root && x.owner in root[Section(x.kind)].entries
  {
    var s := Initial(ConfigOf(root).accounts, ConfigOf(root).users, sources, table, rows);
    InitialOk(ConfigOf(root).accounts, ConfigOf(root).users, sources, table, rows);
    SendContents(s, es, i, x, id);
    RunOk(s, es, i);
    LimitsAgreeWithTree(root, Section(x.kind), x.owner, x.limits[id].key);
    LimitAtIsWritten(root, x.kind, x.owner, x.limits[id].key);
  }

  /** The same of a message as it is handed to the dispatcher. */
  ghost predicate Configured(root: map<string, Node>, m: Message) {
    forall j | 0 <= j < |m.limits| :: WrittenAt(root, m.kind, m.owner, m.limits[j].key, m.limits[j].limit)
  }

  ghost predicate AllConfigured(root: map<string, Node>, out: seq<Message>) {
    forall k | 0 <= k < |out| :: Configured(root, out[k])
  }

  lemma MessagesAreConfigured(root: map<string, Node>, sources: nat, table: Table, rows: seq<LoadedRow>, es: seq<Event>,
                              i: nat, out: seq<Message>)
    requires RootTyped(root) && RootOk(root) && i < |es|
    requires Batch(out, SendsAt(Initial(ConfigOf(root).accounts, ConfigOf(root).users, sources, table, rows), es, i))
    ensures AllConfigured(root, out)
  {
    var xs := SendsAt(Initial(ConfigOf(root).accounts, ConfigOf(root).users, sources, table, rows), es, i);
    var order :| BatchIn(out, xs, order);
    forall k | 0 <= k < |out| ensures Configured(root, out[k]) {
      var x := order[k];
      assert x in xs && Carries(out[k], x);
      var ids :| ListsIn(out[k].limits, x.limits, ids);
      forall j | 0 <= j < |ids|
        ensures WrittenAt(root, x.kind, x.owner, out[k].limits[j].key, out[k].limits[j].limit)
      {
        assert ids[j] in x.limits;
        PublishedLimitsAreConfigured(root, sources, table, rows, es, i, x, ids[j]);
      }
    }
  }

  lemma SentIsConfigured(root: map<string, Node>, sources: nat, table: Table, rows: seq<LoadedRow>, es: seq<Event>,
                         sent: seq<seq<Message>>)
    requires RootTyped(root) && RootOk(root) && |sent| == |es|
    requires forall i | 0 <= i < |es| ::
               Batch(sent[i], SendsAt(Initial(ConfigOf(root).accounts, ConfigOf(root).users, sources, table, rows), es, i))
    ensures forall i | 0 <= i < |es| :: AllConfigured(root, sent[i])
  {
    forall i | 0 <= i < |es| ensures AllConfigured(root, sent[i]) {
      MessagesAreConfigured(root, sources, table, rows, es, i, sent[i]);
    }
  }

  /** Parses the tree, copies both sections, and builds a controller from the copies; nothing, if the tree is rejected. */
  method Launch(root: map<string, Node>, sources: nat, table: Table, rows: seq<LoadedRow>) returns (h: Option<Host>)
    requires RootTyped(root)
    ensures h.Some? <==> RootOk(root)
    ensures h.Some? ==>
              && h.value.Valid() && fresh(h.value) && fresh(h.value.Repr)
              && h.value.start == Initial(ConfigOf(root).accounts, ConfigOf(root).users, sources, table, rows)
              && h.value.trace == [] && h.value.sent == [] && |h.value.start.sessions| == sources
  {
    var config := Parse(root);
    if config.Rejected? {
      return None;
    }
    var accounts := CreateLimits(config.value.accounts);
    var users := CreateLimits(config.value.users);
    var host := new Host(accounts, users, sources, table, rows);
    InitialOk(accounts, users, sources, table, rows);
    h := Some(host);
  }

  /** The first `i` events have been handed over, and this is what was sent. */
  ghost predicate Fed(h: Host, es: seq<Event>, i: nat, sent: seq<seq<Message>>)
    requires i <= |es|
    reads h, h.Repr
  {
    h.Valid() && h.trace == es[..i] && h.sent == sent
  }

  lemma PrefixGrows(es: seq<Event>, i: nat)
    requires i < |es|
    ensures es[..i + 1] == es[..i] + [es[i]]
  {
  }

  method FeedNext(h: Host, es: seq<Event>, i: nat, sent: seq<seq<Message>>) returns (more: seq<seq<Message>>)
    requires i < |es| && Fed(h, es, i, sent) && FromSource(es[i], |h.start.sessions|)
    modifies h, h.Repr
    ensures Fed(h, es, i + 1, more) && fresh(h.Repr - old(h.Repr))
  {
    PrefixGrows(es, i);
    var out, _ := h.Dispatch(es[i]);
    more := sent + [out];
  }

  /** Hands the events to a controller that has seen none. */
  method Feed(h: Host, es: seq<Event>) returns (sent: seq<seq<Message>>)
    requires Fed(h, es, 0, []) && forall i | 0 <= i < |es| :: FromSource(es[i], |h.start.sessions|)
    modifies h, h.Repr
    ensures Fed(h, es, |es|, sent)
  {
    sent := [];
    for i := 0 to |es|
      invariant Fed(h, es, i, sent) && fresh(h.Repr - old(h.Repr))
    {
      sent := FeedNext(h, es, i, sent);
    }
  }

  /**
   From the tree to the messages: a program that is started on a tree and handed any events of its sources sends what
   the machine sends, every entry with the limit written in the tree; it does not start on a rejected tree.
   */
  method Serve(root: map<string, Node>, sources: nat, table: Table, rows: seq<LoadedRow>, es: seq<Event>)
    returns (out: Option<seq<seq<Message>>>)
    requires RootTyped(root) && forall i | 0 <= i < |es| :: FromSource(es[i], sources)
    ensures out.Some? <==> RootOk(root)
    ensures out.Some? ==> |out.value| == |es|
    ensures out.Some? ==> forall i | 0 <= i < |es| ::
              && Batch(out.value[i],
                       SendsAt(Initial(ConfigOf(root).accounts, ConfigOf(root).users, sources, table, rows), es, i))
              && AllConfigured(root, out.value[i])
  {
    var h := Launch(root, sources, table, rows);
    if h.None? {
      return None;
    }
    var sent := Feed(h.value, es);
    h.value.SentAsTheMachine();
    assert es[..|es|] == es;
    SentIsConfigured(root, sources, table, rows, es, sent);
    out := Some(sent);
  }
}
