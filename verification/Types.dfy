/** Values shared by every component of the risk manager. */
module Types {

  datatype Option<+T> = None | Some(value: T)

  /** A `double` that may be NaN; every other value is taken as an exact real number. */
  datatype Number = NaN | Finite(value: real)

  datatype Side = BUY | SELL

  /** The contribution of a quantity to a net position. */
  function Signed(side: Side, quantity: real): real {
    match side
    case BUY => quantity
    case SELL => -quantity
  }

  function Max(x: real, y: real): real {
    if x < y then y else x
  }

  datatype InstrumentKey = InstrumentKey(exchange: string, symbol: string)

  datatype Fill = Fill(tradeId: string, quantity: real, price: real)

  datatype TradeUpdate = TradeUpdate(
    user: string,
    strategyId: nat,
    account: string,
    key: InstrumentKey,
    side: Side,
    createTime: int,
    externalAccount: string,
    externalOrderId: string,
    fills: seq<Fill>)

  datatype Limit = Limit(
    longPosition: Number,
    shortPosition: Number,
    longExposure: Number,
    shortExposure: Number,
    allowNetting: bool)

  const NO_LIMIT := Limit(NaN, NaN, NaN, NaN, false)

  /** Owner name to exchange to symbol to limit. */
  type Limits = map<string, map<string, map<string, Limit>>>

  /** Positions are kept once per account and once per user. */
  datatype Kind = ByAccount | ByUser

  /** The owner of one kind that an update names. */
  function Party(update: TradeUpdate, kind: Kind): string {
    match kind
    case ByAccount => update.account
    case ByUser => update.user
  }
}
