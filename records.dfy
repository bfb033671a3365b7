/**
 * The event records of hummingbot/core/event/events.py and the external value types they
 * hold. Every record is a datatype, that is a value; a field with a default in the source has
 * the same default here. Decimal quantities are exact `real`s; float timestamps are `real`
 * seconds (binary rounding is not modelled).
 *
 * The fields of OrderFilledEvent that the source fills from a dictionary (order id, trading
 * pair, exchange trade id, fee token) are `Value`s: their `str` annotations are not enforced,
 * so they hold whatever the dictionary held.
 */
module Records {
  import opened Wrappers
  import opened PyValues
  import opened Enums

  /** A level of an order book: the only parts of OrderBookRow the factory reads. */
  datatype OrderBookRow = OrderBookRow(price: real, amount: real)

  /** TokenAmount: an amount of one token. */
  datatype TokenAmount = TokenAmount(token: Value, amount: real)

  /** The two TradeFeeBase kinds, reduced to their flat fees (percentage fees are not modelled). */
  datatype TradeFee =
    | AddedToCostTradeFee(flatFees: seq<TokenAmount>)
    | DeductedFromReturnsTradeFee(flatFees: seq<TokenAmount>)

  /** The default `position` of an OrderFilledEvent. */
  const FilledDefaultPosition: string := "NIL"

  /** The default `position` of the two created-order events: a different literal. */
  const CreatedDefaultPosition: string := "NILL"

  datatype FundingInfo = FundingInfo(
    tradingPair: string,
    indexPrice: real,
    markPrice: real,
    nextFundingUtcTimestamp: int,
    rate: real)

  datatype MarketTransactionFailureEvent = MarketTransactionFailureEvent(timestamp: real, orderId: string)

  datatype MarketOrderFailureEvent = MarketOrderFailureEvent(timestamp: real, orderId: string, orderType: OrderType)

  datatype BuyOrderCompletedEvent = BuyOrderCompletedEvent(
    timestamp: real,
    orderId: string,
    baseAsset: string,
    quoteAsset: string,
    feeAsset: string,
    baseAssetAmount: real,
    quoteAssetAmount: real,
    feeAmount: real,
    orderType: OrderType,
    exchangeOrderId: Option<string> := None)

  datatype SellOrderCompletedEvent = SellOrderCompletedEvent(
    timestamp: real,
    orderId: string,
    baseAsset: string,
    quoteAsset: string,
    feeAsset: string,
    baseAssetAmount: real,
    quoteAssetAmount: real,
    feeAmount: real,
    orderType: OrderType,
    exchangeOrderId: Option<string> := None)

  datatype OrderCancelledEvent = OrderCancelledEvent(
    timestamp: real,
    orderId: string,
    exchangeOrderId: Option<string> := None)

  datatype OrderExpiredEvent = OrderExpiredEvent(timestamp: real, orderId: string)

  datatype FundingPaymentCompletedEvent = FundingPaymentCompletedEvent(
    timestamp: real,
    market: string,
    tradingPair: string,
    amount: real,
    fundingRate: real)

  datatype OrderBookTradeEvent = OrderBookTradeEvent(
    tradingPair: string,
    timestamp: real,
    tradeType: TradeType,
    price: real,
    amount: real)

  datatype OrderFilledEvent = OrderFilledEvent(
    timestamp: real,
    orderId: Value,
    tradingPair: Value,
    tradeType: TradeType,
    orderType: OrderType,
    price: real,
    amount: real,
    tradeFee: TradeFee,
    exchangeTradeId: Value := Str(""),
    leverage: Option<int> := Some(1),
    position: Option<string> := Some(FilledDefaultPosition))

  datatype BuyOrderCreatedEvent = BuyOrderCreatedEvent(
    timestamp: real,
    orderType: OrderType,
    tradingPair: string,
    amount: real,
    price: real,
    orderId: string,
    exchangeOrderId: Option<string> := None,
    leverage: Option<int> := Some(1),
    position: Option<string> := Some(CreatedDefaultPosition))

  datatype SellOrderCreatedEvent = SellOrderCreatedEvent(
    timestamp: real,
    orderType: OrderType,
    tradingPair: string,
    amount: real,
    price: real,
    orderId: string,
    exchangeOrderId: Option<string> := None,
    leverage: Option<int> := Some(1),
    position: Option<string> := Some(CreatedDefaultPosition))

  datatype RangePositionInitiatedEvent = RangePositionInitiatedEvent(
    timestamp: real,
    hbId: string,
    txHash: string,
    tradingPair: string,
    feeTier: string,
    lowerPrice: real,
    upperPrice: real,
    baseAmount: real,
    quoteAmount: real,
    status: string,
    gasPrice: real)

  datatype RangePositionCreatedEvent = RangePositionCreatedEvent(
    timestamp: real,
    hbId: string,
    txHash: string,
    tokenId: string,
    tradingPair: string,
    feeTier: string,
    lowerPrice: real,
    upperPrice: real,
    baseAmount: real,
    quoteAmount: real,
    status: string,
    gasPrice: real)

  datatype RangePositionUpdatedEvent = RangePositionUpdatedEvent(
    timestamp: real,
    hbId: string,
    txHash: string,
    tokenId: string,
    baseAmount: real,
    quoteAmount: real,
    status: string)

  datatype RangePositionRemovedEvent = RangePositionRemovedEvent(
    timestamp: real,
    hbId: string,
    tokenId: Option<string> := None)

  datatype RangePositionFailureEvent = RangePositionFailureEvent(timestamp: real, hbId: string)

  /** An OrderFilledEvent built without the optional fields has trade id "", leverage 1 and position "NIL". */
  lemma FilledEventDefaults(t: real, id: Value, pair: Value, tt: TradeType, ot: OrderType, p: real, a: real, fee: TradeFee)
    ensures OrderFilledEvent(t, id, pair, tt, ot, p, a, fee).exchangeTradeId == Str("")
    ensures OrderFilledEvent(t, id, pair, tt, ot, p, a, fee).leverage == Some(1)
    ensures OrderFilledEvent(t, id, pair, tt, ot, p, a, fee).position == Some("NIL")
  {
  }

  /**
   * A created-order event built without the optional fields has no exchange order id,
   * leverage 1 and position "NILL", which is not the "NIL" of a fill.
   */
  lemma CreatedEventDefaults(t: real, ot: OrderType, pair: string, a: real, p: real, id: string)
    ensures BuyOrderCreatedEvent(t, ot, pair, a, p, id).exchangeOrderId == None
    ensures BuyOrderCreatedEvent(t, ot, pair, a, p, id).leverage == Some(1)
    ensures BuyOrderCreatedEvent(t, ot, pair, a, p, id).position == Some("NILL")
    ensures SellOrderCreatedEvent(t, ot, pair, a, p, id).exchangeOrderId == None
    ensures SellOrderCreatedEvent(t, ot, pair, a, p, id).leverage == Some(1)
    ensures SellOrderCreatedEvent(t, ot, pair, a, p, id).position == Some("NILL")
    ensures CreatedDefaultPosition != FilledDefaultPosition
  {
  }
}
