/**
 * The enumerations of hummingbot/core/event/events.py. Each Python `Enum` class becomes a
 * datatype whose `Code()` is the member's declared value, kept exactly (gaps included), and
 * a `...FromCode` function is the by-value lookup `MarketEvent(107)`: it finds the member
 * with that value or reports that none exists.
 */
module Enums {
  import opened Wrappers
  import opened PyValues

  datatype MarketEvent =
    | ReceivedAsset | BuyOrderCompleted | SellOrderCompleted | WithdrawAsset
    | OrderCancelled | OrderFilled | OrderExpired | OrderFailure | TransactionFailure
    | BuyOrderCreated | SellOrderCreated | FundingPaymentCompleted
    | RangePositionInitiated | RangePositionCreated | RangePositionRemoved
    | RangePositionUpdated | RangePositionFailure
  {
    function Code(): int {
      match this
      case ReceivedAsset => 101
      case BuyOrderCompleted => 102
      case SellOrderCompleted => 103
      // 104 (Trade) is deprecated and not a member
      case WithdrawAsset => 105
      case OrderCancelled => 106
      case OrderFilled => 107
      case OrderExpired => 108
      case OrderFailure => 198
      case TransactionFailure => 199
      case BuyOrderCreated => 200
      case SellOrderCreated => 201
      case FundingPaymentCompleted => 202
      case RangePositionInitiated => 300
      case RangePositionCreated => 301
      case RangePositionRemoved => 302
      case RangePositionUpdated => 303
      case RangePositionFailure => 304
    }
  }

  function MarketEventFromCode(code: int): (r: Option<MarketEvent>)
    ensures r.Some? ==> r.value.Code() == code
    ensures r.None? ==> forall e: MarketEvent :: e.Code() != code
  {
    match code
    case 101 => Some(ReceivedAsset)
    case 102 => Some(BuyOrderCompleted)
    case 103 => Some(SellOrderCompleted)
    case 105 => Some(WithdrawAsset)
    case 106 => Some(OrderCancelled)
    case 107 => Some(OrderFilled)
    case 108 => Some(OrderExpired)
    case 198 => Some(OrderFailure)
    case 199 => Some(TransactionFailure)
    case 200 => Some(BuyOrderCreated)
    case 201 => Some(SellOrderCreated)
    case 202 => Some(FundingPaymentCompleted)
    case 300 => Some(RangePositionInitiated)
    case 301 => Some(RangePositionCreated)
    case 302 => Some(RangePositionRemoved)
    case 303 => Some(RangePositionUpdated)
    case 304 => Some(RangePositionFailure)
    case _ => None
  }

  /** Codes identify members: every member is found again by its code, so no two share one. */
  lemma MarketEventCodeRoundTrip(e: MarketEvent)
    ensures MarketEventFromCode(e.Code()) == Some(e)
  {
  }

  /** Some codes are not members: 104 (the deprecated Trade, commented out) and the neighbouring codes 109, 197, 203 and 305. */
  lemma MarketEventCodeGaps()
    ensures MarketEventFromCode(104).None?
    ensures MarketEventFromCode(109).None? && MarketEventFromCode(197).None?
    ensures MarketEventFromCode(203).None? && MarketEventFromCode(305).None?
  {
  }

  datatype OrderBookEvent = TradeEvent {
    function Code(): int {
      901
    }
  }

  function OrderBookEventFromCode(code: int): (r: Option<OrderBookEvent>)
    ensures r.Some? <==> code == 901
    ensures r.Some? ==> r.value.Code() == code
  {
    if code == 901 then Some(TradeEvent) else None
  }

  datatype RemoteEvent = RemoteCmdEvent {
    function Code(): int {
      2001
    }
  }

  function RemoteEventFromCode(code: int): (r: Option<RemoteEvent>)
    ensures r.Some? <==> code == 2001
    ensures r.Some? ==> r.value.Code() == code
  {
    if code == 2001 then Some(RemoteCmdEvent) else None
  }

  datatype TradeType = BUY | SELL | RANGE {
    function Code(): int {
      match this
      case BUY => 1
      case SELL => 2
      case RANGE => 3
    }
  }

  function TradeTypeFromCode(code: int): (r: Option<TradeType>)
    ensures r.Some? <==> 1 <= code <= 3
    ensures r.Some? ==> r.value.Code() == code
  {
    match code
    case 1 => Some(BUY)
    case 2 => Some(SELL)
    case 3 => Some(RANGE)
    case _ => None
  }

  datatype OrderType = MARKET | LIMIT | LIMIT_MAKER {
    function Code(): int {
      match this
      case MARKET => 1
      case LIMIT => 2
      case LIMIT_MAKER => 3
    }

    /** The member's name, as `OrderType[name]` looks it up. */
    function Name(): string {
      match this
      case MARKET => "MARKET"
      case LIMIT => "LIMIT"
      case LIMIT_MAKER => "LIMIT_MAKER"
    }

    /** `self in (OrderType.LIMIT, OrderType.LIMIT_MAKER)`, computed rather than stored. */
    predicate IsLimitType(): (r: bool)
      ensures r <==> !MARKET?
    {
      this in {LIMIT, LIMIT_MAKER}
    }
  }

  /** A limit-style order type is any type but MARKET. */
  lemma IsLimitTypeExactly(t: OrderType)
    ensures t.IsLimitType() <==> t != MARKET
    ensures LIMIT.IsLimitType() && LIMIT_MAKER.IsLimitType() && !MARKET.IsLimitType()
  {
  }

  function OrderTypeFromCode(code: int): (r: Option<OrderType>)
    ensures r.Some? <==> 1 <= code <= 3
    ensures r.Some? ==> r.value.Code() == code
  {
    match code
    case 1 => Some(MARKET)
    case 2 => Some(LIMIT)
    case 3 => Some(LIMIT_MAKER)
    case _ => None
  }

  /**
   * `OrderType[v]`: the member whose name equals `v` exactly. Anything else, a
   * differently-cased name or a value that is not a string, is not found.
   */
  function OrderTypeFromName(v: Value): (r: Option<OrderType>)
    ensures r.Some? ==> v == Str(r.value.Name())
    ensures r.None? ==> forall t: OrderType :: v != Str(t.Name())
  {
    if v == Str("MARKET") then Some(MARKET)
    else if v == Str("LIMIT") then Some(LIMIT)
    else if v == Str("LIMIT_MAKER") then Some(LIMIT_MAKER)
    else None
  }

  /** Looking a member up by its own name finds that member. */
  lemma OrderTypeNameRoundTrip(t: OrderType)
    ensures OrderTypeFromName(Str(t.Name())) == Some(t)
  {
  }

  datatype PositionAction = OPEN | CLOSE | NIL {
    function Code(): string {
      match this
      case OPEN => "OPEN"
      case CLOSE => "CLOSE"
      case NIL => "NIL"
    }
  }

  function PositionActionFromCode(code: string): (r: Option<PositionAction>)
    ensures r.Some? ==> r.value.Code() == code
    ensures r.None? ==> forall a: PositionAction :: a.Code() != code
  {
    if code == "OPEN" then Some(PositionAction.OPEN)
    else if code == "CLOSE" then Some(CLOSE)
    else if code == "NIL" then Some(NIL)
    else None
  }

  datatype PositionSide = LONG | SHORT | BOTH {
    function Code(): string {
      match this
      case LONG => "LONG"
      case SHORT => "SHORT"
      case BOTH => "BOTH"
    }
  }

  function PositionSideFromCode(code: string): (r: Option<PositionSide>)
    ensures r.Some? ==> r.value.Code() == code
    ensures r.None? ==> forall s: PositionSide :: s.Code() != code
  {
    if code == "LONG" then Some(LONG)
    else if code == "SHORT" then Some(SHORT)
    else if code == "BOTH" then Some(BOTH)
    else None
  }

  /** A two-member enumeration whose values are booleans; kept as its own type, not as `bool`. */
  datatype PositionMode = HEDGE | ONEWAY {
    function Code(): bool {
      match this
      case HEDGE => true
      case ONEWAY => false
    }
  }

  /** Every boolean names exactly one mode. */
  function PositionModeFromCode(code: bool): (r: PositionMode)
    ensures r.Code() == code
  {
    if code then HEDGE else ONEWAY
  }

  datatype PriceType = MidPrice | BestBid | BestAsk | LastTrade | LastOwnTrade | InventoryCost | Custom {
    function Code(): int {
      match this
      case MidPrice => 1
      case BestBid => 2
      case BestAsk => 3
      case LastTrade => 4
      case LastOwnTrade => 5
      case InventoryCost => 6
      case Custom => 7
    }
  }

  function PriceTypeFromCode(code: int): (r: Option<PriceType>)
    ensures r.Some? <==> 1 <= code <= 7
    ensures r.Some? ==> r.value.Code() == code
  {
    match code
    case 1 => Some(MidPrice)
    case 2 => Some(BestBid)
    case 3 => Some(BestAsk)
    case 4 => Some(LastTrade)
    case 5 => Some(LastOwnTrade)
    case 6 => Some(InventoryCost)
    case 7 => Some(Custom)
    case _ => None
  }

  datatype LimitOrderStatus = UNKNOWN | NEW | OPEN | CANCELING | CANCELED | COMPLETED | FAILED {
    function Code(): int {
      match this
      case UNKNOWN => 0
      case NEW => 1
      case OPEN => 2
      case CANCELING => 3
      case CANCELED => 4
      case COMPLETED => 5
      case FAILED => 6
    }
  }

  function LimitOrderStatusFromCode(code: int): (r: Option<LimitOrderStatus>)
    ensures r.Some? <==> 0 <= code <= 6
    ensures r.Some? ==> r.value.Code() == code
  {
    match code
    case 0 => Some(UNKNOWN)
    case 1 => Some(NEW)
    case 2 => Some(LimitOrderStatus.OPEN)
    case 3 => Some(CANCELING)
    case 4 => Some(CANCELED)
    case 5 => Some(COMPLETED)
    case 6 => Some(FAILED)
    case _ => None
  }
}
