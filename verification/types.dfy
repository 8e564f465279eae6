/** The value types shared by every component of the model. */
module Types {

  /** A 256-bit hash; `ZERO_HASH` is Go's zero value, which never names a block. */
  type Hash = nat
  const ZERO_HASH: Hash := 0

  /** A 160-bit address. */
  type Address = nat

  /** An instant. `NO_TIME` is Go's zero time. */
  type Time = nat
  const NO_TIME: Time := 0

  datatype Option<+T> = None | Some(value: T)

  /** The lifecycle stage an event reports. */
  datatype EventType = Pending | Mined | Confirmed | Reorged | Dropped | Failed | Replaced

  /** Which side of a transfer is watched. */
  datatype Direction = In | Out | Self

  /** One detected transfer leg. `token` is None for a native leg, `logIndex` is set for mined ERC20 legs. */
  datatype Match = Match(
    txHash: Hash,
    from: Address,
    to: Address,
    direction: Direction,
    asset: string,
    token: Option<Address>,
    decimals: nat,
    value: nat,
    logIndex: Option<nat>,
    txSender: Address,
    txNonce: nat)

  /** One lifecycle event: a transfer leg together with its transaction's position when it was emitted. */
  datatype Event = Event(
    typ: EventType,
    leg: Match,
    firstSeen: Time,
    firstSeenBlock: nat,
    minedAt: Time,
    blockNumber: nat,
    blockHash: Hash,
    confirmations: nat,
    replacedBy: Option<Hash>)
  {
    function TxHash(): Hash { leg.txHash }
  }
}
