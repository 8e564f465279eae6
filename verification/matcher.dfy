/**
 What counts as a transfer: native value, ERC20 calldata, and ERC20 Transfer logs (EIP-20, section
 "Events", Transfer) touching a watched address on either side.

 A 32-byte topic is a number below 2^256; an address is its low 160 bits, and a left-padded topic is an
 address as it stands.
 */
module Matching {
  import opened Types

  newtype Byte = b: int | 0 <= b < 256

  const ADDRESS_SPAN: nat := 0x1_0000000000_0000000000_0000000000_0000000000
  const WORD_SPAN: nat := ADDRESS_SPAN * 0x1_000000000000_000000000000
  const TRANSFER_TOPIC: Hash := 0xddf252ad1be2c89b69c2b068fc378daa952ba7f163c4a11628f55a4df523b3ef
  const METHOD_TRANSFER: seq<Byte> := [0xa9, 0x05, 0x9c, 0xbb]
  const METHOD_TRANSFER_FROM: seq<Byte> := [0x23, 0xb8, 0x72, 0xdd]

  datatype Token = Token(symbol: string, decimals: nat)

  datatype Matcher = Matcher(watched: set<Address>, tokens: map<Address, Token>, nativeSymbol: string)

  /** A transaction of a block body. `to` is None for a contract creation. */
  datatype BodyTx = BodyTx(hash: Hash, from: Address, to: Option<Address>, value: nat, input: seq<Byte>, nonce: nat)

  datatype Log = Log(
    address: Address, topics: seq<Hash>, data: seq<Byte>,
    blockNumber: nat, blockHash: Hash, txHash: Hash, index: nat, removed: bool)

  /** The low 160 bits of a word. */
  function AddressOf(word: nat): (a: Address)
    ensures a < ADDRESS_SPAN && (word < ADDRESS_SPAN ==> a == word)
  {
    word % ADDRESS_SPAN
  }

  // ---------------------------------------------------------------- big-endian words

  function Unsigned(bytes: seq<Byte>): nat {
    if bytes == [] then 0 else Unsigned(bytes[..|bytes| - 1]) * 256 + bytes[|bytes| - 1] as nat
  }

  /** `value` as `width` big-endian bytes, the reference encoding of a word. */
  function Padded(value: nat, width: nat): (bytes: seq<Byte>)
    ensures |bytes| == width
  {
    if width == 0 then [] else Padded(value / 256, width - 1) + [(value % 256) as Byte]
  }

  function Pow256(width: nat): (p: nat)
    ensures p > 0
  {
    if width == 0 then 1 else Pow256(width - 1) * 256
  }

  lemma {:induction false} PaddedReads(value: nat, width: nat)
    requires value < Pow256(width)
    ensures Unsigned(Padded(value, width)) == value
  {
    if width == 0 {
    } else {
      var bytes := Padded(value, width);
      assert bytes[..|bytes| - 1] == Padded(value / 256, width - 1);
      PaddedReads(value / 256, width - 1);
    }
  }

  lemma WordWidth()
    ensures Pow256(32) == WORD_SPAN
  {
    assert Pow256(8) == 0x1_0000000000000000;
    assert Pow256(16) == 0x1_0000000000000000 * 0x1_0000000000000000;
    assert Pow256(24) == 0x1_0000000000000000 * 0x1_0000000000000000 * 0x1_0000000000000000;
  }

  // ---------------------------------------------------------------- calldata

  datatype Transfer = Transfer(from: Address, to: Address, value: nat)

  function Word(args: seq<Byte>, i: nat): seq<Byte>
    requires 32 * (i + 1) <= |args|
  {
    args[32 * i..32 * (i + 1)]
  }

  /** Token sender, recipient and amount of a `transfer` or `transferFrom` call; None for anything else. */
  function DecodeERC20Transfer(signer: Address, data: seq<Byte>): Option<Transfer> {
    if |data| < 4 then None
    else
      var args := data[4..];
      if data[..4] == METHOD_TRANSFER then
        if |args| < 64 then None
        else Some(Transfer(signer, AddressOf(Unsigned(Word(args, 0))), Unsigned(Word(args, 1))))
      else if data[..4] == METHOD_TRANSFER_FROM then
        if |args| < 96 then None
        else Some(Transfer(AddressOf(Unsigned(Word(args, 0))), AddressOf(Unsigned(Word(args, 1))), Unsigned(Word(args, 2))))
      else None
  }

  /** The calldata a wallet sends for `transfer(to, value)`. */
  function EncodeTransfer(to: Address, value: nat): seq<Byte> {
    METHOD_TRANSFER + Padded(to, 32) + Padded(value, 32)
  }

  function EncodeTransferFrom(from: Address, to: Address, value: nat): seq<Byte> {
    METHOD_TRANSFER_FROM + Padded(from, 32) + Padded(to, 32) + Padded(value, 32)
  }

  lemma WordReads(value: nat)
    requires value < WORD_SPAN
    ensures Unsigned(Padded(value, 32)) == value
  {
    WordWidth();
    PaddedReads(value, 32);
  }

  /** Well-formed calldata decodes to what was sent, whatever follows it. */
  lemma DecodesTransfer(signer: Address, to: Address, value: nat, tail: seq<Byte>)
    requires to < ADDRESS_SPAN && value < WORD_SPAN
    ensures DecodeERC20Transfer(signer, EncodeTransfer(to, value) + tail) == Some(Transfer(signer, to, value))
  {
    hide Padded, Unsigned;
    var data := EncodeTransfer(to, value) + tail;
    assert data[..4] == METHOD_TRANSFER;
    assert data[4..] == Padded(to, 32) + Padded(value, 32) + tail;
    assert Word(data[4..], 0) == Padded(to, 32);
    assert Word(data[4..], 1) == Padded(value, 32);
    WordReads(to);
    WordReads(value);
  }

  lemma DecodesTransferFrom(signer: Address, from: Address, to: Address, value: nat, tail: seq<Byte>)
    requires from < ADDRESS_SPAN && to < ADDRESS_SPAN && value < WORD_SPAN
    ensures DecodeERC20Transfer(signer, EncodeTransferFrom(from, to, value) + tail) == Some(Transfer(from, to, value))
  {
    hide Padded, Unsigned;
    var data := EncodeTransferFrom(from, to, value) + tail;
    assert data[..4] == METHOD_TRANSFER_FROM;
    assert data[4..] == Padded(from, 32) + Padded(to, 32) + Padded(value, 32) + tail;
    assert Word(data[4..], 0) == Padded(from, 32);
    assert Word(data[4..], 1) == Padded(to, 32);
    assert Word(data[4..], 2) == Padded(value, 32);
    WordReads(from);
    WordReads(to);
    WordReads(value);
  }

  // ---------------------------------------------------------------- matching

  function DirectionOf(m: Matcher, from: Address, to: Address): Option<Direction> {
    if from in m.watched && to in m.watched then Some(Direction.Self)
    else if to in m.watched then Some(Direction.In)
    else if from in m.watched then Some(Direction.Out)
    else None
  }

  /** The native leg of a call: positive value between a watched pair. */
  function NativeLeg(m: Matcher, tx: BodyTx, to: Address): seq<Match> {
    var dir := DirectionOf(m, tx.from, to);
    if dir.Some? && tx.value > 0
    then [Match(tx.hash, tx.from, to, dir.value, m.nativeSymbol, None, 18, tx.value, None, tx.from, tx.nonce)]
    else []
  }

  /** The ERC20 leg a call to a watched token asks for. */
  function CalldataLeg(m: Matcher, tx: BodyTx, to: Address): seq<Match> {
    if to !in m.tokens then []
    else
      var call := DecodeERC20Transfer(tx.from, tx.input);
      if call.None? then []
      else
        var t := call.value;
        var dir := DirectionOf(m, t.from, t.to);
        if dir.None? || t.value == 0 then []
        else [Match(tx.hash, t.from, t.to, dir.value, m.tokens[to].symbol, Some(to), m.tokens[to].decimals, t.value, None,
                    tx.from, tx.nonce)]
  }

  function MatchBlockTx(m: Matcher, tx: BodyTx): seq<Match> {
    if tx.to.None? then [] else NativeLeg(m, tx, tx.to.value) + CalldataLeg(m, tx, tx.to.value)
  }

  function MatchLog(m: Matcher, lg: Log): Option<Match> {
    if lg.address !in m.tokens || |lg.topics| != 3 || lg.topics[0] != TRANSFER_TOPIC then None
    else
      var from, to := AddressOf(lg.topics[1]), AddressOf(lg.topics[2]);
      var dir := DirectionOf(m, from, to);
      var value := Unsigned(lg.data);
      if dir.None? || value == 0 then None
      else Some(Match(lg.txHash, from, to, dir.value, m.tokens[lg.address].symbol, Some(lg.address),
                      m.tokens[lg.address].decimals, value, Some(lg.index), 0, 0))
  }

  /** A leg moves something, touches a watched address, and is labelled with the watched side. */
  predicate Genuine(m: Matcher, leg: Match) {
    && leg.value > 0
    && (leg.direction == Direction.Self <==> leg.from in m.watched && leg.to in m.watched)
    && (leg.direction == Direction.In ==> leg.to in m.watched)
    && (leg.direction == Direction.Out ==> leg.from in m.watched)
  }

  lemma LegsGenuine(m: Matcher, tx: BodyTx, lg: Log)
    ensures forall leg :: leg in MatchBlockTx(m, tx) ==> Genuine(m, leg) && leg.txHash == tx.hash
    ensures MatchLog(m, lg).Some? ==> Genuine(m, MatchLog(m, lg).value)
    ensures MatchLog(m, lg).Some? ==> MatchLog(m, lg).value.txHash == lg.txHash
  {
    hide DecodeERC20Transfer;
  }

  /**
   A wallet's `transfer` call to a watched token is matched with its amount exactly, as the last leg; a native
   leg can only come before it.
   */
  lemma TransferCallMatched(m: Matcher, tx: BodyTx, token: Address, to: Address, value: nat)
    requires tx.to == Some(token) && token in m.tokens
    requires to < ADDRESS_SPAN && 0 < value < WORD_SPAN && tx.input == EncodeTransfer(to, value)
    ensures var legs := MatchBlockTx(m, tx);
            var called := legs != [] && legs[|legs| - 1].token == Some(token);
            && (tx.from in m.watched || to in m.watched <==> called)
            && (forall i :: 0 <= i < |legs| && legs[i].token.Some? ==> i == |legs| - 1)
            && (called ==> legs[|legs| - 1].from == tx.from && legs[|legs| - 1].to == to && legs[|legs| - 1].value == value)
            && (|legs| == 2 <==> called && tx.value > 0 && (tx.from in m.watched || token in m.watched))
  {
    hide DecodeERC20Transfer, EncodeTransfer;
    assert EncodeTransfer(to, value) + [] == EncodeTransfer(to, value);
    DecodesTransfer(tx.from, to, value, []);
  }

  // ---------------------------------------------------------------- what a match says

  /** The side that is watched: both, the recipient's, or the sender's. */
  ghost predicate Sided(m: Matcher, from: Address, to: Address, direction: Direction) {
    match direction
    case Self => from in m.watched && to in m.watched
    case In => from !in m.watched && to in m.watched
    case Out => from in m.watched && to !in m.watched
  }

  /** The log a token emits for `Transfer(from, to, value)`: padded address topics and a one-word amount. */
  function EncodeLog(token: Address, from: Address, to: Address, value: nat, blockNumber: nat, blockHash: Hash, txHash: Hash,
                     index: nat, removed: bool): Log
  {
    Log(token, [TRANSFER_TOPIC, from, to], Padded(value, 32), blockNumber, blockHash, txHash, index, removed)
  }

  /**
   A token's log is read back as the transfer it was emitted for, from topic 1 to topic 2, with the token's symbol
   and decimals and its own position; not at all with neither side watched, a zero amount or an unlisted token.
   */
  lemma LogReads(m: Matcher, token: Address, from: Address, to: Address, value: nat, blockNumber: nat, blockHash: Hash, txHash: Hash,
                 index: nat, removed: bool)
    requires from < ADDRESS_SPAN && to < ADDRESS_SPAN && value < WORD_SPAN
    ensures var leg := MatchLog(m, EncodeLog(token, from, to, value, blockNumber, blockHash, txHash, index, removed));
            && (leg.Some? <==> token in m.tokens && value > 0 && (from in m.watched || to in m.watched))
            && (leg.Some? ==>
                 && Sided(m, from, to, leg.value.direction)
                 && leg.value == Match(txHash, from, to, leg.value.direction, m.tokens[token].symbol, Some(token),
                                       m.tokens[token].decimals, value, Some(index), 0, 0))
  {
    hide Padded, Unsigned;
    WordReads(value);
  }

  /** Anything but a three-topic Transfer of a listed token is no match. */
  lemma OtherLogs(m: Matcher, lg: Log)
    requires lg.address !in m.tokens || |lg.topics| != 3 || lg.topics[0] != TRANSFER_TOPIC
    ensures MatchLog(m, lg) == None
  {
  }

  /**
   The native leg of a transaction is its own value, from its signer to its recipient, in the chain's currency; there
   is one exactly when it moves something and a side is watched, and it comes first.
   */
  lemma NativeReads(m: Matcher, tx: BodyTx)
    ensures var legs := MatchBlockTx(m, tx);
            var native := legs != [] && legs[0].token.None?;
            && (native <==> tx.to.Some? && tx.value > 0 && (tx.from in m.watched || tx.to.value in m.watched))
            && (forall i :: 1 <= i < |legs| ==> legs[i].token.Some?)
            && (native ==>
                 && Sided(m, tx.from, tx.to.value, legs[0].direction)
                 && legs[0] == Match(tx.hash, tx.from, tx.to.value, legs[0].direction, m.nativeSymbol, None, 18, tx.value, None,
                                     tx.from, tx.nonce))
  {
    hide DecodeERC20Transfer;
  }

  /** The token leg of a call is the decoded call's, under the transaction's hash, signer and nonce. */
  lemma CallReads(m: Matcher, tx: BodyTx)
    ensures var legs := MatchBlockTx(m, tx);
            var call := DecodeERC20Transfer(tx.from, tx.input);
            && (forall i :: 0 <= i < |legs| && legs[i].token.Some? ==>
                 && i == |legs| - 1 && tx.to.Some? && tx.to.value in m.tokens && call.Some?
                 && Sided(m, call.value.from, call.value.to, legs[i].direction)
                 && legs[i] == Match(tx.hash, call.value.from, call.value.to, legs[i].direction, m.tokens[tx.to.value].symbol, tx.to,
                                     m.tokens[tx.to.value].decimals, call.value.value, None, tx.from, tx.nonce))
            && (tx.to.Some? && tx.to.value in m.tokens && call.Some? && call.value.value > 0
                && (call.value.from in m.watched || call.value.to in m.watched) ==>
                 legs != [] && legs[|legs| - 1].token.Some?)
  {
    hide DecodeERC20Transfer;
  }

  /** Words are big-endian. */
  lemma BigEndian(bytes: seq<Byte>, low: Byte)
    ensures Unsigned(bytes + [low]) == 256 * Unsigned(bytes) + low as nat
    ensures Unsigned([]) == 0
  {
    assert (bytes + [low])[..|bytes|] == bytes;
  }
}
