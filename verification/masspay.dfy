/** The call-list construction and gas-cost arithmetic of the mass-pay library.
    Every interaction with a wallet, RPC node, bundler or paymaster is a parameter:
    amount scaling (`fromReadableAmount`), the permit nonce read, typed-data signing,
    sending the user operation and preparing it for estimation. */
module MassPay {
  import opened Wrappers
  import opened Constants

  type Address = string
  type Hex = string

  /** A JavaScript number as `parseFloat` yields it: a finite value or NaN. */
  datatype Number = Finite(value: real) | NaN

  /** One payment as submitted by the page: recipient and human-readable amount. */
  datatype Tx = Tx(to: Address, value: Number)

  /** One payment with its amount scaled to the token's smallest unit. */
  datatype UnitTx = UnitTx(to: Address, units: int)

  /** The EIP-712 domain the permit is signed under. */
  datatype Domain = Domain(name: string, version: string, chainId: nat, verifyingContract: Address)

  /** The EIP-2612 `Permit` message: owner, spender, value, nonce, deadline. */
  datatype PermitMessage = PermitMessage(owner: Address, spender: Address, value: int, nonce: nat, deadline: nat)

  /** The decoded content of a call's calldata (ABI encoding is not modelled). */
  datatype CallData =
    | Permit(owner: Address, spender: Address, value: int, deadline: nat, signature: Hex)
    | TransferFrom(from: Address, to: Address, value: int)

  /** One call of the user operation: `{from, to, data}`. */
  datatype Call = Call(from: Address, to: Address, data: CallData)

  /** What the connected wallet and the chain supply to one preparation: the owner
      account, the counterfactual smart-account address, the clock in milliseconds,
      the result of reading the owner's permit nonce (None when the read fails),
      `fromReadableAmount` (Failure carries the message it throws) and
      `signTypedData` (None when the user rejects or signing fails). */
  datatype Session = Session(
    owner: Address,
    smartAccount: Address,
    nowMs: nat,
    nonce: Option<nat>,
    toUnits: (Number, nat) -> Result<int, string>,
    sign: (Domain, PermitMessage) -> Option<Hex>)

  /** The fields of a prepared ERC-4337 v0.7 user operation that the estimate reads. */
  datatype UserOp = UserOp(
    preVerificationGas: nat,
    callGasLimit: nat,
    verificationGasLimit: nat,
    paymasterPostOpGasLimit: Option<nat>,
    paymasterVerificationGasLimit: Option<nat>,
    maxFeePerGas: nat,
    maxPriorityFeePerGas: nat)

  /** The sentinel `getPermitSignature` returns instead of a signature on any failure. */
  const ErrorSignature: Hex := "0xError"

  /** What `executeGaslessMassPay` returns when the call list came back empty. */
  const PrepareError: string := "Error preparing mass pay"

  /** Lifetime of a permit in seconds: 30 minutes. */
  const PermitLifetime: nat := 60 * 30

  /** The paymaster's markup on the gas cost, in percent. */
  const PaymasterFeePercent: nat := 10

  // ---------------------------------------------------------------------------
  // Permit signing

  /** The EIP-712 domain version: USDC uses version 2, every other token version 1. */
  function DomainVersion(tokenName: string, chainId: nat): (v: string)
    ensures v == "2" <==> tokenName == "USD Coin"
    ensures v == "1" <==> tokenName != "USD Coin"
  {
    if tokenName == "USD Coin" then "2" else "1"
  }

  /** The domain a permit for `token` is signed under, on Base. */
  function PermitDomain(token: Token): Domain {
    Domain(token.name, DomainVersion(token.name, BaseChainId), BaseChainId, token.address)
  }

  /** SBC ("Stable Coin") is not USDC, so its permits are signed under version "1". */
  lemma SbcDomain()
    ensures PermitDomain(SBC) == Domain("Stable Coin", "1", 8453, SbcContractAddress)
  {
  }

  /** `getPermitSignature`: read the owner's nonce, then ask the wallet to sign the
      permit; any failure yields the sentinel `"0xError"`. */
  function GetPermitSignature(s: Session, token: Token, owner: Address, spender: Address,
                              value: int, deadline: nat): (sig: Hex)
    ensures s.nonce.None? ==> sig == ErrorSignature
    ensures s.nonce.Some? ==>
      var signed := s.sign(PermitDomain(token), PermitMessage(owner, spender, value, s.nonce.value, deadline));
      (signed.None? ==> sig == ErrorSignature) && (signed.Some? ==> sig == signed.value)
  {
    match s.nonce
    case None => ErrorSignature
    case Some(nonce) =>
      match s.sign(PermitDomain(token), PermitMessage(owner, spender, value, nonce, deadline))
      case None => ErrorSignature
      case Some(signature) => signature
  }

  /** The permit deadline: the current whole second plus 30 minutes. */
  function Deadline(nowMs: nat): (d: nat)
    ensures d >= PermitLifetime
    ensures (d - PermitLifetime) * 1000 <= nowMs < (d - PermitLifetime + 1) * 1000
  {
    nowMs / 1000 + PermitLifetime
  }

  // ---------------------------------------------------------------------------
  // Call-list construction

  /** Scales every amount with `toUnits` in order, as `txs.map(...)` does; the first
      amount whose scaling throws aborts with that error. */
  function ScaleAll(txs: seq<Tx>, toUnits: (Number, nat) -> Result<int, string>, decimals: nat)
    : (r: Result<seq<UnitTx>, string>)
    ensures r.Success? <==> forall i :: 0 <= i < |txs| ==> toUnits(txs[i].value, decimals).Success?
    ensures r.Success? ==>
      && |r.value| == |txs|
      && forall i :: 0 <= i < |txs| ==>
           r.value[i] == UnitTx(txs[i].to, toUnits(txs[i].value, decimals).value)
    ensures r.Failure? ==>
      exists i :: 0 <= i < |txs| && toUnits(txs[i].value, decimals) == Failure(r.error)
               && forall j :: 0 <= j < i ==> toUnits(txs[j].value, decimals).Success?
  {
    if |txs| == 0 then Success([])
    else
      match toUnits(txs[0].value, decimals)
      case Failure(e) => Failure(e)
      case Success(units) =>
        match ScaleAll(txs[1..], toUnits, decimals)
        case Failure(e) =>
          Failure(e)
        case Success(rest) =>
          Success([UnitTx(txs[0].to, units)] + rest)
  }

  /** The sum of all scaled amounts: the value the permit must cover. */
  function TotalUnits(us: seq<UnitTx>): int {
    if |us| == 0 then 0 else us[0].units + TotalUnits(us[1..])
  }

  /** One `transferFrom(owner, to, units)` call per payment, in order, each sent from
      the owner to the SBC contract. */
  function TransferCalls(owner: Address, us: seq<UnitTx>): (cs: seq<Call>)
    ensures |cs| == |us|
    ensures forall i :: 0 <= i < |us| ==>
      cs[i] == Call(owner, SBC.address, TransferFrom(owner, us[i].to, us[i].units))
  {
    if |us| == 0 then []
    else [Call(owner, SBC.address, TransferFrom(owner, us[0].to, us[0].units))] + TransferCalls(owner, us[1..])
  }

  /** The total a call list moves with `transferFrom`; permit calls move nothing. */
  function TransferredValue(cs: seq<Call>): int {
    if |cs| == 0 then 0
    else (if cs[0].data.TransferFrom? then cs[0].data.value else 0) + TransferredValue(cs[1..])
  }

  /** The transfer calls move exactly the total of the scaled amounts. */
  lemma {:induction false} TransferCallsMoveTotal(owner: Address, us: seq<UnitTx>)
    ensures TransferredValue(TransferCalls(owner, us)) == TotalUnits(us)
  {
    if |us| > 0 {
      var cs := TransferCalls(owner, us);
      assert cs[1..] == TransferCalls(owner, us[1..]);
      TransferCallsMoveTotal(owner, us[1..]);
    }
  }

  /** The permit call that precedes the transfers. */
  function PermitCall(s: Session, total: int, deadline: nat, signature: Hex): Call {
    Call(s.owner, SBC.address, Permit(s.owner, s.smartAccount, total, deadline, signature))
  }

  /** `prepareMassPay`: scale the amounts, build one transfer per payment, sign one
      permit for the total and put it first. A failed signature empties the call list;
      an amount that cannot be scaled throws (Failure). */
  function PrepareMassPay(txs: seq<Tx>, s: Session): (r: Result<seq<Call>, string>)
    ensures r.Failure? <==> ScaleAll(txs, s.toUnits, SBC.decimals).Failure?
    ensures r.Failure? ==> r.error == ScaleAll(txs, s.toUnits, SBC.decimals).error
    ensures r.Success? && r.value != [] ==>
      && |r.value| == |txs| + 1
      && (forall i :: 0 <= i < |r.value| ==> r.value[i].from == s.owner && r.value[i].to == SBC.address)
      && r.value[0].data.Permit?
      && r.value[0].data.owner == s.owner
      && r.value[0].data.spender == s.smartAccount
      && r.value[0].data.deadline == Deadline(s.nowMs)
      && r.value[0].data.value == TransferredValue(r.value)
      && forall i :: 0 <= i < |txs| ==>
           r.value[i + 1].data == TransferFrom(s.owner, txs[i].to, s.toUnits(txs[i].value, SBC.decimals).value)
    ensures r.Success? && r.value != [] ==>
      && s.nonce.Some?
      && s.sign(PermitDomain(SBC),
                PermitMessage(s.owner, s.smartAccount, r.value[0].data.value, s.nonce.value, r.value[0].data.deadline))
         == Some(r.value[0].data.signature)
  {
    var deadline := Deadline(s.nowMs);
    match ScaleAll(txs, s.toUnits, SBC.decimals)
    case Failure(e) => Failure(e)
    case Success(us) =>
      var transfers := TransferCalls(s.owner, us);
      var total := TotalUnits(us);
      var signature := GetPermitSignature(s, SBC, s.owner, s.smartAccount, total, deadline);
      if signature == ErrorSignature then Success([])
      else
        var calls := [PermitCall(s, total, deadline, signature)] + transfers;
        TransferCallsMoveTotal(s.owner, us);
        assert calls[1..] == transfers;
        Success(calls)
  }

  /** The permit for the payments cannot be signed: the nonce read failed, or the
      wallet returned no signature for the permit covering the scaled total. */
  predicate PermitRefused(txs: seq<Tx>, s: Session)
    requires ScaleAll(txs, s.toUnits, SBC.decimals).Success?
  {
    var total := TotalUnits(ScaleAll(txs, s.toUnits, SBC.decimals).value);
    || s.nonce.None?
    || s.sign(PermitDomain(SBC), PermitMessage(s.owner, s.smartAccount, total, s.nonce.value, Deadline(s.nowMs))).None?
  }

  /** The call list is empty exactly when scaling succeeded but the permit could not be
      signed: the nonce read failed, or the wallet refused, or it returned the sentinel. */
  lemma PermitFailureEmptiesCalls(txs: seq<Tx>, s: Session)
    requires ScaleAll(txs, s.toUnits, SBC.decimals).Success?
    ensures PrepareMassPay(txs, s) == Success([]) <==>
      || PermitRefused(txs, s)
      || s.sign(PermitDomain(SBC),
                PermitMessage(s.owner, s.smartAccount, TotalUnits(ScaleAll(txs, s.toUnits, SBC.decimals).value),
                              s.nonce.value, Deadline(s.nowMs))) == Some(ErrorSignature)
  {
  }

  // ---------------------------------------------------------------------------
  // Submission and estimation

  /** `executeGaslessMassPay`: prepare, then send the call list as one sponsored user
      operation. Returns the user-operation hash, the sentinel error text for an empty
      call list, or the message of whatever was thrown. */
  function ExecuteGaslessMassPay(txs: seq<Tx>, s: Session, send: seq<Call> -> Result<Hex, string>): (r: string)
    ensures PrepareMassPay(txs, s) == Success([]) ==> r == PrepareError
    ensures PrepareMassPay(txs, s).Failure? ==> r == PrepareMassPay(txs, s).error
    ensures PrepareMassPay(txs, s).Success? && PrepareMassPay(txs, s).value != [] ==>
      var sent := send(PrepareMassPay(txs, s).value);
      r == if sent.Success? then sent.value else sent.error
  {
    match PrepareMassPay(txs, s)
    case Failure(e) => e
    case Success(calls) =>
      if |calls| == 0 then PrepareError
      else
        match send(calls)
        case Success(userOpHash) => userOpHash
        case Failure(e) => e
  }

  /** `min` on bigints. */
  function Min(a: int, b: int): (m: int)
    ensures m <= a && m <= b
    ensures m == a || m == b
  {
    if a < b then a else b
  }

  /** The effective gas price: the fee cap, or priority fee plus base fee if lower. */
  function GasPrice(op: UserOp, baseFee: Option<nat>): (p: nat)
    ensures p <= op.maxFeePerGas && p <= op.maxPriorityFeePerGas + baseFee.GetOr(0)
    ensures p == op.maxFeePerGas || p == op.maxPriorityFeePerGas + baseFee.GetOr(0)
  {
    Min(op.maxFeePerGas, op.maxPriorityFeePerGas + baseFee.GetOr(0))
  }

  /** The gas the operation is expected to use; a missing paymaster limit counts as 0. */
  function ExpectedGasUsed(op: UserOp): nat {
    op.preVerificationGas + op.callGasLimit + op.verificationGasLimit
      + op.paymasterPostOpGasLimit.GetOr(0) + op.paymasterVerificationGasLimit.GetOr(0)
  }

  /** Integer division by 100 after a 110% markup is the same as adding a tenth, rounded down. */
  lemma MarkupIsTenth(x: nat)
    ensures x * (100 + PaymasterFeePercent) / 100 == x + x / 10
  {
    var q, m := x / 10, x % 10;
    assert x == 10 * q + m;
    assert x * 110 == 100 * (11 * q + m) + 10 * m;
    assert 0 <= 10 * m < 100;
  }

  /** The sponsored cost: gas used times gas price plus the 10% paymaster fee,
      truncated by bigint division. */
  function GasCost(op: UserOp, baseFee: Option<nat>): (c: nat)
    ensures c == ExpectedGasUsed(op) * GasPrice(op, baseFee) + ExpectedGasUsed(op) * GasPrice(op, baseFee) / 10
    ensures c >= ExpectedGasUsed(op) * GasPrice(op, baseFee)
  {
    var cost := ExpectedGasUsed(op) * GasPrice(op, baseFee);
    MarkupIsTenth(cost);
    cost * (100 + PaymasterFeePercent) / 100
  }

  /** Every gas field, fee and base fee of `op` is at most the matching one of `op'`. */
  predicate NoLarger(op: UserOp, baseFee: Option<nat>, op': UserOp, baseFee': Option<nat>) {
    && op.preVerificationGas <= op'.preVerificationGas
    && op.callGasLimit <= op'.callGasLimit
    && op.verificationGasLimit <= op'.verificationGasLimit
    && op.paymasterPostOpGasLimit.GetOr(0) <= op'.paymasterPostOpGasLimit.GetOr(0)
    && op.paymasterVerificationGasLimit.GetOr(0) <= op'.paymasterVerificationGasLimit.GetOr(0)
    && op.maxFeePerGas <= op'.maxFeePerGas
    && op.maxPriorityFeePerGas <= op'.maxPriorityFeePerGas
    && baseFee.GetOr(0) <= baseFee'.GetOr(0)
  }

  /** Multiplying naturals is monotone in both factors. */
  lemma MulMonotone(a: nat, b: nat, a': nat, b': nat)
    requires a <= a' && b <= b'
    ensures a * b <= a' * b'
  {
    assert a * b <= a' * b;
    assert a' * b <= a' * b';
  }

  /** The cost estimate grows (weakly) with every gas field and every fee. */
  lemma GasCostMonotone(op: UserOp, baseFee: Option<nat>, op': UserOp, baseFee': Option<nat>)
    requires NoLarger(op, baseFee, op', baseFee')
    ensures GasCost(op, baseFee) <= GasCost(op', baseFee')
  {
    MulMonotone(ExpectedGasUsed(op), GasPrice(op, baseFee), ExpectedGasUsed(op'), GasPrice(op', baseFee'));
  }

  /** `estimateGasForMassPay`: an empty call list estimates 0; otherwise the prepared
      user operation is priced by `GasCost`. Errors are rethrown (Failure). */
  function EstimateGasForMassPay(txs: seq<Tx>, s: Session,
                                 prepareUserOp: seq<Call> -> Result<UserOp, string>,
                                 baseFee: Option<nat>): (r: Result<nat, string>)
    ensures PrepareMassPay(txs, s) == Success([]) ==> r == Success(0)
    ensures PrepareMassPay(txs, s).Failure? ==> r == Failure(PrepareMassPay(txs, s).error)
    ensures PrepareMassPay(txs, s).Success? && PrepareMassPay(txs, s).value != [] ==>
      var op := prepareUserOp(PrepareMassPay(txs, s).value);
      && (op.Failure? ==> r == Failure(op.error))
      && (op.Success? ==> r == Success(GasCost(op.value, baseFee)))
  {
    match PrepareMassPay(txs, s)
    case Failure(e) => Failure(e)
    case Success(calls) =>
      if |calls| == 0 then Success(0)
      else
        match prepareUserOp(calls)
        case Failure(e) => Failure(e)
        case Success(op) => Success(GasCost(op, baseFee))
  }

  /** A failed permit signature stops everything downstream: nothing is sent (the result
      is the same whatever `send` would do) and the estimate is 0 whatever the user
      operation would cost. */
  lemma SigningFailureShortCircuits(txs: seq<Tx>, s: Session, send: seq<Call> -> Result<Hex, string>,
                                    prepareUserOp: seq<Call> -> Result<UserOp, string>, baseFee: Option<nat>)
    requires ScaleAll(txs, s.toUnits, SBC.decimals).Success?
    requires PermitRefused(txs, s)
    ensures ExecuteGaslessMassPay(txs, s, send) == PrepareError
    ensures EstimateGasForMassPay(txs, s, prepareUserOp, baseFee) == Success(0)
  {
    PermitFailureEmptiesCalls(txs, s);
  }
}
