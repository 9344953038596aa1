/**
 * The lending-pool action builder of `useLendingPool`.
 *
 * Each action checks that the pool binding, the account and the signer are
 * present, and then builds exactly one pool call. That call is handed to the
 * transaction handler together with the signer and an optional analytics
 * record. Here an action is a function from the session state and the
 * caller's arguments to that hand-over value, or to the error it throws.
 */
module LendingPool {
  import opened Wrappers
  import opened Web3

  /**
   * What the session supplies to the hook. An absent field is `undefined`.
   * `price` is `priceInMarketReferenceCurrency`.
   */
  datatype Session = Session(
    account: Option<Address>,
    signer: Option<Handle>,
    provider: Option<Provider>,
    lendingPool: Option<Handle>,
    assetSymbol: Option<string>,
    price: Option<real>)

  /**
   * Collaborators whose definitions lie outside this model:
   * `equals` from the address utilities, the base-asset wrapper address that
   * `getNetworkConfig` gives for a chain, and `BASE_ASSET_DUMMY_ADDRESS`.
   */
  datatype Externals = Externals(
    equals: (Address, Address) -> bool,
    wrapperAddress: ChainId -> Address,
    dummy: Address)

  datatype Error = UnexpectedState

  /** The amount put on the wire: an exact value, or the "whole balance" sentinel. */
  datatype WireAmount = Exact(value: real) | All

  datatype InterestRate = NoRate | Stable | Variable

  datatype PoolCall =
    | DepositCall(user: Address, reserve: Address, amount: WireAmount)
    | WithdrawCall(user: Address, reserve: Address, amount: WireAmount, lTokenAddress: Address)
    | BorrowCall(user: Address, reserve: Address, amount: WireAmount,
                 interestRateMode: InterestRate, debtTokenAddress: Address)
    | RepayCall(user: Address, reserve: Address, amount: WireAmount, interestRateMode: InterestRate)
    | SetUsageAsCollateralCall(user: Address, reserve: Address, usageAsCollateral: bool)

  datatype EventType = DepositEvent | WithdrawEvent | BorrowEvent | RepayEvent

  /** The analytics record attached to a transaction. */
  datatype TrackedData = TrackedData(eventType: EventType, assetSymbol: string, valueInUSD: real)

  /** What an action hands to the transaction handler. */
  datatype PoolTx = PoolTx(call: PoolCall, signer: Handle, tracked: Option<TrackedData>)

  /** The wire value of the sentinel: the gateway reads `-1` as "everything". */
  const SENTINEL: real := -1.0

  /** The guard shared by deposit, withdraw, borrow and repay. */
  predicate PoolReady(s: Session) {
    s.lendingPool.Some? && Truthy(s.account) && s.signer.Some?
  }

  /** The guard of setUsageAsCollateral, which also reads the provider's chain. */
  predicate CollateralReady(s: Session) {
    PoolReady(s) && s.provider.Some?
  }

  /** The value the gateway receives for a wire amount. */
  function ToWire(w: WireAmount): (x: real)
    ensures w.All? ==> x == SENTINEL
    ensures w.Exact? ==> x == w.value
  {
    match w
    case Exact(v) => v
    case All => SENTINEL
  }

  /**
   * How the contract gateway reads a wire value. The hook only emits `-1`;
   * reading it as "everything" is the gateway's side of the convention.
   */
  function FromWire(x: real): (w: WireAmount)
    ensures w.All? <==> x == SENTINEL
  {
    if x == SENTINEL then All else Exact(x)
  }

  /**
   * Reading back what was sent recovers the wire amount, except for an exact
   * amount of -1, which is indistinguishable from the sentinel.
   */
  lemma WireRoundTrip(w: WireAmount)
    ensures FromWire(ToWire(w)) == w <==> w != Exact(SENTINEL)
    ensures ToWire(FromWire(ToWire(w))) == ToWire(w)
  {
  }

  /** The analytics record: present only when both the symbol and the price are known. */
  function CreateTrackedData(s: Session, eventType: EventType, amount: real): (t: Option<TrackedData>)
    ensures t.Some? <==> Truthy(s.assetSymbol) && s.price.Some?
    ensures t.Some? ==>
      && t.value.eventType == eventType
      && t.value.assetSymbol == s.assetSymbol.value
      && t.value.valueInUSD == s.price.value * amount
  {
    if !Truthy(s.assetSymbol) || s.price.None? then None
    else Some(TrackedData(eventType, s.assetSymbol.value, s.price.value * amount))
  }

  function Deposit(s: Session, amount: real, underlyingAsset: Address): (r: Result<PoolTx, Error>)
    ensures r.Failure? <==> !PoolReady(s)
    ensures r.Failure? ==> r.error == UnexpectedState
    ensures r.Success? ==>
      && r.value.call.DepositCall?
      && r.value.call.user == s.account.value
      && r.value.call.reserve == underlyingAsset
      && r.value.call.amount == Exact(amount)
      && r.value.signer == s.signer.value
      && r.value.tracked == CreateTrackedData(s, DepositEvent, amount)
  {
    if !PoolReady(s) then Failure(UnexpectedState)
    else
      Success(PoolTx(
        DepositCall(s.account.value, underlyingAsset, Exact(amount)),
        s.signer.value,
        CreateTrackedData(s, DepositEvent, amount)))
  }

  /** `all` stands for the optional flag; an omitted flag is `false`. */
  function Withdraw(s: Session, amount: real, underlyingAsset: Address, lTokenAddress: Address, all: bool)
    : (r: Result<PoolTx, Error>)
    ensures r.Failure? <==> !PoolReady(s)
    ensures r.Failure? ==> r.error == UnexpectedState
    ensures r.Success? ==>
      && r.value.call.WithdrawCall?
      && r.value.call.user == s.account.value
      && r.value.call.reserve == underlyingAsset
      && r.value.call.lTokenAddress == lTokenAddress
      && (all ==> r.value.call.amount == All)
      && (!all ==> r.value.call.amount == Exact(amount))
      && r.value.signer == s.signer.value
      && r.value.tracked == CreateTrackedData(s, WithdrawEvent, amount)
  {
    if !PoolReady(s) then Failure(UnexpectedState)
    else
      Success(PoolTx(
        WithdrawCall(s.account.value, underlyingAsset, if all then All else Exact(amount), lTokenAddress),
        s.signer.value,
        CreateTrackedData(s, WithdrawEvent, amount)))
  }

  function Borrow(s: Session, amount: real, underlyingAsset: Address, vdTokenAddress: Address)
    : (r: Result<PoolTx, Error>)
    ensures r.Failure? <==> !PoolReady(s)
    ensures r.Failure? ==> r.error == UnexpectedState
    ensures r.Success? ==>
      && r.value.call.BorrowCall?
      && r.value.call.user == s.account.value
      && r.value.call.reserve == underlyingAsset
      && r.value.call.amount == Exact(amount)
      && r.value.call.interestRateMode == Variable
      && r.value.call.debtTokenAddress == vdTokenAddress
      && r.value.signer == s.signer.value
      && r.value.tracked == CreateTrackedData(s, BorrowEvent, amount)
  {
    if !PoolReady(s) then Failure(UnexpectedState)
    else
      Success(PoolTx(
        BorrowCall(s.account.value, underlyingAsset, Exact(amount), Variable, vdTokenAddress),
        s.signer.value,
        CreateTrackedData(s, BorrowEvent, amount)))
  }

  /** `all` stands for the optional flag; an omitted flag is `false`. */
  function Repay(s: Session, amount: real, underlyingAsset: Address, all: bool): (r: Result<PoolTx, Error>)
    ensures r.Failure? <==> !PoolReady(s)
    ensures r.Failure? ==> r.error == UnexpectedState
    ensures r.Success? ==>
      && r.value.call.RepayCall?
      && r.value.call.user == s.account.value
      && r.value.call.reserve == underlyingAsset
      && (all ==> r.value.call.amount == All)
      && (!all ==> r.value.call.amount == Exact(amount))
      && r.value.call.interestRateMode == Variable
      && r.value.signer == s.signer.value
      && r.value.tracked == CreateTrackedData(s, RepayEvent, amount)
  {
    if !PoolReady(s) then Failure(UnexpectedState)
    else
      Success(PoolTx(
        RepayCall(s.account.value, underlyingAsset, if all then All else Exact(amount), Variable),
        s.signer.value,
        CreateTrackedData(s, RepayEvent, amount)))
  }

  /** The reserve to name in a collateral toggle: the dummy base asset becomes the chain's wrapper token. */
  function ReserveAddress(ext: Externals, underlyingAsset: Address, chainId: ChainId): (r: Address)
    ensures !ext.equals(underlyingAsset, ext.dummy) ==> r == underlyingAsset
    ensures ext.equals(underlyingAsset, ext.dummy) ==> r == ext.wrapperAddress(chainId)
  {
    if !ext.equals(underlyingAsset, ext.dummy) then underlyingAsset
    else ext.wrapperAddress(chainId)
  }

  /** Resolving an already resolved reserve changes nothing, as long as the wrapper is not itself the dummy. */
  lemma ReserveAddressIdempotent(ext: Externals, underlyingAsset: Address, chainId: ChainId)
    requires !ext.equals(ext.wrapperAddress(chainId), ext.dummy)
    ensures ReserveAddress(ext, ReserveAddress(ext, underlyingAsset, chainId), chainId)
         == ReserveAddress(ext, underlyingAsset, chainId)
    ensures !ext.equals(ReserveAddress(ext, underlyingAsset, chainId), ext.dummy)
  {
  }

  function SetUsageAsCollateral(ext: Externals, s: Session, usageAsCollateral: bool, underlyingAsset: Address)
    : (r: Result<PoolTx, Error>)
    ensures r.Failure? <==> !CollateralReady(s)
    ensures r.Failure? ==> r.error == UnexpectedState
    ensures r.Success? ==>
      && r.value.call.SetUsageAsCollateralCall?
      && r.value.call.user == s.account.value
      && r.value.call.reserve == ReserveAddress(ext, underlyingAsset, s.provider.value.chainId)
      && r.value.call.usageAsCollateral == usageAsCollateral
      && r.value.signer == s.signer.value
      && r.value.tracked.None?
  {
    if !CollateralReady(s) then Failure(UnexpectedState)
    else
      Success(PoolTx(
        SetUsageAsCollateralCall(
          s.account.value, ReserveAddress(ext, underlyingAsset, s.provider.value.chainId), usageAsCollateral),
        s.signer.value,
        None))
  }

  /**
   * A collateral toggle never names the dummy base asset as its reserve,
   * provided the chain's wrapper address is not itself the dummy.
   */
  lemma CollateralNeverSendsDummy(ext: Externals, s: Session, usageAsCollateral: bool, underlyingAsset: Address)
    requires CollateralReady(s)
    requires !ext.equals(ext.wrapperAddress(s.provider.value.chainId), ext.dummy)
    ensures SetUsageAsCollateral(ext, s, usageAsCollateral, underlyingAsset).Success?
    ensures !ext.equals(SetUsageAsCollateral(ext, s, usageAsCollateral, underlyingAsset).value.call.reserve, ext.dummy)
  {
  }

  /**
   * The four amount-bearing actions share one guard, and a collateral toggle
   * fails whenever they do: a missing pool, account or signer stops every
   * action before any call is built.
   */
  lemma SharedGuard(ext: Externals, s: Session, amount: real, asset: Address, token: Address, all: bool, flag: bool)
    ensures Deposit(s, amount, asset).Failure? == Withdraw(s, amount, asset, token, all).Failure?
    ensures Deposit(s, amount, asset).Failure? == Borrow(s, amount, asset, token).Failure?
    ensures Deposit(s, amount, asset).Failure? == Repay(s, amount, asset, all).Failure?
    ensures Deposit(s, amount, asset).Failure? ==> SetUsageAsCollateral(ext, s, flag, asset).Failure?
  {
  }

  /**
   * With `all` set, the call sent by withdraw and repay does not depend on the
   * amount, while the analytics record still does: it is priced on the
   * caller's amount, not on the sentinel.
   */
  lemma AllIgnoresAmount(s: Session, a1: real, a2: real, asset: Address, lToken: Address)
    requires PoolReady(s)
    ensures Withdraw(s, a1, asset, lToken, true).value.call == Withdraw(s, a2, asset, lToken, true).value.call
    ensures Repay(s, a1, asset, true).value.call == Repay(s, a2, asset, true).value.call
    ensures Withdraw(s, a1, asset, lToken, true).value.tracked == Withdraw(s, a1, asset, lToken, false).value.tracked
    ensures Repay(s, a1, asset, true).value.tracked == Repay(s, a1, asset, false).value.tracked
  {
  }
}
