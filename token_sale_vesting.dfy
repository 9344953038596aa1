/**
 * The token-sale vesting hook `useTokenSaleVesting`.
 *
 * `lock` moves vested tokens of one sale plan ("ido" or "tokenSale") into
 * the voting escrow. With no existing locker it opens one with a fixed
 * duration; with a locker it adds to it. The user data read path scales the
 * plans' on-chain integers down by 18 decimals. A confirmed transaction marks
 * the vesting user data and the voting-escrow data stale.
 */
module TokenSaleVesting {
  import opened Wrappers
  import opened Web3

  datatype Plan = Ido | TokenSale

  /** The binding of one plan's vesting contract. */
  datatype ContractRef = ContractRef(address: Address)

  /** The pair of plan bindings, indexed by plan as `contracts[type]`. */
  datatype Contracts = Contracts(ido: ContractRef, tokenSale: ContractRef) {
    function Get(plan: Plan): ContractRef {
      match plan
      case Ido => ido
      case TokenSale => tokenSale
    }
  }

  /** The voting-escrow user data: the id of the user's locker, if any. */
  datatype VeUserData = VeUserData(lockerId: Option<int>)

  /** What the session supplies to the hook. An absent field is `undefined`. */
  datatype Session = Session(
    account: Option<Address>,
    signer: Option<Handle>,
    provider: Option<Provider>,
    contracts: Option<Contracts>,
    userLockData: Option<VeUserData>)

  /** `UnexpectedState` is the hook's own error; `InvalidBigNumber` is what the integer conversion throws. */
  datatype Error = UnexpectedState | InvalidBigNumber

  datatype VestingCall =
    | LockCall(user: Address, amount: int, duration: int)
    | DepositCall(user: Address, amount: int)

  /** What `lock` hands to the transaction handler: one call on one plan's contract. */
  datatype VestingTx = VestingTx(plan: Plan, contract: ContractRef, call: VestingCall, signer: Handle)

  /** The locking period every new locker gets, whatever the caller asked for. */
  const LOCK_DURATION: int := 3600

  /** The guard of `lock`. */
  predicate LockReady(s: Session) {
    Truthy(s.account) && s.signer.Some? && s.contracts.Some?
  }

  /** True when the user has no locker yet: the locker id is absent or zero. */
  predicate NoLocker(s: Session) {
    s.userLockData.None? || s.userLockData.value.lockerId.None? || s.userLockData.value.lockerId.value == 0
  }

  /** Whether a decimal value is an integer, which is what the integer conversion accepts. */
  predicate IsInteger(x: real) {
    x.Floor as real == x
  }

  /**
   * The transaction `lock` submits. The caller's `duration` is not used.
   * The amount goes on the wire unscaled.
   */
  function LockTx(s: Session, plan: Plan, amount: real, duration: int): (r: Result<VestingTx, Error>)
    ensures r.Failure? <==> !LockReady(s) || !IsInteger(amount)
    ensures r.Failure? ==> (r.error == UnexpectedState <==> !LockReady(s))
    ensures r.Success? ==>
      && r.value.plan == plan
      && r.value.contract == s.contracts.value.Get(plan)
      && r.value.call.user == s.account.value
      && r.value.call.amount as real == amount
      && r.value.signer == s.signer.value
      && (r.value.call.LockCall? <==> NoLocker(s))
      && (r.value.call.LockCall? ==> r.value.call.duration == LOCK_DURATION)
  {
    if !LockReady(s) then Failure(UnexpectedState)
    else if !IsInteger(amount) then Failure(InvalidBigNumber)
    else
      var call :=
        if NoLocker(s) then LockCall(s.account.value, amount.Floor, LOCK_DURATION)
        else DepositCall(s.account.value, amount.Floor);
      Success(VestingTx(plan, s.contracts.value.Get(plan), call, s.signer.value))
  }

  /** The caller's duration has no effect on what `lock` submits. */
  lemma DurationIgnored(s: Session, plan: Plan, amount: real, d1: int, d2: int)
    ensures LockTx(s, plan, amount, d1) == LockTx(s, plan, amount, d2)
  {
  }

  /**
   * Lock and deposit are exclusive: a successful `lock` submits exactly one of
   * them, to the chosen plan's contract and to no other.
   */
  lemma LockOrDeposit(s: Session, plan: Plan, amount: real, duration: int)
    requires LockReady(s) && IsInteger(amount)
    ensures var tx := LockTx(s, plan, amount, duration).value;
      && tx.contract == s.contracts.value.Get(plan)
      && (tx.call.LockCall? != tx.call.DepositCall?)
      && (NoLocker(s) ==> tx.call == LockCall(s.account.value, amount.Floor, LOCK_DURATION))
      && (!NoLocker(s) ==> tx.call == DepositCall(s.account.value, amount.Floor))
  {
  }

  // ---- Reading the user data ----

  /** `WEI_DECIMALS`: the on-chain amounts carry 18 decimals. */
  const WEI_DECIMALS: nat := 18

  function Pow10(k: nat): (p: nat)
    ensures p >= 1
  {
    if k == 0 then 1 else 10 * Pow10(k - 1)
  }

  /** `normalizeBN`: shifts the decimal point of an on-chain integer left by `decimals` places, exactly. */
  function NormalizeBN(n: int, decimals: nat): (x: real)
    ensures x * (Pow10(decimals) as real) == n as real
  {
    n as real / (Pow10(decimals) as real)
  }

  /** The inverse direction: a decimal amount scaled back to on-chain units. */
  function ToWei(x: real, decimals: nat): int {
    (x * (Pow10(decimals) as real)).Floor
  }

  /** Normalization loses nothing: scaling back gives the on-chain integer. */
  lemma NormalizeRoundTrip(n: int, decimals: nat)
    ensures ToWei(NormalizeBN(n, decimals), decimals) == n
  {
  }

  /** Normalization keeps the order of amounts, and so tells distinct amounts apart. */
  lemma NormalizeStrictlyMonotone(n1: int, n2: int, decimals: nat)
    requires n1 < n2
    ensures NormalizeBN(n1, decimals) < NormalizeBN(n2, decimals)
  {
  }

  /** What one plan's contract reports for a user. */
  datatype RawUserData = RawUserData(releasable: int, lockableAmount: int, vestingEnd: int)

  /** One plan's user data in human units; `vestingEnd` stays in Unix seconds. */
  datatype PlanUserData = PlanUserData(claimable: real, lockable: real, vestingEnd: int)

  datatype UserData = UserData(ido: PlanUserData, tokenSale: PlanUserData)

  /** One plan's figures: amounts divided by 10^18 exactly, the end time passed through. */
  function NormalizePlan(raw: RawUserData): (d: PlanUserData)
    ensures d.claimable == NormalizeBN(raw.releasable, WEI_DECIMALS)
    ensures d.lockable == NormalizeBN(raw.lockableAmount, WEI_DECIMALS)
    ensures ToWei(d.claimable, WEI_DECIMALS) == raw.releasable
    ensures ToWei(d.lockable, WEI_DECIMALS) == raw.lockableAmount
    ensures d.vestingEnd == raw.vestingEnd
  {
    NormalizeRoundTrip(raw.releasable, WEI_DECIMALS);
    NormalizeRoundTrip(raw.lockableAmount, WEI_DECIMALS);
    PlanUserData(
      NormalizeBN(raw.releasable, WEI_DECIMALS),
      NormalizeBN(raw.lockableAmount, WEI_DECIMALS),
      raw.vestingEnd)
  }

  /** `fetchUserData` after both plans' reads have come back. */
  function FetchUserData(idoRes: RawUserData, tokenSaleRes: RawUserData): (u: UserData)
    ensures u.ido == NormalizePlan(idoRes)
    ensures u.tokenSale == NormalizePlan(tokenSaleRes)
  {
    UserData(NormalizePlan(idoRes), NormalizePlan(tokenSaleRes))
  }

  /** The user data determines the raw reads it was computed from. */
  lemma UserDataDeterminesRaw(i1: RawUserData, t1: RawUserData, i2: RawUserData, t2: RawUserData)
    requires FetchUserData(i1, t1) == FetchUserData(i2, t2)
    ensures i1 == i2 && t1 == t2
  {
  }

  /** The key of the user-data cache entry. */
  datatype CacheKey = CacheKey(name: string, chainId: ChainId, account: Address)

  const USER_DATA_KEY: string := "votingescrow-userdata"

  /** The user-data cache key; without one, nothing is fetched. */
  function UserDataKey(s: Session): (k: Option<CacheKey>)
    ensures k.Some? <==> Truthy(s.account) && s.provider.Some? && s.contracts.Some?
    ensures k.Some? ==> k.value == CacheKey(USER_DATA_KEY, s.provider.value.chainId, s.account.value)
  {
    if Truthy(s.account) && s.provider.Some? && s.contracts.Some? then
      Some(CacheKey(USER_DATA_KEY, s.provider.value.chainId, s.account.value))
    else None
  }

  /**
   * The user data the hook exposes, given the gateway's `userData` read of a
   * plan contract for an account. Each plan's figures come from that plan's
   * own contract.
   */
  function LoadUserData(s: Session, userDataOf: (ContractRef, Address) -> RawUserData): (u: Option<UserData>)
    ensures u.Some? <==> UserDataKey(s).Some?
    ensures u.Some? ==>
      && u.value.ido == NormalizePlan(userDataOf(s.contracts.value.ido, s.account.value))
      && u.value.tokenSale == NormalizePlan(userDataOf(s.contracts.value.tokenSale, s.account.value))
  {
    match UserDataKey(s)
    case None => None
    case Some(key) =>
      Some(FetchUserData(userDataOf(s.contracts.value.ido, key.account),
                         userDataOf(s.contracts.value.tokenSale, key.account)))
  }

  // ---- Cache invalidation after a confirmed transaction ----

  /**
   * The two cache entries `lock` affects. A flag set to true means the entry
   * has been invalidated (`mutate()` for the vesting user data, `mutateVe()`
   * for the voting-escrow data) and will be fetched again.
   */
  class VestingCaches {
    var userDataStale: bool
    var veDataStale: bool

    constructor ()
      ensures !userDataStale && !veDataStale
    {
      userDataStale := false;
      veDataStale := false;
    }

    /** The completion callback handed to the sender. */
    method OnTxSuccess()
      modifies this
      ensures userDataStale && veDataStale
    {
      userDataStale := true;
      veDataStale := true;
    }

    /**
     * The hook's `handleTx`: the sender submits the transaction and runs the
     * callback only once it is confirmed. `confirmed` is the sender's outcome.
     */
    method HandleTx(tx: VestingTx, confirmed: bool)
      modifies this
      ensures userDataStale == (old(userDataStale) || confirmed)
      ensures veDataStale == (old(veDataStale) || confirmed)
    {
      if confirmed {
        OnTxSuccess();
      }
    }

    /**
     * `lock` end to end: the transaction it builds, then the hand-over to the
     * sender. A rejected call touches no cache.
     */
    method Lock(s: Session, plan: Plan, amount: real, duration: int, confirmed: bool)
      returns (r: Result<VestingTx, Error>)
      modifies this
      ensures r == LockTx(s, plan, amount, duration)
      ensures userDataStale == (old(userDataStale) || (r.Success? && confirmed))
      ensures veDataStale == (old(veDataStale) || (r.Success? && confirmed))
    {
      r := LockTx(s, plan, amount, duration);
      if r.Success? {
        HandleTx(r.value, confirmed);
      }
    }
  }
}
