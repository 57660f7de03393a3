/** Results, errors, machine-integer bounds and the `Permill` fractions shared by the pallets. */
module Base {

  // Largest values of the machine integers that the pallets compute with.
  const U32_MAX: nat := 0xFFFF_FFFF
  const U64_MAX: nat := 0xFFFF_FFFF_FFFF_FFFF
  const U128_MAX: nat := 0xFFFF_FFFF_FFFF_FFFF_FFFF_FFFF_FFFF_FFFF

  type Asset = nat
  type UserId = nat

  /** Every account that can hold a balance. Accounts derived from a pallet id are constructors of
      their own: they collide neither with each other nor with the account of a caller. */
  datatype Account =
    | User(id: UserId)
    | FarmingPot(asset: Asset)
    | AmmPot
    | AmmLock
    | CrowdloanPot
    | BridgePot

  datatype Error =
    // arithmetic and token errors
    | Overflow | Underflow | FundsUnavailable | Trap | BadOrigin
    // farming
    | PoolDoesNotExist | PoolAlreadyExists | PoolIsNotActive | PoolInStatus | NotAValidDuration
    | PoolIsInTargetCoolDownDuration | NotAValidAmount | PoolUnderLock | DepositBalanceLow
    | ExcessMaxLockDuration | ExcessMaxCoolDownDuration | ExcessMaxUserLockItemsCount
    // amm
    | InsufficientLiquidity | NotAnIdealPrice | InsufficientAmountOut | InsufficientAmountIn
    | InsufficientSupplyOut | IdenticalAssets | LpTokenAlreadyExists | ConversionToU128Failed
    // bridge
    | OriginNoPermission | ChainIdAlreadyRegistered | ChainIdNotRegistered | BridgeTokenNotRegistered
    | BridgeTokenAlreadyRegistered | BridgeTokenDisabled | MemberAlreadyVoted | BridgingAmountTooLow
    | BridgeInCapExceeded | BridgeOutCapExceeded | ProposalAlreadyComplete | ProposalExpired
    // crowdloans
    | IncorrectVaultPhase | InsufficientContribution | NoContributions | InsufficientBalance
    | LastPeriodBeforeFirstPeriod | CTokenDoesNotExist | VaultAlreadyExists | VaultDoesNotExist
    | InvalidCToken | VaultNotEnded | VrfDelayInProgress | CapExceeded | EndBlockExceeded
    | InvalidCap | InvalidParams | NotReadyToDissolve | EmptyProxyAddress
    // asset registry
    | AssetAlreadyExists | AssetDoesNotExist

  datatype Option<+T> = None | Some(value: T)

  datatype Result<+T> = Ok(value: T) | Err(error: Error) {
    predicate IsFailure() {
      Err?
    }

    function PropagateFailure<U>(): Result<U>
      requires Err?
    {
      Err(error)
    }

    function Extract(): T
      requires Ok?
    {
      value
    }
  }

  /** The transactional layer: a call that ends in an error leaves no trace, a call that succeeds leaves
      what its function says. */
  ghost predicate Executes<S>(r: Result<()>, before: S, after: S, call: Result<S>) {
    match call
    case Ok(s) => r.Ok? && after == s
    case Err(e) => r == Err(e) && after == before
  }

  /** `to_u128().ok_or(e)`: a big integer is accepted only if it fits. */
  function ToU128(n: nat, e: Error): (r: Result<nat>)
  {
    if n <= U128_MAX then Ok(n) else Err(e)
  }

  function CheckedSub(a: nat, b: nat, e: Error): (r: Result<nat>)
  {
    if b <= a then Ok(a - b) else Err(e)
  }

  function Min(a: int, b: int): (r: int)
  {
    if a <= b then a else b
  }

  function Max(a: int, b: int): (r: int)
  {
    if a <= b then b else a
  }

  /** The quotient rounded up. */
  function CeilDiv(a: nat, b: nat): (r: nat)
    requires b > 0
  {
    (a + b - 1) / b
  }
}
