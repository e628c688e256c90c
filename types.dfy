/** The contract's record types (src/types.rs), its error taxonomy and the
    `Result` type its entry points return. */
module Types {
  import opened Numeric

  /** A ledger principal. Only equality between principals matters here. */
  datatype Address = Address(key: nat)

  datatype RemittanceStatus = Pending | Completed | Cancelled

  /** A remittance record. Its fee is fixed when the record is created. */
  datatype Remittance = Remittance(
    id: U64,
    sender: Address,
    agent: Address,
    amount: I128,
    fee: I128,
    status: RemittanceStatus,
    expiry: Option<U64>)

  /** One requested settlement of a batch: only the id; everything else is re-read from storage. */
  datatype BatchSettleEntry = BatchSettleEntry(remittanceId: U64)

  /** The outcome of one executed settlement of a batch. */
  datatype BatchSettleResult = BatchSettleResult(remittanceId: U64, success: bool, payoutAmount: I128)

  /** What phase 1 of a batch fixes about one entry for phase 2 to use. */
  datatype ValidatedSettlement = ValidatedSettlement(
    remittanceId: U64,
    agent: Address,
    payoutAmount: I128,
    fee: I128,
    sender: Address)

  /** The contract's errors. `Unauthorized` stands for a failed `require_auth`,
      which the host turns into an abort of the call. */
  datatype ContractError =
    | AlreadyInitialized
    | NotInitialized
    | InvalidAmount
    | InvalidFeeBps
    | AgentNotRegistered
    | RemittanceNotFound
    | InvalidStatus
    | Overflow
    | NoFeesToWithdraw
    | InvalidAddress
    | SettlementExpired
    | DuplicateSettlement
    | BatchEmpty
    | BatchValidationFailed
    | Unauthorized

  /** `Result<T, ContractError>`, usable with `:-` the way Rust uses `?`. */
  datatype Result<+T> = Ok(value: T) | Err(error: ContractError) {
    predicate IsFailure() { Err? }

    function PropagateFailure<U>(): Result<U>
      requires Err?
    {
      Err(error)
    }

    function Extract(): T
      requires Ok?
    {
      value
    }
  }

  /** `.ok_or(ContractError::Overflow)` */
  function OrOverflow<T>(o: Option<T>): Result<T>
  {
    match o
    case Some(v) => Ok(v)
    case None => Err(Overflow)
  }

  /** The expiry guard shared by `confirm_payout` and batch validation:
      a record is expired only when it has an expiry and the clock is past it. */
  function Expired(r: Remittance, now: U64): (b: bool)
    ensures r.expiry.None? ==> !b
    ensures r.expiry.Some? && now <= r.expiry.value ==> !b
    ensures r.expiry.Some? && now == r.expiry.value + 1 ==> b
  {
    r.expiry.Some? && now > r.expiry.value
  }
}
