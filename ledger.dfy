/** The contract's stored state as one value, the host environment of a call,
    and one function per entry point of src/lib.rs (except `batch_settle`,
    which is in module Batch). An entry point yields either `Ok(Commit(ret, post))`,
    the value it returns and the state it commits, or `Err(e)`, after which the
    host rolls every write of the call back; `Apply` makes that rollback explicit. */
module Ledger {
  import opened Numeric
  import opened Types
  import opened Events
  import opened Fees

  /** What the host supplies to one call: the ledger timestamp, the principals whose
      authorization the call carries (`require_auth` succeeds exactly for these),
      and the address check of the validation module, which is not part of this model. */
  datatype Env = Env(now: U64, signers: set<Address>, wellFormed: Address -> bool)

  predicate Authorized(env: Env, a: Address) { a in env.signers }

  /** The contract's storage. The keys written together by `initialize` (admin,
      token, fee rate, counter, fee pool) are present exactly when `admin` is;
      the other fields hold their initial values until then. */
  datatype State = State(
    admin: Option<Address>,
    usdcToken: Address,
    feeBps: U32,
    counter: U64,
    feePool: I128,
    agents: map<Address, bool>,
    remittances: map<U64, Remittance>,
    settled: set<U64>,
    transfers: seq<Transfer>,
    events: seq<Event>)

  /** A freshly deployed contract: nothing stored, nothing transferred, nothing published. */
  function Deployed(): State
  {
    State(None, Address(0), 0, 0, 0, map[], map[], {}, [], [])
  }

  /** What a successful call returns and the state it commits. */
  datatype Commit<+T> = Commit(ret: T, post: State)

  /** The state after a call: the committed one on success, the old one after rollback. */
  function Apply<T>(pre: State, r: Result<Commit<T>>): State
  {
    if r.Ok? then r.value.post else pre
  }

  /** A call that returned `r` and left `post` behaved as `spec` says, rollback included. */
  predicate Applied<T(==)>(pre: State, post: State, r: Result<T>, spec: Result<Commit<T>>)
  {
    match spec
    case Ok(c) => r == Ok(c.ret) && post == c.post
    case Err(e) => r == Err(e) && post == pre
  }

  // ---- storage reads ----

  predicate HasAdmin(s: State) { s.admin.Some? }

  function GetAdmin(s: State): Result<Address>
  {
    if s.admin.Some? then Ok(s.admin.value) else Err(NotInitialized)
  }

  function GetUsdcToken(s: State): Result<Address>
  {
    if HasAdmin(s) then Ok(s.usdcToken) else Err(NotInitialized)
  }

  function GetPlatformFeeBps(s: State): Result<U32>
  {
    if HasAdmin(s) then Ok(s.feeBps) else Err(NotInitialized)
  }

  function GetRemittanceCounter(s: State): Result<U64>
  {
    if HasAdmin(s) then Ok(s.counter) else Err(NotInitialized)
  }

  function GetAccumulatedFees(s: State): Result<I128>
  {
    if HasAdmin(s) then Ok(s.feePool) else Err(NotInitialized)
  }

  /** An agent never registered reads as not registered. */
  predicate IsAgentRegistered(s: State, agent: Address)
  {
    agent in s.agents && s.agents[agent]
  }

  function GetRemittance(s: State, id: U64): Result<Remittance>
  {
    if id in s.remittances then Ok(s.remittances[id]) else Err(RemittanceNotFound)
  }

  /** The token transfer of a payout from custody to the agent. */
  function Payout(agent: Address, amount: I128): Transfer
  {
    Transfer(Custody, Account(agent), amount)
  }

  // ---- admin operations ----

  /** `initialize`: one-time setup; refuses a second call and a rate above 10000. */
  function Initialize(s: State, admin: Address, usdcToken: Address, feeBps: U32): (r: Result<Commit<()>>)
    ensures r.Ok? <==> !HasAdmin(s) && feeBps <= MAX_FEE_BPS
    ensures HasAdmin(s) ==> r == Err(AlreadyInitialized)
    ensures !HasAdmin(s) && feeBps > MAX_FEE_BPS ==> r == Err(InvalidFeeBps)
    ensures r.Ok? ==> var t := r.value.post;
      GetAdmin(t) == Ok(admin) && GetUsdcToken(t) == Ok(usdcToken) && GetPlatformFeeBps(t) == Ok(feeBps)
      && GetRemittanceCounter(t) == Ok(0) && GetAccumulatedFees(t) == Ok(0)
      && t.agents == s.agents && t.remittances == s.remittances && t.settled == s.settled
      && t.transfers == s.transfers && t.events == s.events
  {
    if HasAdmin(s) then Err(AlreadyInitialized)
    else if feeBps > MAX_FEE_BPS then Err(InvalidFeeBps)
    else Ok(Commit((), s.(admin := Some(admin), usdcToken := usdcToken, feeBps := feeBps, counter := 0, feePool := 0)))
  }

  /** `register_agent` (`registered` true) and `remove_agent` (false): admin only;
      the flag is overwritten whatever it was. */
  function SetAgent(s: State, env: Env, agent: Address, registered: bool): (r: Result<Commit<()>>)
    ensures r.Ok? <==> HasAdmin(s) && Authorized(env, s.admin.value)
    ensures !HasAdmin(s) ==> r == Err(NotInitialized)
    ensures HasAdmin(s) && !Authorized(env, s.admin.value) ==> r == Err(Unauthorized)
    ensures r.Ok? ==> var t := r.value.post;
      (IsAgentRegistered(t, agent) <==> registered)
      && (forall a :: a != agent ==> (IsAgentRegistered(t, a) <==> IsAgentRegistered(s, a)))
      && t.events == s.events + [if registered then AgentRegistered(agent, s.admin.value) else AgentRemoved(agent, s.admin.value)]
      && t == s.(agents := t.agents, events := t.events)
  {
    var admin :- GetAdmin(s);
    if !Authorized(env, admin) then Err(Unauthorized)
    else
      var e := if registered then AgentRegistered(agent, admin) else AgentRemoved(agent, admin);
      Ok(Commit((), s.(agents := s.agents[agent := registered], events := s.events + [e])))
  }

  function RegisterAgent(s: State, env: Env, agent: Address): Result<Commit<()>>
  {
    SetAgent(s, env, agent, true)
  }

  function RemoveAgent(s: State, env: Env, agent: Address): Result<Commit<()>>
  {
    SetAgent(s, env, agent, false)
  }

  /** `update_fee` as written: it stores the new rate and only then reads the
      rate it reports as the old one, so the event carries the new rate twice. */
  function UpdateFee(s: State, env: Env, feeBps: U32): (r: Result<Commit<()>>)
    ensures r.Ok? <==> HasAdmin(s) && Authorized(env, s.admin.value) && feeBps <= MAX_FEE_BPS
    ensures !HasAdmin(s) ==> r == Err(NotInitialized)
    ensures HasAdmin(s) && !Authorized(env, s.admin.value) ==> r == Err(Unauthorized)
    ensures HasAdmin(s) && Authorized(env, s.admin.value) && feeBps > MAX_FEE_BPS ==> r == Err(InvalidFeeBps)
    ensures r.Ok? ==> var t := r.value.post;
      GetPlatformFeeBps(t) == Ok(feeBps) && t.remittances == s.remittances
      && t == s.(feeBps := feeBps, events := s.events + [FeeUpdated(s.admin.value, feeBps, feeBps)])
  {
    var admin :- GetAdmin(s);
    if !Authorized(env, admin) then Err(Unauthorized)
    else if feeBps > MAX_FEE_BPS then Err(InvalidFeeBps)
    else
      var written := s.(feeBps := feeBps);
      var oldFee := written.feeBps;  // read back after the write
      Ok(Commit((), written.(events := s.events + [FeeUpdated(admin, oldFee, feeBps)])))
  }

  /** `update_fee` as evidently intended: the old rate is read before the new one is stored. */
  function UpdateFeeIntended(s: State, env: Env, feeBps: U32): (r: Result<Commit<()>>)
    ensures r.Ok? <==> UpdateFee(s, env, feeBps).Ok?
    ensures r.Err? ==> r == UpdateFee(s, env, feeBps)
    ensures r.Ok? ==> var t := r.value.post;
      t.events == s.events + [FeeUpdated(s.admin.value, s.feeBps, feeBps)]
      && t.(events := s.events) == UpdateFee(s, env, feeBps).value.post.(events := s.events)
  {
    var admin :- GetAdmin(s);
    if !Authorized(env, admin) then Err(Unauthorized)
    else if feeBps > MAX_FEE_BPS then Err(InvalidFeeBps)
    else
      var oldFee := s.feeBps;
      Ok(Commit((), s.(feeBps := feeBps, events := s.events + [FeeUpdated(admin, oldFee, feeBps)])))
  }

  /** `withdraw_fees`: admin only; the recipient must pass the address check and
      the pool must be positive; the whole pool is paid out and the pool reset to 0. */
  function WithdrawFees(s: State, env: Env, to: Address): (r: Result<Commit<()>>)
    ensures r.Ok? <==> HasAdmin(s) && Authorized(env, s.admin.value) && env.wellFormed(to) && s.feePool > 0
    ensures !HasAdmin(s) ==> r == Err(NotInitialized)
    ensures HasAdmin(s) && !Authorized(env, s.admin.value) ==> r == Err(Unauthorized)
    ensures HasAdmin(s) && Authorized(env, s.admin.value) && !env.wellFormed(to) ==> r == Err(InvalidAddress)
    ensures HasAdmin(s) && Authorized(env, s.admin.value) && env.wellFormed(to) && s.feePool <= 0 ==> r == Err(NoFeesToWithdraw)
    ensures r.Ok? ==> var t := r.value.post;
      t.feePool == 0 && t.transfers == s.transfers + [Transfer(Custody, Account(to), s.feePool)]
      && t.remittances == s.remittances && t.settled == s.settled && t.agents == s.agents
      && t.feeBps == s.feeBps && t.counter == s.counter && t.admin == s.admin
  {
    var admin :- GetAdmin(s);
    if !Authorized(env, admin) then Err(Unauthorized)
    else if !env.wellFormed(to) then Err(InvalidAddress)
    else
      var fees := s.feePool;  // present, since the admin is
      if fees <= 0 then Err(NoFeesToWithdraw)
      else
        var token := s.usdcToken;
        Ok(Commit((), s.(
          transfers := s.transfers + [Transfer(Custody, Account(to), fees)],
          feePool := 0,
          events := s.events + [FeesWithdrawn(admin, to, token, fees)])))
  }

  // ---- the remittance lifecycle ----

  /** `create_remittance`: the sender's amount goes into custody and a Pending record
      is stored under the next counter value, with the fee computed at the current rate. */
  function CreateRemittance(s: State, env: Env, sender: Address, agent: Address, amount: I128, expiry: Option<U64>)
    : (r: Result<Commit<U64>>)
    ensures !Authorized(env, sender) ==> r == Err(Unauthorized)
    ensures Authorized(env, sender) && amount <= 0 ==> r == Err(InvalidAmount)
    ensures Authorized(env, sender) && amount > 0 && !IsAgentRegistered(s, agent) ==> r == Err(AgentNotRegistered)
    ensures Authorized(env, sender) && amount > 0 && IsAgentRegistered(s, agent) && !HasAdmin(s) ==> r == Err(NotInitialized)
    ensures (Authorized(env, sender) && amount > 0 && IsAgentRegistered(s, agent) && HasAdmin(s)
             && !InI128(amount * s.feeBps)) ==> r == Err(Overflow)
    ensures (Authorized(env, sender) && amount > 0 && IsAgentRegistered(s, agent) && HasAdmin(s)
             && ComputeFee(amount, s.feeBps).Ok? && s.counter == U64_MAX) ==> r == Err(Overflow)
    ensures r.Ok? <==> Authorized(env, sender) && amount > 0 && IsAgentRegistered(s, agent) && HasAdmin(s)
                       && ComputeFee(amount, s.feeBps).Ok? && s.counter < U64_MAX
    ensures r.Ok? ==> var id, t := r.value.ret, r.value.post;
      id == s.counter + 1 && t.counter == id
      && t.remittances == s.remittances[id := Remittance(id, sender, agent, amount, ComputeFee(amount, s.feeBps).value, Pending, expiry)]
      && t.transfers == s.transfers + [Transfer(Account(sender), Custody, amount)]
      && t.feePool == s.feePool && t.settled == s.settled && t.feeBps == s.feeBps && t.agents == s.agents
      && t.admin == s.admin
  {
    if !Authorized(env, sender) then Err(Unauthorized)
    else if amount <= 0 then Err(InvalidAmount)
    else if !IsAgentRegistered(s, agent) then Err(AgentNotRegistered)
    else
      var feeBps :- GetPlatformFeeBps(s);
      var fee :- ComputeFee(amount, feeBps);
      // the token and the counter are present, since the fee rate is
      var token, counter := s.usdcToken, s.counter;
      var id :- OrOverflow(CheckedAddU64(counter, 1));
      var record := Remittance(id, sender, agent, amount, fee, Pending, expiry);
      Ok(Commit(id, s.(
        transfers := s.transfers + [Transfer(Account(sender), Custody, amount)],
        remittances := s.remittances[id := record],
        counter := id,
        events := s.events + [RemittanceCreated(id, sender, agent, token, amount, fee)])))
  }

  /** `confirm_payout`: the record's agent claims a Pending, unsettled, unexpired
      remittance; the payout `amount - fee` leaves custody, the fee joins the pool,
      and the record becomes Completed with its settlement marker set. */
  function ConfirmPayout(s: State, env: Env, id: U64): (r: Result<Commit<()>>)
    ensures id !in s.remittances ==> r == Err(RemittanceNotFound)
    ensures id in s.remittances ==> var rec := s.remittances[id];
      (!Authorized(env, rec.agent) ==> r == Err(Unauthorized))
      && (Authorized(env, rec.agent) && rec.status != Pending ==> r == Err(InvalidStatus))
      && (Authorized(env, rec.agent) && rec.status == Pending && id in s.settled ==> r == Err(DuplicateSettlement))
      && (Authorized(env, rec.agent) && rec.status == Pending && id !in s.settled && Expired(rec, env.now)
          ==> r == Err(SettlementExpired))
    ensures id in s.remittances ==> var rec := s.remittances[id];
      var guarded := Authorized(env, rec.agent) && rec.status == Pending && id !in s.settled && !Expired(rec, env.now);
      (guarded && !env.wellFormed(rec.agent) ==> r == Err(InvalidAddress))
      && (guarded && env.wellFormed(rec.agent) && !InI128(rec.amount - rec.fee) ==> r == Err(Overflow))
      && (guarded && env.wellFormed(rec.agent) && InI128(rec.amount - rec.fee) && !HasAdmin(s)
          ==> r == Err(NotInitialized))
      && ((guarded && env.wellFormed(rec.agent) && InI128(rec.amount - rec.fee) && HasAdmin(s)
           && !InI128(s.feePool + rec.fee)) ==> r == Err(Overflow))
    ensures r.Ok? <==> id in s.remittances && var rec := s.remittances[id];
      Authorized(env, rec.agent) && rec.status == Pending && id !in s.settled && !Expired(rec, env.now)
      && env.wellFormed(rec.agent) && InI128(rec.amount - rec.fee) && HasAdmin(s) && InI128(s.feePool + rec.fee)
    ensures r.Ok? ==> id in s.remittances && var rec, t := s.remittances[id], r.value.post;
      t.feePool == s.feePool + rec.fee
      && t.transfers == s.transfers + [Payout(rec.agent, rec.amount - rec.fee)]
      && t.remittances == s.remittances[id := rec.(status := Completed)]
      && t.settled == s.settled + {id}
      && t.counter == s.counter && t.feeBps == s.feeBps && t.agents == s.agents && t.admin == s.admin
  {
    var rec :- GetRemittance(s, id);
    if !Authorized(env, rec.agent) then Err(Unauthorized)
    else if rec.status != Pending then Err(InvalidStatus)
    else if id in s.settled then Err(DuplicateSettlement)
    else if Expired(rec, env.now) then Err(SettlementExpired)
    else if !env.wellFormed(rec.agent) then Err(InvalidAddress)
    else
      var payout :- OrOverflow(CheckedSub(rec.amount, rec.fee));
      var token :- GetUsdcToken(s);
      var fees := s.feePool;  // present, since the token is
      var newFees :- OrOverflow(CheckedAdd(fees, rec.fee));
      Ok(Commit((), s.(
        transfers := s.transfers + [Payout(rec.agent, payout)],
        feePool := newFees,
        remittances := s.remittances[id := rec.(status := Completed)],
        settled := s.settled + {id},
        events := s.events + [RemittanceCompleted(id, rec.sender, rec.agent, token, payout)])))
  }

  /** `cancel_remittance`: the sender takes a Pending remittance back in full; the
      record becomes Cancelled; the fee pool and the settlement markers are untouched. */
  function CancelRemittance(s: State, env: Env, id: U64): (r: Result<Commit<()>>)
    ensures id !in s.remittances ==> r == Err(RemittanceNotFound)
    ensures id in s.remittances ==> var rec := s.remittances[id];
      (!Authorized(env, rec.sender) ==> r == Err(Unauthorized))
      && (Authorized(env, rec.sender) && rec.status != Pending ==> r == Err(InvalidStatus))
    ensures r.Ok? <==> id in s.remittances && Authorized(env, s.remittances[id].sender)
                       && s.remittances[id].status == Pending && HasAdmin(s)
    ensures r.Ok? ==> var rec, t := s.remittances[id], r.value.post;
      t.transfers == s.transfers + [Transfer(Custody, Account(rec.sender), rec.amount)]
      && t.remittances == s.remittances[id := rec.(status := Cancelled)]
      && t.feePool == s.feePool && t.settled == s.settled
      && t.counter == s.counter && t.feeBps == s.feeBps && t.agents == s.agents && t.admin == s.admin
  {
    var rec :- GetRemittance(s, id);
    if !Authorized(env, rec.sender) then Err(Unauthorized)
    else if rec.status != Pending then Err(InvalidStatus)
    else
      var token :- GetUsdcToken(s);
      Ok(Commit((), s.(
        transfers := s.transfers + [Transfer(Custody, Account(rec.sender), rec.amount)],
        remittances := s.remittances[id := rec.(status := Cancelled)],
        events := s.events + [RemittanceCancelled(id, rec.sender, rec.agent, token, rec.amount)])))
  }
}
