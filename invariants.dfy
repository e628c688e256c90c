/** Properties that hold across every entry point: the storage invariant that a
    freshly deployed contract starts with and every call preserves, and the
    forward-only evolution of records, markers, counter and logs. */
module Invariants {
  import opened Numeric
  import opened Types
  import opened Events
  import opened Fees
  import opened Ledger
  import opened Batch
  import opened BatchProofs

  /** One call of a public entry point, with its arguments. */
  datatype Call =
    | Init(admin: Address, usdcToken: Address, feeBps: U32)
    | Register(agent: Address)
    | Remove(agent: Address)
    | SetFee(feeBps: U32)
    | Create(sender: Address, agent: Address, amount: I128, expiry: Option<U64>)
    | Confirm(id: U64)
    | Cancel(id: U64)
    | Withdraw(to: Address)
    | Settle(entries: seq<BatchSettleEntry>)

  /** The state after one call, rollback included. */
  function Step(s: State, env: Env, c: Call): State
  {
    match c
    case Init(admin, token, bps) => Apply(s, Initialize(s, admin, token, bps))
    case Register(agent) => Apply(s, RegisterAgent(s, env, agent))
    case Remove(agent) => Apply(s, RemoveAgent(s, env, agent))
    case SetFee(bps) => Apply(s, UpdateFee(s, env, bps))
    case Create(sender, agent, amount, expiry) => Apply(s, CreateRemittance(s, env, sender, agent, amount, expiry))
    case Confirm(id) => Apply(s, ConfirmPayout(s, env, id))
    case Cancel(id) => Apply(s, CancelRemittance(s, env, id))
    case Withdraw(to) => Apply(s, WithdrawFees(s, env, to))
    case Settle(entries) => Apply(s, BatchSettle(s, env, entries).outcome)
  }

  datatype Invocation = Invocation(env: Env, call: Call)

  /** The state after a sequence of calls, each in its own environment. */
  function Run(s: State, calls: seq<Invocation>): State
    decreases |calls|
  {
    if |calls| == 0 then s else Run(Step(s, calls[0].env, calls[0].call), calls[1..])
  }

  /** A stored record is keyed by its own id, was allocated by the counter, and
      holds a positive amount whose frozen fee lies in [0, amount]. */
  ghost predicate GoodRecord(s: State, id: U64)
    requires id in s.remittances
  {
    var r := s.remittances[id];
    r.id == id && 1 <= id <= s.counter && r.amount > 0 && 0 <= r.fee <= r.amount
  }

  /** The storage invariant. */
  ghost predicate Inv(s: State)
  {
    && (HasAdmin(s) ==> s.feeBps <= MAX_FEE_BPS)
    && (!HasAdmin(s) ==> s.remittances == map[] && s.settled == {} && s.counter == 0 && s.feePool == 0)
    && s.feePool >= 0
    && (forall id :: id in s.remittances ==> GoodRecord(s, id))
    && (forall id :: id in s.settled <==> id in s.remittances && s.remittances[id].status == Completed)
  }

  /** A record only ever changes its status, and only out of Pending. */
  ghost predicate Frozen(r: Remittance, r': Remittance)
  {
    r'.(status := r.status) == r && (r.status != Pending ==> r' == r)
  }

  /** Records are never deleted and only move forward, markers are never cleared,
      the counter never decreases, the admin and token never change once set, and
      the transfer and event logs only grow. */
  ghost predicate Evolves(pre: State, post: State)
  {
    && (forall id :: id in pre.remittances ==> id in post.remittances && Frozen(pre.remittances[id], post.remittances[id]))
    && pre.settled <= post.settled
    && pre.counter <= post.counter
    && (HasAdmin(pre) ==> post.admin == pre.admin && post.usdcToken == pre.usdcToken)
    && pre.transfers <= post.transfers
    && pre.events <= post.events
  }

  lemma DeployedInv()
    ensures Inv(Deployed())
  {
  }

  lemma SumFeesNonNegative(vs: seq<ValidatedSettlement>)
    requires forall j :: 0 <= j < |vs| ==> vs[j].fee >= 0
    ensures SumFees(vs) >= 0
    decreases |vs|
  {
    if |vs| > 0 {
      SumFeesNonNegative(vs[..|vs| - 1]);
    }
  }

  lemma CreatePreservesInv(s: State, env: Env, sender: Address, agent: Address, amount: I128, expiry: Option<U64>)
    requires Inv(s)
    ensures var r := CreateRemittance(s, env, sender, agent, amount, expiry);
      Inv(Apply(s, r)) && Evolves(s, Apply(s, r))
      && (r.Ok? ==> r.value.ret !in s.remittances)
  {
    var r := CreateRemittance(s, env, sender, agent, amount, expiry);
    if r.Ok? {
      FeeWithinAmount(amount, s.feeBps);
      var t := r.value.post;
      var id := r.value.ret;
      forall k | k in s.remittances ensures k < id { assert GoodRecord(s, k); }
      forall k | k in t.remittances ensures GoodRecord(t, k) {
        if k != id { assert GoodRecord(s, k); }
      }
    }
  }

  /** The shape shared by `confirm_payout` and a successful batch: the records named
      by `ids`, all Pending, become Completed with their markers set, the pool does
      not shrink, and only the logs grow besides. */
  ghost predicate SettlesFrom(s: State, t: State, ids: set<U64>)
  {
    && HasAdmin(s)
    && ids <= s.remittances.Keys
    && (forall id :: id in ids ==> s.remittances[id].status == Pending)
    && t.remittances.Keys == s.remittances.Keys
    && (forall id :: id in t.remittances ==>
          t.remittances[id] == if id in ids then s.remittances[id].(status := Completed) else s.remittances[id])
    && t.settled == s.settled + ids
    && t.feePool >= s.feePool
    && t.counter == s.counter && t.feeBps == s.feeBps && t.admin == s.admin && t.usdcToken == s.usdcToken
    && s.transfers <= t.transfers && s.events <= t.events
  }

  lemma SettlingPreservesInv(s: State, t: State, ids: set<U64>)
    requires Inv(s) && SettlesFrom(s, t, ids)
    ensures Inv(t) && Evolves(s, t)
  {
    forall id | id in t.remittances ensures GoodRecord(t, id) {
      assert GoodRecord(s, id);
    }
  }

  lemma ConfirmPreservesInv(s: State, env: Env, id: U64)
    requires Inv(s)
    ensures var t := Apply(s, ConfirmPayout(s, env, id)); Inv(t) && Evolves(s, t)
  {
    var r := ConfirmPayout(s, env, id);
    if r.Ok? {
      assert GoodRecord(s, id);
      SettlingPreservesInv(s, r.value.post, {id});
    }
  }

  lemma CancelPreservesInv(s: State, env: Env, id: U64)
    requires Inv(s)
    ensures var t := Apply(s, CancelRemittance(s, env, id)); Inv(t) && Evolves(s, t) && t.settled == s.settled
  {
    var r := CancelRemittance(s, env, id);
    if r.Ok? {
      var t := r.value.post;
      forall k | k in t.remittances ensures GoodRecord(t, k) { assert GoodRecord(s, k); }
    }
  }

  /** Under the invariant, the fees a validated batch collects add up to a non-negative amount. */
  lemma SnapshotFeesNonNegative(s: State, env: Env, entries: seq<BatchSettleEntry>, dedupe: bool)
    requires Inv(s) && ValidateWith(s, env, entries, dedupe).Validated?
    ensures SumFees(ValidateWith(s, env, entries, dedupe).snapshots) >= 0
  {
    ValidatedSnapshots(s, env, entries, dedupe);
    var vs := ValidateWith(s, env, entries, dedupe).snapshots;
    forall j | 0 <= j < |vs| ensures vs[j].fee >= 0 {
      assert SnapshotOf(s, entries[j].remittanceId, vs[j]);
      assert GoodRecord(s, entries[j].remittanceId);
    }
    SumFeesNonNegative(vs);
  }

  /** A batch, as written or deduplicated, keeps the invariant: the only records it
      changes were Pending and become Completed with their markers set. */
  lemma BatchPreservesInv(s: State, env: Env, entries: seq<BatchSettleEntry>, dedupe: bool)
    requires Inv(s)
    ensures var t := Apply(s, BatchSettleWith(s, env, entries, dedupe).outcome); Inv(t) && Evolves(s, t)
  {
    var run := BatchSettleWith(s, env, entries, dedupe);
    if run.outcome.Ok? {
      var t := run.outcome.value.post;
      BatchSettleSuccessPerEntry(s, env, entries, dedupe);
      BatchSettleSuccessTotals(s, env, entries, dedupe);
      ValidatedSnapshots(s, env, entries, dedupe);
      SnapshotFeesNonNegative(s, env, entries, dedupe);
      var ids := Ids(entries);
      forall id | id in ids
        ensures id in s.remittances && s.remittances[id].status == Pending
        ensures t.remittances[id] == s.remittances[id].(status := Completed)
      {
        var j :| 0 <= j < |entries| && entries[j].remittanceId == id;
      }
      assert SettlesFrom(s, t, ids);
      SettlingPreservesInv(s, t, ids);
    }
  }

  /** Initialization, agent registry changes, rate changes and fee withdrawals
      never touch a remittance and keep the rate within 10000 bps. */
  lemma InitPreservesInv(s: State, env: Env, admin: Address, token: Address, bps: U32)
    requires Inv(s)
    ensures var t := Step(s, env, Init(admin, token, bps)); Inv(t) && Evolves(s, t)
  {
  }

  lemma AgentsPreserveInv(s: State, env: Env, agent: Address)
    requires Inv(s)
    ensures var t := Step(s, env, Register(agent)); Inv(t) && Evolves(s, t)
    ensures var t := Step(s, env, Remove(agent)); Inv(t) && Evolves(s, t)
  {
  }

  lemma FeeChangePreservesInv(s: State, env: Env, bps: U32)
    requires Inv(s)
    ensures var t := Step(s, env, SetFee(bps)); Inv(t) && Evolves(s, t)
  {
  }

  lemma WithdrawPreservesInv(s: State, env: Env, to: Address)
    requires Inv(s)
    ensures var t := Step(s, env, Withdraw(to)); Inv(t) && Evolves(s, t)
  {
  }

  /** Every call preserves the invariant and evolves the state forward only. */
  lemma StepPreservesInv(s: State, env: Env, c: Call)
    requires Inv(s)
    ensures Inv(Step(s, env, c)) && Evolves(s, Step(s, env, c))
  {
    match c
    case Create(sender, agent, amount, expiry) => CreatePreservesInv(s, env, sender, agent, amount, expiry);
    case Settle(entries) => BatchPreservesInv(s, env, entries, false);
    case Confirm(id) => ConfirmPreservesInv(s, env, id);
    case Cancel(id) => CancelPreservesInv(s, env, id);
    case Init(admin, token, bps) => InitPreservesInv(s, env, admin, token, bps);
    case Register(agent) => AgentsPreserveInv(s, env, agent);
    case Remove(agent) => AgentsPreserveInv(s, env, agent);
    case SetFee(bps) => FeeChangePreservesInv(s, env, bps);
    case Withdraw(to) => WithdrawPreservesInv(s, env, to);
  }

  lemma EvolvesTransitive(a: State, b: State, c: State)
    requires Evolves(a, b) && Evolves(b, c)
    ensures Evolves(a, c)
  {
  }

  /** Any sequence of calls keeps the invariant and moves every record forward only;
      in particular the stored fee rate never exceeds 10000, every record's fee lies
      in [0, amount], and a settlement marker is present exactly for Completed records. */
  lemma {:induction false} RunPreservesInv(s: State, calls: seq<Invocation>)
    requires Inv(s)
    ensures Inv(Run(s, calls)) && Evolves(s, Run(s, calls))
    decreases |calls|
  {
    if |calls| > 0 {
      var s1 := Step(s, calls[0].env, calls[0].call);
      StepPreservesInv(s, calls[0].env, calls[0].call);
      RunPreservesInv(s1, calls[1..]);
      EvolvesTransitive(s, s1, Run(s1, calls[1..]));
    }
  }

  /** Every state reachable from a fresh deployment satisfies the invariant. */
  lemma ReachableInv(calls: seq<Invocation>)
    ensures Inv(Run(Deployed(), calls))
  {
    DeployedInv();
    RunPreservesInv(Deployed(), calls);
  }
}
