/** The contract as an object over its storage. Every entry point of src/lib.rs is
    a method that updates the storage fields in the order of the source and is
    proved to behave as the entry point's function in module Ledger or Batch says:
    `Applied(old(St()), St(), r, ...)`, the error path included. Where the source
    fails after it has already written (a transfer before an overflow check),
    `Rollback` restores the storage, as the host does for a call that returns an error. */
module Contract {
  import opened Numeric
  import opened Types
  import opened Events
  import opened Fees
  import opened Ledger
  import opened Batch
  import opened BatchProofs

  class SwiftRemit {
    var admin: Option<Address>
    var usdcToken: Address
    var feeBps: U32
    var counter: U64
    var feePool: I128
    var agents: map<Address, bool>
    var remittances: map<U64, Remittance>
    var settled: set<U64>
    var transfers: seq<Transfer>
    var events: seq<Event>

    /** The storage as one value. */
    function St(): State
      reads this
    {
      State(admin, usdcToken, feeBps, counter, feePool, agents, remittances, settled, transfers, events)
    }

    constructor ()
      ensures St() == Deployed()
    {
      admin, usdcToken, feeBps, counter, feePool := None, Address(0), 0, 0, 0;
      agents, remittances, settled, transfers, events := map[], map[], {}, [], [];
    }

    /** The host's rollback of a failed call. */
    method Rollback(s: State)
      modifies this
      ensures St() == s
    {
      admin, usdcToken, feeBps, counter, feePool := s.admin, s.usdcToken, s.feeBps, s.counter, s.feePool;
      agents, remittances, settled, transfers, events := s.agents, s.remittances, s.settled, s.transfers, s.events;
    }

    method Initialize(newAdmin: Address, token: Address, bps: U32) returns (r: Result<()>)
      modifies this
      ensures Applied(old(St()), St(), r, Ledger.Initialize(old(St()), newAdmin, token, bps))
    {
      if admin.Some? {
        return Err(AlreadyInitialized);
      }
      if bps > MAX_FEE_BPS {
        return Err(InvalidFeeBps);
      }
      admin := Some(newAdmin);
      usdcToken := token;
      feeBps := bps;
      counter := 0;
      feePool := 0;
      r := Ok(());
    }

    method RegisterAgent(env: Env, agent: Address) returns (r: Result<()>)
      modifies this
      ensures Applied(old(St()), St(), r, Ledger.RegisterAgent(old(St()), env, agent))
    {
      if admin.None? {
        return Err(NotInitialized);
      }
      var a := admin.value;
      if !Authorized(env, a) {
        return Err(Unauthorized);
      }
      agents := agents[agent := true];
      events := events + [AgentRegistered(agent, a)];
      r := Ok(());
    }

    method RemoveAgent(env: Env, agent: Address) returns (r: Result<()>)
      modifies this
      ensures Applied(old(St()), St(), r, Ledger.RemoveAgent(old(St()), env, agent))
    {
      if admin.None? {
        return Err(NotInitialized);
      }
      var a := admin.value;
      if !Authorized(env, a) {
        return Err(Unauthorized);
      }
      agents := agents[agent := false];
      events := events + [AgentRemoved(agent, a)];
      r := Ok(());
    }

    /** As written: the rate reported as the old one is read after the new one is stored. */
    method UpdateFee(env: Env, bps: U32) returns (r: Result<()>)
      modifies this
      ensures Applied(old(St()), St(), r, Ledger.UpdateFee(old(St()), env, bps))
    {
      if admin.None? {
        return Err(NotInitialized);
      }
      var a := admin.value;
      if !Authorized(env, a) {
        return Err(Unauthorized);
      }
      if bps > MAX_FEE_BPS {
        return Err(InvalidFeeBps);
      }
      feeBps := bps;
      var oldFee := feeBps;
      events := events + [FeeUpdated(a, oldFee, bps)];
      r := Ok(());
    }

    method CreateRemittance(env: Env, sender: Address, agent: Address, amount: I128, expiry: Option<U64>)
      returns (r: Result<U64>)
      modifies this
      ensures Applied(old(St()), St(), r, Ledger.CreateRemittance(old(St()), env, sender, agent, amount, expiry))
    {
      if !Authorized(env, sender) {
        return Err(Unauthorized);
      }
      if amount <= 0 {
        return Err(InvalidAmount);
      }
      if !Ledger.IsAgentRegistered(St(), agent) {
        return Err(AgentNotRegistered);
      }
      if admin.None? {
        return Err(NotInitialized);
      }
      var fee := ComputeFee(amount, feeBps);
      if fee.Err? {
        return Err(fee.error);
      }
      var token := usdcToken;
      var saved := St();
      transfers := transfers + [Transfer(Account(sender), Custody, amount)];
      var id := CheckedAddU64(counter, 1);
      if id.None? {
        Rollback(saved);
        return Err(Overflow);
      }
      remittances := remittances[id.value := Remittance(id.value, sender, agent, amount, fee.value, Pending, expiry)];
      counter := id.value;
      events := events + [RemittanceCreated(id.value, sender, agent, token, amount, fee.value)];
      r := Ok(id.value);
    }

    method ConfirmPayout(env: Env, id: U64) returns (r: Result<()>)
      modifies this
      ensures Applied(old(St()), St(), r, Ledger.ConfirmPayout(old(St()), env, id))
    {
      if id !in remittances {
        return Err(RemittanceNotFound);
      }
      var rec := remittances[id];
      if !Authorized(env, rec.agent) {
        return Err(Unauthorized);
      }
      if rec.status != Pending {
        return Err(InvalidStatus);
      }
      if id in settled {
        return Err(DuplicateSettlement);
      }
      if Expired(rec, env.now) {
        return Err(SettlementExpired);
      }
      if !env.wellFormed(rec.agent) {
        return Err(InvalidAddress);
      }
      var payout := CheckedSub(rec.amount, rec.fee);
      if payout.None? {
        return Err(Overflow);
      }
      if admin.None? {
        return Err(NotInitialized);
      }
      var token := usdcToken;
      var saved := St();
      transfers := transfers + [Payout(rec.agent, payout.value)];
      var newFees := CheckedAdd(feePool, rec.fee);
      if newFees.None? {
        Rollback(saved);
        return Err(Overflow);
      }
      feePool := newFees.value;
      remittances := remittances[id := rec.(status := Completed)];
      settled := settled + {id};
      events := events + [RemittanceCompleted(id, rec.sender, rec.agent, token, payout.value)];
      r := Ok(());
    }

    method CancelRemittance(env: Env, id: U64) returns (r: Result<()>)
      modifies this
      ensures Applied(old(St()), St(), r, Ledger.CancelRemittance(old(St()), env, id))
    {
      if id !in remittances {
        return Err(RemittanceNotFound);
      }
      var rec := remittances[id];
      if !Authorized(env, rec.sender) {
        return Err(Unauthorized);
      }
      if rec.status != Pending {
        return Err(InvalidStatus);
      }
      if admin.None? {
        return Err(NotInitialized);
      }
      var token := usdcToken;
      transfers := transfers + [Transfer(Custody, Account(rec.sender), rec.amount)];
      remittances := remittances[id := rec.(status := Cancelled)];
      events := events + [RemittanceCancelled(id, rec.sender, rec.agent, token, rec.amount)];
      r := Ok(());
    }

    method WithdrawFees(env: Env, to: Address) returns (r: Result<()>)
      modifies this
      ensures Applied(old(St()), St(), r, Ledger.WithdrawFees(old(St()), env, to))
    {
      if admin.None? {
        return Err(NotInitialized);
      }
      var a := admin.value;
      if !Authorized(env, a) {
        return Err(Unauthorized);
      }
      if !env.wellFormed(to) {
        return Err(InvalidAddress);
      }
      var fees := feePool;
      if fees <= 0 {
        return Err(NoFeesToWithdraw);
      }
      var token := usdcToken;
      transfers := transfers + [Transfer(Custody, Account(to), fees)];
      feePool := 0;
      events := events + [FeesWithdrawn(a, to, token, fees)];
      r := Ok(());
    }

    // ---- read-only entry points ----

    /** A stored record, or `RemittanceNotFound`. */
    method GetRemittance(id: U64) returns (r: Result<Remittance>)
      ensures r.Ok? <==> id in remittances
      ensures r.Ok? ==> r.value == remittances[id]
      ensures r.Err? ==> r.error == RemittanceNotFound
    {
      if id in remittances {
        r := Ok(remittances[id]);
      } else {
        r := Err(RemittanceNotFound);
      }
    }

    /** The fee pool, which reads as `NotInitialized` before `initialize`. */
    method GetAccumulatedFees() returns (r: Result<I128>)
      ensures r.Ok? <==> admin.Some?
      ensures r.Err? ==> r.error == NotInitialized
      ensures r.Ok? ==> r.value == feePool
    {
      if admin.None? {
        return Err(NotInitialized);
      }
      r := Ok(feePool);
    }

    /** An agent is registered exactly when its flag is stored and true. */
    method IsAgentRegistered(agent: Address) returns (b: bool)
      ensures b <==> agent in agents && agents[agent]
    {
      b := agent in agents && agents[agent];
    }

    /** The fee rate, which reads as `NotInitialized` before `initialize`. */
    method GetPlatformFeeBps() returns (r: Result<U32>)
      ensures r.Ok? <==> admin.Some?
      ensures r.Err? ==> r.error == NotInitialized
      ensures r.Ok? ==> r.value == feeBps
    {
      if admin.None? {
        return Err(NotInitialized);
      }
      r := Ok(feeBps);
    }

    // ---- batch_settle ----

    /** Phase 1 of `batch_settle`: the guards of every entry against the unchanged
        storage, in order, stopping at the first failure. */
    method ValidateBatch(env: Env, entries: seq<BatchSettleEntry>) returns (v: Validation)
      ensures v == Validate(St(), env, entries)
    {
      var snapshots: seq<ValidatedSettlement> := [];
      var i := 0;
      while i < |entries|
        invariant 0 <= i <= |entries|
        invariant ValidateWith(St(), env, entries[..i], false) == Validated(snapshots)
      {
        ValidateExtend(St(), env, entries, i, false);
        var id := entries[i].remittanceId;
        var reason: Option<Reason> := None;
        if id !in remittances {
          reason := Some(NotFound);
        } else {
          var rec := remittances[id];
          if rec.status != Pending {
            reason := Some(NotPending);
          } else if id in settled {
            reason := Some(AlreadySettled);
          } else if Expired(rec, env.now) {
            reason := Some(PastExpiry);
          } else if !env.wellFormed(rec.agent) {
            reason := Some(BadAgentAddress);
          } else {
            var payout := CheckedSub(rec.amount, rec.fee);
            if payout.None? {
              reason := Some(PayoutOverflow);
            } else {
              snapshots := snapshots + [ValidatedSettlement(id, rec.agent, payout.value, rec.fee, rec.sender)];
            }
          }
        }
        if reason.Some? {
          RejectionPersists(St(), env, entries, i + 1, false);
          return Rejected(i, id, reason.value);
        }
        i := i + 1;
      }
      assert entries[..i] == entries;
      v := Validated(snapshots);
    }

    /** One iteration of phase 2, in the order of the source: the payout transfer,
        the fee pool, the record, the marker, the completion event, the count and the
        running total. On failure the storage keeps the writes made so far, for the
        caller to roll back. */
    method SettleOne(token: Address, s: ValidatedSettlement,
                     results: seq<BatchSettleResult>, count: nat, total: I128, staged: seq<Event>)
      returns (failure: Option<ContractError>,
               results': seq<BatchSettleResult>, count': nat, total': I128, staged': seq<Event>)
      modifies this
      ensures var p := Progress(old(St()), results, count, total, staged);
        var step := ExecuteStep(p, token, s);
        && (failure.None? <==> step.Ok?)
        && (failure.Some? ==> failure.value == step.error && staged' == Interrupted(p, token, s).emitted)
        && (failure.None? ==> Progress(St(), results', count', total', staged') == step.value)
    {
      results', count', total', staged' := results, count, total, staged;
      transfers := transfers + [Payout(s.agent, s.payoutAmount)];
      var newFees := CheckedAdd(feePool, s.fee);
      if newFees.None? {
        return Some(Overflow), results', count', total', staged';
      }
      feePool := newFees.value;
      if s.remittanceId !in remittances {
        return Some(RemittanceNotFound), results', count', total', staged';
      }
      var rec := remittances[s.remittanceId];
      remittances := remittances[s.remittanceId := rec.(status := Completed)];
      settled := settled + {s.remittanceId};
      staged' := staged' + [RemittanceCompleted(s.remittanceId, s.sender, s.agent, token, s.payoutAmount)];
      count' := count' + 1;
      var newTotal := CheckedAdd(total', s.payoutAmount);
      if newTotal.None? {
        return Some(Overflow), results', count', total', staged';
      }
      total' := newTotal.value;
      results' := results' + [BatchSettleResult(s.remittanceId, true, s.payoutAmount)];
      failure := None;
    }

    /** Phase 2 of `batch_settle`: settles the snapshots in order. A failing step rolls
        the storage back to what it was before phase 2 and reports the events staged
        until then. */
    method ExecuteBatch(token: Address, vs: seq<ValidatedSettlement>)
      returns (failure: Option<ContractError>, results: seq<BatchSettleResult>, count: nat, total: I128, staged: seq<Event>)
      modifies this
      ensures var x := Execute(Progress(old(St()), [], 0, 0, []), token, vs);
        && failure == x.failure
        && staged == x.progress.emitted
        && (failure.None? ==> Progress(St(), results, count, total, staged) == x.progress)
        && (failure.Some? ==> St() == old(St()))
    {
      var s0 := St();
      var start := Progress(s0, [], 0, 0, []);
      results, count, total, staged := [], 0, 0, [];
      var i := 0;
      assert vs[..0] == [];
      while i < |vs|
        invariant 0 <= i <= |vs|
        invariant Execute(start, token, vs[..i]) == Execution(Progress(St(), results, count, total, staged), None)
      {
        ExecuteExtend(start, token, vs, i);
        failure, results, count, total, staged := SettleOne(token, vs[i], results, count, total, staged);
        if failure.Some? {
          ExecuteFailurePersists(start, token, vs, i + 1);
          Rollback(s0);
          return;
        }
        i := i + 1;
      }
      assert vs[..i] == vs;
      failure := None;
    }

    /** `batch_settle` as written. `emitted` is every event the call publishes before
        it commits or is rolled back. */
    method BatchSettle(env: Env, entries: seq<BatchSettleEntry>) returns (r: Result<seq<BatchSettleResult>>, emitted: seq<Event>)
      modifies this
      ensures Applied(old(St()), St(), r, Batch.BatchSettle(old(St()), env, entries).outcome)
      ensures emitted == Batch.BatchSettle(old(St()), env, entries).emitted
    {
      if |entries| == 0 {
        return Err(BatchEmpty), [];
      }
      var started := BatchStarted(|entries|);
      if admin.None? {
        return Err(NotInitialized), [started];
      }
      var token := usdcToken;
      var v := ValidateBatch(env, entries);
      if v.Rejected? {
        return Err(BatchValidationFailed), [started, BatchFailed(v.index, v.remittanceId, v.reason.Code())];
      }
      ExecuteSpec(Progress(St(), [], 0, 0, []), token, v.snapshots);
      var failure, results, count, total, staged := ExecuteBatch(token, v.snapshots);
      if failure.Some? {
        return Err(failure.value), [started] + staged;
      }
      emitted := [started] + staged + [BatchCompleted(|entries|, count, total)];
      events := events + emitted;
      r := Ok(results);
    }
  }
}
