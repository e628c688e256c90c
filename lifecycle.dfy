/** Properties of the remittance lifecycle that relate several calls. */
module Lifecycle {
  import opened Numeric
  import opened Types
  import opened Events
  import opened Fees
  import opened Ledger
  import opened Batch
  import opened BatchProofs
  import opened Invariants

  /** Completed is terminal: after a successful payout, neither a second payout nor
      a cancellation of the same remittance can succeed; each fails with
      `InvalidStatus` once the caller is authorized, so nothing is paid twice. */
  lemma ConfirmIsTerminal(s: State, env: Env, later: Env, id: U64)
    requires ConfirmPayout(s, env, id).Ok?
    ensures var t := ConfirmPayout(s, env, id).value.post;
      var rec := t.remittances[id];
      && id in t.remittances && rec.status == Completed && id in t.settled
      && (Authorized(later, rec.agent) ==> ConfirmPayout(t, later, id) == Err(InvalidStatus))
      && (Authorized(later, rec.sender) ==> CancelRemittance(t, later, id) == Err(InvalidStatus))
      && ConfirmPayout(t, later, id).Err? && CancelRemittance(t, later, id).Err?
  {
  }

  /** Cancelled is terminal: a cancelled remittance can neither be paid out nor
      refunded a second time. */
  lemma CancelIsTerminal(s: State, env: Env, later: Env, id: U64)
    requires CancelRemittance(s, env, id).Ok?
    ensures var t := CancelRemittance(s, env, id).value.post;
      var rec := t.remittances[id];
      && id in t.remittances && rec.status == Cancelled && t.settled == s.settled
      && (Authorized(later, rec.agent) ==> ConfirmPayout(t, later, id) == Err(InvalidStatus))
      && (Authorized(later, rec.sender) ==> CancelRemittance(t, later, id) == Err(InvalidStatus))
      && ConfirmPayout(t, later, id).Err? && CancelRemittance(t, later, id).Err?
  {
  }

  /** The expiry boundary: a payout one second after the expiry fails with
      `SettlementExpired` and leaves the state as it was; at the expiry itself the
      expiry guard passes; a record without expiry never fails it; and a payout
      at or before the expiry that passes the remaining guards succeeds. */
  lemma ExpiryBoundary(s: State, env: Env, id: U64)
    requires id in s.remittances && s.remittances[id].status == Pending && id !in s.settled
    requires Authorized(env, s.remittances[id].agent)
    ensures var rec := s.remittances[id];
      && (rec.expiry.Some? && env.now == rec.expiry.value + 1 ==>
            ConfirmPayout(s, env, id) == Err(SettlementExpired)
            && Apply(s, ConfirmPayout(s, env, id)).remittances[id].status == Pending)
      && (rec.expiry.Some? && env.now <= rec.expiry.value ==> ConfirmPayout(s, env, id) != Err(SettlementExpired))
      && (rec.expiry.None? ==> ConfirmPayout(s, env, id) != Err(SettlementExpired))
      && (((rec.expiry.None? || env.now <= rec.expiry.value) && env.wellFormed(rec.agent) && HasAdmin(s)
           && InI128(rec.amount - rec.fee) && InI128(s.feePool + rec.fee)) ==> ConfirmPayout(s, env, id).Ok?)
  {
  }

  /** A fee-rate change never reaches an existing remittance: paying one out after
      `update_fee` adds the fee frozen at creation to the pool, and pays out the
      same amount as before the change. */
  lemma FeeFrozenAcrossRateChange(s: State, env: Env, newBps: U32, id: U64)
    requires UpdateFee(s, env, newBps).Ok?
    requires ConfirmPayout(UpdateFee(s, env, newBps).value.post, env, id).Ok?
    ensures var t := UpdateFee(s, env, newBps).value.post;
      var u := ConfirmPayout(t, env, id).value.post;
      && id in s.remittances
      && u.feePool == s.feePool + s.remittances[id].fee
      && u.transfers == s.transfers + [Payout(s.remittances[id].agent, s.remittances[id].amount - s.remittances[id].fee)]
      && ConfirmPayout(s, env, id).Ok?
      && ConfirmPayout(s, env, id).value.post.transfers == u.transfers
  {
  }

  /** Under the storage invariant the settlement marker guard of `confirm_payout`
      never fires: a marked record is Completed, so the status guard rejects it first. */
  lemma DuplicateSettlementUnreachable(s: State, env: Env, id: U64)
    requires Inv(s)
    ensures ConfirmPayout(s, env, id) != Err(DuplicateSettlement)
  {
  }

  /** Under the storage invariant phase 1 of a batch as written never reports
      reason 12 (marker present) nor reason 8 (payout overflow). */
  lemma BatchReasonsUnreachable(s: State, env: Env, entries: seq<BatchSettleEntry>, j: nat)
    requires Inv(s) && j < |entries|
    ensures CheckAt(s, env, entries, j, false) != Fail(AlreadySettled)
    ensures CheckAt(s, env, entries, j, false) != Fail(PayoutOverflow)
  {
    var id := entries[j].remittanceId;
    if id in s.remittances { assert GoodRecord(s, id); }
  }

  /** A second withdrawal right after a successful one finds the pool empty. */
  lemma WithdrawEmptiesPool(s: State, env: Env, to: Address, to2: Address)
    requires WithdrawFees(s, env, to).Ok?
    ensures var t := WithdrawFees(s, env, to).value.post;
      t.feePool == 0
      && (env.wellFormed(to2) ==> WithdrawFees(t, env, to2) == Err(NoFeesToWithdraw))
  {
  }

  /** The worked example: with a rate of 250 bps, a remittance of 1000 carries a fee
      of 25; paying it out sends 975 to the agent and adds 25 to the pool. */
  lemma Example1000At250(s: State, env: Env, sender: Address, agent: Address)
    requires Inv(s) && HasAdmin(s) && s.feeBps == 250 && IsAgentRegistered(s, agent)
    requires s.counter < U64_MAX && 0 <= s.feePool <= 1000
    requires Authorized(env, sender) && Authorized(env, agent) && env.wellFormed(agent)
    ensures var c := CreateRemittance(s, env, sender, agent, 1000, None);
      && c.Ok? && c.value.post.remittances[c.value.ret].fee == 25
      && var t := c.value.post;
      && ConfirmPayout(t, env, c.value.ret).Ok?
      && var u := ConfirmPayout(t, env, c.value.ret).value.post;
      && u.feePool == s.feePool + 25
      && u.transfers == s.transfers + [Transfer(Account(sender), Custody, 1000), Payout(agent, 975)]
  {
    assert ComputeFee(1000, 250) == Ok(25);
  }

  /** A batch of one entry settles exactly when `confirm_payout` of the same
      remittance by its agent succeeds, and then leaves the same storage apart from
      the events; when phase 1 rejects the entry, `confirm_payout` fails with the
      error matching the reason code. */
  lemma SingleEntryBatchAgreesWithConfirm(s: State, env: Env, id: U64)
    requires HasAdmin(s)
    requires id in s.remittances ==> Authorized(env, s.remittances[id].agent)
    ensures var run := BatchSettle(s, env, [BatchSettleEntry(id)]);
      var c := ConfirmPayout(s, env, id);
      var v := Validate(s, env, [BatchSettleEntry(id)]);
      && (run.outcome.Ok? <==> c.Ok?)
      && (run.outcome.Ok? ==> run.outcome.value.post.(events := s.events) == c.value.post.(events := s.events))
      && (v.Rejected? ==> c == Err(v.reason.Error()))
  {
    var entries := [BatchSettleEntry(id)];
    assert entries[..0] == [] && entries[..1] == entries;
    ValidateExtend(s, env, entries, 0, false);
    var v := Validate(s, env, entries);
    if v.Validated? {
      var vs := v.snapshots;
      assert |vs| == 1;
      assert vs[..0] == [];
      var start := Progress(s, [], 0, 0, []);
      ExecuteExtend(start, s.usdcToken, vs, 0);
      assert vs[..1] == vs;
    }
  }

  /** A batch whose second entry is already Completed fails validation at index 1
      with reason code 7, publishes only the start and failure events, and changes
      nothing, even though its first entry would have settled. */
  lemma BatchStopsAtCompletedEntry(s: State, env: Env, id1: U64, id2: U64, id3: U64)
    requires HasAdmin(s)
    requires CheckEntry(s, env, id1, {}).Pass?
    requires id2 in s.remittances && s.remittances[id2].status == Completed
    ensures var entries := [BatchSettleEntry(id1), BatchSettleEntry(id2), BatchSettleEntry(id3)];
      var run := BatchSettle(s, env, entries);
      && run.outcome == Err(BatchValidationFailed)
      && run.emitted == [BatchStarted(3), BatchFailed(1, id2, 7)]
      && Apply(s, run.outcome) == s
  {
    var entries := [BatchSettleEntry(id1), BatchSettleEntry(id2), BatchSettleEntry(id3)];
    assert entries[..2][..1] == entries[..1] && entries[..1][..0] == [];
    ValidateExtend(s, env, entries, 0, false);
    ValidateExtend(s, env, entries, 1, false);
    RejectionPersists(s, env, entries, 2, false);
  }

  /** The source as written reports the new rate as the old one: raising the rate
      from 100 to 200 bps publishes `FeeUpdated(admin, 200, 200)`. */
  lemma UpdateFeeReportsNewRateAsOld()
    ensures var admin := Address(1);
      var s := Deployed().(admin := Some(admin), feeBps := 100);
      var env := Env(0, {admin}, _ => true);
      && UpdateFee(s, env, 200) == Ok(Commit((), s.(feeBps := 200, events := [FeeUpdated(admin, 200, 200)])))
      && UpdateFeeIntended(s, env, 200) == Ok(Commit((), s.(feeBps := 200, events := [FeeUpdated(admin, 100, 200)])))
  {
    var admin := Address(1);
    var s := Deployed().(admin := Some(admin), feeBps := 100);
    var env := Env(0, {admin}, _ => true);
    assert GetAdmin(s) == Ok(admin);
    assert Authorized(env, admin);
    assert UpdateFee(s, env, 200).Ok?;
    assert UpdateFee(s, env, 200).value.post.events == [FeeUpdated(admin, 200, 200)];
    assert UpdateFee(s, env, 200).value.post.feeBps == 200;
    assert UpdateFeeIntended(s, env, 200).Ok?;
    assert UpdateFeeIntended(s, env, 200).value.post.events == [FeeUpdated(admin, 100, 200)];
  }
}
