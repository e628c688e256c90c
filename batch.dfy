/** `batch_settle`: phase 1 validates every entry against the unchanged state
    and stops at the first failure; phase 2 executes the validated snapshots in
    order on a staging copy, which is committed only when every step succeeded.

    `dedupe` selects between the code as written (false), whose phase 1 never
    looks at the entries before the current one, and a corrected coordinator
    (true) that treats an id claimed by an earlier entry of the same batch as
    already settled. */
module Batch {
  import opened Numeric
  import opened Types
  import opened Events
  import opened Ledger

  /** Why phase 1 rejected an entry. */
  datatype Reason = NotFound | NotPending | AlreadySettled | PastExpiry | BadAgentAddress | PayoutOverflow {
    /** The reason code published in the batch-failed event. */
    function Code(): nat
    {
      match this
      case NotFound => 6
      case NotPending => 7
      case PayoutOverflow => 8
      case BadAgentAddress => 10
      case PastExpiry => 11
      case AlreadySettled => 12
    }

    /** The error `confirm_payout` raises for the same failed guard. */
    function Error(): ContractError
    {
      match this
      case NotFound => RemittanceNotFound
      case NotPending => InvalidStatus
      case PayoutOverflow => Overflow
      case BadAgentAddress => InvalidAddress
      case PastExpiry => SettlementExpired
      case AlreadySettled => DuplicateSettlement
    }
  }

  datatype Check = Pass(snapshot: ValidatedSettlement) | Fail(reason: Reason)

  /** The remittance ids an entry sequence names. */
  function Ids(entries: seq<BatchSettleEntry>): set<U64>
  {
    set j | 0 <= j < |entries| :: entries[j].remittanceId
  }

  predicate Distinct(entries: seq<BatchSettleEntry>)
  {
    forall j, k :: 0 <= j < k < |entries| ==> entries[j].remittanceId != entries[k].remittanceId
  }

  /** The ids that count as settled when entry `j` is validated: the stored markers
      alone as written, the stored markers and the earlier entries when deduplicating. */
  function Claimed(entries: seq<BatchSettleEntry>, j: nat, dedupe: bool): set<U64>
    requires j <= |entries|
  {
    if dedupe then Ids(entries[..j]) else {}
  }

  /** The guards of phase 1 for one id, in the order of the source. */
  function CheckEntry(s: State, env: Env, id: U64, claimed: set<U64>): (c: Check)
    ensures c.Pass? <==> id in s.remittances && var rec := s.remittances[id];
      rec.status == Pending && id !in s.settled && id !in claimed && !Expired(rec, env.now)
      && env.wellFormed(rec.agent) && InI128(rec.amount - rec.fee)
    ensures c.Pass? ==> var rec := s.remittances[id];
      c.snapshot == ValidatedSettlement(id, rec.agent, rec.amount - rec.fee, rec.fee, rec.sender)
    ensures c.Fail? && c.reason == AlreadySettled ==> id in s.settled || id in claimed
  {
    if id !in s.remittances then Fail(NotFound)
    else
      var rec := s.remittances[id];
      if rec.status != Pending then Fail(NotPending)
      else if id in s.settled || id in claimed then Fail(AlreadySettled)
      else if Expired(rec, env.now) then Fail(PastExpiry)
      else if !env.wellFormed(rec.agent) then Fail(BadAgentAddress)
      else match CheckedSub(rec.amount, rec.fee)
        case None => Fail(PayoutOverflow)
        case Some(payout) => Pass(ValidatedSettlement(id, rec.agent, payout, rec.fee, rec.sender))
  }

  datatype Validation =
    | Validated(snapshots: seq<ValidatedSettlement>)
    | Rejected(index: nat, remittanceId: U64, reason: Reason)

  /** Phase 1 over a prefix of the batch: the snapshots of all entries, or the first failure. */
  function ValidateWith(s: State, env: Env, entries: seq<BatchSettleEntry>, dedupe: bool): (r: Validation)
    ensures r.Validated? ==> |r.snapshots| == |entries|
    ensures r.Rejected? ==> r.index < |entries| && r.remittanceId == entries[r.index].remittanceId
    decreases |entries|
  {
    if |entries| == 0 then Validated([])
    else
      var n := |entries| - 1;
      match ValidateWith(s, env, entries[..n], dedupe)
      case Rejected(i, id, reason) => Rejected(i, id, reason)
      case Validated(vs) =>
        match CheckEntry(s, env, entries[n].remittanceId, Claimed(entries, n, dedupe))
        case Fail(reason) => Rejected(n, entries[n].remittanceId, reason)
        case Pass(v) => Validated(vs + [v])
  }

  /** Phase 1 as written. */
  function Validate(s: State, env: Env, entries: seq<BatchSettleEntry>): Validation
  {
    ValidateWith(s, env, entries, false)
  }

  /** Phase 2's running values: the staged state, the results so far, the success
      count, the running total payout and the completion events staged so far. */
  datatype Progress = Progress(
    state: State,
    results: seq<BatchSettleResult>,
    successCount: nat,
    totalPayout: I128,
    emitted: seq<Event>)

  /** One iteration of the execution loop. */
  function ExecuteStep(p: Progress, token: Address, v: ValidatedSettlement): (r: Result<Progress>)
    ensures r.Ok? <==> InI128(p.state.feePool + v.fee) && v.remittanceId in p.state.remittances
                       && InI128(p.totalPayout + v.payoutAmount)
    ensures r.Err? ==> r.error == Overflow || r.error == RemittanceNotFound
    ensures r.Ok? ==> var q := r.value;
      q.state.feePool == p.state.feePool + v.fee && q.totalPayout == p.totalPayout + v.payoutAmount
      && q.successCount == p.successCount + 1
      && q.results == p.results + [BatchSettleResult(v.remittanceId, true, v.payoutAmount)]
      && p.emitted < q.emitted
      && v.remittanceId in q.state.remittances && q.state.remittances[v.remittanceId].status == Completed
      && v.remittanceId in q.state.settled
  {
    var st := p.state;
    var newFees :- OrOverflow(CheckedAdd(st.feePool, v.fee));
    var rec :- GetRemittance(st, v.remittanceId);
    var total :- OrOverflow(CheckedAdd(p.totalPayout, v.payoutAmount));
    Ok(Progress(
      st.(transfers := st.transfers + [Payout(v.agent, v.payoutAmount)],
          feePool := newFees,
          remittances := st.remittances[v.remittanceId := rec.(status := Completed)],
          settled := st.settled + {v.remittanceId}),
      p.results + [BatchSettleResult(v.remittanceId, true, v.payoutAmount)],
      p.successCount + 1,
      total,
      p.emitted + [RemittanceCompleted(v.remittanceId, v.sender, v.agent, token, v.payoutAmount)]))
  }

  /** Phase 2 stops at the first failing step and keeps the progress made before it. */
  datatype Execution = Execution(progress: Progress, failure: Option<ContractError>)

  function Execute(start: Progress, token: Address, vs: seq<ValidatedSettlement>): (x: Execution)
    ensures start.results <= x.progress.results && start.emitted <= x.progress.emitted
    ensures |x.progress.results| <= |start.results| + |vs|
    ensures x.failure.None? ==> |x.progress.results| == |start.results| + |vs|
                                && x.progress.successCount == start.successCount + |vs|
    decreases |vs|
  {
    if |vs| == 0 then Execution(start, None)
    else
      var n := |vs| - 1;
      var prev := Execute(start, token, vs[..n]);
      if prev.failure.Some? then prev
      else match ExecuteStep(prev.progress, token, vs[n])
        case Err(e) => Execution(Interrupted(prev.progress, token, vs[n]), Some(e))
        case Ok(p) => Execution(p, None)
  }

  /** The events staged when a step fails: the source publishes the completion of
      the step before it adds to the running total, so a step that fails only on
      that addition has already published its completion. The host discards all
      of them with the rest of the call. */
  function Interrupted(p: Progress, token: Address, v: ValidatedSettlement): (q: Progress)
    ensures q.(emitted := p.emitted) == p
    ensures p.emitted <= q.emitted && |q.emitted| <= |p.emitted| + 1
    ensures |q.emitted| == |p.emitted| + 1 <==> InI128(p.state.feePool + v.fee) && v.remittanceId in p.state.remittances
    ensures |q.emitted| == |p.emitted| + 1 ==>
      q.emitted[|p.emitted|] == RemittanceCompleted(v.remittanceId, v.sender, v.agent, token, v.payoutAmount)
  {
    if CheckedAdd(p.state.feePool, v.fee).Some? && v.remittanceId in p.state.remittances
    then p.(emitted := p.emitted + [RemittanceCompleted(v.remittanceId, v.sender, v.agent, token, v.payoutAmount)])
    else p
  }

  /** What one call does: the events it publishes before the host commits or
      rolls back, and its outcome. On `Err` the host discards those events too. */
  datatype BatchRun = BatchRun(emitted: seq<Event>, outcome: Result<Commit<seq<BatchSettleResult>>>)

  function BatchSettleWith(s: State, env: Env, entries: seq<BatchSettleEntry>, dedupe: bool): (r: BatchRun)
    ensures r.emitted == [] <==> |entries| == 0
    ensures r.emitted != [] ==> r.emitted[0] == BatchStarted(|entries|)
    ensures r.outcome.Ok? ==> HasAdmin(s) && |r.outcome.value.ret| == |entries|
                              && r.outcome.value.post.events == s.events + r.emitted
  {
    if |entries| == 0 then BatchRun([], Err(BatchEmpty))
    else
      var started := BatchStarted(|entries|);
      match GetUsdcToken(s)
      case Err(e) => BatchRun([started], Err(e))
      case Ok(token) =>
        match ValidateWith(s, env, entries, dedupe)
        case Rejected(i, id, reason) =>
          BatchRun([started, BatchFailed(i, id, reason.Code())], Err(BatchValidationFailed))
        case Validated(vs) =>
          var x := Execute(Progress(s, [], 0, 0, []), token, vs);
          if x.failure.Some? then BatchRun([started] + x.progress.emitted, Err(x.failure.value))
          else
            var p := x.progress;
            var emitted := [started] + p.emitted + [BatchCompleted(|entries|, p.successCount, p.totalPayout)];
            BatchRun(emitted, Ok(Commit(p.results, p.state.(events := s.events + emitted))))
  }

  /** `batch_settle` as written. */
  function BatchSettle(s: State, env: Env, entries: seq<BatchSettleEntry>): BatchRun
  {
    BatchSettleWith(s, env, entries, false)
  }

  /** `batch_settle` with repeated ids rejected in phase 1 (reason 12). */
  function BatchSettleDeduplicated(s: State, env: Env, entries: seq<BatchSettleEntry>): BatchRun
  {
    BatchSettleWith(s, env, entries, true)
  }
}
