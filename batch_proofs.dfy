/** What the batch coordinator guarantees, proved about module Batch. */
module BatchProofs {
  import opened Numeric
  import opened Types
  import opened Events
  import opened Ledger
  import opened Batch

  /** Phase 1's guards for entry `j` of a batch. */
  function CheckAt(s: State, env: Env, entries: seq<BatchSettleEntry>, j: nat, dedupe: bool): Check
    requires j < |entries|
  {
    CheckEntry(s, env, entries[j].remittanceId, Claimed(entries, j, dedupe))
  }

  lemma CheckAtPrefix(s: State, env: Env, entries: seq<BatchSettleEntry>, k: nat, j: nat, dedupe: bool)
    requires j < k <= |entries|
    ensures CheckAt(s, env, entries[..k], j, dedupe) == CheckAt(s, env, entries, j, dedupe)
  {
    assert entries[..k][..j] == entries[..j];
  }

  /** Phase 1 accepts exactly the batches whose every entry passes its guards, and
      then yields one snapshot per entry in order; otherwise it reports the FIRST
      failing entry with its id and reason. */
  lemma {:induction false} ValidateSpec(s: State, env: Env, entries: seq<BatchSettleEntry>, dedupe: bool)
    ensures var v := ValidateWith(s, env, entries, dedupe);
      && (v.Validated? <==> forall j :: 0 <= j < |entries| ==> CheckAt(s, env, entries, j, dedupe).Pass?)
      && (v.Validated? ==>
            (|v.snapshots| == |entries|
             && forall j :: 0 <= j < |entries| ==> CheckAt(s, env, entries, j, dedupe) == Pass(v.snapshots[j])))
      && (v.Rejected? ==>
            (v.index < |entries| && v.remittanceId == entries[v.index].remittanceId
             && CheckAt(s, env, entries, v.index, dedupe) == Fail(v.reason)
             && forall j :: 0 <= j < v.index ==> CheckAt(s, env, entries, j, dedupe).Pass?))
    decreases |entries|
  {
    if |entries| > 0 {
      var n := |entries| - 1;
      var prefix := entries[..n];
      ValidateSpec(s, env, prefix, dedupe);
      forall j | 0 <= j < n
        ensures CheckAt(s, env, prefix, j, dedupe) == CheckAt(s, env, entries, j, dedupe)
      {
        CheckAtPrefix(s, env, entries, n, j, dedupe);
      }
      var pv := ValidateWith(s, env, prefix, dedupe);
      if pv.Rejected? {
        assert !CheckAt(s, env, entries, pv.index, dedupe).Pass?;
      } else if CheckAt(s, env, entries, n, dedupe).Fail? {
        assert !CheckAt(s, env, entries, n, dedupe).Pass?;
      }
    }
  }

  /** Once a prefix of the batch is rejected, the whole batch is rejected in the same way. */
  lemma {:induction false} RejectionPersists(s: State, env: Env, entries: seq<BatchSettleEntry>, k: nat, dedupe: bool)
    requires k <= |entries|
    requires ValidateWith(s, env, entries[..k], dedupe).Rejected?
    ensures ValidateWith(s, env, entries, dedupe) == ValidateWith(s, env, entries[..k], dedupe)
    decreases |entries|
  {
    if k < |entries| {
      var n := |entries| - 1;
      assert entries[..n][..k] == entries[..k];
      RejectionPersists(s, env, entries[..n], k, dedupe);
    } else {
      assert entries[..k] == entries;
    }
  }

  /** One more entry on a validated prefix. */
  lemma ValidateExtend(s: State, env: Env, entries: seq<BatchSettleEntry>, k: nat, dedupe: bool)
    requires k < |entries|
    ensures ValidateWith(s, env, entries[..k+1], dedupe) ==
      match ValidateWith(s, env, entries[..k], dedupe)
      case Rejected(i, id, reason) => Rejected(i, id, reason)
      case Validated(vs) =>
        match CheckAt(s, env, entries, k, dedupe)
        case Fail(reason) => Rejected(k, entries[k].remittanceId, reason)
        case Pass(v) => Validated(vs + [v])
  {
    assert entries[..k+1][..k] == entries[..k];
  }

  // ---- phase 2 ----

  function SumFees(vs: seq<ValidatedSettlement>): int
  {
    if |vs| == 0 then 0 else SumFees(vs[..|vs|-1]) + vs[|vs|-1].fee
  }

  function SumPayouts(vs: seq<ValidatedSettlement>): int
  {
    if |vs| == 0 then 0 else SumPayouts(vs[..|vs|-1]) + vs[|vs|-1].payoutAmount
  }

  function SnapshotIds(vs: seq<ValidatedSettlement>): set<U64>
  {
    set j | 0 <= j < |vs| :: vs[j].remittanceId
  }

  function ResultsOf(vs: seq<ValidatedSettlement>): seq<BatchSettleResult>
  {
    seq(|vs|, j requires 0 <= j < |vs| => BatchSettleResult(vs[j].remittanceId, true, vs[j].payoutAmount))
  }

  function PayoutsOf(vs: seq<ValidatedSettlement>): seq<Transfer>
  {
    seq(|vs|, j requires 0 <= j < |vs| => Payout(vs[j].agent, vs[j].payoutAmount))
  }

  function CompletionsOf(vs: seq<ValidatedSettlement>, token: Address): seq<Event>
  {
    seq(|vs|, j requires 0 <= j < |vs| =>
      RemittanceCompleted(vs[j].remittanceId, vs[j].sender, vs[j].agent, token, vs[j].payoutAmount))
  }

  /** The state phase 2 leaves after settling `vs` from `st`: each snapshot's payout
      leaves custody, each fee joins the pool, each listed record becomes Completed
      with its marker set; nothing else changes. */
  ghost predicate SettledFrom(st: State, vs: seq<ValidatedSettlement>, t: State)
  {
    && t.feePool == st.feePool + SumFees(vs)
    && t.transfers == st.transfers + PayoutsOf(vs)
    && t.settled == st.settled + SnapshotIds(vs)
    && SnapshotIds(vs) <= st.remittances.Keys
    && t.remittances.Keys == st.remittances.Keys
    && (forall id :: id in t.remittances ==>
          t.remittances[id] == if id in SnapshotIds(vs) then st.remittances[id].(status := Completed) else st.remittances[id])
    && t == st.(feePool := t.feePool, transfers := t.transfers, settled := t.settled, remittances := t.remittances)
  }

  /** The ids of a sequence of snapshots grow by one id per appended snapshot. */
  lemma SnapshotIdsSnoc(vs: seq<ValidatedSettlement>)
    requires |vs| > 0
    ensures SnapshotIds(vs) == SnapshotIds(vs[..|vs| - 1]) + {vs[|vs| - 1].remittanceId}
  {
    var n := |vs| - 1;
    var prefix := vs[..n];
    forall id | id in SnapshotIds(vs) ensures id in SnapshotIds(prefix) + {vs[n].remittanceId} {
      var j :| 0 <= j < |vs| && vs[j].remittanceId == id;
      if j < n { assert prefix[j] == vs[j]; }
    }
    forall id | id in SnapshotIds(prefix) ensures id in SnapshotIds(vs) {
      var j :| 0 <= j < |prefix| && prefix[j].remittanceId == id;
      assert vs[j] == prefix[j];
    }
    assert vs[n].remittanceId in SnapshotIds(vs);
  }

  /** The per-snapshot sequences grow by one element per appended snapshot. */
  lemma OfSnoc(vs: seq<ValidatedSettlement>, token: Address)
    requires |vs| > 0
    ensures var n, v := |vs| - 1, vs[|vs| - 1];
      && ResultsOf(vs) == ResultsOf(vs[..n]) + [BatchSettleResult(v.remittanceId, true, v.payoutAmount)]
      && PayoutsOf(vs) == PayoutsOf(vs[..n]) + [Payout(v.agent, v.payoutAmount)]
      && CompletionsOf(vs, token) == CompletionsOf(vs[..n], token)
           + [RemittanceCompleted(v.remittanceId, v.sender, v.agent, token, v.payoutAmount)]
  {
  }

  /** One successful step of phase 2 extends the settled prefix by its snapshot. */
  lemma SettledFromExtend(st: State, vs: seq<ValidatedSettlement>, mid: Progress, token: Address)
    requires |vs| > 0 && SettledFrom(st, vs[..|vs| - 1], mid.state)
    requires ExecuteStep(mid, token, vs[|vs| - 1]).Ok?
    ensures SettledFrom(st, vs, ExecuteStep(mid, token, vs[|vs| - 1]).value.state)
  {
    SnapshotIdsSnoc(vs);
    OfSnoc(vs, token);
  }

  /** `p` is the progress of settling `vs`, in order, from `start`. */
  ghost predicate ExecutedFrom(start: Progress, token: Address, vs: seq<ValidatedSettlement>, p: Progress)
  {
    && p.results == start.results + ResultsOf(vs)
    && p.successCount == start.successCount + |vs|
    && p.totalPayout == start.totalPayout + SumPayouts(vs)
    && p.emitted == start.emitted + CompletionsOf(vs, token)
    && SettledFrom(start.state, vs, p.state)
  }

  lemma ExecutedFromExtend(start: Progress, token: Address, vs: seq<ValidatedSettlement>, mid: Progress)
    requires |vs| > 0 && ExecutedFrom(start, token, vs[..|vs| - 1], mid)
    requires ExecuteStep(mid, token, vs[|vs| - 1]).Ok?
    ensures ExecutedFrom(start, token, vs, ExecuteStep(mid, token, vs[|vs| - 1]).value)
  {
    OfSnoc(vs, token);
    SettledFromExtend(start.state, vs, mid, token);
  }

  /** A successful phase 2 has done, in order, exactly one settlement per snapshot. */
  lemma {:induction false} ExecuteSpec(start: Progress, token: Address, vs: seq<ValidatedSettlement>)
    ensures var x := Execute(start, token, vs);
      x.failure.None? ==> ExecutedFrom(start, token, vs, x.progress)
    decreases |vs|
  {
    if |vs| > 0 {
      var n := |vs| - 1;
      ExecuteSpec(start, token, vs[..n]);
      var prev := Execute(start, token, vs[..n]);
      if prev.failure.None? && ExecuteStep(prev.progress, token, vs[n]).Ok? {
        ExecutedFromExtend(start, token, vs, prev.progress);
      }
    } else {
      assert ResultsOf(vs) == [] && PayoutsOf(vs) == [] && CompletionsOf(vs, token) == [];
      assert SnapshotIds(vs) == {};
    }
  }

  /** Every running sum of phase 2 after `k` steps stays within i128. */
  ghost predicate SumsInRange(start: Progress, vs: seq<ValidatedSettlement>, k: nat)
    requires k <= |vs|
  {
    InI128(start.state.feePool + SumFees(vs[..k])) && InI128(start.totalPayout + SumPayouts(vs[..k]))
  }

  /** The next step after a settled prefix succeeds exactly when the running sums
      including it stay within i128. */
  lemma StepSucceedsIff(start: Progress, token: Address, vs: seq<ValidatedSettlement>, mid: Progress)
    requires |vs| > 0 && ExecutedFrom(start, token, vs[..|vs| - 1], mid)
    requires vs[|vs| - 1].remittanceId in start.state.remittances
    ensures var r := ExecuteStep(mid, token, vs[|vs| - 1]);
      && (r.Ok? <==> SumsInRange(start, vs, |vs|))
      && (r.Err? ==> r.error == Overflow)
  {
    assert vs[..|vs|] == vs;
  }

  lemma SumsInRangePrefix(start: Progress, vs: seq<ValidatedSettlement>, n: nat)
    requires n <= |vs|
    ensures forall k :: 0 < k <= n ==> SumsInRange(start, vs[..n], k) == SumsInRange(start, vs, k)
  {
    forall k | 0 < k <= n ensures SumsInRange(start, vs[..n], k) == SumsInRange(start, vs, k) {
      assert vs[..n][..k] == vs[..k];
    }
  }

  /** Once every snapshot names a stored record, phase 2 succeeds exactly when every
      running sum stays within i128, and otherwise fails with `Overflow`. */
  lemma {:induction false} ExecuteSucceedsIff(start: Progress, token: Address, vs: seq<ValidatedSettlement>)
    requires SnapshotIds(vs) <= start.state.remittances.Keys
    ensures var x := Execute(start, token, vs);
      && (x.failure.None? <==> forall k :: 0 < k <= |vs| ==> SumsInRange(start, vs, k))
      && (x.failure.Some? ==> x.failure.value == Overflow)
    decreases |vs|
  {
    if |vs| > 0 {
      var n := |vs| - 1;
      var prefix := vs[..n];
      SnapshotIdsSnoc(vs);
      ExecuteSucceedsIff(start, token, prefix);
      SumsInRangePrefix(start, vs, n);
      var prev := Execute(start, token, prefix);
      if prev.failure.Some? {
        var k :| 0 < k <= n && !SumsInRange(start, prefix, k);
        assert !SumsInRange(start, vs, k);
      } else {
        ExecuteSpec(start, token, prefix);
        assert vs[n].remittanceId in SnapshotIds(vs);
        StepSucceedsIff(start, token, vs, prev.progress);
      }
    }
  }

  /** Once phase 2 has failed on a prefix, it has failed on the whole sequence, with the same progress. */
  lemma {:induction false} ExecuteFailurePersists(start: Progress, token: Address, vs: seq<ValidatedSettlement>, k: nat)
    requires k <= |vs|
    requires Execute(start, token, vs[..k]).failure.Some?
    ensures Execute(start, token, vs) == Execute(start, token, vs[..k])
    decreases |vs|
  {
    if k < |vs| {
      var n := |vs| - 1;
      assert vs[..n][..k] == vs[..k];
      ExecuteFailurePersists(start, token, vs[..n], k);
    } else {
      assert vs[..k] == vs;
    }
  }

  /** One more snapshot on a successful prefix. */
  lemma ExecuteExtend(start: Progress, token: Address, vs: seq<ValidatedSettlement>, k: nat)
    requires k < |vs|
    ensures Execute(start, token, vs[..k+1]) ==
      var prev := Execute(start, token, vs[..k]);
      if prev.failure.Some? then prev
      else match ExecuteStep(prev.progress, token, vs[k])
        case Err(e) => Execution(Interrupted(prev.progress, token, vs[k]), Some(e))
        case Ok(p) => Execution(p, None)
  {
    assert vs[..k+1][..k] == vs[..k];
  }

  // ---- the whole call ----

  /** The snapshot phase 1 takes of a stored, Pending, unsettled record. */
  ghost predicate SnapshotOf(s: State, id: U64, v: ValidatedSettlement)
  {
    && id in s.remittances && id !in s.settled && s.remittances[id].status == Pending
    && var rec := s.remittances[id];
    && v == ValidatedSettlement(id, rec.agent, v.payoutAmount, rec.fee, rec.sender)
    && v.payoutAmount == rec.amount - rec.fee
  }

  /** Every snapshot of a validated batch is the snapshot of its entry's record. */
  lemma ValidatedSnapshots(s: State, env: Env, entries: seq<BatchSettleEntry>, dedupe: bool)
    requires ValidateWith(s, env, entries, dedupe).Validated?
    ensures var vs := ValidateWith(s, env, entries, dedupe).snapshots;
      && |vs| == |entries| && SnapshotIds(vs) == Ids(entries)
      && forall j :: 0 <= j < |entries| ==> SnapshotOf(s, entries[j].remittanceId, vs[j])
  {
    ValidateSpec(s, env, entries, dedupe);
    var vs := ValidateWith(s, env, entries, dedupe).snapshots;
    forall j | 0 <= j < |entries| ensures SnapshotOf(s, entries[j].remittanceId, vs[j]) && vs[j].remittanceId == entries[j].remittanceId {
      assert CheckAt(s, env, entries, j, dedupe) == Pass(vs[j]);
    }
    assert SnapshotIds(vs) == Ids(entries) by {
      forall id | id in Ids(entries) ensures id in SnapshotIds(vs) {
        var j :| 0 <= j < |entries| && entries[j].remittanceId == id;
        assert vs[j].remittanceId == id;
      }
      forall id | id in SnapshotIds(vs) ensures id in Ids(entries) {
        var j :| 0 <= j < |vs| && vs[j].remittanceId == id;
        assert entries[j].remittanceId == id;
      }
    }
  }

  /** A successful batch settles every listed remittance, in input order: entry j's
      result carries its id, success and the payout amount - fee of its record, and
      its record is now Completed with its marker set. */
  lemma BatchSettleSuccessPerEntry(s: State, env: Env, entries: seq<BatchSettleEntry>, dedupe: bool)
    requires BatchSettleWith(s, env, entries, dedupe).outcome.Ok?
    ensures var run := BatchSettleWith(s, env, entries, dedupe);
      var results, t := run.outcome.value.ret, run.outcome.value.post;
      && |entries| > 0 && HasAdmin(s) && |results| == |entries|
      && forall j :: 0 <= j < |entries| ==>
           var id := entries[j].remittanceId;
           && id in s.remittances && id !in s.settled && s.remittances[id].status == Pending
           && results[j].remittanceId == id && results[j].success
           && results[j].payoutAmount == s.remittances[id].amount - s.remittances[id].fee
           && id in t.settled && id in t.remittances && t.remittances[id] == s.remittances[id].(status := Completed)
  {
    ValidatedSnapshots(s, env, entries, dedupe);
    SuccessfulRun(s, env, entries, dedupe);
    var vs := ValidateWith(s, env, entries, dedupe).snapshots;
    var start := Progress(s, [], 0, 0, []);
    var p := Execute(start, s.usdcToken, vs).progress;
    SuccessfulProgress(start, s.usdcToken, vs);
    var run := BatchSettleWith(s, env, entries, dedupe);
    var results, t := run.outcome.value.ret, run.outcome.value.post;
    assert results == ResultsOf(vs) && t.settled == p.state.settled && t.remittances == p.state.remittances;
    forall j | 0 <= j < |entries|
      ensures var id := entries[j].remittanceId;
        && id in s.remittances && id !in s.settled && s.remittances[id].status == Pending
        && results[j].remittanceId == id && results[j].success
        && results[j].payoutAmount == s.remittances[id].amount - s.remittances[id].fee
        && id in t.settled && id in t.remittances && t.remittances[id] == s.remittances[id].(status := Completed)
    {
      SettledSnapshot(s, vs, p.state, j, entries[j].remittanceId);
    }
  }

  /** A successful phase 2 started from `st` returns one result per snapshot and
      leaves the settled state of the snapshots. */
  lemma SuccessfulProgress(start: Progress, token: Address, vs: seq<ValidatedSettlement>)
    requires start == Progress(start.state, [], 0, 0, [])
    requires Execute(start, token, vs).failure.None?
    ensures var p := Execute(start, token, vs).progress;
      p.results == ResultsOf(vs) && SettledFrom(start.state, vs, p.state)
  {
    ExecuteSpec(start, token, vs);
  }

  /** A successful call is phase 2's successful progress, committed with the
      start event, the staged completions and the batch-completed event. */
  lemma SuccessfulRun(s: State, env: Env, entries: seq<BatchSettleEntry>, dedupe: bool)
    requires BatchSettleWith(s, env, entries, dedupe).outcome.Ok?
    ensures |entries| > 0 && HasAdmin(s) && ValidateWith(s, env, entries, dedupe).Validated?
    ensures var x := Execute(Progress(s, [], 0, 0, []), s.usdcToken, ValidateWith(s, env, entries, dedupe).snapshots);
      var p := x.progress;
      var emitted := [BatchStarted(|entries|)] + p.emitted + [BatchCompleted(|entries|, p.successCount, p.totalPayout)];
      && x.failure.None?
      && BatchSettleWith(s, env, entries, dedupe) == BatchRun(emitted, Ok(Commit(p.results, p.state.(events := s.events + emitted))))
  {
  }

  /** The settled state of a snapshot sequence, seen from one snapshot. */
  lemma SettledSnapshot(s: State, vs: seq<ValidatedSettlement>, st: State, j: nat, id: U64)
    requires j < |vs| && SnapshotOf(s, id, vs[j]) && SettledFrom(s, vs, st)
    ensures ResultsOf(vs)[j] == BatchSettleResult(id, true, s.remittances[id].amount - s.remittances[id].fee)
    ensures id in st.settled && id in st.remittances && st.remittances[id] == s.remittances[id].(status := Completed)
  {
    assert vs[j].remittanceId in SnapshotIds(vs);
  }

  /** A successful batch adds the sum of the snapshot fees to the pool, appends one
      payout per entry to the transfer log, sets exactly the listed markers, leaves
      unlisted records and every other field alone, and publishes one start event,
      one completion per entry and one batch-completed event whose counts are the
      batch length and whose total is the sum of the payouts. */
  lemma BatchSettleSuccessTotals(s: State, env: Env, entries: seq<BatchSettleEntry>, dedupe: bool)
    requires BatchSettleWith(s, env, entries, dedupe).outcome.Ok?
    ensures var run := BatchSettleWith(s, env, entries, dedupe);
      var t := run.outcome.value.post;
      var vs := ValidateWith(s, env, entries, dedupe).snapshots;
      && ValidateWith(s, env, entries, dedupe).Validated? && |vs| == |entries|
      && t.feePool == s.feePool + SumFees(vs)
      && t.transfers == s.transfers + PayoutsOf(vs)
      && t.settled == s.settled + Ids(entries)
      && t.remittances.Keys == s.remittances.Keys
      && (forall id :: id in s.remittances && id !in Ids(entries) ==> t.remittances[id] == s.remittances[id])
      && |run.emitted| == |entries| + 2
      && run.emitted[..|entries| + 1] == [BatchStarted(|entries|)] + CompletionsOf(vs, s.usdcToken)
      && run.emitted[|entries| + 1].BatchCompleted?
      && run.emitted[|entries| + 1].totalCount == |entries|
      && run.emitted[|entries| + 1].successCount == |entries|
      && run.emitted[|entries| + 1].totalPayout == SumPayouts(vs)
      && t.events == s.events + run.emitted
      && t.counter == s.counter && t.feeBps == s.feeBps && t.agents == s.agents && t.admin == s.admin
      && t.usdcToken == s.usdcToken
  {
    ValidatedSnapshots(s, env, entries, dedupe);
    var vs := ValidateWith(s, env, entries, dedupe).snapshots;
    var start := Progress(s, [], 0, 0, []);
    var x := Execute(start, s.usdcToken, vs);
    ExecuteSpec(start, s.usdcToken, vs);
    var p := x.progress;
    var head := [BatchStarted(|entries|)] + p.emitted;
    var emitted := head + [BatchCompleted(|entries|, p.successCount, p.totalPayout)];
    assert BatchSettleWith(s, env, entries, dedupe)
      == BatchRun(emitted, Ok(Commit(p.results, p.state.(events := s.events + emitted))));
    assert SettledFrom(s, vs, p.state);
    assert p.emitted == CompletionsOf(vs, s.usdcToken);
    assert emitted[..|entries| + 1] == head;
  }

  /** A batch whose phase 1 fails publishes the start event and one batch-failed
      event naming the FIRST failing index, its id and its reason code, and fails
      with `BatchValidationFailed`; every entry before that index passed its guards. */
  lemma BatchSettleRejected(s: State, env: Env, entries: seq<BatchSettleEntry>, dedupe: bool)
    requires |entries| > 0 && HasAdmin(s)
    requires ValidateWith(s, env, entries, dedupe).Rejected?
    ensures var v := ValidateWith(s, env, entries, dedupe);
      var run := BatchSettleWith(s, env, entries, dedupe);
      && v.index < |entries|
      && run.outcome == Err(BatchValidationFailed)
      && run.emitted == [BatchStarted(|entries|), BatchFailed(v.index, entries[v.index].remittanceId, v.reason.Code())]
      && CheckAt(s, env, entries, v.index, dedupe) == Fail(v.reason)
      && (forall j :: 0 <= j < v.index ==> CheckAt(s, env, entries, j, dedupe).Pass?)
  {
    ValidateSpec(s, env, entries, dedupe);
  }

  /** A batch fails with `BatchValidationFailed` exactly when some entry fails its guards. */
  lemma BatchValidationFailsIff(s: State, env: Env, entries: seq<BatchSettleEntry>, dedupe: bool)
    requires |entries| > 0 && HasAdmin(s)
    ensures BatchSettleWith(s, env, entries, dedupe).outcome == Err(BatchValidationFailed)
            <==> exists j :: 0 <= j < |entries| && CheckAt(s, env, entries, j, dedupe).Fail?
  {
    ValidateSpec(s, env, entries, dedupe);
    var v := ValidateWith(s, env, entries, dedupe);
    if v.Validated? {
      ExecuteSucceedsIff(Progress(s, [], 0, 0, []), s.usdcToken, v.snapshots) by {
        forall id | id in SnapshotIds(v.snapshots) ensures id in s.remittances {
          var j :| 0 <= j < |v.snapshots| && v.snapshots[j].remittanceId == id;
          assert CheckAt(s, env, entries, j, dedupe) == Pass(v.snapshots[j]);
        }
      }
    } else {
      assert CheckAt(s, env, entries, v.index, dedupe).Fail?;
    }
  }

  /** An event followed by completions only. */
  lemma CompletionsAfter(b: Event, e: seq<Event>)
    requires AllCompletions(e)
    ensures ([b] + e)[0] == b
    ensures forall j :: 0 < j < |[b] + e| ==> ([b] + e)[j].RemittanceCompleted?
  {
    forall j | 0 < j < |[b] + e| ensures ([b] + e)[j].RemittanceCompleted? {
      assert ([b] + e)[j] == e[j - 1];
    }
  }

  /** The events of a batch whose phase 2 fails: the start event, then the staged
      completions, all of which the host discards with the rest of the call. */
  lemma ExecutionFailureEvents(s: State, env: Env, entries: seq<BatchSettleEntry>, dedupe: bool)
    requires |entries| > 0 && HasAdmin(s) && ValidateWith(s, env, entries, dedupe).Validated?
    requires Execute(Progress(s, [], 0, 0, []), s.usdcToken, ValidateWith(s, env, entries, dedupe).snapshots).failure.Some?
    ensures var run := BatchSettleWith(s, env, entries, dedupe);
      && run.outcome.Err? && run.outcome != Err(BatchValidationFailed)
      && run.emitted[0] == BatchStarted(|entries|)
      && forall j :: 0 < j < |run.emitted| ==> run.emitted[j].RemittanceCompleted?
  {
    var start := Progress(s, [], 0, 0, []);
    var vs := ValidateWith(s, env, entries, dedupe).snapshots;
    var x := Execute(start, s.usdcToken, vs);
    ExecuteFailureIsOverflowOrMissing(start, s.usdcToken, vs);
    BatchStagedEventsAreCompletions(start, s.usdcToken, vs);
    assert BatchSettleWith(s, env, entries, dedupe)
      == BatchRun([BatchStarted(|entries|)] + x.progress.emitted, Err(x.failure.value));
    CompletionsAfter(BatchStarted(|entries|), x.progress.emitted);
  }

  /** The events of a successful batch: the start event, one completion per entry
      and the batch-completed event last. */
  lemma SuccessEvents(s: State, env: Env, entries: seq<BatchSettleEntry>, dedupe: bool)
    requires BatchSettleWith(s, env, entries, dedupe).outcome.Ok?
    ensures var run := BatchSettleWith(s, env, entries, dedupe);
      && |entries| > 0 && |run.emitted| == |entries| + 2
      && run.emitted[0] == BatchStarted(|entries|)
      && run.emitted[|run.emitted| - 1].BatchCompleted?
      && forall j :: 0 < j < |run.emitted| - 1 ==> run.emitted[j].RemittanceCompleted?
  {
    BatchSettleSuccessTotals(s, env, entries, dedupe);
    var run := BatchSettleWith(s, env, entries, dedupe);
    var vs := ValidateWith(s, env, entries, dedupe).snapshots;
    var head := [BatchStarted(|entries|)] + CompletionsOf(vs, s.usdcToken);
    forall j | 0 < j < |run.emitted| - 1 ensures run.emitted[j].RemittanceCompleted? {
      assert run.emitted[j] == run.emitted[..|entries| + 1][j] == head[j];
      assert head[j] == CompletionsOf(vs, s.usdcToken)[j - 1];
    }
    assert run.emitted[0] == head[0];
  }

  /** The events of one call: none for an empty batch; otherwise exactly one start
      event first, then on success the completions and exactly one batch-completed
      event last and no batch-failed event, and on a validation failure exactly one
      batch-failed event and nothing else. */
  lemma BatchEventDiscipline(s: State, env: Env, entries: seq<BatchSettleEntry>, dedupe: bool)
    ensures var run := BatchSettleWith(s, env, entries, dedupe);
      && (|entries| == 0 <==> run.emitted == [])
      && (|entries| == 0 ==> run.outcome == Err(BatchEmpty))
      && (|entries| > 0 ==>
            run.emitted[0] == BatchStarted(|entries|)
            && forall j :: 0 < j < |run.emitted| ==> !run.emitted[j].BatchStarted?)
      && (run.outcome.Ok? ==>
            run.emitted[|run.emitted| - 1].BatchCompleted?
            && (forall j :: 0 <= j < |run.emitted| ==> !run.emitted[j].BatchFailed?)
            && (forall j :: 0 <= j < |run.emitted| - 1 ==> !run.emitted[j].BatchCompleted?))
      && (run.outcome == Err(BatchValidationFailed) ==>
            |run.emitted| == 2 && run.emitted[1].BatchFailed?)
  {
    var run := BatchSettleWith(s, env, entries, dedupe);
    if run.outcome.Ok? {
      SuccessEvents(s, env, entries, dedupe);
    } else if |entries| > 0 && HasAdmin(s) && ValidateWith(s, env, entries, dedupe).Validated? {
      ExecutionFailureEvents(s, env, entries, dedupe);
    }
  }

  predicate AllCompletions(e: seq<Event>)
  {
    forall j :: 0 <= j < |e| ==> e[j].RemittanceCompleted?
  }

  /** Phase 2 stages only per-remittance completion events, whether or not it fails. */
  lemma {:induction false} BatchStagedEventsAreCompletions(start: Progress, token: Address, vs: seq<ValidatedSettlement>)
    requires start.emitted == []
    ensures AllCompletions(Execute(start, token, vs).progress.emitted)
    decreases |vs|
  {
    if |vs| > 0 {
      var n := |vs| - 1;
      BatchStagedEventsAreCompletions(start, token, vs[..n]);
      var prev := Execute(start, token, vs[..n]);
      var pe := prev.progress.emitted;
      if prev.failure.None? {
        var v := vs[n];
        var c := RemittanceCompleted(v.remittanceId, v.sender, v.agent, token, v.payoutAmount);
        var e := Execute(start, token, vs).progress.emitted;
        assert e == pe || e == pe + [c];
        forall j | 0 <= j < |e| ensures e[j].RemittanceCompleted? {
          if j < |pe| { assert e[j] == pe[j]; } else { assert e[j] == c; }
        }
      }
    }
  }

  /** Phase 2 fails only with `Overflow` or `RemittanceNotFound`. */
  lemma {:induction false} ExecuteFailureIsOverflowOrMissing(start: Progress, token: Address, vs: seq<ValidatedSettlement>)
    ensures var x := Execute(start, token, vs);
      x.failure.Some? ==> x.failure.value == Overflow || x.failure.value == RemittanceNotFound
    decreases |vs|
  {
    if |vs| > 0 {
      ExecuteFailureIsOverflowOrMissing(start, token, vs[..|vs| - 1]);
    }
  }

  // ---- repeated ids ----

  /** Phase 1 as written passes a batch naming one Pending id twice, with the same
      snapshot for both entries. */
  lemma DuplicateValidates(s: State, env: Env, id: U64)
    requires id in s.remittances && id !in s.settled
    requires var rec := s.remittances[id];
      rec.status == Pending && !Expired(rec, env.now) && env.wellFormed(rec.agent) && InI128(rec.amount - rec.fee)
    ensures var rec := s.remittances[id];
      var v := ValidatedSettlement(id, rec.agent, rec.amount - rec.fee, rec.fee, rec.sender);
      ValidateWith(s, env, [BatchSettleEntry(id), BatchSettleEntry(id)], false) == Validated([v, v])
  {
    var rec := s.remittances[id];
    var v := ValidatedSettlement(id, rec.agent, rec.amount - rec.fee, rec.fee, rec.sender);
    var entries := [BatchSettleEntry(id), BatchSettleEntry(id)];
    assert CheckAt(s, env, entries, 0, false) == Pass(v);
    assert CheckAt(s, env, entries, 1, false) == Pass(v);
    assert entries[..0] == [];
    ValidateExtend(s, env, entries, 0, false);
    ValidateExtend(s, env, entries, 1, false);
    assert entries[..2] == entries;
  }

  /** Phase 2 settles the same snapshot twice when it is listed twice. */
  lemma DuplicateExecutes(start: Progress, token: Address, v: ValidatedSettlement)
    requires v.remittanceId in start.state.remittances
    requires 0 <= v.fee && 0 <= v.payoutAmount && 0 <= start.state.feePool && 0 <= start.totalPayout
    requires start.state.feePool + 2 * v.fee <= I128_MAX && start.totalPayout + 2 * v.payoutAmount <= I128_MAX
    ensures var x := Execute(start, token, [v, v]);
      && x.failure.None?
      && x.progress.state.transfers == start.state.transfers + [Payout(v.agent, v.payoutAmount), Payout(v.agent, v.payoutAmount)]
      && x.progress.state.feePool == start.state.feePool + 2 * v.fee
      && x.progress.results == start.results
           + [BatchSettleResult(v.remittanceId, true, v.payoutAmount), BatchSettleResult(v.remittanceId, true, v.payoutAmount)]
  {
    var vs := [v, v];
    assert vs[..1] == [v] && vs[..1][..0] == [];
    ExecuteExtend(start, token, vs, 0);
    ExecuteExtend(start, token, vs, 1);
    assert vs[..2] == vs;
  }

  /** The source as written: a batch listing one Pending remittance twice passes
      phase 1 (which checks both entries against the unchanged state) and pays it
      twice, adding its fee to the pool twice. */
  lemma DuplicateEntryPaysTwice(s: State, env: Env, id: U64)
    requires HasAdmin(s) && id in s.remittances && id !in s.settled
    requires var rec := s.remittances[id];
      rec.status == Pending && !Expired(rec, env.now) && env.wellFormed(rec.agent)
      && 0 <= rec.fee <= rec.amount && 0 <= s.feePool && s.feePool + 2 * rec.fee <= I128_MAX
      && 2 * rec.amount <= I128_MAX
    ensures var rec := s.remittances[id];
      var run := BatchSettle(s, env, [BatchSettleEntry(id), BatchSettleEntry(id)]);
      && run.outcome.Ok?
      && run.outcome.value.post.transfers
           == s.transfers + [Payout(rec.agent, rec.amount - rec.fee), Payout(rec.agent, rec.amount - rec.fee)]
      && run.outcome.value.post.feePool == s.feePool + 2 * rec.fee
      && run.outcome.value.ret == [BatchSettleResult(id, true, rec.amount - rec.fee), BatchSettleResult(id, true, rec.amount - rec.fee)]
  {
    var rec := s.remittances[id];
    var v := ValidatedSettlement(id, rec.agent, rec.amount - rec.fee, rec.fee, rec.sender);
    DuplicateValidates(s, env, id);
    DuplicateExecutes(Progress(s, [], 0, 0, []), s.usdcToken, v);
  }

  /** On a batch without repeated ids the corrected coordinator behaves exactly as
      the code as written. */
  lemma {:induction false} DeduplicationAgreesWhenDistinct(s: State, env: Env, entries: seq<BatchSettleEntry>)
    requires Distinct(entries)
    ensures ValidateWith(s, env, entries, true) == ValidateWith(s, env, entries, false)
    ensures BatchSettleDeduplicated(s, env, entries) == BatchSettle(s, env, entries)
    decreases |entries|
  {
    if |entries| > 0 {
      var n := |entries| - 1;
      DeduplicationAgreesWhenDistinct(s, env, entries[..n]);
      assert entries[n].remittanceId !in Ids(entries[..n]);
    }
  }

  /** The corrected coordinator never settles a batch that names one id twice, so
      every remittance it settles receives exactly one payout. */
  lemma DeduplicatedSuccessImpliesDistinct(s: State, env: Env, entries: seq<BatchSettleEntry>)
    requires BatchSettleDeduplicated(s, env, entries).outcome.Ok?
    ensures Distinct(entries)
  {
    ValidateSpec(s, env, entries, true);
    forall j, k | 0 <= j < k < |entries|
      ensures entries[j].remittanceId != entries[k].remittanceId
    {
      assert CheckAt(s, env, entries, k, true).Pass?;
      assert entries[..k][j] == entries[j];
      assert entries[j].remittanceId in Ids(entries[..k]);
    }
  }
}
