/** Bitcoin transactions are journaled before they are broadcast: PrepareAction and the action statuses
    of internal/swapstate/journal.go, and reconcileBitcoinAction of internal/app/engine.go. */
module Actions {
  import opened Basics
  import opened SwapState

  /** What the Bitcoin wallet reports after a broadcast. */
  datatype Transaction = Transaction(confirmations: int, height: int)

  predicate Mined(t: Transaction) {
    t.confirmations > 0 && t.height > 0
  }

  // ----- reconcileBitcoinAction

  /** The two journal transactions of a reconciliation: each returns the stored action afterwards and
      the copy the caller goes on with. */
  function Marked(stored: Action, held: Action): Result<(Action, Action), Error> {
    if held.status != Prepared then Ok((stored, held))
    else
      match BroadcastRecord(stored)
      case Ok(a) => Ok((a, a))
      case Err(e) => Err(e)
  }

  function Finished(stored: Action, held: Action, t: Transaction): Result<(Action, Action), Error> {
    if !Mined(t) && held.status != Confirmed then Ok((stored, held))
    else
      match (if Mined(t) then ConfirmedRecord(stored, t.height) else ReorgedRecord(stored))
      case Ok(a) => Ok((a, a))
      case Err(e) => Err(e)
  }

  /** The outcome, given the stored action and the caller's possibly outdated copy of it. */
  function Reconciled(stored: Action, held: Action, t: Transaction): Result<(Action, Action), Error> {
    match Marked(stored, held)
    case Err(e) => Err(e)
    case Ok((stored', held')) => Finished(stored', held', t)
  }

  /** A reconciliation that succeeds leaves no action looking as if it had never been sent, and it is confirmed
      exactly when the transaction is mined. */
  lemma ReconciledIsSent(stored: Action, t: Transaction)
    requires Reconciled(stored, stored, t).Ok?
    ensures Reconciled(stored, stored, t).value.0.status == if Mined(t) then Confirmed else Broadcast
  {
  }

  method ReconcileBitcoinAction(journal: Journal, held: Action, t: Transaction) returns (r: Result<Action, Error>)
    modifies journal`actions
    ensures journal.actions.Keys == old(journal.actions.Keys)
    ensures held.id in old(journal.actions) ==> SameAction(journal.actions[held.id], old(journal.actions)[held.id])
    ensures forall k :: k in journal.actions && k != held.id ==> journal.actions[k] == old(journal.actions)[k]
    ensures held.id in old(journal.actions) && r != Err(Interrupted) ==>
              match Reconciled(old(journal.actions)[held.id], held, t)
              case Ok((stored, current)) => r == Ok(current) && journal.actions[held.id] == stored
              case Err(e) => r == Err(e)
  {
    var current := held;
    if held.status == Prepared {
      var marked := journal.MarkBroadcast(held.id);
      if marked.Err? {
        return marked;
      }
      current := marked.value;
    }
    if Mined(t) {
      r := journal.MarkConfirmed(held.id, t.height);
    } else if current.status == Confirmed {
      r := journal.MarkReorged(held.id);
    } else {
      r := Ok(current);
    }
  }

  // ----- two workers racing on one action ID

  /** Where a worker stands between its calls; a crash forgets it all. */
  datatype Worker =
    | Starting
    | Building
    | Built(raw: string, transactionID: string)
    | Holding(action: Action)
    | Sent(action: Action)
    | Marking(action: Action)

  datatype Step =
    | Look
    | Build(raw: string, transactionID: string)
    | Prepare
    | Send
    | Mark
    | Finish(t: Transaction)
    | Crash

  /** The action journaled under the ID, both workers, and every byte string ever broadcast for it. */
  datatype Race = Race(stored: Option<Action>, workers: (Worker, Worker), sent: seq<string>)

  function WorkerOf(m: Race, second: bool): Worker {
    if second then m.workers.1 else m.workers.0
  }

  function WithWorker(m: Race, second: bool, w: Worker): Race {
    m.(workers := if second then (m.workers.0, w) else (w, m.workers.1))
  }

  function StoredMarked(stored: Option<Action>, held: Action): Result<(Action, Action), Error> {
    if stored.None? then Err(NotFound) else Marked(stored.value, held)
  }

  function StoredFinished(stored: Option<Action>, held: Action, t: Transaction): Result<(Action, Action), Error> {
    if stored.None? then Err(NotFound) else Finished(stored.value, held, t)
  }

  /** One atomic step of one worker; a step that does not fit its position changes nothing. */
  function Take(template: Action, m: Race, second: bool, step: Step): Race {
    match (step, WorkerOf(m, second))
    case (Crash, _) => WithWorker(m, second, Starting)
    case (Look, Starting) => WithWorker(m, second, if m.stored.Some? then Holding(m.stored.value) else Building)
    case (Build(raw, txid), Building) => WithWorker(m, second, Built(raw, txid))
    case (Prepare, Built(raw, txid)) =>
      var wanted := template.(raw := raw, transactionID := txid);
      (match PreparedRecord(if m.stored.Some? then map[template.id := m.stored.value] else map[], wanted)
       case Ok(a) => WithWorker(m, second, Holding(a)).(stored := Some(a))
       case Err(_) => WithWorker(m, second, Starting))
    case (Send, Holding(a)) => WithWorker(m, second, Sent(a)).(sent := m.sent + [a.raw])
    case (Mark, Sent(a)) =>
      (match StoredMarked(m.stored, a)
       case Ok((stored, held)) => WithWorker(m, second, Marking(held)).(stored := Some(stored))
       case Err(_) => WithWorker(m, second, Starting))
    case (Finish(t), Marking(a)) =>
      (match StoredFinished(m.stored, a, t)
       case Ok((stored, _)) => WithWorker(m, second, Starting).(stored := Some(stored))
       case Err(_) => WithWorker(m, second, Starting))
    case (_, _) => m
  }

  function Run(template: Action, steps: seq<(bool, Step)>): Race {
    if |steps| == 0 then Race(None, (Starting, Starting), [])
    else
      var last := steps[|steps| - 1];
      Take(template, Run(template, steps[..|steps| - 1]), last.0, last.1)
  }

  predicate HeldAgrees(template: Action, m: Race, w: Worker) {
    (w.Holding? || w.Sent? || w.Marking?) ==>
      m.stored.Some? && SameAction(w.action, m.stored.value) && w.action.id == template.id
  }

  predicate WriteAhead(template: Action, m: Race) {
    && (m.stored.Some? ==> m.stored.value.id == template.id)
    && HeldAgrees(template, m, m.workers.0) && HeldAgrees(template, m, m.workers.1)
    && OnlyJournaled(m.sent, m.stored)
  }

  predicate OnlyJournaled(sent: seq<string>, stored: Option<Action>) {
    |sent| > 0 ==> stored.Some? && forall i :: 0 <= i < |sent| ==> sent[i] == stored.value.raw
  }

  ghost predicate Keeps(template: Action, m: Race, n: Race) {
    && WriteAhead(template, n)
    && (m.stored.Some? ==> n.stored.Some? && SameAction(n.stored.value, m.stored.value))
  }

  lemma PreparingKeeps(template: Action, m: Race, second: bool, step: Step)
    requires WriteAhead(template, m) && (step.Look? || step.Build? || step.Prepare? || step.Crash?)
    ensures Keeps(template, m, Take(template, m, second, step))
  {
  }

  lemma SendingKeeps(template: Action, m: Race, second: bool)
    requires WriteAhead(template, m)
    ensures Keeps(template, m, Take(template, m, second, Send))
  {
  }

  lemma MarkingKeeps(template: Action, m: Race, second: bool)
    requires WriteAhead(template, m)
    ensures Keeps(template, m, Take(template, m, second, Mark))
  {
    hide OnlyJournaled;
    JournaledStays(m.sent, m.stored);
  }

  lemma FinishingKeeps(template: Action, m: Race, second: bool, t: Transaction)
    requires WriteAhead(template, m)
    ensures Keeps(template, m, Take(template, m, second, Finish(t)))
  {
    hide OnlyJournaled;
    JournaledStays(m.sent, m.stored);
  }

  /** Only the bytes matter to what was broadcast, not the status. */
  lemma JournaledStays(sent: seq<string>, stored: Option<Action>)
    requires OnlyJournaled(sent, stored)
    ensures forall a: Action :: stored.Some? && SameAction(a, stored.value) ==> OnlyJournaled(sent, Some(a))
  {
  }

  lemma TakeKeepsWriteAhead(template: Action, m: Race, second: bool, step: Step)
    requires WriteAhead(template, m)
    ensures Keeps(template, m, Take(template, m, second, step))
  {
    match step {
      case Send => SendingKeeps(template, m, second);
      case Mark => MarkingKeeps(template, m, second);
      case Finish(t) => FinishingKeeps(template, m, second, t);
      case _ => PreparingKeeps(template, m, second, step);
    }
  }

  /** Across all interleavings and crashes at most one byte string is ever broadcast for an action ID,
      and it is the journaled one. */
  lemma {:induction false} OneTransactionPerAction(template: Action, steps: seq<(bool, Step)>)
    ensures WriteAhead(template, Run(template, steps))
    ensures
      var sent := Run(template, steps).sent;
      forall i, j :: 0 <= i < |sent| && 0 <= j < |sent| ==> sent[i] == sent[j]
  {
    if |steps| > 0 {
      var last := steps[|steps| - 1];
      OneTransactionPerAction(template, steps[..|steps| - 1]);
      TakeKeepsWriteAhead(template, Run(template, steps[..|steps| - 1]), last.0, last.1);
    }
  }

  /** The journaled bytes never change, whatever happens later. */
  lemma {:induction false} JournaledBytesNeverChange(template: Action, steps: seq<(bool, Step)>, i: nat)
    requires i <= |steps| && Run(template, steps[..i]).stored.Some?
    ensures Run(template, steps).stored.Some?
    ensures SameAction(Run(template, steps).stored.value, Run(template, steps[..i]).stored.value)
    decreases |steps|
  {
    if i == |steps| {
      assert steps[..i] == steps;
    } else {
      var front, last := steps[..|steps| - 1], steps[|steps| - 1];
      assert front[..i] == steps[..i];
      JournaledBytesNeverChange(template, front, i);
      OneTransactionPerAction(template, front);
      TakeKeepsWriteAhead(template, Run(template, front), last.0, last.1);
    }
  }

  // ----- where reconciling with an outdated copy fails

  /** No copy is past the prepared status before the stored action is, and each copy is after its mark. */
  predicate MarkedAgrees(m: Race, w: Worker) {
    && (w.Marking? ==> w.action.status != Prepared)
    && ((w.Holding? || w.Sent? || w.Marking?) && w.action.status != Prepared ==>
          m.stored.Some? && m.stored.value.status != Prepared)
  }

  predicate PastPrepared(m: Race) {
    MarkedAgrees(m, m.workers.0) && MarkedAgrees(m, m.workers.1)
  }

  lemma TakeKeepsPastPrepared(template: Action, m: Race, second: bool, step: Step)
    requires PastPrepared(m) && (m.stored.Some? ==> m.stored.value.id == template.id)
    ensures PastPrepared(Take(template, m, second, step))
  {
  }

  lemma {:induction false} AlwaysPastPrepared(template: Action, steps: seq<(bool, Step)>)
    ensures PastPrepared(Run(template, steps))
  {
    if |steps| > 0 {
      hide WriteAhead, PastPrepared, Take;
      var front, last := steps[..|steps| - 1], steps[|steps| - 1];
      AlwaysPastPrepared(template, front);
      StoredUnderID(template, front);
      TakeKeepsPastPrepared(template, Run(template, front), last.0, last.1);
    } else {
      assert PastPrepared(Race(None, (Starting, Starting), []));
    }
  }

  lemma StoredUnderID(template: Action, steps: seq<(bool, Step)>)
    ensures var m := Run(template, steps); m.stored.Some? ==> m.stored.value.id == template.id
  {
    hide Run;
    OneTransactionPerAction(template, steps);
  }

  /** In every reachable race marking fails exactly for a worker that still holds the prepared copy of an
      action the other has since seen mined. */
  lemma MarkFailsExactly(template: Action, steps: seq<(bool, Step)>, second: bool)
    requires WorkerOf(Run(template, steps), second).Sent?
    ensures
      var m := Run(template, steps);
      var held := WorkerOf(m, second).action;
      && m.stored.Some?
      && (StoredMarked(m.stored, held).Err? <==> held.status == Prepared && m.stored.value.status == Confirmed)
  {
    hide Run, OnlyJournaled;
    OneTransactionPerAction(template, steps);
  }

  /** And finishing fails exactly when the transaction is unmined, the worker's copy says confirmed and the
      other has already taken the confirmation back. */
  lemma FinishFailsExactly(template: Action, steps: seq<(bool, Step)>, second: bool, t: Transaction)
    requires WorkerOf(Run(template, steps), second).Marking?
    ensures
      var m := Run(template, steps);
      var held := WorkerOf(m, second).action;
      && m.stored.Some?
      && (StoredFinished(m.stored, held, t).Err? <==>
          !Mined(t) && held.status == Confirmed && m.stored.value.status != Confirmed)
  {
    hide Run, OnlyJournaled;
    OneTransactionPerAction(template, steps);
    AlwaysPastPrepared(template, steps);
  }

  lemma RunSnoc(template: Action, steps: seq<(bool, Step)>, second: bool, step: Step)
    ensures Run(template, steps + [(second, step)]) == Take(template, Run(template, steps), second, step)
  {
    hide Take;
    assert (steps + [(second, step)])[..|steps|] == steps;
  }

  /** One worker takes an action from nothing to its broadcast; with `other` the second looks in before. */
  lemma FirstSent(template: Action, raw: string, transactionID: string, other: bool) returns (steps: seq<(bool, Step)>)
    ensures
      var a := template.(raw := raw, transactionID := transactionID, status := Prepared);
      Run(template, steps) == Race(Some(a), (Sent(a), if other then Holding(a) else Starting), [raw])
  {
    hide Run;
    assert Run(template, []) == Race(None, (Starting, Starting), []) by {
      NothingYet(template);
    }
    RunSnoc(template, [], false, Look);
    steps := [] + [(false, Look)];
    RunSnoc(template, steps, false, Build(raw, transactionID));
    steps := steps + [(false, Build(raw, transactionID))];
    RunSnoc(template, steps, false, Prepare);
    steps := steps + [(false, Prepare)];
    if other {
      RunSnoc(template, steps, true, Look);
      steps := steps + [(true, Look)];
    }
    RunSnoc(template, steps, false, Send);
    steps := steps + [(false, Send)];
  }

  lemma NothingYet(template: Action)
    ensures Run(template, []) == Race(None, (Starting, Starting), [])
  {
  }

  /** Such a mark is reachable: the second worker looked before the first finished. */
  lemma MarkFailureHappens(template: Action, raw: string, transactionID: string, t: Transaction)
    returns (steps: seq<(bool, Step)>)
    requires Mined(t)
    ensures
      var m := Run(template, steps);
      m.workers.1.Sent? && StoredMarked(m.stored, m.workers.1.action) == Err(WrongStatus)
  {
    hide Run;
    steps := FirstSent(template, raw, transactionID, true);
    RunSnoc(template, steps, false, Mark);
    steps := steps + [(false, Mark)];
    RunSnoc(template, steps, false, Finish(t));
    steps := steps + [(false, Finish(t))];
    RunSnoc(template, steps, true, Send);
    steps := steps + [(true, Send)];
  }

  /** A worker holding the confirmed action up to its mark. */
  lemma HeldToMark(template: Action, steps: seq<(bool, Step)>, second: bool) returns (longer: seq<(bool, Step)>)
    requires WorkerOf(Run(template, steps), second).Holding?
    requires WorkerOf(Run(template, steps), second).action.status != Prepared && Run(template, steps).stored.Some?
    ensures
      var m, n := Run(template, steps), Run(template, longer);
      && n.stored == m.stored && WorkerOf(n, second) == Marking(WorkerOf(m, second).action)
      && WorkerOf(n, !second) == WorkerOf(m, !second)
  {
    hide Run;
    RunSnoc(template, steps, second, Send);
    longer := steps + [(second, Send)];
    RunSnoc(template, longer, second, Mark);
    longer := longer + [(second, Mark)];
  }

  /** And so is such a finish: both workers hold the confirmed action when a reorganization unmines it. */
  lemma FinishFailureHappens(template: Action, raw: string, transactionID: string, mined: Transaction, lost: Transaction)
    returns (steps: seq<(bool, Step)>)
    requires Mined(mined) && !Mined(lost)
    ensures
      var m := Run(template, steps);
      m.workers.1.Marking? && StoredFinished(m.stored, m.workers.1.action, lost) == Err(WrongStatus)
  {
    hide Run;
    steps := FirstSent(template, raw, transactionID, false);
    RunSnoc(template, steps, false, Mark);
    steps := steps + [(false, Mark)];
    RunSnoc(template, steps, false, Finish(mined));
    steps := steps + [(false, Finish(mined))];
    RunSnoc(template, steps, false, Look);
    steps := steps + [(false, Look)];
    RunSnoc(template, steps, true, Look);
    steps := steps + [(true, Look)];
    steps := HeldToMark(template, steps, false);
    RunSnoc(template, steps, false, Finish(lost));
    steps := steps + [(false, Finish(lost))];
    steps := HeldToMark(template, steps, true);
  }

  /** The failures pass: from any reachable race a worker that starts over and is left alone gets through,
      and the action ends confirmed exactly when the transaction is mined. */
  lemma RetrySucceeds(template: Action, steps: seq<(bool, Step)>, second: bool, t: Transaction)
    requires Run(template, steps).stored.Some? && WorkerOf(Run(template, steps), second).Starting?
    ensures
      var sent := Run(template, steps + [(second, Look)] + [(second, Send)]);
      && WorkerOf(sent, second).Sent? && StoredMarked(sent.stored, WorkerOf(sent, second).action).Ok?
      && var marked := Take(template, sent, second, Mark);
         && WorkerOf(marked, second).Marking? && StoredFinished(marked.stored, WorkerOf(marked, second).action, t).Ok?
         && var done := Take(template, marked, second, Finish(t));
            && done.stored.Some? && SameAction(done.stored.value, Run(template, steps).stored.value)
            && (done.stored.value.status == Confirmed <==> Mined(t))
  {
    hide Run;
    RunSnoc(template, steps, second, Look);
    RunSnoc(template, steps + [(second, Look)], second, Send);
  }
}
