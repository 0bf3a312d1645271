/** Every step of a worker or a scheduler keeps the invariant, kind by kind. */
module ProcessSteps {
  import opened Pipeline
  import opened Invariant
  import opened WorkerSteps
  import opened CommitSteps
  import opened SchedulerSteps

  lemma AttemptKeepsInv(s: State, step: Step)
    requires Inv(s) && Enabled(s, step) && (step.ReadAccount? || step.ReadService? || step.ReadText? || step.Call?)
    ensures Inv(Next(s, step))
  {
    match step
    case ReadAccount(w) => ReadAccountKeepsInv(s, w);
    case ReadService(w) => ReadServiceKeepsInv(s, w);
    case ReadText(w) => ReadTextKeepsInv(s, w);
    case Call(w, outcome) => CallKeepsInv(s, w, outcome);
  }

  lemma SettlementKeepsInv(s: State, step: Step)
    requires Inv(s) && Enabled(s, step) && (step.WriteRow? || step.MarkRow? || step.Count? || step.Commit?)
    ensures Inv(Next(s, step))
  {
    match step
    case WriteRow(w) => WriteRowKeepsInv(s, w);
    case MarkRow(w) => MarkRowKeepsInv(s, w);
    case Count(w, at) => CountKeepsInv(s, w, at);
    case Commit(w) => CommitKeepsInv(s, w);
  }

  lemma HandlingKeepsInv(s: State, step: Step)
    requires Inv(s) && Enabled(s, step) && (step.Pop? || step.Requeue? || step.Fault? || step.Crash?)
    ensures Inv(Next(s, step))
  {
    match step
    case Pop(w) => PopKeepsInv(s, w);
    case Requeue(w, delivered) =>
      if delivered { RequeueKeepsInv(s, w); } else { DropKeepsInv(s, w, true, Tallied(s, w)); }
    case Fault(w) => FaultKeepsInv(s, w);
    case Crash(w) => DropKeepsInv(s, w, true, Tallied(s, w));
  }

  lemma ListKeepsInv(s: State, step: Step)
    requires Inv(s) && Enabled(s, step) && (step.Scan? || step.ClaimNext? || step.EndScan?)
    ensures Inv(Next(s, step))
  {
    match step
    case Scan(c, found) => IdleListKeepsInv(s, c, Scanning(found));
    case ClaimNext(c) => ClaimKeepsInv(s, c);
    case EndScan(c) => IdleListKeepsInv(s, c, Resting);
  }

  lemma SchedulerStepKeepsInv(s: State, step: Step)
    requires Inv(s) && Enabled(s, step) && OfScheduler(step)
    ensures Inv(Next(s, step))
  {
    if step.Push? {
      PushKeepsInv(s, step.c);
    } else if step.PushFails? {
      PushFailsKeepsInv(s, step.c, step.delivered);
    } else if step.Stop? {
      StopKeepsInv(s, step.c);
    } else {
      ListKeepsInv(s, step);
    }
  }
}
