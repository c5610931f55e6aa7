/** Which threads can be StartTransfer's: those that have published a transfer and are still at work on it. */
module TransferStarters {
  import opened Common
  import opened TransferModel
  import opened TransferEngine
  import opened TransferRun
  import opened TransferTheorems
  import opened TransferOrigins

  /** A thread that does not step stays where it is. */
  lemma StaysPut(w: World, w': World, s: Step, u: ThreadId)
    requires Next(w, w', s) && !(s.Run? && s.thread == u) && u in w.threads
    ensures u in w'.threads && w'.threads[u] == w.threads[u]
  {
    if s.Run? {
      var pc := w.threads[s.thread].pc;
      assert MovesOnlyItself(w, w', s.thread) by {
        if Holding(pc).Some? && !pc.Unlock? { HeldStep(w, w', s, pc); } else { FreeHandsNothing(w, w', s, pc); }
      }
    }
  }

  /** Where StartTransfer can be once it has published its transfer. */
  predicate AfterPublish(pc: Pc) {
    match pc
    case WantRelay(_, op) => op.StartOp?
    case Region(_, op) => op.StartOp?
    case _ => (Holding(pc).Some? && !pc.Region?) || pc.AwaitReady?
  }

  lemma HeldStartStep(w: World, w': World, s: Step, pc: Pc)
    requires StepAt(w, w', s, pc) && Holding(pc).Some? && !pc.Unlock? && AfterPublish(pc)
    ensures s.thread in w'.threads && AfterPublish(w'.threads[s.thread].pc)
  {
    assert HolderNext(w, w', s.thread, Holding(pc).value, s.ok);
  }

  lemma HeldKeepsStart(w: World, w': World, s: Step, pc: Pc)
    requires StepAt(w, w', s, pc) && Holding(pc).Some? && !pc.Unlock?
    ensures s.thread in w'.threads && w'.threads[s.thread].starting == w.threads[s.thread].starting
  {
    assert HolderNext(w, w', s.thread, Holding(pc).value, s.ok);
  }

  lemma LockStartStep(w: World, w': World, s: Step, pc: Pc)
    requires StepAt(w, w', s, pc) && (pc.WantRelay? || pc.Unlock? || pc.AwaitReady?)
    requires w.threads[s.thread].starting ==> AfterPublish(pc)
    ensures s.thread in w'.threads && w'.threads[s.thread].starting ==> AfterPublish(w'.threads[s.thread].pc)
  {
  }

  lemma PublishStartStep(w: World, w': World, s: Step, pc: Pc)
    requires StepAt(w, w', s, pc) && pc.Publish?
    ensures s.thread in w'.threads ==> AfterPublish(w'.threads[s.thread].pc)
  {
  }

  lemma FinishStartStep(w: World, w': World, s: Step, pc: Pc)
    requires StepAt(w, w', s, pc) && pc.TargetFinish? && !w.threads[s.thread].starting
    ensures s.thread in w'.threads ==> !w'.threads[s.thread].starting
  {
  }

  lemma ScanStartStep(w: World, w': World, s: Step, pc: Pc)
    requires StepAt(w, w', s, pc) &&
             (pc.Scan? || pc.ScanAll? || pc.Unregister? || pc.CloseSession? || pc.NextFailure? || pc.Lookup?)
    requires !w.threads[s.thread].starting
    ensures s.thread in w'.threads ==> !w'.threads[s.thread].starting
  {
  }

  lemma LookStartStep(w: World, w': World, s: Step, pc: Pc)
    requires StepAt(w, w', s, pc) && !w.threads[s.thread].starting
    requires pc.ResolveSource? || pc.ResolveTarget? || pc.SourceFinishCheck? || pc.PeerFailedCheck?
             || pc.SourceCancelledCheck?
    ensures s.thread in w'.threads ==> !w'.threads[s.thread].starting
  {
  }

  lemma FreeStartStep(w: World, w': World, s: Step, pc: Pc)
    requires StepAt(w, w', s, pc) && Holding(pc) == None && !pc.WantRelay? && !pc.AwaitReady? && !pc.Publish?
    requires !w.threads[s.thread].starting
    ensures s.thread in w'.threads ==> !w'.threads[s.thread].starting
  {
    if pc.TargetFinish? {
      FinishStartStep(w, w', s, pc);
    } else if pc.Scan? || pc.ScanAll? || pc.Unregister? || pc.CloseSession? || pc.NextFailure? || pc.Lookup? {
      ScanStartStep(w, w', s, pc);
    } else {
      LookStartStep(w, w', s, pc);
    }
  }

  lemma OwnStartStep(w: World, w': World, s: Step, pc: Pc)
    requires StepAt(w, w', s, pc) && (w.threads[s.thread].starting ==> AfterPublish(pc))
    ensures s.thread in w'.threads && w'.threads[s.thread].starting ==> AfterPublish(w'.threads[s.thread].pc)
  {
    if pc.WantRelay? || pc.Unlock? || pc.AwaitReady? {
      LockStartStep(w, w', s, pc);
    } else if pc.Publish? {
      PublishStartStep(w, w', s, pc);
    } else if Holding(pc) == None {
      FreeStartStep(w, w', s, pc);
    } else {
      HeldKeepsStart(w, w', s, pc);
      if AfterPublish(pc) { HeldStartStep(w, w', s, pc); }
    }
  }

  lemma NewcomersDoNotStart(w: World, w': World, s: Step, u: ThreadId)
    requires Next(w, w', s) && !(s.Run? && s.thread == u) && u !in w.threads && u in w'.threads
    ensures !w'.threads[u].starting
  {
    if s.Run? {
      var pc := w.threads[s.thread].pc;
      assert MovesOnlyItself(w, w', s.thread) by {
        if Holding(pc).Some? && !pc.Unlock? { HeldStep(w, w', s, pc); } else { FreeHandsNothing(w, w', s, pc); }
      }
    }
  }

  lemma {:induction false} OnlyStarterStarts(run: seq<World>, i: nat, u: ThreadId)
    requires IsRun(run) && i < |run| && u in run[i].threads && run[i].threads[u].starting
    ensures AfterPublish(run[i].threads[u].pc)
  {
    if i > 0 {
      var s := StepOfRun(run, i - 1);
      var w, w' := run[i - 1], run[i];
      if s.Run? && s.thread == u {
        if w.threads[u].starting { OnlyStarterStarts(run, i - 1, u); }
        OwnStartStep(w, w', s, w.threads[u].pc);
      } else if u in w.threads {
        StaysPut(w, w', s, u);
        OnlyStarterStarts(run, i - 1, u);
      } else {
        NewcomersDoNotStart(w, w', s, u);
      }
    }
  }
}
