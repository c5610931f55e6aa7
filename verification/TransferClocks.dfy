/** The two clocks of the idle timeout: what a step of the wall clock does to the promise of two minutes. */
module TransferClocks {
  import opened Common
  import opened TransferModel
  import opened TransferEngine
  import opened TransferTheorems
  import opened TransferScenes

  /** In a reachable world a callback has decided to fail a live transfer. */
  ghost predicate Expires(w: World, u: ThreadId, id: TransferId) {
    && Reached(w) && u in w.threads && w.threads[u].pc == FailNow(id, true)
    && id in w.objs && !Final(w.objs[id].state)
  }

  /** The transfer has really been idle for two minutes. */
  predicate TwoMinutesIdle(w: World, id: TransferId)
    requires id in w.objs
  {
    w.objs[id].history.progressAt + IDLE_TIMEOUT <= w.now.mono
  }

  lemma ExpiresWithSkew(w: World, u: ThreadId, id: TransferId)
    requires Expires(w, u, id)
    ensures w.objs[id].history.progressAt + IDLE_TIMEOUT <= w.now.mono + Skew(w.now)
  {
    var run :| IsRun(run) && run[|run| - 1] == w;
    ExpiryOnlyWhenIdle(run, |run| - 1, u, id);
  }

  // ----- A run in which the wall clock is put forward by one nanosecond

  function Passed(c: Cast, elapsed: nat): Cast {
    c.(now := c.now.(mono := c.now.mono + elapsed))
  }

  lemma Passing(c: Cast, t: Transfer, threads: map<ThreadId, Thread>, elapsed: nat)
    requires Reached(Scene(c, t, threads))
    ensures Reached(Scene(Passed(c, elapsed), t, threads))
  {
    Extend(Scene(c, t, threads), Scene(Passed(c, elapsed), t, threads), Tick(elapsed));
  }

  function Stepped(c: Cast): Cast {
    c.(now := Adjusted(c.now, c.now.offset + 1))
  }

  lemma Stepping(c: Cast, t: Transfer, threads: map<ThreadId, Thread>)
    requires Reached(Scene(c, t, threads))
    ensures Reached(Scene(Stepped(c), t, threads))
  {
    Extend(Scene(c, t, threads), Scene(Stepped(c), t, threads), Adjust(c.now.offset + 1));
  }

  function Fired(t: Transfer): Transfer {
    t.(timer := None, history := t.history.(expirer := Some(2)))
  }

  lemma Firing(c: Cast, t: Transfer, threads: map<ThreadId, Thread>)
    requires Reached(Scene(c, t, threads)) && 2 !in threads && t.timer.Some? && t.timer.value <= c.now.mono
    ensures Reached(Scene(c, Fired(t), threads[2 := Newcomer(Lookup(c.id, ExpireOp))]))
  {
    Extend(Scene(c, t, threads), Scene(c, Fired(t), threads[2 := Newcomer(Lookup(c.id, ExpireOp))]), Fire(c.id, 2));
  }

  /** The source's ready message is the last update. */
  function Ready(c: Cast, t: Transfer): Transfer {
    Updated(t, c.now).(sourceReady := true, size := 0)
  }

  lemma Readying(c: Cast, t: Transfer)
    requires Reached(Scene(c, t, StarterWaits(c))) && t.state == Preparing && !t.targetReady && t.relay == None
    requires t.source == Some(c.src) && t.sourceDevice == A && t.targetDevice == B
    ensures Reached(Scene(c, Ready(c, t), StarterWaits(c)))
  {
    var op := SourceReadyOp(c.src, 0);
    Begins(c, t, StarterWaits(c), 1, op);
    var t1 := Ready(c, t).(relay := Some(1));
    Acts(c, t.(relay := Some(1)), StarterWaits(c), 1, Newcomer(Region(c.id, op)), t1, Unlock(c.id));
    Leaves(c, t1, StarterWaits(c), 1);
    assert t1.(relay := None) == Ready(c, t);
  }

  /** A callback that finds two minutes gone by the wall clock. */
  lemma Deciding(c: Cast, t: Transfer)
    requires Reached(Scene(c, t, StarterWaits(c)[2 := Newcomer(Lookup(c.id, ExpireOp))])) && t.relay == None
    requires !Final(t.state) && Wall(c.now) - t.updatedAt >= IDLE_TIMEOUT && t.sourceDevice == A && t.targetDevice == B
    ensures Reached(Scene(c, t.(relay := Some(2)), StarterWaits(c)[2 := Newcomer(FailNow(c.id, true))]))
  {
    Finds(c, t, StarterWaits(c), 2, ExpireOp);
    Takes(c, t, StarterWaits(c), 2, ExpireOp, Newcomer(WantRelay(c.id, ExpireOp)));
    var t1 := t.(relay := Some(2));
    Acts(c, t1, StarterWaits(c), 2, Newcomer(Region(c.id, ExpireOp)), t1, FailNow(c.id, true));
  }

  /** A step of the wall clock by a nanosecond takes a nanosecond off the two minutes. */
  lemma EarlyExpiry(c: Cast) returns (w: World)
    requires Distinct(c) && Cold(c)
    ensures Expires(w, 2, c.id) && Skew(w.now) == 1 && !TwoMinutesIdle(w, c.id)
  {
    Publishing(c);
    var c1 := Passed(c, 1);
    Passing(c, Fresh(c), StarterWaits(c), 1);
    Readying(c1, Fresh(c));
    var t := Ready(c1, Fresh(c));
    var c2 := Passed(c1, IDLE_TIMEOUT - 1);
    Passing(c1, t, StarterWaits(c), IDLE_TIMEOUT - 1);
    Stepping(c2, t, StarterWaits(c));
    var c3 := Stepped(c2);
    Firing(c3, t, StarterWaits(c));
    Deciding(c3, Fired(t));
    w := Scene(c3, Fired(t).(relay := Some(2)), StarterWaits(c)[2 := Newcomer(FailNow(c.id, true))]);
  }

  /** A transfer is failed for idleness only after two minutes without an update, in all runs in which the wall clock
      is stepped by no more than `k`, exactly when that means not at all. */
  lemma TwoMinutesWhen(k: nat)
    ensures (forall w, u, id :: Expires(w, u, id) && Skew(w.now) <= k ==> TwoMinutesIdle(w, id)) <==> k == 0
  {
    if k == 0 {
      forall w, u, id | Expires(w, u, id) && Skew(w.now) <= k ensures TwoMinutesIdle(w, id) {
        ExpiresWithSkew(w, u, id);
      }
    } else {
      var c := SomeCast();
      var w := EarlyExpiry(c);
      assert Expires(w, 2, c.id) && Skew(w.now) <= k && !TwoMinutesIdle(w, c.id);
    }
  }
}
