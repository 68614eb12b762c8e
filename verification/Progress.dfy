/** The interleaved system cannot get stuck, and every maximal run finishes all operations. */
module Progress {
  import opened TicketLock
  import opened Programs
  import opened Discipline
  import opened Interleaving

  predicate Finished(th: Thread) {
    th.prog == Done && th.todo == []
  }

  ghost predicate AllFinished(s: Sys) {
    forall t :: t in s.threads ==> Finished(s.threads[t])
  }

  /** t is not about to touch an object that has been freed. */
  ghost predicate IsDefined(s: Sys, t: Tid)
    requires t in s.threads
  {
    s.threads[t].prog.Do? ==> Defined(s.d, s.threads[t].prog.i)
  }

  /** No thread is about to touch an object that has been freed. */
  ghost predicate AllDefined(s: Sys) {
    forall t :: t in s.threads ==> IsDefined(s, t)
  }

  /** A move other than a wait that returns for no reason. */
  ghost predicate Progresses(s: Sys, v: Move) {
    CanMove(s, v) && !v.Spurious?
  }

  /** t cannot move on its own: it sleeps on a condition variable or waits for a mutex that is taken. */
  ghost predicate Blocked(s: Sys, t: Tid) {
    && t in s.threads && s.threads[t].prog.Do? && s.threads[t].prog.i.Acq?
    && var l := s.threads[t].prog.i.l;
       if IsMutex(l) then l in s.mutexes else t in LockOf(s, l).waiting && LockOf(s, l).waiting[t].asleep
  }

  // ---------- A thread that is not blocked can move ----------

  lemma {:induction false} EnumerationExists(s: set<Ref>)
    ensures exists bs :: Enumerates(bs, s)
    decreases |s|
  {
    if s == {} {
      assert Enumerates([], s);
    } else {
      var b :| b in s;
      EnumerationExists(s - {b});
      var bs :| Enumerates(bs, s - {b});
      assert Enumerates([b] + bs, s);
    }
  }

  lemma OrderExists(d: Data, i: Instr)
    requires Defined(d, i)
    ensures exists order :: OrderOk(d, i, order)
  {
    if i.RCollect? {
      var s := ByHash(Slice(d.files[i.f].list, i.start, i.end), false).Values;
      EnumerationExists(s);
      var order :| Enumerates(order, s);
      assert OrderOk(d, i, order);
    } else if i.UTally? {
      var s := set b | b in d.files[i.f].list;
      EnumerationExists(s);
      var order :| Enumerates(order, s);
      assert OrderOk(d, i, order);
    } else {
      assert OrderOk(d, i, []);
    }
  }

  lemma UnblockedCanMove(s: Sys, t: Tid)
    requires LocksAgree(s) && ThreadsAreDisciplined(s) && t in s.threads && IsDefined(s, t)
    requires !Finished(s.threads[t]) && !Blocked(s, t)
    ensures exists v :: Progresses(s, v) && v.t == t
  {
    var th := s.threads[t];
    if th.prog == Done {
      assert Progresses(s, Begin(t));
    } else if th.prog.i.Acq? {
      NextInstr(th.held, th.prog);
      UnblockedCanAcquire(s, t);
    } else if th.prog.i.Rel? {
      NextInstr(th.held, th.prog);
      CanRelease(s, t);
    } else {
      OrderExists(s.d, th.prog.i);
      var order :| OrderOk(s.d, th.prog.i, order);
      assert Progresses(s, Exec(t, order));
    }
  }

  lemma UnblockedCanAcquire(s: Sys, t: Tid)
    requires LocksAgree(s) && t in s.threads && IsDefined(s, t) && !Blocked(s, t)
    requires s.threads[t].prog.Do? && s.threads[t].prog.i.Acq? && s.threads[t].prog.i.l !in s.threads[t].held
    ensures exists v :: Progresses(s, v) && v.t == t
  {
    var l := s.threads[t].prog.i.l;
    if IsMutex(l) {
      assert Progresses(s, Acquire(t));
    } else if t in LockOf(s, l).waiting {
      assert Progresses(s, Retry(t));
    } else {
      assert LockAgrees(s, l);
      assert Progresses(s, Acquire(t));
    }
  }

  lemma CanRelease(s: Sys, t: Tid)
    requires LocksAgree(s) && t in s.threads && IsDefined(s, t)
    requires s.threads[t].prog.Do? && s.threads[t].prog.i.Rel? && s.threads[t].prog.i.l in s.threads[t].held
    ensures exists v :: Progresses(s, v) && v.t == t
  {
    var l := s.threads[t].prog.i.l;
    if IsMutex(l) {
      MutexHolder(s, l, t);
    } else {
      TicketHolder(s, l, t);
    }
    assert Progresses(s, Release(t));
  }

  // ---------- Someone is not blocked ----------

  function Stop(s: Sys, t: Tid): LockId {
    if t in s.threads && s.threads[t].prog.Do? && s.threads[t].prog.i.Acq? then s.threads[t].prog.i.l else FileIndex
  }

  /** t is queued at its stop, awake. */
  ghost predicate IsNext(s: Sys, t: Tid) {
    && t in s.threads && s.threads[t].prog.Do? && s.threads[t].prog.i.Acq? && !Blocked(s, t)
    && t in LockOf(s, Stop(s, t)).waiting
  }

  /** A blocked thread waits because of someone inside, or while the head of the queue can enter. */
  lemma BlockedBySomeone(s: Sys, t: Tid) returns (u: Tid)
    requires LocksAgree(s) && Blocked(s, t)
    ensures u in s.threads && (Stop(s, t) in s.threads[u].held || (IsNext(s, u) && Stop(s, u) == Stop(s, t)))
  {
    var l := Stop(s, t);
    if IsMutex(l) {
      assert MutexAgrees(s, l);
      u := s.mutexes[l];
    } else {
      assert LockAgrees(s, l);
      var k := LockOf(s, l);
      if w :| w in k.readers || w in k.writers {
        u := w;
      } else {
        HeadCanEnter(k);
        u := k.drawn[k.serving];
        assert Waits(s.threads[u], l, k.waiting[u].mode) && !Blocked(s, u);
      }
    }
  }

  lemma {:induction false} HighestStop(s: Sys, ts: set<Tid>) returns (t: Tid)
    requires ts != {}
    ensures t in ts && forall u :: u in ts ==> !Below(Stop(s, t), Stop(s, u))
    decreases |ts|
  {
    t :| t in ts;
    if ts != {t} {
      var m := HighestStop(s, ts - {t});
      if !Below(Stop(s, m), Stop(s, t)) {
        t := m;
      }
    }
  }

  /** A blocked thread is stopped above every lock it holds. */
  lemma HolderStopsHigher(s: Sys, l: LockId, u: Tid)
    requires ThreadsAreDisciplined(s) && Blocked(s, u)
    ensures l in s.threads[u].held ==> Below(l, Stop(s, u))
  {
    NextInstr(s.threads[u].held, s.threads[u].prog);
  }

  /** t holds a lock of this tier or a higher one, or is queued for one. */
  ghost predicate BusyFrom(s: Sys, t: Tid, tier: nat) {
    && t in s.threads
    && ((exists l :: l in s.threads[t].held && Tier(l) >= tier) || (IsNext(s, t) && Tier(Stop(s, t)) >= tier))
  }

  lemma HolderIsUnfinished(s: Sys, t: Tid, l: LockId)
    requires ThreadsAreDisciplined(s) && t in s.threads && l in s.threads[t].held
    ensures !Finished(s.threads[t])
  {
    assert Disciplined(s.threads[t].held, s.threads[t].prog);
  }

  /** If t is blocked, the thread blocked at the highest lock waits for someone who is not blocked. */
  lemma ProgressFrom(s: Sys, t: Tid, tier: nat)
    requires LocksAgree(s) && ThreadsAreDisciplined(s) && AllDefined(s) && Blocked(s, t) && Tier(Stop(s, t)) >= tier
    ensures exists v :: Progresses(s, v) && BusyFrom(s, v.t, tier)
  {
    hide LocksAgree, ThreadsAreDisciplined, Progresses, Blocked;
    var ts := set t | t in s.threads && Blocked(s, t) && Tier(Stop(s, t)) >= tier;
    assert t in ts by { BlockedThread(s, t); }
    var high := HighestStop(s, ts);
    var u := BlockedBySomeone(s, high);
    var l := Stop(s, high);
    if l in s.threads[u].held {
      HolderIsUnfinished(s, u, l);
      if Blocked(s, u) {
        HolderStopsHigher(s, l, u);
        assert false;
      }
    }
    assert BusyFrom(s, u, tier);
    UnblockedCanMove(s, u);
  }

  lemma BlockedThread(s: Sys, t: Tid)
    requires Blocked(s, t)
    ensures t in s.threads && !Finished(s.threads[t])
  {
  }

  /** No deadlock: as long as an operation is unfinished, some thread can make progress. */
  lemma NoDeadlock(s: Sys)
    requires LocksAgree(s) && ThreadsAreDisciplined(s) && AllDefined(s) && !AllFinished(s)
    ensures exists v :: Progresses(s, v)
  {
    hide LocksAgree, ThreadsAreDisciplined, Progresses, Blocked;
    var t :| t in s.threads && !Finished(s.threads[t]);
    if Blocked(s, t) {
      ProgressFrom(s, t, 0);
    } else {
      UnblockedCanMove(s, t);
    }
  }
}
