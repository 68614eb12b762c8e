/** The fair reader/writer lock of the store, as a transition system over any number of threads.

    One step is one critical section under the lock's mutex: what happens between taking the
    mutex and either releasing it or going to sleep on a condition variable. */
module TicketLock {

  type Tid = nat

  datatype Mode = Read | Write

  /** A thread inside read_lock or write_lock: its local `my_ticket`, and whether it sleeps on the
      condition variable of its mode. */
  datatype Waiter = Waiter(ticket: nat, mode: Mode, asleep: bool)

  /** `next`, `serving` and `active` are the three counters of the C structure. `waiting` holds the
      threads inside a lock call, `readers` and `writers` those that returned from one and did not
      unlock yet. `drawn` and `entered` record every draw of a ticket and every entry, in order. */
  datatype Lock = Lock(
    next: nat, serving: nat, active: int,
    waiting: map<Tid, Waiter>, readers: set<Tid>, writers: set<Tid>,
    drawn: seq<Tid>, entered: seq<Tid>)

  /** ticket_rwlock_init */
  const INIT := Lock(0, 0, 0, map[], {}, {}, [], [])

  /** How the counters wrap: modulo the given bounds, or not at all where a bound is 0. */
  datatype Widths = Widths(ticket: nat, active: nat)

  const UNBOUNDED := Widths(0, 0)
  const MACHINE := Widths(0x1_0000_0000_0000_0000, 0x1_0000_0000)

  function Wrap(n: int, bound: nat): int {
    if bound == 0 then n else n % bound
  }

  // ---------- The critical sections ----------

  datatype Step =
    | Arrive(t: Tid, mode: Mode)  // enter a lock call: draw a ticket and test the wait condition once
    | Recheck(t: Tid)             // woken up: test the wait condition again
    | Unlock(t: Tid, mode: Mode)
    | Spurious(t: Tid)            // a wait that returns without a broadcast

  /** The negation of the wait condition of read_lock, respectively write_lock. */
  predicate Served(l: Lock, ticket: nat, mode: Mode) {
    ticket == l.serving && (mode == Write ==> !(l.active > 0))
  }

  function Broadcast(waiting: map<Tid, Waiter>, mode: Mode): map<Tid, Waiter> {
    map t | t in waiting :: if waiting[t].mode == mode then waiting[t].(asleep := false) else waiting[t]
  }

  /** Past the wait loop: a reader counts itself in and passes the turn on, a writer keeps the turn. */
  function Admit(l: Lock, w: Widths, t: Tid, mode: Mode): Lock
  {
    if mode == Read then
      l.(active := Wrap(l.active + 1, w.active), serving := Turn(l, w), readers := l.readers + {t},
         waiting := Broadcast(l.waiting - {t}, Read), entered := l.entered + [t])
    else
      l.(writers := l.writers + {t}, waiting := l.waiting - {t}, entered := l.entered + [t])
  }

  function Turn(l: Lock, w: Widths): nat {
    Wrap(l.serving + 1, w.ticket)
  }

  predicate Enabled(l: Lock, s: Step) {
    match s
    case Arrive(t, _) => t !in l.waiting && t !in l.readers && t !in l.writers
    case Recheck(t) => t in l.waiting && !l.waiting[t].asleep
    case Unlock(t, Read) => t in l.readers
    case Unlock(t, Write) => t in l.writers
    case Spurious(t) => t in l.waiting && l.waiting[t].asleep
  }

  function Next(l: Lock, w: Widths, s: Step): Lock
    requires Enabled(l, s)
  {
    match s
    case Arrive(t, mode) =>
      var ticket := l.next;
      var l1 := l.(next := Wrap(l.next + 1, w.ticket), drawn := l.drawn + [t]);
      if Served(l1, ticket, mode) then Admit(l1, w, t, mode)
      else l1.(waiting := l1.waiting[t := Waiter(ticket, mode, true)])
    case Recheck(t) =>
      var me := l.waiting[t];
      if Served(l, me.ticket, me.mode) then Admit(l, w, t, me.mode)
      else l.(waiting := l.waiting[t := me.(asleep := true)])
    case Unlock(t, Read) =>
      var l1 := l.(active := Wrap(l.active - 1, w.active), readers := l.readers - {t});
      if l1.active == 0 then l1.(waiting := Broadcast(l1.waiting, Write)) else l1
    case Unlock(t, Write) =>
      l.(serving := Turn(l, w), writers := l.writers - {t},
         waiting := Broadcast(Broadcast(l.waiting, Read), Write))
    case Spurious(t) =>
      l.(waiting := l.waiting[t := l.waiting[t].(asleep := false)])
  }

  // ---------- Safety ----------

  /** The first ticket that has not entered yet. */
  function FirstWaiting(l: Lock): nat {
    l.serving + |l.writers|
  }

  /** The tickets from `first` up to the last one drawn are exactly those of the waiting threads. */
  ghost predicate TicketRange(waiting: map<Tid, Waiter>, drawn: seq<Tid>, first: nat) {
    && first <= |drawn|
    && (forall t :: t in waiting ==> first <= waiting[t].ticket < |drawn| && drawn[waiting[t].ticket] == t)
    && (forall k :: first <= k < |drawn| ==> drawn[k] in waiting && waiting[drawn[k]].ticket == k)
    && |waiting| == |drawn| - first
  }

  /** Every draw is on record, and entries happened in the order of the draws. */
  ghost predicate Tickets(l: Lock) {
    && |l.drawn| == l.next
    && TicketRange(l.waiting, l.drawn, FirstWaiting(l))
    && l.entered == l.drawn[..FirstWaiting(l)]
  }

  /** Exclusion: at most one writer, never together with a reader, and the turn is the writer's own. */
  ghost predicate Holders(l: Lock) {
    && l.active == |l.readers|
    && |l.writers| <= 1
    && (l.writers != {} ==> l.readers == {} && l.serving < |l.drawn| && l.writers == {l.drawn[l.serving]})
    && l.waiting.Keys !! l.readers && l.waiting.Keys !! l.writers
  }

  /** No lost wakeup: whoever sleeps has a reason to. */
  ghost predicate SleepersMustWait(l: Lock) {
    forall t :: t in l.waiting && l.waiting[t].asleep ==> !Served(l, l.waiting[t].ticket, l.waiting[t].mode)
  }

  ghost predicate Inv(l: Lock) {
    Tickets(l) && Holders(l) && SleepersMustWait(l)
  }

  // ---------- Every step keeps the invariant ----------

  /** The lock just after t drew its ticket, with t about to test its wait condition. */
  function Joined(l: Lock, t: Tid, mode: Mode): Lock {
    l.(next := l.next + 1, drawn := l.drawn + [t], waiting := l.waiting[t := Waiter(l.next, mode, false)])
  }

  lemma ArriveIsJoinThenRecheck(l: Lock, t: Tid, mode: Mode)
    requires Enabled(l, Arrive(t, mode))
    ensures Next(l, UNBOUNDED, Arrive(t, mode)) == Next(Joined(l, t, mode), UNBOUNDED, Recheck(t))
  {
    var j := Joined(l, t, mode);
    assert j.waiting - {t} == l.waiting - {t};
    assert j.waiting[t := Waiter(l.next, mode, true)] == l.waiting[t := Waiter(l.next, mode, true)];
  }

  lemma RangeWithOneMore(waiting: map<Tid, Waiter>, drawn: seq<Tid>, first: nat, t: Tid, w: Waiter)
    requires TicketRange(waiting, drawn, first) && t !in waiting && w.ticket == |drawn|
    ensures TicketRange(waiting[t := w], drawn + [t], first)
  {
    assert |waiting[t := w]| == |waiting| + 1;
  }

  lemma JoinKeepsInv(l: Lock, t: Tid, mode: Mode)
    requires Inv(l) && Enabled(l, Arrive(t, mode))
    ensures Inv(Joined(l, t, mode))
  {
    RangeWithOneMore(l.waiting, l.drawn, FirstWaiting(l), t, Waiter(l.next, mode, false));
    var j := Joined(l, t, mode);
    assert Holders(j) && SleepersMustWait(j);
    hide TicketRange, Holders, SleepersMustWait;
    assert j.drawn[..FirstWaiting(l)] == l.drawn[..FirstWaiting(l)];
  }

  lemma BroadcastKeepsRange(waiting: map<Tid, Waiter>, drawn: seq<Tid>, first: nat, mode: Mode)
    requires TicketRange(waiting, drawn, first)
    ensures TicketRange(Broadcast(waiting, mode), drawn, first)
  {
    assert Broadcast(waiting, mode).Keys == waiting.Keys;
    assert |Broadcast(waiting, mode).Keys| == |Broadcast(waiting, mode)| && |waiting.Keys| == |waiting|;
  }

  lemma RangeWithoutFirst(waiting: map<Tid, Waiter>, drawn: seq<Tid>, first: nat, t: Tid)
    requires TicketRange(waiting, drawn, first) && first < |drawn| && drawn[first] == t
    ensures TicketRange(waiting - {t}, drawn, first + 1)
  {
    assert waiting == (waiting - {t})[t := waiting[t]];
  }

  /** The thread being served is the first one waiting, and no writer is inside. */
  lemma ServedIsFirst(l: Lock, t: Tid)
    requires Inv(l) && t in l.waiting && Served(l, l.waiting[t].ticket, l.waiting[t].mode)
    ensures l.writers == {} && FirstWaiting(l) == l.serving == l.waiting[t].ticket
    ensures l.serving < |l.drawn| && l.drawn[l.serving] == t && Tickets(l)
  {
    assert |l.writers| == 0;
  }

  lemma AdmitKeepsTickets(l: Lock, t: Tid)
    requires Inv(l) && t in l.waiting && Served(l, l.waiting[t].ticket, l.waiting[t].mode)
    ensures Tickets(Admit(l, UNBOUNDED, t, l.waiting[t].mode))
  {
    hide TicketRange, SleepersMustWait, Holders, Served;
    ServedIsFirst(l, t);
    assert l.drawn[..l.serving + 1] == l.drawn[..l.serving] + [t];
    RangeWithoutFirst(l.waiting, l.drawn, l.serving, t);
    BroadcastKeepsRange(l.waiting - {t}, l.drawn, l.serving + 1, Read);
  }

  lemma AdmitKeepsInv(l: Lock, t: Tid)
    requires Inv(l) && t in l.waiting && Served(l, l.waiting[t].ticket, l.waiting[t].mode)
    ensures Inv(Admit(l, UNBOUNDED, t, l.waiting[t].mode))
  {
    AdmitKeepsTickets(l, t);
    ServedIsFirst(l, t);
    AdmitKeepsHolders(l, t);
    AdmitKeepsSleepers(l, t);
  }

  lemma AdmitKeepsHolders(l: Lock, t: Tid)
    requires Inv(l) && t in l.waiting && Served(l, l.waiting[t].ticket, l.waiting[t].mode)
    ensures Holders(Admit(l, UNBOUNDED, t, l.waiting[t].mode))
  {
    ServedIsFirst(l, t);
    var a := Admit(l, UNBOUNDED, t, l.waiting[t].mode);
    assert a.waiting.Keys == l.waiting.Keys - {t};
    if l.waiting[t].mode == Write {
      assert |l.readers| == 0;
      assert l.writers + {t} == {t};
    }
  }

  lemma AdmitKeepsSleepers(l: Lock, t: Tid)
    requires Inv(l) && t in l.waiting && Served(l, l.waiting[t].ticket, l.waiting[t].mode)
    ensures SleepersMustWait(Admit(l, UNBOUNDED, t, l.waiting[t].mode))
  {
    ServedIsFirst(l, t);
    var a := Admit(l, UNBOUNDED, t, l.waiting[t].mode);
    forall u | u in a.waiting && a.waiting[u].asleep
      ensures !Served(a, a.waiting[u].ticket, a.waiting[u].mode)
    {
      assert u in l.waiting && l.waiting[u].ticket == a.waiting[u].ticket && l.waiting[u].asleep;
      assert l.drawn[l.waiting[u].ticket] == u;
    }
  }

  lemma RecheckKeepsInv(l: Lock, t: Tid)
    requires Inv(l) && Enabled(l, Recheck(t))
    ensures Inv(Next(l, UNBOUNDED, Recheck(t)))
  {
    var me := l.waiting[t];
    if Served(l, me.ticket, me.mode) {
      AdmitKeepsInv(l, t);
    }
  }

  lemma ReadUnlockKeepsInv(l: Lock, t: Tid)
    requires Inv(l) && Enabled(l, Unlock(t, Read))
    ensures Inv(Next(l, UNBOUNDED, Unlock(t, Read)))
  {
    BroadcastKeepsRange(l.waiting, l.drawn, FirstWaiting(l), Write);
  }

  lemma WriteUnlockKeepsInv(l: Lock, t: Tid)
    requires Inv(l) && Enabled(l, Unlock(t, Write))
    ensures Inv(Next(l, UNBOUNDED, Unlock(t, Write)))
  {
    assert l.writers == {t} && l.writers - {t} == {};
    BroadcastKeepsRange(l.waiting, l.drawn, FirstWaiting(l), Read);
    BroadcastKeepsRange(Broadcast(l.waiting, Read), l.drawn, FirstWaiting(l), Write);
  }

  /** Lock safety and no lost wakeup, for every step of any number of threads. */
  lemma NextKeepsInv(l: Lock, s: Step)
    requires Inv(l) && Enabled(l, s)
    ensures Inv(Next(l, UNBOUNDED, s))
  {
    match s
    case Arrive(t, mode) =>
      JoinKeepsInv(l, t, mode);
      ArriveIsJoinThenRecheck(l, t, mode);
      RecheckKeepsInv(Joined(l, t, mode), t);
    case Recheck(t) => RecheckKeepsInv(l, t);
    case Unlock(t, Read) => ReadUnlockKeepsInv(l, t);
    case Unlock(t, Write) => WriteUnlockKeepsInv(l, t);
    case Spurious(t) =>
      assert Next(l, UNBOUNDED, s).waiting.Keys == l.waiting.Keys;
  }

  /** A step moves nobody but the thread that takes it between waiting and inside, and leaves the tickets alone. */
  lemma NextEffects(l: Lock, s: Step)
    requires Enabled(l, s)
    ensures var n := Next(l, UNBOUNDED, s);
            && (forall u :: u != s.t ==> (u in n.waiting <==> u in l.waiting) && (u in n.readers <==> u in l.readers) &&
                                         (u in n.writers <==> u in l.writers))
            && (forall u :: u in l.waiting && u in n.waiting ==>
                              n.waiting[u].mode == l.waiting[u].mode && n.waiting[u].ticket == l.waiting[u].ticket)
  {
  }

  /** The thread that takes the step: a lock call ends inside or waiting, an unlock ends outside. */
  lemma NextOwnEffects(l: Lock, s: Step)
    requires Inv(l) && Enabled(l, s)
    ensures var n := Next(l, UNBOUNDED, s);
            match s
            case Arrive(t, m) =>
              && (t in n.readers <==> m == Read && t !in n.waiting) && (t in n.writers <==> m == Write && t !in n.waiting)
              && (t in n.waiting ==> n.waiting[t].mode == m && n.waiting[t].asleep)
            case Recheck(t) =>
              var m := l.waiting[t].mode;
              && (t in n.readers <==> m == Read && t !in n.waiting) && (t in n.writers <==> m == Write && t !in n.waiting)
              && (t in n.waiting ==> n.waiting[t].asleep)
            case Unlock(t, _) => t !in n.readers && t !in n.writers && t !in n.waiting
            case Spurious(t) => n.readers == l.readers && n.writers == l.writers && t in n.waiting
  {
  }

  /** A lock call passes nobody: a new ticket is the largest, and whoever gets in had the smallest. */
  lemma NobodyIsPassed(l: Lock, s: Step, u: Tid)
    requires Inv(l) && Enabled(l, s) && u in l.waiting && u != s.t
    ensures var n := Next(l, UNBOUNDED, s);
            && (s.Arrive? ==> s.t in n.waiting && l.waiting[u].ticket < n.waiting[s.t].ticket)
            && (s.Recheck? && s.t !in n.waiting ==> l.waiting[s.t].ticket < l.waiting[u].ticket)
  {
    if s.Recheck? && s.t !in Next(l, UNBOUNDED, s).waiting {
      ServedIsFirst(l, s.t);
    }
  }

  /** A recheck that goes back to sleep changes nothing else. */
  lemma RecheckInVain(l: Lock, t: Tid)
    requires Enabled(l, Recheck(t)) && t in Next(l, UNBOUNDED, Recheck(t)).waiting
    ensures Next(l, UNBOUNDED, Recheck(t)) == l.(waiting := l.waiting[t := l.waiting[t].(asleep := true)])
  {
  }

  // ---------- Whole runs ----------

  /** `steps` can be taken one after the other from l. */
  ghost predicate Legal(l: Lock, w: Widths, steps: seq<Step>)
    decreases |steps|
  {
    steps == [] || (Enabled(l, steps[0]) && Legal(Next(l, w, steps[0]), w, steps[1..]))
  }

  ghost function After(l: Lock, w: Widths, steps: seq<Step>): Lock
    requires Legal(l, w, steps)
    decreases |steps|
  {
    if steps == [] then l else After(Next(l, w, steps[0]), w, steps[1..])
  }

  /** Safety in every reachable state, for any number of threads and any schedule. */
  lemma {:induction false} RunKeepsInv(l: Lock, steps: seq<Step>)
    requires Inv(l) && Legal(l, UNBOUNDED, steps)
    ensures Inv(After(l, UNBOUNDED, steps))
    decreases |steps|
  {
    if steps != [] {
      NextKeepsInv(l, steps[0]);
      RunKeepsInv(Next(l, UNBOUNDED, steps[0]), steps[1..]);
    }
  }

  /** From the initial lock: entries are a prefix of the draws (first come, first served); a writer
      inside is alone and has the turn; the counters count waiters and readers; no wakeup is lost. */
  lemma EveryRunIsSafe(steps: seq<Step>)
    requires Legal(INIT, UNBOUNDED, steps)
    ensures var l := After(INIT, UNBOUNDED, steps);
            && l.entered <= l.drawn && |l.drawn| == l.next
            && (forall t :: t in l.writers ==>
                              l.writers == {t} && l.readers == {} && l.active == 0 && l.serving < l.next && l.drawn[l.serving] == t)
            && l.next - l.serving == |l.waiting| + |l.writers| && |l.writers| <= 1
            && l.active == |l.readers|
            && SleepersMustWait(l)
  {
    RunKeepsInv(INIT, steps);
  }

  /** Whoever is inside together with a writer is that writer. */
  lemma WriterIsAlone(l: Lock, t: Tid, u: Tid)
    requires Inv(l) && t in l.writers && (u in l.readers || u in l.writers)
    ensures t == u
  {
  }

  ghost predicate CanEnter(l: Lock, t: Tid) {
    t in l.waiting && !l.waiting[t].asleep && Served(l, l.waiting[t].ticket, l.waiting[t].mode)
  }

  /** The head of the queue gets in on its next recheck unless someone inside excludes it. */
  lemma HeadCanEnter(l: Lock)
    requires Inv(l) && l.waiting != map[] && l.writers == {}
    ensures FirstWaiting(l) == l.serving < |l.drawn| && l.drawn[l.serving] in l.waiting
    ensures var t := l.drawn[l.serving];
            l.readers == {} || l.waiting[t].mode == Read ==> CanEnter(l, t)
  {
    assert |l.waiting| > 0;
    assert |l.writers| == 0;
  }

  /** Threads wait and nobody is inside: exactly one of them can enter. */
  lemma ExactlyOneCanEnter(l: Lock)
    requires Inv(l) && l.waiting != map[] && l.writers == {} && l.readers == {}
    ensures exists t :: CanEnter(l, t) && (forall u :: CanEnter(l, u) ==> u == t)
  {
    HeadCanEnter(l);
    var t := l.drawn[l.serving];
    forall u | CanEnter(l, u)
      ensures u == t
    {
      ServedIsFirst(l, u);
    }
    assert CanEnter(l, t);
  }

  lemma StepKeepsTicket(l: Lock, s: Step, t: Tid)
    requires Inv(l) && Enabled(l, s) && t in l.waiting
    ensures var n := Next(l, UNBOUNDED, s);
            && l.drawn <= n.drawn
            && (t in n.waiting ==> n.waiting[t].ticket == l.waiting[t].ticket)
            && (t !in n.waiting ==> n.entered == l.entered + [t] && l.waiting[t].ticket == |l.entered|)
  {
    if t !in Next(l, UNBOUNDED, s).waiting {
      assert s == Recheck(t);
      ServedIsFirst(l, t);
    }
  }

  /** t waits in l and all along `steps`, and gets in with the last of them. */
  ghost predicate EntersAtEnd(l: Lock, steps: seq<Step>, t: Tid)
    requires Legal(l, UNBOUNDED, steps)
    decreases |steps|
  {
    && steps != [] && t in l.waiting
    && var n := Next(l, UNBOUNDED, steps[0]);
       if |steps| == 1 then t !in n.waiting else EntersAtEnd(n, steps[1..], t)
  }

  /** The bypass bound is exact: between now and the entry of a waiting thread, those that enter are
      precisely the threads with smaller tickets, in the order of their draws. */
  lemma {:induction false} OvertakenByNobody(l: Lock, steps: seq<Step>, t: Tid)
    requires Inv(l) && Legal(l, UNBOUNDED, steps) && EntersAtEnd(l, steps, t)
    ensures l.waiting[t].ticket < |l.drawn|
    ensures After(l, UNBOUNDED, steps).entered == l.drawn[..l.waiting[t].ticket + 1]
    decreases |steps|
  {
    hide TicketRange, SleepersMustWait, Holders, Enabled, Next;
    var n := Next(l, UNBOUNDED, steps[0]);
    NextKeepsInv(l, steps[0]);
    StepKeepsTicket(l, steps[0], t);
    EnteredSoFar(l, t);
    if |steps| == 1 {
      assert l.drawn[..|l.entered|] + [t] == l.drawn[..|l.entered| + 1];
    } else {
      OvertakenByNobody(n, steps[1..], t);
    }
  }

  lemma EnteredSoFar(l: Lock, t: Tid)
    requires Inv(l) && t in l.waiting
    ensures l.entered == l.drawn[..|l.entered|] && |l.entered| <= l.waiting[t].ticket < |l.drawn|
    ensures l.drawn[l.waiting[t].ticket] == t
  {
  }

  // ---------- The 64-bit and 32-bit counters ----------

  /** The same lock with every counter and ticket cut down to the width the C types give it. */
  ghost function Wrapped(l: Lock): Lock {
    l.(next := Wrap(l.next, MACHINE.ticket), serving := Wrap(l.serving, MACHINE.ticket),
       active := Wrap(l.active, MACHINE.active),
       waiting := WrappedAll(l.waiting))
  }

  ghost function WrappedAll(waiting: map<Tid, Waiter>): map<Tid, Waiter> {
    map t | t in waiting :: WrappedWaiter(waiting[t])
  }

  ghost function WrappedWaiter(w: Waiter): Waiter {
    w.(ticket := Wrap(w.ticket, MACHINE.ticket))
  }

  /** Fewer than 2^64 threads wait or write, and the readers inside fit in 32 bits. */
  ghost predicate Fits(l: Lock) {
    |l.waiting| + |l.writers| < 0x1_0000_0000_0000_0000 && |l.readers| < 0x1_0000_0000
  }

  /** Tickets are only ever compared for equality, and those in play span less than 2^64. */
  lemma ServedWrapped(l: Lock, ticket: nat, mode: Mode)
    requires l.serving <= ticket < l.serving + MACHINE.ticket && 0 <= l.active < MACHINE.active
    ensures Served(Wrapped(l), Wrap(ticket, MACHINE.ticket), mode) == Served(l, ticket, mode)
  {
  }

  lemma WrappedAllCommutes(waiting: map<Tid, Waiter>, t: Tid, w: Waiter, mode: Mode)
    ensures WrappedAll(waiting[t := w]) == WrappedAll(waiting)[t := WrappedWaiter(w)]
    ensures WrappedAll(waiting - {t}) == WrappedAll(waiting) - {t}
    ensures WrappedAll(Broadcast(waiting, mode)) == Broadcast(WrappedAll(waiting), mode)
  {
  }

  /** Counting up or down before or after wrapping is the same. */
  lemma WrapCounts(n: int)
    ensures Wrap(Wrap(n, MACHINE.ticket) + 1, MACHINE.ticket) == Wrap(n + 1, MACHINE.ticket)
    ensures Wrap(Wrap(n, MACHINE.active) + 1, MACHINE.active) == Wrap(n + 1, MACHINE.active)
    ensures Wrap(Wrap(n, MACHINE.active) - 1, MACHINE.active) == Wrap(n - 1, MACHINE.active)
    ensures 0 <= n < MACHINE.active ==> Wrap(n, MACHINE.active) == n
    ensures Wrap(n, UNBOUNDED.ticket) == n == Wrap(n, UNBOUNDED.active)
  {
    ModCounts(n, MACHINE.ticket);
    ModCounts(n, MACHINE.active);
  }

  lemma ModCounts(n: int, m: nat)
    requires m > 1
    ensures (n % m + 1) % m == (n + 1) % m
    ensures (n % m - 1) % m == (n - 1) % m
  {
    var q, r := n / m, n % m;
    assert n == m * q + r;
    if r + 1 == m {
      ModUnique(n + 1, m, q + 1, 0);
      ModUnique(r + 1, m, 1, 0);
    } else {
      ModUnique(n + 1, m, q, r + 1);
      ModUnique(r + 1, m, 0, r + 1);
    }
    if r == 0 {
      ModUnique(n - 1, m, q - 1, m - 1);
      ModUnique(-1, m, -1, m - 1);
    } else {
      ModUnique(n - 1, m, q, r - 1);
      ModUnique(r - 1, m, 0, r - 1);
    }
  }

  lemma ModUnique(n: int, m: nat, q: int, r: int)
    requires m > 0 && n == m * q + r && 0 <= r < m
    ensures n % m == r
  {
    assert m * (n / m - q) == r - n % m;
    MultipleIsFar(m, n / m - q);
  }

  lemma MultipleIsFar(m: nat, d: int)
    ensures d >= 1 ==> m * d >= m
    ensures d <= -1 ==> m * d + m <= 0
  {
  }

  lemma AdmitWrapped(l: Lock, t: Tid, mode: Mode)
    ensures Admit(Wrapped(l), MACHINE, t, mode) == Wrapped(Admit(l, UNBOUNDED, t, mode))
  {
    hide Wrap, WrappedAll, Broadcast;
    WrapCounts(l.serving);
    WrapCounts(l.active);
    WrapCounts(l.active + 1);
    WrapCounts(l.serving + 1);
    WrappedAllCommutes(l.waiting, t, Waiter(0, mode, true), mode);
    WrappedAllCommutes(l.waiting - {t}, t, Waiter(0, mode, true), mode);
  }

  lemma InPlay(l: Lock)
    requires Inv(l) && Fits(l)
    ensures l.serving <= l.next < l.serving + MACHINE.ticket && 0 <= l.active < MACHINE.active
    ensures forall t :: t in l.waiting ==> l.serving <= l.waiting[t].ticket < l.serving + MACHINE.ticket
    ensures l.readers != {} ==> l.active > 0
  {
    assert l.readers != {} ==> |l.readers| > 0;
  }

  /** l with one more ticket drawn. */
  ghost function Drawing(l: Lock, w: Widths, t: Tid): Lock {
    l.(next := Wrap(l.next + 1, w.ticket), drawn := l.drawn + [t])
  }

  lemma DrawingWrapped(l: Lock, t: Tid)
    ensures Drawing(Wrapped(l), MACHINE, t) == Wrapped(Drawing(l, UNBOUNDED, t))
  {
    hide Wrap, WrappedAll;
    WrapCounts(l.next);
    WrapCounts(l.next + 1);
  }

  lemma ArriveWrapped(l: Lock, t: Tid, mode: Mode)
    requires Inv(l) && Enabled(l, Arrive(t, mode)) && Fits(l)
    ensures Next(Wrapped(l), MACHINE, Arrive(t, mode)) == Wrapped(Next(l, UNBOUNDED, Arrive(t, mode)))
  {
    InPlay(l);
    hide Inv, Fits, Wrap, WrappedAll, Broadcast, Admit, Served;
    var l1 := Drawing(l, UNBOUNDED, t);
    WrapCounts(l.next);
    DrawingWrapped(l, t);
    ServedWrapped(l1, l.next, mode);
    if Served(l1, l.next, mode) {
      AdmitWrapped(l1, t, mode);
    } else {
      WrappedAllCommutes(l.waiting, t, Waiter(l.next, mode, true), mode);
    }
  }

  lemma RecheckWrapped(l: Lock, t: Tid)
    requires Inv(l) && Enabled(l, Recheck(t)) && Fits(l)
    ensures Next(Wrapped(l), MACHINE, Recheck(t)) == Wrapped(Next(l, UNBOUNDED, Recheck(t)))
  {
    InPlay(l);
    hide Inv, Fits, Broadcast, Admit, Served;
    var me := l.waiting[t];
    ServedWrapped(l, me.ticket, me.mode);
    AdmitWrapped(l, t, me.mode);
    WrappedAllCommutes(l.waiting, t, me.(asleep := true), me.mode);
  }

  lemma ReadUnlockWrapped(l: Lock, t: Tid)
    requires Inv(l) && Enabled(l, Unlock(t, Read)) && Fits(l)
    ensures Next(Wrapped(l), MACHINE, Unlock(t, Read)) == Wrapped(Next(l, UNBOUNDED, Unlock(t, Read)))
  {
    InPlay(l);
    hide Inv, Fits, Wrap, WrappedAll, Broadcast;
    WrapCounts(l.active);
    WrapCounts(l.active - 1);
    WrappedAllCommutes(l.waiting, t, Waiter(0, Read, true), Write);
  }

  lemma WriteUnlockWrapped(l: Lock, t: Tid)
    requires Enabled(l, Unlock(t, Write))
    ensures Next(Wrapped(l), MACHINE, Unlock(t, Write)) == Wrapped(Next(l, UNBOUNDED, Unlock(t, Write)))
  {
    hide Wrap, WrappedAll, Broadcast;
    WrapCounts(l.serving);
    WrapCounts(l.serving + 1);
    WrappedAllCommutes(l.waiting, t, Waiter(0, Read, true), Read);
    WrappedAllCommutes(Broadcast(l.waiting, Read), t, Waiter(0, Read, true), Write);
  }

  /** While its counters fit, the lock with wrapping counters takes the same steps as the one with unbounded tickets. */
  lemma NextWrapped(l: Lock, s: Step)
    requires Inv(l) && Enabled(l, s) && Fits(l)
    ensures Enabled(Wrapped(l), s)
    ensures Next(Wrapped(l), MACHINE, s) == Wrapped(Next(l, UNBOUNDED, s))
  {
    match s
    case Arrive(t, mode) => ArriveWrapped(l, t, mode);
    case Recheck(t) => RecheckWrapped(l, t);
    case Unlock(t, Read) => ReadUnlockWrapped(l, t);
    case Unlock(t, Write) => WriteUnlockWrapped(l, t);
    case Spurious(t) => WrappedAllCommutes(l.waiting, t, l.waiting[t].(asleep := false), Read);
  }

  /** l and every state that `steps` leads through fit the counters. */
  ghost predicate FitsThroughout(l: Lock, steps: seq<Step>)
    requires Legal(l, UNBOUNDED, steps)
    decreases |steps|
  {
    Fits(l) && (steps != [] ==> FitsThroughout(Next(l, UNBOUNDED, steps[0]), steps[1..]))
  }

  /** Whole runs of the C lock are runs of the lock with unbounded tickets, wrapped. */
  lemma {:induction false} RunWrapped(l: Lock, steps: seq<Step>)
    requires Inv(l) && Legal(l, UNBOUNDED, steps) && FitsThroughout(l, steps)
    ensures Legal(Wrapped(l), MACHINE, steps)
    ensures After(Wrapped(l), MACHINE, steps) == Wrapped(After(l, UNBOUNDED, steps))
    decreases |steps|
  {
    if steps != [] {
      NextWrapped(l, steps[0]);
      NextKeepsInv(l, steps[0]);
      RunWrapped(Next(l, UNBOUNDED, steps[0]), steps[1..]);
    }
  }

  /** A lock and its wrapped form have the same threads in the same places. */
  lemma WrappedIsSimilar(l: Lock, s: Step)
    ensures Enabled(Wrapped(l), s) <==> Enabled(l, s)
    ensures Fits(Wrapped(l)) <==> Fits(l)
  {
    hide Wrap;
    assert WrappedAll(l.waiting).Keys == l.waiting.Keys;
    assert |WrappedAll(l.waiting).Keys| == |WrappedAll(l.waiting)| && |l.waiting.Keys| == |l.waiting|;
  }

  /** The same for the states of a run of the C lock. */
  ghost predicate MachineFits(l: Lock, steps: seq<Step>)
    requires Legal(l, MACHINE, steps)
    decreases |steps|
  {
    Fits(l) && (steps != [] ==> MachineFits(Next(l, MACHINE, steps[0]), steps[1..]))
  }

  lemma {:induction false} MachineRunIsWrapped(l: Lock, steps: seq<Step>)
    requires Inv(l) && Legal(Wrapped(l), MACHINE, steps) && MachineFits(Wrapped(l), steps)
    ensures Legal(l, UNBOUNDED, steps) && FitsThroughout(l, steps)
    decreases |steps|
  {
    hide Fits, Inv, Enabled, Next, Wrapped;
    WrappedIsSimilar(l, if steps == [] then Spurious(0) else steps[0]);
    if steps != [] {
      NextWrapped(l, steps[0]);
      NextKeepsInv(l, steps[0]);
      MachineRunIsWrapped(Next(l, UNBOUNDED, steps[0]), steps[1..]);
    }
  }

  lemma InitIsWrapped()
    ensures Wrapped(INIT) == INIT && Inv(INIT)
  {
    assert WrappedAll(map[]) == map[];
  }

  /** The C lock, from its initial state, for as long as fewer than 2^64 threads wait or write and fewer than 2^32 read:
      a writer is alone, entries happen in the order of the draws, the next ticket is the number of draws modulo 2^64,
      and so is the ticket of whoever waits, counting the draws before its own. */
  lemma MachineRunIsSafe(steps: seq<Step>)
    requires Legal(INIT, MACHINE, steps) && MachineFits(INIT, steps)
    ensures var l := After(INIT, MACHINE, steps);
            && (forall t :: t in l.writers ==> l.writers == {t} && l.readers == {})
            && l.entered <= l.drawn
            && l.next == |l.drawn| % 0x1_0000_0000_0000_0000 && l.serving < 0x1_0000_0000_0000_0000
            && l.active == |l.readers| < 0x1_0000_0000
    ensures var l := After(INIT, MACHINE, steps);
            forall t :: t in l.waiting ==>
                          exists k :: |l.entered| <= k < |l.drawn| && l.drawn[k] == t && l.waiting[t].ticket == k % 0x1_0000_0000_0000_0000
  {
    InitIsWrapped();
    hide Wrapped, Inv, FitsThroughout, MachineFits;
    MachineRunIsWrapped(INIT, steps);
    RunWrapped(INIT, steps);
    RunKeepsInv(INIT, steps);
    RunEndsFitting(INIT, steps);
    WrappedIsSafe(After(INIT, UNBOUNDED, steps));
  }

  lemma {:induction false} RunEndsFitting(l: Lock, steps: seq<Step>)
    requires Legal(l, UNBOUNDED, steps) && FitsThroughout(l, steps)
    ensures Fits(After(l, UNBOUNDED, steps))
    decreases |steps|
  {
    hide Fits, Next, Enabled;
    if steps != [] { RunEndsFitting(Next(l, UNBOUNDED, steps[0]), steps[1..]); }
  }

  lemma WrappedIsSafe(l: Lock)
    requires Inv(l) && Fits(l)
    ensures var m := Wrapped(l);
            && (forall t :: t in m.writers ==> m.writers == {t} && m.readers == {})
            && m.entered <= m.drawn
            && m.next == |m.drawn| % 0x1_0000_0000_0000_0000 && m.serving < 0x1_0000_0000_0000_0000
            && m.active == |m.readers| < 0x1_0000_0000
    ensures var m := Wrapped(l);
            forall t :: t in m.waiting ==>
                          exists k :: |m.entered| <= k < |m.drawn| && m.drawn[k] == t && m.waiting[t].ticket == k % 0x1_0000_0000_0000_0000
  {
    var m := Wrapped(l);
    forall t | t in m.waiting
      ensures exists k :: |m.entered| <= k < |m.drawn| && m.drawn[k] == t && m.waiting[t].ticket == k % 0x1_0000_0000_0000_0000
    {
      var k := l.waiting[t].ticket;
      assert |m.entered| <= k < |m.drawn| && m.drawn[k] == t;
    }
  }

  // ---------- The C structure ----------

  /** The structure with its counters of 64 and 32 bits, and the two condition variables as the sets
      of threads asleep on them. Each method is one critical section of the C function it is named
      after; a function that sleeps is continued by its `Awake` method. `model` records what the C
      code keeps on the threads' stacks. */
  class TicketRwLock {
    var nextTicket: nat
    var nowServing: nat
    var readersActive: nat
    var condReaders: set<Tid>
    var condWriters: set<Tid>
    ghost var model: Lock

    ghost predicate Valid()
      reads this
    {
      && nextTicket == model.next && nowServing == model.serving && readersActive == model.active
      && condReaders == Sleepers(model.waiting, Read) && condWriters == Sleepers(model.waiting, Write)
    }

    constructor ()
      ensures Valid() && model == INIT
    {
      nextTicket, nowServing, readersActive := 0, 0, 0;
      condReaders, condWriters := {}, {};
      model := INIT;
    }

    /** The thread got its ticket; it either holds the lock for reading now or sleeps. */
    method ReadLock(t: Tid) returns (myTicket: nat, entered: bool)
      requires Valid() && Enabled(model, Arrive(t, Read))
      modifies this
      ensures Valid() && model == Next(old(model), MACHINE, Arrive(t, Read))
      ensures myTicket == old(model).next && entered == (t in model.readers)
      ensures !entered ==> t in model.waiting && model.waiting[t] == Waiter(myTicket, Read, true)
      ensures myTicket == old(nextTicket) && nextTicket == (old(nextTicket) + 1) % 0x1_0000_0000_0000_0000
      ensures entered ==> readersActive == (old(readersActive) + 1) % 0x1_0000_0000
      ensures entered ==> nowServing == (old(nowServing) + 1) % 0x1_0000_0000_0000_0000
    {
      hide Wrap;
      model := Next(model, MACHINE, Arrive(t, Read));
      MachineWraps(nextTicket + 1);
      myTicket := nextTicket;
      nextTicket := Wrap(nextTicket + 1, MACHINE.ticket);
      if myTicket != nowServing {
        condReaders := condReaders + {t};
        return myTicket, false;
      }
      MachineWraps(readersActive + 1);
      MachineWraps(nowServing + 1);
      readersActive := Wrap(readersActive + 1, MACHINE.active);
      nowServing := Wrap(nowServing + 1, MACHINE.ticket);
      condReaders := {};
      entered := true;
    }

    method ReadLockAwake(t: Tid, myTicket: nat) returns (entered: bool)
      requires Valid() && Enabled(model, Recheck(t)) && model.waiting[t] == Waiter(myTicket, Read, false)
      requires t !in model.readers
      modifies this
      ensures Valid() && model == Next(old(model), MACHINE, Recheck(t))
      ensures entered == (t in model.readers)
    {
      hide Wrap;
      model := Next(model, MACHINE, Recheck(t));
      if myTicket != nowServing {
        condReaders := condReaders + {t};
        return false;
      }
      MachineWraps(readersActive + 1);
      MachineWraps(nowServing + 1);
      readersActive := Wrap(readersActive + 1, MACHINE.active);
      nowServing := Wrap(nowServing + 1, MACHINE.ticket);
      condReaders := {};
      entered := true;
    }

    method ReadUnlock(t: Tid)
      requires Valid() && Enabled(model, Unlock(t, Read))
      modifies this
      ensures Valid() && model == Next(old(model), MACHINE, Unlock(t, Read))
      ensures readersActive == (old(readersActive) - 1) % 0x1_0000_0000
    {
      hide Wrap;
      MachineWraps(readersActive - 1);
      model := Next(model, MACHINE, Unlock(t, Read));
      readersActive := Wrap(readersActive - 1, MACHINE.active);
      if readersActive == 0 {
        condWriters := {};
      }
    }

    method WriteLock(t: Tid) returns (myTicket: nat, entered: bool)
      requires Valid() && Enabled(model, Arrive(t, Write))
      modifies this
      ensures Valid() && model == Next(old(model), MACHINE, Arrive(t, Write))
      ensures myTicket == old(model).next && entered == (t in model.writers)
      ensures !entered ==> t in model.waiting && model.waiting[t] == Waiter(myTicket, Write, true)
      ensures myTicket == old(nextTicket) && nextTicket == (old(nextTicket) + 1) % 0x1_0000_0000_0000_0000
      ensures readersActive == old(readersActive) && nowServing == old(nowServing)
    {
      hide Wrap;
      model := Next(model, MACHINE, Arrive(t, Write));
      MachineWraps(nextTicket + 1);
      myTicket := nextTicket;
      nextTicket := Wrap(nextTicket + 1, MACHINE.ticket);
      if myTicket != nowServing || readersActive > 0 {
        condWriters := condWriters + {t};
        return myTicket, false;
      }
      entered := true;
    }

    method WriteLockAwake(t: Tid, myTicket: nat) returns (entered: bool)
      requires Valid() && Enabled(model, Recheck(t)) && model.waiting[t] == Waiter(myTicket, Write, false)
      requires t !in model.writers
      modifies this
      ensures Valid() && model == Next(old(model), MACHINE, Recheck(t))
      ensures entered == (t in model.writers)
    {
      hide Wrap;
      model := Next(model, MACHINE, Recheck(t));
      if myTicket != nowServing || readersActive > 0 {
        condWriters := condWriters + {t};
        return false;
      }
      entered := true;
    }

    method WriteUnlock(t: Tid)
      requires Valid() && Enabled(model, Unlock(t, Write))
      modifies this
      ensures Valid() && model == Next(old(model), MACHINE, Unlock(t, Write))
      ensures nowServing == (old(nowServing) + 1) % 0x1_0000_0000_0000_0000
    {
      hide Wrap;
      MachineWraps(nowServing + 1);
      model := Next(model, MACHINE, Unlock(t, Write));
      nowServing := Wrap(nowServing + 1, MACHINE.ticket);
      condReaders := {};
      condWriters := {};
    }
  }

  /** The threads asleep on the condition variable of a mode. */
  ghost function Sleepers(waiting: map<Tid, Waiter>, mode: Mode): set<Tid> {
    set t | t in waiting && waiting[t].asleep && waiting[t].mode == mode
  }

  lemma MachineWraps(n: int)
    ensures Wrap(n, MACHINE.ticket) == n % 0x1_0000_0000_0000_0000
    ensures Wrap(n, MACHINE.active) == n % 0x1_0000_0000
  {
  }
}
