/**
 Whom a wakeup wakes, and in which order threads run: theorems about every run of
 the scheduler, in terms of what the threads asked for and of the queues.
 */
module SchedulerRuns {
  import opened Panics
  import opened Words
  import opened Scheduler

  // ---- what threads and harts have asked for ----------------------------------------------------

  /** The channel of the last Sleep of thread t in the first n steps. */
  ghost function Asked(states: seq<State>, harts: seq<nat>, acts: seq<Act>, n: nat, t: Tid): Option<nat>
    requires n <= |harts| == |acts| && |states| == |harts| + 1
  {
    if n == 0 then None else Asks(states[n - 1], harts[n - 1], acts[n - 1], t, Asked(states, harts, acts, n - 1, t))
  }

  ghost function Asks(s: State, h: nat, a: Act, t: Tid, before: Option<nat>): Option<nat> {
    if h < |s.harts| && s.harts[h].pc == Run(t) && a.Sleep? then Some(a.c) else before
  }

  /** The channel of the last Wake of hart h, by a thread or in an interrupt, in the first n steps. */
  ghost function Called(states: seq<State>, harts: seq<nat>, acts: seq<Act>, n: nat, h: nat): Option<nat>
    requires n <= |harts| == |acts| && |states| == |harts| + 1
  {
    if n == 0 then None else Calls(states[n - 1], harts[n - 1], acts[n - 1], h, Called(states, harts, acts, n - 1, h))
  }

  ghost function Calls(s: State, k: nat, a: Act, h: nat, before: Option<nat>): Option<nat> {
    if k == h && h < |s.harts| && (s.harts[h].pc.Run? || s.harts[h].pc.Idle?) && a.Wake? then Some(a.c) else before
  }

  // ---- one step of one hart ------------------------------------------------------------------------

  /** How a hart comes to the points of sleep and wakeup. */
  ghost predicate Follows(pc: Pc, a: Act, pc': Pc) {
    && (pc'.SleepWait? ==> pc == Run(pc'.t) && a == Sleep(pc'.c))
    && (pc'.SleepIn? ==> pc == SleepWait(pc'.t, pc'.c))
    && (pc'.WakeWait? ==> (pc.Run? || pc.Idle?) && a == Wake(pc'.c))
    && (pc'.WakeScan? ==> (pc.WakeWait? || pc.WakeScan?) && pc.c == pc'.c)
    && (pc'.WakeMove? ==> pc.WakeScan?) && (pc'.WakeIn? ==> pc.WakeMove? && pc.ready == pc'.ready)
  }

  /** Hart h moves on and no other does. */
  ghost predicate HartMoves(s: State, h: nat, a: Act, s': State) {
    && h < |s.harts| == |s'.harts| && Follows(s.harts[h].pc, a, s'.harts[h].pc)
    && forall k {:trigger s'.harts[k]} | 0 <= k < |s.harts| && k != h :: s'.harts[k] == s.harts[k]
  }

  lemma RunMoves(s: State, h: nat, t: Tid, a: Act, s': State)
    requires h < |s.harts| && t in s.threads && s.harts[h].pc == Run(t) && RunStep(s, h, t, a, s')
    ensures HartMoves(s, h, a, s')
  {
  }

  lemma SleepMoves(s: State, h: nat, a: Act, t: Tid, c: nat, s': State)
    requires h < |s.harts| && t in s.threads && (s.harts[h].pc == SleepWait(t, c) || s.harts[h].pc == SleepIn(t, c)) && SleepStep(s, h, t, c, s')
    ensures HartMoves(s, h, a, s')
  {
  }

  lemma WakeMoves(s: State, h: nat, a: Act, s': State)
    requires h < |s.harts| && WakeStep(s, h, s')
    ensures HartMoves(s, h, a, s')
  {
    hide Without;
  }

  lemma ForkMoves(s: State, h: nat, a: Act, s': State)
    requires h < |s.harts| && ForkStep(s, h, s')
    ensures HartMoves(s, h, a, s')
  {
  }

  lemma ExitMoves(s: State, h: nat, a: Act, s': State)
    requires h < |s.harts| && ExitStep(s, h, s')
    ensures HartMoves(s, h, a, s')
  {
  }

  lemma PutBackSame(s: State, last: Option<Tid>)
    ensures PutBack(s, last).harts == s.harts && PutBack(s, last).sleepq == s.sleepq && PutBack(s, last).threads.Keys == s.threads.Keys
    ensures forall t | t in s.threads :: PutBack(s, last).threads[t].chan == s.threads[t].chan
  {
  }

  lemma SwitchMoves(s: State, h: nat, a: Act, s': State)
    requires h < |s.harts| && PickStep(s, h, a, s') && (s.harts[h].pc.Put? || s.harts[h].pc.Take? || s.harts[h].pc.Switched?)
    ensures HartMoves(s, h, a, s')
  {
    hide AllIdle, PutBack;
    if s.harts[h].pc.Put? { PutBackSame(s, s.harts[h].pc.last); }
  }

  lemma LoopMoves(s: State, h: nat, a: Act, s': State)
    requires h < |s.harts| && PickStep(s, h, a, s') && (s.harts[h].pc.Pick? || s.harts[h].pc.Loop? || s.harts[h].pc.Try?)
    ensures HartMoves(s, h, a, s')
  {
    hide AllIdle, PutBack;
  }

  lemma IdleMoves(s: State, h: nat, a: Act, s': State)
    requires h < |s.harts| && PickStep(s, h, a, s') && (s.harts[h].pc.Halting? || s.harts[h].pc.Leave? || s.harts[h].pc.Idle?)
    ensures HartMoves(s, h, a, s')
  {
    hide AllIdle, PutBack;
  }

  lemma PickMoves(s: State, h: nat, a: Act, s': State)
    requires h < |s.harts| && PickStep(s, h, a, s')
    ensures HartMoves(s, h, a, s')
  {
    hide HartMoves, AllIdle, PutBack, At, WithThread;
    match s.harts[h].pc
    case Put(_, _) => SwitchMoves(s, h, a, s');
    case Take => SwitchMoves(s, h, a, s');
    case Switched(_) => SwitchMoves(s, h, a, s');
    case Pick(_, _) => LoopMoves(s, h, a, s');
    case Loop => LoopMoves(s, h, a, s');
    case Try => LoopMoves(s, h, a, s');
    case _ => IdleMoves(s, h, a, s');
  }

  lemma StepMoves(s: State, h: nat, a: Act, s': State)
    requires Step(s, h, a, s')
    ensures HartMoves(s, h, a, s')
  {
    hide NoneHalted, HartMoves, RunStep, SleepStep, WakeStep, ForkStep, ExitStep, PickStep;
    match s.harts[h].pc
    case Run(t) => RunMoves(s, h, t, a, s');
    case SleepWait(t, c) => SleepMoves(s, h, a, t, c, s');
    case SleepIn(t, c) => SleepMoves(s, h, a, t, c, s');
    case WakeWait(_, _) => WakeMoves(s, h, a, s');
    case WakeScan(_, _, _, _) => WakeMoves(s, h, a, s');
    case WakeMove(_, _) => WakeMoves(s, h, a, s');
    case WakeIn(_, _) => WakeMoves(s, h, a, s');
    case ForkWait(_) => ForkMoves(s, h, a, s');
    case ForkTake(_) => ForkMoves(s, h, a, s');
    case ForkNew(_, _) => ForkMoves(s, h, a, s');
    case ForkIn(_, _) => ForkMoves(s, h, a, s');
    case ExitLock(_) => ExitMoves(s, h, a, s');
    case ExitIn(_) => ExitMoves(s, h, a, s');
    case _ => PickMoves(s, h, a, s');
  }

  // ---- sleepers are queued under their own channel ------------------------------------------------

  predicate GoesToSleep(pc: Pc, t: Tid) {
    (pc.SleepWait? || pc.SleepIn?) && pc.t == t
  }

  ghost predicate ChanOk(s: State, t: Tid, asked: Option<nat>) {
    && (t in s.sleepq ==> t in s.threads && asked == Some(s.threads[t].chan))
    && (forall k {:trigger s.harts[k]} | 0 <= k < |s.harts| && GoesToSleep(s.harts[k].pc, t) :: asked == Some(s.harts[k].pc.c))
  }

  ghost predicate Joins(s: State, h: nat, s': State, t: Tid)
    requires t in s'.threads
  {
    h < |s.harts| && s.harts[h].pc.SleepIn? && s.harts[h].pc.t == t && s'.threads[t].chan == s.harts[h].pc.c
  }

  /**
   A step leaves the channel of a queued thread alone, queues only the thread whose
   sleep it is, and takes out only what a wakeup finds under its channel.
   */
  ghost predicate QueuesOwn(s: State, h: nat, s': State, t: Tid) {
    && (t in s'.sleepq ==> t in s'.threads)
    && (t in s'.sleepq && !Joins(s, h, s', t) ==> t in s.sleepq && t in s.threads && s'.threads[t].chan == s.threads[t].chan)
    && (t in s.sleepq && t !in s'.sleepq ==>
          h < |s.harts| && s.harts[h].pc.WakeScan? && t in s.threads && s.threads[t].chan == s.harts[h].pc.c)
  }

  lemma SleeperThere(s: State, t: Tid)
    requires Inv(s) && t in s.sleepq
    ensures t in s.threads && t in s.place && s.place[t] == SleepQ && t !in s.freeq
  {
  }

  lemma RunQueues(s: State, h: nat, t: Tid, a: Act, s': State, x: Tid)
    requires h < |s.harts| && t in s.threads && RunStep(s, h, t, a, s') && (x in s.sleepq ==> x in s.threads)
    ensures QueuesOwn(s, h, s', x)
  {
  }

  lemma SleepQueues(s: State, h: nat, t: Tid, c: nat, s': State, x: Tid)
    requires h < |s.harts| && t in s.threads && (s.harts[h].pc == SleepWait(t, c) || s.harts[h].pc == SleepIn(t, c))
    requires SleepStep(s, h, t, c, s') && (x in s.sleepq ==> x in s.threads)
    ensures QueuesOwn(s, h, s', x)
  {
  }

  lemma WakeQueues(s: State, h: nat, s': State, x: Tid)
    requires h < |s.harts| && WakeStep(s, h, s') && (x in s.sleepq ==> x in s.threads) && NoDup(s.sleepq)
    ensures QueuesOwn(s, h, s', x)
  {
    hide Without, NoDup;
    if s.harts[h].pc.WakeScan? && s.harts[h].pc.rest != [] { WithoutIs(s.sleepq, s.harts[h].pc.rest[0]); }
  }

  lemma ForkQueues(s: State, h: nat, s': State, x: Tid)
    requires h < |s.harts| && ForkStep(s, h, s') && (x in s.sleepq ==> x in s.threads && x !in s.freeq)
    ensures QueuesOwn(s, h, s', x)
  {
    if s.freeq != [] { assert s.freeq[0] in s.freeq; }
  }

  lemma ExitQueues(s: State, h: nat, s': State, x: Tid)
    requires h < |s.harts| && ExitStep(s, h, s') && (x in s.sleepq ==> x in s.threads)
    ensures QueuesOwn(s, h, s', x)
  {
  }

  lemma PickQueues(s: State, h: nat, a: Act, s': State, x: Tid)
    requires h < |s.harts| && PickStep(s, h, a, s') && (x in s.sleepq ==> x in s.threads)
    ensures QueuesOwn(s, h, s', x)
  {
    hide AllIdle, PutBack;
    if s.harts[h].pc.Put? { PutBackSame(s, s.harts[h].pc.last); }
  }

  lemma StepQueues(s: State, h: nat, a: Act, s': State, x: Tid)
    requires Inv(s) && Step(s, h, a, s')
    ensures QueuesOwn(s, h, s', x)
  {
    hide NoneHalted, QueuesOwn, RunStep, SleepStep, WakeStep, ForkStep, ExitStep, PickStep, Inv;
    if x in s.sleepq { SleeperThere(s, x); }
    QueuesHere(s);
    match s.harts[h].pc
    case Run(t) => RunQueues(s, h, t, a, s', x);
    case SleepWait(t, c) => SleepQueues(s, h, t, c, s', x);
    case SleepIn(t, c) => SleepQueues(s, h, t, c, s', x);
    case WakeWait(_, _) => WakeQueues(s, h, s', x);
    case WakeScan(_, _, _, _) => WakeQueues(s, h, s', x);
    case WakeMove(_, _) => WakeQueues(s, h, s', x);
    case WakeIn(_, _) => WakeQueues(s, h, s', x);
    case ForkWait(_) => ForkQueues(s, h, s', x);
    case ForkTake(_) => ForkQueues(s, h, s', x);
    case ForkNew(_, _) => ForkQueues(s, h, s', x);
    case ForkIn(_, _) => ForkQueues(s, h, s', x);
    case ExitLock(_) => ExitQueues(s, h, s', x);
    case ExitIn(_) => ExitQueues(s, h, s', x);
    case _ => PickQueues(s, h, a, s', x);
  }

  /** Only a running thread's Sleep, and the next point of the same call, set a thread on its way to sleep. */
  lemma StepSleeps(s: State, h: nat, a: Act, s': State, t: Tid, k: nat)
    requires HartMoves(s, h, a, s') && k < |s'.harts| && GoesToSleep(s'.harts[k].pc, t)
    ensures || (GoesToSleep(s.harts[k].pc, t) && s.harts[k].pc.c == s'.harts[k].pc.c)
            || (k == h && s.harts[h].pc == Run(t) && a == Sleep(s'.harts[h].pc.c))
  {
  }

  lemma OneSleep(s: State, h: nat, k: nat, t: Tid)
    requires Inv(s) && h < |s.harts| && k < |s.harts| && s.harts[h].pc == Run(t)
    ensures !GoesToSleep(s.harts[k].pc, t) && t !in s.sleepq
  {
    hide QueueOk, ThreadOk;
    assert HartOk(s, h) && HartOk(s, k);
    assert t in Owned(s.harts[h].pc);
    assert GoesToSleep(s.harts[k].pc, t) ==> t in Owned(s.harts[k].pc);
    if t in s.sleepq { SleeperThere(s, t); }
  }

  lemma ChanStep(s: State, h: nat, a: Act, s': State, t: Tid, asked: Option<nat>)
    requires Inv(s) && Step(s, h, a, s') && ChanOk(s, t, asked)
    ensures ChanOk(s', t, Asks(s, h, a, t, asked))
  {
    hide Step, Inv, Follows;
    StepMoves(s, h, a, s');
    StepQueues(s, h, a, s', t);
    var now := Asks(s, h, a, t, asked);
    if t in s'.sleepq && s.harts[h].pc == Run(t) { OneSleep(s, h, h, t); }
    forall k | 0 <= k < |s'.harts| && GoesToSleep(s'.harts[k].pc, t) ensures now == Some(s'.harts[k].pc.c) {
      StepSleeps(s, h, a, s', t, k);
      if s.harts[h].pc == Run(t) { OneSleep(s, h, k, t); }
    }
  }

  lemma {:induction false} ChanRun(states: seq<State>, harts: seq<nat>, acts: seq<Act>, n: nat, t: Tid)
    requires Behaviour(states, harts, acts) && n < |states|
    ensures ChanOk(states[n], t, Asked(states, harts, acts, n, t))
  {
    hide Step, Inv;
    if n > 0 {
      ChanRun(states, harts, acts, n - 1, t);
      RunsKeepInv(states, harts, acts, n - 1);
      assert harts[n - 1] == harts[n - 1];
      ChanStep(states[n - 1], harts[n - 1], acts[n - 1], states[n], t, Asked(states, harts, acts, n - 1, t));
    }
  }

  /** In every run a thread in the sleep queue is there under the channel of its own last Sleep. */
  lemma SleepsOnItsChannel(states: seq<State>, harts: seq<nat>, acts: seq<Act>, n: nat, t: Tid)
    requires Behaviour(states, harts, acts) && n < |states| && t in states[n].sleepq
    ensures t in states[n].threads && Asked(states, harts, acts, n, t) == Some(states[n].threads[t].chan)
  {
    ChanRun(states, harts, acts, n, t);
  }

  // ---- the call of a wakeup ---------------------------------------------------------------------------

  /** The hart is inside wakeup, and the call has not yet given its threads to the run queue. */
  predicate InWake(pc: Pc) {
    pc.WakeScan? || pc.WakeMove? || pc.WakeIn?
  }

  ghost predicate CallOk(s: State, h: nat, called: Option<nat>) {
    h < |s.harts| && (s.harts[h].pc.WakeWait? || s.harts[h].pc.WakeScan?) ==> called == Some(s.harts[h].pc.c)
  }

  lemma CallStep(s: State, k: nat, a: Act, s': State, h: nat, called: Option<nat>)
    requires Step(s, k, a, s') && CallOk(s, h, called)
    ensures CallOk(s', h, Calls(s, k, a, h, called))
  {
    hide Step;
    StepMoves(s, k, a, s');
  }

  lemma {:induction false} CallRun(states: seq<State>, harts: seq<nat>, acts: seq<Act>, n: nat, h: nat)
    requires Behaviour(states, harts, acts) && n < |states|
    ensures CallOk(states[n], h, Called(states, harts, acts, n, h))
  {
    hide Step;
    if n > 0 {
      CallRun(states, harts, acts, n - 1, h);
      assert harts[n - 1] == harts[n - 1];
      CallStep(states[n - 1], harts[n - 1], acts[n - 1], states[n], h, Called(states, harts, acts, n - 1, h));
    }
  }

  /**
   A call of wakeup on hart h: at step i it has the lock of the sleep queue and sees
   the queue, until step j it is at work, and at step j it returns.
   */
  ghost predicate WakeCall(states: seq<State>, harts: seq<nat>, i: nat, j: nat, h: nat) {
    && i < j < |harts| && |states| == |harts| + 1 && harts[i] == harts[j] == h
    && (forall m {:trigger states[m]} | i <= m <= j :: h < |states[m].harts|)
    && states[i].harts[h].pc.WakeWait? && states[i + 1].harts[h].pc.WakeScan?
    && (forall m {:trigger states[m]} | i < m <= j :: InWake(states[m].harts[h].pc))
    && states[j].harts[h].pc.WakeIn?
  }

  /** Thread t, queued under the call's channel when the call began, is on its list or still to be looked at. */
  ghost predicate Coming(s: State, h: nat, t: Tid)
    requires h < |s.harts|
  {
    var pc := s.harts[h].pc;
    t in ReadyOf(pc) || (pc.WakeScan? && t in pc.rest && t in s.threads && s.threads[t].chan == pc.c)
  }

  lemma ScanComing(s: State, h: nat, a: Act, s': State, t: Tid)
    requires Inv(s) && Step(s, h, a, s') && InWake(s.harts[h].pc) && InWake(s'.harts[h].pc) && Coming(s, h, t)
    ensures Coming(s', h, t)
  {
    hide NoneHalted, Inv, Without;
    var pc := s.harts[h].pc;
    if pc.WakeScan? && pc.rest != [] && t in pc.rest { assert pc.rest == [pc.rest[0]] + pc.rest[1..]; }
  }

  lemma RestQueued(s: State, h: nat, t: Tid)
    requires Inv(s) && h < |s.harts| && s.harts[h].pc.WakeScan? && t in s.harts[h].pc.rest
    ensures t in s.sleepq
  {
    assert HartOk(s, h);
  }

  lemma OtherComing(s: State, k: nat, a: Act, s': State, h: nat, t: Tid)
    requires Inv(s) && Inv(s') && Step(s, k, a, s') && k != h && h < |s.harts| && Coming(s, h, t)
    ensures h < |s'.harts| && Coming(s', h, t)
  {
    hide Step, Inv, Follows;
    StepMoves(s, k, a, s');
    StepQueues(s, k, a, s', t);
    if t !in ReadyOf(s.harts[h].pc) {
      RestQueued(s, h, t);
      RestQueued(s', h, t);
      if s.harts[k].pc.SleepIn? && s.harts[k].pc.t == t { Elsewhere(s, k, t); }
    }
  }

  lemma Elsewhere(s: State, k: nat, t: Tid)
    requires Inv(s) && k < |s.harts| && GoesToSleep(s.harts[k].pc, t)
    ensures t !in s.sleepq
  {
    assert HartOk(s, k);
    assert t in Owned(s.harts[k].pc);
  }

  lemma {:induction false} StaysComing(states: seq<State>, harts: seq<nat>, acts: seq<Act>, i: nat, j: nat, h: nat, m: nat, t: Tid)
    requires Behaviour(states, harts, acts) && WakeCall(states, harts, i, j, h) && i < m <= j && Coming(states[i + 1], h, t)
    ensures Coming(states[m], h, t)
    decreases m
  {
    hide Step, Inv, Coming;
    if m > i + 1 {
      StaysComing(states, harts, acts, i, j, h, m - 1, t);
      RunsKeepInv(states, harts, acts, m - 1);
      RunsKeepInv(states, harts, acts, m);
      assert harts[m - 1] == harts[m - 1];
      if harts[m - 1] == h {
        ScanComing(states[m - 1], h, acts[m - 1], states[m], t);
      } else {
        OtherComing(states[m - 1], harts[m - 1], acts[m - 1], states[m], h, t);
      }
    }
  }

  lemma FoundQueue(s: State, h: nat, a: Act, s': State, t: Tid)
    requires Step(s, h, a, s') && s.harts[h].pc.WakeWait? && t in s.sleepq && t in s.threads && s.threads[t].chan == s.harts[h].pc.c
    ensures Coming(s', h, t)
  {
    hide NoneHalted;
  }

  lemma GivesReady(s: State, h: nat, a: Act, s': State, t: Tid)
    requires Step(s, h, a, s') && s.harts[h].pc.WakeIn? && t in ReadyOf(s.harts[h].pc)
    ensures t in s'.runq
  {
    hide NoneHalted;
  }

  lemma InOneQueue(s: State, t: Tid)
    requires Inv(s) && t in s.runq
    ensures t !in s.sleepq
  {
  }

  /**
   When a wakeup returns, every thread that was in the sleep queue it found and had
   last asked to sleep on its channel has left that queue and is in the run queue.
   */
  lemma WakesAll(states: seq<State>, harts: seq<nat>, acts: seq<Act>, i: nat, j: nat, h: nat, t: Tid)
    requires Behaviour(states, harts, acts) && WakeCall(states, harts, i, j, h)
    requires t in states[i].sleepq && Asked(states, harts, acts, i, t) == Called(states, harts, acts, i, h)
    ensures t in states[j + 1].runq && t !in states[j + 1].sleepq
  {
    hide Step, Inv, Init;
    SleepsOnItsChannel(states, harts, acts, i, t);
    CallRun(states, harts, acts, i, h);
    assert harts[i] == h && harts[j] == h;
    FoundQueue(states[i], h, acts[i], states[i + 1], t);
    StaysComing(states, harts, acts, i, j, h, j, t);
    GivesReady(states[j], h, acts[j], states[j + 1], t);
    RunsKeepInv(states, harts, acts, j + 1);
    InOneQueue(states[j + 1], t);
  }

  /** Whatever leaves the sleep queue in any step of any run had last asked for the channel of the wakeup that takes it. */
  lemma WakesOnlyItsChannel(states: seq<State>, harts: seq<nat>, acts: seq<Act>, m: nat, t: Tid)
    requires Behaviour(states, harts, acts) && m < |harts| && t in states[m].sleepq && t !in states[m + 1].sleepq
    ensures harts[m] < |states[m].harts| && states[m].harts[harts[m]].pc.WakeScan?
    ensures Asked(states, harts, acts, m, t) == Called(states, harts, acts, m, harts[m])
  {
    hide Step, Inv, Init;
    assert harts[m] == harts[m];
    RunsKeepInv(states, harts, acts, m);
    SleepsOnItsChannel(states, harts, acts, m, t);
    CallRun(states, harts, acts, m, harts[m]);
    StepQueues(states[m], harts[m], acts[m], states[m + 1], t);
  }

  // ---- the run queue ------------------------------------------------------------------------------------

  /** The run queue grows at its end, and shrinks at its head when that thread gets the hart. */
  ghost predicate InOrder(s: State, h: nat, s': State) {
    if h < |s.harts| == |s'.harts| && s.harts[h].pc.Take?
    then s.runq != [] && s'.runq == s.runq[1..] && s'.harts[h].pc == Switched(s.runq[0])
    else s.runq <= s'.runq
  }

  lemma RunOrder(s: State, h: nat, t: Tid, a: Act, s': State)
    requires h < |s.harts| && t in s.threads && s.harts[h].pc == Run(t) && RunStep(s, h, t, a, s')
    ensures InOrder(s, h, s')
  {
  }

  lemma SleepOrder(s: State, h: nat, t: Tid, c: nat, s': State)
    requires h < |s.harts| && t in s.threads && (s.harts[h].pc == SleepWait(t, c) || s.harts[h].pc == SleepIn(t, c)) && SleepStep(s, h, t, c, s')
    ensures InOrder(s, h, s')
  {
  }

  lemma WakeOrder(s: State, h: nat, s': State)
    requires h < |s.harts| && WakeStep(s, h, s')
    ensures InOrder(s, h, s')
  {
    hide Without;
  }

  lemma ForkOrder(s: State, h: nat, s': State)
    requires h < |s.harts| && ForkStep(s, h, s')
    ensures InOrder(s, h, s')
  {
  }

  lemma ExitOrder(s: State, h: nat, s': State)
    requires h < |s.harts| && ExitStep(s, h, s')
    ensures InOrder(s, h, s')
  {
  }

  lemma PickOrder(s: State, h: nat, a: Act, s': State)
    requires h < |s.harts| && PickStep(s, h, a, s')
    ensures InOrder(s, h, s')
  {
    hide AllIdle;
  }

  lemma StepOrder(s: State, h: nat, a: Act, s': State)
    requires Step(s, h, a, s')
    ensures h < |s.harts| && InOrder(s, h, s')
  {
    hide NoneHalted, InOrder, RunStep, SleepStep, WakeStep, ForkStep, ExitStep, PickStep;
    match s.harts[h].pc
    case Run(t) => RunOrder(s, h, t, a, s');
    case SleepWait(t, c) => SleepOrder(s, h, t, c, s');
    case SleepIn(t, c) => SleepOrder(s, h, t, c, s');
    case WakeWait(_, _) => WakeOrder(s, h, s');
    case WakeScan(_, _, _, _) => WakeOrder(s, h, s');
    case WakeMove(_, _) => WakeOrder(s, h, s');
    case WakeIn(_, _) => WakeOrder(s, h, s');
    case ForkWait(_) => ForkOrder(s, h, s');
    case ForkTake(_) => ForkOrder(s, h, s');
    case ForkNew(_, _) => ForkOrder(s, h, s');
    case ForkIn(_, _) => ForkOrder(s, h, s');
    case ExitLock(_) => ExitOrder(s, h, s');
    case ExitIn(_) => ExitOrder(s, h, s');
    case _ => PickOrder(s, h, a, s');
  }

  /** How many threads were taken from the run queue in steps i to j - 1. */
  ghost function Taken(states: seq<State>, harts: seq<nat>, i: nat, j: nat): nat
    requires i <= j <= |harts| <= |states|
    decreases j
  {
    if j == i then 0
    else
      var s, h := states[j - 1], harts[j - 1];
      Taken(states, harts, i, j - 1) + if h < |s.harts| && s.harts[h].pc.Take? then 1 else 0
  }

  /** While a thread is in the run queue, its position is what it was less the number of threads taken since. */
  lemma {:induction false} KeepsTurn(states: seq<State>, harts: seq<nat>, acts: seq<Act>, i: nat, j: nat, p: nat)
    requires Behaviour(states, harts, acts) && i <= j <= |harts| && p < |states[i].runq|
    requires forall m {:trigger states[m]} | i <= m <= j :: states[i].runq[p] in states[m].runq
    ensures 0 <= p - Taken(states, harts, i, j) < |states[j].runq|
    ensures states[j].runq[p - Taken(states, harts, i, j)] == states[i].runq[p]
    decreases j
  {
    hide Step, Inv, Init, InOrder, HartMoves;
    if i < j {
      KeepsTurn(states, harts, acts, i, j - 1, p);
      assert harts[j - 1] == harts[j - 1];
      TurnStep(states, harts, acts, j - 1, p - Taken(states, harts, i, j - 1));
    }
  }

  /**
   Threads run in the order of the queue: when a thread leaves it, exactly those that
   were ahead of it have been taken before, and it is the one that gets the hart.
   */
  lemma RunsInTurn(states: seq<State>, harts: seq<nat>, acts: seq<Act>, i: nat, j: nat, p: nat)
    requires Behaviour(states, harts, acts) && i <= j < |harts| && p < |states[i].runq|
    requires forall m {:trigger states[m]} | i <= m <= j :: states[i].runq[p] in states[m].runq
    requires states[i].runq[p] !in states[j + 1].runq
    ensures Taken(states, harts, i, j) == p && Taken(states, harts, i, j + 1) == p + 1
    ensures harts[j] < |states[j + 1].harts| && states[j + 1].harts[harts[j]].pc == Switched(states[i].runq[p])
  {
    hide Step, Inv, Init, Follows;
    KeepsTurn(states, harts, acts, i, j, p);
    assert harts[j] == harts[j];
    StepOrder(states[j], harts[j], acts[j], states[j + 1]);
    StepMoves(states[j], harts[j], acts[j], states[j + 1]);
    LeavesFirst(states[j], harts[j], states[j + 1], p - Taken(states, harts, i, j));
  }

  lemma TurnStep(states: seq<State>, harts: seq<nat>, acts: seq<Act>, m: nat, k: nat)
    requires Behaviour(states, harts, acts) && m < |harts| && k < |states[m].runq| && states[m].runq[k] in states[m + 1].runq
    ensures harts[m] < |states[m].harts|
    ensures var k' := if states[m].harts[harts[m]].pc.Take? then k - 1 else k;
            0 <= k' < |states[m + 1].runq| && states[m + 1].runq[k'] == states[m].runq[k]
  {
    hide Step, Inv, Init, Follows;
    assert harts[m] == harts[m];
    StepOrder(states[m], harts[m], acts[m], states[m + 1]);
    StepMoves(states[m], harts[m], acts[m], states[m + 1]);
    RunsKeepInv(states, harts, acts, m);
    QueuesHere(states[m]);
    var q := states[m].runq;
    assert q == [q[0]] + q[1..] && q[0] !in q[1..];
  }

  lemma LeavesFirst(s: State, h: nat, s': State, k: nat)
    requires h < |s.harts| == |s'.harts| && InOrder(s, h, s') && k < |s.runq|
    ensures s.runq[k] !in s'.runq ==> k == 0 && s.harts[h].pc.Take? && s'.harts[h].pc == Switched(s.runq[0])
  {
    assert !s.harts[h].pc.Take? ==> s'.runq[k] == s.runq[k];
    assert s.harts[h].pc.Take? && k > 0 ==> s'.runq[k - 1] == s.runq[k];
  }

  // ---- no hart is stuck -----------------------------------------------------------------------------------

  /** Thread t is locked by some hart. */
  ghost predicate Locked(s: State, t: Tid) {
    t in s.threads && s.threads[t].lock.Some?
  }

  /** The hart needs a lock that is taken; or it forks and no thread is free. */
  ghost predicate Waits(s: State, h: nat)
    requires h < |s.harts|
  {
    var pc := s.harts[h].pc;
    || ((pc.SleepWait? || pc.WakeWait?) && s.sl.Some?) || ((pc.ForkWait? || pc.ExitLock?) && s.fl.Some?)
    || ((pc.WakeMove? || pc.ForkNew? || pc.Pick? || pc.Idle?) && s.rl.Some?)
    || (pc.WakeScan? && pc.rest != [] && Locked(s, pc.rest[0]))
    || (pc.ForkTake? && (s.freeq == [] || Locked(s, s.freeq[0])))
  }

  ghost predicate CanStep(s: State, h: nat) {
    exists a, s' :: Step(s, h, a, s')
  }

  ghost predicate CanDo(s: State, h: nat, a: Act) {
    exists s' :: Step(s, h, a, s')
  }

  /** Whoever holds the lock of a thread has it, or has just given it up to the sleep queue or the free queue. */
  lemma HolderOwns(s: State, t: Tid)
    requires Inv(s) && Locked(s, t)
    ensures var k := s.threads[t].lock.value;
            && k < |s.harts| && t in Held(s.harts[k].pc) && t in s.place
            && (s.place[t] == On(k) || ((s.harts[k].pc.Pick? || s.harts[k].pc.Put?) && (s.place[t] == SleepQ || s.place[t] == FreeQ)))
  {
    hide QueueOk;
    assert ThreadOk(s, t);
    var k := s.threads[t].lock.value;
    assert HartOk(s, k);
    assert t in Owned(s.harts[k].pc) || (s.harts[k].pc.Pick? && s.harts[k].pc.why != Yielded) || (s.harts[k].pc.Put? && s.harts[k].pc.why != Yielded);
  }

  lemma OwnUnlocked(s: State, h: nat, t: Tid)
    requires Inv(s) && h < |s.harts| && t in Owned(s.harts[h].pc) && t !in Held(s.harts[h].pc)
    ensures t in s.threads && s.threads[t].lock.None?
  {
    hide QueueOk;
    assert HartOk(s, h);
    if Locked(s, t) { HolderOwns(s, t); }
  }

  lemma HeadUnlocked(s: State)
    requires Inv(s) && s.runq != []
    ensures s.runq[0] in s.threads && s.threads[s.runq[0]].lock.None?
  {
    assert s.runq[0] in s.runq;
    assert ThreadOk(s, s.runq[0]);
  }

  lemma RunCanStep(s: State, h: nat, a: Act)
    requires Inv(s) && NoneHalted(s) && h < |s.harts| && s.harts[h].pc.Run? && a != Go
    ensures CanDo(s, h, a)
  {
    hide Inv, NoneHalted;
    var t := s.harts[h].pc.t;
    assert t in Owned(s.harts[h].pc);
    OwnUnlocked(s, h, t);
    var s' := match a
      case Yield => At(WithThread(s, t, Thread(Runnable, Some(h), s.threads[t].chan), On(h)), h, Pick(Some(t), Yielded))
      case Sleep(c) => At(s, h, SleepWait(t, c))
      case Wake(c) => At(s, h, WakeWait(Some(t), c))
      case Fork => At(s, h, ForkWait(t))
      case Exit => At(WithThread(s, t, Thread(Unused, Some(h), s.threads[t].chan), On(h)), h, ExitLock(t))
      case Go => s;
    assert RunStep(s, h, t, a, s');
    assert Step(s, h, a, s');
  }

  lemma SleepCanStep(s: State, h: nat)
    requires Inv(s) && NoneHalted(s) && h < |s.harts| && !Waits(s, h) && (s.harts[h].pc.SleepWait? || s.harts[h].pc.SleepIn?)
    ensures CanStep(s, h)
  {
    hide Inv, NoneHalted;
    var t, c := s.harts[h].pc.t, s.harts[h].pc.c;
    assert t in Owned(s.harts[h].pc);
    OwnUnlocked(s, h, t);
    var s' := if s.harts[h].pc.SleepWait? then At(s.(sl := Some(h)), h, SleepIn(t, c))
      else At(WithThread(s, t, Thread(Sleeping, Some(h), c), SleepQ).(sleepq := [t] + s.sleepq, sl := None), h, Pick(Some(t), Slept));
    assert Step(s, h, Go, s');
  }

  lemma ScanCanStep(s: State, h: nat)
    requires Inv(s) && NoneHalted(s) && h < |s.harts| && !Waits(s, h) && s.harts[h].pc.WakeScan?
    ensures CanStep(s, h)
  {
    var pc := s.harts[h].pc;
    if pc.rest != [] {
      var t := pc.rest[0];
      assert t in pc.rest;
      RestQueued(s, h, t);
      SleeperThere(s, t);
    }
    hide Inv, NoneHalted, Without;
    var s' := if pc.rest == [] then At(s, h, WakeMove(pc.who, pc.ready))
      else if s.threads[pc.rest[0]].chan == pc.c then
        At(WithThread(s, pc.rest[0], s.threads[pc.rest[0]].(status := Runnable), Ready(h)).(sleepq := Without(s.sleepq, pc.rest[0])),
           h, WakeScan(pc.who, pc.c, pc.rest[1..], pc.ready + [pc.rest[0]]))
      else At(s, h, WakeScan(pc.who, pc.c, pc.rest[1..], pc.ready));
    assert Step(s, h, Go, s');
  }

  lemma WakeCanStep(s: State, h: nat)
    requires Inv(s) && NoneHalted(s) && h < |s.harts| && !Waits(s, h) && (s.harts[h].pc.WakeWait? || s.harts[h].pc.WakeMove? || s.harts[h].pc.WakeIn?)
    ensures CanStep(s, h)
  {
    hide Inv, NoneHalted;
    var s' := match s.harts[h].pc
      case WakeWait(who, c) => At(s.(sl := Some(h)), h, WakeScan(who, c, s.sleepq, []))
      case WakeMove(who, ready) => At(s.(sl := None, rl := Some(h)), h, WakeIn(who, ready))
      case WakeIn(who, ready) => At(s.(rl := None, runq := s.runq + ready, place := AllRun(s.place, ready)), h, After(who))
      case _ => s;
    assert Step(s, h, Go, s');
  }

  lemma ForkCanStep(s: State, h: nat)
    requires Inv(s) && NoneHalted(s) && h < |s.harts| && !Waits(s, h)
    requires s.harts[h].pc.ForkWait? || s.harts[h].pc.ForkTake? || s.harts[h].pc.ForkNew? || s.harts[h].pc.ForkIn?
    ensures CanStep(s, h)
  {
    assert HartOk(s, h);
    if s.harts[h].pc.ForkIn? { assert s.harts[h].pc.child in Owned(s.harts[h].pc); }
    if s.harts[h].pc.ForkTake? { assert s.freeq[0] in s.freeq; }
    hide Inv, NoneHalted, HartOk;
    var s' := match s.harts[h].pc
      case ForkWait(t) => At(s.(fl := Some(h)), h, ForkTake(t))
      case ForkTake(t) => At(WithThread(s, s.freeq[0], Thread(Used, Some(h), 0), On(h)).(freeq := s.freeq[1..], fl := None), h, ForkNew(t, s.freeq[0]))
      case ForkNew(t, child) => At(s.(rl := Some(h)), h, ForkIn(t, child))
      case ForkIn(t, child) => At(WithThread(s, child, Thread(Runnable, None, s.threads[child].chan), RunQ).(runq := s.runq + [child], rl := None), h, Run(t))
      case _ => s;
    assert Step(s, h, Go, s');
  }

  lemma ExitCanStep(s: State, h: nat)
    requires Inv(s) && NoneHalted(s) && h < |s.harts| && !Waits(s, h) && (s.harts[h].pc.ExitLock? || s.harts[h].pc.ExitIn?)
    ensures CanStep(s, h)
  {
    hide Inv, NoneHalted;
    var t := s.harts[h].pc.t;
    var s' := if s.harts[h].pc.ExitLock? then At(s.(fl := Some(h)), h, ExitIn(t))
      else At(s.(freeq := s.freeq + [t], fl := None, place := s.place[t := FreeQ]), h, Pick(Some(t), Exited));
    assert Step(s, h, Go, s');
  }

  predicate Picks(pc: Pc) {
    pc.Pick? || pc.Put? || pc.Loop? || pc.Try? || pc.Halting? || pc.Leave? || pc.Idle?
  }

  lemma LoopCanStep(s: State, h: nat)
    requires Inv(s) && NoneHalted(s) && h < |s.harts| && !Waits(s, h) && Picks(s.harts[h].pc)
    ensures CanStep(s, h)
  {
    hide Inv, NoneHalted, AllIdle, PutBack;
    if s.harts[h].pc.Put? { PutBackSame(s, s.harts[h].pc.last); }
    var s' := match s.harts[h].pc
      case Pick(last, why) => At(s.(rl := Some(h)), h, Put(last, why))
      case Put(last, why) => At(PutBack(s, last), h, Loop)
      case Loop => if s.runq == [] then s.(harts := s.harts[h := Hart(Try, true)]) else s.(harts := s.harts[h := Hart(Take, false)])
      case Try => if s.sl.None? then At(s.(sl := Some(h)), h, Halting) else At(s, h, Leave)
      case Halting => if s.sleepq == [] && AllIdle(s) then At(s, h, Halted) else At(s.(sl := None), h, Leave)
      case Leave => At(s.(rl := None), h, Idle)
      case Idle => At(s.(rl := Some(h)), h, Loop)
      case _ => s;
    assert Step(s, h, Go, s');
  }

  lemma TakeCanStep(s: State, h: nat)
    requires Inv(s) && NoneHalted(s) && h < |s.harts| && (s.harts[h].pc.Take? || s.harts[h].pc.Switched?)
    ensures CanStep(s, h)
  {
    assert HartOk(s, h);
    if s.harts[h].pc.Take? { HeadUnlocked(s); } else { assert s.harts[h].pc.t in Owned(s.harts[h].pc); }
    hide Inv, NoneHalted;
    var s' := match s.harts[h].pc
      case Take => At(WithThread(s, s.runq[0], Thread(Running, Some(h), s.threads[s.runq[0]].chan), On(h)).(runq := s.runq[1..], rl := None),
                      h, Switched(s.runq[0]))
      case Switched(t) => At(s.(threads := s.threads[t := s.threads[t].(lock := None)]), h, Run(t))
      case _ => s;
    assert Step(s, h, Go, s');
  }

  /** As long as the machine has not halted, every hart has a next step, or waits for a lock or for a free thread. */
  lemma NotStuck(states: seq<State>, harts: seq<nat>, acts: seq<Act>, n: nat, h: nat)
    requires Behaviour(states, harts, acts) && n < |states| && h < |states[n].harts| && NoneHalted(states[n])
    ensures !Waits(states[n], h) ==> CanStep(states[n], h)
    ensures states[n].harts[h].pc.Run? ==> forall a | a != Go :: CanDo(states[n], h, a)
  {
    hide Step, Inv, Init, Waits;
    RunsKeepInv(states, harts, acts, n);
    var s := states[n];
    if s.harts[h].pc.Run? {
      forall a | a != Go ensures CanDo(s, h, a) { RunCanStep(s, h, a); }
    }
    if !Waits(s, h) { CanMove(s, h); }
  }

  lemma CanMove(s: State, h: nat)
    requires Inv(s) && NoneHalted(s) && h < |s.harts| && !Waits(s, h)
    ensures CanStep(s, h)
  {
    hide Inv, Step, Waits;
    match s.harts[h].pc
    case Run(_) => RunCanStep(s, h, Yield);
    case SleepWait(_, _) => SleepCanStep(s, h);
    case SleepIn(_, _) => SleepCanStep(s, h);
    case WakeScan(_, _, _, _) => ScanCanStep(s, h);
    case WakeWait(_, _) => WakeCanStep(s, h);
    case WakeMove(_, _) => WakeCanStep(s, h);
    case WakeIn(_, _) => WakeCanStep(s, h);
    case ForkWait(_) => ForkCanStep(s, h);
    case ForkTake(_) => ForkCanStep(s, h);
    case ForkNew(_, _) => ForkCanStep(s, h);
    case ForkIn(_, _) => ForkCanStep(s, h);
    case ExitLock(_) => ExitCanStep(s, h);
    case ExitIn(_) => ExitCanStep(s, h);
    case Take => TakeCanStep(s, h);
    case Switched(_) => TakeCanStep(s, h);
    case Halted =>
    case _ => LoopCanStep(s, h);
  }

  /** A fork that finds no free thread is an error in td_alloc, and nothing follows. */
  ghost predicate OutOfThreads(s: State) {
    s.freeq == [] && exists h :: 0 <= h < |s.harts| && s.harts[h].pc.ForkTake?
  }

  lemma RunLockMoves(s: State)
    requires Inv(s) && NoneHalted(s) && s.rl.Some?
    ensures s.rl.value < |s.harts| && !Waits(s, s.rl.value)
  {
    assert LocksOk(s);
  }

  /** The lock of a thread that sleeps or is free is held by a hart that waits for nothing but the run queue. */
  lemma GivenUpBy(s: State, t: Tid) returns (k: nat)
    requires Inv(s) && s.rl.None? && Locked(s, t) && (t in s.sleepq || t in s.freeq)
    ensures k < |s.harts| && !Waits(s, k)
  {
    HolderOwns(s, t);
    k := s.threads[t].lock.value;
    assert HartOk(s, k);
  }

  /** With the run queue's lock free, whoever holds the sleep queue's lock can go on, or waits for one who can. */
  lemma SleepLockMoves(s: State) returns (k: nat)
    requires Inv(s) && NoneHalted(s) && s.rl.None? && s.sl.Some?
    ensures k < |s.harts| && !Waits(s, k)
  {
    k := s.sl.value;
    assert LocksOk(s) && HartOk(s, k);
    if Waits(s, k) {
      var t := s.harts[k].pc.rest[0];
      assert t in s.harts[k].pc.rest;
      RestQueued(s, k, t);
      k := GivenUpBy(s, t);
    }
  }

  lemma FreeLockMoves(s: State) returns (k: nat)
    requires Inv(s) && NoneHalted(s) && s.rl.None? && s.fl.Some? && !OutOfThreads(s)
    ensures k < |s.harts| && !Waits(s, k)
  {
    k := s.fl.value;
    assert LocksOk(s);
    if Waits(s, k) {
      assert s.harts[k].pc.ForkTake?;
      assert s.freeq[0] in s.freeq;
      k := GivenUpBy(s, s.freeq[0]);
    }
  }

  lemma SomeoneMoves(s: State, h: nat) returns (k: nat)
    requires Inv(s) && NoneHalted(s) && h < |s.harts| && !OutOfThreads(s)
    ensures k < |s.harts| && !Waits(s, k)
  {
    k := h;
    if s.rl.Some? {
      RunLockMoves(s);
      k := s.rl.value;
    } else if s.sl.Some? {
      k := SleepLockMoves(s);
    } else if s.fl.Some? {
      k := FreeLockMoves(s);
    } else if Waits(s, h) {
      assert LocksOk(s) && HartOk(s, h);
    }
  }

  /** There is no deadlock: in every reachable state some hart has a next step, until the machine halts or runs out of threads. */
  lemma NoDeadlock(states: seq<State>, harts: seq<nat>, acts: seq<Act>, n: nat) returns (k: nat)
    requires Behaviour(states, harts, acts) && n < |states| && |states[n].harts| > 0 && NoneHalted(states[n]) && !OutOfThreads(states[n])
    ensures CanStep(states[n], k)
  {
    hide Step, Inv, Init, Waits, OutOfThreads;
    RunsKeepInv(states, harts, acts, n);
    k := SomeoneMoves(states[n], 0);
    CanMove(states[n], k);
  }

  // ---- the halt -------------------------------------------------------------------------------------------

  /** A hart past the point where it found nothing to run, or in an interrupt that came then. */
  predicate FoundNothing(pc: Pc) {
    IdlePc(pc) && !pc.Loop? && !pc.Halted?
  }

  ghost predicate SaysIdle(hart: Hart) {
    FoundNothing(hart.pc) ==> hart.idle
  }

  lemma RunSays(s: State, h: nat, t: Tid, a: Act, s': State)
    requires h < |s.harts| && t in s.threads && s.harts[h].pc == Run(t) && RunStep(s, h, t, a, s')
    ensures h < |s'.harts| && SaysIdle(s'.harts[h])
  {
  }

  lemma SleepSays(s: State, h: nat, t: Tid, c: nat, s': State)
    requires h < |s.harts| && t in s.threads && SleepStep(s, h, t, c, s')
    ensures h < |s'.harts| && SaysIdle(s'.harts[h])
  {
  }

  lemma WakeSays(s: State, h: nat, s': State)
    requires h < |s.harts| && WakeStep(s, h, s') && SaysIdle(s.harts[h])
    ensures h < |s'.harts| && SaysIdle(s'.harts[h])
  {
    hide Without;
  }

  lemma ForkSays(s: State, h: nat, s': State)
    requires h < |s.harts| && ForkStep(s, h, s')
    ensures h < |s'.harts| && SaysIdle(s'.harts[h])
  {
  }

  lemma ExitSays(s: State, h: nat, s': State)
    requires h < |s.harts| && ExitStep(s, h, s')
    ensures h < |s'.harts| && SaysIdle(s'.harts[h])
  {
  }

  lemma PickSays(s: State, h: nat, a: Act, s': State)
    requires h < |s.harts| && PickStep(s, h, a, s') && SaysIdle(s.harts[h])
    ensures h < |s'.harts| && SaysIdle(s'.harts[h])
  {
    hide AllIdle, PutBack;
    if s.harts[h].pc.Put? { PutBackSame(s, s.harts[h].pc.last); }
  }

  lemma StepSays(s: State, h: nat, a: Act, s': State)
    requires Step(s, h, a, s') && SaysIdle(s.harts[h])
    ensures h < |s'.harts| && SaysIdle(s'.harts[h])
  {
    hide NoneHalted, SaysIdle, RunStep, SleepStep, WakeStep, ForkStep, ExitStep, PickStep;
    match s.harts[h].pc
    case Run(t) => RunSays(s, h, t, a, s');
    case SleepWait(t, c) => SleepSays(s, h, t, c, s');
    case SleepIn(t, c) => SleepSays(s, h, t, c, s');
    case WakeWait(_, _) => WakeSays(s, h, s');
    case WakeScan(_, _, _, _) => WakeSays(s, h, s');
    case WakeMove(_, _) => WakeSays(s, h, s');
    case WakeIn(_, _) => WakeSays(s, h, s');
    case ForkWait(_) => ForkSays(s, h, s');
    case ForkTake(_) => ForkSays(s, h, s');
    case ForkNew(_, _) => ForkSays(s, h, s');
    case ForkIn(_, _) => ForkSays(s, h, s');
    case ExitLock(_) => ExitSays(s, h, s');
    case ExitIn(_) => ExitSays(s, h, s');
    case _ => PickSays(s, h, a, s');
  }

  lemma {:induction false} AllSay(states: seq<State>, harts: seq<nat>, acts: seq<Act>, n: nat, h: nat)
    requires Behaviour(states, harts, acts) && n < |states| && h < |states[n].harts|
    ensures SaysIdle(states[n].harts[h])
  {
    hide Step, Follows, SaysIdle;
    if n == 0 {
      SaysAtStart(states[0], h);
    } else {
      assert harts[n - 1] == harts[n - 1];
      StepMoves(states[n - 1], harts[n - 1], acts[n - 1], states[n]);
      AllSay(states, harts, acts, n - 1, h);
      if h == harts[n - 1] { StepSays(states[n - 1], h, acts[n - 1], states[n]); }
    }
  }

  lemma SaysAtStart(s: State, h: nat)
    requires Init(s) && h < |s.harts|
    ensures SaysIdle(s.harts[h])
  {
  }

  /**
   The decision to halt is exact: a hart that has both queues' locks halts the machine
   if and only if no thread sleeps and every hart has found nothing to run.
   */
  lemma HaltsExactly(states: seq<State>, harts: seq<nat>, acts: seq<Act>, n: nat)
    requires Behaviour(states, harts, acts) && n < |harts| && harts[n] < |states[n].harts| && states[n].harts[harts[n]].pc == Halting
    ensures harts[n] < |states[n + 1].harts|
    ensures states[n + 1].harts[harts[n]].pc == Halted <==>
            states[n].sleepq == [] && forall k | 0 <= k < |states[n].harts| :: FoundNothing(states[n].harts[k].pc)
  {
    hide Init, Inv;
    var s, h := states[n], harts[n];
    assert harts[n] == h && Step(s, h, acts[n], states[n + 1]);
    RunsKeepInv(states, harts, acts, n);
    forall k | 0 <= k < |s.harts| ensures s.harts[k].idle <==> FoundNothing(s.harts[k].pc) {
      AllSay(states, harts, acts, n, k);
      IdleFound(s, h, k);
    }
  }

  lemma IdleFound(s: State, h: nat, k: nat)
    requires Inv(s) && h < |s.harts| && k < |s.harts| && s.harts[h].pc == Halting && SaysIdle(s.harts[k])
    ensures s.harts[k].idle <==> FoundNothing(s.harts[k].pc)
  {
    assert HartOk(s, h) && HartOk(s, k);
  }
}
