/**
 The scheduler as harts interleave in it (kern/proc/sched.c, kern/proc/sleep.c,
 kern/proc/thread.c): run queue, sleep queue and free queue with their locks, a
 lock per thread, and the decision to halt.  A step is what one hart does between
 two points at which another hart could be noticed.
 */
module Scheduler {
  import opened Panics
  import opened Words

  type Tid = nat

  datatype Status = Unused | Used | Runnable | Running | Sleeping

  datatype Thread = Thread(status: Status, lock: Option<nat>, chan: nat)

  /** Why a thread gave up its hart. */
  datatype Why = Yielded | Slept | Exited

  /** Where a hart stands.  who is the thread that runs the code, or None in an interrupt of an idle hart. */
  datatype Pc =
    | Run(t: Tid)
    | SleepWait(t: Tid, c: nat)
    | SleepIn(t: Tid, c: nat)
    | WakeWait(who: Option<Tid>, c: nat)
    | WakeScan(who: Option<Tid>, c: nat, rest: seq<Tid>, ready: seq<Tid>)
    | WakeMove(who: Option<Tid>, ready: seq<Tid>)
    | WakeIn(who: Option<Tid>, ready: seq<Tid>)
    | ForkWait(t: Tid)
    | ForkTake(t: Tid)
    | ForkNew(t: Tid, child: Tid)
    | ForkIn(t: Tid, child: Tid)
    | ExitLock(t: Tid)
    | ExitIn(t: Tid)
    | Pick(last: Option<Tid>, why: Why)
    | Put(last: Option<Tid>, why: Why)
    | Loop
    | Try
    | Halting
    | Leave
    | Idle
    | Take
    | Switched(t: Tid)
    | Halted

  datatype Hart = Hart(pc: Pc, idle: bool)

  /** The one place a thread is in. */
  datatype Place = FreeQ | RunQ | SleepQ | Ready(h: nat) | On(h: nat)

  datatype State = State(
    threads: map<Tid, Thread>,
    freeq: seq<Tid>,
    runq: seq<Tid>,
    sleepq: seq<Tid>,
    fl: Option<nat>,
    rl: Option<nat>,
    sl: Option<nat>,
    harts: seq<Hart>,
    place: map<Tid, Place>)

  /** What a running thread may do next, or what interrupts an idle hart. */
  datatype Act = Go | Yield | Sleep(c: nat) | Wake(c: nat) | Fork | Exit

  // ---- what a hart holds ---------------------------------------------------------------------

  predicate HoldsRun(pc: Pc) {
    pc.ForkIn? || pc.WakeIn? || pc.Put? || pc.Loop? || pc.Try? || pc.Halting? || pc.Leave? || pc.Take? || pc.Halted?
  }

  predicate HoldsSleep(pc: Pc) {
    pc.SleepIn? || pc.WakeScan? || pc.WakeMove? || pc.Halting? || pc.Halted?
  }

  predicate HoldsFree(pc: Pc) {
    pc.ForkTake? || pc.ExitIn?
  }

  function OptSet(o: Option<Tid>): set<Tid> {
    if o.None? then {} else {o.value}
  }

  /** The threads whose locks the hart holds. */
  function Held(pc: Pc): set<Tid> {
    match pc
    case ForkNew(_, child) => {child}
    case ForkIn(_, child) => {child}
    case ExitLock(t) => {t}
    case ExitIn(t) => {t}
    case Pick(last, _) => OptSet(last)
    case Put(last, _) => OptSet(last)
    case Switched(t) => {t}
    case _ => {}
  }

  /** The threads that are with the hart and in no queue. */
  function Owned(pc: Pc): set<Tid> {
    match pc
    case Run(t) => {t}
    case SleepWait(t, _) => {t}
    case SleepIn(t, _) => {t}
    case WakeWait(who, _) => OptSet(who)
    case WakeScan(who, _, _, _) => OptSet(who)
    case WakeMove(who, _) => OptSet(who)
    case WakeIn(who, _) => OptSet(who)
    case ForkWait(t) => {t}
    case ForkTake(t) => {t}
    case ForkNew(t, child) => {t, child}
    case ForkIn(t, child) => {t, child}
    case ExitLock(t) => {t}
    case ExitIn(t) => {t}
    case Pick(last, why) => if why == Yielded then OptSet(last) else {}
    case Put(last, why) => if why == Yielded then OptSet(last) else {}
    case Switched(t) => {t}
    case _ => {}
  }

  /** wakeup's list of threads on their way to the run queue. */
  function ReadyOf(pc: Pc): seq<Tid> {
    match pc
    case WakeScan(_, _, _, ready) => ready
    case WakeMove(_, ready) => ready
    case WakeIn(_, ready) => ready
    case _ => []
  }

  /** The status of a thread that is with the hart. */
  function StatusOn(pc: Pc, t: Tid): Status {
    match pc
    case ForkNew(_, child) => if t == child then Used else Running
    case ForkIn(_, child) => if t == child then Used else Running
    case ExitLock(_) => Unused
    case ExitIn(_) => Unused
    case Pick(_, _) => Runnable
    case Put(_, _) => Runnable
    case _ => Running
  }

  // ---- the steps -------------------------------------------------------------------------------

  ghost function At(s: State, h: nat, pc: Pc): State
    requires h < |s.harts|
  {
    s.(harts := s.harts[h := s.harts[h].(pc := pc)])
  }

  ghost function WithThread(s: State, t: Tid, th: Thread, p: Place): State {
    s.(threads := s.threads[t := th], place := s.place[t := p])
  }

  function Without(q: seq<Tid>, t: Tid): seq<Tid> {
    if q == [] then [] else if q[0] == t then q[1..] else [q[0]] + Without(q[1..], t)
  }

  ghost predicate AllIdle(s: State) {
    forall h {:trigger s.harts[h]} | 0 <= h < |s.harts| :: s.harts[h].idle
  }

  /** What a running thread starts. */
  ghost predicate RunStep(s: State, h: nat, t: Tid, a: Act, s': State)
    requires h < |s.harts| && t in s.threads
  {
    match a
    case Go => false
    case Yield =>
      s.threads[t].lock.None? &&
      s' == At(WithThread(s, t, Thread(Runnable, Some(h), s.threads[t].chan), On(h)), h, Pick(Some(t), Yielded))
    case Sleep(c) => s' == At(s, h, SleepWait(t, c))
    case Wake(c) => s' == At(s, h, WakeWait(Some(t), c))
    case Fork => s' == At(s, h, ForkWait(t))
    case Exit =>
      s.threads[t].lock.None? &&
      s' == At(WithThread(s, t, Thread(Unused, Some(h), s.threads[t].chan), On(h)), h, ExitLock(t))
  }

  /** sleep, after the caller's lock: the sleep queue is locked before that lock is given up. */
  ghost predicate SleepStep(s: State, h: nat, t: Tid, c: nat, s': State)
    requires h < |s.harts| && t in s.threads
  {
    if s.harts[h].pc.SleepWait? then s.sl.None? && s' == At(s.(sl := Some(h)), h, SleepIn(t, c))
    else
      s.threads[t].lock.None? &&
      s' == At(WithThread(s, t, Thread(Sleeping, Some(h), c), SleepQ).(sleepq := [t] + s.sleepq, sl := None), h, Pick(Some(t), Slept))
  }

  /** One thread of the sleep queue is looked at, under its lock. */
  ghost predicate ScanStep(s: State, h: nat, who: Option<Tid>, c: nat, rest: seq<Tid>, ready: seq<Tid>, s': State)
    requires h < |s.harts|
  {
    if rest == [] then s' == At(s, h, WakeMove(who, ready))
    else
      var t := rest[0];
      t in s.threads && s.threads[t].lock.None? &&
      if s.threads[t].chan == c then
        s' == At(WithThread(s, t, s.threads[t].(status := Runnable), Ready(h)).(sleepq := Without(s.sleepq, t)),
                 h, WakeScan(who, c, rest[1..], ready + [t]))
      else s' == At(s, h, WakeScan(who, c, rest[1..], ready))
  }

  ghost function AllRun(place: map<Tid, Place>, ready: seq<Tid>): map<Tid, Place> {
    map t | t in place :: if t in ready then RunQ else place[t]
  }

  /** Where wakeup returns to. */
  function After(who: Option<Tid>): Pc {
    if who.None? then Idle else Run(who.value)
  }

  ghost predicate WakeStep(s: State, h: nat, s': State)
    requires h < |s.harts|
  {
    match s.harts[h].pc
    case WakeWait(who, c) => s.sl.None? && s' == At(s.(sl := Some(h)), h, WakeScan(who, c, s.sleepq, []))
    case WakeScan(who, c, rest, ready) => ScanStep(s, h, who, c, rest, ready, s')
    case WakeMove(who, ready) =>
      // the run queue is locked before the sleep queue is released
      s.rl.None? && s' == At(s.(sl := None, rl := Some(h)), h, WakeIn(who, ready))
    case WakeIn(who, ready) =>
      s' == At(s.(rl := None, runq := s.runq + ready, place := AllRun(s.place, ready)), h, After(who))
    case _ => false
  }

  ghost predicate ForkStep(s: State, h: nat, s': State)
    requires h < |s.harts|
  {
    match s.harts[h].pc
    case ForkWait(t) => s.fl.None? && s' == At(s.(fl := Some(h)), h, ForkTake(t))
    case ForkTake(t) =>
      s.freeq != [] && s.freeq[0] in s.threads && s.threads[s.freeq[0]].lock.None? &&
      s' == At(WithThread(s, s.freeq[0], Thread(Used, Some(h), 0), On(h)).(freeq := s.freeq[1..], fl := None), h, ForkNew(t, s.freeq[0]))
    case ForkNew(t, child) => s.rl.None? && s' == At(s.(rl := Some(h)), h, ForkIn(t, child))
    case ForkIn(t, child) =>
      child in s.threads &&
      s' == At(WithThread(s, child, Thread(Runnable, None, s.threads[child].chan), RunQ).(runq := s.runq + [child], rl := None), h, Run(t))
    case _ => false
  }

  ghost predicate ExitStep(s: State, h: nat, s': State)
    requires h < |s.harts|
  {
    match s.harts[h].pc
    case ExitLock(t) => s.fl.None? && s' == At(s.(fl := Some(h)), h, ExitIn(t))
    case ExitIn(t) => s' == At(s.(freeq := s.freeq + [t], fl := None, place := s.place[t := FreeQ]), h, Pick(Some(t), Exited))
    case _ => false
  }

  /** The last thread goes back to the run queue if it is still runnable; its lock is released. */
  ghost function PutBack(s: State, last: Option<Tid>): State {
    if last.None? || last.value !in s.threads then s
    else
      var th := s.threads[last.value];
      if th.status == Runnable then WithThread(s, last.value, th.(lock := None), RunQ).(runq := s.runq + [last.value])
      else s.(threads := s.threads[last.value := th.(lock := None)])
  }

  /** sched_runnable */
  ghost predicate PickStep(s: State, h: nat, a: Act, s': State)
    requires h < |s.harts|
  {
    match s.harts[h].pc
    case Pick(last, why) => s.rl.None? && s' == At(s.(rl := Some(h)), h, Put(last, why))
    case Put(last, why) => s' == At(PutBack(s, last), h, Loop)
    case Loop =>
      if s.runq == [] then s' == s.(harts := s.harts[h := Hart(Try, true)])
      else s' == s.(harts := s.harts[h := Hart(Take, false)])
    case Try => s' == if s.sl.None? then At(s.(sl := Some(h)), h, Halting) else At(s, h, Leave)
    case Halting =>
      if s.sleepq == [] && AllIdle(s) then s' == At(s, h, Halted) else s' == At(s.(sl := None), h, Leave)
    case Leave => s' == At(s.(rl := None), h, Idle)
    case Idle =>
      if a.Wake? then s' == At(s, h, WakeWait(None, a.c)) else s.rl.None? && s' == At(s.(rl := Some(h)), h, Loop)
    case Take =>
      s.runq != [] && s.runq[0] in s.threads && s.threads[s.runq[0]].lock.None? &&
      s' == At(WithThread(s, s.runq[0], Thread(Running, Some(h), s.threads[s.runq[0]].chan), On(h)).(runq := s.runq[1..], rl := None),
               h, Switched(s.runq[0]))
    case Switched(t) =>
      t in s.threads && s' == At(s.(threads := s.threads[t := s.threads[t].(lock := None)]), h, Run(t))
    case _ => false
  }

  ghost predicate NoneHalted(s: State) {
    forall h {:trigger s.harts[h]} | 0 <= h < |s.harts| :: !s.harts[h].pc.Halted?
  }

  /** One step of hart h; after a halt there are no more. */
  ghost predicate Step(s: State, h: nat, a: Act, s': State) {
    h < |s.harts| && NoneHalted(s) &&
    match s.harts[h].pc
    case Run(t) => t in s.threads && RunStep(s, h, t, a, s')
    case SleepWait(t, c) => t in s.threads && SleepStep(s, h, t, c, s')
    case SleepIn(t, c) => t in s.threads && SleepStep(s, h, t, c, s')
    case WakeWait(_, _) => WakeStep(s, h, s')
    case WakeScan(_, _, _, _) => WakeStep(s, h, s')
    case WakeMove(_, _) => WakeStep(s, h, s')
    case WakeIn(_, _) => WakeStep(s, h, s')
    case ForkWait(_) => ForkStep(s, h, s')
    case ForkTake(_) => ForkStep(s, h, s')
    case ForkNew(_, _) => ForkStep(s, h, s')
    case ForkIn(_, _) => ForkStep(s, h, s')
    case ExitLock(_) => ExitStep(s, h, s')
    case ExitIn(_) => ExitStep(s, h, s')
    case Halted => false
    case _ => PickStep(s, h, a, s')
  }

  // ---- the invariant ---------------------------------------------------------------------------

  /** A queue holds exactly the threads whose place it is, each once. */
  ghost predicate QueueOk(s: State, q: seq<Tid>, p: Place) {
    NoDup(q) && forall t {:trigger t in q} :: t in q <==> t in s.place && s.place[t] == p
  }

  predicate IdlePc(pc: Pc) {
    match pc
    case Loop => true
    case Try => true
    case Halting => true
    case Leave => true
    case Idle => true
    case Halted => true
    case WakeWait(who, _) => who.None?
    case WakeScan(who, _, _, _) => who.None?
    case WakeMove(who, _) => who.None?
    case WakeIn(who, _) => who.None?
    case _ => false
  }

  /** The thread a hart has just given up, still locked, where its status says it is. */
  ghost predicate LastOk(s: State, last: Option<Tid>, why: Why) {
    last.Some? ==>
      && last.value in s.threads && last.value in s.place
      && (why == Slept ==> s.place[last.value] == SleepQ && s.threads[last.value].status == Sleeping)
      && (why == Exited ==> s.place[last.value] == FreeQ && s.threads[last.value].status == Unused)
  }

  ghost predicate PcOk(s: State, pc: Pc) {
    match pc
    case WakeScan(_, _, rest, _) => NoDup(rest) && forall t {:trigger t in rest} | t in rest :: t in s.place && s.place[t] == SleepQ
    case ForkNew(t, child) => t != child
    case ForkIn(t, child) => t != child
    case Pick(last, why) => LastOk(s, last, why)
    case Put(last, why) => LastOk(s, last, why)
    case Try => s.runq == []
    case Halting => s.runq == []
    case Take => s.runq != []
    case Halted => forall t {:trigger s.place[t]} | t in s.place :: s.place[t] == FreeQ
    case _ => true
  }

  ghost predicate HartOk(s: State, h: nat)
    requires h < |s.harts|
  {
    var pc := s.harts[h].pc;
    && (forall t {:trigger t in Owned(pc)} | t in Owned(pc) ::
          t in s.threads && t in s.place && s.place[t] == On(h) && s.threads[t].status == StatusOn(pc, t))
    && NoDup(ReadyOf(pc)) && (forall t {:trigger t in ReadyOf(pc)} | t in ReadyOf(pc) :: t in s.place && s.place[t] == Ready(h))
    && (forall t {:trigger t in Held(pc)} | t in Held(pc) :: t in s.threads && s.threads[t].lock == Some(h))
    && (HoldsRun(pc) ==> s.rl == Some(h)) && (HoldsSleep(pc) ==> s.sl == Some(h)) && (HoldsFree(pc) ==> s.fl == Some(h))
    && (s.harts[h].idle ==> IdlePc(pc)) && PcOk(s, pc)
  }

  ghost predicate ThreadOk(s: State, t: Tid)
    requires t in s.threads && t in s.place
  {
    && (match s.place[t]
        case FreeQ => s.threads[t].status == Unused
        case RunQ => s.threads[t].status == Runnable && s.threads[t].lock.None?
        case SleepQ => s.threads[t].status == Sleeping
        case Ready(h) => s.threads[t].status == Runnable && s.threads[t].lock.None? && h < |s.harts| && t in ReadyOf(s.harts[h].pc)
        case On(h) => h < |s.harts| && t in Owned(s.harts[h].pc))
    && (s.threads[t].lock.Some? ==> s.threads[t].lock.value < |s.harts| && t in Held(s.harts[s.threads[t].lock.value].pc))
  }

  ghost predicate LocksOk(s: State) {
    && (s.rl.Some? ==> s.rl.value < |s.harts| && HoldsRun(s.harts[s.rl.value].pc))
    && (s.sl.Some? ==> s.sl.value < |s.harts| && HoldsSleep(s.harts[s.sl.value].pc))
    && (s.fl.Some? ==> s.fl.value < |s.harts| && HoldsFree(s.harts[s.fl.value].pc))
  }

  ghost predicate Inv(s: State) {
    && s.place.Keys == s.threads.Keys && LocksOk(s)
    && QueueOk(s, s.freeq, FreeQ) && QueueOk(s, s.runq, RunQ) && QueueOk(s, s.sleepq, SleepQ)
    && (forall h: nat {:trigger HartOk(s, h)} | h < |s.harts| :: HartOk(s, h))
    && (forall t {:trigger ThreadOk(s, t)} | t in s.threads :: ThreadOk(s, t))
  }

  /** All threads free, no hart started: the state after thread_init. */
  ghost predicate Init(s: State) {
    && s.place.Keys == s.threads.Keys && s.fl.None? && s.rl.None? && s.sl.None?
    && (forall t {:trigger s.threads[t]} | t in s.threads :: s.threads[t].lock.None?)
    && (forall t {:trigger s.place[t]} | t in s.threads :: if t in s.runq then s.place[t] == RunQ && s.threads[t].status == Runnable
                                                            else s.place[t] == FreeQ && s.threads[t].status == Unused)
    && s.sleepq == [] && QueueOk(s, s.freeq, FreeQ) && QueueOk(s, s.runq, RunQ)
    && (forall h {:trigger s.harts[h]} | 0 <= h < |s.harts| :: s.harts[h] == Hart(Pick(None, Yielded), false))
  }

  /** The parts of the invariant that a step of hart h starts from. */
  lemma Here(s: State, h: nat)
    requires Inv(s) && h < |s.harts|
    ensures s.place.Keys == s.threads.Keys && HartOk(s, h) && HartRest(s, h)
  {
  }

  lemma ThreadHere(s: State, t: Tid)
    requires Inv(s) && t in s.threads
    ensures t in s.place && ThreadOk(s, t)
  {
  }

  lemma QueuesHere(s: State)
    requires Inv(s)
    ensures QueueOk(s, s.freeq, FreeQ) && QueueOk(s, s.runq, RunQ) && QueueOk(s, s.sleepq, SleepQ)
  {
  }

  lemma InitInv(s: State)
    requires Init(s)
    ensures Inv(s)
  {
    forall h: nat | h < |s.harts| ensures HartOk(s, h) {
      assert s.harts[h] == Hart(Pick(None, Yielded), false);
    }
    forall t | t in s.threads ensures ThreadOk(s, t) {
      assert s.threads[t].lock.None?;
      assert s.place[t] == s.place[t];
    }
    assert QueueOk(s, s.sleepq, SleepQ);
  }

  // ---- steps that only take or release a queue's lock --------------------------------------------

  /** Between s and s' hart h has moved and locks may have changed hands; threads and queues are as before. */
  ghost predicate OnlyHart(s: State, h: nat, s': State) {
    && h < |s.harts| == |s'.harts| && s'.threads == s.threads && s'.place == s.place
    && s'.freeq == s.freeq && s'.runq == s.runq && s'.sleepq == s.sleepq
    && forall k: nat {:trigger s'.harts[k]} | k < |s.harts| && k != h :: s'.harts[k] == s.harts[k]
  }

  /** A lock that changes goes to h or is given up by it. */
  predicate LockBy(a: Option<nat>, h: nat, b: Option<nat>) {
    a != b ==> (a.None? || a == Some(h)) && (b.None? || b == Some(h))
  }

  ghost predicate LocksBy(s: State, h: nat, s': State) {
    LockBy(s.rl, h, s'.rl) && LockBy(s.sl, h, s'.sl) && LockBy(s.fl, h, s'.fl)
  }

  lemma LocksMove(s: State, h: nat, s': State)
    requires LocksOk(s) && h < |s.harts| == |s'.harts| && LocksBy(s, h, s') && HartRest(s', h)
    requires forall k: nat {:trigger s'.harts[k]} | k < |s.harts| && k != h :: s'.harts[k] == s.harts[k]
    ensures LocksOk(s')
  {
    hide HoldsRun, HoldsSleep, HoldsFree, PcOk, NoDup, IdlePc;
  }

  /** The parts of HartOk that do not speak of single threads. */
  ghost predicate HartRest(s: State, h: nat)
    requires h < |s.harts|
  {
    var pc := s.harts[h].pc;
    && NoDup(ReadyOf(pc)) && (HoldsRun(pc) <==> s.rl == Some(h)) && (HoldsSleep(pc) <==> s.sl == Some(h))
    && (HoldsFree(pc) <==> s.fl == Some(h)) && (s.harts[h].idle ==> IdlePc(pc)) && PcOk(s, pc)
  }

  ghost predicate SameStatus(a: Pc, b: Pc) {
    forall t {:trigger StatusOn(b, t)} | t in Owned(a) && t in Owned(b) :: StatusOn(b, t) == StatusOn(a, t)
  }

  lemma MoveHart(s: State, h: nat, s': State)
    requires Inv(s) && OnlyHart(s, h, s') && LocksBy(s, h, s') && HartRest(s', h)
    requires Owned(s'.harts[h].pc) == Owned(s.harts[h].pc) && ReadyOf(s'.harts[h].pc) == ReadyOf(s.harts[h].pc)
    requires Held(s'.harts[h].pc) == Held(s.harts[h].pc) && SameStatus(s.harts[h].pc, s'.harts[h].pc)
    ensures Inv(s')
  {
    assert HartOk(s, h);
    var a, b := s.harts[h].pc, s'.harts[h].pc;
    forall t | t in Owned(b)
      ensures t in s'.threads && t in s'.place && s'.place[t] == On(h) && s'.threads[t].status == StatusOn(b, t)
    {
      assert t in Owned(a);
    }
    forall t | t in Held(b) ensures t in s'.threads && s'.threads[t].lock == Some(h) {
      assert t in Held(a);
    }
    assert HartOk(s', h);
    LocksMove(s, h, s');
    forall k: nat | k < |s'.harts| ensures HartOk(s', k) {
      if k != h { OtherHart(s, h, s', k); }
    }
    forall t | t in s'.threads ensures ThreadOk(s', t) {
      assert ThreadOk(s, t);
    }
  }

  lemma OtherHart(s: State, h: nat, s': State, k: nat)
    requires Inv(s) && OnlyHart(s, h, s') && LocksBy(s, h, s') && k < |s.harts| && k != h
    ensures HartOk(s', k)
  {
    assert HartOk(s, k);
    assert s'.harts[k] == s.harts[k];
  }

  // ---- steps that move one thread ------------------------------------------------------------------

  /** Between s and s' hart h has moved and thread t has changed; each queue changes only under its lock. */
  ghost predicate OneThread(s: State, h: nat, s': State, t: Tid) {
    && h < |s.harts| == |s'.harts| && t in s.threads && t in s.place && t in s'.threads && t in s'.place
    && s'.threads == s.threads[t := s'.threads[t]] && s'.place == s.place[t := s'.place[t]]
    && (forall k: nat {:trigger s'.harts[k]} | k < |s.harts| && k != h :: s'.harts[k] == s.harts[k])
    && (s'.runq != s.runq ==> s.rl == Some(h))
    && (s.place[t] == SleepQ && s'.place[t] != SleepQ ==> s.sl == Some(h))
  }

  /** Thread t is with hart h or in a queue, and nobody else holds its lock. */
  ghost predicate Mine(s: State, h: nat, t: Tid)
    requires t in s.threads && t in s.place
  {
    && (s.place[t].On? ==> s.place[t].h == h) && (s.place[t].Ready? ==> s.place[t].h == h)
    && (s.threads[t].lock.Some? ==> s.threads[t].lock.value == h)
  }

  ghost predicate SameBut(a: Pc, b: Pc, t: Tid) {
    && (forall u {:trigger u in Owned(b)} {:trigger u in Owned(a)} | u != t :: u in Owned(a) <==> u in Owned(b))
    && (forall u {:trigger u in ReadyOf(b)} {:trigger u in ReadyOf(a)} | u != t :: u in ReadyOf(a) <==> u in ReadyOf(b))
    && (forall u {:trigger u in Held(b)} {:trigger u in Held(a)} | u != t :: u in Held(a) <==> u in Held(b))
  }

  lemma KeepHart(s: State, h: nat, s': State, t: Tid, k: nat)
    requires Inv(s) && NoneHalted(s) && OneThread(s, h, s', t) && LocksBy(s, h, s') && Mine(s, h, t) && k < |s.harts| && k != h
    ensures HartOk(s', k)
  {
    assert HartOk(s, k);
    assert s'.harts[k] == s.harts[k];
    var pc := s.harts[k].pc;
    forall u | u in Owned(pc) ensures u != t && u in s'.threads && u in s'.place && s'.place[u] == On(k) { }
    forall u | u in ReadyOf(pc) ensures u != t && u in s'.place && s'.place[u] == Ready(k) { }
    forall u | u in Held(pc) ensures u != t && u in s'.threads && s'.threads[u].lock == Some(k) { }
    assert PcOk(s', pc) by {
      match pc
      case Pick(last, why) => assert last.Some? ==> last.value in Held(pc);
      case Put(last, why) => assert last.Some? ==> last.value in Held(pc);
      case _ =>
    }
  }

  /** What hart h now says of thread t is true of it. */
  ghost predicate Fits(s: State, h: nat, t: Tid)
    requires h < |s.harts| && t in s.threads && t in s.place
  {
    var pc := s.harts[h].pc;
    && (t in Owned(pc) ==> s.place[t] == On(h) && s.threads[t].status == StatusOn(pc, t))
    && (t in ReadyOf(pc) ==> s.place[t] == Ready(h)) && (t in Held(pc) ==> s.threads[t].lock == Some(h))
  }

  lemma MovedHart(s: State, h: nat, s': State, t: Tid)
    requires Inv(s) && OneThread(s, h, s', t) && SameBut(s.harts[h].pc, s'.harts[h].pc, t)
    requires SameStatus(s.harts[h].pc, s'.harts[h].pc) || Owned(s'.harts[h].pc) <= {t}
    requires HartRest(s', h) && Fits(s', h, t)
    ensures HartOk(s', h)
  {
    hide PcOk, ThreadOk;
    assert HartOk(s, h);
    var a, b := s.harts[h].pc, s'.harts[h].pc;
    forall u | u in Owned(b)
      ensures u in s'.threads && u in s'.place && s'.place[u] == On(h) && s'.threads[u].status == StatusOn(b, u)
    {
      if u != t { assert u in Owned(a); }
    }
    forall u | u in Held(b) ensures u in s'.threads && s'.threads[u].lock == Some(h) {
      if u != t { assert u in Held(a); }
    }
    forall u | u in ReadyOf(b) ensures u in s'.place && s'.place[u] == Ready(h) {
      if u != t { assert u in ReadyOf(a); }
    }
  }

  /** Hart h moves thread t, and nothing that another hart relies on. */
  ghost predicate Moves(s: State, h: nat, s': State, t: Tid) {
    && OneThread(s, h, s', t) && LocksBy(s, h, s') && Mine(s, h, t) && SameBut(s.harts[h].pc, s'.harts[h].pc, t)
    && (SameStatus(s.harts[h].pc, s'.harts[h].pc) || Owned(s'.harts[h].pc) <= {t})
  }

  /** Hart h and thread t are in order afterwards. */
  ghost predicate Settled(s: State, h: nat, t: Tid) {
    h < |s.harts| && t in s.threads && t in s.place && HartRest(s, h) && Fits(s, h, t) && ThreadOk(s, t)
  }

  lemma MoveThread(s: State, h: nat, s': State, t: Tid)
    requires Inv(s) && NoneHalted(s) && Moves(s, h, s', t) && Settled(s', h, t)
    requires QueueOk(s', s'.freeq, FreeQ) && QueueOk(s', s'.runq, RunQ) && QueueOk(s', s'.sleepq, SleepQ)
    ensures Inv(s')
  {
    hide PcOk, QueueOk;
    MovedHart(s, h, s', t);
    LocksMove(s, h, s');
    forall k: nat | k < |s'.harts| ensures HartOk(s', k) {
      if k != h { KeepHart(s, h, s', t, k); }
    }
    forall u | u in s'.threads ensures ThreadOk(s', u) {
      if u != t { assert ThreadOk(s, u); }
    }
  }

  // ---- queues ---------------------------------------------------------------------------------------

  lemma QueueSame(s: State, s': State, q: seq<Tid>, p: Place, t: Tid)
    requires QueueOk(s, q, p) && t in s.place && t in s'.place && s'.place == s.place[t := s'.place[t]]
    requires s.place[t] != p && s'.place[t] != p
    ensures QueueOk(s', q, p)
  {
  }

  lemma QueueKeeps(s: State, s': State, q: seq<Tid>, p: Place, t: Tid)
    requires QueueOk(s, q, p) && t in s.place && s'.place == s.place
    ensures QueueOk(s', q, p)
  {
  }

  lemma QueueAdd(s: State, s': State, q: seq<Tid>, p: Place, t: Tid)
    requires QueueOk(s, q, p) && t in s.place && t in s'.place && s'.place == s.place[t := s'.place[t]]
    requires s.place[t] != p && s'.place[t] == p
    ensures QueueOk(s', q + [t], p) && QueueOk(s', [t] + q, p)
  {
    assert t !in q;
    forall i, j | 0 <= i < j < |[t] + q| ensures ([t] + q)[i] != ([t] + q)[j] {
      assert ([t] + q)[j] in q;
    }
  }

  lemma QueueHead(s: State, s': State, q: seq<Tid>, p: Place)
    requires q != [] && QueueOk(s, q, p) && q[0] in s'.place && s'.place == s.place[q[0] := s'.place[q[0]]]
    requires s'.place[q[0]] != p
    ensures QueueOk(s', q[1..], p) && q[0] in s.place && s.place[q[0]] == p
  {
    assert q[0] in q;
    assert q == [q[0]] + q[1..];
    forall t ensures t in q[1..] <==> t in s'.place && s'.place[t] == p {
      assert t in q <==> t == q[0] || t in q[1..];
      assert q[0] !in q[1..];
    }
  }

  lemma {:induction false} WithoutIs(q: seq<Tid>, t: Tid)
    requires NoDup(q)
    ensures NoDup(Without(q, t)) && forall u {:trigger u in Without(q, t)} :: u in Without(q, t) <==> u in q && u != t
  {
    if q != [] {
      assert q == [q[0]] + q[1..];
      assert forall i | 0 <= i < |q[1..]| :: q[1..][i] == q[i + 1];
      WithoutIs(q[1..], t);
      assert q[0] !in q[1..];
      if q[0] != t {
        var r := Without(q[1..], t);
        assert Without(q, t) == [q[0]] + r;
        forall i, j | 0 <= i < j < |[q[0]] + r| ensures ([q[0]] + r)[i] != ([q[0]] + r)[j] {
          assert ([q[0]] + r)[j] in r;
        }
      }
    }
  }

  lemma QueueWithout(s: State, s': State, q: seq<Tid>, p: Place, t: Tid)
    requires QueueOk(s, q, p) && t in s'.place && s'.place == s.place[t := s'.place[t]] && s'.place[t] != p
    ensures QueueOk(s', Without(q, t), p)
  {
    WithoutIs(q, t);
  }

  // ---- every step keeps the invariant ---------------------------------------------------------------

  /** A thread that is with its hart leaves no queue. */
  lemma QueuesSame(s: State, s': State, t: Tid)
    requires t in s.place && t in s'.place && s'.place == s.place[t := s'.place[t]]
    requires (s.place[t].On? || s.place[t].Ready?) && (s'.place[t].On? || s'.place[t].Ready?)
    requires QueueOk(s, s.freeq, FreeQ) && QueueOk(s, s.runq, RunQ) && QueueOk(s, s.sleepq, SleepQ)
    requires s'.freeq == s.freeq && s'.runq == s.runq && s'.sleepq == s.sleepq
    ensures QueueOk(s', s'.freeq, FreeQ) && QueueOk(s', s'.runq, RunQ) && QueueOk(s', s'.sleepq, SleepQ)
  {
    QueueSame(s, s', s.freeq, FreeQ, t);
    QueueSame(s, s', s.runq, RunQ, t);
    QueueSame(s, s', s.sleepq, SleepQ, t);
  }

  lemma RunInv(s: State, h: nat, t: Tid, a: Act, s': State)
    requires Inv(s) && NoneHalted(s) && h < |s.harts| && s.harts[h].pc == Run(t) && t in s.threads && RunStep(s, h, t, a, s')
    ensures Inv(s')
  {
    hide Inv, NoneHalted;
    if a.Yield? || a.Exit? {
      GiveUpInv(s, h, t, a, s');
    } else {
      Here(s, h);
      MoveHart(s, h, s');
    }
  }

  /** yield and td_destroy take the thread's own lock first. */
  lemma GiveUpInv(s: State, h: nat, t: Tid, a: Act, s': State)
    requires Inv(s) && NoneHalted(s) && h < |s.harts| && s.harts[h].pc == Run(t) && t in s.threads && RunStep(s, h, t, a, s')
    requires a.Yield? || a.Exit?
    ensures Inv(s')
  {
    hide Inv, QueueOk, NoneHalted, Moves, Settled, RunStep;
    GiveUpMoves(s, h, t, a, s');
    GiveUpSettled(s, h, t, a, s');
    GiveUpQueues(s, h, t, a, s');
    MoveThread(s, h, s', t);
  }

  lemma GiveUpMoves(s: State, h: nat, t: Tid, a: Act, s': State)
    requires Inv(s) && h < |s.harts| && s.harts[h].pc == Run(t) && t in s.threads && RunStep(s, h, t, a, s') && (a.Yield? || a.Exit?)
    ensures Moves(s, h, s', t)
  {
    hide Inv;
    Here(s, h);
    ThreadHere(s, t);
    assert t in Owned(s.harts[h].pc);
  }

  lemma GiveUpSettled(s: State, h: nat, t: Tid, a: Act, s': State)
    requires Inv(s) && h < |s.harts| && s.harts[h].pc == Run(t) && t in s.threads && RunStep(s, h, t, a, s') && (a.Yield? || a.Exit?)
    ensures Settled(s', h, t)
  {
    hide Inv;
    Here(s, h);
    ThreadHere(s, t);
    assert t in Owned(s.harts[h].pc);
  }

  lemma GiveUpQueues(s: State, h: nat, t: Tid, a: Act, s': State)
    requires Inv(s) && h < |s.harts| && s.harts[h].pc == Run(t) && t in s.threads && RunStep(s, h, t, a, s') && (a.Yield? || a.Exit?)
    ensures QueueOk(s', s'.freeq, FreeQ) && QueueOk(s', s'.runq, RunQ) && QueueOk(s', s'.sleepq, SleepQ)
  {
    hide Inv, QueueOk;
    Here(s, h);
    QueuesHere(s);
    assert t in Owned(s.harts[h].pc);
    QueuesSame(s, s', t);
  }

  lemma SleepInv(s: State, h: nat, t: Tid, c: nat, s': State)
    requires Inv(s) && NoneHalted(s) && h < |s.harts| && t in s.threads
    requires (s.harts[h].pc == SleepWait(t, c) || s.harts[h].pc == SleepIn(t, c)) && SleepStep(s, h, t, c, s')
    ensures Inv(s')
  {
    hide Inv, QueueOk, NoneHalted;
    Here(s, h);
    ThreadHere(s, t);
    QueuesHere(s);
    assert t in Owned(s.harts[h].pc);
    if s.harts[h].pc.SleepWait? {
      MoveHart(s, h, s');
    } else {
      QueueSame(s, s', s.freeq, FreeQ, t);
      QueueSame(s, s', s.runq, RunQ, t);
      QueueAdd(s, s', s.sleepq, SleepQ, t);
      MoveThread(s, h, s', t);
    }
  }

  lemma ScanInv(s: State, h: nat, who: Option<Tid>, c: nat, rest: seq<Tid>, ready: seq<Tid>, s': State)
    requires Inv(s) && NoneHalted(s) && h < |s.harts| && s.harts[h].pc == WakeScan(who, c, rest, ready)
    requires ScanStep(s, h, who, c, rest, ready, s')
    ensures Inv(s')
  {
    hide Inv, NoneHalted;
    Here(s, h);
    if rest != [] && s.threads[rest[0]].chan == c {
      ScanHit(s, h, who, c, rest, ready, s');
    } else {
      if rest != [] { Rest(rest); }
      MoveHart(s, h, s');
    }
  }

  lemma Rest(q: seq<Tid>)
    requires NoDup(q) && q != []
    ensures NoDup(q[1..]) && q[0] in q && q[0] !in q[1..] && forall u {:trigger u in q[1..]} | u in q[1..] :: u in q
  {
    assert q == [q[0]] + q[1..];
    assert forall i | 0 <= i < |q[1..]| :: q[1..][i] == q[i + 1];
  }

  /** wakeup finds a thread on its channel: under both locks it goes from the sleep queue to the ready list. */
  lemma ScanHit(s: State, h: nat, who: Option<Tid>, c: nat, rest: seq<Tid>, ready: seq<Tid>, s': State)
    requires Inv(s) && NoneHalted(s) && h < |s.harts| && s.harts[h].pc == WakeScan(who, c, rest, ready)
    requires rest != [] && rest[0] in s.threads && s.threads[rest[0]].chan == c && ScanStep(s, h, who, c, rest, ready, s')
    ensures Inv(s')
  {
    hide QueueOk, NoneHalted, Without;
    assert HartOk(s, h);
    var t := rest[0];
    Rest(rest);
    assert ThreadOk(s, t);
    ReadyMore(s, h, ready, t);
    assert t !in Owned(s.harts[h].pc) && Owned(s'.harts[h].pc) == Owned(s.harts[h].pc);
    QueueSame(s, s', s.freeq, FreeQ, t);
    QueueSame(s, s', s.runq, RunQ, t);
    QueueWithout(s, s', s.sleepq, SleepQ, t);
    MoveThread(s, h, s', t);
  }

  lemma ReadyMore(s: State, h: nat, ready: seq<Tid>, t: Tid)
    requires NoDup(ready) && t in s.place && s.place[t] == SleepQ && forall u {:trigger u in ready} | u in ready :: u in s.place && s.place[u] == Ready(h)
    ensures NoDup(ready + [t]) && t !in ready
  {
  }

  lemma ForkInv(s: State, h: nat, s': State)
    requires Inv(s) && NoneHalted(s) && h < |s.harts| && ForkStep(s, h, s')
    ensures Inv(s')
  {
    hide QueueOk, NoneHalted;
    match s.harts[h].pc
    case ForkWait(t) =>
      assert HartOk(s, h);
      MoveHart(s, h, s');
    case ForkTake(t) => ForkTakeInv(s, h, t, s');
    case ForkNew(t, child) =>
      assert HartOk(s, h);
      MoveHart(s, h, s');
    case ForkIn(t, child) => ForkInInv(s, h, t, child, s');
  }

  lemma ForkTakeInv(s: State, h: nat, t: Tid, s': State)
    requires Inv(s) && NoneHalted(s) && h < |s.harts| && s.harts[h].pc == ForkTake(t) && ForkStep(s, h, s')
    ensures Inv(s')
  {
    assert HartOk(s, h);
    var child := s.freeq[0];
    assert child in s.freeq;
    hide QueueOk, NoneHalted;
    assert ThreadOk(s, child);
    assert t in Owned(s.harts[h].pc);
    QueueHead(s, s', s.freeq, FreeQ);
    QueueSame(s, s', s.runq, RunQ, child);
    QueueSame(s, s', s.sleepq, SleepQ, child);
    MoveThread(s, h, s', child);
  }

  lemma ForkInInv(s: State, h: nat, t: Tid, child: Tid, s': State)
    requires Inv(s) && NoneHalted(s) && h < |s.harts| && s.harts[h].pc == ForkIn(t, child) && ForkStep(s, h, s')
    ensures Inv(s')
  {
    hide QueueOk, NoneHalted;
    assert HartOk(s, h);
    assert child in Owned(s.harts[h].pc) && child in Held(s.harts[h].pc) && t in Owned(s.harts[h].pc);
    QueueSame(s, s', s.freeq, FreeQ, child);
    QueueAdd(s, s', s.runq, RunQ, child);
    QueueSame(s, s', s.sleepq, SleepQ, child);
    MoveThread(s, h, s', child);
  }

  lemma ExitInv(s: State, h: nat, s': State)
    requires Inv(s) && NoneHalted(s) && h < |s.harts| && ExitStep(s, h, s')
    ensures Inv(s')
  {
    hide Inv, NoneHalted;
    match s.harts[h].pc
    case ExitLock(t) =>
      Here(s, h);
      MoveHart(s, h, s');
    case ExitIn(t) => FreedInv(s, h, t, s');
  }

  lemma FreedInv(s: State, h: nat, t: Tid, s': State)
    requires Inv(s) && NoneHalted(s) && h < |s.harts| && s.harts[h].pc == ExitIn(t) && ExitStep(s, h, s')
    ensures Inv(s')
  {
    hide Inv, QueueOk, NoneHalted;
    Here(s, h);
    assert t in Owned(s.harts[h].pc) && t in Held(s.harts[h].pc);
    FreedQueues(s, h, t, s');
    assert Settled(s', h, t);
    MoveThread(s, h, s', t);
  }

  lemma FreedQueues(s: State, h: nat, t: Tid, s': State)
    requires Inv(s) && h < |s.harts| && s.harts[h].pc == ExitIn(t) && ExitStep(s, h, s') && t in s.place && s.place[t] == On(h)
    ensures QueueOk(s', s'.freeq, FreeQ) && QueueOk(s', s'.runq, RunQ) && QueueOk(s', s'.sleepq, SleepQ)
  {
    hide Inv, QueueOk;
    QueuesHere(s);
    QueueAdd(s, s', s.freeq, FreeQ, t);
    QueueSame(s, s', s.runq, RunQ, t);
    QueueSame(s, s', s.sleepq, SleepQ, t);
  }

  /** The thread that was given up is put where its status says; a sleeping or free one already is there. */
  lemma PutInv(s: State, h: nat, last: Option<Tid>, why: Why, s': State)
    requires Inv(s) && NoneHalted(s) && h < |s.harts| && s.harts[h].pc == Put(last, why) && s' == At(PutBack(s, last), h, Loop)
    ensures Inv(s')
  {
    hide Inv, QueueOk, NoneHalted;
    Here(s, h);
    if last.None? {
      MoveHart(s, h, s');
    } else {
      PutThread(s, h, last.value, why, s');
    }
  }

  lemma PutThread(s: State, h: nat, t: Tid, why: Why, s': State)
    requires Inv(s) && NoneHalted(s) && h < |s.harts| && s.harts[h].pc == Put(Some(t), why) && s' == At(PutBack(s, Some(t)), h, Loop)
    ensures Inv(s')
  {
    hide Inv, QueueOk, NoneHalted;
    Here(s, h);
    assert t in Held(s.harts[h].pc) && (why == Yielded ==> t in Owned(s.harts[h].pc));
    ThreadHere(s, t);
    PutQueues(s, h, t, why, s');
    assert Settled(s', h, t);
    MoveThread(s, h, s', t);
  }

  lemma PutQueues(s: State, h: nat, t: Tid, why: Why, s': State)
    requires Inv(s) && h < |s.harts| && s.harts[h].pc == Put(Some(t), why) && s' == At(PutBack(s, Some(t)), h, Loop)
    requires t in s.threads && t in s.place && (why == Yielded ==> s.place[t] == On(h) && s.threads[t].status == Runnable)
    requires LastOk(s, Some(t), why)
    ensures QueueOk(s', s'.freeq, FreeQ) && QueueOk(s', s'.runq, RunQ) && QueueOk(s', s'.sleepq, SleepQ)
  {
    hide Inv, QueueOk;
    QueuesHere(s);
    if why == Yielded {
      QueueSame(s, s', s.freeq, FreeQ, t);
      QueueAdd(s, s', s.runq, RunQ, t);
      QueueSame(s, s', s.sleepq, SleepQ, t);
    } else {
      assert s'.place == s.place;
      QueueKeeps(s, s', s.freeq, FreeQ, t);
      QueueKeeps(s, s', s.runq, RunQ, t);
      QueueKeeps(s, s', s.sleepq, SleepQ, t);
    }
  }

  lemma TakeInv(s: State, h: nat, s': State)
    requires Inv(s) && NoneHalted(s) && h < |s.harts| && s.harts[h].pc == Take && PickStep(s, h, Go, s')
    ensures Inv(s')
  {
    assert HartOk(s, h);
    var t := s.runq[0];
    assert t in s.runq && ThreadOk(s, t);
    QueueSame(s, s', s.freeq, FreeQ, t);
    QueueHead(s, s', s.runq, RunQ);
    QueueSame(s, s', s.sleepq, SleepQ, t);
    MoveThread(s, h, s', t);
  }

  lemma SwitchInv(s: State, h: nat, t: Tid, s': State)
    requires Inv(s) && NoneHalted(s) && h < |s.harts| && s.harts[h].pc == Switched(t) && PickStep(s, h, Go, s')
    ensures Inv(s')
  {
    hide QueueOk, NoneHalted;
    assert HartOk(s, h);
    assert t in Owned(s.harts[h].pc) && t in Held(s.harts[h].pc) && ThreadOk(s, t);
    assert s'.place == s.place[t := s.place[t]];
    QueueKeeps(s, s', s.freeq, FreeQ, t);
    QueueKeeps(s, s', s.runq, RunQ, t);
    QueueKeeps(s, s', s.sleepq, SleepQ, t);
    MoveThread(s, h, s', t);
  }

  // ---- concat, and the whole --------------------------------------------------------------------------

  lemma WakeInInv(s: State, h: nat, who: Option<Tid>, ready: seq<Tid>, s': State)
    requires Inv(s) && NoneHalted(s) && h < |s.harts| && s.harts[h].pc == WakeIn(who, ready) && WakeStep(s, h, s')
    ensures Inv(s')
  {
    assert HartOk(s, h);
    ConcatQueues(s, h, ready, s');
    hide QueueOk;
    forall k: nat | k < |s'.harts| ensures HartOk(s', k) {
      if k == h {
        forall t | t in Owned(After(who)) ensures t in Owned(s.harts[h].pc) { }
      } else {
        ConcatHart(s, h, ready, s', k);
      }
    }
    forall t | t in s'.threads ensures ThreadOk(s', t) {
      assert ThreadOk(s, t);
      assert t in ready <==> s.place[t] == Ready(h);
    }
  }

  lemma ConcatHart(s: State, h: nat, ready: seq<Tid>, s': State, k: nat)
    requires Inv(s) && NoneHalted(s) && h < |s.harts| && k < |s.harts| && k != h && HoldsRun(s.harts[h].pc)
    requires s'.threads == s.threads && s'.place == AllRun(s.place, ready) && s'.runq == s.runq + ready && s'.sleepq == s.sleepq
    requires |s'.harts| == |s.harts| && s'.harts[k] == s.harts[k] && s'.rl.None? && s'.sl == s.sl && s'.fl == s.fl
    requires forall t | t in ready :: t in s.place && s.place[t] == Ready(h)
    ensures HartOk(s', k)
  {
    assert HartOk(s, h) && HartOk(s, k);
  }

  lemma ConcatQueues(s: State, h: nat, ready: seq<Tid>, s': State)
    requires QueueOk(s, s.freeq, FreeQ) && QueueOk(s, s.runq, RunQ) && QueueOk(s, s.sleepq, SleepQ)
    requires NoDup(ready) && forall t {:trigger t in ready} | t in ready :: t in s.place && s.place[t] == Ready(h)
    requires s'.place == AllRun(s.place, ready) && s'.runq == s.runq + ready && s'.freeq == s.freeq && s'.sleepq == s.sleepq
    ensures QueueOk(s', s'.freeq, FreeQ) && QueueOk(s', s'.runq, RunQ) && QueueOk(s', s'.sleepq, SleepQ)
  {
    forall i, j | 0 <= i < j < |s'.runq| ensures s'.runq[i] != s'.runq[j] {
      assert i < |s.runq| ==> s'.runq[i] in s.runq;
      assert j >= |s.runq| ==> s'.runq[j] in ready;
    }
  }

  lemma WakeInv(s: State, h: nat, s': State)
    requires Inv(s) && NoneHalted(s) && h < |s.harts| && WakeStep(s, h, s')
    ensures Inv(s')
  {
    hide Inv, NoneHalted;
    Here(s, h);
    match s.harts[h].pc
    case WakeWait(who, c) =>
      QueuesHere(s);
      MoveHart(s, h, s');
    case WakeScan(who, c, rest, ready) => ScanInv(s, h, who, c, rest, ready, s');
    case WakeMove(who, ready) =>
      MoveHart(s, h, s');
    case WakeIn(who, ready) => WakeInInv(s, h, who, ready, s');
  }

  /**
   The halt decision.  A hart that holds both queues' locks, with both queues empty
   and every hart marked idle, knows that no thread is anywhere but in the free queue:
   a waker keeps one of the two locks for as long as it has threads in its hands.
   */
  lemma HaltSafe(s: State, h: nat)
    requires Inv(s) && NoneHalted(s) && h < |s.harts| && s.harts[h].pc == Halting && s.sleepq == [] && AllIdle(s)
    ensures forall t {:trigger s.place[t]} | t in s.place :: s.place[t] == FreeQ
  {
    assert HartOk(s, h);
    forall t | t in s.place ensures s.place[t] == FreeQ {
      assert ThreadOk(s, t);
      assert t !in s.runq && t !in s.sleepq;
      if s.place[t].On? || s.place[t].Ready? {
        assert HartOk(s, s.place[t].h);
      }
    }
  }

  lemma HaltInv(s: State, h: nat, s': State)
    requires Inv(s) && NoneHalted(s) && h < |s.harts| && s.harts[h].pc == Halting && PickStep(s, h, Go, s')
    ensures Inv(s')
  {
    hide QueueOk, NoneHalted;
    assert HartOk(s, h);
    if s.sleepq == [] && AllIdle(s) { HaltSafe(s, h); }
    MoveHart(s, h, s');
  }

  /** The idle loop moves no thread. */
  lemma LoopInv(s: State, h: nat, a: Act, s': State)
    requires Inv(s) && NoneHalted(s) && h < |s.harts| && PickStep(s, h, a, s')
    requires s.harts[h].pc.Loop? || s.harts[h].pc.Try?
    ensures Inv(s')
  {
    hide Inv, NoneHalted;
    Here(s, h);
    MoveHart(s, h, s');
  }

  lemma IdleInv(s: State, h: nat, a: Act, s': State)
    requires Inv(s) && NoneHalted(s) && h < |s.harts| && PickStep(s, h, a, s')
    requires s.harts[h].pc.Leave? || s.harts[h].pc.Idle?
    ensures Inv(s')
  {
    hide Inv, NoneHalted;
    Here(s, h);
    MoveHart(s, h, s');
  }

  lemma PickInv(s: State, h: nat, a: Act, s': State)
    requires Inv(s) && NoneHalted(s) && h < |s.harts| && PickStep(s, h, a, s')
    ensures Inv(s')
  {
    hide Inv, NoneHalted;
    match s.harts[h].pc
    case Pick(last, why) => EnterInv(s, h, last, why, s');
    case Put(last, why) => PutInv(s, h, last, why, s');
    case Take => TakeInv(s, h, s');
    case Switched(t) => SwitchInv(s, h, t, s');
    case Halting => HaltInv(s, h, s');
    case Leave => IdleInv(s, h, a, s');
    case Idle => IdleInv(s, h, a, s');
    case _ => LoopInv(s, h, a, s');
  }

  lemma EnterInv(s: State, h: nat, last: Option<Tid>, why: Why, s': State)
    requires Inv(s) && NoneHalted(s) && h < |s.harts| && s.harts[h].pc == Pick(last, why) && PickStep(s, h, Go, s')
    ensures Inv(s')
  {
    hide QueueOk, NoneHalted;
    assert HartOk(s, h);
    MoveHart(s, h, s');
  }

  lemma StepInv(s: State, h: nat, a: Act, s': State)
    requires Inv(s) && Step(s, h, a, s')
    ensures Inv(s')
  {
    hide Inv, NoneHalted;
    match s.harts[h].pc
    case Run(t) => RunInv(s, h, t, a, s');
    case SleepWait(t, c) => SleepInv(s, h, t, c, s');
    case SleepIn(t, c) => SleepInv(s, h, t, c, s');
    case WakeWait(_, _) => WakeInv(s, h, s');
    case WakeScan(_, _, _, _) => WakeInv(s, h, s');
    case WakeMove(_, _) => WakeInv(s, h, s');
    case WakeIn(_, _) => WakeInv(s, h, s');
    case ForkWait(_) => ForkInv(s, h, s');
    case ForkTake(_) => ForkInv(s, h, s');
    case ForkNew(_, _) => ForkInv(s, h, s');
    case ForkIn(_, _) => ForkInv(s, h, s');
    case ExitLock(_) => ExitInv(s, h, s');
    case ExitIn(_) => ExitInv(s, h, s');
    case _ => PickInv(s, h, a, s');
  }

  // ---- runs -----------------------------------------------------------------------------------------

  /** A run: from a state in which no thread has started, one step of some hart after the other. */
  ghost predicate Behaviour(states: seq<State>, harts: seq<nat>, acts: seq<Act>) {
    && |states| == |harts| + 1 == |acts| + 1 && Init(states[0])
    && forall i {:trigger harts[i]} | 0 <= i < |harts| :: Step(states[i], harts[i], acts[i], states[i + 1])
  }

  lemma {:induction false} RunsKeepInv(states: seq<State>, harts: seq<nat>, acts: seq<Act>, n: nat)
    requires Behaviour(states, harts, acts) && n < |states|
    ensures Inv(states[n])
  {
    hide Inv, Step, Init;
    if n == 0 {
      InitInv(states[0]);
    } else {
      RunsKeepInv(states, harts, acts, n - 1);
      StepInv(states[n - 1], harts[n - 1], acts[n - 1], states[n]);
    }
  }

  /** Thread t is in the place p. */
  ghost predicate IsAt(s: State, t: Tid, p: Place) {
    match p
    case FreeQ => t in s.freeq
    case RunQ => t in s.runq
    case SleepQ => t in s.sleepq
    case Ready(h) => h < |s.harts| && t in ReadyOf(s.harts[h].pc)
    case On(h) => h < |s.harts| && t in Owned(s.harts[h].pc)
  }

  /**
   In every reachable state every thread is in exactly one place, and in no queue
   twice; so no two harts run one thread, and what each queue holds has the status
   that goes with it.
   */
  lemma OnePlace(states: seq<State>, harts: seq<nat>, acts: seq<Act>, n: nat, t: Tid)
    requires Behaviour(states, harts, acts) && n < |states| && t in states[n].threads
    ensures var s := states[n];
            && t in s.place && IsAt(s, t, s.place[t]) && (forall p {:trigger IsAt(s, t, p)} | IsAt(s, t, p) :: p == s.place[t])
            && NoDup(s.freeq) && NoDup(s.runq) && NoDup(s.sleepq)
            && (t in s.runq ==> s.threads[t].status == Runnable) && (t in s.sleepq ==> s.threads[t].status == Sleeping)
  {
    hide Step, Init;
    RunsKeepInv(states, harts, acts, n);
    var s := states[n];
    assert ThreadOk(s, t);
    forall p | IsAt(s, t, p) ensures p == s.place[t] {
      if p.Ready? || p.On? { assert HartOk(s, p.h); }
    }
  }

  /** wakeup's assertion: whatever it finds in the sleep queue, once it has the lock, is asleep. */
  lemma WakeFindsSleepers(states: seq<State>, harts: seq<nat>, acts: seq<Act>, n: nat, h: nat)
    requires Behaviour(states, harts, acts) && n < |states| && h < |states[n].harts|
    requires states[n].harts[h].pc.WakeScan? && states[n].harts[h].pc.rest != []
    ensures var t := states[n].harts[h].pc.rest[0]; t in states[n].threads && states[n].threads[t].status == Sleeping
  {
    hide Step, Init;
    RunsKeepInv(states, harts, acts, n);
    var s := states[n];
    assert HartOk(s, h);
    assert s.harts[h].pc.rest[0] in s.harts[h].pc.rest;
    assert ThreadOk(s, s.harts[h].pc.rest[0]);
  }

  /** When the machine is halted no thread runs, sleeps, waits or is being moved. */
  lemma HaltedMeansDone(states: seq<State>, harts: seq<nat>, acts: seq<Act>, n: nat, h: nat)
    requires Behaviour(states, harts, acts) && n < |states| && h < |states[n].harts| && states[n].harts[h].pc == Halted
    ensures forall t | t in states[n].threads :: t in states[n].freeq && states[n].threads[t].status == Unused
  {
    hide Step, Init;
    RunsKeepInv(states, harts, acts, n);
    var s := states[n];
    assert HartOk(s, h);
    forall t | t in s.threads ensures t in s.freeq && s.threads[t].status == Unused {
      assert ThreadOk(s, t);
      assert s.place[t] == FreeQ;
    }
  }
}
