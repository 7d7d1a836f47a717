/**
 Sleep mutexes (kern/lock/mutex.c): an owner and a depth behind a spin lock, with
 threads that sleep until the owner is gone.  Any number of threads take steps in
 any order; the sleep queue's lock is shared with the rest of the kernel.
 */
module SleepMutex {
  type Tid = nat

  /** Who holds a lock; Kernel stands for code that has nothing to do with this mutex. */
  datatype Holder = Nobody | Thread(t: Tid) | Kernel

  /** Where a thread stands in mtx_lock_sleep, sleep, mtx_unlock_sleep and wakeup. */
  datatype Pc =
    | Out
    | LockWait | LockIn | LockAgain | SleepWait | SleepIn | SleepFree | Asleep | Woken | LockDone
    | UnlockWait | UnlockIn | WakeWait | WakeIn | UnlockDone
    | Panicked

  /** held counts, for each thread, the lock calls that have returned less the unlock calls that have. */
  datatype State = State(
    recurse: bool,
    spin: Holder,
    owner: Holder,
    depth: nat,
    sl: Holder,
    pc: map<Tid, Pc>,
    held: map<Tid, int>)

  datatype Act = Lock | Unlock | Go

  predicate HoldsSpin(pc: Pc) {
    pc.LockIn? || pc.LockAgain? || pc.SleepWait? || pc.SleepIn? || pc.LockDone? || pc.UnlockIn? || pc.WakeWait? || pc.WakeIn? || pc.UnlockDone?
  }

  predicate HoldsQueue(pc: Pc) {
    pc.SleepIn? || pc.SleepFree? || pc.WakeIn?
  }

  ghost function To(s: State, t: Tid, pc: Pc): State {
    s.(pc := s.pc[t := pc])
  }

  /** wakeup: everyone asleep on the mutex leaves the queue. */
  ghost function WakeAll(pc: map<Tid, Pc>): map<Tid, Pc> {
    map u | u in pc :: if pc[u] == Asleep then Woken else pc[u]
  }

  ghost predicate LockStep(s: State, t: Tid, s': State)
    requires t in s.pc && t in s.held
  {
    match s.pc[t]
    case LockWait => s.spin.Nobody? && s' == To(s, t, LockIn).(spin := Thread(t))
    case LockIn =>
      if s.owner == Thread(t) then
        if s.recurse then s' == To(s, t, LockDone).(depth := s.depth + 1) else s' == To(s, t, Panicked).(spin := Kernel)
      else if s.owner.Nobody? then s' == To(s, t, LockDone).(owner := Thread(t), depth := 1)
      else s' == To(s, t, SleepWait)
    case LockAgain =>
      if s.owner.Nobody? then s' == To(s, t, LockDone).(owner := Thread(t), depth := 1) else s' == To(s, t, SleepWait)
    case SleepWait => s.sl.Nobody? && s' == To(s, t, SleepIn).(sl := Thread(t))
    case SleepIn => s' == To(s, t, SleepFree).(spin := Nobody)
    case SleepFree => s' == To(s, t, Asleep).(sl := Nobody)
    case Woken => s.spin.Nobody? && s' == To(s, t, LockAgain).(spin := Thread(t))
    case LockDone => s' == To(s, t, Out).(spin := Nobody, held := s.held[t := s.held[t] + 1])
    case _ => false
  }

  ghost predicate UnlockStep(s: State, t: Tid, s': State)
    requires t in s.pc && t in s.held
  {
    match s.pc[t]
    case UnlockWait => s.spin.Nobody? && s' == To(s, t, UnlockIn).(spin := Thread(t))
    case UnlockIn =>
      if s.owner != Thread(t) then s' == To(s, t, Panicked).(spin := Kernel)
      else if s.depth > 1 then s' == To(s, t, UnlockDone).(depth := s.depth - 1)
      else s' == To(s, t, WakeWait).(owner := Nobody, depth := 0)
    case WakeWait => s.sl.Nobody? && s' == To(s, t, WakeIn).(sl := Thread(t))
    case WakeIn => s' == s.(pc := WakeAll(s.pc)[t := UnlockDone], sl := Nobody)
    case UnlockDone => s' == To(s, t, Out).(spin := Nobody, held := s.held[t := s.held[t] - 1])
    case _ => false
  }

  /** The rest of the kernel takes and gives back the queue's lock, and may wake a sleeper meanwhile. */
  ghost predicate KernelStep(s: State, s': State) {
    || (s.sl.Nobody? && s' == s.(sl := Kernel))
    || (s.sl.Kernel? && s' == s.(sl := Nobody))
    || (s.sl.Kernel? && exists t :: t in s.pc && s.pc[t] == Asleep && s' == To(s, t, Woken))
  }

  ghost predicate Step(s: State, t: Tid, a: Act, s': State) {
    || KernelStep(s, s')
    || (t in s.pc && t in s.held &&
        match s.pc[t]
        case Out => (a == Lock && s' == To(s, t, LockWait)) || (a == Unlock && s' == To(s, t, UnlockWait))
        case _ => LockStep(s, t, s') || UnlockStep(s, t, s'))
  }

  // ---- the invariant --------------------------------------------------------------------------------

  /** What a thread has of the mutex, counting a call that has done its work but not returned. */
  function Claim(held: int, pc: Pc): int {
    held + (if pc.LockDone? then 1 else 0) - if pc.WakeWait? || pc.WakeIn? || pc.UnlockDone? then 1 else 0
  }

  ghost predicate Waking(s: State) {
    s.spin.Thread? && s.spin.t in s.pc && (s.pc[s.spin.t] == WakeWait || s.pc[s.spin.t] == WakeIn)
  }

  ghost predicate ThreadOk(s: State, t: Tid)
    requires t in s.pc && t in s.held
  {
    var pc := s.pc[t];
    && (HoldsSpin(pc) ==> s.spin == Thread(t)) && (HoldsQueue(pc) ==> s.sl == Thread(t))
    && Claim(s.held[t], pc) == (if s.owner == Thread(t) then s.depth else 0)
    && (pc.SleepWait? || pc.SleepIn? ==> s.owner.Thread? && s.owner.t != t)
    && (pc.SleepFree? || pc.Asleep? ==> s.owner.Thread? || Waking(s))
    && (pc.SleepFree? || pc.Asleep? || pc.Woken? || pc.LockAgain? ==> s.owner != Thread(t))
    && (pc.WakeWait? || pc.WakeIn? ==> s.owner.Nobody?)
    && (pc.LockDone? ==> s.owner == Thread(t)) && (pc.UnlockDone? ==> s.owner == Thread(t) || s.owner.Nobody?)
  }

  ghost predicate Core(s: State) {
    && s.held.Keys == s.pc.Keys
    && (s.spin.Thread? ==> s.spin.t in s.pc && HoldsSpin(s.pc[s.spin.t]))
    && (s.sl.Thread? ==> s.sl.t in s.pc && HoldsQueue(s.pc[s.sl.t]))
    && !s.owner.Kernel? && (s.owner.Thread? ==> s.owner.t in s.pc && s.depth > 0) && (s.owner.Nobody? ==> s.depth == 0)
    && (s.owner.Thread? && s.depth > 1 ==> s.recurse)
  }

  ghost predicate Inv(s: State) {
    Core(s) && forall t {:trigger ThreadOk(s, t)} | t in s.pc :: ThreadOk(s, t)
  }

  ghost predicate Init(s: State) {
    && s.spin.Nobody? && s.owner.Nobody? && s.depth == 0 && s.sl.Nobody? && s.held.Keys == s.pc.Keys
    && forall t {:trigger s.pc[t]} | t in s.pc :: s.pc[t] == Out && s.held[t] == 0
  }

  lemma InitInv(s: State)
    requires Init(s)
    ensures Inv(s)
  {
    forall t | t in s.pc ensures ThreadOk(s, t) {
      assert s.pc[t] == Out;
    }
  }

  lemma LockOther(s: State, t: Tid, s': State, u: Tid)
    requires Inv(s) && t in s.pc && t in s.held && LockStep(s, t, s') && u in s'.pc && u in s'.held && u != t
    ensures ThreadOk(s', u)
  {
    assert ThreadOk(s, t) && ThreadOk(s, u);
  }

  lemma LockInv(s: State, t: Tid, s': State)
    requires Inv(s) && t in s.pc && t in s.held && LockStep(s, t, s')
    ensures Inv(s')
  {
    hide ThreadOk, Core;
    LockCore(s, t, s');
    LockSelf(s, t, s');
    forall u | u in s'.pc ensures ThreadOk(s', u) {
      if u != t { LockOther(s, t, s', u); }
    }
  }

  lemma LockCore(s: State, t: Tid, s': State)
    requires Inv(s) && t in s.pc && t in s.held && LockStep(s, t, s')
    ensures Core(s')
  {
    assert ThreadOk(s, t);
  }

  lemma LockSelf(s: State, t: Tid, s': State)
    requires Inv(s) && t in s.pc && t in s.held && LockStep(s, t, s')
    ensures s'.pc.Keys == s'.held.Keys && t in s'.pc && ThreadOk(s', t)
  {
    assert ThreadOk(s, t);
  }

  lemma UnlockOther(s: State, t: Tid, s': State, u: Tid)
    requires Inv(s) && t in s.pc && t in s.held && UnlockStep(s, t, s') && u in s'.pc && u in s'.held && u != t
    ensures ThreadOk(s', u)
  {
    assert ThreadOk(s, t) && ThreadOk(s, u);
  }

  lemma UnlockInv(s: State, t: Tid, s': State)
    requires Inv(s) && t in s.pc && t in s.held && UnlockStep(s, t, s')
    ensures Inv(s')
  {
    hide ThreadOk, Core;
    UnlockSelf(s, t, s');
    UnlockCore(s, t, s');
    forall u | u in s'.pc ensures ThreadOk(s', u) {
      if u != t { UnlockOther(s, t, s', u); }
    }
  }

  lemma UnlockSelf(s: State, t: Tid, s': State)
    requires Inv(s) && t in s.pc && t in s.held && UnlockStep(s, t, s')
    ensures s'.pc.Keys == s'.held.Keys && t in s'.pc && ThreadOk(s', t)
  {
    assert ThreadOk(s, t);
  }

  lemma UnlockCore(s: State, t: Tid, s': State)
    requires Inv(s) && t in s.pc && t in s.held && UnlockStep(s, t, s')
    ensures Core(s')
  {
    assert ThreadOk(s, t);
  }

  lemma KernelInv(s: State, s': State)
    requires Inv(s) && KernelStep(s, s')
    ensures Inv(s')
  {
    if s'.pc == s.pc {
      forall u | u in s'.pc ensures ThreadOk(s', u) {
        assert ThreadOk(s, u);
      }
    } else {
      var t :| t in s.pc && s.pc[t] == Asleep && s' == To(s, t, Woken);
      WokenInv(s, t);
    }
  }

  lemma WokenInv(s: State, t: Tid)
    requires Inv(s) && t in s.pc && s.pc[t] == Asleep
    ensures Inv(To(s, t, Woken))
  {
    var s' := To(s, t, Woken);
    assert ThreadOk(s, t);
    forall u | u in s'.pc ensures ThreadOk(s', u) {
      assert ThreadOk(s, u);
    }
  }

  lemma EnterInv(s: State, t: Tid, pc: Pc)
    requires Inv(s) && t in s.pc && s.pc[t] == Out && (pc == LockWait || pc == UnlockWait)
    ensures Inv(To(s, t, pc))
  {
    var s' := To(s, t, pc);
    forall u | u in s'.pc ensures ThreadOk(s', u) {
      assert ThreadOk(s, u);
    }
  }

  lemma StepInv(s: State, t: Tid, a: Act, s': State)
    requires Inv(s) && Step(s, t, a, s')
    ensures Inv(s')
  {
    hide Inv, LockStep, UnlockStep;
    if KernelStep(s, s') {
      KernelInv(s, s');
    } else if s.pc[t] == Out {
      EnterInv(s, t, s'.pc[t]);
    } else if LockStep(s, t, s') {
      LockInv(s, t, s');
    } else {
      UnlockInv(s, t, s');
    }
  }

  // ---- runs ------------------------------------------------------------------------------------------

  ghost predicate Behaviour(states: seq<State>, who: seq<Tid>, acts: seq<Act>) {
    && |states| == |who| + 1 == |acts| + 1 && Init(states[0])
    && forall i {:trigger who[i]} | 0 <= i < |who| :: Step(states[i], who[i], acts[i], states[i + 1])
  }

  lemma {:induction false} RunsKeepInv(states: seq<State>, who: seq<Tid>, acts: seq<Act>, n: nat)
    requires Behaviour(states, who, acts) && n < |states|
    ensures Inv(states[n])
  {
    if n == 0 {
      InitInv(states[0]);
    } else {
      RunsKeepInv(states, who, acts, n - 1);
      StepInv(states[n - 1], who[n - 1], acts[n - 1], states[n]);
    }
  }

  /**
   Mutual exclusion with exact depth, wherever the threads stand: if one has locked
   more often than unlocked, or is about to have, no other has anything.  The one
   is the owner and the depth is what it has, unless it is giving up its last.
   */
  lemma Exclusion(states: seq<State>, who: seq<Tid>, acts: seq<Act>, n: nat, t: Tid, u: Tid)
    requires Behaviour(states, who, acts) && n < |states|
    requires t in states[n].pc && u in states[n].pc && t in states[n].held && u in states[n].held && t != u
    requires states[n].held[t] != 0 || Claim(states[n].held[t], states[n].pc[t]) != 0
    ensures states[n].held[u] == 0 && Claim(states[n].held[u], states[n].pc[u]) == 0
    ensures states[n].depth == Claim(states[n].held[t], states[n].pc[t])
    ensures if states[n].depth > 0 then states[n].owner == Thread(t)
            else states[n].owner.Nobody? && states[n].spin == Thread(t) && states[n].held[t] == 1
  {
    hide Behaviour;
    RunsKeepInv(states, who, acts, n);
    assert ThreadOk(states[n], t) && ThreadOk(states[n], u);
  }

  /** No wakeup is lost: with the spin lock free and no owner, nobody is asleep or about to be. */
  lemma NobodyForgotten(states: seq<State>, who: seq<Tid>, acts: seq<Act>, n: nat, t: Tid)
    requires Behaviour(states, who, acts) && n < |states| && t in states[n].pc && t in states[n].held
    requires states[n].spin.Nobody? && states[n].owner.Nobody?
    ensures states[n].pc[t] != Asleep && states[n].pc[t] != SleepFree
  {
    RunsKeepInv(states, who, acts, n);
    assert ThreadOk(states[n], t);
  }

  /** A thread that unlocks what it has locked does not reach the panic. */
  lemma OwnUnlockIsSafe(states: seq<State>, who: seq<Tid>, acts: seq<Act>, n: nat, t: Tid)
    requires Behaviour(states, who, acts) && n < |states| && t in states[n].pc && t in states[n].held
    requires states[n].pc[t] == UnlockIn && states[n].held[t] > 0
    ensures states[n].owner == Thread(t) && states[n].depth == states[n].held[t]
  {
    RunsKeepInv(states, who, acts, n);
    assert ThreadOk(states[n], t);
  }

  // ---- calls, by what the threads asked for ----------------------------------------------------------

  predicate InLock(pc: Pc) {
    pc.LockWait? || pc.LockIn? || pc.LockAgain? || pc.SleepWait? || pc.SleepIn? || pc.SleepFree? || pc.Asleep? || pc.Woken? || pc.LockDone?
  }

  predicate InUnlock(pc: Pc) {
    pc.UnlockWait? || pc.UnlockIn? || pc.WakeWait? || pc.WakeIn? || pc.UnlockDone?
  }

  ghost predicate AtRest(s: State, t: Tid) {
    t in s.pc && s.pc[t] == Out
  }

  /** The call thread t is in: what it asked for when it was last at rest; Go if it is in none. */
  ghost function Asked(states: seq<State>, acts: seq<Act>, n: nat, t: Tid): Act
    requires n < |states| == |acts| + 1
  {
    if n == 0 || AtRest(states[n], t) then Go
    else if AtRest(states[n - 1], t) then acts[n - 1]
    else Asked(states, acts, n - 1, t)
  }

  /** The lock calls of t that have returned, less its unlock calls that have. */
  ghost function Balance(states: seq<State>, acts: seq<Act>, n: nat, t: Tid): int
    requires n < |states| == |acts| + 1
  {
    if n == 0 then 0
    else
      Balance(states, acts, n - 1, t)
      + if AtRest(states[n - 1], t) || !AtRest(states[n], t) then 0 else if Asked(states, acts, n - 1, t) == Lock then 1 else -1
  }

  ghost predicate CallOk(s: State, t: Tid, asked: Act, balance: int) {
    && t in s.pc && t in s.held && s.held[t] == balance
    && (InLock(s.pc[t]) ==> asked == Lock) && (InUnlock(s.pc[t]) ==> asked == Unlock)
  }

  /** How one step moves one thread: it stays, begins the call it asks for, goes on in it, or returns from it. */
  ghost predicate Moves(s: State, a: Act, s': State, t: Tid)
    requires t in s.pc && t in s'.pc && t in s.held && t in s'.held
  {
    var pc, pc' := s.pc[t], s'.pc[t];
    && (pc.Out? ==> pc' == Out || (InLock(pc') && a == Lock) || (InUnlock(pc') && a == Unlock))
    && (InLock(pc) ==> InLock(pc') || pc'.Panicked? || pc'.Out?) && (InUnlock(pc) ==> InUnlock(pc') || pc'.Panicked? || pc'.Out?)
    && (pc.Panicked? ==> pc'.Panicked?)
    && s'.held[t] == s.held[t] + if pc.Out? || !pc'.Out? then 0 else if InLock(pc) then 1 else -1
  }

  lemma LockMoves(s: State, u: Tid, a: Act, s': State, t: Tid)
    requires u in s.pc && u in s.held && LockStep(s, u, s') && t in s.pc && t in s.held
    ensures t in s'.pc && t in s'.held && Moves(s, a, s', t)
  {
  }

  lemma UnlockMoves(s: State, u: Tid, a: Act, s': State, t: Tid)
    requires u in s.pc && u in s.held && UnlockStep(s, u, s') && t in s.pc && t in s.held
    ensures t in s'.pc && t in s'.held && Moves(s, a, s', t)
  {
  }

  lemma StepMoves(s: State, u: Tid, a: Act, s': State, t: Tid)
    requires Step(s, u, a, s') && t in s.pc && t in s.held
    ensures t in s'.pc && t in s'.held && Moves(s, a, s', t)
  {
    hide LockStep, UnlockStep;
    if u in s.pc && u in s.held && LockStep(s, u, s') {
      LockMoves(s, u, a, s', t);
    } else if u in s.pc && u in s.held && UnlockStep(s, u, s') {
      UnlockMoves(s, u, a, s', t);
    }
  }

  /** In every run the count of held locks is what the returned calls amount to, and threads are in the calls they asked for. */
  lemma {:induction false} CallsKept(states: seq<State>, who: seq<Tid>, acts: seq<Act>, n: nat, t: Tid)
    requires Behaviour(states, who, acts) && n < |states| && t in states[0].pc
    ensures CallOk(states[n], t, Asked(states, acts, n, t), Balance(states, acts, n, t))
  {
    hide Step;
    if n > 0 {
      CallsKept(states, who, acts, n - 1, t);
      assert who[n - 1] == who[n - 1];
      StepMoves(states[n - 1], who[n - 1], acts[n - 1], states[n], t);
    }
  }

  lemma RecurseStep(s: State, u: Tid, a: Act, s': State)
    requires Step(s, u, a, s')
    ensures s'.recurse == s.recurse
  {
  }

  lemma {:induction false} RecurseKept(states: seq<State>, who: seq<Tid>, acts: seq<Act>, n: nat)
    requires Behaviour(states, who, acts) && n < |states|
    ensures states[n].recurse == states[0].recurse
  {
    hide Step;
    if n > 0 {
      RecurseKept(states, who, acts, n - 1);
      assert who[n - 1] == who[n - 1];
      RecurseStep(states[n - 1], who[n - 1], acts[n - 1], states[n]);
    }
  }

  // ---- when a call panics -----------------------------------------------------------------------------

  lemma LockPanics(s: State, u: Tid, s': State, t: Tid)
    requires Inv(s) && u in s.pc && u in s.held && LockStep(s, u, s') && t in s.pc && t in s.held && s'.pc[t] != s.pc[t]
    ensures s'.pc[t] == Panicked ==> s.spin == Thread(t) && InLock(s.pc[t]) && s.held[t] > 0 && !s.recurse
    ensures s.spin == Thread(t) && InLock(s.pc[t]) && s.held[t] > 0 && !s.recurse ==> s'.pc[t] == Panicked
    ensures InLock(s.pc[t])
  {
    assert ThreadOk(s, t) && ThreadOk(s, u);
  }

  lemma UnlockPanics(s: State, u: Tid, s': State, t: Tid)
    requires Inv(s) && u in s.pc && u in s.held && UnlockStep(s, u, s') && t in s.pc && t in s.held && s'.pc[t] != s.pc[t]
    ensures s'.pc[t] == Panicked ==> s.spin == Thread(t) && InUnlock(s.pc[t]) && s.held[t] == 0
    ensures s.spin == Thread(t) && InUnlock(s.pc[t]) && s.held[t] == 0 ==> s'.pc[t] == Panicked
    ensures InUnlock(s.pc[t]) || (s.pc[t] == Asleep && s'.pc[t] == Woken && s.spin != Thread(t))
  {
    assert ThreadOk(s, t) && ThreadOk(s, u);
  }

  lemma StepPanics(s: State, u: Tid, a: Act, s': State, t: Tid)
    requires Inv(s) && Step(s, u, a, s') && t in s.pc && t in s.held && t in s'.pc && s'.pc[t] != s.pc[t]
    ensures s'.pc[t] == Panicked <==>
            s.spin == Thread(t) && ((InLock(s.pc[t]) && s.held[t] > 0 && !s.recurse) || (InUnlock(s.pc[t]) && s.held[t] == 0))
  {
    hide LockStep, UnlockStep;
    if u in s.pc && u in s.held && LockStep(s, u, s') {
      LockPanics(s, u, s', t);
    } else if u in s.pc && u in s.held && UnlockStep(s, u, s') {
      UnlockPanics(s, u, s', t);
    } else {
      assert ThreadOk(s, t);
    }
  }

  /**
   In every run a step of a thread is a panic if and only if the thread has the spin
   lock and either locks a mutex again that it holds and that is not recursive, or
   unlocks one that it does not hold.
   */
  lemma PanicsExactly(states: seq<State>, who: seq<Tid>, acts: seq<Act>, n: nat, t: Tid)
    requires Behaviour(states, who, acts) && n < |who| && t in states[0].pc && t in states[n].pc && t in states[n + 1].pc
    requires states[n + 1].pc[t] != states[n].pc[t]
    ensures states[n + 1].pc[t] == Panicked <==>
            && states[n].spin == Thread(t)
            && ((Asked(states, acts, n, t) == Lock && Balance(states, acts, n, t) > 0 && !states[0].recurse)
                || (Asked(states, acts, n, t) == Unlock && Balance(states, acts, n, t) == 0))
  {
    hide Step, Inv, Init;
    RunsKeepInv(states, who, acts, n);
    CallsKept(states, who, acts, n, t);
    RecurseKept(states, who, acts, n);
    assert who[n] == who[n];
    StepPanics(states[n], who[n], acts[n], states[n + 1], t);
    SpinInCall(states[n], t);
  }

  lemma SpinInCall(s: State, t: Tid)
    requires Inv(s) && t in s.pc && t in s.held
    ensures s.spin == Thread(t) ==> InLock(s.pc[t]) || InUnlock(s.pc[t])
  {
    assert ThreadOk(s, t);
  }

  // ---- locking again ----------------------------------------------------------------------------------

  /** With the spin lock taken and the mutex its own, a thread is at the first or the last point of the call. */
  ghost predicate Again(s: State, t: Tid, held: int) {
    && t in s.pc && t in s.held && s.held[t] == held > 0 && s.spin == Thread(t) && s.owner == Thread(t)
    && ((s.pc[t] == LockIn && s.depth == held) || (s.pc[t] == LockDone && s.depth == held + 1))
  }

  lemma LockAgainStep(s: State, u: Tid, s': State, t: Tid, held: int)
    requires Inv(s) && u in s.pc && u in s.held && LockStep(s, u, s') && Again(s, t, held) && s.recurse
    ensures Again(s', t, held) || (AtRest(s', t) && s'.owner == Thread(t) && s'.depth == held + 1 && t in s'.held && s'.held[t] == held + 1)
  {
    assert ThreadOk(s, u) && ThreadOk(s, t);
  }

  lemma NoUnlockMeanwhile(s: State, u: Tid, s': State, t: Tid, held: int)
    requires Inv(s) && u in s.pc && u in s.held && Again(s, t, held)
    ensures !UnlockStep(s, u, s')
  {
    assert ThreadOk(s, u) && ThreadOk(s, t);
  }

  lemma AgainStep(s: State, u: Tid, a: Act, s': State, t: Tid, held: int)
    requires Inv(s) && Step(s, u, a, s') && Again(s, t, held) && s.recurse
    ensures Again(s', t, held) || (AtRest(s', t) && s'.owner == Thread(t) && s'.depth == held + 1 && t in s'.held && s'.held[t] == held + 1)
  {
    hide LockStep, UnlockStep, Inv;
    if u in s.pc && u in s.held && LockStep(s, u, s') {
      LockAgainStep(s, u, s', t, held);
    } else if u in s.pc && u in s.held {
      NoUnlockMeanwhile(s, u, s', t, held);
    }
  }

  /** A thread that holds the mutex and has just got the spin lock in a lock call. */
  ghost predicate ComesAgain(states: seq<State>, acts: seq<Act>, n: nat, t: Tid)
    requires n < |states| == |acts| + 1
  {
    && n > 0 && states[n - 1].spin != Thread(t) && states[n].spin == Thread(t)
    && Asked(states, acts, n, t) == Lock && Balance(states, acts, n, t) > 0
  }

  lemma SpinFirst(s: State, u: Tid, a: Act, s': State, t: Tid)
    requires Inv(s) && Step(s, u, a, s') && t in s'.pc && s.spin != Thread(t) && s'.spin == Thread(t)
    ensures s'.pc[t] == LockIn || s'.pc[t] == LockAgain || s'.pc[t] == UnlockIn
  {
  }

  lemma ComesIn(s: State, t: Tid)
    requires Inv(s) && t in s.pc && t in s.held && s.spin == Thread(t) && s.held[t] > 0
    requires (s.pc[t] == LockIn || s.pc[t] == LockAgain || s.pc[t] == UnlockIn) && InLock(s.pc[t])
    ensures Again(s, t, s.held[t]) && s.pc[t] == LockIn
  {
    assert ThreadOk(s, t);
  }

  lemma AgainStarts(states: seq<State>, who: seq<Tid>, acts: seq<Act>, n: nat, t: Tid)
    requires Behaviour(states, who, acts) && n < |states| && t in states[0].pc && ComesAgain(states, acts, n, t)
    ensures t in states[n].pc && states[n].pc[t] == LockIn && Again(states[n], t, Balance(states, acts, n, t))
  {
    hide Step, Inv, Init, Again;
    RunsKeepInv(states, who, acts, n - 1);
    RunsKeepInv(states, who, acts, n);
    CallsKept(states, who, acts, n, t);
    assert who[n - 1] == who[n - 1];
    SpinFirst(states[n - 1], who[n - 1], acts[n - 1], states[n], t);
    SpinInCall(states[n], t);
    ComesIn(states[n], t);
  }

  lemma {:induction false} AgainGoesOn(states: seq<State>, who: seq<Tid>, acts: seq<Act>, n: nat, m: nat, t: Tid)
    requires Behaviour(states, who, acts) && n <= m < |states| && t in states[0].pc && ComesAgain(states, acts, n, t) && states[0].recurse
    requires forall k {:trigger states[k]} | n <= k <= m :: !AtRest(states[k], t)
    ensures Again(states[m], t, Balance(states, acts, n, t))
    decreases m
  {
    hide Step, Inv, Init, Again, AtRest;
    if m == n {
      AgainStarts(states, who, acts, n, t);
    } else {
      AgainGoesOn(states, who, acts, n, m - 1, t);
      RunsKeepInv(states, who, acts, m - 1);
      RecurseKept(states, who, acts, m - 1);
      assert who[m - 1] == who[m - 1];
      AgainStep(states[m - 1], who[m - 1], acts[m - 1], states[m], t, Balance(states, acts, n, t));
    }
  }

  /**
   In every run a thread that holds a recursive mutex gets it again: once it has the
   spin lock it neither sleeps nor panics, and when the call returns the depth and
   what it holds are one more.
   */
  lemma LocksAgain(states: seq<State>, who: seq<Tid>, acts: seq<Act>, n: nat, m: nat, t: Tid)
    requires Behaviour(states, who, acts) && n < m < |states| && t in states[0].pc && ComesAgain(states, acts, n, t) && states[0].recurse
    requires AtRest(states[m], t) && forall k {:trigger states[k]} | n <= k < m :: !AtRest(states[k], t)
    ensures states[n].depth == Balance(states, acts, n, t)
    ensures states[m].owner == Thread(t) && states[m].depth == Balance(states, acts, m, t) == Balance(states, acts, n, t) + 1
  {
    hide Step, Inv, Init, AtRest;
    AgainGoesOn(states, who, acts, n, m - 1, t);
    AgainStarts(states, who, acts, n, t);
    RunsKeepInv(states, who, acts, m - 1);
    RecurseKept(states, who, acts, m - 1);
    assert who[m - 1] == who[m - 1];
    AgainStep(states[m - 1], who[m - 1], acts[m - 1], states[m], t, Balance(states, acts, n, t));
    CallsKept(states, who, acts, m, t);
    NotBoth(states[m], t);
  }

  lemma NotBoth(s: State, t: Tid)
    requires AtRest(s, t)
    ensures forall held: int :: !Again(s, t, held)
  {
  }

  /** And it is never stuck on the way: its next step is always possible and is none of a panic. */
  lemma LockAgainMoves(states: seq<State>, who: seq<Tid>, acts: seq<Act>, n: nat, m: nat, t: Tid) returns (s': State)
    requires Behaviour(states, who, acts) && n <= m < |states| && t in states[0].pc && ComesAgain(states, acts, n, t) && states[0].recurse
    requires forall k {:trigger states[k]} | n <= k <= m :: !AtRest(states[k], t)
    ensures Step(states[m], t, Go, s') && t in states[m].pc && t in s'.pc && s'.pc[t] != states[m].pc[t] && s'.pc[t] != Panicked
  {
    hide Inv, Init, KernelStep, UnlockStep;
    AgainGoesOn(states, who, acts, n, m, t);
    RecurseKept(states, who, acts, m);
    var s := states[m];
    s' := if s.pc[t] == LockIn then To(s, t, LockDone).(depth := s.depth + 1) else To(s, t, Out).(spin := Nobody, held := s.held[t := s.held[t] + 1]);
    assert LockStep(s, t, s');
  }

  // ---- no thread is stuck -----------------------------------------------------------------------------

  /** The thread needs a lock that is taken, sleeps, or has panicked. */
  ghost predicate Waits(s: State, t: Tid)
    requires t in s.pc
  {
    var pc := s.pc[t];
    || pc.Asleep? || pc.Panicked? || ((pc.LockWait? || pc.UnlockWait? || pc.Woken?) && !s.spin.Nobody?)
    || ((pc.SleepWait? || pc.WakeWait?) && !s.sl.Nobody?)
  }

  ghost predicate CanStep(s: State, t: Tid)
    requires t in s.pc && t in s.held
  {
    exists s' :: LockStep(s, t, s') || UnlockStep(s, t, s')
  }

  lemma LockCanStep(s: State, t: Tid)
    requires t in s.pc && t in s.held && InLock(s.pc[t]) && !Waits(s, t)
    ensures CanStep(s, t)
  {
    hide UnlockStep;
    var s' := match s.pc[t]
      case LockWait => To(s, t, LockIn).(spin := Thread(t))
      case LockIn =>
        if s.owner == Thread(t) then if s.recurse then To(s, t, LockDone).(depth := s.depth + 1) else To(s, t, Panicked).(spin := Kernel)
        else if s.owner.Nobody? then To(s, t, LockDone).(owner := Thread(t), depth := 1)
        else To(s, t, SleepWait)
      case LockAgain => if s.owner.Nobody? then To(s, t, LockDone).(owner := Thread(t), depth := 1) else To(s, t, SleepWait)
      case SleepWait => To(s, t, SleepIn).(sl := Thread(t))
      case SleepIn => To(s, t, SleepFree).(spin := Nobody)
      case SleepFree => To(s, t, Asleep).(sl := Nobody)
      case Woken => To(s, t, LockAgain).(spin := Thread(t))
      case LockDone => To(s, t, Out).(spin := Nobody, held := s.held[t := s.held[t] + 1])
      case _ => s;
    assert LockStep(s, t, s');
  }

  lemma UnlockCanStep(s: State, t: Tid)
    requires t in s.pc && t in s.held && InUnlock(s.pc[t]) && !Waits(s, t)
    ensures CanStep(s, t)
  {
    hide LockStep;
    var s' := match s.pc[t]
      case UnlockWait => To(s, t, UnlockIn).(spin := Thread(t))
      case UnlockIn =>
        if s.owner != Thread(t) then To(s, t, Panicked).(spin := Kernel)
        else if s.depth > 1 then To(s, t, UnlockDone).(depth := s.depth - 1)
        else To(s, t, WakeWait).(owner := Nobody, depth := 0)
      case WakeWait => To(s, t, WakeIn).(sl := Thread(t))
      case WakeIn => s.(pc := WakeAll(s.pc)[t := UnlockDone], sl := Nobody)
      case UnlockDone => To(s, t, Out).(spin := Nobody, held := s.held[t := s.held[t] - 1])
      case _ => s;
    assert UnlockStep(s, t, s');
  }

  lemma WaitsLong(s: State, t: Tid)
    requires t in s.pc && t in s.held && Waits(s, t)
    ensures !CanStep(s, t)
  {
  }

  /** In every run a thread inside a call has a next step exactly if it does not wait for a lock, sleep, or lie in a panic. */
  lemma NotStuck(states: seq<State>, who: seq<Tid>, acts: seq<Act>, n: nat, t: Tid)
    requires Behaviour(states, who, acts) && n < |states| && t in states[n].pc && t in states[n].held && states[n].pc[t] != Out
    ensures CanStep(states[n], t) <==> !Waits(states[n], t)
  {
    hide Behaviour, CanStep, Waits;
    var s := states[n];
    if Waits(s, t) {
      WaitsLong(s, t);
    } else {
      NotDead(s, t);
      if InLock(s.pc[t]) { LockCanStep(s, t); } else { UnlockCanStep(s, t); }
    }
  }

  lemma NotDead(s: State, t: Tid)
    requires t in s.pc && !Waits(s, t) && s.pc[t] != Out
    ensures InLock(s.pc[t]) || InUnlock(s.pc[t])
  {
  }
}
