/**
 Waiting for the disk (kern/driver/virtio.c with kern/proc/sleep.c): any number of
 threads submit requests and sleep on their buffers, interrupts on any hart complete
 requests and wake them, and the device works on beside them.
 */
module DiskWait {
  import opened VirtioDisk
  import opened Panics
  import Locks = SleepMutex

  type Tid = nat

  type Holder = Locks.Holder

  /** Where a thread stands in the wait loop of virtio_disk_rw and in sleep. */
  datatype Stage = Check | QueueWait | QueueIn | QueueFree | Asleep | Woken | Done

  /** Where a thread stands in virtio_disk_rw, or in virtio_disk_intr and wakeup. */
  datatype Pc =
    | Out
    | Want(b: nat) | Submit(b: nat) | Wait(stage: Stage, h: nat, b: nat) | Leave
    | IntrWant | IntrIn | WakeWait(b: nat) | WakeIn(b: nat)
    | Panicked

  /** mtx is mtx_virtio, sl the lock of the sleep queue. */
  datatype State = State(mtx: Holder, sl: Holder, k: Ring, f: Flight, pc: map<Tid, Pc>)

  predicate HoldsMtx(pc: Pc) {
    || pc.Submit? || pc.Leave? || pc.IntrIn? || pc.WakeWait? || pc.WakeIn?
    || (pc.Wait? && (pc.stage.Check? || pc.stage.QueueWait? || pc.stage.QueueIn? || pc.stage.Done?))
  }

  predicate HoldsQueue(pc: Pc) {
    pc.WakeIn? || (pc.Wait? && (pc.stage.QueueIn? || pc.stage.QueueFree?))
  }

  /** The buffer a caller of virtio_disk_rw has handed over. */
  function BufOf(pc: Pc): Option<nat> {
    if pc.Want? || pc.Submit? || pc.Wait? then Some(pc.b) else None
  }

  ghost function To(s: State, t: Tid, pc: Pc): State {
    s.(pc := s.pc[t := pc])
  }

  /** wakeup(b): everyone asleep on the buffer leaves the queue. */
  ghost function WakeOn(pc: map<Tid, Pc>, b: nat): map<Tid, Pc> {
    map u | u in pc :: if pc[u].Wait? && pc[u].stage == Asleep && pc[u].b == b then pc[u].(stage := Woken) else pc[u]
  }

  // ---- the steps -----------------------------------------------------------------------------------

  /** A buffer is handed to the driver by one thread at a time; the buffer cache is used under a lock of its own. */
  ghost predicate CallStep(s: State, t: Tid, b: nat, s': State) {
    (forall u | u in s.pc :: BufOf(s.pc[u]) != Some(b)) && s' == To(s, t, Want(b))
  }

  ghost predicate OfferStep(s: State, t: Tid, b: nat, i0: nat, i1: nat, i2: nat, s': State) {
    SubmitStep(s.k, s.f, i0, i1, i2, b, s'.k, s'.f) && s' == To(s, t, Wait(Check, i0, b)).(k := s'.k, f := s'.f)
  }

  ghost predicate WaitStep(s: State, t: Tid, stage: Stage, h: nat, b: nat, s': State) {
    match stage
    case Check => s' == To(s, t, Wait(if b in s.k.busy then QueueWait else Done, h, b))
    case QueueWait => s.sl.Nobody? && s' == To(s, t, Wait(QueueIn, h, b)).(sl := Locks.Thread(t))
    case QueueIn => s' == To(s, t, Wait(QueueFree, h, b)).(mtx := Locks.Nobody)
    case QueueFree => s' == To(s, t, Wait(Asleep, h, b)).(sl := Locks.Nobody)
    case Asleep => false
    case Woken => s.mtx.Nobody? && s' == To(s, t, Wait(Check, h, b)).(mtx := Locks.Thread(t))
    case Done => FinishStep(s.k, s.f, h, s'.k, s'.f) && s' == To(s, t, Leave).(k := s'.k, f := s'.f)
  }

  ghost predicate Answer(s: State, t: Tid, b: nat, s': State) {
    CompleteStep(s.k, s.f, b, s'.k, s'.f) && s' == To(s, t, WakeWait(b)).(k := s'.k, f := s'.f)
  }

  /** The interrupt reads the used ring until it is empty; a request the device could not serve is a panic. */
  ghost predicate IntrStep(s: State, t: Tid, s': State) {
    if s.k.seen == s.k.usedIdx then s' == To(s, t, Out).(mtx := Locks.Nobody)
    else s' == To(s, t, Panicked).(mtx := Locks.Kernel) || exists b :: Answer(s, t, b, s')
  }

  ghost predicate ThreadStep(s: State, t: Tid, s': State)
    requires t in s.pc
  {
    match s.pc[t]
    case Out => s' == To(s, t, IntrWant) || exists b :: CallStep(s, t, b, s')
    case Want(b) => s.mtx.Nobody? && s' == To(s, t, Submit(b)).(mtx := Locks.Thread(t))
    case Submit(b) =>
      || (exists i0, i1, i2 :: OfferStep(s, t, b, i0, i1, i2, s'))
      || ((forall i0, i1, i2 :: !Free3(s.k, i0, i1, i2)) && s' == To(s, t, Panicked).(mtx := Locks.Kernel))
    case Wait(stage, h, b) => WaitStep(s, t, stage, h, b, s')
    case Leave => s' == To(s, t, Out).(mtx := Locks.Nobody)
    case IntrWant => s.mtx.Nobody? && s' == To(s, t, IntrIn).(mtx := Locks.Thread(t))
    case IntrIn => IntrStep(s, t, s')
    case WakeWait(b) => s.sl.Nobody? && s' == To(s, t, WakeIn(b)).(sl := Locks.Thread(t))
    case WakeIn(b) => s' == s.(pc := WakeOn(s.pc, b)[t := IntrIn], sl := Locks.Nobody)
    case Panicked => false
  }

  /** The device takes a request or reports one, whoever holds which lock. */
  ghost predicate DeviceStep(s: State, s': State) {
    && s' == s.(k := s'.k, f := s'.f)
    && (TakeStep(s.k, s.f, s'.k, s'.f) || exists h :: ReportStep(s.k, s.f, h, s'.k, s'.f))
  }

  /** The rest of the kernel takes and gives back the queue's lock, and may wake a sleeper meanwhile. */
  ghost predicate KernelStep(s: State, s': State) {
    || (s.sl.Nobody? && s' == s.(sl := Locks.Kernel))
    || (s.sl.Kernel? && s' == s.(sl := Locks.Nobody))
    || (s.sl.Kernel? && exists t :: Roused(s, t, s'))
  }

  ghost predicate Roused(s: State, t: Tid, s': State) {
    t in s.pc && s.pc[t].Wait? && s.pc[t].stage == Asleep && s' == To(s, t, s.pc[t].(stage := Woken))
  }

  ghost predicate Next(s: State, t: Tid, s': State) {
    DeviceStep(s, s') || KernelStep(s, s') || (t in s.pc && ThreadStep(s, t, s'))
  }

  // ---- the invariant --------------------------------------------------------------------------------

  ghost predicate Waking(s: State, b: nat) {
    s.mtx.Thread? && s.mtx.t in s.pc && (s.pc[s.mtx.t] == WakeWait(b) || s.pc[s.mtx.t] == WakeIn(b))
  }

  /** The buffers of the requests in flight. */
  ghost function Bufs(f: Flight): map<nat, nat> {
    map h | h in f.reqs :: f.reqs[h].buf
  }

  ghost predicate NotSent(bufs: map<nat, nat>, b: nat) {
    forall h | h in bufs :: bufs[h] != b
  }

  ghost predicate ThreadOk(s: State, t: Tid)
    requires t in s.pc
  {
    var pc := s.pc[t];
    && (HoldsMtx(pc) ==> s.mtx == Locks.Thread(t)) && (HoldsQueue(pc) ==> s.sl == Locks.Thread(t))
    && (pc.Want? || pc.Submit? ==> NotSent(Bufs(s.f), pc.b))
    && (pc.Wait? ==> pc.h in Bufs(s.f) && Bufs(s.f)[pc.h] == pc.b && StageOk(s, pc.stage, pc.b))
  }

  /** A thread goes to sleep only on a busy buffer; it stays asleep on one that is done only while it is being woken. */
  ghost predicate StageOk(s: State, stage: Stage, b: nat) {
    match stage
    case QueueWait => b in s.k.busy
    case QueueIn => b in s.k.busy
    case QueueFree => b in s.k.busy || Waking(s, b)
    case Asleep => b in s.k.busy || Waking(s, b)
    case Done => b !in s.k.busy
    case _ => true
  }

  ghost predicate LocksOk(s: State) {
    && (s.mtx.Thread? ==> s.mtx.t in s.pc && HoldsMtx(s.pc[s.mtx.t]))
    && (s.sl.Thread? ==> s.sl.t in s.pc && HoldsQueue(s.pc[s.sl.t]))
  }

  ghost predicate Distinct(s: State, t: Tid, u: Tid)
    requires t in s.pc && u in s.pc
  {
    t != u ==> BufOf(s.pc[t]).None? || BufOf(s.pc[t]) != BufOf(s.pc[u])
  }

  /** Somebody waits for every request in flight. */
  ghost predicate Waited(s: State, h: nat) {
    exists t :: t in s.pc && s.pc[t].Wait? && s.pc[t].h == h
  }

  ghost predicate AllOk(s: State) {
    forall t {:trigger ThreadOk(s, t)} | t in s.pc :: ThreadOk(s, t)
  }

  ghost predicate AllDistinct(s: State) {
    forall t, u {:trigger Distinct(s, t, u)} | t in s.pc && u in s.pc :: Distinct(s, t, u)
  }

  ghost predicate AllWaited(s: State) {
    forall h {:trigger Waited(s, h)} | h in Bufs(s.f) :: Waited(s, h)
  }

  ghost predicate Inv(s: State) {
    RingOk(s.k, s.f) && LocksOk(s) && AllOk(s) && AllDistinct(s) && AllWaited(s)
  }

  ghost predicate Init(s: State) {
    && s.mtx.Nobody? && s.sl.Nobody? && s.f.reqs == map[] && RingOk(s.k, s.f)
    && forall t | t in s.pc :: s.pc[t] == Out
  }

  lemma InitInv(s: State)
    requires Init(s)
    ensures Inv(s)
  {
  }

  // ---- what the steps do to the rings ----------------------------------------------------------------

  lemma OfferFacts(k: Ring, f: Flight, i0: nat, i1: nat, i2: nat, b: nat, k': Ring, f': Flight)
    requires RingOk(k, f) && SubmitStep(k, f, i0, i1, i2, b, k', f')
    ensures RingOk(k', f') && i0 !in Bufs(f) && Bufs(f') == Bufs(f)[i0 := b] && k'.busy == k.busy + {b}
  {
    hide RingHolds, QueueOk, Apart, InChain, HasBuf;
    SubmitOk(k, f, i0, i1, i2, b);
    assert i0 in f.reqs ==> ReqOk(k, f, i0);
  }

  lemma DeviceFacts(k: Ring, f: Flight, k': Ring, f': Flight)
    requires RingOk(k, f) && (TakeStep(k, f, k', f') || exists h :: ReportStep(k, f, h, k', f'))
    ensures RingOk(k', f') && Bufs(f') == Bufs(f) && k'.busy == k.busy
  {
    hide RingOk;
    StepOk(k, f, k', f');
  }

  lemma AnswerFacts(k: Ring, f: Flight, b: nat, k': Ring, f': Flight)
    requires RingOk(k, f) && CompleteStep(k, f, b, k', f')
    ensures RingOk(k', f') && Bufs(f') == Bufs(f) && k'.busy == k.busy - {b}
  {
    hide RingOk;
    StepOk(k, f, k', f');
  }

  lemma FinishFacts(k: Ring, f: Flight, h: nat, k': Ring, f': Flight)
    requires RingOk(k, f) && FinishStep(k, f, h, k', f')
    ensures RingOk(k', f') && h in Bufs(f) && Bufs(f') == Bufs(f) - {h} && k'.busy == k.busy
  {
    hide RingOk, Linked;
    StepOk(k, f, k', f');
  }

  // ---- every step keeps the invariant ----------------------------------------------------------------

  /** Thread t has moved, and nobody else; the rings are as given. */
  ghost predicate OneMoved(s: State, t: Tid, s': State) {
    t in s.pc && t in s'.pc && s'.pc == s.pc[t := s'.pc[t]]
  }

  ghost predicate SameRings(s: State, s': State) {
    s'.k == s.k && s'.f == s.f
  }

  lemma KeepDistinct(s: State, t: Tid, s': State)
    requires AllDistinct(s) && OneMoved(s, t, s') && (BufOf(s'.pc[t]).None? || BufOf(s'.pc[t]) == BufOf(s.pc[t]))
    ensures AllDistinct(s')
  {
    forall a, b | a in s'.pc && b in s'.pc ensures Distinct(s', a, b) {
      assert Distinct(s, a, b) && Distinct(s, b, a);
    }
  }

  lemma KeepWaited(s: State, t: Tid, s': State)
    requires AllWaited(s) && OneMoved(s, t, s') && Bufs(s'.f) == Bufs(s.f)
    requires s.pc[t].Wait? ==> s'.pc[t].Wait? && s'.pc[t].h == s.pc[t].h
    ensures AllWaited(s')
  {
    forall h | h in Bufs(s'.f) ensures Waited(s', h) {
      assert Waited(s, h);
      var u :| u in s.pc && s.pc[u].Wait? && s.pc[u].h == h;
      assert u in s'.pc && s'.pc[u].Wait? && s'.pc[u].h == h;
    }
  }

  /** The steps that leave the rings and everybody else's place alone. */
  ghost predicate Plain(s: State, t: Tid, s': State) {
    && t in s.pc && ThreadStep(s, t, s') && SameRings(s, s') && OneMoved(s, t, s') && !s.pc[t].WakeIn? && !s.pc[t].Out?
    && !(s.pc[t].Submit? && s'.pc[t].Wait?) && !s'.pc[t].Leave? && !s'.pc[t].WakeWait?
  }

  lemma PlainSelf(s: State, t: Tid, s': State)
    requires Inv(s) && Plain(s, t, s')
    ensures ThreadOk(s', t) && LocksOk(s')
  {
    hide RingOk, Bufs, SubmitStep, FinishStep, CompleteStep, AllDistinct, AllWaited, Free3;
    assert ThreadOk(s, t);
  }

  lemma PlainOther(s: State, t: Tid, s': State, u: Tid)
    requires Inv(s) && Plain(s, t, s') && u in s.pc && u != t
    ensures ThreadOk(s', u)
  {
    hide RingOk, Bufs, SubmitStep, FinishStep, CompleteStep, AllDistinct, AllWaited, Free3;
    assert ThreadOk(s, t) && ThreadOk(s, u);
  }

  lemma PlainInv(s: State, t: Tid, s': State)
    requires Inv(s) && Plain(s, t, s')
    ensures Inv(s')
  {
    hide RingOk, Bufs, SubmitStep, FinishStep, CompleteStep, AllDistinct, AllWaited, Free3, ThreadOk, LocksOk;
    PlainSelf(s, t, s');
    forall u | u in s'.pc ensures ThreadOk(s', u) {
      if u != t { PlainOther(s, t, s', u); }
    }
    KeepDistinct(s, t, s');
    KeepWaited(s, t, s');
  }

  /** A buffer no thread has handed over is in no request. */
  lemma Unsent(s: State, b: nat)
    requires Inv(s) && forall u | u in s.pc :: BufOf(s.pc[u]) != Some(b)
    ensures NotSent(Bufs(s.f), b)
  {
    hide RingOk, Bufs, AllDistinct, LocksOk;
    forall h | h in Bufs(s.f) ensures Bufs(s.f)[h] != b {
      assert Waited(s, h);
      var u :| u in s.pc && s.pc[u].Wait? && s.pc[u].h == h;
      assert ThreadOk(s, u);
    }
  }

  lemma CallInv(s: State, t: Tid, b: nat, s': State)
    requires Inv(s) && t in s.pc && s.pc[t] == Out && CallStep(s, t, b, s')
    ensures Inv(s')
  {
    hide RingOk, Bufs, NotSent;
    Unsent(s, b);
    forall u | u in s'.pc ensures ThreadOk(s', u) { assert ThreadOk(s, u); }
    forall a, c | a in s'.pc && c in s'.pc ensures Distinct(s', a, c) { assert Distinct(s, a, c) && Distinct(s, c, a); }
    KeepWaited(s, t, s');
  }

  lemma EnterInv(s: State, t: Tid, s': State)
    requires Inv(s) && t in s.pc && s.pc[t] == Out && s' == To(s, t, IntrWant)
    ensures Inv(s')
  {
    hide RingOk, Bufs, NotSent, AllDistinct, AllWaited;
    forall u | u in s'.pc ensures ThreadOk(s', u) { assert ThreadOk(s, u); }
    KeepDistinct(s, t, s');
    KeepWaited(s, t, s');
  }

  lemma OfferOther(s: State, t: Tid, b: nat, i0: nat, i1: nat, i2: nat, s': State, u: Tid)
    requires Inv(s) && t in s.pc && s.pc[t] == Submit(b) && OfferStep(s, t, b, i0, i1, i2, s') && u in s.pc && u != t
    ensures ThreadOk(s', u)
  {
    hide RingOk, Bufs, SubmitStep, AllWaited;
    OfferFacts(s.k, s.f, i0, i1, i2, b, s'.k, s'.f);
    assert ThreadOk(s, t) && ThreadOk(s, u) && Distinct(s, t, u);
  }

  lemma OfferInv(s: State, t: Tid, b: nat, i0: nat, i1: nat, i2: nat, s': State)
    requires Inv(s) && t in s.pc && s.pc[t] == Submit(b) && OfferStep(s, t, b, i0, i1, i2, s')
    ensures Inv(s')
  {
    hide RingOk, Bufs, SubmitStep;
    OfferFacts(s.k, s.f, i0, i1, i2, b, s'.k, s'.f);
    assert ThreadOk(s, t);
    forall u | u in s'.pc ensures ThreadOk(s', u) {
      if u != t { OfferOther(s, t, b, i0, i1, i2, s', u); }
    }
    KeepDistinct(s, t, s');
    forall h | h in Bufs(s'.f) ensures Waited(s', h) {
      if h == i0 {
        assert s'.pc[t].Wait? && s'.pc[t].h == h;
      } else {
        assert Waited(s, h);
        var u :| u in s.pc && s.pc[u].Wait? && s.pc[u].h == h;
        assert u in s'.pc && s'.pc[u].Wait? && s'.pc[u].h == h;
      }
    }
  }

  lemma FinishOther(s: State, t: Tid, s': State, u: Tid)
    requires Inv(s) && t in s.pc && s.pc[t].Wait? && s.pc[t].stage == Done && ThreadStep(s, t, s') && u in s.pc && u != t
    ensures ThreadOk(s', u)
  {
    hide RingOk, Bufs, FinishStep, AllWaited;
    FinishFacts(s.k, s.f, s.pc[t].h, s'.k, s'.f);
    assert ThreadOk(s, t) && ThreadOk(s, u) && Distinct(s, t, u);
  }

  lemma FinishInv(s: State, t: Tid, s': State)
    requires Inv(s) && t in s.pc && s.pc[t].Wait? && s.pc[t].stage == Done && ThreadStep(s, t, s')
    ensures Inv(s')
  {
    hide RingOk, Bufs, FinishStep;
    FinishFacts(s.k, s.f, s.pc[t].h, s'.k, s'.f);
    assert ThreadOk(s, t);
    forall u | u in s'.pc ensures ThreadOk(s', u) {
      if u != t { FinishOther(s, t, s', u); }
    }
    KeepDistinct(s, t, s');
    forall h | h in Bufs(s'.f) ensures Waited(s', h) {
      assert Waited(s, h);
      var u :| u in s.pc && s.pc[u].Wait? && s.pc[u].h == h;
      assert u != t && u in s'.pc && s'.pc[u].Wait? && s'.pc[u].h == h;
    }
  }

  lemma AnswerInv(s: State, t: Tid, b: nat, s': State)
    requires Inv(s) && t in s.pc && s.pc[t] == IntrIn && Answer(s, t, b, s')
    ensures Inv(s')
  {
    hide RingOk, Bufs, CompleteStep, AllWaited, AllDistinct, NotSent;
    AnswerFacts(s.k, s.f, b, s'.k, s'.f);
    assert ThreadOk(s, t);
    forall u | u in s'.pc ensures ThreadOk(s', u) { assert ThreadOk(s, u); }
    KeepDistinct(s, t, s');
    KeepWaited(s, t, s');
  }

  lemma WakeInv(s: State, t: Tid, b: nat, s': State)
    requires Inv(s) && t in s.pc && s.pc[t] == WakeIn(b) && s' == s.(pc := WakeOn(s.pc, b)[t := IntrIn], sl := Locks.Nobody)
    ensures Inv(s')
  {
    hide RingOk, Bufs, NotSent;
    assert ThreadOk(s, t);
    forall u | u in s'.pc ensures ThreadOk(s', u) { assert ThreadOk(s, u); }
    forall a, c | a in s'.pc && c in s'.pc ensures Distinct(s', a, c) { assert Distinct(s, a, c); }
    forall h | h in Bufs(s'.f) ensures Waited(s', h) {
      assert Waited(s, h);
      var u :| u in s.pc && s.pc[u].Wait? && s.pc[u].h == h;
      assert u in s'.pc && s'.pc[u].Wait? && s'.pc[u].h == h;
    }
  }

  lemma DeviceInv(s: State, s': State)
    requires Inv(s) && DeviceStep(s, s')
    ensures Inv(s')
  {
    hide RingOk, Bufs, NotSent, TakeStep, ReportStep;
    DeviceFacts(s.k, s.f, s'.k, s'.f);
    forall u | u in s'.pc ensures ThreadOk(s', u) { assert ThreadOk(s, u); }
    forall a, c | a in s'.pc && c in s'.pc ensures Distinct(s', a, c) { assert Distinct(s, a, c); }
    forall h | h in Bufs(s'.f) ensures Waited(s', h) { assert Waited(s, h); }
  }

  lemma KernelInv(s: State, s': State)
    requires Inv(s) && KernelStep(s, s')
    ensures Inv(s')
  {
    hide RingOk, Bufs, NotSent;
    forall u | u in s'.pc ensures ThreadOk(s', u) { assert ThreadOk(s, u); }
    forall a, c | a in s'.pc && c in s'.pc ensures Distinct(s', a, c) { assert Distinct(s, a, c); }
    forall h | h in Bufs(s'.f) ensures Waited(s', h) {
      assert Waited(s, h);
      var u :| u in s.pc && s.pc[u].Wait? && s.pc[u].h == h;
      assert u in s'.pc && s'.pc[u].Wait? && s'.pc[u].h == h;
    }
  }

  lemma StepInv(s: State, t: Tid, s': State)
    requires Inv(s) && Next(s, t, s')
    ensures Inv(s')
  {
    hide Inv, SubmitStep, FinishStep, CompleteStep, Free3;
    if DeviceStep(s, s') {
      DeviceInv(s, s');
    } else if KernelStep(s, s') {
      KernelInv(s, s');
    } else {
      match s.pc[t]
      case Out =>
        if s' == To(s, t, IntrWant) {
          EnterInv(s, t, s');
        } else {
          var b :| CallStep(s, t, b, s');
          CallInv(s, t, b, s');
        }
      case Submit(b) =>
        if i0, i1, i2 :| OfferStep(s, t, b, i0, i1, i2, s') {
          OfferInv(s, t, b, i0, i1, i2, s');
        } else {
          PlainInv(s, t, s');
        }
      case IntrIn =>
        if b :| Answer(s, t, b, s') { AnswerInv(s, t, b, s'); } else { PlainInv(s, t, s'); }
      case WakeIn(b) => WakeInv(s, t, b, s');
      case Wait(stage, h, b) =>
        if stage == Done { FinishInv(s, t, s'); } else { PlainInv(s, t, s'); }
      case _ => PlainInv(s, t, s');
    }
  }

  // ---- runs ------------------------------------------------------------------------------------------

  ghost predicate WaitRun(states: seq<State>, who: seq<Tid>) {
    && |states| == |who| + 1 && Init(states[0])
    && forall i {:trigger who[i]} | 0 <= i < |who| :: Next(states[i], who[i], states[i + 1])
  }

  lemma {:induction false} WaitRunKeeps(states: seq<State>, who: seq<Tid>, n: nat)
    requires WaitRun(states, who) && n < |states|
    ensures Inv(states[n])
  {
    hide Inv, Next;
    if n == 0 {
      InitInv(states[0]);
    } else {
      WaitRunKeeps(states, who, n - 1);
      assert who[n - 1] == who[n - 1];
      StepInv(states[n - 1], who[n - 1], states[n]);
    }
  }

  /**
   No wakeup is lost: whenever mtx_virtio is free, the request of a thread that is
   asleep, or has given the lock up to go to sleep, is not completed yet.
   */
  lemma SleeperStillWaits(states: seq<State>, who: seq<Tid>, n: nat, t: Tid)
    requires WaitRun(states, who) && n < |states| && t in states[n].pc && states[n].pc[t].Wait?
    requires states[n].mtx.Nobody? && (states[n].pc[t].stage == Asleep || states[n].pc[t].stage == QueueFree)
    ensures var s := states[n]; var h := s.pc[t].h;
            && h in s.f.reqs && s.f.reqs[h].buf == s.pc[t].b && s.pc[t].b in s.k.busy
            && match s.f.reqs[h].phase
               case Offered => h in s.f.offered
               case InDevice => true
               case Reported => s.k.seen != s.k.usedIdx
               case Completed => false
  {
    hide WaitRun, Linked, Apart;
    WaitRunKeeps(states, who, n);
    var s := states[n];
    assert ThreadOk(s, t);
    assert ReqOk(s.k, s.f, s.pc[t].h);
    if s.f.reqs[s.pc[t].h].phase == Reported {
      assert s.pc[t].h in s.f.reported;
      if s.k.seen == s.k.usedIdx { EmptyReported(s.k, s.f); }
    }
  }

  /** virtio_disk_rw returns only when its request is completed, and then the chain can be freed. */
  lemma DoneIsCompleted(states: seq<State>, who: seq<Tid>, n: nat, t: Tid)
    requires WaitRun(states, who) && n < |states| && t in states[n].pc
    requires states[n].pc[t].Wait? && states[n].pc[t].stage == Done
    ensures var s := states[n]; var h := s.pc[t].h;
            h in s.f.reqs && s.f.reqs[h].phase == Completed && exists k', f' :: FinishStep(s.k, s.f, h, k', f')
  {
    hide WaitRun, Apart, RingHolds, QueueOk;
    WaitRunKeeps(states, who, n);
    var s := states[n];
    var h := s.pc[t].h;
    assert ThreadOk(s, t);
    assert ReqOk(s.k, s.f, h);
    assert FinishStep(s.k, s.f, h, Freed(s.k, s.f.reqs[h], h), s.f.(reqs := s.f.reqs - {h}));
  }

  /** Every request in flight has exactly one thread waiting for it. */
  lemma OneWaiter(states: seq<State>, who: seq<Tid>, n: nat, h: nat) returns (t: Tid)
    requires WaitRun(states, who) && n < |states| && h in states[n].f.reqs
    ensures var pc := states[n].pc;
            && t in pc && pc[t].Wait? && pc[t].h == h && pc[t].b == states[n].f.reqs[h].buf
            && forall u | u in pc && pc[u].Wait? && pc[u].h == h :: u == t
  {
    hide WaitRun, RingOk;
    WaitRunKeeps(states, who, n);
    var s := states[n];
    assert h in Bufs(s.f) && Waited(s, h);
    t :| t in s.pc && s.pc[t].Wait? && s.pc[t].h == h;
    assert ThreadOk(s, t);
    forall u | u in s.pc && s.pc[u].Wait? && s.pc[u].h == h ensures u == t {
      assert ThreadOk(s, u) && Distinct(s, u, t);
    }
  }

  lemma ThreeOf(s: set<nat>) returns (a: nat, b: nat, c: nat)
    requires |s| >= 3
    ensures a in s && b in s && c in s && a != b && a != c && b != c
  {
    a :| a in s;
    assert |s - {a}| >= 2;
    b :| b in s - {a};
    assert |s - {a} - {b}| >= 1;
    c :| c in s - {a} - {b};
  }

  lemma FreeThree(k: Ring, f: Flight, a: nat, b: nat, c: nat)
    requires RingOk(k, f) && a in FreeSet(k) && b in FreeSet(k) && c in FreeSet(k) && a != b && a != c && b != c
    ensures Free3(k, a, b, c)
  {
    hide QueueOk, Apart, ReqOk, InChain, HasBuf;
  }

  lemma FreeSplit(k: Ring, f: Flight, i0: nat, i1: nat, i2: nat)
    requires RingOk(k, f) && Free3(k, i0, i1, i2)
    ensures |f.reqs| < 2
  {
    hide RingOk;
    ThreeFree(k, f, i0, i1, i2);
  }

  /** A request finds no descriptors, and the kernel panics, exactly when two others are being waited for. */
  lemma SubmitPanics(states: seq<State>, who: seq<Tid>, n: nat)
    requires WaitRun(states, who) && n < |states|
    ensures (forall i0, i1, i2 :: !Free3(states[n].k, i0, i1, i2)) <==> |states[n].f.reqs| == 2
  {
    hide WaitRun, RingOk, FreeSet, Free3, LocksOk, AllOk, AllDistinct, AllWaited;
    WaitRunKeeps(states, who, n);
    var k, f := states[n].k, states[n].f;
    Conserved(k, f);
    if |f.reqs| < 2 {
      var a, b, c := ThreeOf(FreeSet(k));
      FreeThree(k, f, a, b, c);
    } else if i0, i1, i2 :| Free3(k, i0, i1, i2) {
      FreeSplit(k, f, i0, i1, i2);
    }
  }

  // ---- no thread is stuck ------------------------------------------------------------------------------

  /** The thread needs a lock that is taken, sleeps, or has panicked. */
  ghost predicate Waits(s: State, t: Tid)
    requires t in s.pc
  {
    var pc := s.pc[t];
    || pc.Panicked? || (pc.Wait? && pc.stage == Asleep)
    || ((pc.Want? || pc.IntrWant? || (pc.Wait? && pc.stage == Woken)) && !s.mtx.Nobody?)
    || ((pc.WakeWait? || (pc.Wait? && pc.stage == QueueWait)) && !s.sl.Nobody?)
  }

  /** A step of the thread that is no panic. */
  ghost predicate CanStep(s: State, t: Tid)
    requires t in s.pc
  {
    exists s' :: ThreadStep(s, t, s') && t in s'.pc && s'.pc[t] != Panicked
  }

  lemma WaitCanStep(s: State, t: Tid)
    requires Inv(s) && t in s.pc && s.pc[t].Wait? && !Waits(s, t)
    ensures CanStep(s, t)
  {
    hide RingOk, AllDistinct, AllWaited, LocksOk, FinishStep, Bufs;
    assert ThreadOk(s, t);
    var h, b := s.pc[t].h, s.pc[t].b;
    var k', f' := s.k, s.f;
    if s.pc[t].stage == Done { k', f' := FinishCan(s.k, s.f, h, b); }
    var s' := match s.pc[t].stage
      case Check => To(s, t, Wait(if b in s.k.busy then QueueWait else Done, h, b))
      case QueueWait => To(s, t, Wait(QueueIn, h, b)).(sl := Locks.Thread(t))
      case QueueIn => To(s, t, Wait(QueueFree, h, b)).(mtx := Locks.Nobody)
      case QueueFree => To(s, t, Wait(Asleep, h, b)).(sl := Locks.Nobody)
      case Woken => To(s, t, Wait(Check, h, b)).(mtx := Locks.Thread(t))
      case _ => To(s, t, Leave).(k := k', f := f');
    assert ThreadStep(s, t, s');
  }

  lemma FinishCan(k: Ring, f: Flight, h: nat, b: nat) returns (k': Ring, f': Flight)
    requires RingOk(k, f) && h in Bufs(f) && Bufs(f)[h] == b && b !in k.busy
    ensures FinishStep(k, f, h, k', f')
  {
    hide RingHolds, QueueOk, Apart, InChain, HasBuf;
    assert ReqOk(k, f, h);
    k', f' := Freed(k, f.reqs[h], h), f.(reqs := f.reqs - {h});
  }

  lemma AnswerCan(k: Ring, f: Flight) returns (b: nat, k': Ring, f': Flight)
    requires RingOk(k, f) && k.seen != k.usedIdx
    ensures CompleteStep(k, f, b, k', f')
  {
    CompleteOk(k, f);
    hide RingOk;
    b := f.reqs[f.reported[0]].buf;
    k', f' := k.(seen := U16(k.seen + 1), busy := k.busy - {b}), f.(reqs := Moved(f, f.reported[0], Completed), reported := f.reported[1..]);
  }

  lemma IntrCanStep(s: State, t: Tid)
    requires Inv(s) && t in s.pc && s.pc[t] == IntrIn
    ensures CanStep(s, t)
  {
    hide RingOk, AllDistinct, AllWaited, LocksOk, AllOk, CompleteStep;
    if s.k.seen == s.k.usedIdx {
      assert ThreadStep(s, t, To(s, t, Out).(mtx := Locks.Nobody));
    } else {
      var b, k', f' := AnswerCan(s.k, s.f);
      var s' := To(s, t, WakeWait(b)).(k := k', f := f');
      assert Answer(s, t, b, s');
      assert ThreadStep(s, t, s');
    }
  }

  lemma OfferCan(k: Ring, f: Flight, i0: nat, i1: nat, i2: nat, b: nat)
    requires RingOk(k, f) && Free3(k, i0, i1, i2) && NotSent(Bufs(f), b)
    ensures SubmitStep(k, f, i0, i1, i2, b, Submitted(k, i0, i1, i2, b), Added(f, i0, i1, i2, b))
  {
    hide RingHolds, QueueOk, Apart, InChain, HasBuf, ReqOk;
    forall h | h in f.reqs ensures f.reqs[h].buf != b { assert Bufs(f)[h] != b; }
  }

  lemma SubmitCanStep(s: State, t: Tid)
    requires Inv(s) && t in s.pc && s.pc[t].Submit? && |s.f.reqs| < 2
    ensures CanStep(s, t)
  {
    hide RingOk, AllDistinct, AllWaited, LocksOk, FreeSet, SubmitStep, Bufs, NotSent;
    var b := s.pc[t].b;
    assert ThreadOk(s, t);
    Conserved(s.k, s.f);
    var i0, i1, i2 := ThreeOf(FreeSet(s.k));
    FreeThree(s.k, s.f, i0, i1, i2);
    OfferCan(s.k, s.f, i0, i1, i2, b);
    var s' := To(s, t, Wait(Check, i0, b)).(k := Submitted(s.k, i0, i1, i2, b), f := Added(s.f, i0, i1, i2, b));
    assert OfferStep(s, t, b, i0, i1, i2, s');
    assert ThreadStep(s, t, s');
  }

  lemma OtherCanStep(s: State, t: Tid)
    requires t in s.pc && !Waits(s, t) && !s.pc[t].Wait? && !s.pc[t].Submit? && !s.pc[t].IntrIn?
    ensures CanStep(s, t)
  {
    var s' := match s.pc[t]
      case Out => To(s, t, IntrWant)
      case Want(b) => To(s, t, Submit(b)).(mtx := Locks.Thread(t))
      case Leave => To(s, t, Out).(mtx := Locks.Nobody)
      case IntrWant => To(s, t, IntrIn).(mtx := Locks.Thread(t))
      case WakeWait(b) => To(s, t, WakeIn(b)).(sl := Locks.Thread(t))
      case WakeIn(b) => s.(pc := WakeOn(s.pc, b)[t := IntrIn], sl := Locks.Nobody)
      case _ => s;
    assert ThreadStep(s, t, s');
  }

  /**
   In every run a caller or an interrupt that does not wait for a lock or sleep has a
   next step, and none of a panic, but where a third request finds no descriptors.
   */
  lemma NotStuck(states: seq<State>, who: seq<Tid>, n: nat, t: Tid)
    requires WaitRun(states, who) && n < |states| && t in states[n].pc && !Waits(states[n], t)
    ensures CanStep(states[n], t) || (states[n].pc[t].Submit? && |states[n].f.reqs| == 2)
  {
    hide WaitRun, Waits, CanStep, Inv;
    WaitRunKeeps(states, who, n);
    var s := states[n];
    if s.pc[t].Wait? {
      WaitCanStep(s, t);
    } else if s.pc[t].IntrIn? {
      IntrCanStep(s, t);
    } else if s.pc[t].Submit? {
      AtMostTwo(s);
      if |s.f.reqs| < 2 { SubmitCanStep(s, t); }
    } else {
      OtherCanStep(s, t);
    }
  }

  lemma AtMostTwo(s: State)
    requires Inv(s)
    ensures |s.f.reqs| <= 2
  {
    hide RingOk, FreeSet;
    Conserved(s.k, s.f);
  }
}
