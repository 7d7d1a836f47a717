/**
 Signal delivery to one thread (kern/signal/sigentry.c, kern/signal/sigqueue.c):
 a queue of events, new ones at the head, with the trap frame and the mask saved in
 the event whose handler runs.  Handlers are those without SA_SIGINFO.
 */
module Signals {
  import opened Panics
  import Sv39

  type Word = w: nat | w < 0x1_0000_0000_0000_0000

  const SIGNAL_MAX := 128

  /** The numbers that fit into a signal set; sigset_isset panics on all others. */
  type Signo = n: nat | 1 <= n <= SIGNAL_MAX witness 1

  const SIG_IGN := 1
  const SIGKILL := 9
  const SIGSEGV := 11
  const SIGTERM := 15

  /** The registers that delivery touches; rest stands for all others. */
  datatype Frame = Frame(sp: Word, ra: Word, epc: Word, a0: Word, rest: nat)

  datatype Action = Action(handler: Word, restorer: Word, mask: set<Signo>)

  datatype Event = Event(id: nat, signo: Signo, processing: bool, tf: Frame, mask: set<Signo>)

  datatype Thread = Thread(tf: Frame, sigmask: set<Signo>, curmask: set<Signo>, queue: seq<Event>, killed: bool)

  function Sub(x: Word, n: Word): Word {
    if x >= n then x - n else x + 0x1_0000_0000_0000_0000 - n
  }

  /** sig_td_canhandle */
  predicate CanHandle(th: Thread, signo: Signo) {
    signo !in th.sigmask + th.curmask
  }

  /** sig_getse: the first event that is in progress or not blocked. */
  function GetEvent(th: Thread, q: seq<Event>): (i: nat)
    ensures i <= |q| && (i < |q| ==> q[i].processing || CanHandle(th, q[i].signo))
    ensures forall j | 0 <= j < i :: !q[j].processing && !CanHandle(th, q[j].signo)
  {
    if q == [] then 0 else if q[0].processing || CanHandle(th, q[0].signo) then 0 else 1 + GetEvent(th, q[1..])
  }

  /** sig_send_td */
  function Send(th: Thread, id: nat, signo: Signo): Thread {
    th.(queue := [Event(id, signo, false, th.tf, {})] + th.queue, killed := th.killed || signo == SIGKILL)
  }

  /** sig_beforestart on the event at position i: the frame is saved in the event and set up for the handler. */
  function Start(th: Thread, i: nat, sa: Action): Thread
    requires i < |th.queue|
  {
    var e := th.queue[i];
    th.(queue := th.queue[i := e.(processing := true, tf := th.tf, mask := th.curmask)],
        curmask := th.curmask + sa.mask,
        tf := th.tf.(sp := Sub(Sub(th.tf.sp, 0x1000), 8),
                     ra := if sa.restorer != 0 then sa.restorer else Sv39.SIGNAL_TRAMPOLINE,
                     epc := sa.handler,
                     a0 := e.signo))
  }

  function RemoveAt(q: seq<Event>, i: nat): seq<Event>
    requires i < |q|
  {
    q[..i] + q[i + 1..]
  }

  /** What one round of sig_check does, and whether another follows. */
  datatype Round = Stop | Ignore(i: nat) | Kill | Begin(i: nat)

  function CheckRound(th: Thread, act: Signo -> Action): Round {
    var i := GetEvent(th, th.queue);
    if i == |th.queue| || th.queue[i].processing then Stop
    else
      var e := th.queue[i];
      if act(e.signo).handler == 0 || act(e.signo).handler == SIG_IGN then
        if e.signo == SIGKILL || e.signo == SIGTERM || e.signo == SIGSEGV then Kill else Ignore(i)
      else Begin(i)
  }

  /** sig_check: ignored events are dropped until a handler starts, nothing is left to do, or the thread is to die. */
  function Check(th: Thread, act: Signo -> Action): Thread
    decreases |th.queue|
  {
    if th.killed then th
    else
      match CheckRound(th, act)
      case Stop => th
      case Kill => th.(killed := true)
      case Ignore(i) => Check(th.(queue := RemoveAt(th.queue, i)), act)
      case Begin(i) => Start(th, i, act(th.queue[i].signo))
  }

  function FirstProcessing(q: seq<Event>): (i: nat)
    ensures i <= |q| && (i < |q| ==> q[i].processing) && forall j | 0 <= j < i :: !q[j].processing
  {
    if q == [] then 0 else if q[0].processing then 0 else 1 + FirstProcessing(q[1..])
  }

  /** sig_return; with no event in progress it reads through a null pointer. */
  function Return(th: Thread): Option<Thread> {
    var i := FirstProcessing(th.queue);
    if i == |th.queue| then None
    else Some(th.(tf := th.queue[i].tf, curmask := th.queue[i].mask, queue := RemoveAt(th.queue, i)))
  }

  // ---- the thread as the kernel changes it -----------------------------------------------------------

  class SignalThread {
    var tf: Frame
    var sigmask: set<Signo>
    var curmask: set<Signo>
    var queue: seq<Event>
    var killed: bool

    ghost function Th(): Thread
      reads this
    {
      Thread(tf, sigmask, curmask, queue, killed)
    }

    constructor (tf: Frame, sigmask: set<Signo>)
      ensures Th() == Thread(tf, sigmask, {}, [], false)
    {
      this.tf, this.sigmask, curmask, queue, killed := tf, sigmask, {}, [], false;
    }

    /** sig_send_td */
    method SendTd(id: nat, signo: Signo)
      modifies this
      ensures Th() == Send(old(Th()), id, signo)
    {
      queue := [Event(id, signo, false, tf, {})] + queue;
      if signo == SIGKILL { killed := true; }
    }

    /** sig_getse */
    method GetSe() returns (i: nat)
      ensures i == GetEvent(Th(), queue)
    {
      i := 0;
      var rest := queue;
      while rest != [] && !(rest[0].processing || rest[0].signo !in sigmask + curmask)
        invariant GetEvent(Th(), queue) == i + GetEvent(Th(), rest)
        decreases |rest|
      {
        i, rest := i + 1, rest[1..];
      }
    }

    method BeforeStart(i: nat, sa: Action)
      requires i < |queue|
      modifies this
      ensures Th() == Start(old(Th()), i, sa) && (!killed ==> Enters(old(Th()), Th(), old(queue)[i].signo, sa))
    {
      if !killed { StartEnters(Th(), i, sa); }
      var e := queue[i];
      queue := queue[i := e.(processing := true, tf := tf, mask := curmask)];
      curmask := curmask + sa.mask;
      tf := tf.(sp := Sub(tf.sp, 0x1000));
      tf := tf.(ra := if sa.restorer != 0 then sa.restorer else Sv39.SIGNAL_TRAMPOLINE);
      tf := tf.(epc := sa.handler);
      tf := tf.(a0 := e.signo);
      tf := tf.(sp := Sub(tf.sp, 8));
    }

    /** sig_check; dies says that the thread leaves through sys_exit. */
    method SigCheck(act: Signo -> Action) returns (dies: bool)
      modifies this
      ensures Th() == Check(old(Th()), act) && dies == killed
      ensures if old(killed) then Th() == old(Th()) else CheckDone(old(Th()), act, Th())
    {
      hide CheckDone;
      ghost var th := Th();
      CheckIs(th, act);
      while !killed
        invariant Check(th, act) == Check(Th(), act)
        decreases |queue|, !killed
      {
        var i := GetSe();
        if i == |queue| || queue[i].processing { return false; }
        var e := queue[i];
        var sa := act(e.signo);
        if sa.handler == 0 || sa.handler == SIG_IGN {
          if e.signo == SIGKILL || e.signo == SIGTERM || e.signo == SIGSEGV {
            killed := true;
          } else {
            queue := RemoveAt(queue, i);
          }
        } else {
          BeforeStart(i, sa);
          return false;
        }
      }
      return true;
    }

    /** sig_return; ok is false where it reads through a null pointer. */
    method SigReturn() returns (ok: bool)
      modifies this
      ensures Return(old(Th())) == if ok then Some(Th()) else None
      ensures !ok ==> Th() == old(Th())
    {
      var i, rest := 0, queue;
      while rest != [] && !rest[0].processing
        invariant i + |rest| == |queue| && rest == queue[i..]
        invariant FirstProcessing(queue) == i + FirstProcessing(rest)
        decreases |rest|
      {
        i, rest := i + 1, rest[1..];
      }
      if rest == [] { return false; }
      tf, curmask := queue[i].tf, queue[i].mask;
      queue := RemoveAt(queue, i);
      return true;
    }
  }

  // ---- the stack that the queue holds ---------------------------------------------------------------

  /** A started handler: what its return has to restore. */
  datatype Saved = Saved(id: nat, tf: Frame, mask: set<Signo>)

  /** The events in progress, from the head of the queue on. */
  ghost function Stack(q: seq<Event>): seq<Saved> {
    if q == [] then []
    else if q[0].processing then [Saved(q[0].id, q[0].tf, q[0].mask)] + Stack(q[1..])
    else Stack(q[1..])
  }

  lemma {:induction false} StackSkip(q: seq<Event>, i: nat)
    requires i <= |q| && forall j | 0 <= j < i :: !q[j].processing
    ensures Stack(q) == Stack(q[i..])
  {
    if i > 0 {
      StackSkip(q[1..], i - 1);
      assert q[1..][i - 1..] == q[i..];
    } else {
      assert q[0..] == q;
    }
  }

  lemma {:induction false} StackRemove(q: seq<Event>, i: nat)
    requires i < |q| && !q[i].processing
    ensures Stack(RemoveAt(q, i)) == Stack(q)
  {
    if i == 0 {
      assert RemoveAt(q, 0) == q[1..];
    } else {
      StackRemove(q[1..], i - 1);
      assert RemoveAt(q, i) == [q[0]] + RemoveAt(q[1..], i - 1);
    }
  }

  /** A send adds an event that is not in progress: the stack is as before. */
  lemma SendStack(th: Thread, id: nat, signo: Signo)
    ensures Stack(Send(th, id, signo).queue) == Stack(th.queue)
  {
    assert Send(th, id, signo).queue[1..] == th.queue;
  }

  /** A handler that starts is pushed: no event in progress stands before it. */
  lemma StartPushes(th: Thread, act: Signo -> Action, i: nat)
    requires CheckRound(th, act) == Begin(i)
    ensures i < |th.queue|
    ensures Stack(Start(th, i, act(th.queue[i].signo)).queue) == [Saved(th.queue[i].id, th.tf, th.curmask)] + Stack(th.queue)
  {
    var th' := Start(th, i, act(th.queue[i].signo));
    StackSkip(th.queue, i);
    StackSkip(th'.queue, i);
    assert th.queue[i..][0] == th.queue[i] && th.queue[i..][1..] == th.queue[i + 1..];
    assert th'.queue[i..][1..] == th.queue[i + 1..];
  }

  /** sig_return pops: it restores the frame and the mask of the handler started last. */
  lemma ReturnPops(th: Thread)
    ensures if Stack(th.queue) == [] then Return(th) == None
            else Return(th).Some? && var th' := Return(th).value;
                 th'.tf == Stack(th.queue)[0].tf && th'.curmask == Stack(th.queue)[0].mask && Stack(th'.queue) == Stack(th.queue)[1..]
  {
    var i := FirstProcessing(th.queue);
    StackSkip(th.queue, i);
    if i < |th.queue| {
      assert th.queue[i..][0] == th.queue[i] && th.queue[i..][1..] == th.queue[i + 1..];
      var r := RemoveAt(th.queue, i);
      assert r[i..] == th.queue[i + 1..];
      StackSkip(r, i);
    }
  }

  /** sig_check starts at most one handler; otherwise the stack, the frame and the mask are untouched. */
  lemma {:induction false} CheckStack(th: Thread, act: Signo -> Action)
    ensures var th' := Check(th, act);
            || (th'.tf == th.tf && th'.curmask == th.curmask && Stack(th'.queue) == Stack(th.queue))
            || (exists id :: Stack(th'.queue) == [Saved(id, th.tf, th.curmask)] + Stack(th.queue))
    decreases |th.queue|
  {
    if !th.killed {
      match CheckRound(th, act)
      case Stop =>
      case Kill =>
      case Ignore(i) =>
        StackRemove(th.queue, i);
        CheckStack(th.(queue := RemoveAt(th.queue, i)), act);
      case Begin(i) => StartPushes(th, act, i);
    }
  }

  // ---- runs --------------------------------------------------------------------------------------------

  /** What happens to the thread: signals arrive, the kernel checks, the handler returns, user code changes its frame and mask. */
  datatype Step = Arrive(id: nat, signo: Signo) | Checked(act: Signo -> Action) | Returned | User(tf: Frame, sigmask: set<Signo>)

  ghost predicate Next(th: Thread, a: Step, th': Thread) {
    match a
    case Arrive(id, signo) => th' == Send(th, id, signo)
    case Checked(act) => th' == Check(th, act)
    case Returned => Return(th) == Some(th')
    case User(tf, sigmask) => th' == th.(tf := tf, sigmask := sigmask)
  }

  ghost predicate Behaviour(ths: seq<Thread>, steps: seq<Step>) {
    |ths| == |steps| + 1 && forall i {:trigger steps[i]} | 0 <= i < |steps| :: Next(ths[i], steps[i], ths[i + 1])
  }

  lemma NextStack(th: Thread, a: Step, th': Thread)
    requires Next(th, a, th')
    ensures var s, s' := Stack(th.queue), Stack(th'.queue);
            || s' == s
            || (|s'| == |s| + 1 && s'[1..] == s && a.Checked? && s'[0].tf == th.tf && s'[0].mask == th.curmask)
            || (s != [] && s' == s[1..] && a.Returned? && th'.tf == s[0].tf && th'.curmask == s[0].mask)
  {
    match a
    case Arrive(id, signo) => SendStack(th, id, signo);
    case Checked(act) => CheckStack(th, act);
    case Returned => ReturnPops(th);
    case User(_, _) =>
  }

  /** From i to j nothing below depth d has been touched. */
  ghost predicate Above(ths: seq<Thread>, i: nat, j: nat, d: nat) {
    i <= j < |ths| && forall k {:trigger ths[k]} | i <= k <= j :: |Stack(ths[k].queue)| >= d
  }

  lemma {:induction false} DepthKept(ths: seq<Thread>, steps: seq<Step>, i: nat, j: nat, d: nat)
    requires Behaviour(ths, steps) && Above(ths, i, j, d)
    ensures var a, b := Stack(ths[i].queue), Stack(ths[j].queue); a[|a| - d..] == b[|b| - d..]
    decreases j - i
  {
    if i < j {
      assert |Stack(ths[i].queue)| >= d && |Stack(ths[i + 1].queue)| >= d;
      assert steps[i] == steps[i];
      NextStack(ths[i], steps[i], ths[i + 1]);
      DepthKept(ths, steps, i + 1, j, d);
    }
  }

  /**
   Handlers nest as a stack, in every run: when the check at step i starts a handler
   and the return at step j is the first to come back to the depth before it, that
   return restores the frame and the mask the thread had when the handler started.
   */
  lemma MatchingReturn(ths: seq<Thread>, steps: seq<Step>, i: nat, j: nat)
    requires Behaviour(ths, steps) && i < j < |steps| && steps[i].Checked? && steps[j].Returned?
    requires |Stack(ths[i + 1].queue)| == |Stack(ths[i].queue)| + 1
    requires Above(ths, i + 1, j, |Stack(ths[i].queue)| + 1) && |Stack(ths[j].queue)| == |Stack(ths[i].queue)| + 1
    ensures ths[j + 1].tf == ths[i].tf && ths[j + 1].curmask == ths[i].curmask
    ensures Stack(ths[j + 1].queue) == Stack(ths[i].queue)
  {
    assert steps[i] == steps[i] && steps[j] == steps[j];
    NextStack(ths[i], steps[i], ths[i + 1]);
    DepthKept(ths, steps, i + 1, j, |Stack(ths[i].queue)| + 1);
    ReturnPops(ths[j]);
  }

  // ---- events -------------------------------------------------------------------------------------------

  ghost function Ids(q: seq<Event>): multiset<nat> {
    if q == [] then multiset{} else multiset{q[0].id} + Ids(q[1..])
  }

  lemma IdsCons(e: Event, q: seq<Event>)
    ensures Ids([e] + q) == multiset{e.id} + Ids(q)
  {
    assert ([e] + q)[1..] == q;
  }

  lemma RemoveTail(q: seq<Event>, i: nat)
    requires 0 < i < |q|
    ensures |RemoveAt(q, i)| > 0 && RemoveAt(q, i)[0] == q[0] && RemoveAt(q, i)[1..] == RemoveAt(q[1..], i - 1)
  {
  }

  lemma {:induction false} IdsRemove(q: seq<Event>, i: nat)
    requires i < |q|
    ensures Ids(q) == Ids(RemoveAt(q, i)) + multiset{q[i].id}
  {
    if i == 0 {
      assert RemoveAt(q, 0) == q[1..];
    } else {
      IdsRemove(q[1..], i - 1);
      RemoveTail(q, i);
    }
  }

  lemma {:induction false} IdsUpdate(q: seq<Event>, i: nat, e: Event)
    requires i < |q| && e.id == q[i].id
    ensures Ids(q[i := e]) == Ids(q)
  {
    if i == 0 {
      assert q[0 := e][1..] == q[1..];
    } else {
      IdsUpdate(q[1..], i - 1, e);
      assert q[i := e][1..] == q[1..][i - 1 := e];
    }
  }

  /** The events that sig_check drops. */
  ghost function Dropped(th: Thread, act: Signo -> Action): seq<Event>
    decreases |th.queue|
  {
    if th.killed || !CheckRound(th, act).Ignore? then []
    else
      var i := CheckRound(th, act).i;
      [th.queue[i]] + Dropped(th.(queue := RemoveAt(th.queue, i)), act)
  }

  /** Only events with no handler and no deadly default are dropped, and none in progress or blocked. */
  lemma {:induction false} DroppedIgnored(th: Thread, act: Signo -> Action, e: Event)
    requires e in Dropped(th, act)
    ensures e in th.queue && !e.processing && CanHandle(th, e.signo)
    ensures act(e.signo).handler == 0 || act(e.signo).handler == SIG_IGN
    ensures e.signo != SIGKILL && e.signo != SIGTERM && e.signo != SIGSEGV
    decreases |th.queue|
  {
    var i := CheckRound(th, act).i;
    var rest := th.(queue := RemoveAt(th.queue, i));
    if e in Dropped(rest, act) { DroppedIgnored(rest, act, e); }
  }

  /** A check loses no event but those it drops, and queues none twice. */
  lemma {:induction false} CheckIds(th: Thread, act: Signo -> Action)
    ensures Ids(th.queue) == Ids(Check(th, act).queue) + Ids(Dropped(th, act))
    decreases |th.queue|
  {
    if !th.killed {
      match CheckRound(th, act)
      case Stop =>
      case Kill =>
      case Ignore(i) =>
        hide Ids;
        var rest := th.(queue := RemoveAt(th.queue, i));
        IdsRemove(th.queue, i);
        CheckIds(rest, act);
        IdsCons(th.queue[i], Dropped(rest, act));
      case Begin(i) => IdsUpdate(th.queue, i, Start(th, i, act(th.queue[i].signo)).queue[i]);
    }
  }

  /** A return takes exactly the event it returned from out of the queue. */
  lemma ReturnIds(th: Thread)
    requires Return(th).Some?
    ensures Stack(th.queue) != [] && Ids(th.queue) == Ids(Return(th).value.queue) + multiset{Stack(th.queue)[0].id}
  {
    var i := FirstProcessing(th.queue);
    IdsRemove(th.queue, i);
    StackSkip(th.queue, i);
    assert th.queue[i..][0] == th.queue[i];
  }

  /** The events that reach the thread in the first n steps. */
  ghost function Arrived(steps: seq<Step>, n: nat): multiset<nat>
    requires n <= |steps|
  {
    if n == 0 then multiset{}
    else Arrived(steps, n - 1) + Coming(steps[n - 1])
  }

  /** The events that are done with in the first n steps: dropped by a check, or returned from. */
  ghost function Done(ths: seq<Thread>, steps: seq<Step>, n: nat): multiset<nat>
    requires n <= |steps| && |ths| == |steps| + 1
  {
    if n == 0 then multiset{} else Done(ths, steps, n - 1) + Leaving(ths[n - 1], steps[n - 1])
  }

  ghost function Leaving(th: Thread, a: Step): multiset<nat> {
    match a
    case Checked(act) => Ids(Dropped(th, act))
    case Returned => if Stack(th.queue) == [] then multiset{} else multiset{Stack(th.queue)[0].id}
    case _ => multiset{}
  }

  ghost function Coming(a: Step): multiset<nat> {
    if a.Arrive? then multiset{a.id} else multiset{}
  }

  lemma NextIds(th: Thread, a: Step, th': Thread)
    requires Next(th, a, th')
    ensures Ids(th.queue) + Coming(a) == Ids(th'.queue) + Leaving(th, a)
  {
    hide Ids, Stack, Dropped, Check, Return;
    match a
    case Arrive(id, signo) => SendIds(th, id, signo);
    case Checked(act) => CheckIds(th, act);
    case Returned => ReturnIds(th);
    case User(_, _) =>
  }

  lemma SendIds(th: Thread, id: nat, signo: Signo)
    ensures Ids(Send(th, id, signo).queue) == multiset{id} + Ids(th.queue)
  {
    IdsCons(Send(th, id, signo).queue[0], th.queue);
  }

  lemma Balance(a: multiset<nat>, came: multiset<nat>, b: multiset<nat>, left: multiset<nat>,
                coming: multiset<nat>, c: multiset<nat>, leaving: multiset<nat>)
    requires a + came == b + left && b + coming == c + leaving
    ensures a + (came + coming) == c + (left + leaving)
  {
    assert a + (came + coming) == (a + came) + coming;
    assert (b + left) + coming == (b + coming) + left;
    assert (c + leaving) + left == c + (left + leaving);
  }

  lemma Unfold(ths: seq<Thread>, steps: seq<Step>, n: nat)
    requires n <= |steps| && |ths| == |steps| + 1
    ensures n == 0 ==> Arrived(steps, n) == Done(ths, steps, n) == multiset{}
    ensures n > 0 ==> Arrived(steps, n) == Arrived(steps, n - 1) + Coming(steps[n - 1])
    ensures n > 0 ==> Done(ths, steps, n) == Done(ths, steps, n - 1) + Leaving(ths[n - 1], steps[n - 1])
  {
  }

  /** In every run each event that has arrived is still queued, was dropped, or was returned from: once. */
  lemma {:induction false} EventsConserved(ths: seq<Thread>, steps: seq<Step>, n: nat)
    requires Behaviour(ths, steps) && n <= |steps|
    ensures Ids(ths[0].queue) + Arrived(steps, n) == Ids(ths[n].queue) + Done(ths, steps, n)
  {
    hide Ids, Next, Leaving, Coming, Arrived, Done;
    Unfold(ths, steps, n);
    if n > 0 {
      EventsConserved(ths, steps, n - 1);
      assert steps[n - 1] == steps[n - 1];
      NextIds(ths[n - 1], steps[n - 1], ths[n]);
      Balance(Ids(ths[0].queue), Arrived(steps, n - 1), Ids(ths[n - 1].queue), Done(ths, steps, n - 1),
              Coming(steps[n - 1]), Ids(ths[n].queue), Leaving(ths[n - 1], steps[n - 1]));
    }
  }

  // ---- which handler a check starts, and how ------------------------------------------------------------

  /** No handler, and a default that only drops the signal. */
  ghost predicate Ignored(act: Signo -> Action, signo: Signo) {
    (act(signo).handler == 0 || act(signo).handler == SIG_IGN) && signo != SIGKILL && signo != SIGTERM && signo != SIGSEGV
  }

  ghost predicate Handled(act: Signo -> Action, signo: Signo) {
    act(signo).handler != 0 && act(signo).handler != SIG_IGN
  }

  /** A check goes past blocked events, and past unblocked ones that are ignored. */
  ghost predicate Passed(th: Thread, act: Signo -> Action, e: Event) {
    !e.processing && (!CanHandle(th, e.signo) || Ignored(act, e.signo))
  }

  /** The first event a check does not go past. */
  ghost function First(th: Thread, act: Signo -> Action, q: seq<Event>): (i: nat)
    ensures i <= |q| && (i < |q| ==> !Passed(th, act, q[i])) && forall j | 0 <= j < i :: Passed(th, act, q[j])
  {
    if q == [] || !Passed(th, act, q[0]) then 0 else 1 + First(th, act, q[1..])
  }

  /** The event whose handler a check starts: the first it does not go past, if it is not in progress and has a handler. */
  ghost function Started(th: Thread, act: Signo -> Action): Option<Event> {
    var i := First(th, act, th.queue);
    if th.killed || i == |th.queue| || th.queue[i].processing || !Handled(act, th.queue[i].signo) then None else Some(th.queue[i])
  }

  /** The blocked events among some that a check goes past; the others are ignored and dropped. */
  ghost function Blocked(th: Thread, q: seq<Event>): seq<Event> {
    if q == [] then [] else if CanHandle(th, q[0].signo) then Blocked(th, q[1..]) else [q[0]] + Blocked(th, q[1..])
  }

  /** The thread is about to run the handler of sa for signal g, with sa's signals blocked beside those blocked before. */
  ghost predicate Enters(th: Thread, th': Thread, g: Signo, sa: Action) {
    && th'.tf.epc == sa.handler && th'.tf.a0 == g
    && th'.tf.ra == (if sa.restorer == 0 then Sv39.SIGNAL_TRAMPOLINE else sa.restorer)
    && (th'.tf.sp + 0x1008) % 0x1_0000_0000_0000_0000 == th.tf.sp && th'.tf.rest == th.tf.rest
    && (forall s: Signo :: CanHandle(th', s) <==> CanHandle(th, s) && s !in sa.mask)
    && th'.sigmask == th.sigmask && th'.curmask == th.curmask + sa.mask && !th'.killed
  }

  lemma StartEnters(th: Thread, i: nat, sa: Action)
    requires i < |th.queue| && !th.killed
    ensures Enters(th, Start(th, i, sa), th.queue[i].signo, sa)
  {
  }

  lemma {:induction false} BlockedAll(th: Thread, q: seq<Event>, i: nat)
    requires i <= |q| && forall j | 0 <= j < i :: !CanHandle(th, q[j].signo)
    ensures Blocked(th, q[..i]) == q[..i]
  {
    if i > 0 {
      BlockedAll(th, q[1..], i - 1);
      assert q[..i][1..] == q[1..][..i - 1];
    }
  }

  lemma {:induction false} BlockedWithout(th: Thread, q: seq<Event>, k: nat)
    requires k < |q| && CanHandle(th, q[k].signo)
    ensures Blocked(th, RemoveAt(q, k)) == Blocked(th, q)
  {
    if k == 0 {
      assert RemoveAt(q, 0) == q[1..];
    } else {
      BlockedWithout(th, q[1..], k - 1);
      RemoveTail(q, k);
    }
  }

  lemma {:induction false} FirstIs(th: Thread, act: Signo -> Action, q: seq<Event>, i: nat)
    requires i <= |q| && (i < |q| ==> !Passed(th, act, q[i])) && forall j | 0 <= j < i :: Passed(th, act, q[j])
    ensures First(th, act, q) == i
  {
    hide Passed;
    if i > 0 { FirstIs(th, act, q[1..], i - 1); }
  }

  lemma RemovedIs(q: seq<Event>, k: nat, i: nat)
    requires k < i <= |q|
    ensures |RemoveAt(q, k)| == |q| - 1 && RemoveAt(q, k)[i - 1..] == q[i..]
    ensures forall j {:trigger RemoveAt(q, k)[j]} | 0 <= j < |q| - 1 :: RemoveAt(q, k)[j] == q[if j < k then j else j + 1]
  {
  }

  /** Dropping an ignored event that stands before the first one leaves that one the first. */
  lemma DropFirst(th: Thread, act: Signo -> Action, k: nat)
    requires k < First(th, act, th.queue)
    ensures var i, th1 := First(th, act, th.queue), th.(queue := RemoveAt(th.queue, k));
            First(th1, act, th1.queue) == i - 1 && i - 1 <= |th1.queue| && th1.queue[i - 1..] == th.queue[i..]
  {
    var q, i, th1 := th.queue, First(th, act, th.queue), th.(queue := RemoveAt(th.queue, k));
    hide First, Passed, RemoveAt;
    RemovedIs(q, k, i);
    forall j | 0 <= j < i - 1 ensures Passed(th1, act, th1.queue[j]) {
      var x := if j < k then j else j + 1;
      assert th1.queue[j] == q[x] && Passed(th, act, q[x]);
      PassedSame(th, th1, act, q[x]);
    }
    if i < |q| { PassedSame(th, th1, act, q[i]); }
    FirstIs(th1, act, th1.queue, i - 1);
  }

  lemma PassedSame(th: Thread, th1: Thread, act: Signo -> Action, e: Event)
    requires th1.sigmask == th.sigmask && th1.curmask == th.curmask
    ensures Passed(th1, act, e) == Passed(th, act, e)
  {
  }

  lemma DropBlocked(th: Thread, act: Signo -> Action, k: nat)
    requires var i := First(th, act, th.queue); k < i && CanHandle(th, th.queue[k].signo)
    ensures var i, th1 := First(th, act, th.queue), th.(queue := RemoveAt(th.queue, k));
            Blocked(th1, th1.queue[..i - 1]) == Blocked(th, th.queue[..i])
  {
    var q, i, th1 := th.queue, First(th, act, th.queue), th.(queue := RemoveAt(th.queue, k));
    hide First;
    BlockedWithout(th, q[..i], k);
    assert RemoveAt(q[..i], k) == th1.queue[..i - 1];
    SameBlocked(th, th1, th1.queue[..i - 1]);
  }

  lemma {:induction false} SameBlocked(th: Thread, th1: Thread, q: seq<Event>)
    requires th1.sigmask == th.sigmask && th1.curmask == th.curmask
    ensures Blocked(th1, q) == Blocked(th, q)
  {
    if q != [] { SameBlocked(th, th1, q[1..]); }
  }

  /** What sig_check does, said without its rounds. */
  ghost predicate CheckDone(th: Thread, act: Signo -> Action, th': Thread) {
    var i := First(th, act, th.queue);
    var kept := Blocked(th, th.queue[..i]);
    if i == |th.queue| || th.queue[i].processing then th' == th.(queue := kept + th.queue[i..])
    else if !Handled(act, th.queue[i].signo) then th' == th.(queue := kept + th.queue[i..], killed := true)
    else
      && th'.queue == kept + [th.queue[i].(processing := true, tf := th.tf, mask := th.curmask)] + th.queue[i + 1..]
      && Enters(th, th', th.queue[i].signo, act(th.queue[i].signo))
  }

  /** The round finds the first event itself when no ignored one stands before it. */
  lemma RoundFirst(th: Thread, act: Signo -> Action)
    requires !CheckRound(th, act).Ignore?
    ensures GetEvent(th, th.queue) == First(th, act, th.queue)
    ensures Blocked(th, th.queue[..First(th, act, th.queue)]) == th.queue[..First(th, act, th.queue)]
  {
    var i, k := First(th, act, th.queue), GetEvent(th, th.queue);
    assert k < |th.queue| ==> !Passed(th, act, th.queue[k]);
    assert i < |th.queue| ==> th.queue[i].processing || CanHandle(th, th.queue[i].signo);
    BlockedAll(th, th.queue, i);
  }

  lemma RoundDrops(th: Thread, act: Signo -> Action)
    requires CheckRound(th, act).Ignore?
    ensures var k := CheckRound(th, act).i; k < First(th, act, th.queue) && CanHandle(th, th.queue[k].signo)
  {
    var i, k := First(th, act, th.queue), CheckRound(th, act).i;
    assert Passed(th, act, th.queue[k]);
    assert i < |th.queue| ==> th.queue[i].processing || CanHandle(th, th.queue[i].signo);
  }

  lemma CheckGoesOn(th: Thread, act: Signo -> Action, k: nat, th': Thread)
    requires var i := First(th, act, th.queue); k < i && CanHandle(th, th.queue[k].signo)
    requires CheckDone(th.(queue := RemoveAt(th.queue, k)), act, th')
    ensures CheckDone(th, act, th')
  {
    hide First, Blocked, RemoveAt;
    DropFirst(th, act, k);
    DropBlocked(th, act, k);
    var i, th1 := First(th, act, th.queue), th.(queue := RemoveAt(th.queue, k));
    if i < |th.queue| {
      assert th1.queue[i - 1..][0] == th.queue[i..][0] && th1.queue[i - 1..][1..] == th.queue[i..][1..];
    }
  }

  lemma CheckBegins(th: Thread, act: Signo -> Action, i: nat)
    requires !th.killed && CheckRound(th, act) == Begin(i) && First(th, act, th.queue) == i
    requires i < |th.queue| && Blocked(th, th.queue[..i]) == th.queue[..i]
    ensures CheckDone(th, act, Check(th, act))
  {
    hide First, Blocked, GetEvent, Enters;
    StartEnters(th, i, act(th.queue[i].signo));
    var e := th.queue[i].(processing := true, tf := th.tf, mask := th.curmask);
    assert th.queue[i := e] == th.queue[..i] + [e] + th.queue[i + 1..];
  }

  lemma CheckEnds(th: Thread, act: Signo -> Action)
    requires !th.killed && !CheckRound(th, act).Ignore?
    ensures CheckDone(th, act, Check(th, act))
  {
    RoundFirst(th, act);
    var i := First(th, act, th.queue);
    hide First, Blocked, GetEvent, Enters;
    if CheckRound(th, act).Begin? {
      CheckBegins(th, act, i);
    } else {
      hide Start;
      assert th.queue == th.queue[..i] + th.queue[i..];
    }
  }

  /** sig_check, as a whole: ignored events before the first other one are dropped, and that one decides. */
  lemma {:induction false} CheckIs(th: Thread, act: Signo -> Action)
    ensures if th.killed then Check(th, act) == th else CheckDone(th, act, Check(th, act))
    decreases |th.queue|
  {
    hide CheckDone, First;
    if !th.killed {
      if CheckRound(th, act).Ignore? {
        var k := CheckRound(th, act).i;
        RoundDrops(th, act);
        CheckIs(th.(queue := RemoveAt(th.queue, k)), act);
        CheckGoesOn(th, act, k, Check(th, act));
      } else {
        CheckEnds(th, act);
      }
    }
  }

  lemma {:induction false} BlockedStack(th: Thread, q: seq<Event>, rest: seq<Event>)
    requires forall j | 0 <= j < |q| :: !q[j].processing
    ensures Stack(Blocked(th, q) + rest) == Stack(rest) && Stack(q + rest) == Stack(rest)
  {
    if q == [] {
      assert q + rest == rest && Blocked(th, q) + rest == rest;
    } else {
      BlockedStack(th, q[1..], rest);
      assert q + rest == [q[0]] + (q[1..] + rest) && (q + rest)[1..] == q[1..] + rest;
      if !CanHandle(th, q[0].signo) { assert (Blocked(th, q) + rest)[1..] == Blocked(th, q[1..]) + rest; }
    }
  }

  /** The stack grows exactly if that event has a handler, and then by its event with the frame and mask of before. */
  lemma StartsExactly(th: Thread, act: Signo -> Action)
    ensures var th' := Check(th, act);
            match Started(th, act)
            case None => Stack(th'.queue) == Stack(th.queue) && th'.tf == th.tf && th'.curmask == th.curmask && th'.sigmask == th.sigmask
            case Some(e) =>
              && e in th.queue && !e.processing && CanHandle(th, e.signo)
              && Stack(th'.queue) == [Saved(e.id, th.tf, th.curmask)] + Stack(th.queue) && Enters(th, th', e.signo, act(e.signo))
  {
    CheckIs(th, act);
    hide Check, Enters;
    var q, i := th.queue, First(th, act, th.queue);
    hide First;
    if !th.killed {
      assert q == q[..i] + q[i..];
      BlockedStack(th, q[..i], q[i..]);
      if Started(th, act).Some? {
        var e := q[i].(processing := true, tf := th.tf, mask := th.curmask);
        BlockedStack(th, q[..i], [e] + q[i + 1..]);
        assert Blocked(th, q[..i]) + [e] + q[i + 1..] == Blocked(th, q[..i]) + ([e] + q[i + 1..]);
        assert ([e] + q[i + 1..])[1..] == q[i + 1..] && q[i..][1..] == q[i + 1..];
      }
    }
  }

  /** A signal that has just arrived goes first, before older ones and over handlers in progress. */
  lemma NewestFirst(th: Thread, id: nat, signo: Signo, act: Signo -> Action)
    requires !th.killed && signo != SIGKILL && CanHandle(th, signo) && Handled(act, signo)
    ensures Started(Send(th, id, signo), act) == Some(Event(id, signo, false, th.tf, {}))
  {
    var th' := Send(th, id, signo);
    FirstIs(th', act, th'.queue, 0);
  }

  // ---- masks over runs --------------------------------------------------------------------------------------

  /** Everything from depth d of the stack on, and the running mask, block the signals of mask. */
  ghost predicate Masks(th: Thread, d: nat, mask: set<Signo>) {
    var s := Stack(th.queue);
    mask <= th.curmask && |s| >= d && forall j {:trigger s[j]} | 0 <= j < |s| - d :: mask <= s[j].mask
  }

  lemma MasksStep(th: Thread, a: Step, th': Thread, d: nat, mask: set<Signo>)
    requires Next(th, a, th') && Masks(th, d, mask) && |Stack(th'.queue)| >= d
    ensures Masks(th', d, mask)
  {
    hide Stack;
    match a
    case Arrive(id, signo) => SendStack(th, id, signo);
    case Checked(act) =>
      StartsExactly(th, act);
      hide Check, Started;
    case Returned => ReturnPops(th);
    case User(_, _) =>
  }

  lemma {:induction false} MasksRun(ths: seq<Thread>, steps: seq<Step>, i: nat, k: nat, d: nat, mask: set<Signo>)
    requires Behaviour(ths, steps) && Above(ths, i, k, d) && Masks(ths[i], d, mask)
    ensures Masks(ths[k], d, mask)
    decreases k
  {
    hide Masks, Next;
    if i < k {
      MasksRun(ths, steps, i, k - 1, d, mask);
      assert steps[k - 1] == steps[k - 1] && |Stack(ths[k].queue)| >= d;
      MasksStep(ths[k - 1], steps[k - 1], ths[k], d, mask);
    }
  }

  /**
   In every run: from the check that starts a handler until the return from it, no
   check starts a handler for a signal in the mask of its action.
   */
  lemma MaskedMeanwhile(ths: seq<Thread>, steps: seq<Step>, i: nat, k: nat)
    requires Behaviour(ths, steps) && i < k < |steps| && steps[i].Checked? && steps[k].Checked?
    requires Started(ths[i], steps[i].act).Some? && Started(ths[k], steps[k].act).Some?
    requires Above(ths, i + 1, k, |Stack(ths[i].queue)| + 1)
    ensures Started(ths[k], steps[k].act).value.signo !in steps[i].act(Started(ths[i], steps[i].act).value.signo).mask
  {
    hide Started, Stack, Check, Masks, Above, CanHandle;
    assert steps[i] == steps[i];
    var mask := steps[i].act(Started(ths[i], steps[i].act).value.signo).mask;
    StartMasks(ths[i], steps[i].act);
    MasksRun(ths, steps, i + 1, k, |Stack(ths[i].queue)| + 1, mask);
    StartUnmasked(ths[k], steps[k].act, |Stack(ths[i].queue)| + 1, mask);
  }

  lemma StartMasks(th: Thread, act: Signo -> Action)
    requires Started(th, act).Some?
    ensures Masks(Check(th, act), |Stack(th.queue)| + 1, act(Started(th, act).value.signo).mask)
  {
    hide Started, Stack, Check;
    StartsExactly(th, act);
  }

  lemma StartUnmasked(th: Thread, act: Signo -> Action, d: nat, mask: set<Signo>)
    requires Started(th, act).Some? && Masks(th, d, mask)
    ensures Started(th, act).value.signo !in mask
  {
    hide Started, Stack, Check;
    StartsExactly(th, act);
  }

  // ---- SIGKILL -----------------------------------------------------------------------------------------------

  lemma KilledStays(th: Thread, a: Step, th': Thread)
    requires Next(th, a, th') && th.killed
    ensures th'.killed && (a.Checked? ==> th' == th)
  {
  }

  /** In every run signal 9 cannot be blocked or handled: from its arrival on the thread is to die at the next check, and no handler starts. */
  lemma {:induction false} KillWins(ths: seq<Thread>, steps: seq<Step>, i: nat, k: nat)
    requires Behaviour(ths, steps) && i < k < |ths| && steps[i].Arrive? && steps[i].signo == 9
    ensures ths[k].killed && (k < |steps| && steps[k].Checked? ==> ths[k + 1] == ths[k] && Started(ths[k], steps[k].act) == None)
    decreases k
  {
    hide Check, Return;
    assert steps[i] == steps[i];
    if k > i + 1 {
      KillWins(ths, steps, i, k - 1);
      assert steps[k - 1] == steps[k - 1];
      KilledStays(ths[k - 1], steps[k - 1], ths[k]);
    }
    if k < |steps| {
      assert steps[k] == steps[k];
      KilledStays(ths[k], steps[k], ths[k + 1]);
    }
  }
}
