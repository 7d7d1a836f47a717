/**
 Timed sleep (kern/proc/tsleep.c): events in a queue ordered by deadline, threads
 that sleep until their event is removed, and the two ways of removing it.
 */
module TimedSleep {
  import opened Panics

  type Tid = nat

  /** A sleeper's event; deadline 0 means none. */
  datatype Event = Event(t: Tid, chan: nat, deadline: nat)

  // ---- the queue --------------------------------------------------------------------------------------

  predicate Due(e: Event, now: nat) {
    e.deadline != 0 && e.deadline <= now
  }

  /** Event a may stand before event b. */
  predicate Before(a: Event, b: Event) {
    b.deadline == 0 || (a.deadline != 0 && a.deadline <= b.deadline)
  }

  ghost predicate Sorted(q: seq<Event>) {
    forall i, j {:trigger q[i], q[j]} | 0 <= i < j < |q| :: Before(q[i], q[j])
  }

  /** tse_alloc: a timed event goes before the first later or untimed one, an untimed one to the end. */
  function Insert(q: seq<Event>, e: Event): seq<Event> {
    if e.deadline == 0 || q == [] then q + [e]
    else if q[0].deadline > e.deadline || q[0].deadline == 0 then [e] + q
    else [q[0]] + Insert(q[1..], e)
  }

  /** tse_alloc's walk along the queue. */
  method InsertEvent(q: seq<Event>, e: Event) returns (r: seq<Event>)
    ensures r == Insert(q, e)
  {
    if e.deadline == 0 { return q + [e]; }
    var front, rest := [], q;
    while rest != [] && !(rest[0].deadline > e.deadline || rest[0].deadline == 0)
      invariant Insert(q, e) == front + Insert(rest, e)
      decreases |rest|
    {
      assert front + ([rest[0]] + Insert(rest[1..], e)) == (front + [rest[0]]) + Insert(rest[1..], e);
      front, rest := front + [rest[0]], rest[1..];
    }
    r := front + ([e] + rest);
  }

  lemma SortedCons(e: Event, q: seq<Event>)
    requires Sorted(q) && forall x | x in q :: Before(e, x)
    ensures Sorted([e] + q)
  {
  }

  lemma SortedTail(q: seq<Event>)
    requires Sorted(q) && q != []
    ensures Sorted(q[1..]) && q == [q[0]] + q[1..] && forall x | x in q[1..] :: Before(q[0], x)
  {
  }

  lemma {:induction false} InsertSorted(q: seq<Event>, e: Event)
    requires Sorted(q)
    ensures Sorted(Insert(q, e)) && multiset(Insert(q, e)) == multiset(q) + multiset{e}
  {
    if e.deadline != 0 && q != [] {
      SortedTail(q);
      hide Sorted;
      if q[0].deadline > e.deadline || q[0].deadline == 0 {
        SortedCons(e, q);
      } else {
        var r := Insert(q[1..], e);
        InsertSorted(q[1..], e);
        forall x | x in r ensures Before(q[0], x) {
          assert x in multiset(r);
        }
        SortedCons(q[0], r);
      }
    }
  }

  /** tsleep_check without the wakeups: events leave from the head while they are due. */
  function NotDue(q: seq<Event>, now: nat): seq<Event> {
    if q == [] || !Due(q[0], now) then q else NotDue(q[1..], now)
  }

  /** The loop of tsleep_check. */
  method RemoveDue(q: seq<Event>, now: nat) returns (r: seq<Event>)
    ensures r == NotDue(q, now)
  {
    r := q;
    while r != [] && !(r[0].deadline > now || r[0].deadline == 0)
      invariant NotDue(q, now) == NotDue(r, now)
      decreases |r|
    {
      r := r[1..];
    }
  }

  /** In a sorted queue that removes exactly the events that are due. */
  lemma {:induction false} CheckExact(q: seq<Event>, now: nat)
    requires Sorted(q)
    ensures Sorted(NotDue(q, now)) && |NotDue(q, now)| <= |q| && NotDue(q, now) == q[|q| - |NotDue(q, now)|..]
    ensures forall e {:trigger e in NotDue(q, now)} :: e in NotDue(q, now) <==> e in q && !Due(e, now)
  {
    if q != [] {
      assert q == [q[0]] + q[1..];
      if Due(q[0], now) {
        CheckExact(q[1..], now);
      } else {
        forall e | e in q ensures !Due(e, now) {
          assert e == q[0] || Before(q[0], e);
        }
      }
    }
  }

  /** twakeup without the wakeup: every event of the channel leaves. */
  function Unlisted(q: seq<Event>, chan: nat): seq<Event> {
    if q == [] then [] else if q[0].chan == chan then Unlisted(q[1..], chan) else [q[0]] + Unlisted(q[1..], chan)
  }

  lemma {:induction false} UnlistedAppend(q: seq<Event>, e: Event, chan: nat)
    ensures Unlisted(q + [e], chan) == Unlisted(q, chan) + if e.chan == chan then [] else [e]
  {
    if q == [] {
      assert [] + [e] == [e];
    } else {
      UnlistedAppend(q[1..], e, chan);
      assert (q + [e])[1..] == q[1..] + [e];
    }
  }

  lemma {:induction false} UnlistedLonger(q: seq<Event>, chan: nat)
    ensures |Unlisted(q, chan)| <= |q| && (|Unlisted(q, chan)| == |q| ==> Unlisted(q, chan) == q)
    ensures Unlisted(Unlisted(q, chan), chan) == Unlisted(q, chan)
  {
    if q != [] {
      UnlistedLonger(q[1..], chan);
    }
  }

  /** One pass of twakeup along the queue. */
  method RemovePass(q: seq<Event>, chan: nat) returns (r: seq<Event>, removed: bool)
    ensures r == Unlisted(q, chan) && (removed <==> r != q)
  {
    r, removed := [], false;
    var i := 0;
    while i < |q|
      invariant 0 <= i <= |q| && r == Unlisted(q[..i], chan) && |r| <= i && (removed <==> |r| < i)
    {
      UnlistedAppend(q[..i], q[i], chan);
      assert q[..i + 1] == q[..i] + [q[i]];
      if q[i].chan == chan { removed := true; } else { r := r + [q[i]]; }
      i := i + 1;
    }
    assert q[..|q|] == q;
    UnlistedLonger(q, chan);
  }

  /** twakeup passes along the queue until nothing more is removed. */
  method RemoveChannel(q: seq<Event>, chan: nat) returns (r: seq<Event>)
    ensures r == Unlisted(q, chan)
  {
    r := q;
    var removed := true;
    while removed
      invariant Unlisted(q, chan) == Unlisted(r, chan) && (!removed ==> r == Unlisted(q, chan))
      decreases |r|, removed
    {
      UnlistedLonger(r, chan);
      r, removed := RemovePass(r, chan);
    }
  }

  // ---- the threads ------------------------------------------------------------------------------------

  /** How a sleep ended: still pending, woken by twakeup, or timed out. */
  datatype Outcome = Pending | Success | TimedOut

  /** Where a thread stands in tsleep.  mtx: the caller passed a mutex of its own. */
  datatype Pc = Out | Queued | Loose | SleepIn | SleepFree | Asleep | Woken | Freeing

  datatype Thread = Thread(pc: Pc, mtx: bool, chan: nat, deadline: nat, outcome: Outcome)

  /** The event queue's lock: free, held by a sleeper, or by a check or wakeup that may have a channel left to wake. */
  datatype Lock = Free | By(t: Tid) | Checking(now: nat) | CheckWake(now: nat, chan: nat) | Waking(chan: nat)

  datatype QueueLock = Nobody | Holder(t: Tid)

  datatype State = State(used: seq<Event>, lock: Lock, sl: QueueLock, threads: map<Tid, Thread>)

  predicate HasLock(th: Thread) {
    th.pc == Queued || (th.pc == SleepIn && !th.mtx) || th.pc == Freeing
  }

  predicate HasQueue(th: Thread) {
    th.pc == SleepIn || th.pc == SleepFree
  }

  ghost predicate InUsed(s: State, t: Tid) {
    exists i :: 0 <= i < |s.used| && s.used[i].t == t
  }

  /** wakeup(chan) */
  ghost function Wake(threads: map<Tid, Thread>, chan: nat): map<Tid, Thread> {
    map t | t in threads :: if threads[t].pc == Asleep && threads[t].chan == chan then threads[t].(pc := Woken) else threads[t]
  }

  ghost function To(s: State, t: Tid, pc: Pc): State
    requires t in s.threads
  {
    s.(threads := s.threads[t := s.threads[t].(pc := pc)])
  }

  /** No other thread in tsleep uses the channel. */
  ghost predicate OwnChannel(s: State, t: Tid, chan: nat) {
    forall u {:trigger s.threads[u]} | u in s.threads && u != t && s.threads[u].pc != Out :: s.threads[u].chan != chan
  }

  ghost predicate ThreadStep(s: State, t: Tid, mtx: bool, chan: nat, deadline: nat, s': State)
    requires t in s.threads
  {
    match s.threads[t].pc
    case Out =>
      s.lock.Free? && OwnChannel(s, t, chan) &&
      s' == s.(lock := By(t), used := Insert(s.used, Event(t, chan, deadline)), threads := s.threads[t := Thread(Queued, mtx, chan, deadline, Pending)])
    case Queued =>
      if s.threads[t].mtx then s' == To(s, t, Loose).(lock := Free)
      else s.sl.Nobody? && s' == To(s, t, SleepIn).(sl := Holder(t))
    case Loose => s.sl.Nobody? && s' == To(s, t, SleepIn).(sl := Holder(t))
    case SleepIn => s' == To(s, t, SleepFree).(lock := if s.threads[t].mtx then s.lock else Free)
    case SleepFree => s' == To(s, t, Asleep).(sl := Nobody)
    case Woken => s.lock.Free? && s' == To(s, t, Freeing).(lock := By(t))
    case Freeing => s' == To(s, t, Out).(lock := Free)
    case Asleep => false
  }

  /** The event of thread t leaves the queue. */
  ghost function SetUnused(threads: map<Tid, Thread>, t: Tid, timeout: bool): map<Tid, Thread> {
    if t in threads then threads[t := threads[t].(outcome := if timeout then TimedOut else Success)] else threads
  }

  ghost function AllSuccess(threads: map<Tid, Thread>, q: seq<Event>, chan: nat): map<Tid, Thread> {
    map t | t in threads ::
      if exists i :: 0 <= i < |q| && q[i].t == t && q[i].chan == chan then threads[t].(outcome := Success) else threads[t]
  }

  /** tsleep_check and twakeup. */
  ghost predicate WakerStep(s: State, now: nat, chan: nat, s': State) {
    match s.lock
    case Free =>
      || s' == s.(lock := Checking(now))
      || s' == s.(lock := Waking(chan), used := Unlisted(s.used, chan), threads := AllSuccess(s.threads, s.used, chan))
    case Checking(now) =>
      if s.used != [] && Due(s.used[0], now) then
        s' == s.(lock := CheckWake(now, s.used[0].chan), used := s.used[1..], threads := SetUnused(s.threads, s.used[0].t, true))
      else s' == s.(lock := Free)
    case CheckWake(now, c) => s.sl.Nobody? && s' == s.(lock := Checking(now), threads := Wake(s.threads, c))
    case Waking(c) => s.sl.Nobody? && s' == s.(lock := Free, threads := Wake(s.threads, c))
    case By(_) => false
  }

  // ---- the invariant -----------------------------------------------------------------------------------

  /** A wakeup of channel c is on its way. */
  predicate WakeDue(lock: Lock, c: nat) {
    (lock.CheckWake? && lock.chan == c) || (lock.Waking? && lock.chan == c)
  }

  ghost predicate ThreadOk(s: State, t: Tid)
    requires t in s.threads
  {
    var th := s.threads[t];
    && (HasLock(th) ==> s.lock == By(t)) && (HasQueue(th) ==> s.sl == Holder(t))
    && (InUsed(s, t) <==> th.pc != Out && th.outcome == Pending)
    && (th.pc == Woken || th.pc == Freeing ==> th.outcome != Pending)
    && (th.pc == Queued || (th.pc == SleepIn && !th.mtx) ==> th.outcome == Pending)
    && (!th.mtx && (th.pc == SleepFree || th.pc == Asleep) ==> th.outcome == Pending || WakeDue(s.lock, th.chan))
    && (th.pc != Out && WakeDue(s.lock, th.chan) ==> th.outcome != Pending)
    && (th.pc == Loose ==> th.mtx)
  }

  ghost predicate EventOk(s: State, e: Event) {
    e.t in s.threads && s.threads[e.t].chan == e.chan && s.threads[e.t].deadline == e.deadline
  }

  ghost predicate UsedOk(s: State) {
    && Sorted(s.used) && (forall i, j {:trigger s.used[i], s.used[j]} | 0 <= i < j < |s.used| :: s.used[i].t != s.used[j].t)
    && (forall i {:trigger s.used[i]} | 0 <= i < |s.used| :: EventOk(s, s.used[i]))
  }

  ghost predicate Channels(s: State) {
    forall t, u {:trigger s.threads[t], s.threads[u]} | t in s.threads && u in s.threads && t != u ::
      s.threads[t].pc != Out && s.threads[u].pc != Out ==> s.threads[t].chan != s.threads[u].chan
  }

  ghost predicate Inv(s: State) {
    && UsedOk(s) && Channels(s)
    && (s.lock.By? ==> s.lock.t in s.threads && HasLock(s.threads[s.lock.t]))
    && (s.sl.Holder? ==> s.sl.t in s.threads && HasQueue(s.threads[s.sl.t]))
    && (forall t {:trigger ThreadOk(s, t)} | t in s.threads :: ThreadOk(s, t))
  }

  ghost predicate Init(s: State) {
    s.used == [] && s.lock.Free? && s.sl.Nobody? && forall t {:trigger s.threads[t]} | t in s.threads :: s.threads[t].pc == Out
  }

  lemma InitInv(s: State)
    requires Init(s)
    ensures Inv(s)
  {
    forall t | t in s.threads ensures ThreadOk(s, t) {
      assert s.threads[t].pc == Out;
    }
  }

  /** A thread that only moves on, with its event and everyone else's untouched. */
  lemma MoveInv(s: State, t: Tid, s': State)
    requires Inv(s) && t in s.threads && s.threads[t].pc != Out && s.threads[t].pc != Freeing && s.threads[t].pc != Asleep
    requires ThreadStep(s, t, false, 0, 0, s')
    ensures Inv(s')
  {
    hide InUsed, Sorted, ThreadOk;
    MoveSelf(s, t, s');
    forall u | u in s'.threads ensures ThreadOk(s', u) {
      if u != t { MoveOther(s, t, s', u); }
    }
    forall i | 0 <= i < |s'.used| ensures EventOk(s', s'.used[i]) { assert EventOk(s, s.used[i]); }
  }

  lemma MoveSelf(s: State, t: Tid, s': State)
    requires Inv(s) && t in s.threads && s.threads[t].pc != Out && s.threads[t].pc != Freeing && s.threads[t].pc != Asleep
    requires ThreadStep(s, t, false, 0, 0, s')
    ensures t in s'.threads && ThreadOk(s', t)
    ensures s'.lock.By? ==> s'.lock.t in s'.threads && HasLock(s'.threads[s'.lock.t])
    ensures s'.sl.Holder? ==> s'.sl.t in s'.threads && HasQueue(s'.threads[s'.sl.t])
  {
    assert ThreadOk(s, t);
    assert InUsed(s', t) <==> InUsed(s, t);
    hide InUsed, Sorted, UsedOk, Channels;
  }

  lemma MoveOther(s: State, t: Tid, s': State, u: Tid)
    requires Inv(s) && t in s.threads && s.threads[t].pc != Out && s.threads[t].pc != Freeing && s.threads[t].pc != Asleep
    requires ThreadStep(s, t, false, 0, 0, s') && u in s'.threads && u != t
    ensures ThreadOk(s', u)
  {
    assert ThreadOk(s, t) && ThreadOk(s, u);
    assert InUsed(s', u) <==> InUsed(s, u);
    hide InUsed, Sorted, UsedOk, Channels;
  }

  /** tse_free: the event has left the queue before the thread comes back for it. */
  lemma FreeInv(s: State, t: Tid, s': State)
    requires Inv(s) && t in s.threads && s.threads[t].pc == Freeing && ThreadStep(s, t, false, 0, 0, s')
    ensures Inv(s') && !InUsed(s, t)
  {
    assert ThreadOk(s, t);
    assert forall u :: InUsed(s', u) <==> InUsed(s, u);
    forall u | u in s'.threads ensures ThreadOk(s', u) {
      assert ThreadOk(s, u);
    }
    forall i | 0 <= i < |s'.used| ensures EventOk(s', s'.used[i]) { assert EventOk(s, s.used[i]); }
  }

  lemma {:induction false} InsertPlaces(q: seq<Event>, e: Event)
    ensures |Insert(q, e)| == |q| + 1 && exists k :: 0 <= k <= |q| && Insert(q, e) == q[..k] + [e] + q[k..]
  {
    if e.deadline == 0 || q == [] {
      assert Insert(q, e) == q[..|q|] + [e] + q[|q|..];
    } else if q[0].deadline > e.deadline || q[0].deadline == 0 {
      assert Insert(q, e) == q[..0] + [e] + q[0..];
    } else {
      InsertPlaces(q[1..], e);
      var k :| 0 <= k <= |q[1..]| && Insert(q[1..], e) == q[1..][..k] + [e] + q[1..][k..];
      assert Insert(q, e) == q[..k + 1] + [e] + q[k + 1..];
    }
  }

  lemma QueueInv(s: State, t: Tid, mtx: bool, chan: nat, deadline: nat, s': State)
    requires Inv(s) && t in s.threads && s.threads[t].pc == Out && ThreadStep(s, t, mtx, chan, deadline, s')
    ensures Inv(s')
  {
    hide InUsed, Insert, Sorted, UsedOk, Channels, ThreadOk;
    var e := Event(t, chan, deadline);
    SortedQueue(s);
    InsertSorted(s.used, e);
    InsertPlaces(s.used, e);
    var k :| 0 <= k <= |s.used| && s'.used == s.used[..k] + [e] + s.used[k..];
    QueueIn(s, e, k, s');
    NotQueued(s, t);
    forall u | u in s'.threads ensures ThreadOk(s', u) {
      QueueThread(s, t, e, mtx, s', u);
    }
    QueueUsed(s, t, e, k, s');
    QueueChannels(s, t, mtx, chan, deadline, s');
  }

  lemma NotQueued(s: State, t: Tid)
    requires Inv(s) && t in s.threads && s.threads[t].pc == Out
    ensures !InUsed(s, t)
  {
    assert ThreadOk(s, t);
  }

  lemma QueueThread(s: State, t: Tid, e: Event, mtx: bool, s': State, u: Tid)
    requires Inv(s) && t in s.threads && s.lock.Free? && s'.lock == By(t) && s'.sl == s.sl && e.t == t && s.threads[t].pc == Out
    requires s'.threads == s.threads[t := Thread(Queued, mtx, e.chan, e.deadline, Pending)] && u in s'.threads
    requires InUsed(s', u) <==> u == t || InUsed(s, u)
    ensures ThreadOk(s', u)
  {
    assert ThreadOk(s, u);
    hide InUsed, UsedOk, Channels;
  }

  lemma QueueChannels(s: State, t: Tid, mtx: bool, chan: nat, deadline: nat, s': State)
    requires Channels(s) && OwnChannel(s, t, chan) && s'.threads == s.threads[t := Thread(Queued, mtx, chan, deadline, Pending)]
    ensures Channels(s')
  {
    forall u, w | u in s'.threads && w in s'.threads && u != w && s'.threads[u].pc != Out && s'.threads[w].pc != Out
      ensures s'.threads[u].chan != s'.threads[w].chan
    {
      assert u != t && w != t ==> s.threads[u].chan != s.threads[w].chan;
    }
  }

  lemma QueueIn(s: State, e: Event, k: nat, s': State)
    requires k <= |s.used| && s'.used == s.used[..k] + [e] + s.used[k..]
    ensures forall u {:trigger InUsed(s', u)} :: InUsed(s', u) <==> u == e.t || InUsed(s, u)
  {
    forall u ensures InUsed(s', u) <==> u == e.t || InUsed(s, u) {
      if i :| 0 <= i < |s.used| && s.used[i].t == u { assert s'.used[if i < k then i else i + 1].t == u; }
      if u == e.t { assert s'.used[k].t == u; }
    }
  }

  lemma QueueUsed(s: State, t: Tid, e: Event, k: nat, s': State)
    requires UsedOk(s) && t in s.threads && e.t == t && k <= |s.used| && s'.used == s.used[..k] + [e] + s.used[k..] && Sorted(s'.used)
    requires !InUsed(s, t) && t in s'.threads && s'.threads == s.threads[t := s'.threads[t]] && s'.threads[t].chan == e.chan && s'.threads[t].deadline == e.deadline
    ensures UsedOk(s')
  {
    forall i | 0 <= i < |s'.used| ensures EventOk(s', s'.used[i]) && (i != k ==> s'.used[i].t != t) {
      if i != k {
        var i0 := if i < k then i else i - 1;
        assert s'.used[i] == s.used[i0] && EventOk(s, s.used[i0]);
      }
    }
    forall i, j | 0 <= i < j < |s'.used| ensures s'.used[i].t != s'.used[j].t {
      if i != k && j != k {
        var i0, j0 := if i < k then i else i - 1, if j < k then j else j - 1;
        assert s.used[i0].t != s.used[j0].t;
      }
    }
  }

  lemma HeadOut(s: State, s': State)
    requires UsedOk(s) && s.used != [] && s'.used == s.used[1..]
    ensures forall u {:trigger InUsed(s', u)} :: InUsed(s', u) <==> InUsed(s, u) && u != s.used[0].t
    ensures InUsed(s, s.used[0].t) && s.used[0].t in s.threads && s.threads[s.used[0].t].chan == s.used[0].chan
  {
    assert EventOk(s, s.used[0]);
    forall u ensures InUsed(s', u) <==> InUsed(s, u) && u != s.used[0].t {
      if i :| 0 <= i < |s'.used| && s'.used[i].t == u { assert s.used[i + 1].t == u; }
      if u != s.used[0].t {
        if i :| 0 <= i < |s.used| && s.used[i].t == u { assert s'.used[i - 1].t == u; }
      }
    }
  }

  /** tsleep_check takes the event at the head: it is due, and its sleeper's channel is woken next. */
  lemma ExpireInv(s: State, now: nat, s': State)
    requires Inv(s) && s.lock == Checking(now) && s.used != [] && Due(s.used[0], now) && WakerStep(s, now, 0, s')
    ensures Inv(s') && s.used[0].t in s'.threads && s'.threads[s.used[0].t].outcome == TimedOut
  {
    var t := s.used[0].t;
    HeadOut(s, s');
    assert ThreadOk(s, t);
    forall u | u in s'.threads ensures ThreadOk(s', u) {
      assert ThreadOk(s, u);
      assert u != t && s.threads[u].pc != Out ==> s.threads[u].chan != s.threads[t].chan;
    }
    forall i | 0 <= i < |s'.used| ensures EventOk(s', s'.used[i]) { assert EventOk(s, s.used[i + 1]); }
    forall i, j | 0 <= i < j < |s'.used| ensures s'.used[i].t != s'.used[j].t && Before(s'.used[i], s'.used[j]) {
      assert s.used[i + 1].t != s.used[j + 1].t;
    }
  }

  lemma {:induction false} UnlistedIs(q: seq<Event>, chan: nat)
    requires Sorted(q) && forall i, j {:trigger q[i], q[j]} | 0 <= i < j < |q| :: q[i].t != q[j].t
    ensures var r := Unlisted(q, chan);
            && Sorted(r) && (forall i, j {:trigger r[i], r[j]} | 0 <= i < j < |r| :: r[i].t != r[j].t)
            && (forall e {:trigger e in r} :: e in r <==> e in q && e.chan != chan)
  {
    if q != [] {
      assert q == [q[0]] + q[1..];
      UnlistedIs(q[1..], chan);
      var r, rest := Unlisted(q, chan), Unlisted(q[1..], chan);
      if q[0].chan != chan {
        assert r == [q[0]] + rest;
        forall x | x in rest ensures Before(q[0], x) && x.t != q[0].t {
          assert x in q[1..];
        }
        forall i, j | 0 <= i < j < |r| ensures r[i].t != r[j].t && Before(r[i], r[j]) {
          if i == 0 { assert r[j] in rest; }
        }
      }
    }
  }

  lemma InUsedBy(s: State, u: Tid)
    requires UsedOk(s)
    ensures InUsed(s, u) <==> exists e :: e in s.used && e.t == u
  {
    if i :| 0 <= i < |s.used| && s.used[i].t == u { assert s.used[i] in s.used; }
  }

  /** twakeup removes every event of its channel, marked as woken in time. */
  lemma RemoveInv(s: State, chan: nat, s': State)
    requires Inv(s) && s.lock.Free?
    requires s' == s.(lock := Waking(chan), used := Unlisted(s.used, chan), threads := AllSuccess(s.threads, s.used, chan))
    ensures Inv(s')
  {
    UnlistedIs(s.used, chan);
    forall i | 0 <= i < |s'.used| ensures EventOk(s', s'.used[i]) {
      assert s'.used[i] in s'.used;
      var j :| 0 <= j < |s.used| && s.used[j] == s'.used[i];
      assert EventOk(s, s.used[j]);
    }
    forall u | u in s'.threads ensures ThreadOk(s', u) {
      assert ThreadOk(s, u);
      RemovedBy(s, chan, s', u);
    }
  }

  lemma RemovedBy(s: State, chan: nat, s': State, u: Tid)
    requires UsedOk(s) && UsedOk(s') && u in s.threads
    requires (forall e {:trigger e in s'.used} :: e in s'.used <==> e in s.used && e.chan != chan)
    requires s'.threads == AllSuccess(s.threads, s.used, chan)
    ensures InUsed(s', u) <==> InUsed(s, u) && s.threads[u].chan != chan
    ensures s'.threads[u] == if InUsed(s, u) && s.threads[u].chan == chan then s.threads[u].(outcome := Success) else s.threads[u]
  {
    InUsedBy(s, u);
    InUsedBy(s', u);
    if i :| 0 <= i < |s.used| && s.used[i].t == u {
      assert EventOk(s, s.used[i]) && s.used[i] in s.used;
    }
    forall e | e in s.used && e.t == u ensures e.chan == s.threads[u].chan {
      var j :| 0 <= j < |s.used| && s.used[j] == e;
      assert EventOk(s, s.used[j]);
    }
  }

  /** wakeup of the channel: its sleeper, if it is asleep, wakes, and its event is gone already. */
  lemma WakeInv(s: State, c: nat, s': State)
    requires Inv(s) && WakeDue(s.lock, c) && s.sl.Nobody? && s'.threads == Wake(s.threads, c) && s'.used == s.used && s'.sl == s.sl
    requires s'.lock.Free? || s'.lock.Checking?
    ensures Inv(s')
  {
    assert forall u :: InUsed(s', u) <==> InUsed(s, u);
    hide InUsed, Sorted;
    forall u | u in s'.threads ensures ThreadOk(s', u) {
      assert ThreadOk(s, u);
    }
    forall i | 0 <= i < |s'.used| ensures EventOk(s', s'.used[i]) { assert EventOk(s, s.used[i]); }
  }

  lemma LockInv(s: State, lock: Lock)
    requires Inv(s) && (s.lock.Free? || s.lock.Checking?) && (lock.Free? || lock.Checking?)
    ensures Inv(s.(lock := lock))
  {
    var s' := s.(lock := lock);
    assert forall u :: InUsed(s', u) <==> InUsed(s, u);
    hide InUsed, Sorted;
    forall u | u in s'.threads ensures ThreadOk(s', u) {
      assert ThreadOk(s, u);
    }
    forall i | 0 <= i < |s'.used| ensures EventOk(s', s'.used[i]) { assert EventOk(s, s.used[i]); }
  }

  lemma WakerInv(s: State, now: nat, chan: nat, s': State)
    requires Inv(s) && WakerStep(s, now, chan, s')
    ensures Inv(s')
  {
    hide Inv;
    match s.lock
    case Free =>
      if s' == s.(lock := Checking(now)) { LockInv(s, Checking(now)); } else { RemoveInv(s, chan, s'); }
    case Checking(n) =>
      if s.used != [] && Due(s.used[0], n) { ExpireInv(s, n, s'); } else { LockInv(s, Free); }
    case CheckWake(n, c) => WakeInv(s, c, s');
    case Waking(c) => WakeInv(s, c, s');
  }

  // ---- runs ----------------------------------------------------------------------------------------------

  datatype Act = Step(t: Tid, mtx: bool, chan: nat, deadline: nat) | Waker(now: nat, chan: nat)

  ghost predicate Next(s: State, a: Act, s': State) {
    match a
    case Step(t, mtx, chan, deadline) => t in s.threads && ThreadStep(s, t, mtx, chan, deadline, s')
    case Waker(now, chan) => WakerStep(s, now, chan, s')
  }

  lemma NextInv(s: State, a: Act, s': State)
    requires Inv(s) && Next(s, a, s')
    ensures Inv(s')
  {
    hide Inv;
    match a
    case Step(t, mtx, chan, deadline) =>
      if s.threads[t].pc == Out {
        QueueInv(s, t, mtx, chan, deadline, s');
      } else if s.threads[t].pc == Freeing {
        FreeInv(s, t, s');
      } else {
        MoveInv(s, t, s');
      }
    case Waker(now, chan) => WakerInv(s, now, chan, s');
  }

  ghost predicate Behaviour(states: seq<State>, acts: seq<Act>) {
    && |states| == |acts| + 1 && Init(states[0])
    && forall i {:trigger acts[i]} | 0 <= i < |acts| :: Next(states[i], acts[i], states[i + 1])
  }

  lemma {:induction false} RunsKeepInv(states: seq<State>, acts: seq<Act>, n: nat)
    requires Behaviour(states, acts) && n < |states|
    ensures Inv(states[n])
  {
    hide Inv, Next, Init;
    if n == 0 {
      InitInv(states[0]);
    } else {
      RunsKeepInv(states, acts, n - 1);
      assert acts[n - 1] == acts[n - 1];
      NextInv(states[n - 1], acts[n - 1], states[n]);
    }
  }

  /** What thread t asked for in its call of tsleep. */
  ghost function EventOf(s: State, t: Tid): Event
    requires t in s.threads
  {
    Event(t, s.threads[t].chan, s.threads[t].deadline)
  }

  /**
   With no mutex of the caller's, a sleeper is never forgotten: whenever the queue's
   lock is free, a thread that sleeps or is about to has its event in the queue,
   with its own deadline.
   */
  lemma NeverForgotten(states: seq<State>, acts: seq<Act>, n: nat, t: Tid)
    requires Behaviour(states, acts) && n < |states| && t in states[n].threads && states[n].lock.Free?
    requires !states[n].threads[t].mtx && (states[n].threads[t].pc == Asleep || states[n].threads[t].pc == SleepFree)
    ensures exists i :: 0 <= i < |states[n].used| && states[n].used[i] == EventOf(states[n], t)
  {
    RunsKeepInv(states, acts, n);
    assert ThreadOk(states[n], t);
    var i :| 0 <= i < |states[n].used| && states[n].used[i].t == t;
    assert EventOk(states[n], states[n].used[i]);
  }

  /** When a thread comes back from its sleep its event has left the queue, and says how it ended. */
  lemma BackWithOutcome(states: seq<State>, acts: seq<Act>, n: nat, t: Tid)
    requires Behaviour(states, acts) && n < |states| && t in states[n].threads && states[n].threads[t].pc == Freeing
    ensures !InUsed(states[n], t) && states[n].threads[t].outcome != Pending
  {
    RunsKeepInv(states, acts, n);
    assert ThreadOk(states[n], t);
  }

  // ---- what threads, checks and wakeups were called with --------------------------------------------------

  ghost predicate AtRest(s: State, t: Tid) {
    t in s.threads && s.threads[t].pc == Out
  }

  /** The call thread t is in, or was in last: its step when it was at rest. */
  ghost function Asked(states: seq<State>, acts: seq<Act>, n: nat, t: Tid): Option<Act>
    requires n < |states| == |acts| + 1
  {
    if n == 0 then None else AsksNow(states[n - 1], acts[n - 1], t, Asked(states, acts, n - 1, t))
  }

  /** The check or wakeup that runs, or ran last: the waker's step when the lock was free. */
  ghost function Called(states: seq<State>, acts: seq<Act>, n: nat): Option<Act>
    requires n < |states| == |acts| + 1
  {
    if n == 0 then None else CallsNow(states[n - 1], acts[n - 1], Called(states, acts, n - 1))
  }

  /** A thread in tsleep has what it asked for, and a waker works at the time or on the channel it was called with. */
  ghost predicate CallOk(s: State, t: Tid, asked: Option<Act>, called: Option<Act>) {
    && (t in s.threads && s.threads[t].pc != Out ==>
          asked == Some(Step(t, s.threads[t].mtx, s.threads[t].chan, s.threads[t].deadline)))
    && (s.lock.Checking? || s.lock.CheckWake? ==> called.Some? && called.value.Waker? && called.value.now == s.lock.now)
    && (s.lock.Waking? ==> called.Some? && called.value.Waker? && called.value.chan == s.lock.chan)
  }

  ghost function AsksNow(s: State, a: Act, t: Tid, before: Option<Act>): Option<Act> {
    if a.Step? && a.t == t && AtRest(s, t) then Some(a) else before
  }

  ghost function CallsNow(s: State, a: Act, before: Option<Act>): Option<Act> {
    if a.Waker? && s.lock.Free? then Some(a) else before
  }

  lemma CallStep(s: State, a: Act, s': State, t: Tid, asked: Option<Act>, called: Option<Act>)
    requires Next(s, a, s') && CallOk(s, t, asked, called)
    ensures CallOk(s', t, AsksNow(s, a, t, asked), CallsNow(s, a, called))
  {
    hide Insert, Unlisted, OwnChannel;
  }

  lemma {:induction false} CallsKept(states: seq<State>, acts: seq<Act>, n: nat, t: Tid)
    requires Behaviour(states, acts) && n < |states|
    ensures CallOk(states[n], t, Asked(states, acts, n, t), Called(states, acts, n))
  {
    hide Next;
    if n > 0 {
      CallsKept(states, acts, n - 1, t);
      assert acts[n - 1] == acts[n - 1];
      CallStep(states[n - 1], acts[n - 1], states[n], t, Asked(states, acts, n - 1, t), Called(states, acts, n - 1));
    }
  }

  // ---- what a check removes, and what a sleep reports ----------------------------------------------------

  predicate InCheck(s: State, now: nat) {
    s.lock == Checking(now) || (s.lock.CheckWake? && s.lock.now == now)
  }

  /** A check that starts at i and ends at j removes exactly the events that are due at its time. */
  lemma {:induction false} CheckRemovesDue(states: seq<State>, acts: seq<Act>, i: nat, j: nat, now: nat)
    requires Behaviour(states, acts) && i < j < |states| && states[j].lock.Free?
    requires forall k {:trigger states[k]} | i <= k < j :: InCheck(states[k], now)
    ensures states[j].used == NotDue(states[i].used, now)
    decreases j - i
  {
    hide Inv, Next, Init, NotDue;
    RunsKeepInv(states, acts, i);
    assert InCheck(states[i], now) && acts[i] == acts[i];
    assert i + 1 < j ==> InCheck(states[i + 1], now);
    CheckStep(states[i], acts[i], states[i + 1], now);
    if i + 1 < j {
      CheckRemovesDue(states, acts, i + 1, j, now);
    }
  }

  /**
   With no mutex of the caller's nobody oversleeps: when a check at some time has
   ended, no thread that still sleeps or is about to has a deadline at or before that time.
   */
  lemma NobodyOversleeps(states: seq<State>, acts: seq<Act>, i: nat, j: nat, now: nat, t: Tid)
    requires Behaviour(states, acts) && i < j < |states| && states[j].lock.Free?
    requires forall k {:trigger states[k]} | i <= k < j :: InCheck(states[k], now)
    requires t in states[j].threads && (states[j].threads[t].pc == Asleep || states[j].threads[t].pc == SleepFree)
    requires Asked(states, acts, j, t).Some? && Asked(states, acts, j, t).value.Step? && !Asked(states, acts, j, t).value.mtx
    ensures Asked(states, acts, j, t).value.deadline == 0 || Asked(states, acts, j, t).value.deadline > now
    ensures Called(states, acts, i).Some? && Called(states, acts, i).value.Waker? && Called(states, acts, i).value.now == now
    ensures EventOf(states[j], t) in states[j].used
  {
    hide Inv, Behaviour, NotDue;
    CallsKept(states, acts, j, t);
    CallsKept(states, acts, i, t);
    assert InCheck(states[i], now);
    NeverForgotten(states, acts, j, t);
    CheckRemovesDue(states, acts, i, j, now);
    RunsKeepInv(states, acts, i);
    SortedQueue(states[i]);
    CheckExact(states[i].used, now);
    assert EventOf(states[j], t) in NotDue(states[i].used, now);
  }

  lemma SortedQueue(s: State)
    requires Inv(s)
    ensures Sorted(s.used)
  {
  }

  /** While a check holds the lock, each step keeps what will be left in the end. */
  lemma CheckStep(s: State, a: Act, s': State, now: nat)
    requires Inv(s) && InCheck(s, now) && Next(s, a, s') && (InCheck(s', now) || s'.lock.Free?)
    ensures NotDue(s'.used, now) == NotDue(s.used, now) && (s'.lock.Free? ==> s'.used == NotDue(s.used, now))
  {
    match a
    case Step(t, mtx, chan, deadline) => assert ThreadOk(s, t);
    case Waker(_, _) =>
  }

  /** From i to j a twakeup of channel c is at work. */
  ghost predicate WakeCall(states: seq<State>, i: nat, j: nat, c: nat) {
    i + 1 < j < |states| && states[i].lock.Free? && states[j].lock.Free? && forall k {:trigger states[k]} | i < k < j :: states[k].lock == Waking(c)
  }

  lemma {:induction false} UnlistedHas(q: seq<Event>, c: nat, e: Event)
    requires e in Unlisted(q, c)
    ensures e.chan != c && e in q
  {
    if q[0].chan == c || e != q[0] { UnlistedHas(q[1..], c, e); }
  }

  lemma WakeBegins(s: State, a: Act, s': State, c: nat)
    requires Next(s, a, s') && s.lock.Free? && s'.lock == Waking(c)
    ensures s'.used == Unlisted(s.used, c)
  {
  }

  lemma WakeGoesOn(s: State, a: Act, s': State, c: nat)
    requires Inv(s) && Next(s, a, s') && s.lock == Waking(c)
    ensures s'.used == s.used
  {
    if a.Step? { assert ThreadOk(s, a.t); }
  }

  lemma {:induction false} WakeKeepsQueue(states: seq<State>, acts: seq<Act>, i: nat, j: nat, c: nat, k: nat)
    requires Behaviour(states, acts) && WakeCall(states, i, j, c) && i < k <= j
    ensures states[k].used == Unlisted(states[i].used, c)
    decreases k
  {
    hide Next, Inv, Init;
    assert acts[k - 1] == acts[k - 1];
    if k == i + 1 {
      assert states[i + 1].lock == Waking(c);
      WakeBegins(states[i], acts[i], states[i + 1], c);
    } else {
      WakeKeepsQueue(states, acts, i, j, c, k - 1);
      RunsKeepInv(states, acts, k - 1);
      assert states[k - 1].lock == Waking(c);
      WakeGoesOn(states[k - 1], acts[k - 1], states[k], c);
    }
  }

  /** When a twakeup of a channel has ended, no thread that called tsleep on it without a mutex is asleep or about to be. */
  lemma WakesSleepers(states: seq<State>, acts: seq<Act>, i: nat, j: nat, c: nat, t: Tid)
    requires Behaviour(states, acts) && WakeCall(states, i, j, c) && t in states[j].threads
    requires Asked(states, acts, j, t).Some? && Asked(states, acts, j, t).value.Step?
    requires Asked(states, acts, j, t).value.chan == c && !Asked(states, acts, j, t).value.mtx
    ensures states[j].threads[t].pc != Asleep && states[j].threads[t].pc != SleepFree
    ensures Called(states, acts, i + 1).Some? && Called(states, acts, i + 1).value.Waker? && Called(states, acts, i + 1).value.chan == c
  {
    hide Next, Inv, Init;
    CallsKept(states, acts, j, t);
    CallsKept(states, acts, i + 1, t);
    assert states[i + 1].lock == Waking(c);
    WakeKeepsQueue(states, acts, i, j, c, j);
    if states[j].threads[t].pc == Asleep || states[j].threads[t].pc == SleepFree {
      NeverForgotten(states, acts, j, t);
      UnlistedHas(states[i].used, c, EventOf(states[j], t));
    }
  }

  /** Step k is tsleep_check taking the event of thread t, which is due, from the head of the queue. */
  ghost predicate ExpiredAt(states: seq<State>, k: nat, t: Tid) {
    && k + 1 < |states| && states[k].lock.Checking?
    && states[k].used != [] && states[k].used[0].t == t && 0 < states[k].used[0].deadline <= states[k].lock.now
    && states[k + 1].used == states[k].used[1..]
  }

  /** Step k is a twakeup of the channel that thread t sleeps on. */
  ghost predicate WokenAt(states: seq<State>, k: nat, t: Tid) {
    && k + 1 < |states| && states[k].lock.Free? && states[k + 1].lock.Waking? && InUsed(states[k], t)
    && t in states[k].threads && states[k].threads[t].chan == states[k + 1].lock.chan
  }

  /** From state k to state n the thread has been in the same call of tsleep. */
  ghost predicate SameCall(states: seq<State>, k: nat, n: nat, t: Tid) {
    k <= n < |states| && forall j {:trigger states[j]} | k <= j <= n :: t in states[j].threads && states[j].threads[t].pc != Out
  }

  /** How one step can change what a thread in tsleep will report. */
  lemma OutcomeStep(s: State, a: Act, s': State, t: Tid)
    requires Inv(s) && Next(s, a, s') && t in s'.threads && s'.threads[t].pc != Out
    ensures t in s.threads
    ensures s.threads[t].pc == Out ==> s'.threads[t].outcome == Pending
    ensures s.threads[t].pc != Out && s'.threads[t].outcome != s.threads[t].outcome ==>
              || (s'.threads[t].outcome == TimedOut && ExpiredAt([s, s'], 0, t))
              || (s'.threads[t].outcome == Success && WokenAt([s, s'], 0, t))
  {
    assert ThreadOk(s, t);
    hide Insert, Sorted, UsedOk, Channels, Unlisted;
    match a
    case Step(_, _, _, _) =>
    case Waker(now, chan) =>
      if s.lock.Free? && s' != s.(lock := Checking(now)) {
        OutcomeWoken(s, chan, s', t);
      }
  }

  lemma OutcomeWoken(s: State, chan: nat, s': State, t: Tid)
    requires Inv(s) && s.lock.Free? && t in s.threads
    requires s' == s.(lock := Waking(chan), used := Unlisted(s.used, chan), threads := AllSuccess(s.threads, s.used, chan))
    ensures s'.threads[t].outcome == s.threads[t].outcome || (s'.threads[t].outcome == Success && WokenAt([s, s'], 0, t))
  {
    if i :| 0 <= i < |s.used| && s.used[i].t == t && s.used[i].chan == chan {
      assert EventOk(s, s.used[i]);
    }
  }

  /**
   What a sleep reports is what ended it: a timeout if a check found its event due,
   success if a twakeup of its channel found it, during this same call.
   */
  lemma {:induction false} ReportsWhatEndedIt(states: seq<State>, acts: seq<Act>, n: nat, t: Tid)
    requires Behaviour(states, acts) && n < |states| && t in states[n].threads && states[n].threads[t].pc != Out
    ensures states[n].threads[t].outcome == TimedOut ==> exists k: nat :: k < n && SameCall(states, k, n, t) && ExpiredAt(states, k, t)
    ensures states[n].threads[t].outcome == Success ==> exists k: nat :: k < n && SameCall(states, k, n, t) && WokenAt(states, k, t)
  {
    hide Inv, Next, InUsed;
    if n > 0 {
      var s, s' := states[n - 1], states[n];
      RunsKeepInv(states, acts, n - 1);
      assert acts[n - 1] == acts[n - 1];
      OutcomeStep(s, acts[n - 1], s', t);
      if s.threads[t].pc != Out {
        ReportsWhatEndedIt(states, acts, n - 1, t);
        if s'.threads[t].outcome == s.threads[t].outcome {
          forall k: nat | k < n - 1 && SameCall(states, k, n - 1, t) ensures SameCall(states, k, n, t) { }
        } else {
          assert SameCall(states, n - 1, n, t);
          assert ExpiredAt([s, s'], 0, t) ==> ExpiredAt(states, n - 1, t);
          assert WokenAt([s, s'], 0, t) ==> WokenAt(states, n - 1, t);
        }
      }
    }
  }

  // ---- where the caller's mutex makes a difference -----------------------------------------------------

  ghost function Late(t: Tid, chan: nat, deadline: nat, pc: Pc, outcome: Outcome): map<Tid, Thread> {
    map[t := Thread(pc, true, chan, deadline, outcome)]
  }

  /** Thread t asks to be woken at its deadline, and a check at that very time comes before it sleeps. */
  ghost function LateRun(t: Tid, chan: nat, deadline: nat): seq<State> {
    var e := Event(t, chan, deadline);
    [State([], Free, Nobody, Late(t, chan, deadline, Out, Pending)),
     State([e], By(t), Nobody, Late(t, chan, deadline, Queued, Pending)),
     State([e], Free, Nobody, Late(t, chan, deadline, Loose, Pending)),
     State([e], Checking(deadline), Nobody, Late(t, chan, deadline, Loose, Pending)),
     State([], CheckWake(deadline, chan), Nobody, Late(t, chan, deadline, Loose, TimedOut)),
     State([], Checking(deadline), Nobody, Late(t, chan, deadline, Loose, TimedOut)),
     State([], Free, Nobody, Late(t, chan, deadline, Loose, TimedOut)),
     State([], Free, Holder(t), Late(t, chan, deadline, SleepIn, TimedOut)),
     State([], Free, Holder(t), Late(t, chan, deadline, SleepFree, TimedOut)),
     State([], Free, Nobody, Late(t, chan, deadline, Asleep, TimedOut))]
  }

  ghost function LateActs(t: Tid, chan: nat, deadline: nat): seq<Act> {
    var go, check := Step(t, true, chan, deadline), Waker(deadline, chan);
    [go, go, check, check, check, check, go, go, go]
  }

  lemma LateCheck(t: Tid, chan: nat, deadline: nat)
    requires deadline != 0
    ensures var run := LateRun(t, chan, deadline); forall i | 2 <= i < 6 :: WakerStep(run[i], deadline, chan, run[i + 1])
  {
    var run := LateRun(t, chan, deadline);
    assert run[3].used[1..] == [];
    assert SetUnused(run[3].threads, t, true) == run[4].threads;
    assert Wake(run[4].threads, chan) == run[5].threads;
  }

  lemma LateThread(t: Tid, chan: nat, deadline: nat, i: nat)
    requires i < 2 || 6 <= i < 9
    ensures var run := LateRun(t, chan, deadline); t in run[i].threads && ThreadStep(run[i], t, true, chan, deadline, run[i + 1])
  {
    if i == 0 { assert Insert([], Event(t, chan, deadline)) == [Event(t, chan, deadline)]; }
  }

  /**
   With a mutex of the caller's the queue's lock is given up before the thread sleeps,
   so a check can find its event too early: for every thread, channel and deadline
   there is a run in which the thread ends asleep, past its deadline, with no event
   left for anyone to find.
   */
  lemma CallerMutexForgets(t: Tid, chan: nat, deadline: nat)
    requires deadline != 0
    ensures Behaviour(LateRun(t, chan, deadline), LateActs(t, chan, deadline))
    ensures var s := LateRun(t, chan, deadline)[9];
            s.lock.Free? && t in s.threads && s.threads[t].mtx && s.threads[t].pc == Asleep && !InUsed(s, t)
  {
    hide ThreadStep, WakerStep;
    LateCheck(t, chan, deadline);
    forall i | 0 <= i < 2 || 6 <= i < 9
      ensures var run := LateRun(t, chan, deadline); t in run[i].threads && ThreadStep(run[i], t, true, chan, deadline, run[i + 1])
    {
      LateThread(t, chan, deadline, i);
    }
  }

  // ---- no thread is stuck -----------------------------------------------------------------------------

  /** The thread needs a lock that is taken, or sleeps. */
  ghost predicate Waits(s: State, t: Tid)
    requires t in s.threads
  {
    var th := s.threads[t];
    || th.pc == Asleep || (th.pc == Woken && !s.lock.Free?)
    || ((th.pc == Loose || (th.pc == Queued && !th.mtx)) && !s.sl.Nobody?)
  }

  /** A thread inside tsleep has a next step exactly if it does not wait for a lock or sleep. */
  lemma NotStuck(s: State, t: Tid)
    requires t in s.threads && s.threads[t].pc != Out
    ensures (exists s' :: ThreadStep(s, t, false, 0, 0, s')) <==> !Waits(s, t)
  {
    if !Waits(s, t) {
      var th := s.threads[t];
      var s' := if th.pc == Queued && th.mtx then To(s, t, Loose).(lock := Free)
        else if th.pc == Queued || th.pc == Loose then To(s, t, SleepIn).(sl := Holder(t))
        else if th.pc == SleepIn then To(s, t, SleepFree).(lock := if th.mtx then s.lock else Free)
        else if th.pc == SleepFree then To(s, t, Asleep).(sl := Nobody)
        else if th.pc == Woken then To(s, t, Freeing).(lock := By(t))
        else To(s, t, Out).(lock := Free);
      assert ThreadStep(s, t, false, 0, 0, s');
    }
  }

  /** A check or wakeup goes on as soon as the sleep queue's lock is free, and begins as soon as its own is. */
  lemma WakerNotStuck(s: State, now: nat, chan: nat)
    ensures s.lock.Free? ==> WakerStep(s, now, chan, s.(lock := Checking(now)))
    ensures s.lock.Free? ==> exists s' :: WakerStep(s, now, chan, s') && s'.lock == Waking(chan)
    ensures s.lock.Checking? || ((s.lock.CheckWake? || s.lock.Waking?) && s.sl.Nobody?) ==> exists s' :: WakerStep(s, now, chan, s')
  {
    if s.lock.Free? {
      assert WakerStep(s, now, chan, s.(lock := Waking(chan), used := Unlisted(s.used, chan), threads := AllSuccess(s.threads, s.used, chan)));
    }
    if s.lock.Checking? {
      var s' := if s.used != [] && Due(s.used[0], s.lock.now) then
        s.(lock := CheckWake(s.lock.now, s.used[0].chan), used := s.used[1..], threads := SetUnused(s.threads, s.used[0].t, true))
        else s.(lock := Free);
      assert WakerStep(s, now, chan, s');
    }
    if s.lock.CheckWake? && s.sl.Nobody? {
      assert WakerStep(s, now, chan, s.(lock := Checking(s.lock.now), threads := Wake(s.threads, s.lock.chan)));
    }
    if s.lock.Waking? && s.sl.Nobody? {
      assert WakerStep(s, now, chan, s.(lock := Free, threads := Wake(s.threads, s.lock.chan)));
    }
  }
}
