/**
 * The process table as the kernel keeps it: a ring of 100 slots and fields that each system
 * call updates in place, refining the state machine of module Lifecycle.
 */
module Scheduler {
  import opened Lifecycle

  /** The processes between head and tail of the ring. */
  function Ring(slots: seq<int>, head: nat, tail: nat): seq<int>
    requires head < |slots| && tail < |slots|
  {
    if head <= tail then slots[head..tail] else slots[head..] + slots[..tail]
  }

  /** The slot of the n-th process. */
  function Wrap(head: nat, n: nat): nat { (head + n) % QUEUE_SIZE }

  lemma WrapIs(head: nat, n: nat)
    requires head < QUEUE_SIZE && n <= QUEUE_SIZE
    ensures Wrap(head, n) == if head + n < QUEUE_SIZE then head + n else head + n - QUEUE_SIZE
  {
  }

  lemma RingSlot(slots: seq<int>, head: nat, tail: nat, n: nat)
    requires |slots| == QUEUE_SIZE && head < QUEUE_SIZE && tail < QUEUE_SIZE && n <= |Ring(slots, head, tail)|
    ensures n < |Ring(slots, head, tail)| ==> Ring(slots, head, tail)[n] == slots[Wrap(head, n)]
    ensures Wrap(head, n) == tail <==> n == |Ring(slots, head, tail)|
    ensures Wrap(Wrap(head, n), 1) == Wrap(head, n + 1)
  {
    assert n < QUEUE_SIZE;
    WrapIs(head, n);
    WrapIs(head, n + 1);
    hide Wrap;
    WrapIs(Wrap(head, n), 1);
  }

  lemma WrapOne(i: nat)
    requires i < QUEUE_SIZE
    ensures Wrap(i, 1) == if i == QUEUE_SIZE - 1 then 0 else i + 1
  {
  }

  lemma RingEnqueue(slots: seq<int>, head: nat, tail: nat, p: int)
    requires |slots| == QUEUE_SIZE && head < QUEUE_SIZE && tail < QUEUE_SIZE && |Ring(slots, head, tail)| + 1 < QUEUE_SIZE
    ensures Ring(slots[tail := p], head, Wrap(tail, 1)) == Ring(slots, head, tail) + [p]
  {
    WrapOne(tail);
  }

  lemma RingEmpty(slots: seq<int>, head: nat, tail: nat)
    requires head < |slots| && tail < |slots|
    ensures Ring(slots, head, tail) == [] <==> head == tail
  {
  }

  lemma KnownTail(queue: seq<int>, pcbs: map<int, Pcb>)
    requires Known(queue, pcbs) && queue != []
    ensures Known(queue[1..], pcbs)
  {
  }

  lemma RingDequeue(slots: seq<int>, head: nat, tail: nat)
    requires |slots| == QUEUE_SIZE && head < QUEUE_SIZE && tail < QUEUE_SIZE && head != tail
    ensures Ring(slots, head, tail) == [slots[head]] + Ring(slots, Wrap(head, 1), tail)
  {
    hide *;
    WrapOne(head);
    RingIs(slots, head, tail);
    RingIs(slots, Wrap(head, 1), tail);
    if head < tail {
      SliceFirst(slots, head, tail);
    } else {
      SliceFirst(slots, head, QUEUE_SIZE);
      SliceAll(slots);
      Attached(slots[head], slots[head + 1..QUEUE_SIZE], slots[..tail]);
    }
  }

  lemma RingIs(slots: seq<int>, head: nat, tail: nat)
    requires head < |slots| && tail < |slots|
    ensures head <= tail ==> Ring(slots, head, tail) == slots[head..tail]
    ensures tail < head ==> Ring(slots, head, tail) == slots[head..] + slots[..tail]
  {
  }

  lemma SliceFirst<T>(s: seq<T>, i: nat, j: nat)
    requires i < j <= |s|
    ensures s[i..j] == [s[i]] + s[i + 1..j]
  {
  }

  lemma SliceAll<T>(s: seq<T>)
    ensures forall i | 0 <= i <= |s| :: s[i..|s|] == s[i..] && s[0..i] == s[..i]
    ensures s[|s|..|s|] == []
  {
  }

  lemma Attached<T>(x: T, s: seq<T>, t: seq<T>)
    ensures [x] + s + t == [x] + (s + t) && [] + t == t && [x] + t == [x] + ([] + t)
  {
  }

  lemma FirstRest<T>(x: T, s: seq<T>)
    ensures ([x] + s)[0] == x && ([x] + s)[1..] == s
  {
  }

  lemma RotateUnfold(queue: seq<int>, active: int, pcbs: map<int, Pcb>)
    requires active in pcbs && Known(queue, pcbs) && Skipped(queue + [active], pcbs) <= |queue|
    ensures var line := Line(queue, active, pcbs);
      && line != []
      && (Runnable(pcbs[line[0]]) ==> Rotate(queue, active, pcbs) == (line[1..], line[0]))
      && (!Runnable(pcbs[line[0]]) ==>
            Skipped(line[1..] + [line[0]], pcbs) < |line| && Rotate(queue, active, pcbs) == Rotate(line[1..], line[0], pcbs)
            && Skipped(line[1..] + [line[0]], pcbs) < Skipped(queue + [active], pcbs))
  {
    SkipOne(queue, active, pcbs);
  }

  datatype Lookup = Missing | Found(pid: int)

  /** The first n queued processes have been looked at, and woken where wake says so. */
  predicate Looked(before: map<int, Pcb>, now: map<int, Pcb>, queue: seq<int>, n: nat, wake: Pcb -> Pcb)
    requires n <= |queue|
  {
    now.Keys == before.Keys && forall p | p in before :: now[p] == if p in queue[..n] then wake(before[p]) else before[p]
  }

  lemma LookStart(before: map<int, Pcb>, queue: seq<int>, wake: Pcb -> Pcb)
    ensures Looked(before, before, queue, 0, wake)
  {
  }

  lemma WrapNone(head: nat)
    requires head < QUEUE_SIZE
    ensures Wrap(head, 0) == head
  {
  }

  lemma LookNext(before: map<int, Pcb>, now: map<int, Pcb>, queue: seq<int>, n: nat, wake: Pcb -> Pcb, next: map<int, Pcb>)
    requires n < |queue| && Looked(before, now, queue, n, wake) && queue[n] in before
    requires forall p :: wake(wake(p)) == wake(p)
    requires next == now[queue[n] := wake(now[queue[n]])]
    ensures Looked(before, next, queue, n + 1, wake)
  {
    assert queue[..n + 1] == queue[..n] + [queue[n]];
  }

  lemma LookedInput(s: Sys, now: map<int, Pcb>, wake: Pcb -> Pcb)
    requires Looked(s.pcbs, now, s.queue, |s.queue|, wake) && forall p :: wake(p) == WakeStdin(p)
    ensures NotifyStdin(s) == s.(pcbs := now)
  {
    assert s.queue[..|s.queue|] == s.queue;
    var m := NotifyStdin(s).pcbs;
    assert m.Keys == now.Keys;
    forall p | p in m ensures m[p] == now[p] { assert p in s.pcbs; }
    assert m == now;
  }

  lemma LookedExit(s: Sys, now: map<int, Pcb>, wake: Pcb -> Pcb, pid: int, status: nat)
    requires Looked(s.pcbs, now, s.queue, |s.queue|, wake) && forall p :: wake(p) == WakeExit(p, pid, status)
    ensures NotifyExit(s, pid, status) == s.(pcbs := now)
  {
    assert s.queue[..|s.queue|] == s.queue;
    var m := NotifyExit(s, pid, status).pcbs;
    assert m.Keys == now.Keys;
    forall p | p in m ensures m[p] == now[p] { assert p in s.pcbs; }
    assert m == now;
  }

  lemma LookedClock(s: Sys, now: map<int, Pcb>, wake: Pcb -> Pcb, clock: nat)
    requires Looked(s.pcbs, now, s.queue, |s.queue|, wake) && forall p :: wake(p) == WakeAlarm(p, clock)
    ensures NotifyAlarm(s, clock) == s.(pcbs := now)
  {
    assert s.queue[..|s.queue|] == s.queue;
    var m := NotifyAlarm(s, clock).pcbs;
    assert m.Keys == now.Keys;
    forall p | p in m ensures m[p] == now[p] { assert p in s.pcbs; }
    assert m == now;
  }

  /** What `handle_COW` finds out about the partner of the active process. */
  predicate HasPartner(s: Sys)
    requires s.active in s.pcbs && Known(s.queue, s.pcbs)
  {
    if Me(s).ppid == 0 then exists i :: 0 <= i < |s.queue| && s.pcbs[s.queue[i]].ppid == s.active
    else Me(s).ppid in s.queue
  }

  /** Parent and child of a fork, both alive, one of them active. */
  predicate LivePair(s: Sys, parent: int, child: int) {
    && parent in s.pcbs && child in s.pcbs && parent != child && s.pcbs[child].ppid == parent
    && s.pcbs[parent].status != Finished && s.pcbs[child].status != Finished && s.active in {parent, child}
  }

  /**
   * While parent and child of a fork are both alive the child always finds its partner; the parent
   * does if and only if it was never forked itself or its own parent is still queued.
   */
  lemma PairFindsPartner(s: Sys, parent: int, child: int)
    requires Inv(s) && LivePair(s, parent, child)
    ensures HasPartner(s) <==> s.active == child || s.pcbs[parent].ppid == 0 || s.pcbs[parent].ppid in s.queue
  {
    assert parent >= 1;
    if s.active == parent {
      var i :| 0 <= i < |s.queue| && s.queue[i] == child;
    }
  }

  /** A switch when the head of the queue is runnable. */
  lemma SwitchToHead(s: Sys)
    requires s.active in s.pcbs && Known(s.queue, s.pcbs) && s.queue != [] && Runnable(s.pcbs[s.queue[0]])
    ensures CanSchedule(s)
    ensures Schedule(s) == s.(queue := s.queue[1..] + (if Me(s).status == Finished then [] else [s.active]),
                              active := s.queue[0], slice := 0)
  {
    assert (s.queue + [s.active])[0] == s.queue[0];
    assert (s.queue + [s.active])[1..] == s.queue[1..] + [s.active];
  }

  const STARTED := Pcb(0, Running, false, 0, 0, 0, InUser)
  const UNSTARTED := Pcb(0, Ready, false, 0, 0, 0, InStart)
  const EXITED := Pcb(0, Finished, false, 0, 0, 0, InUser)

  function ChildOf(pid: int): Pcb { Pcb(pid, Running, false, 0, 0, 0, InUser) }

  /** The states of a run in which the shell is started, forks and exits, and its child forks in turn. */
  function OrphanState(n: nat): Sys {
    if n == 0 then Initial()
    else if n == 1 then Sys([1], 2, map[1 := STARTED, 2 := UNSTARTED], 2, 0, 0, [])
    else if n == 2 then Sys([1], 2, map[1 := STARTED, 2 := STARTED], 2, 0, 0, [])
    else if n == 3 then Sys([1, 3], 2, map[1 := STARTED, 2 := STARTED, 3 := ChildOf(2)], 3, 0, 0, [])
    else if n == 4 then Sys([3], 1, map[1 := STARTED, 2 := EXITED, 3 := ChildOf(2)], 3, 0, 0, [])
    else if n == 5 then Sys([1], 3, map[1 := STARTED, 2 := EXITED, 3 := ChildOf(2)], 3, 0, 0, [])
    else Sys([1, 4], 3, map[1 := STARTED, 2 := EXITED, 3 := ChildOf(2), 4 := ChildOf(3)], 4, 0, 0, [])
  }

  const ORPHAN_FORKS: seq<Event> := [Yield, Resume(false), Fork, Exit(0), Yield, Fork]

  lemma OrphanStep(n: nat)
    requires n < 6
    ensures var s, e := OrphanState(n), ORPHAN_FORKS[n];
      s.active in s.pcbs && Allowed(s, e) && Step(s, e) == OrphanState(n + 1)
  {
    var s, e := OrphanState(n), ORPHAN_FORKS[n];
    if n in {0, 3, 4} { SwitchToHead(Before(s, e).0); }
    if n == 3 {
      assert Before(s, e).0.pcbs == map[1 := STARTED, 2 := EXITED, 3 := ChildOf(2)];
    }
  }

  lemma {:induction false} OrphanRun(n: nat)
    requires n <= 6
    ensures AllowedRun(OrphanState(n), ORPHAN_FORKS[n..]) && Run(OrphanState(n), ORPHAN_FORKS[n..]) == OrphanState(6)
    decreases 6 - n
  {
    if n < 6 {
      OrphanStep(n);
      OrphanRun(n + 1);
      assert ORPHAN_FORKS[n..][1..] == ORPHAN_FORKS[n + 1..] && ORPHAN_FORKS[n..][0] == ORPHAN_FORKS[n];
      hide OrphanState, Step, Allowed;
    }
  }

  /** So a fork of an orphan leaves a live pair whose parent does not find its partner. */
  lemma OrphanForks()
    ensures AllowedRun(Initial(), ORPHAN_FORKS)
    ensures var s := Run(Initial(), ORPHAN_FORKS); Inv(s) && s.active == 3 && LivePair(s, 3, 4) && !HasPartner(s)
  {
    hide *;
    OrphanRun(0);
    assert ORPHAN_FORKS[0..] == ORPHAN_FORKS;
    OrphanEnds();
    BootInv(ORPHAN_FORKS);
  }

  lemma OrphanEnds()
    ensures OrphanState(0) == Initial()
    ensures var s := OrphanState(6);
      && s.active == 3 && s.active in s.pcbs && Known(s.queue, s.pcbs) && LivePair(s, 3, 4) && !HasPartner(s)
  {
  }

  class ProcessTable {
    const list: array<int>
    var head: nat
    var tail: nat
    var pcbs: map<int, Pcb>
    var active: int
    var prevPid: int
    var slice: nat
    var ticks: nat
    var stores: seq<Stored>

    ghost predicate Valid()
      reads this, list
    {
      list.Length == QUEUE_SIZE && head < QUEUE_SIZE && tail < QUEUE_SIZE && Known(Queue(), pcbs)
    }

    ghost function Queue(): seq<int>
      reads this, list
      requires list.Length == QUEUE_SIZE && head < QUEUE_SIZE && tail < QUEUE_SIZE
    {
      Ring(list[..], head, tail)
    }

    ghost function Abs(): Sys
      reads this, list
      requires Valid()
    {
      Sys(Queue(), active, pcbs, prevPid, slice, ticks, stores)
    }

    /** `process_init` and `init`, up to the first switch of stacks. */
    constructor ()
      ensures Valid() && fresh(list) && Abs() == Initial() && list.Length == 100
    {
      list := new int[QUEUE_SIZE](_ => 0);
      head, tail, prevPid, slice, ticks, stores := 0, 0, 2, 0, 0, [];
      pcbs := map[IDLE := Pcb(0, Running, false, 0, 0, 0, InUser), 2 := Pcb(0, Ready, false, 0, 0, 0, InStart)];
      active := IDLE;
      new;
      EnqueueProcess(IDLE);
      EnqueueProcess(2);
      head := head + 1;
    }

    /** `enqueue_process` */
    method EnqueueProcess(p: int)
      requires Valid() && p in pcbs && |Queue()| + 1 < QUEUE_SIZE
      modifies this`tail, list
      ensures Valid() && Queue() == if pcbs[p].status == Finished then old(Queue()) else old(Queue()) + [p]
    {
      if pcbs[p].status == Finished { return; }
      RingEnqueue(list[..], head, tail, p);
      list[tail] := p;
      tail := tail + 1;
      tail := tail % QUEUE_SIZE;
    }

    /** The head of the queue becomes the active process. */
    method TakeHead()
      requires Valid() && Queue() != []
      modifies this`head, this`active
      ensures Valid() && active == old(Queue())[0] && Queue() == old(Queue())[1..]
    {
      ghost var queue := Queue();
      hide Ring, Known, Wrap;
      RingEmpty(list[..], head, tail);
      RingDequeue(list[..], head, tail);
      WrapOne(head);
      FirstRest(list[head], Ring(list[..], Wrap(head, 1), tail));
      KnownTail(queue, pcbs);
      active := list[head];
      head := head + 1;
      head := head % QUEUE_SIZE;
    }

    /** `get_next_context` */
    method GetNextContext()
      requires Valid() && active in pcbs && Skipped(Queue() + [active], pcbs) <= |Queue()| && |Queue()| + 1 < QUEUE_SIZE
      modifies this`head, this`tail, this`active, this`slice, list
      ensures Valid() && (Queue(), active) == old(Rotate(Queue(), active, pcbs)) && slice == 0
      decreases Skipped(Queue() + [active], pcbs)
    {
      RotateUnfold(Queue(), active, pcbs);
      EnqueueProcess(active);
      TakeHead();
      if !Runnable(pcbs[active]) {
        GetNextContext();
      }
      slice := 0;
    }

    /** `schedule` */
    method DoSchedule()
      requires Valid() && CanSchedule(Abs()) && |Queue()| + 1 < QUEUE_SIZE
      modifies this`head, this`tail, this`active, this`slice, list
      ensures Valid() && Abs() == old(Schedule(Abs()))
    {
      GetNextContext();
    }

    /** The scans below stand at the n-th process of the queue. */
    ghost predicate At(queue: seq<int>, ptr: nat, n: nat)
      reads this, list
    {
      Valid() && queue == Queue() && n <= |queue| && ptr == Wrap(head, n)
    }

    lemma Scan(queue: seq<int>, ptr: nat, n: nat)
      requires At(queue, ptr, n)
      ensures ptr == tail <==> n == |queue|
      ensures n < |queue| ==>
        ptr < list.Length && list[ptr] == queue[n] && queue[n] in pcbs && (ptr + 1) % QUEUE_SIZE == Wrap(head, n + 1)
    {
      RingSlot(list[..], head, tail, n);
    }

    /** `notify_stdin` */
    method NotifyInput()
      requires Valid()
      modifies this`pcbs
      ensures Valid() && Abs() == old(NotifyStdin(Abs()))
    {
      ghost var queue, before, wake := Queue(), pcbs, p => WakeStdin(p);
      hide Looked, Ring, Wrap;
      ghost var n: nat := 0;
      var ptr: nat := head;
      WrapNone(head);
      LookStart(pcbs, queue, wake);
      Scan(queue, ptr, 0);
      while ptr != tail
        invariant At(queue, ptr, n) && (ptr == tail <==> n == |queue|)
        invariant Looked(before, pcbs, queue, n, wake)
        decreases |queue| - n
      {
        Scan(queue, ptr, n);
        ghost var now := pcbs;
        var proc := list[ptr];
        if pcbs[proc].status == Waiting && pcbs[proc].onStdin {
          pcbs := pcbs[proc := pcbs[proc].(onStdin := false, status := Running)];
        }
        assert wake(now[proc]) == pcbs[proc];
        LookNext(before, now, queue, n, wake, pcbs);
        ptr := (ptr + 1) % QUEUE_SIZE;
        n := n + 1;
        Scan(queue, ptr, n);
      }
      assert n == |queue|;
      LookedInput(Sys(queue, active, before, prevPid, slice, ticks, stores), pcbs, wake);
    }

    /** `notify_exit_pid` */
    method NotifyExitPid(pid: int, status: nat)
      requires Valid()
      modifies this`pcbs
      ensures Valid() && Abs() == old(NotifyExit(Abs(), pid, status))
    {
      ghost var queue, before, wake := Queue(), pcbs, p => WakeExit(p, pid, status);
      hide Looked, Ring, Wrap;
      ghost var n: nat := 0;
      var ptr: nat := head;
      WrapNone(head);
      LookStart(pcbs, queue, wake);
      Scan(queue, ptr, 0);
      while ptr != tail
        invariant At(queue, ptr, n) && (ptr == tail <==> n == |queue|)
        invariant Looked(before, pcbs, queue, n, wake)
        decreases |queue| - n
      {
        Scan(queue, ptr, n);
        ghost var now := pcbs;
        var proc := list[ptr];
        if pcbs[proc].status == Waiting && pcbs[proc].onPid == pid {
          pcbs := pcbs[proc := pcbs[proc].(onPid := 0, exitStatus := status, status := Running)];
        }
        assert wake(now[proc]) == pcbs[proc];
        LookNext(before, now, queue, n, wake, pcbs);
        ptr := (ptr + 1) % QUEUE_SIZE;
        n := n + 1;
        Scan(queue, ptr, n);
      }
      assert n == |queue|;
      LookedExit(Sys(queue, active, before, prevPid, slice, ticks, stores), pcbs, wake, pid, status);
    }

    /** `notify_alarm` */
    method NotifyClock(clock: nat)
      requires Valid()
      modifies this`pcbs
      ensures Valid() && Abs() == old(NotifyAlarm(Abs(), clock))
    {
      ghost var queue, before, wake := Queue(), pcbs, p => WakeAlarm(p, clock);
      hide Looked, Ring, Wrap;
      ghost var n: nat := 0;
      var ptr: nat := head;
      WrapNone(head);
      LookStart(pcbs, queue, wake);
      Scan(queue, ptr, 0);
      while ptr != tail
        invariant At(queue, ptr, n) && (ptr == tail <==> n == |queue|)
        invariant Looked(before, pcbs, queue, n, wake)
        decreases |queue| - n
      {
        Scan(queue, ptr, n);
        ghost var now := pcbs;
        var proc := list[ptr];
        if pcbs[proc].status == Waiting && pcbs[proc].onClock != 0 && pcbs[proc].onClock <= clock {
          pcbs := pcbs[proc := pcbs[proc].(onClock := 0, status := Running)];
        }
        assert wake(now[proc]) == pcbs[proc];
        LookNext(before, now, queue, n, wake, pcbs);
        ptr := (ptr + 1) % QUEUE_SIZE;
        n := n + 1;
        Scan(queue, ptr, n);
      }
      assert n == |queue|;
      LookedClock(Sys(queue, active, before, prevPid, slice, ticks, stores), pcbs, wake, clock);
    }

    /** `kill_pid`: 0 when the process was found in the queue. */
    method KillPid(pid: int) returns (r: int)
      requires Valid()
      modifies this`pcbs
      ensures Valid() && (r == 0 <==> pid in Queue()) && r in {0, 1} && Queue() == old(Queue())
      ensures if r == 0 then pid in old(pcbs) && pcbs == old(pcbs)[pid := old(pcbs)[pid].(status := Finished)]
              else pcbs == old(pcbs)
    {
      ghost var queue, n: nat := Queue(), 0;
      var ptr: nat := head;
      Scan(queue, ptr, 0);
      while ptr != tail
        invariant At(queue, ptr, n) && (ptr == tail <==> n == |queue|)
        invariant pcbs == old(pcbs) && pid !in queue[..n]
        decreases |queue| - n
      {
        Scan(queue, ptr, n);
        var proc := list[ptr];
        if proc == pid {
          pcbs := pcbs[proc := pcbs[proc].(status := Finished)];
          return 0;
        }
        assert queue[..n + 1] == queue[..n] + [proc];
        ptr := (ptr + 1) % QUEUE_SIZE;
        n := n + 1;
        Scan(queue, ptr, n);
      }
      assert queue[..n] == queue;
      return 1;
    }

    /** `find_pcb_by_ppid`: the first queued child of a process. */
    method FindByPpid(ppid: int) returns (r: Lookup)
      requires Valid()
      ensures match r
              case Found(pid) => exists i :: 0 <= i < |Queue()| && Queue()[i] == pid && pcbs[pid].ppid == ppid
                                             && forall j | 0 <= j < i :: pcbs[Queue()[j]].ppid != ppid
              case Missing => forall i | 0 <= i < |Queue()| :: pcbs[Queue()[i]].ppid != ppid
    {
      ghost var queue, n: nat := Queue(), 0;
      var ptr: nat := head;
      Scan(queue, ptr, 0);
      while ptr != tail
        invariant At(queue, ptr, n) && (ptr == tail <==> n == |queue|)
        invariant forall j | 0 <= j < n :: pcbs[queue[j]].ppid != ppid
        decreases |queue| - n
      {
        Scan(queue, ptr, n);
        var proc := list[ptr];
        if pcbs[proc].ppid == ppid {
          assert Queue()[n] == proc;
          return Found(proc);
        }
        ptr := (ptr + 1) % QUEUE_SIZE;
        n := n + 1;
        Scan(queue, ptr, n);
      }
      return Missing;
    }

    /** `find_pcb_by_pid` */
    method FindByPid(pid: int) returns (r: Lookup)
      requires Valid()
      ensures r == if pid in Queue() then Found(pid) else Missing
    {
      ghost var queue, n: nat := Queue(), 0;
      var ptr: nat := head;
      Scan(queue, ptr, 0);
      while ptr != tail
        invariant At(queue, ptr, n) && (ptr == tail <==> n == |queue|)
        invariant pid !in queue[..n]
        decreases |queue| - n
      {
        Scan(queue, ptr, n);
        var proc := list[ptr];
        if proc == pid { return Found(proc); }
        assert queue[..n + 1] == queue[..n] + [proc];
        ptr := (ptr + 1) % QUEUE_SIZE;
        n := n + 1;
        Scan(queue, ptr, n);
      }
      assert queue[..n] == queue;
      return Missing;
    }

    /** The lookup that `handle_COW` makes for the active process. */
    method FindPartner() returns (found: bool)
      requires Valid() && active in pcbs
      ensures found == HasPartner(Abs())
    {
      var r: Lookup;
      if pcbs[active].ppid == 0 {
        r := FindByPpid(active);
      } else {
        r := FindByPid(pcbs[active].ppid);
      }
      return r.Found?;
    }

    /** The switch at the end of a system call. */
    method Finish(ghost s: Sys, ghost e: Event)
      requires Valid() && Inv(s) && Allowed(s, e) && Abs() == Before(s, e).0 && Before(s, e).1
      modifies this`head, this`tail, this`active, this`slice, list
      ensures Valid() && CanStep(s, e) && Abs() == Step(s, e)
    {
      BeforeInv(s, e);
      StepInv(s, e);
      DoSchedule();
    }

    /** `do_yield` */
    method DoYield()
      requires Valid() && Inv(Abs()) && Allowed(Abs(), Yield)
      modifies this, list
      ensures Valid() && CanStep(old(Abs()), Yield) && Abs() == Step(old(Abs()), Yield)
    {
      Finish(Abs(), Yield);
    }

    /** `do_fork`, with `_get_new_pcb` and `get_forked_pcb` */
    method DoFork() returns (pid: int)
      requires Valid() && Inv(Abs()) && Allowed(Abs(), Fork)
      modifies this, list
      ensures Valid() && CanStep(old(Abs()), Fork) && Abs() == Step(old(Abs()), Fork) && pid == prevPid
    {
      prevPid := prevPid + 1;
      pid := prevPid;
      pcbs := pcbs[pid := Pcb(active, Running, false, 0, 0, 0, InUser)];
      EnqueueProcess(pid);
    }

    /** `do_exit` */
    method DoExit(status: nat)
      requires Valid() && Inv(Abs()) && Allowed(Abs(), Exit(status))
      modifies this, list
      ensures Valid() && CanStep(old(Abs()), Exit(status)) && Abs() == Step(old(Abs()), Exit(status))
    {
      ghost var s := Abs();
      pcbs := pcbs[active := pcbs[active].(status := Finished)];
      NotifyExitPid(active, status);
      Finish(s, Exit(status));
    }

    /** `do_waitpid` up to the switch; `DoResume` stores the status. */
    method DoWaitPid(pid: int)
      requires Valid() && Inv(Abs()) && Allowed(Abs(), WaitPid(pid))
      modifies this, list
      ensures Valid() && CanStep(old(Abs()), WaitPid(pid)) && Abs() == Step(old(Abs()), WaitPid(pid))
    {
      ghost var s := Abs();
      pcbs := pcbs[active := pcbs[active].(onPid := pid, status := Waiting, at := InWait)];
      Finish(s, WaitPid(pid));
    }

    /** `do_alarm` */
    method DoAlarm(seconds: nat)
      requires Valid() && Inv(Abs()) && Allowed(Abs(), Alarm(seconds))
      modifies this, list
      ensures Valid() && CanStep(old(Abs()), Alarm(seconds)) && Abs() == Step(old(Abs()), Alarm(seconds))
    {
      ghost var s := Abs();
      pcbs := pcbs[active := pcbs[active].(onClock := WakeTime(ticks, seconds), status := Waiting, at := InAlarm)];
      Finish(s, Alarm(seconds));
    }

    /** `do_kill` */
    method DoKill(pid: int, signal: nat) returns (r: int)
      requires Valid() && Inv(Abs()) && Allowed(Abs(), Kill(pid, signal))
      modifies this, list
      ensures Valid() && CanStep(old(Abs()), Kill(pid, signal)) && Abs() == Step(old(Abs()), Kill(pid, signal))
      ensures r == if pid in old(Queue()) then 0 else -1
    {
      var k := KillPid(pid);
      if k != 0 { return -1; }
      NotifyExitPid(pid, signal);
      return 0;
    }

    /** `tick_count`, but for the clock on the screen. */
    method TickCount()
      requires Valid()
      modifies this`ticks, this`pcbs
      ensures Valid() && Abs() == old(ClockTick(Abs()))
    {
      ticks := ticks + 1;
      if ticks % ALARM_DIVIDE == 1 {
        NotifyClock(ticks);
      }
    }

    /** The timer interrupt: `tick_count`, then `preempt`. */
    method TimerInterrupt()
      requires Valid() && Inv(Abs())
      modifies this, list
      ensures Valid() && CanStep(old(Abs()), Tick) && Abs() == Step(old(Abs()), Tick)
    {
      ghost var s := Abs();
      TickCount();
      slice := slice + 1;
      if slice > SLICE_LIMIT {
        Finish(s, Tick);
      }
    }

    /** The keyboard interrupt, when it completes a line of input. */
    method KeyboardInterrupt()
      requires Valid() && Inv(Abs())
      modifies this, list
      ensures Valid() && CanStep(old(Abs()), Keyboard) && Abs() == Step(old(Abs()), Keyboard)
    {
      NotifyInput();
    }

    /** `do_read` on standard input, entered from user mode: wait unless a line is ready. */
    method DoRead(ready: bool)
      requires Valid() && Inv(Abs()) && Allowed(Abs(), Read(ready))
      modifies this, list
      ensures Valid() && CanStep(old(Abs()), Read(ready)) && Abs() == Step(old(Abs()), Read(ready))
    {
      if ready { return; }
      ghost var s := Abs();
      pcbs := pcbs[active := pcbs[active].(onStdin := true, status := Waiting, at := InRead)];
      Finish(s, Read(ready));
    }

    /** `process_exec` */
    method DoExec()
      requires Valid() && Inv(Abs()) && Allowed(Abs(), Exec)
      modifies this, list
      ensures Valid() && CanStep(old(Abs()), Exec) && Abs() == Step(old(Abs()), Exec)
    {
      ghost var s := Abs();
      pcbs := pcbs[active := pcbs[active].(status := Ready, at := InStart)];
      Finish(s, Exec);
    }

    /**
     * The active process goes on behind the `schedule()` it was switched away in: `do_waitpid`
     * stores the status, `do_read` looks at the input again, a new program enters user mode.
     */
    method DoResume(ready: bool)
      requires Valid() && Inv(Abs()) && Allowed(Abs(), Resume(ready))
      modifies this, list
      ensures Valid() && CanStep(old(Abs()), Resume(ready)) && Abs() == Step(old(Abs()), Resume(ready))
    {
      ghost var s := Abs();
      var me := pcbs[active];
      if me.at == InWait {
        stores := stores + [Stored(active, me.exitStatus % TWO_32)];
        pcbs := pcbs[active := me.(at := InUser)];
      } else if me.at == InRead && !ready {
        pcbs := pcbs[active := me.(onStdin := true, status := Waiting)];
        Finish(s, Resume(ready));
      } else if me.at == InStart {
        pcbs := pcbs[active := me.(status := Running, at := InUser)];
      } else {
        pcbs := pcbs[active := me.(at := InUser)];
      }
    }
  }
}
