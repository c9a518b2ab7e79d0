/**
 * Processes as the kernel schedules them: a state machine whose steps are whole system calls,
 * timer ticks and keyboard notifications.
 */
module Lifecycle {
  datatype Status = Ready | Running | Waiting | Finished

  /** Where a process goes on when it is switched to. */
  datatype Resumption = InUser | InWait | InRead | InAlarm | InStart

  /** The fields of a process control block that scheduling depends on; the pid is its key. */
  datatype Pcb = Pcb(ppid: int, status: Status, onStdin: bool, onPid: int, onClock: nat, exitStatus: nat, at: Resumption)

  /** A status that `do_waitpid` stored for its caller. */
  datatype Stored = Stored(pid: int, value: nat)

  datatype Sys = Sys(queue: seq<int>, active: int, pcbs: map<int, Pcb>, prevPid: int, slice: nat, ticks: nat, stores: seq<Stored>)

  const IDLE := 1
  const QUEUE_SIZE := 100
  const SLICE_LIMIT := 16
  const TICKS_PER_SECOND := 10
  const ALARM_DIVIDE := 3
  const TWO_64 := 0x1_0000_0000_0000_0000
  const TWO_32 := 0x1_0000_0000

  predicate Runnable(p: Pcb) { p.status == Running || p.status == Ready }

  predicate Known(line: seq<int>, pcbs: map<int, Pcb>) { forall i | 0 <= i < |line| :: line[i] in pcbs }

  /** The processes of a line that are not finished, in order. */
  function Alive(line: seq<int>, pcbs: map<int, Pcb>): (r: seq<int>)
    requires Known(line, pcbs)
    ensures Known(r, pcbs) && |r| <= |line|
  {
    if line == [] then []
    else if pcbs[line[0]].status == Finished then Alive(line[1..], pcbs)
    else [line[0]] + Alive(line[1..], pcbs)
  }

  /** k is the first position of a runnable process. */
  predicate FirstRunnable(line: seq<int>, pcbs: map<int, Pcb>, k: nat)
    requires Known(line, pcbs)
  {
    k < |line| && Runnable(pcbs[line[k]]) && forall j | 0 <= j < k :: !Runnable(pcbs[line[j]])
  }

  /** How many processes are passed over before a runnable one. */
  function Skipped(line: seq<int>, pcbs: map<int, Pcb>): (k: nat)
    requires Known(line, pcbs)
    ensures k <= |line| && (k < |line| ==> Runnable(pcbs[line[k]]))
    ensures forall j | 0 <= j < k :: !Runnable(pcbs[line[j]])
  {
    if line == [] || Runnable(pcbs[line[0]]) then 0 else 1 + Skipped(line[1..], pcbs)
  }

  lemma SkippedUnique(line: seq<int>, pcbs: map<int, Pcb>, k: nat)
    requires Known(line, pcbs) && FirstRunnable(line, pcbs, k)
    ensures Skipped(line, pcbs) == k
  {
  }

  /** `get_next_context`: queue the active process unless it is finished, take the head, and again until it is runnable. */
  function Rotate(queue: seq<int>, active: int, pcbs: map<int, Pcb>): (seq<int>, int)
    requires active in pcbs && Known(queue, pcbs)
    requires Skipped(queue + [active], pcbs) <= |queue|
    decreases Skipped(queue + [active], pcbs)
  {
    var line := if pcbs[active].status == Finished then queue else queue + [active];
    assert line != [] by { SkipOne(queue, active, pcbs); }
    if Runnable(pcbs[line[0]]) then (line[1..], line[0])
    else
      SkipOne(queue, active, pcbs);
      Rotate(line[1..], line[0], pcbs)
  }

  lemma SkipOne(queue: seq<int>, active: int, pcbs: map<int, Pcb>)
    requires active in pcbs && Known(queue, pcbs)
    requires Skipped(queue + [active], pcbs) <= |queue|
    ensures var line := if pcbs[active].status == Finished then queue else queue + [active];
      line != [] && (!Runnable(pcbs[line[0]]) ==>
        Skipped(line[1..] + [line[0]], pcbs) == Skipped(queue + [active], pcbs) - 1 < |line|)
  {
    var all := queue + [active];
    var k := Skipped(all, pcbs);
    var line := if pcbs[active].status == Finished then queue else all;
    assert line[k] == all[k];
    if !Runnable(pcbs[line[0]]) {
      assert k > 0 by { assert all[0] == line[0]; }
      var next := line[1..] + [line[0]];
      assert next[k - 1] == all[k];
      assert forall j | 0 <= j < k - 1 :: next[j] == all[j + 1];
      SkippedUnique(next, pcbs, k - 1);
    }
  }

  /** What a rotation that passes over k processes leaves. */
  function Rotated(queue: seq<int>, active: int, pcbs: map<int, Pcb>, k: nat): (seq<int>, int)
    requires active in pcbs && Known(queue, pcbs) && k <= |queue|
  {
    if k < |queue| then (queue[k + 1..] + Alive([active], pcbs) + Alive(queue[..k], pcbs), queue[k])
    else (Alive(queue, pcbs), active)
  }

  lemma AliveOne(p: int, pcbs: map<int, Pcb>)
    requires p in pcbs
    ensures Alive([p], pcbs) == if pcbs[p].status == Finished then [] else [p]
  {
    assert [p][1..] == [];
  }

  lemma {:induction false} AliveMembers(line: seq<int>, pcbs: map<int, Pcb>, p: int)
    requires Known(line, pcbs)
    ensures p in Alive(line, pcbs) <==> p in line && pcbs[p].status != Finished
  {
    if line != [] {
      AliveMembers(line[1..], pcbs, p);
    }
  }

  lemma {:induction false} AliveAppend(a: seq<int>, b: seq<int>, pcbs: map<int, Pcb>)
    requires Known(a, pcbs) && Known(b, pcbs)
    ensures Known(a + b, pcbs) && Alive(a + b, pcbs) == Alive(a, pcbs) + Alive(b, pcbs)
  {
    if a == [] {
      assert a + b == b;
    } else {
      var rest := a[1..];
      assert (a + b)[1..] == rest + b;
      AliveAppend(rest, b, pcbs);
      assert [a[0]] + (Alive(rest, pcbs) + Alive(b, pcbs)) == ([a[0]] + Alive(rest, pcbs)) + Alive(b, pcbs);
    }
  }

  lemma RotatedStep(queue: seq<int>, active: int, pcbs: map<int, Pcb>, k: nat)
    requires active in pcbs && Known(queue, pcbs) && 0 < k <= |queue|
    requires k == |queue| ==> pcbs[active].status != Finished
    ensures var rest := queue[1..] + Alive([active], pcbs);
      k - 1 < |rest| && Rotated(queue, active, pcbs, k) == Rotated(rest, queue[0], pcbs, k - 1)
  {
    hide *;
    KnownParts(queue, active, pcbs, k);
    var x, a := queue[0], Alive([active], pcbs);
    var rest := queue[1..] + a;
    AliveOne(active, pcbs);
    AliveAppend([x], queue[1..k], pcbs);
    Advanced(queue, a, k);
    RotatedIs(queue, active, pcbs, k);
    RotatedIs(rest, x, pcbs, k - 1);
    if k < |queue| {
      Regrouped(queue[k + 1..] + a, Alive([x], pcbs), Alive(queue[1..k], pcbs));
    } else {
      Regrouped([], Alive([x], pcbs), Alive(queue[1..k], pcbs));
    }
  }

  lemma KnownParts(queue: seq<int>, active: int, pcbs: map<int, Pcb>, k: nat)
    requires active in pcbs && Known(queue, pcbs) && 0 < k <= |queue|
    ensures Known([active], pcbs) && Known([queue[0]], pcbs) && Known(queue[1..k], pcbs)
    ensures queue[0] in pcbs && Known(queue[1..] + Alive([active], pcbs), pcbs)
  {
  }

  /** Moving on by one from a line with a appended. */
  lemma Advanced<T>(queue: seq<T>, a: seq<T>, k: nat)
    requires 0 < k <= |queue|
    ensures var rest := queue[1..] + a;
      && |rest| == |queue| - 1 + |a| && rest[..k - 1] == queue[1..k] && [queue[0]] + queue[1..k] == queue[..k]
      && (k < |queue| ==> rest[k - 1] == queue[k] && rest[k..] == queue[k + 1..] + a)
      && (k == |queue| ==> queue[..k] == queue)
      && (k == |queue| && |a| == 1 ==> rest[k - 1] == a[0] && rest[k..] == [])
  {
  }

  lemma Regrouped<T>(a: seq<T>, b: seq<T>, c: seq<T>)
    ensures a + b + c == a + (b + c) && [] + (b + c) == b + c
  {
  }

  lemma RotatedIs(queue: seq<int>, active: int, pcbs: map<int, Pcb>, k: nat)
    requires active in pcbs && Known(queue, pcbs) && k <= |queue|
    ensures Known([active], pcbs) && Known(queue[..k], pcbs)
    ensures k < |queue| ==>
      Rotated(queue, active, pcbs, k) == (queue[k + 1..] + Alive([active], pcbs) + Alive(queue[..k], pcbs), queue[k])
    ensures k == |queue| ==> Rotated(queue, active, pcbs, k) == (Alive(queue, pcbs), active)
  {
  }

  /** The line that the head is taken from. */
  function Line(queue: seq<int>, active: int, pcbs: map<int, Pcb>): (line: seq<int>)
    requires active in pcbs && Known(queue, pcbs)
    ensures Known(line, pcbs)
  {
    if pcbs[active].status == Finished then queue else queue + [active]
  }

  lemma RotateFirst(queue: seq<int>, active: int, pcbs: map<int, Pcb>)
    requires active in pcbs && Known(queue, pcbs) && Skipped(queue + [active], pcbs) == 0
    ensures Rotate(queue, active, pcbs) == Rotated(queue, active, pcbs, 0)
  {
    AliveOne(active, pcbs);
    assert Alive(queue[..0], pcbs) == [];
    var all, line := queue + [active], Line(queue, active, pcbs);
    assert Runnable(pcbs[all[0]]);
    if queue != [] {
      assert line[0] == all[0] == queue[0];
      assert line[1..] == queue[0 + 1..] + Alive([active], pcbs) + [];
      assert Rotate(queue, active, pcbs) == (line[1..], line[0]);
    } else {
      assert all[0] == active && line == [active];
      assert Rotate(queue, active, pcbs) == (line[1..], active);
    }
  }

  /**
   * Closed form: the first runnable process of queue ++ [active] is chosen; behind it come the
   * processes not yet looked at, then the active one and those passed over, finished ones dropped.
   */
  lemma {:induction false} RotateIs(queue: seq<int>, active: int, pcbs: map<int, Pcb>)
    requires active in pcbs && Known(queue, pcbs)
    requires Skipped(queue + [active], pcbs) <= |queue|
    ensures Rotate(queue, active, pcbs) == Rotated(queue, active, pcbs, Skipped(queue + [active], pcbs))
    decreases Skipped(queue + [active], pcbs)
  {
    var all, line := queue + [active], Line(queue, active, pcbs);
    var k := Skipped(all, pcbs);
    if k == 0 {
      RotateFirst(queue, active, pcbs);
    } else {
      hide *;
      SkipOne(queue, active, pcbs);
      RotateNext(queue, active, pcbs);
      RotateIs(line[1..], queue[0], pcbs);
      RotatedStep(queue, active, pcbs, k);
    }
  }

  /** When the head is not runnable the rotation goes on from the rest of the line. */
  lemma RotateNext(queue: seq<int>, active: int, pcbs: map<int, Pcb>)
    requires active in pcbs && Known(queue, pcbs) && 0 < Skipped(queue + [active], pcbs) <= |queue|
    ensures var (line, k) := (Line(queue, active, pcbs), Skipped(queue + [active], pcbs));
      && queue != [] && line != [] && line[0] == queue[0] && !Runnable(pcbs[line[0]])
      && Known([active], pcbs) && line[1..] == queue[1..] + Alive([active], pcbs)
      && queue[0] in pcbs && Known(line[1..], pcbs)
      && (k == |queue| ==> pcbs[active].status != Finished)
      && Skipped(line[1..] + [queue[0]], pcbs) == k - 1 <= |line[1..]|
      && Rotate(queue, active, pcbs) == Rotate(line[1..], queue[0], pcbs)
  {
    var all, k := queue + [active], Skipped(queue + [active], pcbs);
    SkipOne(queue, active, pcbs);
    AliveOne(active, pcbs);
    assert all[0] == queue[0] && (k == |queue| ==> all[k] == active);
  }

  lemma {:induction false} AliveFewer(line: seq<int>, pcbs: map<int, Pcb>)
    requires Known(line, pcbs)
    ensures multiset(Alive(line, pcbs)) <= multiset(line)
  {
    if line != [] {
      AliveFewer(line[1..], pcbs);
      assert line == [line[0]] + line[1..];
    }
  }

  lemma LineSums(queue: seq<int>, k: nat, c: seq<int>, d: seq<int>, active: int)
    requires k < |queue| && multiset(d) <= multiset(queue[..k]) && multiset(c) <= multiset{active}
    ensures multiset(queue[k + 1..] + c + d) + multiset{queue[k]} <= multiset(queue) + multiset{active}
  {
    var a, b := queue[..k], queue[k + 1..];
    assert queue == a + ([queue[k]] + b);
    assert multiset(queue) == multiset(a) + multiset{queue[k]} + multiset(b);
  }

  lemma RotateShrinks(queue: seq<int>, active: int, pcbs: map<int, Pcb>, k: nat)
    requires active in pcbs && Known(queue, pcbs) && k <= |queue|
    ensures multiset(Rotated(queue, active, pcbs, k).0) + multiset{Rotated(queue, active, pcbs, k).1}
         <= multiset(queue) + multiset{active}
    ensures |Rotated(queue, active, pcbs, k).0| <= |queue|
  {
    AliveOne(active, pcbs);
    if k < |queue| {
      AliveFewer(queue[..k], pcbs);
      LineSums(queue, k, Alive([active], pcbs), Alive(queue[..k], pcbs), active);
    } else {
      AliveFewer(queue, pcbs);
    }
  }

  /** A rotation invents and duplicates no process, and loses only finished ones. */
  lemma RotateConserves(queue: seq<int>, active: int, pcbs: map<int, Pcb>)
    requires active in pcbs && Known(queue, pcbs) && Skipped(queue + [active], pcbs) <= |queue|
    ensures var (queue', active') := Rotate(queue, active, pcbs);
      && multiset(queue') + multiset{active'} <= multiset(queue) + multiset{active}
      && Known(queue', pcbs) && active' in pcbs && Runnable(pcbs[active']) && |queue'| <= |queue|
      && forall p | p in queue + [active] && p in pcbs && pcbs[p].status != Finished :: p in queue' || p == active'
  {
    var k, all := Skipped(queue + [active], pcbs), queue + [active];
    RotateIs(queue, active, pcbs);
    RotateShrinks(queue, active, pcbs, k);
    assert k < |queue| ==> all[k] == queue[k];
    assert k == |queue| ==> all[k] == active;
    forall p | p in all && p in pcbs && pcbs[p].status != Finished
      ensures p in Rotated(queue, active, pcbs, k).0 || p == Rotated(queue, active, pcbs, k).1
    {
      RotateKeeps(queue, active, pcbs, k, p);
    }
  }

  lemma RotateKeeps(queue: seq<int>, active: int, pcbs: map<int, Pcb>, k: nat, p: int)
    requires active in pcbs && Known(queue, pcbs) && k <= |queue| && p in queue + [active] && p in pcbs
    requires pcbs[p].status != Finished
    ensures p in Rotated(queue, active, pcbs, k).0 + [Rotated(queue, active, pcbs, k).1]
  {
    AliveOne(active, pcbs);
    if k < |queue| {
      AliveMembers(queue[..k], pcbs, p);
      assert queue == queue[..k] + ([queue[k]] + queue[k + 1..]);
    } else {
      AliveMembers(queue, pcbs, p);
    }
  }

  /** A runnable process moves up by at least one place, or is chosen. */
  lemma RotateAdvances(queue: seq<int>, active: int, pcbs: map<int, Pcb>, i: nat)
    requires active in pcbs && Known(queue, pcbs) && i < |queue| && Runnable(pcbs[queue[i]])
    ensures Skipped(queue + [active], pcbs) <= i
    ensures var (queue', active') := Rotate(queue, active, pcbs);
      active' == queue[i] || exists j: nat :: j < i && j < |queue'| && queue'[j] == queue[i]
  {
    var k := Skipped(queue + [active], pcbs);
    assert (queue + [active])[i] == queue[i];
    RotateIs(queue, active, pcbs);
    if k < i {
      assert Rotate(queue, active, pcbs).0[i - k - 1] == queue[i];
    }
  }

  datatype Event =
    | Tick
    | Keyboard                           // a line of input is complete
    | Yield
    | Fork
    | Exec
    | Exit(status: nat)
    | WaitPid(pid: int)
    | Alarm(seconds: nat)
    | Kill(pid: int, signal: nat)
    | Read(inputReady: bool)
    | Resume(inputReady: bool)           // the active process goes on in the system call it was switched away in

  /** `schedule` */
  function Schedule(s: Sys): Sys
    requires s.active in s.pcbs && Known(s.queue, s.pcbs) && Skipped(s.queue + [s.active], s.pcbs) <= |s.queue|
  {
    var (queue, active) := Rotate(s.queue, s.active, s.pcbs);
    s.(queue := queue, active := active, slice := 0)
  }

  function WakeStdin(p: Pcb): Pcb {
    if p.status == Waiting && p.onStdin then p.(onStdin := false, status := Running) else p
  }

  function WakeExit(p: Pcb, pid: int, status: nat): Pcb {
    if p.status == Waiting && p.onPid == pid then p.(onPid := 0, exitStatus := status, status := Running) else p
  }

  function WakeAlarm(p: Pcb, clock: nat): Pcb {
    if p.status == Waiting && p.onClock != 0 && p.onClock <= clock then p.(onClock := 0, status := Running) else p
  }

  /** `notify_stdin`: the queued processes that wait for input become runnable. */
  function NotifyStdin(s: Sys): Sys {
    s.(pcbs := map p | p in s.pcbs :: if p in s.queue then WakeStdin(s.pcbs[p]) else s.pcbs[p])
  }

  /** `notify_exit_pid` */
  function NotifyExit(s: Sys, pid: int, status: nat): Sys {
    s.(pcbs := map p | p in s.pcbs :: if p in s.queue then WakeExit(s.pcbs[p], pid, status) else s.pcbs[p])
  }

  /** `notify_alarm` */
  function NotifyAlarm(s: Sys, clock: nat): Sys {
    s.(pcbs := map p | p in s.pcbs :: if p in s.queue then WakeAlarm(s.pcbs[p], clock) else s.pcbs[p])
  }

  function With(s: Sys, pid: int, p: Pcb): Sys { s.(pcbs := s.pcbs[pid := p]) }

  /** The active process's control block. */
  function Me(s: Sys): Pcb
    requires s.active in s.pcbs
  {
    s.pcbs[s.active]
  }

  /** The instant an alarm asks for, as the 64-bit sum that `do_alarm` computes. */
  function WakeTime(ticks: nat, seconds: nat): nat { (ticks + TICKS_PER_SECOND * seconds) % TWO_64 }

  /** Timer interrupt, first half: the clock and the alarms. */
  function ClockTick(s: Sys): Sys {
    var t := s.(ticks := s.ticks + 1);
    if t.ticks % ALARM_DIVIDE == 1 then NotifyAlarm(t, t.ticks) else t
  }

  /** Some process can be switched to. */
  predicate CanSchedule(s: Sys) {
    s.active in s.pcbs && Known(s.queue, s.pcbs) && Skipped(s.queue + [s.active], s.pcbs) <= |s.queue|
  }

  /** A step without the switch that may end it, and whether there is one. */
  function Before(s: Sys, e: Event): (Sys, bool)
    requires s.active in s.pcbs
  {
    var me := Me(s);
    match e
    case Tick => var t := ClockTick(s); (t.(slice := t.slice + 1), t.slice + 1 > SLICE_LIMIT)
    case Keyboard => (NotifyStdin(s), false)
    case Yield => (s, true)
    case Fork =>
      var child := s.prevPid + 1;
      (s.(prevPid := child, queue := s.queue + [child],
          pcbs := s.pcbs[child := Pcb(s.active, Running, false, 0, 0, 0, InUser)]), false)
    case Exec => (With(s, s.active, me.(status := Ready, at := InStart)), true)
    case Exit(status) => (NotifyExit(With(s, s.active, me.(status := Finished)), s.active, status), true)
    case WaitPid(pid) => (With(s, s.active, me.(onPid := pid, status := Waiting, at := InWait)), true)
    case Alarm(seconds) =>
      (With(s, s.active, me.(onClock := WakeTime(s.ticks, seconds), status := Waiting, at := InAlarm)), true)
    case Kill(pid, signal) =>
      if pid in s.queue && pid in s.pcbs then
        (NotifyExit(With(s, pid, s.pcbs[pid].(status := Finished)), pid, signal), false)
      else (s, false)
    case Read(ready) =>
      if ready then (s, false) else (With(s, s.active, me.(onStdin := true, status := Waiting, at := InRead)), true)
    case Resume(ready) =>
      if me.at == InWait then
        (With(s, s.active, me.(at := InUser)).(stores := s.stores + [Stored(s.active, me.exitStatus % TWO_32)]), false)
      else if me.at == InRead && !ready then (With(s, s.active, me.(onStdin := true, status := Waiting)), true)
      else if me.at == InStart then (With(s, s.active, me.(status := Running, at := InUser)), false)
      else (With(s, s.active, me.(at := InUser)), false)
  }

  /** What a step asks of the environment: see the scope in README.md. */
  predicate Allowed(s: Sys, e: Event)
    requires s.active in s.pcbs
  {
    match e
    case Tick => true
    case Keyboard => true
    case Yield => Me(s).at == InUser
    case Resume(_) => Me(s).at != InUser
    case Fork => Me(s).at == InUser && s.active != IDLE && |s.queue| + 2 < QUEUE_SIZE
    case WaitPid(pid) => Me(s).at == InUser && s.active != IDLE && pid != 0
    case Alarm(seconds) => Me(s).at == InUser && s.active != IDLE && WakeTime(s.ticks, seconds) != 0
    case Kill(pid, _) => Me(s).at == InUser && s.active != IDLE && pid != IDLE
    case _ => Me(s).at == InUser && s.active != IDLE
  }

  /** The step terminates: if it switches, there is something to switch to. */
  predicate CanStep(s: Sys, e: Event) { s.active in s.pcbs && (Before(s, e).1 ==> CanSchedule(Before(s, e).0)) }

  /** One step; where `get_next_context` would never return there is none. */
  function Step(s: Sys, e: Event): Sys {
    if !CanStep(s, e) then s
    else if Before(s, e).1 then Schedule(Before(s, e).0)
    else Before(s, e).0
  }

  /** The queue and the active process, each process once. */
  ghost predicate Once(queue: seq<int>, active: int) { forall p :: Times(queue, active, p) <= 1 }

  /** How often p occurs in the queue and as the active process. */
  ghost function Times(queue: seq<int>, active: int, p: int): nat { multiset(queue)[p] + if p == active then 1 else 0 }

  /** A process waits for exactly one thing, and only while it is WAITING. */
  predicate ReasonOk(p: Pcb) {
    && (p.status == Waiting ==>
          || (p.onStdin && p.onPid == 0 && p.onClock == 0 && p.at == InRead)
          || (!p.onStdin && p.onPid != 0 && p.onClock == 0 && p.at == InWait)
          || (!p.onStdin && p.onPid == 0 && p.onClock != 0 && p.at == InAlarm))
    && (Runnable(p) ==> !p.onStdin && p.onPid == 0 && p.onClock == 0)
  }

  /** All of the invariant but that the active process is runnable, which a switch restores. */
  ghost predicate Consistent(s: Sys) {
    && s.active in s.pcbs && Known(s.queue, s.pcbs) && Once(s.queue, s.active) && |s.queue| + 2 <= QUEUE_SIZE
    && (forall p | p in s.pcbs :: 1 <= p <= s.prevPid && ReasonOk(s.pcbs[p]))
    && (forall p | p in s.pcbs && s.pcbs[p].status != Finished :: p in s.queue || p == s.active)
    && IDLE in s.pcbs && Runnable(s.pcbs[IDLE]) && s.pcbs[IDLE].at == InUser
  }

  /**
   * The lifecycle invariant.
   */
  ghost predicate Inv(s: Sys) { Consistent(s) && Runnable(Me(s)) && s.slice <= SLICE_LIMIT }

  /** The idle process can always be switched to. */
  lemma CanAlwaysSchedule(s: Sys)
    requires Consistent(s)
    ensures CanSchedule(s)
  {
    var all := s.queue + [s.active];
    assert IDLE in all by { if IDLE == s.active { assert all[|s.queue|] == IDLE; } }
    var i :| 0 <= i < |all| && all[i] == IDLE;
    assert Known(all, s.pcbs);
    assert Skipped(all, s.pcbs) <= i;
  }

  lemma ScheduleInv(s: Sys)
    requires Consistent(s)
    ensures CanSchedule(s) && Inv(Schedule(s))
  {
    CanAlwaysSchedule(s);
    RotateConserves(s.queue, s.active, s.pcbs);
    var t := Schedule(s);
    forall p ensures Times(t.queue, t.active, p) <= 1 {
      assert Times(s.queue, s.active, p) <= 1;
      assert (multiset(t.queue) + multiset{t.active})[p] <= (multiset(s.queue) + multiset{s.active})[p];
    }
  }

  lemma Twice(s: seq<int>, i: nat, j: nat)
    requires i < j < |s| && s[i] == s[j]
    ensures multiset(s)[s[i]] >= 2
  {
    var rest := s[i + 1..];
    assert s == s[..i] + [s[i]] + rest;
    assert rest[j - i - 1] == s[i];
    assert s[i] in rest;
  }

  lemma OnceMembers(queue: seq<int>, active: int)
    requires Once(queue, active)
    ensures active !in queue && forall i, j | 0 <= i < j < |queue| :: queue[i] != queue[j]
  {
    assert Times(queue, active, active) <= 1;
    forall i, j | 0 <= i < j < |queue| ensures queue[i] != queue[j] {
      assert Times(queue, active, queue[i]) <= 1;
      if queue[i] == queue[j] { Twice(queue, i, j); }
    }
  }

  /** Changes that keep the line keep it consistent when the control blocks stay in order. */
  lemma SameLine(s: Sys, t: Sys)
    requires Consistent(s) && t.queue == s.queue && t.active == s.active && t.prevPid == s.prevPid
    requires t.pcbs.Keys == s.pcbs.Keys
    requires forall p | p in s.pcbs :: ReasonOk(t.pcbs[p]) && (s.pcbs[p].status == Finished ==> t.pcbs[p].status == Finished)
    requires Runnable(t.pcbs[IDLE]) && t.pcbs[IDLE].at == InUser
    ensures Consistent(t)
  {
  }

  lemma NotifyInv(s: Sys, pid: int, status: nat, clock: nat)
    requires Consistent(s) && pid != 0
    ensures Consistent(NotifyStdin(s)) && Consistent(NotifyExit(s, pid, status)) && Consistent(NotifyAlarm(s, clock))
  {
    SameLine(s, NotifyStdin(s));
    SameLine(s, NotifyExit(s, pid, status));
    SameLine(s, NotifyAlarm(s, clock));
  }

  /** The queue is untouched by notifications, and so is the active process. */
  lemma NotifyActive(s: Sys, pid: int, status: nat, clock: nat)
    requires s.active in s.pcbs && s.active !in s.queue
    ensures Me(NotifyStdin(s)) == Me(NotifyExit(s, pid, status)) == Me(NotifyAlarm(s, clock)) == Me(s)
  {
  }

  lemma UpdateInv(s: Sys, pid: int, p: Pcb)
    requires Consistent(s) && pid in s.pcbs && ReasonOk(p)
    requires (s.pcbs[pid].status == Finished ==> p.status == Finished) && (pid == IDLE ==> Runnable(p) && p.at == InUser)
    ensures Consistent(With(s, pid, p))
  {
    SameLine(s, With(s, pid, p));
  }

  lemma ForkInv(s: Sys)
    requires Inv(s) && |s.queue| + 2 < QUEUE_SIZE
    ensures Inv(Before(s, Fork).0)
  {
    var t, child := Before(s, Fork).0, s.prevPid + 1;
    assert child !in s.pcbs;
    assert child !in s.queue && child != s.active;
    forall p ensures Times(t.queue, t.active, p) <= 1 {
      assert Times(s.queue, s.active, p) <= 1;
    }
    assert Known(t.queue, t.pcbs);
  }

  lemma ClockInv(s: Sys)
    requires Consistent(s)
    ensures Consistent(ClockTick(s)) && Me(ClockTick(s)) == Me(s) && ClockTick(s).slice == s.slice
  {
    OnceMembers(s.queue, s.active);
    var t := s.(ticks := s.ticks + 1);
    SameLine(s, t);
    NotifyInv(t, IDLE, 0, t.ticks);
    NotifyActive(t, 0, 0, t.ticks);
  }

  lemma TickInv(s: Sys)
    requires Inv(s)
    ensures var (t, switch) := Before(s, Tick);
      Consistent(t) && (!switch ==> Inv(t))
  {
    ClockInv(s);
    SameLine(ClockTick(s), Before(s, Tick).0);
  }

  lemma ExitInv(s: Sys, status: nat)
    requires Inv(s) && s.active != IDLE
    ensures Consistent(Before(s, Exit(status)).0)
  {
    var t := With(s, s.active, Me(s).(status := Finished));
    UpdateInv(s, s.active, Me(s).(status := Finished));
    NotifyInv(t, s.active, status, 0);
  }

  lemma BeforeKill(s: Sys, pid: int, signal: nat)
    requires s.active in s.pcbs
    ensures Before(s, Kill(pid, signal)) ==
      (if pid in s.queue && pid in s.pcbs then NotifyExit(With(s, pid, s.pcbs[pid].(status := Finished)), pid, signal)
       else s, false)
  {
  }

  lemma KillInv(s: Sys, pid: int, signal: nat)
    requires Inv(s) && pid != IDLE
    ensures Inv(Before(s, Kill(pid, signal)).0)
  {
    hide Before, Times, Known;
    OnceMembers(s.queue, s.active);
    BeforeKill(s, pid, signal);
    if pid in s.queue && pid in s.pcbs {
      var t := With(s, pid, s.pcbs[pid].(status := Finished));
      UpdateInv(s, pid, s.pcbs[pid].(status := Finished));
      hide Consistent;
      NotifyInv(t, pid, signal, 0);
      NotifyActive(t, pid, signal, 0);
    }
  }

  lemma KeyboardInv(s: Sys)
    requires Inv(s)
    ensures Inv(NotifyStdin(s))
  {
    OnceMembers(s.queue, s.active);
    NotifyInv(s, IDLE, 0, 0);
    NotifyActive(s, 0, 0, 0);
  }

  /** The first half of every step keeps the invariant, up to a switch it calls for. */
  lemma BeforeInv(s: Sys, e: Event)
    requires Inv(s) && Allowed(s, e)
    ensures var (t, switch) := Before(s, e);
      Consistent(t) && (!switch ==> Inv(t))
  {
    var me := Me(s);
    match e
    case Tick => TickInv(s);
    case Keyboard => KeyboardInv(s);
    case Yield =>
    case Fork => ForkInv(s);
    case Exec => UpdateInv(s, s.active, me.(status := Ready, at := InStart));
    case Exit(status) => ExitInv(s, status);
    case WaitPid(pid) => UpdateInv(s, s.active, me.(onPid := pid, status := Waiting, at := InWait));
    case Alarm(seconds) =>
      UpdateInv(s, s.active, me.(onClock := WakeTime(s.ticks, seconds), status := Waiting, at := InAlarm));
    case Kill(pid, signal) => KillInv(s, pid, signal);
    case Read(ready) =>
      if !ready { UpdateInv(s, s.active, me.(onStdin := true, status := Waiting, at := InRead)); }
    case Resume(ready) => ResumeInv(s, ready);
  }

  lemma ResumeInv(s: Sys, ready: bool)
    requires Inv(s) && Allowed(s, Resume(ready))
    ensures var (t, switch) := Before(s, Resume(ready));
      Consistent(t) && (!switch ==> Inv(t))
  {
    var me := Me(s);
    assert s.active != IDLE;
    if me.at == InWait {
      var t := With(s, s.active, me.(at := InUser));
      UpdateInv(s, s.active, me.(at := InUser));
      SameLine(t, t.(stores := s.stores + [Stored(s.active, me.exitStatus % TWO_32)]));
    } else if me.at == InRead && !ready {
      UpdateInv(s, s.active, me.(onStdin := true, status := Waiting));
    } else if me.at == InStart {
      UpdateInv(s, s.active, me.(status := Running, at := InUser));
    } else {
      UpdateInv(s, s.active, me.(at := InUser));
    }
  }

  /** Every step keeps the lifecycle invariant. */
  lemma StepInv(s: Sys, e: Event)
    requires Inv(s) && Allowed(s, e)
    ensures CanStep(s, e) && Inv(Step(s, e))
  {
    BeforeInv(s, e);
    if Before(s, e).1 { ScheduleInv(Before(s, e).0); }
  }

  /** The state `init` leaves: the idle process runs, the shell is to be started. */
  function Initial(): Sys {
    Sys([2], IDLE,
        map[IDLE := Pcb(0, Running, false, 0, 0, 0, InUser), 2 := Pcb(0, Ready, false, 0, 0, 0, InStart)], 2, 0, 0, [])
  }

  lemma InitialInv()
    ensures Inv(Initial())
  {
    var s := Initial();
    forall p ensures Times(s.queue, s.active, p) <= 1 {
      assert multiset(s.queue) == multiset{2};
    }
  }

  /** A run: the environment offers each event in a state that allows it. */
  ghost predicate AllowedRun(s: Sys, es: seq<Event>)
    decreases |es|
  {
    es != [] ==> s.active in s.pcbs && Allowed(s, es[0]) && AllowedRun(Step(s, es[0]), es[1..])
  }

  /** No step of the run hangs. */
  ghost predicate NeverHangs(s: Sys, es: seq<Event>)
    decreases |es|
  {
    es != [] ==> CanStep(s, es[0]) && NeverHangs(Step(s, es[0]), es[1..])
  }

  ghost function Run(s: Sys, es: seq<Event>): Sys
    decreases |es|
  {
    if es == [] then s else Run(Step(s, es[0]), es[1..])
  }

  /** The invariant holds over every run, and every switch of it finds a process. */
  lemma {:induction false} RunInv(s: Sys, es: seq<Event>)
    requires Inv(s) && AllowedRun(s, es)
    ensures NeverHangs(s, es) && Inv(Run(s, es))
    decreases |es|
  {
    if es != [] {
      StepInv(s, es[0]);
      RunInv(Step(s, es[0]), es[1..]);
    }
  }

  /** So it does from the state that `init` leaves. */
  lemma BootInv(es: seq<Event>)
    requires AllowedRun(Initial(), es)
    ensures NeverHangs(Initial(), es) && Inv(Run(Initial(), es))
  {
    InitialInv();
    RunInv(Initial(), es);
  }

  /** Runs of every length: the clock can always tick. */
  lemma {:induction false} TicksAllowed(s: Sys, n: nat)
    requires Inv(s)
    ensures AllowedRun(s, seq(n, _ => Tick))
    decreases n
  {
    if n > 0 {
      StepInv(s, Tick);
      TicksAllowed(Step(s, Tick), n - 1);
      assert seq(n, _ => Tick)[1..] == seq(n - 1, _ => Tick);
    }
  }

  predicate IsFinished(s: Sys, p: int) { p in s.pcbs && s.pcbs[p].status == Finished }

  lemma StepFinished(s: Sys, e: Event, p: int)
    requires Inv(s) && Allowed(s, e) && IsFinished(s, p)
    ensures IsFinished(Step(s, e), p) && Step(s, e).active != p
  {
    assert p != s.active;
    StepInv(s, e);
    BeforeFinished(s, e, p);
  }

  lemma BeforeFinished(s: Sys, e: Event, p: int)
    requires Inv(s) && Allowed(s, e) && IsFinished(s, p)
    ensures IsFinished(Before(s, e).0, p)
  {
    assert p != s.active;
  }

  /** A finished process stays finished and is never selected again. */
  lemma {:induction false} FinishedForever(s: Sys, es: seq<Event>, p: int)
    requires Inv(s) && AllowedRun(s, es) && IsFinished(s, p)
    ensures IsFinished(Run(s, es), p) && Run(s, es).active != p
    decreases |es|
  {
    if es != [] {
      StepInv(s, es[0]);
      StepFinished(s, es[0], p);
      FinishedForever(Step(s, es[0]), es[1..], p);
    }
  }

  /** p is runnable at position i of the queue. */
  predicate ReadyAt(s: Sys, p: int, i: nat) { i < |s.queue| && s.queue[i] == p && p in s.pcbs && Runnable(s.pcbs[p]) }

  predicate Kills(e: Event, p: int) { e.Kill? && e.pid == p }

  lemma BeforeReady(s: Sys, e: Event, p: int, i: nat)
    requires Inv(s) && Allowed(s, e) && !Kills(e, p) && ReadyAt(s, p, i)
    ensures ReadyAt(Before(s, e).0, p, i)
  {
    OnceMembers(s.queue, s.active);
  }

  /** A switch chooses the process or moves it up. */
  lemma StepReady(s: Sys, e: Event, p: int, i: nat)
    requires Inv(s) && Allowed(s, e) && !Kills(e, p) && ReadyAt(s, p, i)
    ensures var t := Step(s, e);
      if Switching(s, e) then t.active == p || exists j: nat :: j < i && ReadyAt(t, p, j) else ReadyAt(t, p, i)
  {
    var b := Before(s, e).0;
    StepInv(s, e);
    BeforeReady(s, e, p, i);
    if Before(s, e).1 {
      RotateAdvances(b.queue, b.active, b.pcbs, i);
      var t := Step(s, e);
      if t.active != p {
        var j: nat :| j < i && j < |t.queue| && t.queue[j] == b.queue[i];
        assert ReadyAt(t, p, j);
      }
    }
  }

  /** p is active in some state of the run. */
  ghost predicate EverActive(s: Sys, es: seq<Event>, p: int)
    decreases |es|
  {
    s.active == p || (es != [] && EverActive(Step(s, es[0]), es[1..], p))
  }

  ghost predicate NeverKilled(es: seq<Event>, p: int) { forall e | e in es :: !Kills(e, p) }

  function Ticks(es: seq<Event>): nat { if es == [] then 0 else (if es[0] == Tick then 1 else 0) + Ticks(es[1..]) }

  predicate Switching(s: Sys, e: Event) { CanStep(s, e) && Before(s, e).1 }

  /** How many switches the run makes. */
  ghost function Switches(s: Sys, es: seq<Event>): nat
    decreases |es|
  {
    if es == [] then 0 else (if Switching(s, es[0]) then 1 else 0) + Switches(Step(s, es[0]), es[1..])
  }

  /** Timer ticks until position i has certainly been reached. */
  function Budget(i: nat, slice: nat): int { (SLICE_LIMIT + 1) * (i + 1) - slice }

  lemma StepSlice(s: Sys, e: Event)
    requires Inv(s) && Allowed(s, e)
    ensures var t := Step(s, e);
      if Switching(s, e) then t.slice == 0 && (e == Tick ==> s.slice == SLICE_LIMIT)
      else t.slice == s.slice + if e == Tick then 1 else 0
  {
    assert CanStep(s, e) by { StepInv(s, e); }
  }

  /**
   * Bounded waiting: whatever happens meanwhile, a runnable process at position i that is not
   * killed becomes active within i + 1 switches, hence within 17 * (i + 1) timer ticks.
   */
  lemma {:induction false} BoundedWaiting(s: Sys, es: seq<Event>, p: int, i: nat)
    requires Inv(s) && AllowedRun(s, es) && ReadyAt(s, p, i) && NeverKilled(es, p)
    requires Switches(s, es) > i || Ticks(es) >= Budget(i, s.slice)
    ensures EverActive(s, es, p)
    decreases |es|
  {
    var e, t := es[0], Step(s, es[0]);
    assert e in es;
    StepInv(s, e);
    StepReady(s, e, p, i);
    StepSlice(s, e);
    assert NeverKilled(es[1..], p);
    if t.active == p {
      assert EverActive(t, es[1..], p);
    } else if Switching(s, e) {
      var j: nat :| j < i && ReadyAt(t, p, j);
      BoundedWaiting(t, es[1..], p, j);
    } else {
      BoundedWaiting(t, es[1..], p, i);
    }
  }

  /** The bound in ticks, from any point of a time slice. */
  lemma WaitingTicks(s: Sys, es: seq<Event>, p: int, i: nat)
    requires Inv(s) && AllowedRun(s, es) && NeverKilled(es, p)
    requires i < |s.queue| && s.queue[i] == p && p in s.pcbs && s.pcbs[p].status in {Running, Ready}
    requires Ticks(es) >= 17 * (i + 1)
    ensures EverActive(s, es, p)
  {
    BoundedWaiting(s, es, p, i);
  }

  /** p waits for the clock to reach w. */
  predicate Sleeps(s: Sys, p: int, w: nat) {
    p in s.pcbs && s.pcbs[p].status == Waiting && s.pcbs[p].onClock == w && w != 0
  }

  /** Alarms are looked at every third tick: the first such tick from w on. */
  function WakeTick(w: nat): (t: nat)
    ensures w <= t <= w + 2 && t % 3 == 1
    ensures forall u: nat | w <= u && u % 3 == 1 :: t <= u
  {
    if w % 3 == 1 then w else if w % 3 == 0 then w + 1 else w + 2
  }

  /** A sleeper is woken by the tick that is due and by nothing else. */
  lemma StepSleeps(s: Sys, e: Event, p: int, w: nat)
    requires Inv(s) && Allowed(s, e) && !Kills(e, p) && Sleeps(s, p, w)
    ensures var t := Step(s, e);
      && t.ticks == s.ticks + (if e == Tick then 1 else 0)
      && if e == Tick && t.ticks % 3 == 1 && w <= t.ticks
         then p in t.pcbs && t.pcbs[p].status == Running
         else Sleeps(t, p, w)
  {
    assert CanStep(s, e) by { StepInv(s, e); }
    assert p != s.active && p in s.queue;
    assert ReasonOk(s.pcbs[p]);
    if e.Exit? { assert s.active != 0; }
    if e.Kill? && e.pid in s.queue { assert Known(s.queue, s.pcbs); }
  }

  lemma {:induction false} NoTick(es: seq<Event>)
    requires Ticks(es) == 0
    ensures Tick !in es
  {
    if es != [] { NoTick(es[1..]); }
  }

  /**
   * An alarm is never early and goes off at the first alarm tick from its time on: until then
   * the process waits, and right after that tick it is RUNNING.
   */
  lemma {:induction false} SleepRun(s: Sys, es: seq<Event>, p: int, w: nat)
    requires Inv(s) && AllowedRun(s, es) && Sleeps(s, p, w) && NeverKilled(es, p) && s.ticks < WakeTick(w)
    ensures s.ticks + Ticks(es) < WakeTick(w) ==> Sleeps(Run(s, es), p, w)
    ensures es != [] && es[|es| - 1] == Tick && s.ticks + Ticks(es) == WakeTick(w) ==>
      p in Run(s, es).pcbs && Run(s, es).pcbs[p].status == Running
    decreases |es|
  {
    if es != [] {
      var e, t, rest := es[0], Step(s, es[0]), es[1..];
      assert e in es && NeverKilled(rest, p);
      StepInv(s, e);
      StepSleeps(s, e, p, w);
      if t.ticks < WakeTick(w) {
        assert Sleeps(t, p, w);
        SleepRun(t, rest, p, w);
        assert rest != [] ==> rest[|rest| - 1] == es[|es| - 1];
      } else if Ticks(rest) == 0 {
        NoTick(rest);
        assert rest != [] ==> es[|es| - 1] in rest;
        assert rest == [] ==> Run(s, es) == t;
      }
    }
  }

  lemma AlarmStarts(s: Sys, seconds: nat)
    requires Inv(s) && Allowed(s, Alarm(seconds)) && seconds >= 1 && s.ticks + 10 * seconds < 0x1_0000_0000_0000_0000
    ensures var t := Step(s, Alarm(seconds));
      Inv(t) && t.ticks == s.ticks && Sleeps(t, s.active, s.ticks + 10 * seconds)
  {
    assert WakeTime(s.ticks, seconds) == s.ticks + 10 * seconds;
    StepInv(s, Alarm(seconds));
  }

  /** `alarm(seconds)` at tick c: woken at the first alarm tick from c + 10 * seconds on, at most two ticks late. */
  lemma AlarmBound(s: Sys, seconds: nat, es: seq<Event>)
    requires Inv(s) && Allowed(s, Alarm(seconds)) && AllowedRun(s, [Alarm(seconds)] + es) && NeverKilled(es, s.active)
    requires seconds >= 1 && s.ticks + 10 * seconds < 0x1_0000_0000_0000_0000
    ensures var w, t := s.ticks + 10 * seconds, Run(s, [Alarm(seconds)] + es);
      && w <= WakeTick(w) <= w + 2 && WakeTick(w) % 3 == 1
      && (s.ticks + Ticks(es) < WakeTick(w) ==> Sleeps(t, s.active, w))
      && (es != [] && es[|es| - 1] == Tick && s.ticks + Ticks(es) == WakeTick(w) ==>
            s.active in t.pcbs && t.pcbs[s.active].status == Running)
  {
    var w, t := s.ticks + 10 * seconds, Step(s, Alarm(seconds));
    assert ([Alarm(seconds)] + es)[1..] == es;
    hide Step, Inv, Allowed, Sleeps, Ticks, WakeTick, NeverKilled;
    assert AllowedRun(t, es) && Run(s, [Alarm(seconds)] + es) == Run(t, es);
    AlarmStarts(s, seconds);
    SleepsAhead(t, s.active, w);
    SleepRun(t, es, s.active, w);
  }

  lemma SleepsAhead(s: Sys, p: int, w: nat)
    ensures w <= WakeTick(w) <= w + 2 && WakeTick(w) % 3 == 1
  {
  }

  datatype Announcement = Nothing | Announced(status: nat)

  /** What a step announces about process q. */
  function Announces(s: Sys, e: Event, q: int): Announcement {
    match e
    case Exit(status) => if s.active == q then Announced(status) else Nothing
    case Kill(pid, signal) => if pid == q && q in s.queue then Announced(signal) else Nothing
    case _ => Nothing
  }

  /** The first announcement about q in a run. */
  ghost function FirstAnnounced(s: Sys, es: seq<Event>, q: int): Announcement
    decreases |es|
  {
    if es == [] then Nothing
    else if Announces(s, es[0], q).Announced? then Announces(s, es[0], q)
    else FirstAnnounced(Step(s, es[0]), es[1..], q)
  }

  /** p is blocked in waitpid(q). */
  predicate WaitsFor(s: Sys, p: int, q: int) {
    p in s.pcbs && q != 0 && s.pcbs[p].status == Waiting && s.pcbs[p].onPid == q && s.pcbs[p].at == InWait
  }

  /** p was told a status and has not yet stored it. */
  predicate Told(s: Sys, p: int, status: nat) {
    p in s.pcbs && s.pcbs[p].status == Running && s.pcbs[p].at == InWait && s.pcbs[p].exitStatus == status && s.pcbs[p].onPid == 0
  }

  /** The statuses that p has stored. */
  function StoresOf(stores: seq<Stored>, p: int): seq<nat> {
    if stores == [] then []
    else StoresOf(stores[..|stores| - 1], p) + if stores[|stores| - 1].pid == p then [stores[|stores| - 1].value] else []
  }

  /** A waiter leaves WAITING only in a step that announces the process waited for, or in its own kill. */
  lemma StepWaitsFor(s: Sys, e: Event, p: int, q: int)
    requires Inv(s) && Allowed(s, e) && WaitsFor(s, p, q)
    ensures var t := Step(s, e);
      && (Kills(e, p) ==> IsFinished(t, p))
      && (!Kills(e, p) ==> match Announces(s, e, q)
                           case Announced(status) => Told(t, p, status)
                           case Nothing => WaitsFor(t, p, q))
      && StoresOf(t.stores, p) == StoresOf(s.stores, p)
  {
    assert CanStep(s, e) by { StepInv(s, e); }
    assert p != s.active && p in s.queue;
    assert ReasonOk(s.pcbs[p]);
    if e.Kill? && e.pid in s.queue { assert Known(s.queue, s.pcbs); }
    if e.Resume? && Me(s).at == InWait {
      var x := Stored(s.active, Me(s).exitStatus % TWO_32);
      assert (s.stores + [x])[..|s.stores|] == s.stores;
    }
  }

  /** What p was told stays as it is until p itself goes on and stores it. */
  lemma StepTold(s: Sys, e: Event, p: int, status: nat)
    requires Inv(s) && Allowed(s, e) && Told(s, p, status) && !Kills(e, p)
    ensures var t := Step(s, e);
      if s.active == p && e.Resume? then StoresOf(t.stores, p) == StoresOf(s.stores, p) + [status % TWO_32]
      else Told(t, p, status) && StoresOf(t.stores, p) == StoresOf(s.stores, p)
  {
    assert CanStep(s, e) by { StepInv(s, e); }
    assert p != s.active ==> p in s.queue;
    if e.Kill? && e.pid in s.queue { assert Known(s.queue, s.pcbs); }
    if e.Resume? && Me(s).at == InWait {
      var x := Stored(s.active, Me(s).exitStatus % TWO_32);
      assert (s.stores + [x])[..|s.stores|] == s.stores;
    }
  }

  lemma StepStores(s: Sys, e: Event, p: int)
    requires Inv(s) && Allowed(s, e)
    ensures StoresOf(s.stores, p) <= StoresOf(Step(s, e).stores, p)
  {
    if e.Resume? && Me(s).at == InWait {
      var x := Stored(s.active, Me(s).exitStatus % TWO_32);
      assert (s.stores + [x])[..|s.stores|] == s.stores;
    }
  }

  lemma {:induction false} RunStores(s: Sys, es: seq<Event>, p: int)
    requires Inv(s) && AllowedRun(s, es)
    ensures StoresOf(s.stores, p) <= StoresOf(Run(s, es).stores, p)
    decreases |es|
  {
    if es != [] {
      StepInv(s, es[0]);
      StepStores(s, es[0], p);
      RunStores(Step(s, es[0]), es[1..], p);
    }
  }

  /** The next status p stores is the one it was told. */
  lemma {:induction false} ToldRun(s: Sys, es: seq<Event>, p: int, status: nat)
    requires Inv(s) && AllowedRun(s, es) && Told(s, p, status) && NeverKilled(es, p)
    ensures var before, after := StoresOf(s.stores, p), StoresOf(Run(s, es).stores, p);
      before <= after && (|before| < |after| ==> after[|before|] == status % TWO_32)
    decreases |es|
  {
    if es != [] {
      var e, t := es[0], Step(s, es[0]);
      assert e in es && NeverKilled(es[1..], p);
      StepInv(s, e);
      StepTold(s, e, p, status);
      if s.active == p && e.Resume? {
        RunStores(t, es[1..], p);
      } else {
        ToldRun(t, es[1..], p, status);
      }
    }
  }

  /**
   * Wait causality: over every run, the first status that a process blocked in waitpid(q)
   * stores is the first one announced for q.
   */
  lemma {:induction false} WaitCausality(s: Sys, es: seq<Event>, p: int, q: int)
    requires Inv(s) && AllowedRun(s, es) && WaitsFor(s, p, q) && NeverKilled(es, p)
    ensures FirstAnnounced(s, es, q) == Nothing ==> WaitsFor(Run(s, es), p, q)
    ensures var before, after := StoresOf(s.stores, p), StoresOf(Run(s, es).stores, p);
      && before <= after
      && (|before| < |after| ==>
            FirstAnnounced(s, es, q).Announced? && after[|before|] == FirstAnnounced(s, es, q).status % TWO_32)
    decreases |es|
  {
    if es != [] {
      var e, t := es[0], Step(s, es[0]);
      assert e in es && NeverKilled(es[1..], p);
      StepInv(s, e);
      StepWaitsFor(s, e, p, q);
      if Announces(s, e, q).Announced? {
        ToldRun(t, es[1..], p, Announces(s, e, q).status);
      } else {
        WaitCausality(t, es[1..], p, q);
      }
    }
  }
}
