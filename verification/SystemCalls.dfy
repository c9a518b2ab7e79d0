/**
 * What each event of the process table means for the processes: for the caller, for those it wakes,
 * for all others, and over the runs that follow a call.
 */
module SystemCalls {
  import opened Lifecycle

  /** t is b after a switch: the first runnable of queue and caller is active, the others move up. */
  ghost predicate Turned(b: Sys, t: Sys) {
    && b.active in b.pcbs && Known(b.queue, b.pcbs) && Skipped(b.queue + [b.active], b.pcbs) <= |b.queue|
    && (t.queue, t.active) == Rotated(b.queue, b.active, b.pcbs, Skipped(b.queue + [b.active], b.pcbs))
    && t.pcbs == b.pcbs && t.slice == 0 && t.prevPid == b.prevPid && t.ticks == b.ticks && t.stores == b.stores
  }

  lemma ScheduleTurns(b: Sys)
    requires CanSchedule(b)
    ensures Turned(b, Schedule(b))
  {
    RotateIs(b.queue, b.active, b.pcbs);
  }

  /** The events that give up the processor, and the others. */
  lemma StepTurns(s: Sys, e: Event)
    requires Inv(s) && Allowed(s, e)
    ensures var t := Step(s, e);
      match e
      case Yield => t.pcbs == s.pcbs && Turned(s, t)
      case Exec => Turned(s.(pcbs := t.pcbs), t)
      case Exit(_) => Turned(s.(pcbs := t.pcbs), t)
      case WaitPid(_) => Turned(s.(pcbs := t.pcbs), t)
      case Alarm(_) => Turned(s.(pcbs := t.pcbs), t)
      case Read(ready) => if ready then t == s else Turned(s.(pcbs := t.pcbs), t)
      case Tick =>
        && t.ticks == s.ticks + 1
        && if s.slice < 16 then t == s.(pcbs := t.pcbs, ticks := s.ticks + 1, slice := s.slice + 1)
           else Turned(s.(pcbs := t.pcbs, ticks := s.ticks + 1), t)
      case Keyboard => t == s.(pcbs := t.pcbs)
      case Kill(_, _) => t == s.(pcbs := t.pcbs)
      case Fork => t.active == s.active && t.slice == s.slice && t.ticks == s.ticks && t.stores == s.stores
      case Resume(ready) =>
        && t.ticks == s.ticks && t.prevPid == s.prevPid
        && (Me(s).at == InRead && !ready ==> Turned(s.(pcbs := t.pcbs), t))
        && (!(Me(s).at == InRead && !ready) ==> t.active == s.active && t.queue == s.queue && t.slice == s.slice)
  {
    StepInv(s, e);
    hide Rotated, Skipped, Consistent, NotifyStdin, NotifyExit, NotifyAlarm, Inv, CanSchedule, Schedule;
    if Before(s, e).1 { ScheduleTurns(Before(s, e).0); }
  }

  /** Whoever is active is RUNNING or READY. */
  lemma ActiveRuns(s: Sys, es: seq<Event>)
    requires Inv(s) && AllowedRun(s, es)
    ensures var t := Run(s, es); t.active in t.pcbs && Me(t).status in {Running, Ready}
  {
    RunInv(s, es);
  }

  /** The caller's own control block. */
  lemma StepCaller(s: Sys, e: Event)
    requires Inv(s) && Allowed(s, e)
    ensures s.active in Step(s, e).pcbs
    ensures var me, now := Me(s), Step(s, e).pcbs[s.active];
      match e
      case Exec => now == me.(status := Ready, at := InStart)
      case Exit(_) => now == me.(status := Finished)
      case WaitPid(pid) => now == me.(status := Waiting, onPid := pid, at := InWait)
      case Alarm(seconds) =>
        now == me.(status := Waiting, onClock := (s.ticks + 10 * seconds) % 0x1_0000_0000_0000_0000, at := InAlarm)
      case Read(ready) => now == if ready then me else me.(status := Waiting, onStdin := true, at := InRead)
      case Resume(ready) =>
        now == if me.at == InRead && !ready then me.(status := Waiting, onStdin := true)
               else if me.at == InStart then me.(status := Running, at := InUser)
               else me.(at := InUser)
      case _ => now == me
  {
    StepInv(s, e);
    CallerPlace(s);
    hide Rotate, Skipped, Inv, Step, CanSchedule;
    StepBlocks(s, e);
    hide CanStep, NotifyStdin, NotifyExit, NotifyAlarm;
    match e
    case Tick => CallerKept(s.(ticks := s.ticks + 1), 0, 0);
    case Keyboard => CallerKept(s, 0, 0);
    case Exit(status) => CallerKept(With(s, s.active, Me(s).(status := Finished)), s.active, status);
    case Kill(pid, signal) =>
      if pid in s.queue && pid in s.pcbs { CallerKept(With(s, pid, s.pcbs[pid].(status := Finished)), pid, signal); }
    case _ =>
  }

  /** Notifications reach queued processes only. */
  lemma CallerKept(s: Sys, pid: int, status: nat)
    requires s.active in s.pcbs && s.active !in s.queue
    ensures NotifyStdin(s).pcbs.Keys == NotifyExit(s, pid, status).pcbs.Keys == NotifyAlarm(s, s.ticks).pcbs.Keys == s.pcbs.Keys
    ensures NotifyStdin(s).pcbs[s.active] == s.pcbs[s.active] && NotifyExit(s, pid, status).pcbs[s.active] == s.pcbs[s.active]
    ensures NotifyAlarm(s, s.ticks).pcbs[s.active] == s.pcbs[s.active]
  {
  }

  lemma CallerPlace(s: Sys)
    requires Inv(s)
    ensures s.active in s.pcbs && s.active !in s.queue && s.active != s.prevPid + 1
  {
    OnceMembers(s.queue, s.active);
  }

  /** The switch changes no control block. */
  lemma StepBlocks(s: Sys, e: Event)
    requires CanStep(s, e)
    ensures Step(s, e).pcbs == Before(s, e).0.pcbs
  {
    hide Before, Rotate, Skipped;
  }

  /** The step concerns p: it kills it, or brings what p waits for. */
  predicate Concerns(s: Sys, e: Event, p: int)
    requires p in s.pcbs
  {
    var block := s.pcbs[p];
    || Kills(e, p)
    || (block.status == Waiting && match e
        case Keyboard => block.onStdin
        case Tick => block.onClock != 0 && (s.ticks + 1) % 3 == 1 && block.onClock <= s.ticks + 1
        case Exit(_) => block.onPid == s.active
        case Kill(pid, _) => block.onPid == pid && pid in s.queue
        case _ => false)
  }

  /** Nobody else is touched. */
  lemma StepOthers(s: Sys, e: Event, p: int)
    requires Inv(s) && Allowed(s, e) && p in s.pcbs && p != s.active && !Concerns(s, e, p)
    ensures p in Step(s, e).pcbs && Step(s, e).pcbs[p] == s.pcbs[p]
  {
    StepInv(s, e);
    BeforeOthers(s, e, p);
    hide Before, Rotate, Skipped, Consistent, Concerns;
  }

  lemma BeforeOthers(s: Sys, e: Event, p: int)
    requires s.active in s.pcbs && Inv(s) && Allowed(s, e) && p in s.pcbs && p != s.active && !Concerns(s, e, p)
    ensures p in Before(s, e).0.pcbs && Before(s, e).0.pcbs[p] == s.pcbs[p]
  {
    hide Rotate, Skipped;
  }

  /** A fork: the child gets a new pid, its parent's as ppid, and a place at the end of the queue. */
  lemma ForkMakes(s: Sys)
    requires Inv(s) && Allowed(s, Fork)
    ensures var t, child := Step(s, Fork), s.prevPid + 1;
      && child !in s.pcbs && t.pcbs.Keys == s.pcbs.Keys + {child} && t.prevPid == child
      && t.pcbs[child].ppid == s.active && t.pcbs[child].status == Running && t.pcbs[child].at == InUser
      && t.queue == s.queue + [child] && ReadyAt(t, child, |s.queue|)
  {
    StepInv(s, Fork);
  }

  /** A forked child that is not killed runs within 17 ticks for each process queued and itself. */
  lemma ForkedRuns(s: Sys, es: seq<Event>)
    requires Inv(s) && Allowed(s, Fork) && AllowedRun(s, [Fork] + es) && NeverKilled(es, s.prevPid + 1)
    requires Ticks(es) >= 17 * (|s.queue| + 1)
    ensures EverActive(Step(s, Fork), es, s.prevPid + 1)
  {
    StepInv(s, Fork);
    ForkMakes(s);
    AfterCall(s, Fork, es);
    WaitingTicks(Step(s, Fork), es, s.prevPid + 1, |s.queue|);
  }

  lemma AfterCall(s: Sys, e: Event, es: seq<Event>)
    ensures ([e] + es)[1..] == es && ([e] + es)[0] == e
    ensures AllowedRun(s, [e] + es) ==> AllowedRun(Step(s, e), es)
    ensures Run(s, [e] + es) == Run(Step(s, e), es)
  {
    assert ([e] + es)[1..] == es;
  }

  /** A kill finishes a queued process at once, whatever it waited for, and no other. */
  lemma KillFinishes(s: Sys, pid: int, signal: nat)
    requires Inv(s) && Allowed(s, Kill(pid, signal))
    ensures var t := Step(s, Kill(pid, signal));
      && (pid in s.queue ==> IsFinished(t, pid))
      && (pid !in s.queue ==> t == s)
      && t.pcbs.Keys == s.pcbs.Keys
      && (forall p | p in s.pcbs && p != pid :: t.pcbs[p].status == Finished <==> s.pcbs[p].status == Finished)
  {
    StepInv(s, Kill(pid, signal));
    assert Known(s.queue, s.pcbs);
  }

  /** `waitpid` waits for the process it names. */
  lemma WaitStarts(s: Sys, q: int)
    requires Inv(s) && Allowed(s, WaitPid(q))
    ensures Inv(Step(s, WaitPid(q))) && WaitsFor(Step(s, WaitPid(q)), s.active, q)
    ensures Step(s, WaitPid(q)).stores == s.stores
  {
    StepInv(s, WaitPid(q));
    StepCaller(s, WaitPid(q));
    StepTurns(s, WaitPid(q));
  }

  /**
   * From the call of `waitpid(q)` on: without an announcement about q the caller keeps waiting, and
   * the next status it stores is the first one announced for q.
   */
  lemma WaitFromCall(s: Sys, q: int, es: seq<Event>)
    requires Inv(s) && Allowed(s, WaitPid(q)) && AllowedRun(s, [WaitPid(q)] + es) && NeverKilled(es, s.active)
    ensures var first, t := FirstAnnounced(Step(s, WaitPid(q)), es, q), Run(s, [WaitPid(q)] + es);
      && (first == Nothing ==> WaitsFor(t, s.active, q))
      && var before, after := StoresOf(s.stores, s.active), StoresOf(t.stores, s.active);
      && before <= after
      && (|before| < |after| ==> first.Announced? && after[|before|] == first.status % 0x1_0000_0000)
  {
    hide *;
    WaitStarts(s, q);
    AfterCall(s, WaitPid(q), es);
    WaitCausality(Step(s, WaitPid(q)), es, s.active, q);
    WordWidths();
  }

  lemma WordWidths()
    ensures TWO_32 == 0x1_0000_0000 && TWO_64 == 0x1_0000_0000_0000_0000
  {
  }

  /** `alarm` waits for the 64-bit sum, which for a wait that is too long lies before the call. */
  lemma AlarmSleeps(s: Sys, seconds: nat)
    requires Inv(s) && Allowed(s, Alarm(seconds))
    ensures var w, t := (s.ticks + 10 * seconds) % 0x1_0000_0000_0000_0000, Step(s, Alarm(seconds));
      && Sleeps(t, s.active, w)
      && (w < s.ticks + 10 * seconds <==> s.ticks + 10 * seconds >= 0x1_0000_0000_0000_0000)
      && (seconds < 0x1_0000_0000_0000_0000 / 10 ==>
            (w < s.ticks <==> s.ticks + 10 * seconds >= 0x1_0000_0000_0000_0000))
  {
    StepInv(s, Alarm(seconds));
    StepCaller(s, Alarm(seconds));
    hide Step, Before, Rotate, Skipped;
  }

  /** p is blocked in a read of standard input. */
  predicate WaitsInput(s: Sys, p: int) {
    p in s.pcbs && s.pcbs[p].status == Waiting && s.pcbs[p].onStdin && s.pcbs[p].at == InRead
  }

  /** p has been woken in the middle of its read. */
  predicate Woken(s: Sys, p: int) {
    p in s.pcbs && s.pcbs[p].status == Running && !s.pcbs[p].onStdin && s.pcbs[p].at == InRead
  }

  /** A read with no line ready blocks. */
  lemma ReadStarts(s: Sys)
    requires Inv(s) && Allowed(s, Read(false))
    ensures Inv(Step(s, Read(false))) && WaitsInput(Step(s, Read(false)), s.active)
  {
    StepInv(s, Read(false));
    StepCaller(s, Read(false));
  }

  /** A complete line wakes every reader, and nothing else does but its own kill. */
  lemma StepInput(s: Sys, e: Event, p: int)
    requires Inv(s) && Allowed(s, e) && WaitsInput(s, p)
    ensures var t := Step(s, e);
      if Kills(e, p) then IsFinished(t, p) else if e == Keyboard then Woken(t, p) else WaitsInput(t, p)
  {
    StepInv(s, e);
    assert p != s.active && p in s.queue;
    assert ReasonOk(s.pcbs[p]);
    if !Kills(e, p) && e != Keyboard {
      StepOthers(s, e, p);
    }
    hide Rotate, Skipped;
  }

  /** A woken reader stays so until it goes on itself: then it has its line, or blocks again. */
  lemma StepWoken(s: Sys, e: Event, p: int)
    requires Inv(s) && Allowed(s, e) && Woken(s, p) && !Kills(e, p)
    ensures var t := Step(s, e);
      if s.active == p && e.Resume? then
        if e.inputReady then t.active == p && t.pcbs[p].status == Running && t.pcbs[p].at == InUser else WaitsInput(t, p)
      else Woken(t, p)
  {
    StepInv(s, e);
    if p != s.active {
      StepOthers(s, e, p);
    } else {
      StepCaller(s, e);
      StepTurns(s, e);
    }
    hide Rotate, Skipped;
  }

  lemma RunSteps(s: Sys, es: seq<Event>)
    ensures es == [] ==> Run(s, es) == s
    ensures Inv(s) && AllowedRun(s, es) && es != [] ==>
      && Allowed(s, es[0]) && Inv(Step(s, es[0])) && AllowedRun(Step(s, es[0]), es[1..])
      && Run(s, es) == Run(Step(s, es[0]), es[1..])
  {
    if Inv(s) && AllowedRun(s, es) && es != [] { StepInv(s, es[0]); }
    hide Step, Inv, Allowed;
  }

  /** The first event of a run and what it says about the others. */
  lemma FirstOrRest(es: seq<Event>, p: int)
    requires es != []
    ensures NeverKilled(es, p) ==> !Kills(es[0], p) && NeverKilled(es[1..], p)
    ensures Keyboard in es <==> es[0] == Keyboard || Keyboard in es[1..]
    ensures |es| > 1 ==> es[|es| - 1] == es[1..][|es| - 2]
    ensures |es| > 1 ==> (Keyboard in es[..|es| - 1] <==> es[0] == Keyboard || Keyboard in es[1..][..|es| - 2])
  {
    assert es == [es[0]] + es[1..];
    if |es| > 1 { assert es[..|es| - 1] == [es[0]] + es[1..][..|es| - 2]; }
  }

  /** Until a line is complete a reader waits, and right after that it is RUNNING. */
  lemma {:induction false} InputRun(s: Sys, es: seq<Event>, p: int)
    requires Inv(s) && AllowedRun(s, es) && WaitsInput(s, p) && NeverKilled(es, p)
    ensures Keyboard !in es ==> WaitsInput(Run(s, es), p)
    ensures es != [] && es[|es| - 1] == Keyboard && Keyboard !in es[..|es| - 1] ==> Woken(Run(s, es), p)
    decreases |es|
  {
    if es != [] {
      var e, t, rest := es[0], Step(s, es[0]), es[1..];
      hide *;
      RunSteps(s, es);
      FirstOrRest(es, p);
      StepInput(s, e, p);
      if e == Keyboard {
        if rest == [] { RunSteps(t, []); }
      } else {
        InputRun(t, rest, p);
      }
    } else {
      hide *;
      RunSteps(s, []);
    }
  }

  /** From the call of `read` on. */
  lemma ReadFromCall(s: Sys, es: seq<Event>)
    requires Inv(s) && Allowed(s, Read(false)) && AllowedRun(s, [Read(false)] + es) && NeverKilled(es, s.active)
    ensures var t := Run(s, [Read(false)] + es);
      && (Keyboard !in es ==> WaitsInput(t, s.active))
      && (es != [] && es[|es| - 1] == Keyboard && Keyboard !in es[..|es| - 1] ==> Woken(t, s.active))
  {
    hide *;
    ReadStarts(s);
    AfterCall(s, Read(false), es);
    InputRun(Step(s, Read(false)), es, s.active);
  }

  /** A program that was executed is Ready until it is switched to, and then it starts. */
  lemma ExecStarts(s: Sys, p: int, ready: bool)
    requires Inv(s) && Allowed(s, Resume(ready)) && s.active == p && Me(s).at == InStart
    ensures var t := Step(s, Resume(ready)); t.active == p && t.pcbs[p].status == Running && t.pcbs[p].at == InUser
  {
    StepCaller(s, Resume(ready));
    StepTurns(s, Resume(ready));
  }

  /** A process is not interrupted before its 17th tick, and then it is. */
  lemma {:induction false} QuantumIs(s: Sys, n: nat)
    requires Inv(s) && s.slice + n <= 17
    ensures var t := Run(s, seq(n, _ => Tick));
      && Inv(t)
      && (s.slice + n <= 16 ==> t.active == s.active && t.queue == s.queue && t.slice == s.slice + n)
      && (n > 0 && s.slice + n == 17 ==> Turned(t.(queue := s.queue, active := s.active), t))
    decreases n
  {
    if n > 0 {
      var t := Step(s, Tick);
      TickTurns(s);
      hide *;
      TicksRun(s, n);
      if s.slice + n <= 16 || n > 1 {
        QuantumIs(t, n - 1);
      } else {
        TicksRun(t, 0);
      }
    }
  }

  lemma TickTurns(s: Sys)
    requires Inv(s) && s.slice <= 16
    ensures var t := Step(s, Tick);
      && Inv(t)
      && (s.slice < 16 ==> t.active == s.active && t.queue == s.queue && t.slice == s.slice + 1)
      && (s.slice == 16 ==> Turned(t.(queue := s.queue, active := s.active), t))
  {
    StepInv(s, Tick);
    StepTurns(s, Tick);
    hide Consistent, Step, Skipped, Rotated;
  }

  lemma TicksRun(s: Sys, n: nat)
    ensures Run(s, seq(0, _ => Tick)) == s
    ensures n > 0 ==> Run(s, seq(n, _ => Tick)) == Run(Step(s, Tick), seq(n - 1, _ => Tick))
  {
    if n > 0 {
      assert seq(n, _ => Tick)[1..] == seq(n - 1, _ => Tick) && seq(n, _ => Tick)[0] == Tick;
    }
    hide Step;
  }
}
