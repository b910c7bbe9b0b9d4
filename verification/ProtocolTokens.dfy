/** What every step does to the wake-up tokens of every coroutine. */
module ProtocolTokens {
  import opened Optional
  import opened EventTable
  import opened Protocol
  import MapSum

  // ----- One place at a time -----

  lemma ArmedUpdate(fds: map<int, Ctx>, fd: int, x: Ctx, c: nat)
    ensures ArmedTokens(fds[fd := x], c)
         == ArmedTokens(fds, c) + SlotTokens(x, c) - if fd in fds then SlotTokens(fds[fd], c) else 0
    ensures ArmedTokens(fds - {fd}, c) == ArmedTokens(fds, c) - if fd in fds then SlotTokens(fds[fd], c) else 0
  {
    hide SlotTokens;
    var m := SlotWeights(fds, c);
    MapSum.SumUpdate(m, fd, SlotTokens(x, c));
    MapSum.SumRemove(m, fd);
    assert m[fd := SlotTokens(x, c)] == SlotWeights(fds[fd := x], c);
    assert m - {fd} == SlotWeights(fds - {fd}, c);
  }

  lemma TimerUpdate(timers: map<nat, Alarm>, k: nat, x: Alarm, c: nat)
    ensures TimerTokens(timers[k := x], c)
         == TimerTokens(timers, c) + AlarmTokens(x, c) - if k in timers then AlarmTokens(timers[k], c) else 0
    ensures TimerTokens(timers - {k}, c)
         == TimerTokens(timers, c) - if k in timers then AlarmTokens(timers[k], c) else 0
  {
    hide AlarmTokens;
    var m := AlarmWeights(timers, c);
    MapSum.SumUpdate(m, k, AlarmTokens(x, c));
    MapSum.SumRemove(m, k);
    assert m[k := AlarmTokens(x, c)] == AlarmWeights(timers[k := x], c);
    assert m - {k} == AlarmWeights(timers - {k}, c);
  }

  lemma JobUpdate(threads: map<nat, Hold>, th: nat, h: Hold, c: nat)
    requires th in threads
    ensures JobTokens(threads[th := h], c) == JobTokens(threads, c) + HoldTokens(h, c) - HoldTokens(threads[th], c)
  {
    hide HoldTokens;
    var m := HoldWeights(threads, c);
    MapSum.SumUpdate(m, th, HoldTokens(h, c));
    assert m[th := HoldTokens(h, c)] == HoldWeights(threads[th := h], c);
  }

  lemma QueueAppend(q: seq<Wake>, ws: seq<Wake>, c: nat)
    ensures QueueTokens(q + ws, c) == QueueTokens(q, c) + QueueTokens(ws, c)
  {
  }

  lemma OneToken(w: Wake, c: nat)
    ensures QueueTokens([w], c) == Bit(w == Resume(c) || w == Call(WakeUp(c)))
  {
  }

  lemma QueueRemove(q: seq<Wake>, i: nat, c: nat)
    requires i < |q|
    ensures QueueTokens(Removed(q, i), c) == QueueTokens(q, c) - QueueTokens([q[i]], c)
  {
    assert q == q[..i] + [q[i]] + q[i + 1..];
  }

  // ----- The event table -----

  /** Waiters are coroutines: no slot holds a callback, and an armed event has its coroutine. */
  ghost predicate Plainly(fds: map<int, Ctx>) {
    forall fd | fd in fds ::
      && fds[fd].read.cb == None && fds[fd].write.cb == None
      && (fds[fd].events.read ==> fds[fd].read.cor.Some?) && (fds[fd].events.write ==> fds[fd].write.cor.Some?)
  }

  lemma AddedTokens(t: Table, fd: int, e: Event, k: nat, fails: bool, c: nat)
    ensures ArmedTokens(Added(t, fd, e, Waiting(k), fails).fds, c)
         == ArmedTokens(t.fds, c) + Bit(AddOutcome(t, fd, e, fails) == Done && k == c)
    ensures Added(t, fd, e, Waiting(k), fails).queue == t.queue
  {
    ArmedUpdate(t.fds, fd, Entry(Added(t, fd, e, Waiting(k), fails), fd), c);
  }

  /** Cancelling moves the wake-up from the event to the queue. */
  lemma CancelledTokens(t: Table, fd: int, e: Event, fails: bool, c: nat)
    requires Plainly(t.fds)
    ensures var t' := Cancelled(t, fd, e, fails);
            QueueTokens(t'.queue, c) + ArmedTokens(t'.fds, c) == QueueTokens(t.queue, c) + ArmedTokens(t.fds, c)
  {
    if Waited(t, fd, e) && !fails {
      ArmedUpdate(t.fds, fd, t.fds[fd].(events := t.fds[fd].events.Without(e)), c);
      QueueAppend(t.queue, Wakes(t.fds[fd].SlotOf(e)), c);
    }
  }

  /** Deleting instead forgets it: whoever waited is not woken. */
  lemma DeletedTokens(t: Table, fd: int, e: Event, fails: bool, c: nat)
    ensures var t' := Deleted(t, fd, e, fails);
            QueueTokens(t'.queue, c) + ArmedTokens(t'.fds, c) == QueueTokens(t.queue, c) + ArmedTokens(t.fds, c)
              - Bit(Waited(t, fd, e) && !fails && t.fds[fd].SlotOf(e).cor == Some(c))
  {
    if Waited(t, fd, e) && !fails {
      ArmedUpdate(t.fds, fd, t.fds[fd].(events := t.fds[fd].events.Without(e)).Put(e, EMPTY_SLOT), c);
    }
  }

  /** What a record queues for a coroutine. */
  function WokenTokens(x: Ctx, ready: Events, c: nat): nat {
    (if ready.read then QueueTokens(Wakes(x.read), c) else 0)
    + if ready.write then QueueTokens(Wakes(x.write), c) else 0
  }

  /** The wake-ups of a coroutine that a record takes from events that are not armed. */
  function StaleTokens(t: Table, fd: int, r: Report, fails: bool, c: nat): nat {
    if fd !in t.fds || !Handled(t, fd, r, fails) then 0
    else
      var x := t.fds[fd];
      WokenTokens(x, Ready(r, x.events).Minus(x.events), c)
  }

  lemma DeliveredQueue(t: Table, fd: int, r: Report, fails: bool, c: nat)
    requires fd in t.fds && Handled(t, fd, r, fails)
    ensures QueueTokens(Delivered(t, fd, r, fails).queue, c)
         == QueueTokens(t.queue, c) + WokenTokens(t.fds[fd], Ready(r, t.fds[fd].events), c)
  {
    var x := t.fds[fd];
    var ready := Ready(r, x.events);
    var rs, ws := if ready.read then Wakes(x.read) else [], if ready.write then Wakes(x.write) else [];
    assert Delivered(t, fd, r, fails).queue == t.queue + (rs + ws);
    QueueAppend(t.queue, rs + ws, c);
    QueueAppend(rs, ws, c);
    NoTokens(c);
    hide QueueTokens, Wakes, Delivered;
  }

  lemma DeliveredArmed(t: Table, fd: int, r: Report, fails: bool, c: nat)
    requires fd in t.fds && Handled(t, fd, r, fails)
    ensures var x := t.fds[fd];
            ArmedTokens(Delivered(t, fd, r, fails).fds, c)
              == ArmedTokens(t.fds, c) - SlotTokens(x, c)
                 + SlotTokens(x.(events := x.events.Minus(Ready(r, x.events))), c)
  {
    hide ArmedTokens;
    var x := t.fds[fd];
    ArmedUpdate(t.fds, fd, x.(events := x.events.Minus(Ready(r, x.events))), c);
  }

  /** What a record queues is what it takes from the armed events of its entry, and the stale. */
  lemma SlotMoved(x: Ctx, ready: Events, c: nat)
    requires x.read.cb == None && x.write.cb == None
    ensures WokenTokens(x, ready, c) + SlotTokens(x.(events := x.events.Minus(ready)), c)
         == SlotTokens(x, c) + WokenTokens(x, ready.Minus(x.events), c)
  {
    hide QueueTokens, Wakes;
    WakesTokens(x.read, c);
    WakesTokens(x.write, c);
  }

  /** A delivery moves the wake-ups of its armed events to the queue, and adds one for every
      stale waiter among the others. */
  lemma DeliveredTokens(t: Table, fd: int, r: Report, fails: bool, c: nat)
    requires fd in t.fds && Plainly(t.fds)
    ensures var t' := Delivered(t, fd, r, fails);
            QueueTokens(t'.queue, c) + ArmedTokens(t'.fds, c)
              == QueueTokens(t.queue, c) + ArmedTokens(t.fds, c) + StaleTokens(t, fd, r, fails, c)
  {
    hide QueueTokens, ArmedTokens, SlotTokens, WokenTokens;
    if Handled(t, fd, r, fails) {
      hide Delivered, Ready;
      DeliveredQueue(t, fd, r, fails, c);
      DeliveredArmed(t, fd, r, fails, c);
      SlotMoved(t.fds[fd], Ready(r, t.fds[fd].events), c);
    }
  }

  lemma NoTokens(c: nat)
    ensures QueueTokens([], c) == 0
  {
  }

  lemma WakesTokens(s: Slot, c: nat)
    requires s.cb == None
    ensures QueueTokens(Wakes(s), c) == Bit(s.cor == Some(c))
  {
  }

  lemma AddedPlainly(t: Table, fd: int, e: Event, k: nat, fails: bool)
    requires Plainly(t.fds)
    ensures Plainly(Added(t, fd, e, Waiting(k), fails).fds)
  {
  }

  lemma TakenPlainly(t: Table, fd: int, e: Event, r: Report, fails: bool)
    requires Plainly(t.fds)
    ensures Plainly(Cancelled(t, fd, e, fails).fds)
    ensures fd in t.fds ==> Plainly(Delivered(t, fd, r, fails).fds)
  {
  }

  // ----- The steps -----

  /** What a step creates or uses up: a wake-up appears when a coroutine is spawned, registers,
      falls asleep or is put back ready, and goes when its entry is picked. */
  function Delta(s: Sys, step: Step, c: nat): int
    requires Enabled(s, step)
  {
    match step
    case Spawn(d) => Bit(d == c)
    case Pick(th) => -(Bit(s.Queue()[FirstPick(s.Queue(), s.state)] == Resume(c)) as int)
    case Wait(th, fd, e, fails) => Bit(AddOutcome(s.table, fd, e, fails) == Done && s.threads[th].cor == c)
    case Sleep(th, _, _) => Bit(s.threads[th].cor == c)
    case Register(th, fails) =>
      var d := s.threads[th].cor;
      Bit(AddOutcome(s.table, s.attempts[s.trying[d]].fd, READ, fails) == Done && d == c)
    case Settle(th) => Bit(s.threads[th].cor == c && s.state[c] == READY)
    case _ => 0
  }

  /** Steps that only move a thread along. */
  lemma ThreadTokens(s: Sys, step: Step, c: nat)
    requires Enabled(s, step)
    requires step.SwapIn? || step.Yield? || step.Finish? || step.SwapOut? || step.Decide? || step.Tick?
    ensures Tokens(Next(s, step), c) == Tokens(s, c)
  {
    hide QueueTokens, ArmedTokens, TimerTokens, JobTokens;
    if !step.Tick? {
      JobUpdate(s.threads, step.th, Next(s, step).threads[step.th], c);
    }
  }

  lemma PickChanges(s: Sys, th: nat)
    requires FirstPick(s.Queue(), s.state) < |s.Queue()|
    ensures var i := FirstPick(s.Queue(), s.state);
            var w := s.Queue()[i];
            var n := DoPick(s, th);
            && n.Queue() == Removed(s.Queue(), i)
            && n.threads == s.threads[th := if w.Resume? then Took(w.cor) else Job(w.cb, Starting)]
            && n.table.fds == s.table.fds && n.timers == s.timers && n.fired == s.fired && n.attempts == s.attempts
  {
    hide FirstPick, Removed;
  }

  lemma PickTokens(s: Sys, th: nat, c: nat)
    requires Enabled(s, Pick(th))
    ensures Tokens(Next(s, Pick(th)), c) == Tokens(s, c) + Delta(s, Pick(th), c)
  {
    hide QueueTokens, ArmedTokens, TimerTokens, JobTokens, Removed, FirstPick, DoPick;
    var i := FirstPick(s.Queue(), s.state);
    var w := s.Queue()[i];
    QueueRemove(s.Queue(), i, c);
    OneToken(w, c);
    JobUpdate(s.threads, th, if w.Resume? then Took(w.cor) else Job(w.cb, Starting), c);
    PickChanges(s, th);
  }

  lemma SettleChanges(s: Sys, th: nat, d: nat)
    requires d in s.state
    ensures var n := DoSettle(s, th, d);
            && n.Queue() == (if s.state[d] == READY then s.Queue() + [Resume(d)] else s.Queue())
            && n.threads == s.threads[th := Free]
            && n.table.fds == s.table.fds && n.timers == s.timers && n.fired == s.fired
  {
  }

  lemma SettleTokens(s: Sys, th: nat, c: nat)
    requires Enabled(s, Settle(th))
    ensures Tokens(Next(s, Settle(th)), c) == Tokens(s, c) + Delta(s, Settle(th), c)
  {
    hide QueueTokens, ArmedTokens, TimerTokens, JobTokens, DoSettle;
    var d := s.threads[th].cor;
    JobUpdate(s.threads, th, Free, c);
    QueueAppend(s.Queue(), [Resume(d)], c);
    OneToken(Resume(d), c);
    SettleChanges(s, th, d);
  }

  lemma SpawnTokens(s: Sys, d: nat, c: nat)
    requires Enabled(s, Spawn(d))
    ensures Tokens(Next(s, Spawn(d)), c) == Tokens(s, c) + Delta(s, Spawn(d), c)
  {
    hide QueueTokens, ArmedTokens, TimerTokens, JobTokens;
    QueueAppend(s.Queue(), [Resume(d)], c);
    OneToken(Resume(d), c);
  }

  lemma SubmitTokens(s: Sys, f: Closure, c: nat)
    requires Enabled(s, Submit(f))
    ensures Tokens(Next(s, Submit(f)), c) == Tokens(s, c)
  {
    hide QueueTokens, ArmedTokens, TimerTokens, JobTokens;
    QueueAppend(s.Queue(), [Call(f)], c);
    OneToken(Call(f), c);
  }

  /** A timeout that goes was nobody's sleep. */
  lemma DisarmedTokens(timers: map<nat, Alarm>, t: Attempt, a: nat, c: nat)
    ensures TimerTokens(Disarmed(timers, t, a), c) == TimerTokens(timers, c)
  {
    if t.alarm.Some? {
      TimerUpdate(timers, t.alarm.value, Alarm(TimeOut(a), 0), c);
    }
  }

  lemma SleepTokens(s: Sys, th: nat, k: nat, ms: nat, addr: nat, c: nat)
    requires th in s.threads && s.threads[th].Runs? && addr !in s.timers
    ensures Tokens(DoSleep(s, th, k, ms, addr), c) == Tokens(s, c) + Bit(k == c)
  {
    hide QueueTokens, ArmedTokens, TimerTokens, JobTokens;
    TimerUpdate(s.timers, addr, Alarm(WakeUp(k), s.now + ms), c);
    JobUpdate(s.threads, th, Runs(k, Parting), c);
  }

  lemma RecvTokens(s: Sys, th: nat, k: nat, fd: int, a: nat, timeout: Option<nat>, addr: nat, c: nat)
    requires th in s.threads && s.threads[th].Runs? && addr !in s.timers
    ensures Tokens(DoRecv(s, th, k, fd, a, timeout, addr), c) == Tokens(s, c)
  {
    hide QueueTokens, ArmedTokens, TimerTokens, JobTokens;
    if timeout.Some? {
      TimerUpdate(s.timers, addr, Alarm(TimeOut(a), s.now + timeout.value), c);
    }
    JobUpdate(s.threads, th, Runs(k, Arming), c);
  }

  lemma DisarmTokens(s: Sys, th: nat, k: nat, c: nat)
    requires th in s.threads && s.threads[th].Runs? && k in s.trying && s.trying[k] in s.attempts
    ensures Tokens(DoDisarm(s, th, k), c) == Tokens(s, c)
  {
    hide QueueTokens, ArmedTokens, TimerTokens, JobTokens, Disarmed;
    DisarmedTokens(s.timers, s.attempts[s.trying[k]], s.trying[k], c);
    JobUpdate(s.threads, th, Runs(k, Deciding), c);
  }

  lemma ExpireTokens(s: Sys, addr: nat, c: nat)
    requires addr in s.timers
    ensures Tokens(DoExpire(s, addr), c) == Tokens(s, c)
  {
    hide QueueTokens, ArmedTokens, TimerTokens, JobTokens;
    TimerUpdate(s.timers, addr, s.timers[addr], c);
  }

  lemma TimerStepTokens(s: Sys, step: Step, c: nat)
    requires Enabled(s, step) && (step.Sleep? || step.Recv? || step.Disarm? || step.Expire?)
    ensures Tokens(Next(s, step), c) == Tokens(s, c) + Delta(s, step, c)
  {
    hide Tokens, DoSleep, DoRecv, DoDisarm, DoExpire, DoSpawn, DoPick, DoSettle, DoState, DoSwapIn, DoSwapOut,
      Registered, DoRegister, JobRun, Ended, FirstPick, AddOutcome;
    match step
    case Sleep(th, ms, addr) => SleepTokens(s, th, s.threads[th].cor, ms, addr, c);
    case Recv(th, fd, a, timeout, addr) => RecvTokens(s, th, s.threads[th].cor, fd, a, timeout, addr, c);
    case Disarm(th) => DisarmTokens(s, th, s.threads[th].cor, c);
    case Expire(addr) => ExpireTokens(s, addr, c);
  }

  lemma RegisteredTokens(s: Sys, th: nat, k: nat, fd: int, e: Event, fails: bool, c: nat)
    requires th in s.threads && s.threads[th].Runs?
    ensures Tokens(Registered(s, th, k, fd, e, fails), c)
         == Tokens(s, c) + Bit(AddOutcome(s.table, fd, e, fails) == Done && k == c)
  {
    hide QueueTokens, ArmedTokens, TimerTokens, JobTokens, Added;
    AddedTokens(s.table, fd, e, k, fails, c);
    JobUpdate(s.threads, th, Registered(s, th, k, fd, e, fails).threads[th], c);
  }

  lemma RegisterTokens(s: Sys, th: nat, fails: bool, c: nat)
    requires Enabled(s, Register(th, fails))
    ensures Tokens(Next(s, Register(th, fails)), c) == Tokens(s, c) + Delta(s, Register(th, fails), c)
  {
    hide QueueTokens, ArmedTokens, TimerTokens, JobTokens, Registered, Disarmed, AddOutcome;
    var k := s.threads[th].cor;
    var a := s.trying[k];
    RegisteredTokens(s, th, k, s.attempts[a].fd, READ, fails, c);
    RegisteredKeeps(s, th, k, s.attempts[a].fd, READ, fails);
    DisarmedTokens(s.timers, s.attempts[a], a, c);
  }

  lemma WaitStepTokens(s: Sys, step: Step, c: nat)
    requires Enabled(s, step) && (step.Wait? || step.Register?)
    ensures Tokens(Next(s, step), c) == Tokens(s, c) + Delta(s, step, c)
  {
    hide Tokens, Registered, DoRegister, AddOutcome;
    match step
    case Wait(th, fd, e, fails) => RegisteredTokens(s, th, s.threads[th].cor, fd, e, fails, c);
    case Register(th, fails) => RegisterTokens(s, th, fails, c);
  }

  /** Registering changes the table and the thread only. */
  lemma RegisteredKeeps(s: Sys, th: nat, k: nat, fd: int, e: Event, fails: bool)
    ensures var s' := Registered(s, th, k, fd, e, fails);
            && s' == s.(table := s'.table, threads := s'.threads)
            && s'.threads
               == s.threads[th := Runs(k, if AddOutcome(s.table, fd, e, fails) == Done then Parting else Active)]
            && s'.Queue() == s.Queue()
  {
  }

  lemma EventStepTokens(s: Sys, step: Step, c: nat)
    requires Enabled(s, step) && (step.Poll? || step.Cancel?) && Plainly(s.table.fds)
    ensures Tokens(Next(s, step), c) == Tokens(s, c)
  {
    hide QueueTokens, ArmedTokens, TimerTokens, JobTokens, Cancelled, Delivered;
    match step
    case Poll(fd, r, fails) => DeliveredTokens(s.table, fd, r, fails, c);
    case Cancel(fd, e, fails) => CancelledTokens(s.table, fd, e, fails, c);
  }

  lemma SetTokens(s: Sys, th: nat, h: Hold, c: nat)
    requires th in s.threads && HoldTokens(h, c) == HoldTokens(s.threads[th], c)
    ensures Tokens(s.Set(th, h), c) == Tokens(s, c)
  {
    hide QueueTokens, ArmedTokens, TimerTokens, JobTokens, HoldTokens;
    JobUpdate(s.threads, th, h, c);
  }

  lemma CancelTokens(s: Sys, fd: int, e: Event, fails: bool, c: nat)
    requires Plainly(s.table.fds)
    ensures Tokens(s.(table := Cancelled(s.table, fd, e, fails)), c) == Tokens(s, c)
  {
    hide QueueTokens, ArmedTokens, TimerTokens, JobTokens, Cancelled, Plainly;
    CancelledTokens(s.table, fd, e, fails, c);
  }

  lemma TimeOutTokens(s: Sys, th: nat, a: nat, stage: JobStage, fails: bool, c: nat)
    requires th in s.threads && s.threads[th] == Job(TimeOut(a), stage) && Plainly(s.table.fds) && a in s.attempts
    ensures Tokens(TimeOutRun(s, th, a, stage, fails), c) == Tokens(s, c)
  {
    var t := s.attempts[a];
    var flagged := s.(attempts := s.attempts[a := t.(flag := true)]);
    assert Tokens(flagged, c) == Tokens(s, c) by { hide QueueTokens, ArmedTokens, TimerTokens, JobTokens; }
    hide Tokens, Plainly, Cancelled;
    match stage
    case Starting =>
      SetTokens(s, th, Free, c);
      SetTokens(s, th, Job(TimeOut(a), Checked), c);
    case Checked => SetTokens(flagged, th, Job(TimeOut(a), Flagged), c);
    case Flagged =>
      CancelTokens(s, t.fd, READ, fails, c);
      SetTokens(s.(table := Cancelled(s.table, t.fd, READ, fails)), th, Free, c);
  }

  lemma JobRunTokens(s: Sys, th: nat, f: Closure, stage: JobStage, fails: bool, c: nat)
    requires th in s.threads && s.threads[th] == Job(f, stage) && Plainly(s.table.fds)
    ensures Tokens(JobRun(s, th, f, stage, fails), c) == Tokens(s, c)
  {
    hide QueueTokens, ArmedTokens, TimerTokens, JobTokens, TimeOutRun, Plainly;
    if f.TimeOut? && f.attempt in s.attempts {
      TimeOutTokens(s, th, f.attempt, stage, fails, c);
    } else {
      JobUpdate(s.threads, th, Free, c);
      if f.WakeUp? {
        QueueAppend(s.Queue(), [Resume(f.sleeper)], c);
        OneToken(Resume(f.sleeper), c);
      }
    }
  }

  /** The token law of every step. */
  lemma StepTokens(s: Sys, step: Step, c: nat)
    requires Enabled(s, step) && Plainly(s.table.fds)
    ensures Tokens(Next(s, step), c) == Tokens(s, c) + Delta(s, step, c)
  {
    hide Tokens, JobRun;
    if step.Spawn? {
      SpawnTokens(s, step.c, c);
    } else if step.Pick? {
      PickTokens(s, step.th, c);
    } else if step.Settle? {
      SettleTokens(s, step.th, c);
    } else if step.Submit? {
      SubmitTokens(s, step.f, c);
    } else if step.Sleep? || step.Recv? || step.Disarm? || step.Expire? {
      TimerStepTokens(s, step, c);
    } else if step.Wait? || step.Register? {
      WaitStepTokens(s, step, c);
    } else if step.Poll? || step.Cancel? {
      EventStepTokens(s, step, c);
    } else if step.RunJob? {
      JobRunTokens(s, step.th, s.threads[step.th].f, s.threads[step.th].stage, step.fails, c);
    } else {
      ThreadTokens(s, step, c);
    }
  }
}
