/** Deadlines: no receive times out and no sleeper wakes before its time. */
module ProtocolTime {
  import opened Optional
  import opened EventTable
  import opened Protocol
  import opened ProtocolTokens
  import opened ProtocolSafety
  import opened ProtocolTheorems
  import MapSum

  /** A timeout that has left its timer is due. */
  predicate Ripe(s: Sys, f: Closure) {
    f.TimeOut? ==>
      f.attempt in s.attempts && s.attempts[f.attempt].alarm.Some? && s.attempts[f.attempt].due <= s.now
  }

  ghost predicate TimersRight(s: Sys) {
    forall k | k in s.timers && s.timers[k].f.TimeOut? ::
      var a := s.timers[k].f.attempt;
      a in s.attempts && s.attempts[a].alarm.Some? && s.timers[k].due == s.attempts[a].due
  }

  ghost predicate AllRipe(s: Sys) {
    && (forall f | f in s.fired :: Ripe(s, f))
    && (forall f | Call(f) in s.Queue() :: Ripe(s, f))
    && (forall th | th in s.threads && s.threads[th].Job? :: Ripe(s, s.threads[th].f))
  }

  ghost predicate FlagsRight(s: Sys) {
    forall a | a in s.attempts && s.attempts[a].flag :: s.attempts[a].alarm.Some? && s.attempts[a].due <= s.now
  }

  predicate Asleep(timers: map<nat, Alarm>, c: nat, due: nat) {
    exists k :: k in timers && timers[k] == Alarm(WakeUp(c), due)
  }

  /** A sleeper's alarm stands until it is due. */
  ghost predicate SleepersRight(s: Sys) {
    forall c | c in s.sleeping :: s.sleeping[c] <= s.now || Asleep(s.timers, c, s.sleeping[c])
  }

  ghost predicate OnTime(s: Sys) {
    TimersRight(s) && AllRipe(s) && FlagsRight(s) && SleepersRight(s)
  }

  // ----- The small changes steps are made of -----

  lemma SetOnTime(s: Sys, th: nat, h: Hold)
    requires OnTime(s) && (h.Job? ==> Ripe(s, h.f))
    ensures OnTime(s.Set(th, h))
  {
  }

  lemma TableOnTime(s: Sys, t: Table)
    requires OnTime(s) && forall f | Call(f) in t.queue :: Call(f) in s.Queue() || Ripe(s, f)
    ensures OnTime(s.(table := t))
  {
  }

  /** Only what the scheduler keeps about coroutines changes. */
  lemma StateOnTime(s: Sys, state: map<nat, CoState>, saved: set<nat>, holder: map<nat, nat>, trying: map<nat, nat>)
    requires OnTime(s)
    ensures OnTime(s.(state := state, saved := saved, holder := holder, trying := trying))
  {
  }

  lemma PushOnTime(s: Sys, w: Wake)
    requires OnTime(s) && (w.Call? ==> Ripe(s, w.cb))
    ensures OnTime(s.Push(w))
  {
    TableOnTime(s, s.table.(queue := s.table.queue + [w]));
  }

  /** With coroutines as the only waiters, events queue no callbacks. */
  lemma EventsOnTime(s: Sys, fd: int, e: Event, r: Report, fails: bool)
    requires OnTime(s) && Plainly(s.table.fds)
    ensures OnTime(s.(table := Cancelled(s.table, fd, e, fails)))
    ensures fd in s.table.fds ==> OnTime(s.(table := Delivered(s.table, fd, r, fails)))
  {
    hide OnTime;
    TableOnTime(s, Cancelled(s.table, fd, e, fails));
    if fd in s.table.fds {
      TableOnTime(s, Delivered(s.table, fd, r, fails));
    }
  }

  lemma EndedOnTime(s: Sys, c: nat)
    requires OnTime(s) && c in s.trying && s.trying[c] in s.attempts
    ensures OnTime(Ended(s, c))
  {
  }

  lemma WokenOnTime(s: Sys, c: nat)
    requires OnTime(s)
    ensures OnTime(s.(sleeping := s.sleeping - {c}))
  {
  }

  // ----- The steps -----

  lemma PickOnTime(s: Sys, th: nat)
    requires OnTime(s) && Enabled(s, Pick(th))
    ensures OnTime(DoPick(s, th))
  {
    hide OnTime, FirstPick;
    var i := FirstPick(s.Queue(), s.state);
    var w, rest := s.Queue()[i], Removed(s.Queue(), i);
    assert w in s.Queue() && forall x | x in rest :: x in s.Queue();
    var s' := s.(table := s.table.(queue := rest));
    TableOnTime(s, s'.table);
    match w
    case Resume(c) =>
      StateOnTime(s', s.state, s.saved, s.holder[c := th], s.trying);
      SetOnTime(s'.(holder := s.holder[c := th]), th, Took(c));
    case Call(f) =>
      assert Ripe(s', f) by { QueueRipe(s, f); }
      SetOnTime(s', th, Job(f, Starting));
  }

  lemma QueueRipe(s: Sys, f: Closure)
    requires OnTime(s) && Call(f) in s.Queue()
    ensures Ripe(s, f)
  {
  }

  lemma SleepOnTime(s: Sys, th: nat, c: nat, ms: nat, addr: nat)
    requires OnTime(s) && addr !in s.timers
    ensures OnTime(DoSleep(s, th, c, ms, addr))
  {
    var n := DoSleep(s, th, c, ms, addr);
    assert n.timers[addr] == Alarm(WakeUp(c), s.now + ms);
    forall d | d in s.sleeping && Asleep(s.timers, d, s.sleeping[d]) ensures Asleep(n.timers, d, s.sleeping[d]) {
      var k :| k in s.timers && s.timers[k] == Alarm(WakeUp(d), s.sleeping[d]);
      assert n.timers[k] == s.timers[k];
    }
  }

  lemma AttemptOnTime(s: Sys, a: nat, t: Attempt)
    requires OnTime(s) && a !in s.attempts && !t.flag
    ensures OnTime(s.(attempts := s.attempts[a := t]))
  {
  }

  lemma AlarmOnTime(s: Sys, addr: nat, a: nat, due: nat)
    requires OnTime(s) && addr !in s.timers
    requires a in s.attempts && s.attempts[a].alarm.Some? && s.attempts[a].due == due
    ensures OnTime(s.(timers := s.timers[addr := Alarm(TimeOut(a), due)]))
  {
    var n := s.(timers := s.timers[addr := Alarm(TimeOut(a), due)]);
    forall d | d in s.sleeping && Asleep(s.timers, d, s.sleeping[d]) ensures Asleep(n.timers, d, s.sleeping[d]) {
      var k :| k in s.timers && s.timers[k] == Alarm(WakeUp(d), s.sleeping[d]);
      assert n.timers[k] == s.timers[k];
    }
  }

  lemma RecvOnTime(s: Sys, th: nat, c: nat, fd: int, a: nat, timeout: Option<nat>, addr: nat)
    requires OnTime(s) && a !in s.attempts && addr !in s.timers
    ensures OnTime(DoRecv(s, th, c, fd, a, timeout, addr))
  {
    hide OnTime;
    var n := DoRecv(s, th, c, fd, a, timeout, addr);
    var s1 := s.(attempts := n.attempts);
    AttemptOnTime(s, a, n.attempts[a]);
    if timeout.Some? {
      AlarmOnTime(s1, addr, a, s.now + timeout.value);
    }
    var s2 := s1.(timers := n.timers);
    StateOnTime(s2, s.state, s.saved, s.holder, n.trying);
    SetOnTime(s2.(trying := n.trying), th, Runs(c, Arming));
  }

  /** Fewer timers, none of them a sleeper's. */
  lemma DisarmOnTime(s: Sys, t: Attempt, a: nat)
    requires OnTime(s)
    ensures OnTime(s.(timers := Disarmed(s.timers, t, a)))
  {
    var n := s.(timers := Disarmed(s.timers, t, a));
    forall d | d in s.sleeping && Asleep(s.timers, d, s.sleeping[d]) ensures Asleep(n.timers, d, s.sleeping[d]) {
      var k :| k in s.timers && s.timers[k] == Alarm(WakeUp(d), s.sleeping[d]);
      assert k in n.timers && n.timers[k] == s.timers[k];
    }
  }

  lemma ExpireOnTime(s: Sys, addr: nat)
    requires OnTime(s) && addr in s.timers && s.timers[addr].due <= s.now
    ensures OnTime(DoExpire(s, addr))
  {
    var n := DoExpire(s, addr);
    forall d | d in s.sleeping && s.sleeping[d] > s.now ensures Asleep(n.timers, d, s.sleeping[d]) {
      var k :| k in s.timers && s.timers[k] == Alarm(WakeUp(d), s.sleeping[d]);
      assert k in n.timers && n.timers[k] == s.timers[k];
    }
  }

  lemma TimeOutOnTime(s: Sys, th: nat, a: nat, stage: JobStage, fails: bool)
    requires OnTime(s) && Ripe(s, TimeOut(a)) && Plainly(s.table.fds)
    ensures OnTime(TimeOutRun(s, th, a, stage, fails))
  {
    hide OnTime, Cancelled, Plainly;
    match stage
    case Starting =>
      SetOnTime(s, th, Free);
      SetOnTime(s, th, Job(TimeOut(a), Checked));
    case Checked =>
      FlagOnTime(s, a);
      SetOnTime(s.(attempts := s.attempts[a := s.attempts[a].(flag := true)]), th, Job(TimeOut(a), Flagged));
    case Flagged =>
      EventsOnTime(s, s.attempts[a].fd, READ, Report(false, false, false), fails);
      SetOnTime(s.(table := Cancelled(s.table, s.attempts[a].fd, READ, fails)), th, Free);
  }

  lemma JobRipe(s: Sys, th: nat)
    requires OnTime(s) && th in s.threads && s.threads[th].Job?
    ensures Ripe(s, s.threads[th].f)
  {
  }

  lemma JobOnTime(s: Sys, th: nat, f: Closure, stage: JobStage, fails: bool)
    requires OnTime(s) && th in s.threads && s.threads[th] == Job(f, stage) && Plainly(s.table.fds)
    ensures OnTime(JobRun(s, th, f, stage, fails))
  {
    hide OnTime, TimeOutRun, Plainly;
    JobRipe(s, th);
    match f
    case Plain(_) => SetOnTime(s, th, Free);
    case WakeUp(c) =>
      PushOnTime(s, Resume(c));
      SetOnTime(s.Push(Resume(c)), th, Free);
    case TimeOut(a) => TimeOutOnTime(s, th, a, stage, fails);
  }

  lemma FlagOnTime(s: Sys, a: nat)
    requires OnTime(s) && a in s.attempts && s.attempts[a].alarm.Some? && s.attempts[a].due <= s.now
    ensures OnTime(s.(attempts := s.attempts[a := s.attempts[a].(flag := true)]))
  {
  }

  lemma RegisteredOnTime(s: Sys, th: nat, c: nat, fd: int, e: Event, fails: bool)
    requires OnTime(s)
    ensures OnTime(Registered(s, th, c, fd, e, fails))
  {
    hide OnTime;
    RegisteredKeeps(s, th, c, fd, e, fails);
    var n := Registered(s, th, c, fd, e, fails);
    TableOnTime(s, n.table);
    SetOnTime(s.(table := n.table), th, n.threads[th]);
  }

  lemma RegisterOnTime(s: Sys, th: nat, c: nat, fails: bool)
    requires OnTime(s) && c in s.trying && s.trying[c] in s.attempts
    ensures OnTime(DoRegister(s, th, c, fails))
  {
    hide OnTime, Registered, Disarmed;
    var a := s.trying[c];
    var n := Registered(s, th, c, s.attempts[a].fd, READ, fails);
    RegisteredKeeps(s, th, c, s.attempts[a].fd, READ, fails);
    RegisteredOnTime(s, th, c, s.attempts[a].fd, READ, fails);
    EndedOnTime(n, c);
    DisarmOnTime(Ended(n, c), s.attempts[a], a);
  }

  /** A thread step that only moves its coroutine along. */
  lemma PhaseOnTime(s: Sys, step: Step)
    requires OnTime(s) && Enabled(s, step)
    requires (step.SwapIn? || step.Decide? || step.Yield? || step.Finish? || step.SwapOut?)
    ensures OnTime(Next(s, step))
  {
    hide OnTime;
    var th := step.th;
    var c := s.threads[th].cor;
    var n := Next(s, step);
    if step.SwapIn? {
      StateOnTime(s, n.state, n.saved, s.holder, s.trying);
      WokenOnTime(s.(state := n.state, saved := n.saved), c);
      SetOnTime(s.(state := n.state, saved := n.saved, sleeping := n.sleeping), th, n.threads[th]);
    } else if step.Decide? {
      EndedOnTime(s, c);
      SetOnTime(Ended(s, c), th, n.threads[th]);
    } else {
      StateOnTime(s, n.state, n.saved, s.holder, s.trying);
      SetOnTime(s.(state := n.state, saved := n.saved), th, n.threads[th]);
    }
  }

  lemma SettleOnTime(s: Sys, th: nat, c: nat)
    requires OnTime(s) && c in s.state
    ensures OnTime(DoSettle(s, th, c))
  {
    hide OnTime;
    StateOnTime(s, s.state, s.saved, s.holder - {c}, s.trying);
    var s' := s.(holder := s.holder - {c});
    SetOnTime(s', th, Free);
    PushOnTime(s'.Set(th, Free), Resume(c));
    StateOnTime(s'.Set(th, Free), s.state[c := SUSPENDED], s.saved, s'.holder, s.trying);
  }

  lemma SubmitOnTime(s: Sys, f: Closure)
    requires OnTime(s) && f in s.fired
    ensures OnTime(s.(fired := s.fired - multiset{f}).Push(Call(f)))
  {
    var s' := s.(fired := s.fired - multiset{f});
    assert forall g | g in s'.fired :: g in s.fired;
    assert Ripe(s, f);
    assert OnTime(s');
    hide OnTime;
    PushOnTime(s', Call(f));
  }

  lemma TickOnTime(s: Sys, d: nat)
    requires OnTime(s)
    ensures OnTime(s.(now := s.now + d))
  {
  }

  lemma SpawnOnTime(s: Sys, c: nat)
    requires OnTime(s)
    ensures OnTime(DoSpawn(s, c))
  {
    hide OnTime;
    StateOnTime(s, s.state[c := INIT], s.saved + {c}, s.holder, s.trying);
    PushOnTime(s.(state := s.state[c := INIT], saved := s.saved + {c}), Resume(c));
  }

  lemma StepOnTime(s: Sys, step: Step)
    requires OnTime(s) && Enabled(s, step) && Plainly(s.table.fds)
    ensures OnTime(Next(s, step))
  {
    hide OnTime, Plainly, FirstPick, JobRun, DoExpire, Registered, DoRegister, DoPick, DoSettle, DoSpawn,
      DoSleep, DoRecv, DoState, DoSwapIn, DoSwapOut, Ended, Disarmed, Cancelled, Delivered;
    match step
    case Spawn(c) => SpawnOnTime(s, c);
    case Pick(th) => PickOnTime(s, th);
    case Wait(th, fd, e, fails) => RegisteredOnTime(s, th, s.threads[th].cor, fd, e, fails);
    case Sleep(th, ms, addr) => SleepOnTime(s, th, s.threads[th].cor, ms, addr);
    case Recv(th, fd, a, timeout, addr) => RecvOnTime(s, th, s.threads[th].cor, fd, a, timeout, addr);
    case Register(th, fails) => RegisterOnTime(s, th, s.threads[th].cor, fails);
    case Disarm(th) =>
      var a := s.trying[s.threads[th].cor];
      DisarmOnTime(s, s.attempts[a], a);
      SetOnTime(s.(timers := Disarmed(s.timers, s.attempts[a], a)), th, Runs(s.threads[th].cor, Deciding));
    case Settle(th) => SettleOnTime(s, th, s.threads[th].cor);
    case Poll(fd, r, fails) => EventsOnTime(s, fd, READ, r, fails);
    case Cancel(fd, e, fails) => EventsOnTime(s, fd, e, Report(false, false, false), fails);
    case Tick(d) => TickOnTime(s, d);
    case Expire(addr) => ExpireOnTime(s, addr);
    case Submit(f) => SubmitOnTime(s, f);
    case RunJob(th, fails) => JobOnTime(s, th, s.threads[th].f, s.threads[th].stage, fails);
    case _ => PhaseOnTime(s, step);
  }

  lemma {:induction false} RunOnTime(s: Sys, steps: seq<Step>)
    requires Inv(s) && OnTime(s) && CanRun(s, steps)
    ensures OnTime(Run(s, steps))
    decreases |steps|
  {
    if steps != [] {
      ShapedPlainly(s);
      hide OnTime, Inv, Next, Enabled, Plainly;
      StepOnTime(s, steps[0]);
      StepInv(s, steps[0]);
      RunOnTime(Next(s, steps[0]), steps[1..]);
    }
  }

  lemma ReachableOnTime(s: Sys)
    requires Reachable(s)
    ensures OnTime(s)
  {
    var s0: Sys, steps: seq<Step> :| Initial(s0) && CanRun(s0, steps) && Run(s0, steps) == s;
    InitialInv(s0);
    RunOnTime(s0, steps);
  }

  // ----- What it means -----

  /** A receive that reports a timeout was given one, and the deadline of that very attempt has
      passed: a receive without a timeout never times out. */
  lemma TimeoutIsGenuine(s: Sys, th: nat)
    requires Reachable(s) && Enabled(s, Decide(th)) && Decision(s, th) == TimedOut
    ensures var t := s.attempts[s.trying[s.threads[th].cor]];
            t.alarm.Some? && t.due <= s.now
  {
    ReachableOnTime(s);
  }

  lemma TimeOutFlags(s: Sys, th: nat, a: nat, stage: JobStage, fails: bool)
    requires a in s.attempts
    ensures var n := TimeOutRun(s, th, a, stage, fails);
            n.attempts == if stage == Checked then s.attempts[a := s.attempts[a].(flag := true)] else s.attempts
  {
    hide Cancelled;
    match stage
    case Starting =>
    case Checked =>
    case Flagged =>
  }

  /** A job changes the flag of the attempt it was made for only. */
  lemma JobFlags(s: Sys, th: nat, f: Closure, stage: JobStage, fails: bool, b: nat)
    requires b in s.attempts
    ensures var n := JobRun(s, th, f, stage, fails);
            && b in n.attempts
            && (n.attempts[b].flag == s.attempts[b].flag || (f == TimeOut(b) && stage == Checked))
  {
    hide TimeOutRun;
    if f.TimeOut? && f.attempt in s.attempts {
      TimeOutFlags(s, th, f.attempt, stage, fails);
    }
  }

  lemma RegisterFlags(s: Sys, th: nat, c: nat, fails: bool, b: nat)
    requires c in s.trying && s.trying[c] in s.attempts && b in s.attempts
    ensures var n := DoRegister(s, th, c, fails);
            b in n.attempts && n.attempts[b].flag == s.attempts[b].flag
  {
    hide Registered, Disarmed, AddOutcome;
    RegisteredKeeps(s, th, c, s.attempts[s.trying[c]].fd, READ, fails);
  }

  lemma ThreadFlags(s: Sys, step: Step, b: nat)
    requires Enabled(s, step) && (step.Recv? || step.Register? || step.Decide?) && b in s.attempts
    ensures b in Next(s, step).attempts && Next(s, step).attempts[b].flag == s.attempts[b].flag
  {
    hide Registered, DoRegister, DoPick, DoSettle, DoSpawn, DoSleep, DoSwapIn, DoSwapOut, DoDisarm, DoState, JobRun,
      DoExpire;
    if step.Register? {
      RegisterFlags(s, step.th, s.threads[step.th].cor, step.fails, b);
    }
  }

  lemma MoveAttempts(s: Sys, step: Step)
    requires Enabled(s, step) && IsMove(step) && !step.Recv? && !step.Register? && !step.Decide?
    ensures Next(s, step).attempts == s.attempts
  {
    hide Added, Disarmed, FirstPick, DoPick, DoSettle, DoSpawn, DoExpire, DoRegister, DoRecv, JobRun, Ended;
  }

  lemma OtherAttempts(s: Sys, step: Step)
    requires Enabled(s, step) && !IsMove(step) && !step.RunJob?
    ensures Next(s, step).attempts == s.attempts
  {
    hide FirstPick, DoPick, DoSettle, Cancelled, Delivered, Registered, DoRegister, DoRecv, DoSleep, DoSwapIn,
      DoSwapOut, DoDisarm, DoState, JobRun, Ended;
    if step.Pick? {
      PickChanges(s, step.th);
    } else if step.Settle? {
      SettleAttempts(s, step.th, s.threads[step.th].cor);
    }
  }

  lemma SettleAttempts(s: Sys, th: nat, c: nat)
    requires c in s.state
    ensures DoSettle(s, th, c).attempts == s.attempts
  {
  }

  /** The flag of an attempt is set by its own callback only: the callback of an earlier
      attempt can wake a later one, but all that one then does is try again. */
  lemma OnlyOwnCallback(s: Sys, step: Step, b: nat)
    requires Enabled(s, step) && b in s.attempts
    ensures b in Next(s, step).attempts
    ensures Next(s, step).attempts[b].flag != s.attempts[b].flag ==>
              step.RunJob? && s.threads[step.th] == Job(TimeOut(b), Checked)
  {
    hide DoSpawn, DoPick, DoSwapIn, Registered, DoSleep, DoRecv, DoRegister, DoDisarm, Ended, DoState, DoSwapOut,
      DoSettle, DoExpire, JobRun, Cancelled, Delivered;
    if step.RunJob? {
      JobFlags(s, step.th, s.threads[step.th].f, s.threads[step.th].stage, step.fails, b);
    } else if step.Recv? || step.Register? || step.Decide? {
      ThreadFlags(s, step, b);
    } else if IsMove(step) {
      MoveAttempts(s, step);
    } else {
      OtherAttempts(s, step);
    }
  }

  /** A sleeping coroutine is swapped in only when its time has come. */
  lemma SleepsLongEnough(s: Sys, th: nat)
    requires Reachable(s) && Enabled(s, SwapIn(th)) && s.threads[th].cor in s.sleeping
    ensures s.sleeping[s.threads[th].cor] <= s.now
  {
    var c := s.threads[th].cor;
    ReachableOnTime(s);
    SwapInIsSafe(s, th);
    OneWakeUp(s, c);
    if Asleep(s.timers, c, s.sleeping[c]) {
      var k :| k in s.timers && s.timers[k] == Alarm(WakeUp(c), s.sleeping[c]);
      AlarmToken(s, k, c);
    }
  }

  lemma AlarmToken(s: Sys, k: nat, c: nat)
    requires k in s.timers && s.timers[k].f == WakeUp(c)
    ensures Tokens(s, c) >= 1
  {
    MapSum.SumRemove(AlarmWeights(s.timers, c), k);
  }
}
