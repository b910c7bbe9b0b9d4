/** What the invariant means for the scheduler, the sleepers and the receivers. */
module ProtocolTheorems {
  import opened Optional
  import opened EventTable
  import opened Protocol
  import opened ProtocolTokens
  import opened ProtocolSafety
  import MapSum

  /** A state some run from a fresh scheduler leads to. */
  ghost predicate Reachable(s: Sys) {
    exists s0: Sys, steps: seq<Step> :: Initial(s0) && CanRun(s0, steps) && Run(s0, steps) == s
  }

  lemma ReachableInv(s: Sys)
    requires Reachable(s)
    ensures Inv(s)
  {
    var s0: Sys, steps: seq<Step> :| Initial(s0) && CanRun(s0, steps) && Run(s0, steps) == s;
    InitialInv(s0);
    RunInv(s0, steps);
  }

  // ----- Coroutines and threads -----

  /** At most one thread has a given coroutine in hand. */
  lemma Exclusive(s: Sys, th1: nat, th2: nat)
    requires Reachable(s) && th1 in s.threads && th2 in s.threads
    requires s.threads[th1].Has() && s.threads[th2].Has() && s.threads[th1].cor == s.threads[th2].cor
    ensures th1 == th2
  {
    ReachableInv(s);
    assert Owned(s, th1) && Owned(s, th2);
  }

  /** The assertion of `swapIn` never fails, what is swapped in has not finished or failed, and
      its context has been saved: no thread resumes a coroutine another is still leaving. */
  lemma SwapInIsSafe(s: Sys, th: nat)
    requires Reachable(s) && Enabled(s, SwapIn(th))
    ensures var c := s.threads[th].cor;
            c in s.state && s.state[c] != RUNNING && !s.state[c].Over() && c in s.saved
  {
    ReachableInv(s);
    assert Owned(s, th) && HeldProperly(s, s.threads[th].cor) && CorFits(s, s.threads[th].cor);
  }

  /** No wake-up is lost or duplicated: what is suspended or ready has exactly one pending, in
      the queue, an armed event, a timer or a callback; what is over has none; what runs has at
      most one, and has it exactly while it parts or has parted with its registration. */
  lemma OneWakeUp(s: Sys, c: nat)
    requires Reachable(s) && c in s.state
    ensures c !in s.holder ==> s.state[c] != RUNNING && Tokens(s, c) == if s.state[c].Over() then 0 else 1
    ensures s.state[c] == SUSPENDED && c !in s.holder ==> Tokens(s, c) == 1
    ensures Tokens(s, c) <= 1 && (s.state[c].Over() ==> Tokens(s, c) == 0 && Resume(c) !in s.Queue())
    ensures forall th | th in s.threads && s.threads[th].Has() && s.threads[th].cor == c ::
              Tokens(s, c) == Need(s.threads[th], s.state[c])
  {
    ReachableInv(s);
    assert Proper(s, c) && Tokens(s, c) == Expected(s, c) && CorFits(s, c);
    hide Plainly, Tokens;
    if Resume(c) in s.Queue() {
      var i :| 0 <= i < |s.Queue()| && s.Queue()[i] == Resume(c);
      QueuedToken(s, i, c);
    }
    forall th | th in s.threads && s.threads[th].Has() && s.threads[th].cor == c
      ensures Tokens(s, c) == Need(s.threads[th], s.state[c])
    {
      assert Owned(s, th);
    }
  }

  /** How often a run creates a wake-up of the coroutine: it spawns, registers, falls asleep or
      is put back ready. */
  function Created(s: Sys, steps: seq<Step>, c: nat): nat
    requires CanRun(s, steps)
    decreases |steps|
  {
    if steps == [] then 0
    else (if Delta(s, steps[0], c) > 0 then 1 else 0) + Created(Next(s, steps[0]), steps[1..], c)
  }

  /** How often a run takes the coroutine out of the queue. */
  function Picked(s: Sys, steps: seq<Step>, c: nat): nat
    requires CanRun(s, steps)
    decreases |steps|
  {
    if steps == [] then 0
    else (if Delta(s, steps[0], c) < 0 then 1 else 0) + Picked(Next(s, steps[0]), steps[1..], c)
  }

  lemma {:induction false} RunTokens(s: Sys, steps: seq<Step>, c: nat)
    requires Inv(s) && CanRun(s, steps)
    ensures Tokens(s, c) + Created(s, steps, c) == Picked(s, steps, c) + Tokens(Run(s, steps), c)
    decreases |steps|
  {
    ShapedPlainly(s);
    hide Inv, Next, Enabled, Tokens, Plainly;
    if steps != [] {
      DeltaIsUnit(s, steps[0], c);
      StepTokens(s, steps[0], c);
      StepInv(s, steps[0]);
      RunTokens(Next(s, steps[0]), steps[1..], c);
    }
  }

  lemma DeltaIsUnit(s: Sys, step: Step, c: nat)
    requires Enabled(s, step)
    ensures -1 <= Delta(s, step, c) <= 1
  {
  }

  /** Every registration is resumed exactly once: over any run from a fresh scheduler, a
      coroutine has been picked exactly as often as a wake-up was created for it, but for the
      one that may still be pending; one is pending exactly while it is spawned, suspended,
      ready, or parting. */
  lemma ResumedOnce(s0: Sys, steps: seq<Step>, c: nat)
    requires Initial(s0) && CanRun(s0, steps) && c in Run(s0, steps).state
    ensures var s := Run(s0, steps);
            && Created(s0, steps, c) == Picked(s0, steps, c) + Tokens(s, c) && Tokens(s, c) <= 1
            && (c !in s.holder && !s.state[c].Over() ==> Created(s0, steps, c) == Picked(s0, steps, c) + 1)
            && (s.state[c].Over() ==> Created(s0, steps, c) == Picked(s0, steps, c))
  {
    InitialInv(s0);
    RunTokens(s0, steps, c);
    OneWakeUp(Run(s0, steps), c);
    assert Proper(s0, c) && Tokens(s0, c) == Expected(s0, c);
  }

  // ----- Registrations and their answers -----

  /** The step registers the coroutine for an event. */
  predicate Waits(s: Sys, step: Step, c: nat)
    requires Enabled(s, step)
  {
    (step.Wait? || step.Register?) && Delta(s, step, c) > 0
  }

  /** The step delivers a record or cancels an event: from the poll loop, from a caller, or from
      the callback of a timeout. */
  predicate IsAnswer(s: Sys, step: Step)
    requires Enabled(s, step)
  {
    step.Poll? || step.Cancel? || (step.RunJob? && s.threads[step.th].f.TimeOut? && s.threads[step.th].stage == Flagged)
  }

  /** How many wake-ups of the coroutine the step queues in answer to registrations. */
  function Answers(s: Sys, step: Step, c: nat): int
    requires Enabled(s, step)
  {
    if IsAnswer(s, step) then QueueTokens(Next(s, step).Queue(), c) - QueueTokens(s.Queue(), c) else 0
  }

  function Registrations(s: Sys, steps: seq<Step>, c: nat): nat
    requires CanRun(s, steps)
    decreases |steps|
  {
    if steps == [] then 0
    else (if Waits(s, steps[0], c) then 1 else 0) + Registrations(Next(s, steps[0]), steps[1..], c)
  }

  function AllAnswers(s: Sys, steps: seq<Step>, c: nat): int
    requires CanRun(s, steps)
    decreases |steps|
  {
    if steps == [] then 0 else Answers(s, steps[0], c) + AllAnswers(Next(s, steps[0]), steps[1..], c)
  }

  lemma WaitArmed(s: Sys, step: Step, c: nat)
    requires Enabled(s, step) && (step.Wait? || step.Register?)
    ensures ArmedTokens(Next(s, step).table.fds, c) == ArmedTokens(s.table.fds, c) + if Waits(s, step, c) then 1 else 0
  {
    hide ArmedTokens, Added, AddOutcome, Disarmed;
    var k := s.threads[step.th].cor;
    match step
    case Wait(th, fd, e, fails) => AddedTokens(s.table, fd, e, k, fails, c);
    case Register(th, fails) => AddedTokens(s.table, s.attempts[s.trying[k]].fd, READ, k, fails, c);
  }

  lemma TimeOutArmed(s: Sys, th: nat, a: nat, fails: bool, c: nat)
    requires Plainly(s.table.fds)
    ensures var n := JobRun(s, th, TimeOut(a), Flagged, fails);
            ArmedTokens(n.table.fds, c) + QueueTokens(n.Queue(), c)
              == ArmedTokens(s.table.fds, c) + QueueTokens(s.Queue(), c)
  {
    hide ArmedTokens, QueueTokens, Cancelled, Plainly;
    if a in s.attempts {
      CancelledTokens(s.table, s.attempts[a].fd, READ, fails, c);
    }
  }

  lemma PollArmed(t: Table, fd: int, r: Report, fails: bool, c: nat)
    requires fd in t.fds && Plainly(t.fds) && Ready(r, t.fds[fd].events).Minus(t.fds[fd].events) == NONE
    ensures var n := Delivered(t, fd, r, fails);
            ArmedTokens(n.fds, c) + QueueTokens(n.queue, c) == ArmedTokens(t.fds, c) + QueueTokens(t.queue, c)
  {
    hide ArmedTokens, QueueTokens, Delivered, StaleTokens, Plainly;
    DeliveredTokens(t, fd, r, fails, c);
    NothingStale(t, fd, r, fails, c);
  }

  lemma AnswerArmed(s: Sys, step: Step, c: nat)
    requires Enabled(s, step) && IsAnswer(s, step) && Plainly(s.table.fds)
    ensures ArmedTokens(Next(s, step).table.fds, c) == ArmedTokens(s.table.fds, c) - Answers(s, step, c)
  {
    hide ArmedTokens, QueueTokens, Cancelled, Delivered, Plainly, JobRun, DoSpawn, DoPick, DoSettle, DoState,
      DoSwapIn, DoSwapOut, Registered, DoRegister, Ended, FirstPick, DoSleep, DoRecv, DoDisarm, DoExpire, Ready;
    match step
    case Poll(fd, r, fails) => PollArmed(s.table, fd, r, fails, c);
    case Cancel(fd, e, fails) => CancelledTokens(s.table, fd, e, fails, c);
    case RunJob(th, fails) => TimeOutArmed(s, th, s.threads[th].f.attempt, fails, c);
  }

  lemma NothingStale(t: Table, fd: int, r: Report, fails: bool, c: nat)
    requires fd in t.fds && Ready(r, t.fds[fd].events).Minus(t.fds[fd].events) == NONE
    ensures StaleTokens(t, fd, r, fails, c) == 0
  {
  }

  lemma TimeOutTable(s: Sys, th: nat, a: nat, stage: JobStage, fails: bool)
    requires a in s.attempts && stage != Flagged
    ensures TimeOutRun(s, th, a, stage, fails).table == s.table
  {
    hide Cancelled;
    assert stage == Starting || stage == Checked;
  }

  lemma JobTable(s: Sys, th: nat, f: Closure, stage: JobStage, fails: bool)
    requires !f.TimeOut? || stage != Flagged
    ensures JobRun(s, th, f, stage, fails).table.fds == s.table.fds
  {
    hide TimeOutRun;
    if f.TimeOut? && f.attempt in s.attempts {
      TimeOutTable(s, th, f.attempt, stage, fails);
    }
  }

  lemma OtherArmed(s: Sys, step: Step)
    requires Enabled(s, step) && !step.Wait? && !step.Register? && !IsAnswer(s, step)
    ensures Next(s, step).table.fds == s.table.fds
  {
    hide FirstPick, DoPick, Registered, DoRegister, DoSleep, DoRecv, DoDisarm, DoState, DoSwapIn, DoSwapOut, Ended,
      JobRun, Cancelled, Delivered, DoSettle, Delta;
    if IsMove(step) {
      MoveTable(s, step);
    } else if step.Pick? {
      PickChanges(s, step.th);
    } else if step.Settle? {
      SettleChanges(s, step.th, s.threads[step.th].cor);
    } else if step.RunJob? {
      JobTable(s, step.th, s.threads[step.th].f, s.threads[step.th].stage, step.fails);
    }
  }

  /** Every registration is answered at most once, and by a delivery or a cancellation only: over
      any run, the wake-ups that those queued for a coroutine are as many as its registrations,
      less the one that is still armed. */
  lemma {:induction false} RegistrationsAnswered(s: Sys, steps: seq<Step>, c: nat)
    requires Inv(s) && CanRun(s, steps)
    ensures ArmedTokens(s.table.fds, c) + Registrations(s, steps, c)
         == AllAnswers(s, steps, c) + ArmedTokens(Run(s, steps).table.fds, c)
    decreases |steps|
  {
    ShapedPlainly(s);
    hide Inv, Next, Enabled, ArmedTokens, Plainly, Waits, Answers, IsAnswer;
    if steps != [] {
      ArmedStep(s, steps[0], c);
      StepInv(s, steps[0]);
      RegistrationsAnswered(Next(s, steps[0]), steps[1..], c);
    }
  }

  lemma ArmedStep(s: Sys, step: Step, c: nat)
    requires Enabled(s, step) && Plainly(s.table.fds)
    ensures ArmedTokens(Next(s, step).table.fds, c)
         == ArmedTokens(s.table.fds, c) + (if Waits(s, step, c) then 1 else 0) - Answers(s, step, c)
  {
    hide Next, Enabled, ArmedTokens, Plainly, Delta;
    if step.Wait? || step.Register? {
      WaitArmed(s, step, c);
    } else if IsAnswer(s, step) {
      AnswerArmed(s, step, c);
    } else {
      OtherArmed(s, step);
    }
  }

  /** From a fresh scheduler on: as many answers as registrations but for one that is armed. */
  lemma EachWaitAnsweredOnce(s0: Sys, steps: seq<Step>, c: nat)
    requires Initial(s0) && CanRun(s0, steps)
    ensures var armed := ArmedTokens(Run(s0, steps).table.fds, c);
            Registrations(s0, steps, c) == AllAnswers(s0, steps, c) + armed && armed <= 1
  {
    InitialInv(s0);
    RegistrationsAnswered(s0, steps, c);
    assert SlotWeights(s0.table.fds, c) == map[];
    RunInv(s0, steps);
    var s := Run(s0, steps);
    assert Proper(s, c) && Tokens(s, c) == Expected(s, c);
  }

  // ----- A deleted event -----

  /** No wake-up of the coroutine is anywhere, and no thread is about to give it one. */
  ghost predicate Forgotten(s: Sys, c: nat) {
    && c in s.state && Tokens(s, c) == 0 && Plainly(s.table.fds)
    && AllDeparting(s.threads, c, s.state[c])
  }

  /** The thread is on its way from a registration to leaving the coroutine suspended. */
  predicate Departing(h: Hold, st: CoState) {
    st != READY && (h.Left? || (h.Runs? && h.phase == Parting))
  }

  lemma StepPlainly(s: Sys, step: Step)
    requires Plainly(s.table.fds) && Enabled(s, step)
    ensures Plainly(Next(s, step).table.fds)
  {
    hide Next, Enabled, Plainly;
    if step.Wait? || step.Register? {
      MovePlainly(s, step);
    } else if IsAside(step) {
      StepAside(s, step);
    } else {
      OtherArmed(s, step);
    }
  }

  lemma ForgottenDelta(s: Sys, step: Step, c: nat)
    requires Forgotten(s, c) && Enabled(s, step)
    ensures Delta(s, step, c) == 0
    ensures step.Pick? ==> s.Queue()[FirstPick(s.Queue(), s.state)] != Resume(c)
  {
    hide Plainly, Tokens, FirstPick, AddOutcome;
    if step.Pick? && s.Queue()[FirstPick(s.Queue(), s.state)] == Resume(c) {
      QueuedToken(s, FirstPick(s.Queue(), s.state), c);
    }
  }

  ghost predicate AllDeparting(threads: map<nat, Hold>, c: nat, st: CoState) {
    forall th | th in threads && threads[th].Has() && threads[th].cor == c :: Departing(threads[th], st)
  }

  /** The step touches one thread, which then has no coroutine or not this one, and leaves this
      coroutine's state alone. */
  ghost predicate Apart(s: Sys, n: Sys, th: nat, c: nat) {
    && th in n.threads && (n.threads[th].Has() ==> n.threads[th].cor != c)
    && (forall t | t in n.threads && t != th :: t in s.threads && n.threads[t] == s.threads[t])
    && c in s.state && c in n.state && n.state[c] == s.state[c]
  }

  lemma ApartDeparting(s: Sys, n: Sys, th: nat, c: nat)
    requires Apart(s, n, th, c) && AllDeparting(s.threads, c, s.state[c])
    ensures AllDeparting(n.threads, c, n.state[c])
  {
  }

  lemma WaitApart(s: Sys, th: nat, k: nat, fd: int, e: Event, fails: bool, c: nat)
    requires k != c && c in s.state
    ensures Apart(s, Registered(s, th, k, fd, e, fails), th, c)
  {
    hide Added, AddOutcome;
  }

  lemma RegisterApart(s: Sys, th: nat, k: nat, fails: bool, c: nat)
    requires k != c && c in s.state && k in s.trying && s.trying[k] in s.attempts
    ensures Apart(s, DoRegister(s, th, k, fails), th, c)
  {
    hide Added, Disarmed, Registered;
    RegisteredKeeps(s, th, k, s.attempts[s.trying[k]].fd, READ, fails);
  }

  lemma PhaseApart(s: Sys, step: Step, c: nat)
    requires Enabled(s, step) && IsMove(step) && !step.Wait? && !step.Register?
    requires s.threads[step.th].cor != c && c in s.state
    ensures Apart(s, Next(s, step), step.th, c)
  {
    hide Disarmed, Registered, DoRegister;
  }

  lemma MoveApart(s: Sys, step: Step, c: nat)
    requires Enabled(s, step) && IsMove(step) && s.threads[step.th].cor != c && c in s.state
    ensures Apart(s, Next(s, step), step.th, c)
  {
    hide Apart, Registered, DoRegister, DoSleep, DoRecv, DoDisarm, DoState, DoSwapIn, DoSwapOut, Ended;
    match step
    case Wait(th, fd, e, fails) => WaitApart(s, th, s.threads[th].cor, fd, e, fails, c);
    case Register(th, fails) => RegisterApart(s, th, s.threads[th].cor, fails, c);
    case _ => PhaseApart(s, step, c);
  }

  /** Of the steps of a thread on a departing coroutine there is the switch out only. */
  lemma SwapsOut(s: Sys, step: Step, c: nat)
    requires Enabled(s, step) && IsMove(step) && s.threads[step.th].cor == c && c in s.state
    requires Departing(s.threads[step.th], s.state[c])
    ensures Next(s, step).threads == s.threads[step.th := Left(c)] && Next(s, step).state == s.state
  {
    hide Registered, DoRegister, DoSleep, DoRecv, DoDisarm, DoState, DoSwapIn, Ended;
  }

  lemma PickApart(s: Sys, th: nat, c: nat)
    requires FirstPick(s.Queue(), s.state) < |s.Queue()| && c in s.state
    requires s.Queue()[FirstPick(s.Queue(), s.state)] != Resume(c)
    ensures Apart(s, DoPick(s, th), th, c)
  {
    hide FirstPick, Removed;
  }

  lemma SettleDeparting(s: Sys, th: nat, k: nat, c: nat)
    requires th in s.threads && s.threads[th] == Left(k) && k in s.state && c in s.state
    requires AllDeparting(s.threads, c, s.state[c])
    ensures var n := DoSettle(s, th, k); c in n.state && AllDeparting(n.threads, c, n.state[c])
  {
    hide Departing;
    assert s.state[c] != READY ==> forall h: Hold :: Departing(h, s.state[c]) ==> Departing(h, SUSPENDED) by {
      SuspendedDeparts(s.state[c]);
    }
  }

  lemma SuspendedDeparts(st: CoState)
    ensures forall h: Hold :: Departing(h, st) ==> Departing(h, SUSPENDED)
  {
  }

  lemma StepDeparting(s: Sys, step: Step, c: nat)
    requires Enabled(s, step) && c in s.state && AllDeparting(s.threads, c, s.state[c]) && Plainly(s.table.fds)
    requires step.Pick? ==> s.Queue()[FirstPick(s.Queue(), s.state)] != Resume(c)
    ensures var n := Next(s, step); c in n.state && AllDeparting(n.threads, c, n.state[c])
  {
    hide Plainly, FirstPick, DoPick, DoSettle, JobRun, Registered, DoRegister, DoSleep, DoRecv, DoDisarm, DoState,
      DoSwapIn, DoSwapOut, Ended, DoExpire, Cancelled, Delivered;
    var n := Next(s, step);
    if IsAside(step) {
      StepAside(s, step);
    } else if step.Pick? {
      PickApart(s, step.th, c);
      ApartDeparting(s, n, step.th, c);
    } else if step.Settle? {
      SettleDeparting(s, step.th, s.threads[step.th].cor, c);
    } else if IsMove(step) && s.threads[step.th].cor == c {
      SwapsOut(s, step, c);
    } else if IsMove(step) {
      MoveApart(s, step, c);
      ApartDeparting(s, n, step.th, c);
    }
  }

  lemma ForgottenStep(s: Sys, step: Step, c: nat)
    requires Forgotten(s, c) && Enabled(s, step)
    ensures Delta(s, step, c) == 0 && Forgotten(Next(s, step), c)
  {
    hide Next, Enabled, Delta, Plainly, Tokens, Departing, FirstPick;
    ForgottenDelta(s, step, c);
    StepPlainly(s, step);
    StepTokens(s, step, c);
    StepDeparting(s, step, c);
  }

  /** A forgotten coroutine is never woken: no run picks it, or queues it, or arms anything for
      it. */
  lemma {:induction false} NeverWoken(s: Sys, steps: seq<Step>, c: nat)
    requires Forgotten(s, c) && CanRun(s, steps)
    ensures Forgotten(Run(s, steps), c) && Picked(s, steps, c) == 0 && Resume(c) !in Run(s, steps).Queue()
    decreases |steps|
  {
    hide Next, Enabled, Delta, Forgotten;
    if steps == [] {
      NotQueued(s, c);
    } else {
      ForgottenStep(s, steps[0], c);
      NeverWoken(Next(s, steps[0]), steps[1..], c);
    }
  }

  lemma NotQueued(s: Sys, c: nat)
    requires Forgotten(s, c)
    ensures Resume(c) !in s.Queue()
  {
    if Resume(c) in s.Queue() {
      var i :| 0 <= i < |s.Queue()| && s.Queue()[i] == Resume(c);
      QueuedToken(s, i, c);
    }
  }

  function DeleteEvent(s: Sys, fd: int, e: Event): Sys {
    s.(table := Deleted(s.table, fd, e, false))
  }

  /** `delEvent` forgets the waiter of the event it removes: in no run after it is that
      coroutine ever woken. */
  lemma DeletedWaiterNeverWoken(s: Sys, fd: int, e: Event, c: nat, steps: seq<Step>)
    requires Reachable(s) && Waited(s.table, fd, e) && s.table.fds[fd].SlotOf(e).cor == Some(c)
    requires CanRun(DeleteEvent(s, fd, e), steps)
    ensures Picked(DeleteEvent(s, fd, e), steps, c) == 0
    ensures Resume(c) !in Run(DeleteEvent(s, fd, e), steps).Queue()
  {
    ReachableInv(s);
    DeletedForgotten(s, fd, e, c);
    NeverWoken(DeleteEvent(s, fd, e), steps, c);
  }

  lemma DeletedForgotten(s: Sys, fd: int, e: Event, c: nat)
    requires Inv(s) && Waited(s.table, fd, e) && s.table.fds[fd].SlotOf(e).cor == Some(c)
    ensures Forgotten(DeleteEvent(s, fd, e), c)
  {
    var n := DeleteEvent(s, fd, e);
    assert Proper(s, c) && Tokens(s, c) == Expected(s, c);
    DeletedTokens(s.table, fd, e, false, c);
    assert Tokens(n, c) == Tokens(s, c) - 1;
    assert c in s.state;
    assert CorFits(s, c);
    forall th | th in n.threads && n.threads[th].Has() && n.threads[th].cor == c
      ensures Departing(n.threads[th], n.state[c])
    {
      assert Owned(s, th);
    }
  }

  // ----- Queues -----

  /** A queued coroutine that nobody has in hand is never passed over for good: any free
      thread finds something to pick. */
  lemma QueuedIsPickable(s: Sys, c: nat, th: nat)
    requires Reachable(s) && Resume(c) in s.Queue() && c !in s.holder && th in s.threads && s.threads[th] == Free
    ensures Enabled(s, Pick(th))
  {
    ReachableInv(s);
    var i :| 0 <= i < |s.Queue()| && s.Queue()[i] == Resume(c);
    if c in s.state {
      assert CorFits(s, c);
    }
    FirstPickFinds(s.Queue(), s.state, i);
  }

  lemma {:induction false} FirstPickFinds(q: seq<Wake>, state: map<nat, CoState>, i: nat)
    requires i < |q| && !Skipped(q[i], state)
    ensures FirstPick(q, state) <= i
  {
    if Skipped(q[0], state) {
      FirstPickFinds(q[1..], state, i - 1);
    }
  }

  // ----- Records that went stale -----

  /** The record names an event that is not armed, but whose slot still names a coroutine. */
  predicate WakesStale(t: Table, fd: int, r: Report, fails: bool) {
    fd in t.fds && Handled(t, fd, r, fails) &&
    var x := t.fds[fd];
    var stale := Ready(r, x.events).Minus(x.events);
    (stale.read && x.read.cor.Some?) || (stale.write && x.write.cor.Some?)
  }

  function Handle(s: Sys, fd: int, r: Report, fails: bool): Sys
    requires fd in s.table.fds
  {
    s.(table := Delivered(s.table, fd, r, fails))
  }

  lemma HandleTokens(s: Sys, fd: int, r: Report, fails: bool, c: nat)
    requires Inv(s) && fd in s.table.fds
    ensures Proper(Handle(s, fd, r, fails), c)
    ensures Tokens(Handle(s, fd, r, fails), c)
         == Expected(Handle(s, fd, r, fails), c) + StaleTokens(s.table, fd, r, fails, c)
  {
    assert Proper(s, c) && Tokens(s, c) == Expected(s, c);
    hide QueueTokens, ArmedTokens, TimerTokens, JobTokens, Delivered, StaleTokens, Need, Plainly, Shaped;
    assert Plainly(s.table.fds) by { ShapedPlainly(s); }
    DeliveredTokens(s.table, fd, r, fails, c);
  }

  lemma ShapedPlainly(s: Sys)
    requires Shaped(s)
    ensures Plainly(s.table.fds)
  {
  }

  lemma HandleAll(s: Sys, fd: int, r: Report, fails: bool)
    requires Inv(s) && fd in s.table.fds
    ensures var n := Handle(s, fd, r, fails);
            forall c: nat :: Proper(n, c) && Tokens(n, c) == Expected(n, c) + StaleTokens(s.table, fd, r, fails, c)
  {
    hide Inv, Tokens, Handle, Expected, StaleTokens;
    forall c: nat
      ensures var n := Handle(s, fd, r, fails);
              Proper(n, c) && Tokens(n, c) == Expected(n, c) + StaleTokens(s.table, fd, r, fails, c)
    {
      HandleTokens(s, fd, r, fails, c);
    }
  }

  /** Handling any record at all keeps every coroutine at its number of wake-ups exactly when
      no slot of an event that is named but not armed still holds a waiter. */
  lemma DeliveryConserves(s: Sys, fd: int, r: Report, fails: bool)
    requires Inv(s) && fd in s.table.fds
    ensures var n := Handle(s, fd, r, fails);
            (forall c: nat :: Proper(n, c) && Tokens(n, c) == Expected(n, c)) <==> !WakesStale(s.table, fd, r, fails)
  {
    hide Inv, Tokens, Handle, Expected, StaleTokens, WakesStale, Plainly, Shaped;
    HandleAll(s, fd, r, fails);
    InvPlainly(s);
    StaleMeans(s.table, fd, r, fails);
  }

  lemma InvPlainly(s: Sys)
    requires Inv(s)
    ensures Plainly(s.table.fds)
  {
  }

  lemma StaleMeans(t: Table, fd: int, r: Report, fails: bool)
    requires fd in t.fds && Plainly(t.fds)
    ensures (forall c: nat :: StaleTokens(t, fd, r, fails, c) == 0) <==> !WakesStale(t, fd, r, fails)
  {
    var x := t.fds[fd];
    forall c: nat
      ensures QueueTokens(Wakes(x.read), c) == Bit(x.read.cor == Some(c))
      ensures QueueTokens(Wakes(x.write), c) == Bit(x.write.cor == Some(c))
    {
      WakesTokens(x.read, c);
      WakesTokens(x.write, c);
    }
    hide QueueTokens;
    if WakesStale(t, fd, r, fails) {
      var stale := Ready(r, x.events).Minus(x.events);
      var c := if stale.read && x.read.cor.Some? then x.read.cor.value else x.write.cor.value;
      assert StaleTokens(t, fd, r, fails, c) >= 1;
    }
  }
}
