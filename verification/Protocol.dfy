/** The scheduler as a state machine: coroutines, the threads that run them, the run queue, the
event table, the timers and the callbacks on their way. Every step is one critical section of
the source, or one stretch of a thread between two of them. */
module Protocol {
  import opened Optional
  import opened EventTable
  import MapSum

  /** `Coroutine::CoState`. */
  datatype CoState = INIT | READY | RUNNING | SUSPENDED | FINISHED | FAILED {
    predicate Over() { FINISHED? || FAILED? }
  }

  /** Where a coroutine that a thread executes has got to. */
  datatype Phase =
    | Active      // in its own code
    | Arming      // inside a receive: the timeout is set, the event is not registered yet
    | Checking    // inside a receive: resumed, the timeout is not cancelled yet
    | Deciding    // inside a receive: about to look at the flag of the attempt
    | Parting     // a wake-up is registered; `ToSUSPENDED` comes next
    | Yielding    // the state says READY; the switch comes next
    | Ending      // the state says finished or failed; the switch comes next

  datatype JobStage = Starting | Checked | Flagged

  /** What a scheduler thread has in hand. */
  datatype Hold =
    | Free
    | Took(cor: nat)                 // picked from the queue, not swapped in yet
    | Runs(cor: nat, phase: Phase)   // swapped in
    | Left(cor: nat)                 // swapped out, its state not settled yet
    | Job(f: Closure, stage: JobStage)
  {
    predicate Has() { Took? || Runs? || Left? }
  }

  datatype Alarm = Alarm(f: Closure, due: nat)

  /** One pass of the loop of `recv`: its coroutine, descriptor, deadline and timeout flag. */
  datatype Attempt = Attempt(cor: nat, fd: int, due: nat, flag: bool, live: bool, alarm: Option<nat>)

  /** `holder` says which thread has a coroutine in hand: it repeats what `threads` says. */
  datatype Sys = Sys(
    table: Table,
    state: map<nat, CoState>,
    saved: set<nat>,
    threads: map<nat, Hold>,
    holder: map<nat, nat>,
    timers: map<nat, Alarm>,
    fired: multiset<Closure>,
    attempts: map<nat, Attempt>,
    trying: map<nat, nat>,
    sleeping: map<nat, nat>,
    now: nat)
  {
    function Queue(): seq<Wake> { table.queue }

    function Push(w: Wake): Sys { this.(table := table.(queue := table.queue + [w])) }

    function Set(th: nat, h: Hold): Sys { this.(threads := threads[th := h]) }
  }

  datatype Step =
    | Spawn(c: nat)
    | Pick(th: nat)
    | SwapIn(th: nat)
    | Wait(th: nat, fd: int, e: Event, fails: bool)
    | Sleep(th: nat, ms: nat, addr: nat)
    | Recv(th: nat, fd: int, a: nat, timeout: Option<nat>, addr: nat)
    | Register(th: nat, fails: bool)
    | Disarm(th: nat)
    | Decide(th: nat)
    | Yield(th: nat)
    | Finish(th: nat, ok: bool)
    | SwapOut(th: nat)
    | Settle(th: nat)
    | Poll(fd: int, r: Report, fails: bool)
    | Cancel(fd: int, e: Event, fails: bool)
    | Tick(d: nat)
    | Expire(addr: nat)
    | Submit(f: Closure)
    | RunJob(th: nat, fails: bool)

  // ----- Picking -----

  /** Entries of coroutines that are still running are passed over. */
  predicate Skipped(w: Wake, state: map<nat, CoState>) {
    w.Resume? && w.cor in state && state[w.cor] == RUNNING
  }

  function FirstPick(q: seq<Wake>, state: map<nat, CoState>): (i: nat)
    ensures i <= |q| && (i < |q| ==> !Skipped(q[i], state))
  {
    if q == [] || !Skipped(q[0], state) then 0 else 1 + FirstPick(q[1..], state)
  }

  /** It is the first: every entry before it is passed over. */
  lemma {:induction false} FirstPickIsFirst(q: seq<Wake>, state: map<nat, CoState>)
    ensures forall k | 0 <= k < FirstPick(q, state) :: Skipped(q[k], state)
  {
    if q != [] && Skipped(q[0], state) {
      FirstPickIsFirst(q[1..], state);
      assert forall k | 0 < k < FirstPick(q, state) :: q[k] == q[1..][k - 1];
    }
  }

  lemma FirstPickIs(q: seq<Wake>, state: map<nat, CoState>, i: nat)
    requires i <= |q| && (i < |q| ==> !Skipped(q[i], state))
    requires forall k | 0 <= k < i :: Skipped(q[k], state)
    ensures FirstPick(q, state) == i
  {
    FirstPickIsFirst(q, state);
  }

  function Removed(q: seq<Wake>, i: nat): seq<Wake>
    requires i < |q|
  {
    q[..i] + q[i + 1..]
  }

  // ----- The steps -----

  predicate HasPhase(s: Sys, th: nat, p: Phase) {
    th in s.threads && s.threads[th].Runs? && s.threads[th].phase == p
  }

  predicate HasAttempt(s: Sys, th: nat, p: Phase) {
    HasPhase(s, th, p) && s.threads[th].cor in s.trying && s.trying[s.threads[th].cor] in s.attempts
  }

  /** Which steps can be taken. Waiters are coroutines, and a polled record names events that
      are armed when it is handled. */
  predicate Enabled(s: Sys, step: Step) {
    match step
    case Spawn(c) => c !in s.state
    case Pick(th) => th in s.threads && s.threads[th].Free? && FirstPick(s.Queue(), s.state) < |s.Queue()|
    case SwapIn(th) => th in s.threads && s.threads[th].Took?
    case Wait(th, fd, e, fails) => HasPhase(s, th, Active)
    case Sleep(th, ms, addr) => HasPhase(s, th, Active) && addr !in s.timers
    case Recv(th, fd, a, timeout, addr) => HasPhase(s, th, Active) && a !in s.attempts && addr !in s.timers
    case Register(th, fails) => HasAttempt(s, th, Arming)
    case Disarm(th) => HasAttempt(s, th, Checking)
    case Decide(th) => HasAttempt(s, th, Deciding)
    case Yield(th) => HasPhase(s, th, Active)
    case Finish(th, ok) => HasPhase(s, th, Active)
    case SwapOut(th) => HasPhase(s, th, Parting) || HasPhase(s, th, Yielding) || HasPhase(s, th, Ending)
    case Settle(th) => th in s.threads && s.threads[th].Left? && s.threads[th].cor in s.state
    case Poll(fd, r, fails) =>
      fd in s.table.fds && Ready(r, s.table.fds[fd].events).Minus(s.table.fds[fd].events) == NONE
    case Cancel(fd, e, fails) => true
    case Tick(d) => true
    case Expire(addr) => addr in s.timers && s.timers[addr].due <= s.now
    case Submit(f) => f in s.fired
    case RunJob(th, fails) => th in s.threads && s.threads[th].Job?
  }

  /** What the coroutine does on its thread: registers, or goes on when registering failed. */
  function Registered(s: Sys, th: nat, c: nat, fd: int, e: Event, fails: bool): Sys {
    s.(table := Added(s.table, fd, e, Waiting(c), fails))
     .Set(th, Runs(c, if AddOutcome(s.table, fd, e, fails) == Done then Parting else Active))
  }

  /** The attempt is over: its flag cannot be reached through the weak pointer any more. */
  function Ended(s: Sys, c: nat): Sys
    requires c in s.trying && s.trying[c] in s.attempts
  {
    var a := s.trying[c];
    s.(trying := s.trying - {c}, attempts := s.attempts[a := s.attempts[a].(live := false)])
  }

  /** `cancelTimer` for an attempt: nothing happens when the timer has gone. */
  function Disarmed(timers: map<nat, Alarm>, t: Attempt, a: nat): map<nat, Alarm> {
    if t.alarm.Some? && t.alarm.value in timers && timers[t.alarm.value].f == TimeOut(a)
    then timers - {t.alarm.value} else timers
  }

  /** The callback of a timeout, in three steps: the attempt is still there and not flagged yet,
      the flag is set, the event is cancelled. */
  function TimeOutRun(s: Sys, th: nat, a: nat, stage: JobStage, fails: bool): Sys
    requires a in s.attempts
  {
    var t := s.attempts[a];
    match stage
    case Starting => if t.live && !t.flag then s.Set(th, Job(TimeOut(a), Checked)) else s.Set(th, Free)
    case Checked => s.(attempts := s.attempts[a := t.(flag := true)]).Set(th, Job(TimeOut(a), Flagged))
    case Flagged => s.(table := Cancelled(s.table, t.fd, READ, fails)).Set(th, Free)
  }

  function JobRun(s: Sys, th: nat, f: Closure, stage: JobStage, fails: bool): Sys {
    match f
    case Plain(_) => s.Set(th, Free)
    case WakeUp(c) => s.Push(Resume(c)).Set(th, Free)
    case TimeOut(a) => if a !in s.attempts then s.Set(th, Free) else TimeOutRun(s, th, a, stage, fails)
  }

  function DoSpawn(s: Sys, c: nat): Sys {
    s.(state := s.state[c := INIT], saved := s.saved + {c}).Push(Resume(c))
  }

  function DoPick(s: Sys, th: nat): Sys
    requires FirstPick(s.Queue(), s.state) < |s.Queue()|
  {
    var i := FirstPick(s.Queue(), s.state);
    Grab(s.(table := s.table.(queue := Removed(s.Queue(), i))), th, s.Queue()[i])
  }

  /** A coroutine is taken in hand, a callback is started. */
  function Grab(s: Sys, th: nat, w: Wake): Sys {
    match w
    case Resume(c) => s.(holder := s.holder[c := th]).Set(th, Took(c))
    case Call(f) => s.Set(th, Job(f, Starting))
  }

  function DoSwapIn(s: Sys, th: nat, c: nat): Sys {
    s.(state := s.state[c := RUNNING], saved := s.saved - {c}, sleeping := s.sleeping - {c})
     .Set(th, Runs(c, if c in s.trying then Checking else Active))
  }

  function DoSleep(s: Sys, th: nat, c: nat, ms: nat, addr: nat): Sys {
    s.(timers := s.timers[addr := Alarm(WakeUp(c), s.now + ms)], sleeping := s.sleeping[c := s.now + ms])
     .Set(th, Runs(c, Parting))
  }

  function DoRecv(s: Sys, th: nat, c: nat, fd: int, a: nat, timeout: Option<nat>, addr: nat): Sys {
    var t := Attempt(c, fd, if timeout.Some? then s.now + timeout.value else 0, false, true,
                     if timeout.Some? then Some(addr) else None);
    s.(attempts := s.attempts[a := t], trying := s.trying[c := a],
       timers := if timeout.Some? then s.timers[addr := Alarm(TimeOut(a), t.due)] else s.timers)
     .Set(th, Runs(c, Arming))
  }

  /** A failed call cancels the timer; an exception leaves it to find the attempt dead. */
  function DoRegister(s: Sys, th: nat, c: nat, fails: bool): Sys
    requires c in s.trying && s.trying[c] in s.attempts
  {
    var a := s.trying[c];
    var s' := Registered(s, th, c, s.attempts[a].fd, READ, fails);
    match AddOutcome(s.table, s.attempts[a].fd, READ, fails)
    case Done => s'
    case Refused => Ended(s', c).(timers := Disarmed(s.timers, s.attempts[a], a))
    case Thrown => Ended(s', c)
  }

  function DoDisarm(s: Sys, th: nat, c: nat): Sys
    requires c in s.trying && s.trying[c] in s.attempts
  {
    var a := s.trying[c];
    s.(timers := Disarmed(s.timers, s.attempts[a], a)).Set(th, Runs(c, Deciding))
  }

  function DoState(s: Sys, th: nat, c: nat, st: CoState, p: Phase): Sys {
    s.(state := s.state[c := st]).Set(th, Runs(c, p))
  }

  function DoSwapOut(s: Sys, th: nat, c: nat): Sys {
    s.(saved := s.saved + {c}).Set(th, Left(c))
  }

  function DoSettle(s: Sys, th: nat, c: nat): Sys
    requires c in s.state
  {
    var s' := s.(holder := s.holder - {c}).Set(th, Free);
    if s.state[c] == READY then s'.Push(Resume(c))
    else if s.state[c].Over() then s'
    else s'.(state := s.state[c := SUSPENDED])
  }

  function DoExpire(s: Sys, addr: nat): Sys
    requires addr in s.timers
  {
    s.(timers := s.timers - {addr}, fired := s.fired + multiset{s.timers[addr].f})
  }

  function Next(s: Sys, step: Step): Sys
    requires Enabled(s, step)
  {
    match step
    case Spawn(c) => DoSpawn(s, c)
    case Pick(th) => DoPick(s, th)
    case SwapIn(th) => DoSwapIn(s, th, s.threads[th].cor)
    case Wait(th, fd, e, fails) => Registered(s, th, s.threads[th].cor, fd, e, fails)
    case Sleep(th, ms, addr) => DoSleep(s, th, s.threads[th].cor, ms, addr)
    case Recv(th, fd, a, timeout, addr) => DoRecv(s, th, s.threads[th].cor, fd, a, timeout, addr)
    case Register(th, fails) => DoRegister(s, th, s.threads[th].cor, fails)
    case Disarm(th) => DoDisarm(s, th, s.threads[th].cor)
    case Decide(th) => Ended(s, s.threads[th].cor).Set(th, Runs(s.threads[th].cor, Active))
    case Yield(th) => DoState(s, th, s.threads[th].cor, READY, Yielding)
    case Finish(th, ok) => DoState(s, th, s.threads[th].cor, if ok then FINISHED else FAILED, Ending)
    case SwapOut(th) => DoSwapOut(s, th, s.threads[th].cor)
    case Settle(th) => DoSettle(s, th, s.threads[th].cor)
    case Poll(fd, r, fails) => s.(table := Delivered(s.table, fd, r, fails))
    case Cancel(fd, e, fails) => s.(table := Cancelled(s.table, fd, e, fails))
    case Tick(d) => s.(now := s.now + d)
    case Expire(addr) => DoExpire(s, addr)
    case Submit(f) => s.(fired := s.fired - multiset{f}).Push(Call(f))
    case RunJob(th, fails) => JobRun(s, th, s.threads[th].f, s.threads[th].stage, fails)
  }

  /** What a receive gives back when it decides: the timeout, or another try. */
  datatype Verdict = TimedOut | Retry

  function Decision(s: Sys, th: nat): Verdict
    requires Enabled(s, Decide(th))
  {
    if s.attempts[s.trying[s.threads[th].cor]].flag then TimedOut else Retry
  }

  /** A scheduler with some free threads and nothing else. */
  predicate Initial(s: Sys) {
    && s.table == Table(map[], 0, map[], [])
    && s.state == map[] && s.saved == {} && s.holder == map[] && s.timers == map[]
    && s.fired == multiset{} && s.attempts == map[] && s.trying == map[] && s.sleeping == map[]
    && forall th | th in s.threads :: s.threads[th] == Free
  }

  predicate CanRun(s: Sys, steps: seq<Step>)
    decreases |steps|
  {
    steps == [] || (Enabled(s, steps[0]) && CanRun(Next(s, steps[0]), steps[1..]))
  }

  function Run(s: Sys, steps: seq<Step>): Sys
    requires CanRun(s, steps)
    decreases |steps|
  {
    if steps == [] then s else Run(Next(s, steps[0]), steps[1..])
  }

  // ----- Wake-up tokens -----

  function Bit(b: bool): nat { if b then 1 else 0 }

  /** Armed events of an entry whose slot names the coroutine. */
  function SlotTokens(x: Ctx, c: nat): nat {
    Bit(x.events.read && x.read.cor == Some(c)) + Bit(x.events.write && x.write.cor == Some(c))
  }

  ghost function SlotWeights(fds: map<int, Ctx>, c: nat): map<int, nat> {
    map fd | fd in fds :: SlotTokens(fds[fd], c)
  }

  ghost function ArmedTokens(fds: map<int, Ctx>, c: nat): nat {
    MapSum.Sum(SlotWeights(fds, c))
  }

  function AlarmTokens(x: Alarm, c: nat): nat { Bit(x.f == WakeUp(c)) }

  ghost function AlarmWeights(timers: map<nat, Alarm>, c: nat): map<nat, nat> {
    map k | k in timers :: AlarmTokens(timers[k], c)
  }

  ghost function TimerTokens(timers: map<nat, Alarm>, c: nat): nat {
    MapSum.Sum(AlarmWeights(timers, c))
  }

  function HoldTokens(h: Hold, c: nat): nat { Bit(h.Job? && h.f == WakeUp(c)) }

  ghost function HoldWeights(threads: map<nat, Hold>, c: nat): map<nat, nat> {
    map th | th in threads :: HoldTokens(threads[th], c)
  }

  ghost function JobTokens(threads: map<nat, Hold>, c: nat): nat {
    MapSum.Sum(HoldWeights(threads, c))
  }

  function QueueTokens(q: seq<Wake>, c: nat): nat {
    multiset(q)[Resume(c)] + multiset(q)[Call(WakeUp(c))]
  }

  /** Every place a pending wake-up of a coroutine can be: the run queue, an armed event, a
      sleep timer, an expired one on its way, or a callback that is queued or running. */
  ghost function Tokens(s: Sys, c: nat): nat {
    QueueTokens(s.Queue(), c) + ArmedTokens(s.table.fds, c) + TimerTokens(s.timers, c)
    + s.fired[WakeUp(c)] + JobTokens(s.threads, c)
  }

  /** How many there must be. */
  function Need(h: Hold, st: CoState): nat {
    match h
    case Runs(_, p) => Bit(p == Parting)
    case Left(_) => Bit(st == RUNNING)
    case _ => 0
  }

  predicate HeldProperly(s: Sys, c: nat) {
    c in s.holder ==> s.holder[c] in s.threads && s.threads[s.holder[c]].Has() && s.threads[s.holder[c]].cor == c
  }

  function Expected(s: Sys, c: nat): nat
    requires HeldProperly(s, c)
  {
    if c !in s.state then 0
    else if c in s.holder then Need(s.threads[s.holder[c]], s.state[c])
    else if s.state[c].Over() then 0
    else 1
  }
}
