/** What holds in every reachable state of the scheduler. */
module ProtocolSafety {
  import opened Optional
  import opened EventTable
  import opened Protocol
  import opened ProtocolTokens
  import MapSum

  // ----- The invariant -----

  /** Threads and coroutines agree on who has whom. */
  ghost predicate Held(s: Sys) {
    && (forall c | c in s.holder :: c in s.state && HeldProperly(s, c))
    && (forall th | th in s.threads && s.threads[th].Has() :: Owned(s, th))
  }

  predicate Owned(s: Sys, th: nat)
    requires th in s.threads && s.threads[th].Has()
  {
    var c := s.threads[th].cor;
    c in s.holder && s.holder[c] == th
  }

  /** What a thread's hold says about the coroutine: its state, whether its context is saved,
      whether it is inside a receive. */
  predicate Fits(h: Hold, st: CoState, saved: bool, trying: bool) {
    match h
    case Took(_) => saved && (st == INIT || st == READY || st == SUSPENDED)
    case Left(_) => saved && (st == RUNNING || ((st == READY || st.Over()) && !trying))
    case Runs(_, p) =>
      && !saved
      && (match p
          case Yielding => st == READY && !trying
          case Ending => st.Over() && !trying
          case Active => st == RUNNING && !trying
          case Parting => st == RUNNING
          case _ => st == RUNNING && trying)
    case _ => false
  }

  predicate CorFits(s: Sys, c: nat)
    requires c in s.state && HeldProperly(s, c)
  {
    if c in s.holder then Fits(s.threads[s.holder[c]], s.state[c], c in s.saved, c in s.trying)
    else c in s.saved && s.state[c] != RUNNING
  }

  /** Attempts are never forgotten, and the coroutine inside one is known. */
  ghost predicate TryingKnown(s: Sys) {
    forall c | c in s.trying :: c in s.state && s.trying[c] in s.attempts
  }

  ghost predicate Shaped(s: Sys) {
    && Held(s)
    && (forall c | c in s.state :: HeldProperly(s, c) && CorFits(s, c))
    && TryingKnown(s)
    && Plainly(s.table.fds)
  }

  /** Every coroutine has exactly the wake-ups its situation calls for. */
  ghost predicate Conserved(s: Sys)
    requires Shaped(s)
  {
    forall c :: Proper(s, c) && Tokens(s, c) == Expected(s, c)
  }

  predicate Proper(s: Sys, c: nat) { HeldProperly(s, c) }

  ghost predicate Inv(s: Sys) {
    Shaped(s) && Conserved(s)
  }

  // ----- One thread moves one coroutine along -----

  /** The thread keeps its coroutine; no other coroutine is touched. */
  ghost predicate Moves(s: Sys, n: Sys, th: nat) {
    && th in s.threads && s.threads[th].Has() && th in n.threads && n.threads[th].Has()
    && n.threads.Keys == s.threads.Keys && (forall t | t in s.threads && t != th :: n.threads[t] == s.threads[t])
    && var c := s.threads[th].cor;
       && n.threads[th].cor == c && c in n.state
       && n.holder == s.holder
       && n.state.Keys == s.state.Keys && (forall d | d in s.state && d != c :: n.state[d] == s.state[d])
       && (forall d | d != c :: d in n.saved <==> d in s.saved)
       && (forall d | d != c :: d in n.trying <==> d in s.trying)
  }

  lemma MovesKeepsOthers(s: Sys, n: Sys, th: nat, d: nat)
    requires Held(s) && Moves(s, n, th) && d != s.threads[th].cor && HeldProperly(s, d)
    ensures HeldProperly(n, d) && Expected(n, d) == Expected(s, d)
    ensures d in s.state ==> d in n.state && (CorFits(n, d) <==> CorFits(s, d))
  {
    assert Owned(s, th);
  }

  lemma MovesHeld(s: Sys, n: Sys, th: nat)
    requires Held(s) && Moves(s, n, th)
    ensures Held(n)
  {
    assert Owned(s, th);
    forall c | c in n.holder ensures c in n.state && HeldProperly(n, c) {
      assert HeldProperly(s, c);
    }
    forall t | t in n.threads && n.threads[t].Has() ensures Owned(n, t) {
      assert Owned(s, t);
    }
  }

  predicate IsMove(step: Step) {
    || step.SwapIn? || step.Wait? || step.Sleep? || step.Recv? || step.Register?
    || step.Disarm? || step.Decide? || step.Yield? || step.Finish? || step.SwapOut?
  }

  /** The same, field by field: what a step of the thread on its coroutine can change. */
  ghost predicate Touches(s: Sys, n: Sys, th: nat, c: nat) {
    && th in s.threads && s.threads[th].Has() && s.threads[th].cor == c && c in s.state
    && th in n.threads && n.threads[th].Has() && n.threads[th].cor == c && c in n.state
    && n.threads == s.threads[th := n.threads[th]] && n.holder == s.holder
    && (n.state == s.state || n.state == s.state[c := n.state[c]])
    && (n.saved == s.saved || n.saved == s.saved + {c} || n.saved == s.saved - {c})
    && (n.trying == s.trying || n.trying == s.trying - {c}
        || (c in n.trying && n.trying == s.trying[c := n.trying[c]] && n.trying[c] in n.attempts))
    && s.attempts.Keys <= n.attempts.Keys
  }

  lemma TouchesMoves(s: Sys, n: Sys, th: nat, c: nat)
    requires Touches(s, n, th, c)
    ensures Moves(s, n, th)
  {
  }

  lemma TouchesTrying(s: Sys, n: Sys, th: nat, c: nat)
    requires Touches(s, n, th, c) && TryingKnown(s)
    ensures TryingKnown(n)
  {
    forall d | d in n.trying ensures d in n.state && n.trying[d] in n.attempts {
      assert d == c || d in s.trying;
    }
  }

  lemma MoveTouches(s: Sys, step: Step)
    requires Shaped(s) && Enabled(s, step) && IsMove(step)
    ensures Touches(s, Next(s, step), step.th, s.threads[step.th].cor)
  {
    hide Touches, Plainly, CorFits, Registered, DoRegister, DoSleep, DoRecv, DoDisarm, DoState, DoSwapIn, DoSwapOut,
      Ended;
    var c := s.threads[step.th].cor;
    assert Owned(s, step.th);
    match step {
      case Wait(th, fd, e, fails) => WaitTouches(s, th, c, fd, e, fails);
      case Register(th, fails) => RegisterTouches(s, th, c, fails);
      case _ => PhaseTouches(s, step);
    }
  }

  lemma WaitTouches(s: Sys, th: nat, c: nat, fd: int, e: Event, fails: bool)
    requires th in s.threads && s.threads[th] == Runs(c, Active) && c in s.state
    ensures Touches(s, Registered(s, th, c, fd, e, fails), th, c)
  {
    hide Registered;
    RegisteredKeeps(s, th, c, fd, e, fails);
  }

  lemma RegisterTouches(s: Sys, th: nat, c: nat, fails: bool)
    requires th in s.threads && s.threads[th] == Runs(c, Arming) && c in s.state
    requires c in s.trying && s.trying[c] in s.attempts
    ensures Touches(s, DoRegister(s, th, c, fails), th, c)
  {
    hide AddOutcome, Disarmed, Registered;
    RegisteredKeeps(s, th, c, s.attempts[s.trying[c]].fd, READ, fails);
  }

  lemma TimedTouches(s: Sys, step: Step)
    requires Enabled(s, step) && (step.Sleep? || step.Recv? || step.Disarm? || step.Decide?)
    requires s.threads[step.th].cor in s.state
    ensures Touches(s, Next(s, step), step.th, s.threads[step.th].cor)
  {
    hide Disarmed, Registered, DoRegister, DoPick, DoSettle, DoSpawn, DoExpire, JobRun, FirstPick, DoState, DoSwapIn,
      DoSwapOut;
  }

  lemma PhaseTouches(s: Sys, step: Step)
    requires Enabled(s, step) && IsMove(step) && !step.Wait? && !step.Register? && s.threads[step.th].cor in s.state
    ensures Touches(s, Next(s, step), step.th, s.threads[step.th].cor)
  {
    hide Registered, DoRegister, DoPick, DoSettle, DoSpawn, DoExpire, JobRun, FirstPick, DoSleep, DoRecv, DoDisarm,
      Ended;
    if step.Sleep? || step.Recv? || step.Disarm? || step.Decide? {
      TimedTouches(s, step);
    }
  }

  /** The thread has the coroutine, and all that is said about it fits. */
  predicate Mine(s: Sys, th: nat, c: nat) {
    && th in s.threads && s.threads[th].Has() && s.threads[th].cor == c
    && c in s.holder && s.holder[c] == th && c in s.state
    && Fits(s.threads[th], s.state[c], c in s.saved, c in s.trying)
  }

  lemma WaitFits(s: Sys, th: nat, c: nat, fd: int, e: Event, fails: bool)
    requires Mine(s, th, c) && s.threads[th] == Runs(c, Active)
    ensures var n := Registered(s, th, c, fd, e, fails);
            && Mine(n, th, c)
            && Need(n.threads[th], n.state[c]) == Bit(AddOutcome(s.table, fd, e, fails) == Done)
  {
    hide Added, AddOutcome;
  }

  lemma RegisterFits(s: Sys, th: nat, c: nat, fails: bool)
    requires Mine(s, th, c) && s.threads[th] == Runs(c, Arming) && c in s.trying && s.trying[c] in s.attempts
    ensures var n := DoRegister(s, th, c, fails);
            && Mine(n, th, c)
            && Need(n.threads[th], n.state[c])
               == Bit(AddOutcome(s.table, s.attempts[s.trying[c]].fd, READ, fails) == Done)
  {
    hide Added, Disarmed;
  }

  lemma TimedFits(s: Sys, step: Step)
    requires Enabled(s, step) && (step.Sleep? || step.Recv? || step.Disarm? || step.Decide?)
    requires Mine(s, step.th, s.threads[step.th].cor)
    ensures var n, c := Next(s, step), s.threads[step.th].cor;
            && Mine(n, step.th, c)
            && Need(n.threads[step.th], n.state[c]) == Need(s.threads[step.th], s.state[c]) + Bit(step.Sleep?)
  {
    hide Disarmed, Registered, DoRegister, DoPick, DoSettle, DoSpawn, DoExpire, JobRun, FirstPick, DoState, DoSwapIn,
      DoSwapOut;
  }

  lemma PhaseFits(s: Sys, step: Step)
    requires Enabled(s, step) && IsMove(step) && !step.Wait? && !step.Register?
    requires Mine(s, step.th, s.threads[step.th].cor)
    ensures var n, c := Next(s, step), s.threads[step.th].cor;
            && Mine(n, step.th, c)
            && Need(n.threads[step.th], n.state[c]) == Need(s.threads[step.th], s.state[c]) + Bit(step.Sleep?)
  {
    hide Registered, DoRegister, DoPick, DoSettle, DoSpawn, DoExpire, JobRun, FirstPick, DoSleep, DoRecv, DoDisarm,
      Ended;
    if step.Sleep? || step.Recv? || step.Disarm? || step.Decide? {
      TimedFits(s, step);
    }
  }

  lemma MineMeans(s: Sys, th: nat, c: nat)
    requires Mine(s, th, c)
    ensures HeldProperly(s, c) && CorFits(s, c) && Expected(s, c) == Need(s.threads[th], s.state[c])
  {
    hide Fits, Need;
  }

  lemma MoveNeeds(s: Sys, step: Step)
    requires Enabled(s, step) && IsMove(step) && Mine(s, step.th, s.threads[step.th].cor)
    ensures var n, c := Next(s, step), s.threads[step.th].cor;
            && Mine(n, step.th, c)
            && Need(n.threads[step.th], n.state[c]) == Need(s.threads[step.th], s.state[c]) + Delta(s, step, c)
  {
    hide Fits, Registered, DoRegister, DoSleep, DoRecv, DoDisarm, DoState, DoSwapIn, DoSwapOut, Ended, AddOutcome;
    var c := s.threads[step.th].cor;
    match step
    case Wait(th, fd, e, fails) => WaitFits(s, th, c, fd, e, fails);
    case Register(th, fails) => RegisterFits(s, th, c, fails);
    case _ => PhaseFits(s, step);
  }

  lemma OwnedIsMine(s: Sys, th: nat)
    requires Shaped(s) && th in s.threads && s.threads[th].Has()
    ensures Mine(s, th, s.threads[th].cor)
  {
    hide Plainly, Fits;
    assert Owned(s, th) && HeldProperly(s, s.threads[th].cor) && CorFits(s, s.threads[th].cor);
  }

  /** Registering creates the one wake-up that parting calls for; no other move does. */
  lemma MoveFits(s: Sys, step: Step)
    requires Shaped(s) && Enabled(s, step) && IsMove(step)
    ensures var n, c := Next(s, step), s.threads[step.th].cor;
            && HeldProperly(n, c) && c in n.state && CorFits(n, c)
            && HeldProperly(s, c) && Expected(n, c) == Expected(s, c) + Delta(s, step, c)
  {
    var c := s.threads[step.th].cor;
    MoverHas(s, step);
    hide Enabled, Next, Delta, Shaped, Expected, CorFits;
    OwnedIsMine(s, step.th);
    MoveNeeds(s, step);
    MineMeans(s, step.th, c);
    MineMeans(Next(s, step), step.th, c);
  }

  lemma MoverHas(s: Sys, step: Step)
    requires Enabled(s, step) && IsMove(step)
    ensures step.th in s.threads && s.threads[step.th].Has()
  {
  }

  lemma MoveElsewhere(s: Sys, step: Step, d: nat)
    requires Enabled(s, step) && IsMove(step) && d != s.threads[step.th].cor
    ensures Delta(s, step, d) == 0
  {
  }

  lemma MoveTable(s: Sys, step: Step)
    requires Enabled(s, step) && IsMove(step) && !step.Wait? && !step.Register?
    ensures Next(s, step).table == s.table
  {
    hide FirstPick, Registered, DoRegister, DoPick, DoSettle, DoSpawn, DoExpire, JobRun, Disarmed;
  }

  lemma RegisterTable(s: Sys, th: nat, c: nat, fails: bool)
    requires c in s.trying && s.trying[c] in s.attempts
    ensures DoRegister(s, th, c, fails).table
         == Added(s.table, s.attempts[s.trying[c]].fd, READ, Waiting(c), fails)
  {
    hide AddOutcome, Disarmed, Registered;
    RegisteredTable(s, th, c, s.attempts[s.trying[c]].fd, READ, fails);
  }

  lemma RegisteredTable(s: Sys, th: nat, c: nat, fd: int, e: Event, fails: bool)
    ensures Registered(s, th, c, fd, e, fails).table == Added(s.table, fd, e, Waiting(c), fails)
    ensures c in s.trying && s.trying[c] in s.attempts ==>
              var n := Registered(s, th, c, fd, e, fails);
              c in n.trying && n.trying[c] in n.attempts && Ended(n, c).table == n.table
  {
    hide Added, AddOutcome;
  }

  lemma MovePlainly(s: Sys, step: Step)
    requires Plainly(s.table.fds) && Enabled(s, step) && IsMove(step)
    ensures Plainly(Next(s, step).table.fds)
  {
    hide Plainly, Added, AddOutcome, DoRegister, DoSleep, DoRecv, DoDisarm, DoState, DoSwapIn, DoSwapOut, Ended;
    match step
    case Wait(th, fd, e, fails) => AddedPlainly(s.table, fd, e, s.threads[th].cor, fails);
    case Register(th, fails) =>
      var c := s.threads[th].cor;
      RegisterTable(s, th, c, fails);
      AddedPlainly(s.table, s.attempts[s.trying[c]].fd, READ, c, fails);
    case _ => MoveTable(s, step);
  }

  /** The step keeps the shape and expects what it leaves. */
  ghost predicate Kept(s: Sys, step: Step)
    requires Shaped(s) && Enabled(s, step)
  {
    && Shaped(Next(s, step))
    && forall c :: Proper(s, c) ==>
         Proper(Next(s, step), c) && Expected(Next(s, step), c) == Expected(s, c) + Delta(s, step, c)
  }

  lemma AllProper(s: Sys)
    requires Held(s)
    ensures forall c :: Proper(s, c)
  {
    forall c ensures Proper(s, c) {
      if c in s.holder {
        assert HeldProperly(s, c);
      }
    }
  }

  lemma MovesShaped(s: Sys, n: Sys, th: nat)
    requires Shaped(s) && Moves(s, n, th) && Plainly(n.table.fds) && TryingKnown(n)
    requires var k := s.threads[th].cor; HeldProperly(n, k) && CorFits(n, k)
    ensures Shaped(n)
  {
    MovesHeld(s, n, th);
    hide CorFits, Plainly;
    forall c | c in n.state ensures HeldProperly(n, c) && CorFits(n, c) {
      if c != s.threads[th].cor {
        assert c in s.state && CorFits(s, c);
        MovesKeepsOthers(s, n, th, c);
      }
    }
  }

  lemma ShapedParts(s: Sys)
    requires Shaped(s)
    ensures Held(s) && TryingKnown(s) && Plainly(s.table.fds)
  {
  }

  lemma MoveKept(s: Sys, step: Step)
    requires Shaped(s) && Enabled(s, step) && IsMove(step)
    ensures Kept(s, step)
  {
    hide Next, Enabled, Delta, CorFits, Expected, Plainly, Held, Shaped, TryingKnown, Touches;
    ShapedParts(s);
    MoverHas(s, step);
    var n, k := Next(s, step), s.threads[step.th].cor;
    MoveFits(s, step);
    MovePlainly(s, step);
    MoveTouches(s, step);
    TouchesMoves(s, n, step.th, k);
    TouchesTrying(s, n, step.th, k);
    MovesShaped(s, n, step.th);
    forall c | Proper(s, c) ensures Proper(n, c) && Expected(n, c) == Expected(s, c) + Delta(s, step, c) {
      if c != k {
        MovesKeepsOthers(s, n, step.th, c);
        MoveElsewhere(s, step, c);
      }
    }
  }

  // ----- Picking, settling, spawning -----

  /** An entry of the queue is a wake-up of its coroutine. */
  lemma QueuedToken(s: Sys, i: nat, c: nat)
    requires i < |s.Queue()| && s.Queue()[i] == Resume(c)
    ensures Tokens(s, c) >= 1
  {
    assert Resume(c) in multiset(s.Queue());
  }

  /** A queued coroutine that is not running is at rest: nobody has it, and it is not over. */
  lemma PickRests(s: Sys, i: nat, c: nat)
    requires Inv(s) && i < |s.Queue()| && s.Queue()[i] == Resume(c) && !Skipped(s.Queue()[i], s.state)
    ensures c in s.state && c !in s.holder && c in s.saved
    ensures s.state[c] == INIT || s.state[c] == READY || s.state[c] == SUSPENDED
  {
    hide Plainly, Tokens;
    QueuedToken(s, i, c);
    assert Proper(s, c) && Tokens(s, c) == Expected(s, c);
    assert CorFits(s, c);
  }

  /** For this coroutine nothing changed. */
  ghost predicate Same(s: Sys, n: Sys, d: nat) {
    && HeldProperly(s, d) && HeldProperly(n, d) && Expected(n, d) == Expected(s, d)
    && (d in n.state <==> d in s.state)
    && (d in s.state ==> (CorFits(n, d) <==> CorFits(s, d)))
  }

  /** A step that concerns one coroutine c is fine when it is fine for c. */
  lemma KeptFrom(s: Sys, step: Step, c: nat)
    requires Shaped(s) && Enabled(s, step) && Held(Next(s, step))
    requires forall d | HeldProperly(s, d) && d != c :: Same(s, Next(s, step), d) && Delta(s, step, d) == 0
    requires HeldProperly(s, c) && HeldProperly(Next(s, step), c)
    requires Expected(Next(s, step), c) == Expected(s, c) + Delta(s, step, c)
    requires c in Next(s, step).state ==> CorFits(Next(s, step), c)
    requires TryingKnown(Next(s, step))
    requires Plainly(Next(s, step).table.fds)
    ensures Kept(s, step)
  {
    hide Next, Enabled, Delta, Plainly, CorFits, Expected;
    var n := Next(s, step);
    forall d | d in n.state ensures HeldProperly(n, d) && CorFits(n, d) {
      AllProper(s);
      assert Proper(s, d);
      if d != c {
        assert Same(s, n, d);
      }
    }
  }

  /** A free thread takes a coroutine at rest. */
  ghost predicate Takes(s: Sys, n: Sys, th: nat, c: nat) {
    && th in s.threads && !s.threads[th].Has() && c !in s.holder && c in s.state
    && n.threads == s.threads[th := Took(c)] && n.holder == s.holder[c := th]
    && n.state == s.state && n.saved == s.saved && n.trying == s.trying && n.attempts == s.attempts
    && n.table.fds == s.table.fds
  }

  lemma TakesOthers(s: Sys, n: Sys, th: nat, c: nat, d: nat)
    requires Takes(s, n, th, c) && HeldProperly(s, d) && d != c
    ensures Same(s, n, d)
  {
  }

  lemma TakesHeld(s: Sys, n: Sys, th: nat, c: nat)
    requires Held(s) && Takes(s, n, th, c)
    ensures Held(n)
  {
    forall d | d in n.holder ensures d in n.state && HeldProperly(n, d) {
      if d != c {
        assert HeldProperly(s, d);
      }
    }
    forall t | t in n.threads && n.threads[t].Has() ensures Owned(n, t) {
      if t != th {
        assert Owned(s, t);
      }
    }
  }

  lemma PickTakes(s: Sys, th: nat)
    requires Inv(s) && Enabled(s, Pick(th))
    requires s.Queue()[FirstPick(s.Queue(), s.state)].Resume?
    ensures var c := s.Queue()[FirstPick(s.Queue(), s.state)].cor;
            Takes(s, DoPick(s, th), th, c) && HeldProperly(s, c) && Expected(s, c) == 1
            && c in s.saved && (s.state[c] == INIT || s.state[c] == READY || s.state[c] == SUSPENDED)
  {
    hide FirstPick, Removed, Plainly, Tokens;
    PickRests(s, FirstPick(s.Queue(), s.state), s.Queue()[FirstPick(s.Queue(), s.state)].cor);
  }

  lemma PickKept(s: Sys, th: nat)
    requires Inv(s) && Enabled(s, Pick(th))
    ensures Kept(s, Pick(th))
  {
    hide FirstPick, Removed, Plainly, Tokens, DoPick, Conserved;
    var w, n := s.Queue()[FirstPick(s.Queue(), s.state)], Next(s, Pick(th));
    match w
    case Resume(c) =>
      PickTakes(s, th);
      TakesHeld(s, n, th, c);
      forall d | HeldProperly(s, d) && d != c ensures Same(s, n, d) && Delta(s, Pick(th), d) == 0 {
        TakesOthers(s, n, th, c, d);
      }
      KeptFrom(s, Pick(th), c);
    case Call(f) =>
      PickAside(s, th);
      JobKept(s, n, Pick(th));
  }

  lemma PickAside(s: Sys, th: nat)
    requires Enabled(s, Pick(th)) && s.Queue()[FirstPick(s.Queue(), s.state)].Call? && Plainly(s.table.fds)
    ensures Aside(s, DoPick(s, th))
  {
    hide FirstPick, Removed, Plainly;
  }

  /** A thread lets its coroutine go. */
  ghost predicate Drops(s: Sys, n: Sys, th: nat, c: nat) {
    && th in s.threads && s.threads[th] == Left(c) && c in s.holder && s.holder[c] == th && c in s.state
    && n.threads == s.threads[th := Free] && n.holder == s.holder - {c}
    && n.state.Keys == s.state.Keys && (forall d | d in s.state && d != c :: n.state[d] == s.state[d])
    && n.saved == s.saved && n.trying == s.trying && n.attempts == s.attempts
    && n.table.fds == s.table.fds
  }

  lemma DropsOthers(s: Sys, n: Sys, th: nat, c: nat, d: nat)
    requires Drops(s, n, th, c) && HeldProperly(s, d) && d != c
    ensures Same(s, n, d)
  {
  }

  lemma DropsHeld(s: Sys, n: Sys, th: nat, c: nat)
    requires Held(s) && Drops(s, n, th, c)
    ensures Held(n)
  {
    forall d | d in n.holder ensures d in n.state && HeldProperly(n, d) {
      assert HeldProperly(s, d);
    }
    forall t | t in n.threads && n.threads[t].Has() ensures Owned(n, t) {
      assert Owned(s, t);
    }
  }

  lemma SettleDrops(s: Sys, th: nat, c: nat)
    requires th in s.threads && s.threads[th] == Left(c) && Mine(s, th, c)
    ensures Drops(s, DoSettle(s, th, c), th, c)
  {
    hide Fits, Need;
  }

  lemma SettleNeeds(s: Sys, th: nat, c: nat)
    requires th in s.threads && s.threads[th] == Left(c) && Mine(s, th, c)
    ensures var n := DoSettle(s, th, c);
            && c in n.state && n.state[c] != RUNNING && c in n.saved
            && (if n.state[c].Over() then 0 else 1) == Need(s.threads[th], s.state[c]) + Bit(s.state[c] == READY)
  {
  }

  /** Settling turns "left while running" into suspended, and puts a ready coroutine back. */
  lemma SettleKept(s: Sys, th: nat)
    requires Shaped(s) && Enabled(s, Settle(th))
    ensures Kept(s, Settle(th))
  {
    hide Plainly, DoSettle, Fits;
    var c, n := s.threads[th].cor, Next(s, Settle(th));
    assert Owned(s, th) && HeldProperly(s, c) && CorFits(s, c);
    SettleDrops(s, th, c);
    SettleNeeds(s, th, c);
    DropsHeld(s, n, th, c);
    forall d | HeldProperly(s, d) && d != c ensures Same(s, n, d) && Delta(s, Settle(th), d) == 0 {
      DropsOthers(s, n, th, c, d);
    }
    KeptFrom(s, Settle(th), c);
  }

  lemma SpawnKept(s: Sys, c: nat)
    requires Shaped(s) && Enabled(s, Spawn(c))
    ensures Kept(s, Spawn(c))
  {
    hide Plainly, Fits, Need;
    var n := Next(s, Spawn(c));
    forall d | d in n.holder ensures d in n.state && HeldProperly(n, d) {
      assert HeldProperly(s, d);
    }
    forall t | t in n.threads && n.threads[t].Has() ensures Owned(n, t) {
      assert Owned(s, t);
    }
    assert c !in s.holder;
    forall d | HeldProperly(s, d) && d != c ensures Same(s, n, d) && Delta(s, Spawn(c), d) == 0 {
    }
    KeptFrom(s, Spawn(c), c);
  }

  // ----- Everything else -----

  /** Steps that change no coroutine and no thread's hold of one. */
  ghost predicate Aside(s: Sys, n: Sys) {
    && n.state == s.state && n.saved == s.saved && n.holder == s.holder && n.trying == s.trying
    && s.attempts.Keys <= n.attempts.Keys && Plainly(n.table.fds)
    && n.threads.Keys == s.threads.Keys
    && forall t | t in s.threads :: n.threads[t] == s.threads[t] || (!n.threads[t].Has() && !s.threads[t].Has())
  }

  lemma JobKept(s: Sys, n: Sys, step: Step)
    requires Shaped(s) && Enabled(s, step) && n == Next(s, step) && Aside(s, n)
    requires forall c :: Delta(s, step, c) == 0
    ensures Kept(s, step)
  {
    hide Next, Enabled, Delta, Plainly, Fits, Need;
    forall c | HeldProperly(s, c)
      ensures HeldProperly(n, c) && Expected(n, c) == Expected(s, c)
      ensures c in s.state ==> (CorFits(n, c) <==> CorFits(s, c))
    {
    }
    forall t | t in n.threads && n.threads[t].Has() ensures Owned(n, t) {
      assert Owned(s, t);
    }
  }

  predicate IsAside(step: Step) {
    step.Poll? || step.Cancel? || step.Tick? || step.Expire? || step.Submit? || step.RunJob?
  }

  lemma StepAside(s: Sys, step: Step)
    requires Enabled(s, step) && IsAside(step) && Plainly(s.table.fds)
    ensures Aside(s, Next(s, step))
  {
    hide Aside, Plainly, Cancelled, Delivered, FirstPick, JobRun, DoExpire, Registered, DoRegister, DoPick, DoSettle,
      DoSpawn, DoSleep, DoRecv, DoDisarm, DoState, DoSwapIn, DoSwapOut, Ended;
    match step
    case Poll(fd, r, fails) =>
      TakenPlainly(s.table, fd, READ, r, fails);
      TableAside(s, Delivered(s.table, fd, r, fails));
    case Cancel(fd, e, fails) =>
      TakenPlainly(s.table, fd, e, Report(false, false, false), fails);
      TableAside(s, Cancelled(s.table, fd, e, fails));
    case RunJob(th, fails) => JobAside(s, th, s.threads[th].f, s.threads[th].stage, fails);
    case _ => AlarmAside(s, step);
  }

  lemma TableAside(s: Sys, t: Table)
    requires Plainly(t.fds)
    ensures Aside(s, s.(table := t))
  {
  }

  lemma AlarmAside(s: Sys, step: Step)
    requires Enabled(s, step) && (step.Tick? || step.Expire? || step.Submit?) && Plainly(s.table.fds)
    ensures Aside(s, Next(s, step))
  {
    hide Plainly, Aside, Cancelled, Delivered, FirstPick, JobRun, Registered, DoRegister, DoPick, DoSettle, DoSpawn,
      DoSleep, DoRecv, DoDisarm, DoState, DoSwapIn, DoSwapOut, Ended;
    StillAside(s, Next(s, step));
  }

  lemma StillAside(s: Sys, n: Sys)
    requires n.threads == s.threads && n.attempts == s.attempts
    requires n.state == s.state && n.saved == s.saved && n.holder == s.holder && n.trying == s.trying
    requires Plainly(n.table.fds)
    ensures Aside(s, n)
  {
    hide Plainly;
  }

  lemma SetAside(s: Sys, n: Sys, th: nat)
    requires th in s.threads && !s.threads[th].Has() && th in n.threads && !n.threads[th].Has()
    requires n.threads == s.threads[th := n.threads[th]] && s.attempts.Keys <= n.attempts.Keys
    requires n.state == s.state && n.saved == s.saved && n.holder == s.holder && n.trying == s.trying
    requires Plainly(n.table.fds)
    ensures Aside(s, n)
  {
    hide Plainly;
  }

  lemma TableSetAside(s: Sys, th: nat, h: Hold, t: Table)
    requires th in s.threads && !s.threads[th].Has() && !h.Has() && Plainly(t.fds)
    ensures Aside(s, s.(table := t).Set(th, h))
  {
    hide Plainly, Aside;
    SetAside(s, s.(table := t).Set(th, h), th);
  }

  lemma FlagSetAside(s: Sys, th: nat, h: Hold, a: nat, t: Attempt)
    requires th in s.threads && !s.threads[th].Has() && !h.Has() && Plainly(s.table.fds) && a in s.attempts
    ensures Aside(s, s.(attempts := s.attempts[a := t]).Set(th, h))
  {
    hide Plainly, Aside;
    SetAside(s, s.(attempts := s.attempts[a := t]).Set(th, h), th);
  }

  lemma TimeOutAside(s: Sys, th: nat, a: nat, stage: JobStage, fails: bool)
    requires th in s.threads && s.threads[th].Job? && Plainly(s.table.fds) && a in s.attempts
    ensures Aside(s, TimeOutRun(s, th, a, stage, fails))
  {
    hide Plainly, Cancelled, Aside;
    var t := s.attempts[a];
    match stage
    case Starting =>
      TableSetAside(s, th, Job(TimeOut(a), Checked), s.table);
      TableSetAside(s, th, Free, s.table);
    case Checked => FlagSetAside(s, th, Job(TimeOut(a), Flagged), a, t.(flag := true));
    case Flagged =>
      TakenPlainly(s.table, t.fd, READ, Report(false, false, false), fails);
      TableSetAside(s, th, Free, Cancelled(s.table, t.fd, READ, fails));
  }

  lemma JobAside(s: Sys, th: nat, f: Closure, stage: JobStage, fails: bool)
    requires th in s.threads && s.threads[th].Job? && Plainly(s.table.fds)
    ensures Aside(s, JobRun(s, th, f, stage, fails))
  {
    hide Plainly, TimeOutRun, Aside;
    if f.TimeOut? && f.attempt in s.attempts {
      TimeOutAside(s, th, f.attempt, stage, fails);
    } else {
      SetAside(s, JobRun(s, th, f, stage, fails), th);
    }
  }

  // ----- The invariant in every run -----

  lemma StepInv(s: Sys, step: Step)
    requires Inv(s) && Enabled(s, step)
    ensures Inv(Next(s, step))
  {
    hide Next, Enabled, Delta, Plainly, CorFits, Held, Expected, Tokens;
    var n := Next(s, step);
    if IsMove(step) {
      MoveKept(s, step);
    } else if step.Pick? {
      PickKept(s, step.th);
    } else if step.Settle? {
      SettleKept(s, step.th);
    } else if step.Spawn? {
      SpawnKept(s, step.c);
    } else {
      StepAside(s, step);
      NoDelta(s, step);
      JobKept(s, n, step);
    }
    AllProper(s);
    forall c ensures Proper(n, c) && Tokens(n, c) == Expected(n, c) {
      assert Proper(s, c) && Tokens(s, c) == Expected(s, c);
      StepTokens(s, step, c);
    }
  }

  lemma NoDelta(s: Sys, step: Step)
    requires Enabled(s, step) && IsAside(step)
    ensures forall c :: Delta(s, step, c) == 0
  {
  }

  lemma InitialInv(s: Sys)
    requires Initial(s)
    ensures Inv(s)
  {
    forall c ensures Proper(s, c) && Tokens(s, c) == Expected(s, c) {
      NoJobs(s.threads, c);
      assert SlotWeights(s.table.fds, c) == map[] && AlarmWeights(s.timers, c) == map[];
    }
  }

  lemma {:induction false} NoJobs(threads: map<nat, Hold>, c: nat)
    requires forall th | th in threads :: threads[th] == Free
    ensures JobTokens(threads, c) == 0
    decreases |threads|
  {
    if th :| th in threads {
      var rest := threads - {th};
      NoJobs(rest, c);
      JobUpdate(rest[th := Free], th, Free, c);
      MapSum.SumRemove(HoldWeights(threads, c), th);
      assert HoldWeights(threads, c) - {th} == HoldWeights(rest, c);
    } else {
      assert HoldWeights(threads, c) == map[];
    }
  }

  /** The invariant holds in every state of every run. */
  lemma {:induction false} RunInv(s: Sys, steps: seq<Step>)
    requires Inv(s) && CanRun(s, steps)
    ensures Inv(Run(s, steps))
    decreases |steps|
  {
    hide Inv, Next, Enabled;
    if steps != [] {
      StepInv(s, steps[0]);
      RunInv(Next(s, steps[0]), steps[1..]);
    }
  }
}
