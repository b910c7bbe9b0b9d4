/** The objects behind the state machine: a coroutine's state, and the run queue a scheduler
thread picks from, swaps in from and settles into, step by step as `CorScheduler::run` does it. */
module CorScheduler {
  import opened EventTable
  import opened Protocol

  class Coroutine {
    /** What its entry in the queue stands for: a coroutine by number, or a callback's own one. */
    const wake: Wake
    var state: CoState

    constructor (wake: Wake)
      ensures this.wake == wake && state == INIT
    {
      this.wake, state := wake, INIT;
    }

    /** The switch into the coroutine; its precondition is the assertion of the source. */
    method SwapIn()
      requires state != RUNNING
      modifies this
      ensures state == RUNNING
    {
      state := RUNNING;
    }

    /** The switch out: suspending leaves the state as it is, yielding and ending set it. */
    method Leave(end: CoState)
      requires state == RUNNING
      modifies this
      ensures state == end
    {
      state := end;
    }
  }

  function Entries(cs: seq<Coroutine>): (q: seq<Wake>)
    ensures |q| == |cs|
  {
    seq(|cs|, i requires 0 <= i < |cs| => cs[i].wake)
  }

  /** The states a coroutine can leave a thread in, and how far it has then got. */
  predicate CanLeaveIn(end: CoState) { end == RUNNING || end == READY || end.Over() }

  function PhaseOf(end: CoState): Phase {
    if end == RUNNING then Parting else if end == READY then Yielding else Ending
  }

  /** The steps of the state machine that one turn of the loop of `run` makes on what it picks:
      pick, swap in, whatever the coroutine does up to its leaving, swap out, settle. A callback
      goes on as a job of the thread. */
  function Turn(s: Sys, th: nat, end: CoState): Sys
    requires forall c | Resume(c) in s.Queue() :: c in s.state
  {
    var i := FirstPick(s.Queue(), s.state);
    if i == |s.Queue()| then s
    else
      var n, w := DoPick(s, th), s.Queue()[i];
      if w.Call? || s.state[w.cor].Over() then n
      else DoSettle(DoSwapOut(DoState(DoSwapIn(n, th, w.cor), th, w.cor, end, PhaseOf(end)), th, w.cor), th, w.cor)
  }

  /** A callback's own coroutine is queued once. */
  ghost predicate Single(cs: seq<Coroutine>, i: nat, j: nat)
    requires i < |cs| && j < |cs|
  {
    i != j && cs[i].wake.Call? ==> cs[i] != cs[j]
  }

  ghost predicate AllSingle(cs: seq<Coroutine>) {
    forall i, j | 0 <= i < |cs| && 0 <= j < |cs| :: Single(cs, i, j)
  }

  lemma SingleCut(cs: seq<Coroutine>, k: nat)
    requires AllSingle(cs) && k < |cs|
    ensures AllSingle(cs[..k] + cs[k + 1..])
    ensures cs[k].wake.Call? ==> cs[k] !in cs[..k] + cs[k + 1..]
    ensures Entries(cs[..k] + cs[k + 1..]) == Removed(Entries(cs), k)
  {
    var r := cs[..k] + cs[k + 1..];
    forall i, j | 0 <= i < |r| && 0 <= j < |r| ensures Single(r, i, j) {
      assert Single(cs, if i < k then i else i + 1, if j < k then j else j + 1);
    }
    if cs[k].wake.Call? {
      forall i | 0 <= i < |r| ensures r[i] != cs[k] {
        assert Single(cs, k, if i < k then i else i + 1);
      }
    }
  }

  lemma CutMembers(cs: seq<Coroutine>, k: nat)
    requires k < |cs|
    ensures var r := cs[..k] + cs[k + 1..]; forall i | 0 <= i < |r| :: r[i] in cs
  {
  }

  class Scheduler {
    var coroutines: seq<Coroutine>
    /** Every coroutine that was spawned, by number. */
    ghost var known: map<nat, Coroutine>
    ghost var repr: set<Coroutine>

    constructor ()
      ensures coroutines == [] && known == map[] && repr == {}
    {
      coroutines, known, repr := [], map[], {};
    }

    /** The queue holds these entries, and every coroutine is in this state. */
    ghost predicate Holds(q: seq<Wake>, state: map<nat, CoState>)
      reads this, repr
    {
      && q == Entries(coroutines) && AllSingle(coroutines)
      && known.Keys == state.Keys
      && (forall c | c in known :: known[c] in repr && known[c].wake == Resume(c) && known[c].state == state[c])
      && (forall i | 0 <= i < |coroutines| :: coroutines[i] in repr && Entered(coroutines[i]))
    }

    ghost predicate Entered(cor: Coroutine)
      reads this, cor
    {
      match cor.wake
      case Resume(c) => c in known && known[c] == cor
      case Call(_) => cor.state == INIT
    }

    /** The objects are where the state machine is. */
    ghost predicate Shows(s: Sys)
      reads this, repr
    {
      Holds(s.Queue(), s.state)
    }

    method Add(cor: Coroutine)
      modifies `coroutines
      ensures coroutines == old(coroutines) + [cor]
    {
      coroutines := coroutines + [cor];
    }

    lemma SkippedIsRunning(q: seq<Wake>, state: map<nat, CoState>, k: nat)
      requires Holds(q, state) && k < |q|
      ensures Skipped(q[k], state) <==> coroutines[k].state == RUNNING
    {
      assert Entered(coroutines[k]);
    }

    /** Walks the queue past the running entries and takes the first other one out. */
    method Pick(ghost q: seq<Wake>, ghost state: map<nat, CoState>) returns (cor: Coroutine?)
      requires Holds(q, state)
      modifies `coroutines
      ensures var i := FirstPick(q, state);
              if i < |q|
              then cor == old(coroutines)[i] && cor in repr && cor.state != RUNNING && cor.wake == q[i] && Entered(cor)
                   && Holds(Removed(q, i), state) && (cor.wake.Call? ==> cor !in coroutines)
              else cor == null && Holds(q, state)
    {
      var it := 0;
      cor := null;
      while it < |coroutines| && coroutines[it].state == RUNNING
        invariant it <= |coroutines| && coroutines == old(coroutines)
        invariant forall k | 0 <= k < it :: Skipped(q[k], state)
      {
        SkippedIsRunning(q, state, it);
        it := it + 1;
      }
      hide AllSingle, Removed;
      if it < |coroutines| {
        SkippedIsRunning(q, state, it);
        FirstPickIs(q, state, it);
        cor := coroutines[it];
        SingleCut(coroutines, it);
        ghost var before := coroutines;
        coroutines := coroutines[..it] + coroutines[it + 1..];
        CutMembers(before, it);
      } else {
        FirstPickIs(q, state, it);
      }
    }

    /** The switch into a picked coroutine. */
    method SwapIn(cor: Coroutine, ghost c: nat, ghost q: seq<Wake>, ghost state: map<nat, CoState>)
      requires Holds(q, state) && c in known && known[c] == cor && cor.state != RUNNING
      modifies cor
      ensures cor.state == RUNNING && Holds(q, state[c := RUNNING])
    {
      cor.SwapIn();
      assert forall i | 0 <= i < |coroutines| :: old(Entered(coroutines[i]));
    }

    method Leave(cor: Coroutine, end: CoState, ghost c: nat, ghost q: seq<Wake>, ghost state: map<nat, CoState>)
      requires Holds(q, state) && c in known && known[c] == cor && cor.state == RUNNING
      modifies cor
      ensures cor.state == end && Holds(q, state[c := end])
    {
      cor.Leave(end);
      assert forall i | 0 <= i < |coroutines| :: old(Entered(coroutines[i]));
    }

    /** After the switch back: a ready coroutine is queued again, a running one is now
        suspended, one that is over is dropped. */
    method Settle(cor: Coroutine, ghost c: nat, ghost q: seq<Wake>, ghost state: map<nat, CoState>)
      requires Holds(q, state) && c in known && known[c] == cor
      modifies `coroutines, cor
      ensures Holds(q + (if state[c] == READY then [Resume(c)] else []),
                    if state[c] == READY || state[c].Over() then state else state[c := SUSPENDED])
    {
      if cor.state == READY {
        ghost var before := coroutines;
        Add(cor);
        forall i, j | 0 <= i < |coroutines| && 0 <= j < |coroutines| ensures Single(coroutines, i, j) {
          if i < |before| && j < |before| {
            assert Single(before, i, j);
          }
        }
      } else if cor.state != FINISHED && cor.state != FAILED {
        cor.state := SUSPENDED;
        assert forall i | 0 <= i < |coroutines| :: old(Entered(coroutines[i]));
      }
    }

    /** One turn of the loop: what it picks is swapped in unless it is over, runs until it leaves
        in some state, and is settled. The assertion of the switch holds in every turn, and the
        objects end where the steps of the state machine lead. */
    method Run(th: nat, end: CoState, ghost s: Sys) returns (cor: Coroutine?)
      requires Shows(s) && CanLeaveIn(end)
      modifies `coroutines, repr
      ensures (forall c | Resume(c) in s.Queue() :: c in s.state) && Shows(Turn(s, th, end))
      ensures cor == null <==> FirstPick(s.Queue(), s.state) == |s.Queue()|
    {
      QueuedAreKnown(s);
      ghost var q, state := s.Queue(), s.state;
      ghost var i := FirstPick(q, state);
      TurnParts(s, th, end);
      hide Turn, Holds, FirstPick, Removed;
      cor := Pick(q, state);
      if cor == null {
        return;
      }
      var over := cor.state == FINISHED || cor.state == FAILED;
      if cor.wake.Call? {
        if !over {
          RunCallback(cor, Removed(q, i), state);
        }
        return;
      }
      ghost var c := cor.wake.cor;
      ghost var rest := Removed(q, i);
      StateOf(rest, state, c);
      if !over {
        RunCoroutine(cor, end, c, rest, state);
      }
    }

    /** Swap in, leave, settle. */
    method RunCoroutine(cor: Coroutine, end: CoState, ghost c: nat, ghost q: seq<Wake>, ghost state: map<nat, CoState>)
      requires Holds(q, state) && c in known && known[c] == cor && cor.state != RUNNING && CanLeaveIn(end)
      modifies `coroutines, cor
      ensures Holds(q + (if end == READY then [Resume(c)] else []),
                    if end == RUNNING then state[c := SUSPENDED] else state[c := end])
    {
      hide Holds;
      SwapIn(cor, c, q, state);
      Leave(cor, end, c, q, state[c := RUNNING]);
      assert state[c := RUNNING][c := end] == state[c := end];
      assert state[c := end][c := SUSPENDED] == state[c := SUSPENDED];
      Settle(cor, c, q, state[c := end]);
    }

    /** A callback's coroutine runs to its end; its work is the job of the state machine. */
    method RunCallback(cor: Coroutine, ghost q: seq<Wake>, ghost state: map<nat, CoState>)
      requires Holds(q, state) && cor !in coroutines && cor.wake.Call? && cor.state != RUNNING
      modifies cor
      ensures Holds(q, state)
    {
      cor.SwapIn();
      cor.Leave(FINISHED);
      assert forall i | 0 <= i < |coroutines| :: old(Entered(coroutines[i]));
    }

    lemma StateOf(q: seq<Wake>, state: map<nat, CoState>, c: nat)
      requires Holds(q, state) && c in known
      ensures c in state && known[c].state == state[c]
    {
    }

    lemma QueuedAreKnown(s: Sys)
      requires Shows(s)
      ensures forall c | Resume(c) in s.Queue() :: c in s.state
    {
      forall c | Resume(c) in s.Queue() ensures c in s.state {
        var i :| 0 <= i < |coroutines| && Entries(coroutines)[i] == Resume(c);
        assert Entered(coroutines[i]);
      }
    }
  }

  lemma PickParts(s: Sys, th: nat)
    requires FirstPick(s.Queue(), s.state) < |s.Queue()|
    ensures DoPick(s, th).Queue() == Removed(s.Queue(), FirstPick(s.Queue(), s.state)) && DoPick(s, th).state == s.state
  {
    hide FirstPick, Removed;
  }

  lemma MiddleParts(s: Sys, th: nat, c: nat, end: CoState)
    ensures var m := DoSwapOut(DoState(DoSwapIn(s, th, c), th, c, end, PhaseOf(end)), th, c);
            m.Queue() == s.Queue() && m.state == s.state[c := end]
  {
    assert s.state[c := RUNNING][c := end] == s.state[c := end];
  }

  lemma SettleParts(s: Sys, th: nat, c: nat)
    requires c in s.state
    ensures DoSettle(s, th, c).Queue() == s.Queue() + if s.state[c] == READY then [Resume(c)] else []
    ensures DoSettle(s, th, c).state
         == if s.state[c] == READY || s.state[c].Over() then s.state else s.state[c := SUSPENDED]
  {
  }

  /** What a turn of the state machine does to queue and states. */
  lemma TurnParts(s: Sys, th: nat, end: CoState)
    requires forall c | Resume(c) in s.Queue() :: c in s.state
    requires CanLeaveIn(end)
    ensures var q, i, n := s.Queue(), FirstPick(s.Queue(), s.state), Turn(s, th, end);
            if i == |q| then n == s
            else if q[i].Call? || s.state[q[i].cor].Over() then n.Queue() == Removed(q, i) && n.state == s.state
            else
              var c := q[i].cor;
              && n.Queue() == Removed(q, i) + (if end == READY then [Resume(c)] else [])
              && n.state == if end == RUNNING then s.state[c := SUSPENDED] else s.state[c := end]
  {
    hide FirstPick, Removed, DoPick, DoSwapIn, DoState, DoSwapOut, DoSettle;
    var q, i := s.Queue(), FirstPick(s.Queue(), s.state);
    if i < |q| {
      PickParts(s, th);
      assert q[i] in q;
      if q[i].Resume? {
        var c := q[i].cor;
        MiddleParts(DoPick(s, th), th, c, end);
        SettleParts(DoSwapOut(DoState(DoSwapIn(DoPick(s, th), th, c), th, c, end, PhaseOf(end)), th, c), th, c);
        assert s.state[c := end][c := SUSPENDED] == s.state[c := SUSPENDED];
      }
    }
  }
}
