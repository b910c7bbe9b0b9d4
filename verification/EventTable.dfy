/** The table of waited-for file descriptors (`IOScheduler`): what a coroutine or callback
waits for, how many waits there are, and what the kernel was told to report. */
module EventTable {
  import opened Optional
  import MapSum

  datatype Event = READ | WRITE

  /** A set of events: the bits of `FdContext::events` and of the kernel's interest mask. */
  datatype Events = Events(read: bool, write: bool) {
    predicate Has(e: Event) {
      match e case READ => read case WRITE => write
    }

    function With(e: Event): Events {
      match e case READ => this.(read := true) case WRITE => this.(write := true)
    }

    function Without(e: Event): Events {
      match e case READ => this.(read := false) case WRITE => this.(write := false)
    }

    function And(o: Events): Events { Events(read && o.read, write && o.write) }

    function Minus(o: Events): Events { Events(read && !o.read, write && !o.write) }

    function Count(): nat { (if read then 1 else 0) + (if write then 1 else 0) }
  }

  const NONE := Events(false, false)

  /** The closures handed to the scheduler: any callback, the wake-up of a sleeping coroutine,
      the timeout of one receive attempt. */
  datatype Closure = Plain(id: nat) | WakeUp(sleeper: nat) | TimeOut(attempt: nat)

  /** What to resume for one event; only `delEvent` clears it. */
  datatype Slot = Slot(cor: Option<nat>, cb: Option<Closure>)

  const EMPTY_SLOT := Slot(None, None)

  /** Who starts to wait: a callback, or the current coroutine when none is given. */
  datatype Waiter = Calling(cb: Closure) | Waiting(cor: nat)

  datatype Ctx = Ctx(events: Events, read: Slot, write: Slot) {
    function SlotOf(e: Event): Slot {
      match e case READ => read case WRITE => write
    }

    function Put(e: Event, s: Slot): Ctx {
      match e case READ => this.(read := s) case WRITE => this.(write := s)
    }
  }

  const FRESH_CTX := Ctx(NONE, EMPTY_SLOT, EMPTY_SLOT)

  /** What is appended to the run queue. */
  datatype Wake = Resume(cor: nat) | Call(cb: Closure)

  datatype Table = Table(fds: map<int, Ctx>, count: int, kernel: map<int, Events>, queue: seq<Wake>)

  datatype Op = ADD | MOD | DEL

  /** What the kernel accepts: adding what it does not know, changing what it knows. */
  predicate LegalOp(kernel: map<int, Events>, op: Op, fd: int) {
    op == ADD <==> fd !in kernel
  }

  function Control(kernel: map<int, Events>, op: Op, fd: int, mask: Events): map<int, Events> {
    if op == DEL then kernel - {fd} else kernel[fd := mask]
  }

  function Entry(t: Table, fd: int): Ctx {
    if fd in t.fds then t.fds[fd] else FRESH_CTX
  }

  function Occupied(s: Slot, w: Waiter): Slot {
    match w
    case Calling(f) => s.(cb := Some(f))
    case Waiting(c) => s.(cor := Some(c))
  }

  function Wakes(s: Slot): seq<Wake> {
    (if s.cor.Some? then [Resume(s.cor.value)] else []) + if s.cb.Some? then [Call(s.cb.value)] else []
  }

  datatype Outcome = Done | Refused | Thrown

  // ----- The operations on values -----

  function AddOp(c: Ctx): Op { if c.events != NONE then MOD else ADD }

  function AddOutcome(t: Table, fd: int, e: Event, fails: bool): Outcome {
    if Entry(t, fd).events.Has(e) then Thrown else if fails then Refused else Done
  }

  /** The entry is created first, and stays even when the kernel refuses. */
  function Added(t: Table, fd: int, e: Event, w: Waiter, fails: bool): Table {
    var c := Entry(t, fd);
    match AddOutcome(t, fd, e, fails)
    case Thrown => t
    case Refused => t.(fds := t.fds[fd := c])
    case Done =>
      var c' := c.(events := c.events.With(e)).Put(e, Occupied(c.SlotOf(e), w));
      t.(fds := t.fds[fd := c'], count := t.count + 1, kernel := Control(t.kernel, AddOp(c), fd, c'.events))
  }

  predicate Waited(t: Table, fd: int, e: Event) {
    fd in t.fds && t.fds[fd].events.Has(e)
  }

  function DropOp(rest: Events): Op { if rest != NONE then MOD else DEL }

  /** An entry that waits for nothing any more is deleted. */
  function Keep(fds: map<int, Ctx>, fd: int, c: Ctx): map<int, Ctx> {
    if c.events == NONE then fds - {fd} else fds[fd := c]
  }

  function Deleted(t: Table, fd: int, e: Event, fails: bool): Table {
    if !Waited(t, fd, e) || fails then t
    else
      var c := t.fds[fd];
      var rest := c.events.Without(e);
      t.(fds := Keep(t.fds, fd, c.(events := rest).Put(e, EMPTY_SLOT)), count := t.count - 1,
         kernel := Control(t.kernel, DropOp(rest), fd, rest))
  }

  function Cancelled(t: Table, fd: int, e: Event, fails: bool): Table {
    if !Waited(t, fd, e) || fails then t
    else
      var c := t.fds[fd];
      var rest := c.events.Without(e);
      t.(fds := Keep(t.fds, fd, c.(events := rest)), count := t.count - 1,
         kernel := Control(t.kernel, DropOp(rest), fd, rest), queue := t.queue + Wakes(c.SlotOf(e)))
  }

  /** One record from the kernel: readable, writable, error or hang-up. */
  datatype Report = Report(readable: bool, writable: bool, broken: bool)

  /** An error or hang-up counts as everything that is waited for. */
  function Ready(r: Report, armed: Events): Events {
    Events(r.readable || (r.broken && armed.read), r.writable || (r.broken && armed.write))
  }

  /** The handler tests that the record and the entry overlap, then handles the whole record. */
  function Delivered(t: Table, fd: int, r: Report, fails: bool): Table
    requires fd in t.fds
  {
    var c := t.fds[fd];
    var ready := Ready(r, c.events);
    if c.events.And(ready) == NONE || fails then t
    else
      var rest := c.events.Minus(ready);
      t.(fds := if DropOp(rest) == DEL then t.fds - {fd} else t.fds[fd := c.(events := rest)],
         count := t.count - ready.Count(),
         kernel := Control(t.kernel, DropOp(rest), fd, rest),
         queue := t.queue + ((if ready.read then Wakes(c.read) else []) + if ready.write then Wakes(c.write) else []))
  }

  // ----- The invariant -----

  ghost function Weights(fds: map<int, Ctx>): map<int, nat> {
    map fd | fd in fds :: fds[fd].events.Count()
  }

  /** How far the counter is off the number of armed bits. */
  ghost function Balance(t: Table): int {
    t.count - MapSum.Sum(Weights(t.fds))
  }

  /** The counter is the number of armed bits. */
  ghost predicate Counted(t: Table) {
    Balance(t) == 0
  }

  /** The kernel watches exactly the entries with an armed bit, each for exactly its bits. */
  ghost predicate Watched(t: Table) {
    && (forall fd :: fd in t.kernel <==> fd in t.fds && t.fds[fd].events != NONE)
    && (forall fd | fd in t.kernel :: t.kernel[fd] == t.fds[fd].events)
  }

  lemma WeightsUpdate(fds: map<int, Ctx>, fd: int, c: Ctx)
    ensures MapSum.Sum(Weights(fds[fd := c]))
         == MapSum.Sum(Weights(fds)) + c.events.Count() - if fd in fds then fds[fd].events.Count() else 0
    ensures MapSum.Sum(Weights(fds - {fd}))
         == MapSum.Sum(Weights(fds)) - if fd in fds then fds[fd].events.Count() else 0
  {
    MapSum.SumUpdate(Weights(fds), fd, c.events.Count());
    MapSum.SumRemove(Weights(fds), fd);
    assert Weights(fds[fd := c]) == Weights(fds)[fd := c.events.Count()];
    assert Weights(fds - {fd}) == Weights(fds) - {fd};
  }

  /** Adding keeps both, also when the kernel refuses. */
  lemma AddCounted(t: Table, fd: int, e: Event, w: Waiter, fails: bool)
    ensures Balance(Added(t, fd, e, w, fails)) == Balance(t)
  {
    WeightsUpdate(t.fds, fd, Entry(Added(t, fd, e, w, fails), fd));
  }

  lemma AddWatched(t: Table, fd: int, e: Event, w: Waiter, fails: bool)
    requires Watched(t)
    ensures Watched(Added(t, fd, e, w, fails))
  {
  }

  lemma DelWatched(t: Table, fd: int, e: Event, fails: bool)
    requires Watched(t)
    ensures Watched(Deleted(t, fd, e, fails))
  {
  }

  lemma CancelWatched(t: Table, fd: int, e: Event, fails: bool)
    requires Watched(t)
    ensures Watched(Cancelled(t, fd, e, fails))
  {
  }

  lemma DeliverWatched(t: Table, fd: int, r: Report, fails: bool)
    requires Watched(t) && fd in t.fds
    ensures Watched(Delivered(t, fd, r, fails))
  {
  }

  lemma AddLegal(t: Table, fd: int)
    requires Watched(t)
    ensures LegalOp(t.kernel, AddOp(Entry(t, fd)), fd)
  {
  }

  lemma DropLegal(t: Table, fd: int, rest: Events)
    requires Watched(t) && fd in t.fds && t.fds[fd].events != NONE
    ensures LegalOp(t.kernel, DropOp(rest), fd)
  {
  }

  lemma DelCounted(t: Table, fd: int, e: Event, fails: bool)
    ensures Balance(Deleted(t, fd, e, fails)) == Balance(t)
  {
    WeightsUpdate(t.fds, fd, Entry(Deleted(t, fd, e, fails), fd));
  }

  lemma CancelCounted(t: Table, fd: int, e: Event, fails: bool)
    ensures Balance(Cancelled(t, fd, e, fails)) == Balance(t)
  {
    WeightsUpdate(t.fds, fd, Entry(Cancelled(t, fd, e, fails), fd));
  }

  predicate Handled(t: Table, fd: int, r: Report, fails: bool)
    requires fd in t.fds
  {
    t.fds[fd].events.And(Ready(r, t.fds[fd].events)) != NONE && !fails
  }

  /** A delivery puts the counter off by each event of the record that is not armed any more;
      the handler tests only that the record and the entry overlap. */
  lemma DeliverCounted(t: Table, fd: int, r: Report, fails: bool)
    requires fd in t.fds
    ensures Balance(Delivered(t, fd, r, fails)) == Balance(t) - Unarmed(t, fd, r, fails)
  {
    WeightsUpdate(t.fds, fd, Entry(Delivered(t, fd, r, fails), fd));
  }

  /** How many events a record takes off that are not armed. */
  function Unarmed(t: Table, fd: int, r: Report, fails: bool): nat {
    if fd in t.fds && Handled(t, fd, r, fails) then Ready(r, t.fds[fd].events).Minus(t.fds[fd].events).Count() else 0
  }

  // ----- Whole runs -----

  datatype TableStep =
    | Adds(fd: int, e: Event, w: Waiter, fails: bool)
    | Deletes(fd: int, e: Event, fails: bool)
    | Cancels(fd: int, e: Event, fails: bool)
    | Delivers(fd: int, r: Report, fails: bool)

  function Do(t: Table, s: TableStep): Table {
    match s
    case Adds(fd, e, w, fails) => Added(t, fd, e, w, fails)
    case Deletes(fd, e, fails) => Deleted(t, fd, e, fails)
    case Cancels(fd, e, fails) => Cancelled(t, fd, e, fails)
    case Delivers(fd, r, fails) => if fd in t.fds then Delivered(t, fd, r, fails) else t
  }

  function DoAll(t: Table, steps: seq<TableStep>): Table {
    if steps == [] then t else Do(DoAll(t, steps[..|steps| - 1]), steps[|steps| - 1])
  }

  function Excess(t: Table, s: TableStep): nat {
    if s.Delivers? then Unarmed(t, s.fd, s.r, s.fails) else 0
  }

  function ExcessAll(t: Table, steps: seq<TableStep>): nat {
    if steps == [] then 0
    else ExcessAll(t, steps[..|steps| - 1]) + Excess(DoAll(t, steps[..|steps| - 1]), steps[|steps| - 1])
  }

  lemma DoCounts(t: Table, s: TableStep)
    requires Watched(t)
    ensures Watched(Do(t, s)) && Balance(Do(t, s)) == Balance(t) - Excess(t, s)
  {
    hide Watched, Balance, Added, Deleted, Cancelled, Delivered, Unarmed;
    match s
    case Adds(fd, e, w, fails) =>
      AddWatched(t, fd, e, w, fails);
      AddCounted(t, fd, e, w, fails);
    case Deletes(fd, e, fails) =>
      DelWatched(t, fd, e, fails);
      DelCounted(t, fd, e, fails);
    case Cancels(fd, e, fails) =>
      CancelWatched(t, fd, e, fails);
      CancelCounted(t, fd, e, fails);
    case Delivers(fd, r, fails) =>
      if fd in t.fds {
        DeliverWatched(t, fd, r, fails);
        DeliverCounted(t, fd, r, fails);
      } else {
        NoRecord(t, fd, r, fails);
      }
  }

  lemma NoRecord(t: Table, fd: int, r: Report, fails: bool)
    requires fd !in t.fds
    ensures Unarmed(t, fd, r, fails) == 0
  {
  }

  /** Over every run the kernel watches exactly what is armed, and the counter is short by the
      number of unarmed events handled: it is right exactly when every handled record named
      armed events only. */
  lemma {:induction false} RunCounts(t: Table, steps: seq<TableStep>)
    requires Watched(t) && Counted(t)
    ensures Watched(DoAll(t, steps)) && Balance(DoAll(t, steps)) + ExcessAll(t, steps) == 0
    ensures Counted(DoAll(t, steps)) <==> ExcessAll(t, steps) == 0
  {
    hide Watched, Excess, Do;
    if steps != [] {
      RunCounts(t, steps[..|steps| - 1]);
      DoCounts(DoAll(t, steps[..|steps| - 1]), steps[|steps| - 1]);
    }
  }

  /** A record that went stale: the kernel reports both events, the write wait is cancelled,
      then the record is handled. Coroutine 2 is resumed twice and the counter ends at -1. */
  lemma StaleRecord()
    ensures var t1 := DoAll(Table(map[], 0, map[], []),
                             [Adds(5, READ, Waiting(1), false), Adds(5, WRITE, Waiting(2), false)]);
            var t2 := Cancelled(t1, 5, WRITE, false);
            && t1.kernel == map[5 := Events(true, true)] && t1.count == 2
            && 5 in t2.fds
            && Delivered(t2, 5, Report(true, true, false), false)
               == Table(map[], -1, map[], [Resume(2), Resume(1), Resume(2)])
  {
    var t0 := Table(map[], 0, map[], []);
    var c1 := Ctx(Events(true, false), Slot(Some(1), None), EMPTY_SLOT);
    var c2 := Ctx(Events(true, true), Slot(Some(1), None), Slot(Some(2), None));
    var adds := [Adds(5, READ, Waiting(1), false), Adds(5, WRITE, Waiting(2), false)];
    assert adds[..1] == [adds[0]] && adds[..1][..0] == [];
    assert DoAll(t0, adds[..1]) == Table(map[5 := c1], 1, map[5 := c1.events], []);
    var t1 := DoAll(t0, adds);
    assert t1 == Table(map[5 := c2], 2, map[5 := c2.events], []);
    assert Cancelled(t1, 5, WRITE, false)
        == Table(map[5 := c2.(events := c1.events)], 1, map[5 := c1.events], [Resume(2)]);
  }

  /** A slot that went stale: a coroutine waited and was resumed, then a callback waits for the
      same event. Its delivery queues the coroutine a second time. */
  lemma StaleWaiter(f: Closure)
    ensures var t1 := Added(Table(map[], 0, map[], []), 5, WRITE, Waiting(9), false);
            var t2 := Delivered(Added(t1, 5, READ, Waiting(1), false), 5, Report(true, false, false), false);
            var t3 := Added(t2, 5, READ, Calling(f), false);
            && t2.queue == [Resume(1)]
            && 5 in t3.fds
            && Delivered(t3, 5, Report(true, false, false), false).queue == [Resume(1), Resume(1), Call(f)]
  {
    var t1 := Added(Table(map[], 0, map[], []), 5, WRITE, Waiting(9), false);
    var w := Slot(Some(9), None);
    assert t1.fds == map[5 := Ctx(Events(false, true), EMPTY_SLOT, w)];
    var t := Added(t1, 5, READ, Waiting(1), false);
    assert t.fds == map[5 := Ctx(Events(true, true), Slot(Some(1), None), w)];
    var t2 := Delivered(t, 5, Report(true, false, false), false);
    assert t2.fds == map[5 := Ctx(Events(false, true), Slot(Some(1), None), w)];
    var t3 := Added(t2, 5, READ, Calling(f), false);
    assert t3.fds == map[5 := Ctx(Events(true, true), Slot(Some(1), Some(f)), w)];
  }

  lemma LastWrite<V>(m: map<int, V>, k: int, v: V, w: V)
    ensures m[k := v][k := w] == m[k := w] && m[k := v] - {k} == m - {k}
  {
  }

  // ----- The objects -----

  /** One entry; the kernel hands the pointer to it back with every record. */
  class FdContext {
    var fd: int
    var events: Events
    var read: Slot
    var write: Slot

    constructor ()
      ensures Snap() == FRESH_CTX
    {
      fd, events, read, write := 0, NONE, EMPTY_SLOT, EMPTY_SLOT;
    }

    function Snap(): Ctx
      reads this
    {
      Ctx(events, read, write)
    }

    function GetContext(e: Event): Slot
      reads this
    {
      match e case READ => read case WRITE => write
    }
  }

  class IOScheduler {
    var contexts: map<int, FdContext>
    var eventCount: int
    var queue: seq<Wake>
    /** What the entries hold, and what the kernel was told. */
    ghost var fds: map<int, Ctx>
    ghost var kernel: map<int, Events>
    ghost var repr: set<FdContext>

    ghost function State(): Table
      reads this
    {
      Table(fds, eventCount, kernel, queue)
    }

    /** The table is what the entries hold, each of its own descriptor. */
    ghost predicate Mirrors()
      reads `contexts, `fds, `repr, repr
    {
      && contexts.Keys == fds.Keys
      && (forall a | a in contexts :: contexts[a] in repr && contexts[a].fd == a && contexts[a].Snap() == fds[a])
    }

    ghost predicate Valid()
      reads this, repr
    {
      Mirrors() && Watched(State())
    }

    constructor ()
      ensures Valid() && State() == Table(map[], 0, map[], [])
    {
      contexts, eventCount, queue, fds, kernel, repr := map[], 0, [], map[], map[], {};
    }

    /** `epoll_ctl`: every caller proves its operation legal; the environment decides whether
        the call fails all the same. */
    method EpollCtl(op: Op, fd: int, mask: Events, fails: bool) returns (ret: int)
      requires LegalOp(kernel, op, fd)
      modifies `kernel
      ensures (ret == 0) == !fails
      ensures kernel == if fails then old(kernel) else Control(old(kernel), op, fd, mask)
    {
      if fails {
        return -1;
      }
      ret := 0;
      kernel := Control(kernel, op, fd, mask);
    }

    /** This is the entry of the descriptor. */
    ghost predicate Owns(ctx: FdContext, fd: int)
      reads `contexts, `fds, `repr, ctx
    {
      && fd in contexts && contexts[fd] == ctx && ctx in repr && ctx.fd == fd
      && fd in fds && fds[fd] == ctx.Snap()
    }

    method Find(fd: int) returns (ctx: FdContext?)
      requires Mirrors()
      ensures ctx == null <==> fd !in fds
      ensures ctx != null ==> Owns(ctx, fd)
    {
      ctx := if fd in contexts then contexts[fd] else null;
    }

    method GetOrCreate(fd: int) returns (ctx: FdContext)
      requires Mirrors()
      modifies `contexts, `fds, `repr
      ensures Mirrors() && Owns(ctx, fd) && fresh(repr - old(repr))
      ensures fds == old(fds)[fd := Entry(old(State()), fd)]
    {
      if fd in contexts {
        return contexts[fd];
      }
      ctx := new FdContext();
      ctx.fd := fd;
      contexts := contexts[fd := ctx];
      fds := fds[fd := FRESH_CTX];
      repr := repr + {ctx};
    }

    method SetEvents(ctx: FdContext, fd: int, events: Events)
      requires Mirrors() && Owns(ctx, fd)
      modifies ctx`events, `fds
      ensures Mirrors() && Owns(ctx, fd)
      ensures fds == old(fds)[fd := old(fds)[fd].(events := events)]
    {
      ctx.events := events;
      fds := fds[fd := ctx.Snap()];
    }

    method SetContext(ctx: FdContext, fd: int, e: Event, s: Slot)
      requires Mirrors() && Owns(ctx, fd)
      modifies ctx`read, ctx`write, `fds
      ensures Mirrors() && Owns(ctx, fd)
      ensures fds == old(fds)[fd := old(fds)[fd].Put(e, s)]
    {
      match e {
        case READ => ctx.read := s;
        case WRITE => ctx.write := s;
      }
      fds := fds[fd := ctx.Snap()];
    }

    /** New armed events, and a new content for the slot of one. */
    method Change(ctx: FdContext, fd: int, e: Event, events: Events, s: Slot)
      requires Mirrors() && Owns(ctx, fd)
      modifies ctx`events, ctx`read, ctx`write, `fds
      ensures Mirrors() && Owns(ctx, fd)
      ensures fds == old(fds)[fd := old(fds)[fd].(events := events).Put(e, s)]
    {
      hide Mirrors;
      ghost var was := fds;
      SetEvents(ctx, fd, events);
      SetContext(ctx, fd, e, s);
      LastWrite(was, fd, was[fd].(events := events), was[fd].(events := events).Put(e, s));
    }

    method AddEvent(fd: int, e: Event, w: Waiter, fails: bool) returns (r: Outcome)
      requires Valid()
      modifies this, repr
      ensures Valid() && r == AddOutcome(old(State()), fd, e, fails)
      ensures State() == Added(old(State()), fd, e, w, fails)
    {
      hide Watched, Mirrors, Control;
      ghost var t := State();
      AddWatched(t, fd, e, w, fails);
      AddLegal(t, fd);
      var ctx := GetOrCreate(fd);
      if ctx.events.Has(e) {
        assert fds == t.fds;
        return Thrown;
      }
      var op := if ctx.events != NONE then MOD else ADD;
      var ret := EpollCtl(op, fd, ctx.events.With(e), fails);
      if ret != 0 {
        return Refused;
      }
      eventCount := eventCount + 1;
      Change(ctx, fd, e, ctx.events.With(e), Occupied(ctx.GetContext(e), w));
      ghost var c := Entry(t, fd);
      LastWrite(t.fds, fd, c, c.(events := c.events.With(e)).Put(e, Occupied(c.SlotOf(e), w)));
      r := Done;
    }

    method DeleteEventCb(fd: int)
      requires Mirrors()
      modifies `contexts, `fds
      ensures Mirrors() && fds == old(fds) - {fd}
    {
      contexts := contexts - {fd};
      fds := fds - {fd};
    }

    method DelEvent(fd: int, e: Event, fails: bool) returns (ok: bool)
      requires Valid()
      modifies this, repr
      ensures Valid() && (ok <==> Waited(old(State()), fd, e) && !fails)
      ensures State() == Deleted(old(State()), fd, e, fails)
    {
      hide Watched, Mirrors, Control;
      ghost var t := State();
      DelWatched(t, fd, e, fails);
      var ctx := Find(fd);
      if ctx == null || !ctx.events.Has(e) {
        return false;
      }
      var rest := ctx.events.Without(e);
      DropLegal(t, fd, rest);
      var ret := EpollCtl(if rest != NONE then MOD else DEL, fd, rest, fails);
      if ret != 0 {
        return false;
      }
      eventCount := eventCount - 1;
      Change(ctx, fd, e, rest, EMPTY_SLOT);
      ghost var c := t.fds[fd];
      LastWrite(t.fds, fd, c.(events := rest).Put(e, EMPTY_SLOT), c);
      if ctx.events == NONE {
        DeleteEventCb(fd);
      }
      ok := true;
    }

    /** Takes the event off the entry and queues who waited; the slot keeps its content. */
    method TriggerEvent(ctx: FdContext, fd: int, e: Event)
      requires Mirrors() && Owns(ctx, fd)
      modifies ctx`events, `fds, `queue
      ensures Mirrors() && Owns(ctx, fd)
      ensures fds == old(fds)[fd := old(fds)[fd].(events := old(fds)[fd].events.Without(e))]
      ensures queue == old(queue) + Wakes(old(fds)[fd].SlotOf(e))
    {
      SetEvents(ctx, fd, ctx.events.Without(e));
      var slot := ctx.GetContext(e);
      if slot.cor.Some? {
        queue := queue + [Resume(slot.cor.value)];
      }
      if slot.cb.Some? {
        queue := queue + [Call(slot.cb.value)];
      }
    }

    method CancelEvent(fd: int, e: Event, fails: bool) returns (ok: bool)
      requires Valid()
      modifies this, repr
      ensures Valid() && (ok <==> Waited(old(State()), fd, e) && !fails)
      ensures State() == Cancelled(old(State()), fd, e, fails)
    {
      hide Watched, Mirrors, Control;
      ghost var t := State();
      CancelWatched(t, fd, e, fails);
      var ctx := Find(fd);
      if ctx == null || !ctx.events.Has(e) {
        return false;
      }
      var rest := ctx.events.Without(e);
      DropLegal(t, fd, rest);
      var ret := EpollCtl(if rest != NONE then MOD else DEL, fd, rest, fails);
      if ret != 0 {
        return false;
      }
      TriggerEvent(ctx, fd, e);
      eventCount := eventCount - 1;
      LastWrite(t.fds, fd, t.fds[fd].(events := rest), t.fds[fd]);
      if ctx.events == NONE {
        DeleteEventCb(fd);
      }
      ok := true;
    }

    /** The handling of one record in the poll loop, whose entry is still there. */
    method Handle(fd: int, r: Report, fails: bool)
      requires Valid() && fd in fds
      modifies this, repr
      ensures Valid() && State() == Delivered(old(State()), fd, r, fails)
    {
      hide Watched, Mirrors, Control;
      ghost var t := State();
      DeliverWatched(t, fd, r, fails);
      var ctx := Find(fd);
      var readable, writable := r.readable, r.writable;
      if r.broken {
        readable, writable := readable || ctx.events.read, writable || ctx.events.write;
      }
      var ready := Events(readable, writable);
      if ctx.events.And(ready) == NONE {
        return;
      }
      var rest := ctx.events.Minus(ready);
      var op := if rest != NONE then MOD else DEL;
      DropLegal(t, fd, rest);
      var ret := EpollCtl(op, fd, rest, fails);
      if ret != 0 {
        return;
      }
      TriggerReady(ctx, fd, ready);
      LastWrite(t.fds, fd, t.fds[fd].(events := rest), t.fds[fd]);
      if op == DEL {
        DeleteEventCb(fd);
      }
      assert State() == Delivered(t, fd, r, fails);
    }

    /** Both triggers of a record. */
    method TriggerReady(ctx: FdContext, fd: int, ready: Events)
      requires Mirrors() && Owns(ctx, fd)
      modifies ctx`events, `fds, `queue, `eventCount
      ensures Mirrors() && Owns(ctx, fd) && eventCount == old(eventCount) - ready.Count()
      ensures fds == old(fds)[fd := old(fds)[fd].(events := old(fds)[fd].events.Minus(ready))]
      ensures queue == old(queue) + ((if ready.read then Wakes(old(fds)[fd].read) else [])
                                     + if ready.write then Wakes(old(fds)[fd].write) else [])
    {
      hide Mirrors;
      ghost var c := fds[fd];
      ghost var c1 := if ready.read then c.(events := c.events.Without(READ)) else c;
      LastWrite(fds, fd, c1, c.(events := c.events.Minus(ready)));
      if ready.read {
        TriggerEvent(ctx, fd, READ);
        eventCount := eventCount - 1;
      }
      if ready.write {
        TriggerEvent(ctx, fd, WRITE);
        eventCount := eventCount - 1;
      }
    }
  }
}
