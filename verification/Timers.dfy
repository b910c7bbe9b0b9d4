/** The timer set (`TimerManage`): an ordered set whose keys are fields of its members that
the operations change, and the waiting time the poll loop derives from it. */
module Timers {
  import opened MachineInt

  const TWO_TO_THE_64: int := 0x1_0000_0000_0000_0000
  const MAX_TIMEOUT: int := 3000

  type U64 = x: int | 0 <= x < TWO_TO_THE_64

  const ALL_ONES: U64 := 0xFFFF_FFFF_FFFF_FFFF

  /** Unsigned 64-bit arithmetic. */
  function Wrap(x: int): U64 { x % TWO_TO_THE_64 }

  /** A member of the set as its fields stand: the key is (next, addr). */
  datatype Armed = Armed(next: U64, addr: nat, ms: U64, recurring: bool, cb: nat)

  /** The comparator on two timers: deadline first, then address. */
  predicate Before(a: Armed, b: Armed) {
    a.next < b.next || (a.next == b.next && a.addr < b.addr)
  }

  ghost predicate InOrder(s: seq<Armed>, i: nat, j: nat)
    requires i < |s| && j < |s|
  {
    i < j ==> Before(s[i], s[j]) && s[i].addr != s[j].addr
  }

  /** Strictly ascending by current key, one entry an address. */
  ghost predicate Ordered(s: seq<Armed>) {
    forall i, j | 0 <= i < |s| && 0 <= j < |s| :: InOrder(s, i, j)
  }

  /** `lower_bound`: the first member that is not before the probe. */
  function LowerBound(s: seq<Armed>, probe: Armed): (i: nat)
    ensures i <= |s|
  {
    if s == [] || !Before(s[0], probe) then 0 else 1 + LowerBound(s[1..], probe)
  }

  lemma {:induction false} LowerBoundSplits(s: seq<Armed>, probe: Armed, k: nat)
    requires Ordered(s) && k < |s|
    ensures k < LowerBound(s, probe) <==> Before(s[k], probe)
  {
    if Before(s[0], probe) && k > 0 {
      TailOrdered(s, 1);
      LowerBoundSplits(s[1..], probe, k - 1);
    } else {
      assert InOrder(s, 0, k);
    }
  }

  lemma TailOrdered(s: seq<Armed>, n: nat)
    requires Ordered(s) && n <= |s|
    ensures Ordered(s[n..]) && Ordered(s[..n])
  {
    forall i, j | 0 <= i < |s| - n && 0 <= j < |s| - n ensures InOrder(s[n..], i, j) {
      assert InOrder(s, n + i, n + j);
    }
    forall i, j | 0 <= i < n && 0 <= j < n ensures InOrder(s[..n], i, j) {
      assert InOrder(s, i, j);
    }
  }

  /** `insert`: at the lower bound, unless an equivalent member is there. */
  function Insert(s: seq<Armed>, a: Armed): seq<Armed> {
    var i := LowerBound(s, a);
    if i < |s| && !Before(a, s[i]) then s else s[..i] + [a] + s[i..]
  }

  /** No member lives at this address. */
  ghost predicate Free(s: seq<Armed>, addr: nat) {
    forall i | 0 <= i < |s| :: s[i].addr != addr
  }

  lemma InsertAt(s: seq<Armed>, a: Armed)
    requires Ordered(s) && Free(s, a.addr)
    ensures var i := LowerBound(s, a); Insert(s, a) == s[..i] + [a] + s[i..]
    ensures Ordered(Insert(s, a))
  {
    var i := LowerBound(s, a);
    if i < |s| {
      LowerBoundSplits(s, a, i);
    }
    var r := s[..i] + [a] + s[i..];
    forall j, k | 0 <= j < |r| && 0 <= k < |r| ensures InOrder(r, j, k) {
      hide LowerBound;
      var oj, ok := if j < i then j else j - 1, if k < i then k else k - 1;
      if j < k {
        if j == i {
          LowerBoundSplits(s, a, ok);
          assert r[k] == s[ok];
        } else if k == i {
          LowerBoundSplits(s, a, oj);
          assert r[j] == s[oj];
        } else {
          assert InOrder(s, oj, ok);
        }
      }
    }
  }

  /** The set without its k-th member. */
  function Without(s: seq<Armed>, k: nat): seq<Armed>
    requires k < |s|
  {
    s[..k] + s[k + 1..]
  }

  lemma WithoutOrdered(s: seq<Armed>, k: nat)
    requires Ordered(s) && k < |s|
    ensures Ordered(Without(s, k)) && Free(Without(s, k), s[k].addr)
  {
    var r := Without(s, k);
    forall i, j | 0 <= i < |r| && 0 <= j < |r| ensures InOrder(r, i, j) {
      assert InOrder(s, if i < k then i else i + 1, if j < k then j else j + 1);
    }
    forall i | 0 <= i < |r| ensures r[i].addr != s[k].addr {
      assert InOrder(s, if i < k then i else k, if i < k then k else i + 1);
    }
  }

  /** `find`: the position of an equivalent member, or the end. */
  function FindAt(s: seq<Armed>, a: Armed): (i: nat)
    ensures i <= |s|
  {
    var i := LowerBound(s, a);
    if i < |s| && !Before(a, s[i]) then i else |s|
  }

  /** Searching by current key finds a member exactly where it stands, and nothing else that
      lives at another address. */
  lemma FindExact(s: seq<Armed>, a: Armed)
    requires Ordered(s)
    ensures forall k | 0 <= k < |s| && s[k] == a :: FindAt(s, a) == k
    ensures FindAt(s, a) < |s| ==> s[FindAt(s, a)].addr == a.addr && s[FindAt(s, a)].next == a.next
  {
    forall k | 0 <= k < |s| && s[k] == a ensures FindAt(s, a) == k {
      LowerBoundSplits(s, a, k);
      var i := LowerBound(s, a);
      LowerBoundSplits(s, a, i);
      assert InOrder(s, i, k);
    }
    var i := LowerBound(s, a);
    if i < |s| {
      LowerBoundSplits(s, a, i);
    }
  }

  /** The set without the timer at an address. */
  function Drop(s: seq<Armed>, addr: nat): seq<Armed> {
    if s == [] then []
    else if s[0].addr == addr then s[1..]
    else [s[0]] + Drop(s[1..], addr)
  }

  lemma {:induction false} DropAt(s: seq<Armed>, k: nat)
    requires Ordered(s) && k < |s|
    ensures Drop(s, s[k].addr) == Without(s, k)
  {
    if k > 0 {
      assert InOrder(s, 0, k);
      TailOrdered(s, 1);
      DropAt(s[1..], k - 1);
    }
  }

  lemma {:induction false} DropFree(s: seq<Armed>, addr: nat)
    requires Free(s, addr)
    ensures Drop(s, addr) == s
  {
    if s != [] {
      DropFree(s[1..], addr);
    }
  }

  /** A timer started over: from now, or from its last start, with a new period. */
  function Restarted(a: Armed, ms: U64, fromNow: bool, now: U64): Armed {
    a.(ms := ms, next := Wrap((if fromNow then now else Wrap(a.next - a.ms)) + ms))
  }

  // ----- Expiry -----

  /** How many leading members are due. */
  function DueCount(s: seq<Armed>, now: U64): (n: nat)
    ensures n <= |s|
  {
    if s == [] || s[0].next > now then 0 else 1 + DueCount(s[1..], now)
  }

  /** The due members are exactly the leading ones. */
  lemma {:induction false} DueIsPrefix(s: seq<Armed>, now: U64, k: nat)
    requires Ordered(s) && k < |s|
    ensures k < DueCount(s, now) <==> s[k].next <= now
  {
    if s[0].next <= now && k > 0 {
      TailOrdered(s, 1);
      DueIsPrefix(s[1..], now, k - 1);
    } else {
      assert InOrder(s, 0, k);
    }
  }

  function Rearm(a: Armed, now: U64): Armed {
    a.(next := Wrap(now + a.ms))
  }

  function PutOne(s: seq<Armed>, a: Armed, now: U64): seq<Armed> {
    if a.recurring then Insert(s, Rearm(a, now)) else s
  }

  /** The recurring ones among the fired go back, in order. */
  function PutBack(s: seq<Armed>, fired: seq<Armed>, now: U64): seq<Armed> {
    if fired == [] then s
    else
      PutOne(PutBack(s, fired[..|fired| - 1], now), fired[|fired| - 1], now)
  }

  function Expire(s: seq<Armed>, now: U64): seq<Armed> {
    var n := DueCount(s, now);
    PutBack(s[n..], s[..n], now)
  }

  lemma MultisetInsert<T>(s: seq<T>, i: nat, x: T)
    requires i <= |s|
    ensures multiset(s[..i] + [x] + s[i..]) == multiset(s) + multiset{x}
  {
    assert s == s[..i] + s[i..];
  }

  lemma InsertFree(s: seq<Armed>, i: nat, a: Armed, addr: nat)
    requires i <= |s| && Free(s, addr) && addr != a.addr
    ensures Free(s[..i] + [a] + s[i..], addr)
  {
  }

  lemma InsertMembers(s: seq<Armed>, a: Armed)
    requires Ordered(s) && Free(s, a.addr)
    ensures multiset(Insert(s, a)) == multiset(s) + multiset{a}
    ensures forall addr | Free(s, addr) && addr != a.addr :: Free(Insert(s, a), addr)
  {
    hide Ordered, Insert, LowerBound, Free;
    InsertAt(s, a);
    MultisetInsert(s, LowerBound(s, a), a);
    forall addr | Free(s, addr) && addr != a.addr ensures Free(Insert(s, a), addr) {
      InsertFree(s, LowerBound(s, a), a, addr);
    }
  }

  /** The fired timers that repeat, with their next deadlines, in firing order. */
  function Rearmed(fired: seq<Armed>, now: U64): seq<Armed> {
    if fired == [] then []
    else
      var r, a := Rearmed(fired[..|fired| - 1], now), fired[|fired| - 1];
      if a.recurring then r + [Rearm(a, now)] else r
  }

  /** Putting back keeps the order and adds exactly the re-armed timers. */
  lemma {:induction false} PutBackKeeps(s: seq<Armed>, fired: seq<Armed>, now: U64)
    requires Ordered(s) && Ordered(fired)
    requires forall k | 0 <= k < |fired| :: Free(s, fired[k].addr)
    ensures Ordered(PutBack(s, fired, now))
    ensures multiset(PutBack(s, fired, now)) == multiset(s) + multiset(Rearmed(fired, now))
    ensures forall addr | Free(s, addr) && Free(fired, addr) :: Free(PutBack(s, fired, now), addr)
  {
    if fired != [] {
      hide Ordered, Insert;
      var last := |fired| - 1;
      var a, before := fired[last], fired[..last];
      TailOrdered(fired, last);
      PutBackKeeps(s, before, now);
      var r := PutBack(s, before, now);
      assert Free(before, a.addr) by {
        LastFree(fired);
      }
      InsertAt(r, Rearm(a, now));
      InsertMembers(r, Rearm(a, now));
      assert forall addr | Free(fired, addr) :: Free(before, addr) && fired[last].addr != addr;
    }
  }

  lemma LastFree(s: seq<Armed>)
    requires Ordered(s) && s != []
    ensures Free(s[..|s| - 1], s[|s| - 1].addr)
  {
    var r := s[..|s| - 1];
    forall i | 0 <= i < |r| ensures r[i].addr != s[|s| - 1].addr {
      assert InOrder(s, i, |s| - 1);
    }
  }

  /** Half way through re-arming: the set is ordered, and the timers still to be handled are
      not in it. */
  lemma PutBackPartly(s: seq<Armed>, now: U64, j: nat)
    requires Ordered(s) && j <= DueCount(s, now)
    ensures var n := DueCount(s, now);
            var r := PutBack(s[n..], s[..j], now);
            && Ordered(r)
            && multiset(r) == multiset(s[n..]) + multiset(Rearmed(s[..j], now))
            && forall k | j <= k < n :: Free(r, s[k].addr)
  {
    var n := DueCount(s, now);
    TailOrdered(s, n);
    TailOrdered(s, j);
    forall k | 0 <= k < n ensures Free(s[n..], s[k].addr) {
      forall i | 0 <= i < |s| - n ensures s[n..][i].addr != s[k].addr {
        assert InOrder(s, k, n + i);
      }
    }
    PutBackKeeps(s[n..], s[..j], now);
    forall k | j <= k < n ensures Free(s[..j], s[k].addr) {
      forall i | 0 <= i < j ensures s[..j][i].addr != s[k].addr {
        assert InOrder(s, i, k);
      }
    }
  }

  lemma PutBackNone(s: seq<Armed>, fired: seq<Armed>, now: U64)
    ensures PutBack(s, fired[..0], now) == s
  {
  }

  lemma PutBackNext(s: seq<Armed>, fired: seq<Armed>, j: nat, now: U64)
    requires j < |fired|
    ensures PutBack(s, fired[..j + 1], now) == PutOne(PutBack(s, fired[..j], now), fired[j], now)
  {
    assert fired[..j + 1][..j] == fired[..j];
  }

  /** An expiry pass keeps the set ordered, loses and duplicates nothing: what is left is what
      was not due, plus each recurring timer that fired, due `ms` after the pass. */
  lemma ExpireConserves(s: seq<Armed>, now: U64)
    requires Ordered(s)
    ensures Ordered(Expire(s, now))
    ensures var n := DueCount(s, now);
            && multiset(Expire(s, now)) == multiset(s[n..]) + multiset(Rearmed(s[..n], now))
            && (forall k | 0 <= k < |s| :: k < n <==> s[k].next <= now)
  {
    PutBackPartly(s, now, DueCount(s, now));
    forall k | 0 <= k < |s| ensures k < DueCount(s, now) <==> s[k].next <= now {
      DueIsPrefix(s, now, k);
    }
  }

  lemma PrefixIsDue(s: seq<Armed>, now: U64, i: nat)
    requires Ordered(s) && i <= |s| && (i < |s| ==> s[i].next > now)
    requires forall k | 0 <= k < i :: s[k].next <= now
    ensures i == DueCount(s, now)
  {
    if i < |s| {
      DueIsPrefix(s, now, i);
    }
    if i > 0 {
      DueIsPrefix(s, now, i - 1);
    }
  }

  lemma CutStart(s: seq<Armed>, probe: Armed)
    requires Ordered(s)
    ensures var i := LowerBound(s, probe);
            && (forall k | 0 <= k < i :: s[k].next <= probe.next)
            && (i < |s| ==> s[i].next >= probe.next)
  {
    forall k | 0 <= k < |s| ensures k < LowerBound(s, probe) <==> Before(s[k], probe) {
      LowerBoundSplits(s, probe, k);
    }
  }

  // ----- The set of timer objects -----

  /** A stored callback; an empty one is dropped when it is handed to the scheduler. */
  datatype Callback = Empty | Run(id: nat)

  class Timer {
    var ms: U64
    var next: U64
    const recurring: bool
    const cb: nat
    /** Where the object lives: fixed, and different for different live objects. */
    const addr: nat

    constructor (ms: U64, cb: nat, recurring: bool, addr: nat, now: U64)
      ensures Snap() == Armed(Wrap(now + ms), addr, ms, recurring, cb)
    {
      this.ms, this.next, this.cb, this.recurring, this.addr := ms, Wrap(now + ms), cb, recurring, addr;
    }

    /** The key a pass searches with: a deadline and whatever address the allocator gave. */
    constructor Probe(next: U64, addr: nat)
      ensures this.next == next && this.addr == addr
    {
      this.ms, this.next, this.cb, this.recurring, this.addr := 0, next, 0, false, addr;
    }

    function Snap(): Armed
      reads this
    {
      Armed(next, addr, ms, recurring, cb)
    }
  }

  function Snaps(ts: seq<Timer>): (s: seq<Armed>)
    reads ts
    ensures |s| == |ts|
  {
    seq(|ts|, i requires 0 <= i < |ts| reads ts => ts[i].Snap())
  }

  lemma NothingDue(s: seq<Armed>, now: U64)
    ensures s == [] || s[0].next > now ==> Expire(s, now) == s && Collected(s, now) == []
  {
    if s == [] || s[0].next > now {
      assert s[DueCount(s, now)..] == s;
    }
  }

  lemma PassResult(s: seq<Armed>, now: U64)
    ensures var n := DueCount(s, now);
            Expire(s, now) == PutBack(s[n..], s[..n], now) && Collected(s, now) == Empties(n) + Callbacks(s[..n])
  {
  }

  /** The timers from the j-th on are still as they were. */
  ghost predicate Unfired(ts: seq<Timer>, s: seq<Armed>, j: nat)
    requires |ts| <= |s|
    reads ts
  {
    forall k | j <= k < |ts| :: ts[k].Snap() == s[k]
  }

  lemma DifferentObjects(ts: seq<Timer>)
    requires Ordered(Snaps(ts))
    ensures forall i, j | 0 <= i < j < |ts| :: ts[i] != ts[j]
  {
    forall i, j | 0 <= i < j < |ts| ensures ts[i] != ts[j] {
      assert InOrder(Snaps(ts), i, j);
    }
  }

  lemma NotListed(ts: seq<Timer>, addr: nat)
    requires Free(Snaps(ts), addr)
    ensures forall t | t in ts :: t.addr != addr
  {
    assert forall i | 0 <= i < |ts| :: Snaps(ts)[i].addr == ts[i].addr;
  }

  class TimerManage {
    var timers: seq<Timer>

    /** The members stand in the order of their current keys. */
    ghost predicate Valid()
      reads this, timers
    {
      Ordered(View())
    }

    ghost function View(): seq<Armed>
      reads this, timers
    {
      Snaps(timers)
    }

    ghost predicate Listed(s: seq<Armed>)
      reads this, timers
    {
      View() == s
    }

    /** Two live timers do not share an address. */
    ghost predicate Located(val: Timer)
      reads this
    {
      forall i | 0 <= i < |timers| && timers[i].addr == val.addr :: timers[i] == val
    }

    constructor ()
      ensures Valid() && timers == []
    {
      timers := [];
    }

    /** `m_timers.find`: the search goes by the current key, and finds exactly the members. */
    method Find(val: Timer) returns (i: nat)
      requires Valid() && Located(val)
      ensures i == |timers| <==> val !in timers
      ensures i <= |timers| && (i < |timers| ==> timers[i] == val)
    {
      i := FindAt(Snaps(timers), val.Snap());
      FindExact(View(), val.Snap());
      if val in timers {
        var k :| 0 <= k < |timers| && timers[k] == val;
        assert View()[k] == val.Snap();
      }
    }

    /** `m_timers.erase` of the k-th member. */
    method Erase(k: nat)
      requires Valid() && k < |timers|
      modifies this
      ensures Valid() && View() == Drop(old(View()), old(timers)[k].addr)
      ensures Free(View(), old(timers)[k].addr) && old(timers)[k] !in timers
      ensures multiset(old(timers)) == multiset(timers) + multiset{old(timers)[k]}
    {
      WithoutOrdered(View(), k);
      DropAt(View(), k);
      ghost var before, val := View(), timers[k];
      assert timers == timers[..k] + [val] + timers[k + 1..];
      timers := timers[..k] + timers[k + 1..];
      assert View() == Without(before, k);
      assert forall i | 0 <= i < |timers| :: timers[i].addr == View()[i].addr;
    }

    /** Puts a timer at its place, unless it is there already; tells whether it is first, which
        wakes the poll loop. */
    method AddTimer(val: Timer) returns (atFront: bool)
      requires Valid() && Located(val)
      modifies this
      ensures Valid() && View() == Insert(old(View()), val.Snap())
      ensures if val in old(timers) then timers == old(timers)
              else multiset(timers) == multiset(old(timers)) + multiset{val}
      ensures atFront <==> timers[0] == val
    {
      ghost var before := View();
      FindExact(before, val.Snap());
      var i := LowerBound(Snaps(timers), val.Snap());
      if i < |timers| && !Before(val.Snap(), timers[i].Snap()) {
        assert timers[i] == val;
        DifferentObjects(timers);
        return i == 0;
      }
      NewIsFree(val);
      InsertAt(before, val.Snap());
      MultisetInsert(timers, i, val);
      timers := timers[..i] + [val] + timers[i..];
      assert View() == before[..i] + [val.Snap()] + before[i..];
      atFront := i == 0;
    }

    /** What the search does not find is not a member, and no member has its address. */
    lemma NewIsFree(val: Timer)
      requires Valid() && Located(val)
      requires var i := LowerBound(View(), val.Snap()); i < |timers| ==> Before(val.Snap(), View()[i])
      ensures val !in timers && Free(View(), val.addr)
    {
      FindExact(View(), val.Snap());
      assert forall k | 0 <= k < |timers| && timers[k] == val :: View()[k] == val.Snap();
      assert forall k | 0 <= k < |timers| :: View()[k].addr == timers[k].addr;
    }

    method CancelTimer(val: Timer) returns (found: bool)
      requires Valid() && Located(val)
      modifies this
      ensures Valid() && (found <==> val in old(timers))
      ensures View() == Drop(old(View()), val.addr) && val !in timers
    {
      var i := Find(val);
      if i < |timers| {
        Erase(i);
        return true;
      }
      assert forall k | 0 <= k < |timers| :: View()[k].addr == timers[k].addr;
      DropFree(View(), val.addr);
      found := false;
    }

    /** Erases first, then changes the key, then inserts at the new place. */
    method RefreshTimer(val: Timer, now: U64) returns (found: bool)
      requires Valid() && Located(val)
      modifies this, val
      ensures Valid() && multiset(timers) == multiset(old(timers))
      ensures found <==> val in old(timers)
      ensures val.Snap() == if found then old(val.Snap()).(next := Wrap(now + old(val.ms))) else old(val.Snap())
      ensures View() == if found then Insert(Drop(old(View()), val.addr), val.Snap()) else old(View())
    {
      hide Ordered, Free, Insert, Drop;
      var i := Find(val);
      if i == |timers| {
        return false;
      }
      Erase(i);
      NotListed(timers, val.addr);
      ghost var rest := View();
      val.next := Wrap(now + val.ms);
      assert View() == rest;
      var _ := AddTimer(val);
      found := true;
    }

    /** With the period unchanged and no new start nothing happens, member or not. */
    method ResetTimer(val: Timer, ms: U64, fromNow: bool, now: U64) returns (ok: bool)
      requires Valid() && Located(val)
      modifies this, val
      ensures Valid() && multiset(timers) == multiset(old(timers))
      ensures ok <==> (ms == old(val.ms) && !fromNow) || val in old(timers)
      ensures var moved := (ms != old(val.ms) || fromNow) && val in old(timers);
              && val.Snap() == (if moved then Restarted(old(val.Snap()), ms, fromNow, now) else old(val.Snap()))
              && View() == if moved then Insert(Drop(old(View()), val.addr), val.Snap()) else old(View())
    {
      hide Ordered, Free, Insert, Drop;
      if ms == val.ms && !fromNow {
        return true;
      }
      var i := Find(val);
      if i == |timers| {
        return false;
      }
      Erase(i);
      NotListed(timers, val.addr);
      ghost var rest := View();
      var t := if fromNow then now else Wrap(val.next - val.ms);
      val.ms := ms;
      val.next := Wrap(t + ms);
      assert View() == rest;
      var _ := AddTimer(val);
      ok := true;
    }

    /** Time to the first deadline: all ones exactly when there is none. */
    method GetNextTimer(now: U64) returns (w: U64)
      requires Valid()
      ensures w == NextWait(View(), now)
    {
      if timers == [] {
        return ALL_ONES;
      }
      var next := timers[0];
      w := if now >= next.next then 0 else next.next - now;
    }

    /** Takes the due timers out, whatever address the probe of the pass happens to have. */
    method TakeDue(now: U64, probeAddr: nat) returns (expired: seq<Timer>)
      requires Valid()
      modifies this
      ensures |expired| == DueCount(old(View()), now) && expired + timers == old(timers)
      ensures View() == old(View())[|expired|..] && Snaps(expired) == old(View())[..|expired|]
      ensures forall i, j | 0 <= i < j < |expired| :: expired[i] != expired[j]
      ensures forall t | t in expired :: t in old(timers)
    {
      var probe := new Timer.Probe(now, probeAddr);
      var i := CutAt(probe);
      DifferentObjects(timers);
      expired := timers[..i];
      timers := timers[i..];
    }

    /** One expiry pass: collects the callbacks of everything due and re-arms what repeats. */
    method ListExpiredCbs(now: U64, probeAddr: nat) returns (cbs: seq<Callback>)
      requires Valid()
      modifies this, timers
      ensures Valid() && View() == Expire(old(View()), now)
      ensures cbs == Collected(old(View()), now)
    {
      hide Ordered, Free, PutOne, PutBack, DueCount, Empties, Callbacks, Expire, Collected;
      NothingDue(View(), now);
      if timers == [] || timers[0].next > now {
        return [];
      }
      ghost var before := View();
      var expired := TakeDue(now, probeAddr);
      assert forall k | 0 <= k < |expired| :: expired[k] in old(timers);
      cbs := RunDue(expired, now, before);
      PassResult(before, now);
    }

    /** The loop over the timers taken out. */
    method RunDue(expired: seq<Timer>, now: U64, ghost before: seq<Armed>) returns (cbs: seq<Callback>)
      requires Ordered(before) && |expired| == DueCount(before, now)
      requires Snaps(expired) == before[..|expired|] && View() == before[|expired|..]
      requires forall i, j | 0 <= i < j < |expired| :: expired[i] != expired[j]
      modifies this, expired
      ensures Valid() && View() == PutBack(before[|expired|..], before[..|expired|], now)
      ensures cbs == Empties(|expired|) + Callbacks(before[..|expired|])
    {
      hide Ordered, Free, PutOne, PutBack, DueCount, Empties, Callbacks;
      ghost var rest := View();
      cbs := Empties(|expired|);
      assert cbs == Empties(|expired|) + Callbacks(before[..0]);
      var j := 0;
      PutBackNone(rest, before, now);
      while j < |expired|
        invariant 0 <= j <= |expired|
        invariant Listed(PutBack(rest, before[..j], now))
        invariant Unfired(expired, before, j)
        invariant cbs == Empties(|expired|) + Callbacks(before[..j])
      {
        CallbacksNext(before, j);
        assert forall k | j < k < |expired| :: expired[k] != expired[j];
        cbs := cbs + [Run(expired[j].cb)];
        FireOne(expired[j], j, now, before);
        j := j + 1;
      }
      PutBackPartly(before, now, j);
    }

    /** The j-th of the due timers goes back. */
    method FireOne(val: Timer, ghost j: nat, now: U64, ghost before: seq<Armed>)
      requires Ordered(before) && j < DueCount(before, now) && val.Snap() == before[j]
      requires Listed(PutBack(before[DueCount(before, now)..], before[..j], now))
      modifies this, val
      ensures Listed(PutBack(before[DueCount(before, now)..], before[..j + 1], now))
    {
      hide Ordered, Free, PutOne, PutBack, DueCount;
      PutBackPartly(before, now, j);
      PutBackNext(before[DueCount(before, now)..], before, j, now);
      AddAgain(val, now);
    }

    /** A fired timer goes back under its new deadline if it repeats. */
    method AddAgain(val: Timer, now: U64)
      requires Valid() && Free(View(), val.addr)
      modifies this, val
      ensures Valid() && View() == PutOne(old(View()), old(val.Snap()), now)
    {
      if !val.recurring {
        return;
      }
      hide Ordered, Free, Insert;
      NotListed(timers, val.addr);
      ghost var rest := View();
      val.next := Wrap(now + val.ms);
      assert View() == rest;
      var _ := AddTimer(val);
    }

    /** Where a pass cuts the set, whatever address its probe happens to have. */
    method CutAt(probe: Timer) returns (i: nat)
      requires Valid()
      ensures i == DueCount(View(), probe.next)
    {
      ghost var s := View();
      CutStart(s, probe.Snap());
      i := LowerBound(Snaps(timers), probe.Snap());
      while i < |timers| && timers[i].next == probe.next
        invariant i <= |timers|
        invariant forall k | 0 <= k < i :: s[k].next <= probe.next
        invariant i < |timers| ==> s[i].next >= probe.next
      {
        assert i + 1 < |s| ==> InOrder(s, i, i + 1);
        i := i + 1;
      }
      PrefixIsDue(s, probe.next, i);
    }
  }

  function NextWait(s: seq<Armed>, now: U64): U64 {
    if s == [] then ALL_ONES else if now >= s[0].next then 0 else s[0].next - now
  }

  function Callbacks(fired: seq<Armed>): (c: seq<Callback>)
    ensures |c| == |fired|
  {
    seq(|fired|, i requires 0 <= i < |fired| => Run(fired[i].cb))
  }

  function Empties(n: nat): (c: seq<Callback>)
    ensures |c| == n
  {
    seq(n, _ => Empty)
  }

  lemma CallbacksNext(fired: seq<Armed>, j: nat)
    requires j < |fired|
    ensures Callbacks(fired[..j + 1]) == Callbacks(fired[..j]) + [Run(fired[j].cb)]
  {
  }

  /** What a pass hands out: one empty callback for each fired timer, then theirs in order. */
  function Collected(s: seq<Armed>, now: U64): seq<Callback> {
    var n := DueCount(s, now);
    Empties(n) + Callbacks(s[..n])
  }

  /** What the scheduler takes over from a list of callbacks: it drops the empty ones. */
  function Handed(cbs: seq<Callback>): seq<nat> {
    if cbs == [] then []
    else (if cbs[0] == Empty then [] else [cbs[0].id]) + Handed(cbs[1..])
  }

  lemma {:induction false} HandedEmpties(n: nat, more: seq<Callback>)
    ensures Handed(Empties(n) + more) == Handed(more)
  {
    if n == 0 {
      assert Empties(0) + more == more;
    } else {
      assert (Empties(n) + more)[1..] == Empties(n - 1) + more;
      HandedEmpties(n - 1, more);
    }
  }

  lemma {:induction false} HandedCallbacks(fired: seq<Armed>)
    ensures |Handed(Callbacks(fired))| == |fired|
    ensures forall k | 0 <= k < |fired| :: Handed(Callbacks(fired))[k] == fired[k].cb
  {
    if fired != [] {
      assert Callbacks(fired)[1..] == Callbacks(fired[1..]);
      HandedCallbacks(fired[1..]);
    }
  }

  /** Each due timer's callback reaches the scheduler once, in deadline order, and nothing else
      does. */
  lemma EachDueOnce(s: seq<Armed>, now: U64)
    ensures var h := Handed(Collected(s, now));
            |h| == DueCount(s, now) && forall k | 0 <= k < |h| :: h[k] == s[k].cb
  {
    var n := DueCount(s, now);
    HandedEmpties(n, Callbacks(s[..n]));
    HandedCallbacks(s[..n]);
  }

  /** Restarting from the last start keeps that start, unless the numbers wrap. */
  lemma RestartKeepsStart(a: Armed, ms: U64, now: U64)
    requires a.next >= a.ms && a.next - a.ms + ms < TWO_TO_THE_64
    ensures Restarted(a, ms, false, now).next - ms == a.next - a.ms
  {
  }

  // ----- The waiting time of the poll loop -----

  /** The wait is the time to the earliest deadline of all: 0 exactly when one is due, all
      ones exactly when there is none to wait for (or it is the last instant, seen from 0). */
  lemma NextWaitIsMinimum(s: seq<Armed>, now: U64)
    requires Ordered(s)
    ensures NextWait(s, now) == ALL_ONES <==> s == [] || (now == 0 && s[0].next == ALL_ONES)
    ensures NextWait(s, now) == 0 <==> exists k :: 0 <= k < |s| && s[k].next <= now
    ensures s != [] ==> forall k | 0 <= k < |s| :: now + NextWait(s, now) <= s[k].next || s[k].next <= now
    ensures s != [] && NextWait(s, now) > 0 ==> exists k :: 0 <= k < |s| && s[k].next == now + NextWait(s, now)
  {
    forall k | 0 <= k < |s| ensures s[0].next <= s[k].next {
      assert InOrder(s, 0, k);
    }
    if s != [] && NextWait(s, now) > 0 {
      assert s[0].next == now + NextWait(s, now);
    }
  }

  /** The wait before `epoll_wait`: compared after truncation, kept as 64 bits. */
  function Clamp(w: U64): U64 {
    if w != ALL_ONES then (if ToInt(w) > MAX_TIMEOUT then MAX_TIMEOUT else w) else MAX_TIMEOUT
  }

  /** What `epoll_wait` is told; a negative number means for ever. */
  function PollTimeout(w: U64): int { ToInt(Clamp(w)) }

  /** The poll sleeps the smaller of the limit and the time to the next deadline exactly when
      truncating that time to 32 bits does not hide how long it is. */
  lemma PollTimeoutIsMinimum(w: U64)
    ensures PollTimeout(w) == (if w < MAX_TIMEOUT then w else MAX_TIMEOUT) <==>
              w < 0x8000_0000 || w == ALL_ONES || MAX_TIMEOUT <= w % 0x1_0000_0000 < 0x8000_0000
    ensures PollTimeout(Clamp(w)) == PollTimeout(w)
  {
  }

  /** A deadline 2^31 ms away makes the poll sleep without any limit. */
  lemma PollForever()
    ensures PollTimeout(0x8000_0000) < 0
  {
  }

  /** When the poll was to sleep until the next deadline and did, the pass after it fires. */
  lemma WokenPassFires(s: seq<Armed>, now: U64, later: U64)
    requires Ordered(s) && s != [] && NextWait(s, now) < MAX_TIMEOUT
    requires later >= now + PollTimeout(NextWait(s, now))
    ensures DueCount(s, later) >= 1
  {
    PollTimeoutIsMinimum(NextWait(s, now));
  }

  // ----- Runs -----

  /** One critical section on the set. */
  datatype Op =
    | Add(a: Armed)
    | Cancel(addr: nat)
    | Restart(a: Armed)
    | Pass(now: U64)

  /** A timer is added where no other lives. */
  ghost predicate Legal(s: seq<Armed>, op: Op) {
    op.Add? ==> Free(s, op.a.addr)
  }

  ghost function Apply(s: seq<Armed>, op: Op): seq<Armed> {
    match op
    case Add(a) => Insert(s, a)
    case Cancel(addr) => Drop(s, addr)
    case Restart(a) => if Free(s, a.addr) then s else Insert(Drop(s, a.addr), a)
    case Pass(now) => Expire(s, now)
  }

  /** The operation is on the timer at this address. */
  predicate Touches(op: Op, addr: nat) {
    match op
    case Add(a) => a.addr == addr
    case Cancel(b) => b == addr
    case Restart(a) => a.addr == addr
    case Pass(_) => false
  }

  ghost function After(s: seq<Armed>, ops: seq<Op>): seq<Armed> {
    if ops == [] then s else Apply(After(s, ops[..|ops| - 1]), ops[|ops| - 1])
  }

  ghost predicate DueAt(s: seq<Armed>, addr: nat, now: U64) {
    exists i :: 0 <= i < |s| && s[i].addr == addr && s[i].next <= now
  }

  /** The firing times with one more operation. */
  ghost function Fired(s: seq<Armed>, op: Op, addr: nat, f: seq<U64>): seq<U64> {
    if op.Pass? && DueAt(s, addr, op.now) then f + [op.now] else f
  }

  /** The times at which a run fires the timer at this address. */
  ghost function Firings(s: seq<Armed>, ops: seq<Op>, addr: nat): seq<U64> {
    if ops == [] then []
    else
      Fired(After(s, ops[..|ops| - 1]), ops[|ops| - 1], addr, Firings(s, ops[..|ops| - 1], addr))
  }

  /** A run of legal operations under a clock that does not go back. */
  ghost predicate Clocked(s: seq<Armed>, ops: seq<Op>, start: U64, end: U64)
    decreases |ops|
  {
    if ops == [] then start <= end
    else
      var op, init := ops[|ops| - 1], ops[..|ops| - 1];
      && Legal(After(s, init), op)
      && if op.Pass? then op.now <= end && Clocked(s, init, start, op.now) else Clocked(s, init, start, end)
  }

  lemma ApplyOrdered(s: seq<Armed>, op: Op)
    requires Ordered(s) && Legal(s, op)
    ensures Ordered(Apply(s, op))
  {
    match op
    case Add(a) => InsertAt(s, a);
    case Cancel(addr) => DropKeeps(s, addr);
    case Restart(a) =>
      DropKeeps(s, a.addr);
      InsertAt(Drop(s, a.addr), a);
    case Pass(now) => ExpireConserves(s, now);
  }

  lemma DropKeeps(s: seq<Armed>, addr: nat)
    requires Ordered(s)
    ensures Ordered(Drop(s, addr)) && Free(Drop(s, addr), addr)
    ensures forall x | x in s && x.addr != addr :: x in Drop(s, addr)
  {
    if k: nat :| k < |s| && s[k].addr == addr {
      DropAt(s, k);
      WithoutOrdered(s, k);
    } else {
      DropFree(s, addr);
    }
  }

  lemma {:induction false} RearmedHas(fired: seq<Armed>, now: U64, k: nat)
    requires k < |fired| && fired[k].recurring
    ensures Rearm(fired[k], now) in Rearmed(fired, now)
  {
    if k < |fired| - 1 {
      RearmedHas(fired[..|fired| - 1], now, k);
    }
  }

  /** An operation on another timer leaves this one as it is; a pass fires it if it is due. */
  lemma ApplyKeeps(s: seq<Armed>, op: Op, x: Armed)
    requires Ordered(s) && Legal(s, op) && x in s && x.recurring && !Touches(op, x.addr)
    ensures (if op.Pass? && x.next <= op.now then Rearm(x, op.now) else x) in Apply(s, op)
  {
    match op
    case Add(a) =>
      InsertAt(s, a);
    case Cancel(addr) => DropKeeps(s, addr);
    case Restart(a) =>
      DropKeeps(s, a.addr);
      InsertAt(Drop(s, a.addr), a);
    case Pass(now) =>
      ExpireConserves(s, now);
      var n := DueCount(s, now);
      var k :| 0 <= k < |s| && s[k] == x;
      assert k < n <==> x.next <= now;
      if k < n {
        assert s[..n][k] == x;
        RearmedHas(s[..n], now, k);
        assert Rearm(x, now) in multiset(Rearmed(s[..n], now));
        assert Rearm(x, now) in multiset(Expire(s, now));
      } else {
        assert s[n..][k - n] == x;
        assert x in multiset(s[n..]);
        assert x in multiset(Expire(s, now));
      }
  }

  /** Strictly at least `ms` between two firings. */
  ghost predicate Spaced(f: seq<U64>, ms: U64) {
    forall i, j | 0 <= i < j < |f| :: f[i] + (j - i) * ms <= f[j]
  }

  /** The timer as it stands after the firings f. */
  function Current(x: Armed, f: seq<U64>): Armed {
    if f == [] then x else Rearm(x, f[|f| - 1])
  }

  /** Every operation of every legal run keeps the set strictly ordered by current keys. */
  lemma {:induction false} RunOrdered(s: seq<Armed>, ops: seq<Op>, start: U64, end: U64)
    requires Ordered(s) && Clocked(s, ops, start, end)
    ensures Ordered(After(s, ops))
    decreases |ops|
  {
    if ops != [] {
      var init, op := ops[..|ops| - 1], ops[|ops| - 1];
      RunOrdered(s, init, start, if op.Pass? then op.now else end);
      ApplyOrdered(After(s, init), op);
    }
  }

  lemma OneAddress(s: seq<Armed>, x: Armed, now: U64)
    requires Ordered(s) && x in s
    ensures DueAt(s, x.addr, now) <==> x.next <= now
  {
    var k :| 0 <= k < |s| && s[k] == x;
    forall i | 0 <= i < |s| && s[i].addr == x.addr ensures i == k {
      assert InOrder(s, i, k) && InOrder(s, k, i);
    }
  }

  lemma SpacedMore(f: seq<U64>, ms: U64, now: U64)
    requires Spaced(f, ms) && (f != [] ==> f[|f| - 1] + ms <= now)
    ensures Spaced(f + [now], ms)
  {
    var g := f + [now];
    forall i, j | 0 <= i < j < |g| ensures g[i] + (j - i) * ms <= g[j] {
      if j == |f| && i < |f| - 1 {
        assert f[i] + (|f| - 1 - i) * ms <= f[|f| - 1];
        assert (j - i) * ms == (|f| - 1 - i) * ms + ms;
      }
    }
  }

  /** What a history f of firings says about a timer that is now in the set s. */
  ghost predicate History(s: seq<Armed>, x: Armed, f: seq<U64>, end: U64) {
    && Current(x, f) in s
    && Spaced(f, x.ms)
    && (f != [] ==> x.next <= f[0] && f[|f| - 1] <= end)
  }

  lemma HistoryStep(s: seq<Armed>, op: Op, x: Armed, f: seq<U64>, end: U64)
    requires Ordered(s) && Legal(s, op) && x.recurring && !Touches(op, x.addr)
    requires end + x.ms < TWO_TO_THE_64 && (op.Pass? ==> op.now == end)
    requires History(s, x, f, end)
    ensures History(Apply(s, op), x, Fired(s, op, x.addr, f), end)
  {
    hide Ordered, Apply, Spaced, DueAt;
    ApplyKeeps(s, op, Current(x, f));
    if op.Pass? {
      OneAddress(s, Current(x, f), op.now);
      if Current(x, f).next <= op.now {
        SpacedMore(f, x.ms, op.now);
        assert Current(x, f + [op.now]) == Rearm(x, op.now);
      }
    }
  }

  /** Between restarts, and while deadlines fit 64 bits, a recurring timer never fires twice
      within its period, whatever else happens to the set; nor before its first deadline. */
  lemma {:induction false} FiringsSpaced(s: seq<Armed>, ops: seq<Op>, x: Armed, start: U64, end: U64)
    requires Ordered(s) && x in s && x.recurring && Clocked(s, ops, start, end)
    requires end + x.ms < TWO_TO_THE_64 && forall k | 0 <= k < |ops| :: !Touches(ops[k], x.addr)
    ensures History(After(s, ops), x, Firings(s, ops, x.addr), end)
    decreases |ops|
  {
    if ops == [] {
      assert Spaced([], x.ms);
    } else {
      hide Ordered, Apply, Spaced, Fired, Current, Legal;
      var init, op := ops[..|ops| - 1], ops[|ops| - 1];
      var until := if op.Pass? then op.now else end;
      FiringsSpaced(s, init, x, start, until);
      RunOrdered(s, init, start, until);
      HistoryStep(After(s, init), op, x, Firings(s, init, x.addr), until);
    }
  }

  lemma ProductMonotone(a: nat, b: nat, c: nat)
    requires a <= b
    ensures a * c <= b * c
  {
  }

  lemma QuotientBound(a: nat, ms: nat, T: nat)
    requires ms > 0 && a * ms <= T
    ensures a <= T / ms
  {
    var q := T / ms;
    assert T < q * ms + ms == (q + 1) * ms;
    if q + 1 <= a {
      ProductMonotone(q + 1, a, ms);
    }
  }

  lemma WindowBound(f: seq<U64>, ms: U64, i: nat, j: nat, T: nat)
    requires Spaced(f, ms) && ms > 0 && i <= j < |f| && f[j] - f[i] <= T
    ensures j - i + 1 <= T / ms + 1
  {
    if i < j {
      assert f[i] + (j - i) * ms <= f[j];
      QuotientBound(j - i, ms, T);
    }
  }

  /** Hence no window of length T of a run sees more than T / ms + 1 firings of a timer that is
      not restarted in it, and none of them comes before the timer's first deadline. */
  lemma FiringsInWindow(s: seq<Armed>, ops: seq<Op>, x: Armed, start: U64, end: U64, i: nat, j: nat, T: nat)
    requires Ordered(s) && x in s && x.recurring && x.ms > 0 && Clocked(s, ops, start, end)
    requires end + x.ms < TWO_TO_THE_64 && forall k | 0 <= k < |ops| :: !Touches(ops[k], x.addr)
    requires i <= j < |Firings(s, ops, x.addr)|
    requires Firings(s, ops, x.addr)[j] - Firings(s, ops, x.addr)[i] <= T
    ensures j - i + 1 <= T / x.ms + 1 && Firings(s, ops, x.addr)[i] >= x.next
  {
    hide Ordered, Firings, Clocked, Current;
    FiringsSpaced(s, ops, x, start, end);
    WindowBound(Firings(s, ops, x.addr), x.ms, i, j, T);
    if i > 0 {
      WindowStart(Firings(s, ops, x.addr), x.ms, i);
    }
  }

  lemma WindowStart(f: seq<U64>, ms: U64, i: nat)
    requires Spaced(f, ms) && 0 < i < |f|
    ensures f[0] <= f[i]
  {
    assert f[0] + (i - 0) * ms <= f[i];
    ProductMonotone(0, i, ms);
  }

  /** The 64-bit sum is what the spacing rests on: a re-armed timer is due later than now
      exactly when its period is not 0 and the sum does not wrap. */
  lemma RearmedLater(a: Armed, now: U64)
    ensures Rearm(a, now).next > now <==> a.ms > 0 && now + a.ms < TWO_TO_THE_64
  {
  }
}
