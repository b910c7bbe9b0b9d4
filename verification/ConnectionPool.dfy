/** The database connection pool: idle connections in the order they were last used, leases,
and the two background threads that make and remove connections. Every method is one critical
section under the pool's mutex, so what all of them keep holds for every interleaving. */
module ConnectionPool {
  import opened Optional

  // ----- The scan, on the last-use times of the idle connections -----

  predicate OverAge(time: nat, now: nat, maxIdle: nat) { now >= time + maxIdle }

  ghost predicate InOrder(times: seq<nat>, i: nat, j: nat)
    requires i < |times| && j < |times|
  {
    i < j ==> times[i] <= times[j]
  }

  ghost predicate Ascending(times: seq<nat>) {
    forall i, j | 0 <= i < |times| && 0 <= j < |times| :: InOrder(times, i, j)
  }

  /** What one scan leaves: it looks at the front while there are more connections than the
      minimum, and stops at the first that is young enough. The clock is read anew for each
      connection looked at, `nows[0]` first. Looking at the front of an empty list is
      undefined: `None`. */
  function Scan(times: seq<nat>, leased: nat, min: int, nows: seq<nat>, maxIdle: nat): Option<seq<nat>>
    requires |nows| >= |times|
  {
    if |times| + leased <= min then Some(times)
    else if times == [] then None
    else if OverAge(times[0], nows[0], maxIdle) then Scan(times[1..], leased, min, nows[1..], maxIdle)
    else Some(times)
  }

  /** The scan runs off an empty list exactly when more connections than the minimum are out on
      lease and every idle one is over age when its turn comes. */
  lemma {:induction false} ScanUndefined(times: seq<nat>, leased: nat, min: int, nows: seq<nat>, maxIdle: nat)
    requires |nows| >= |times|
    ensures Scan(times, leased, min, nows, maxIdle) == None <==>
              leased > min && forall i | 0 <= i < |times| :: OverAge(times[i], nows[i], maxIdle)
  {
    if times != [] {
      ScanUndefined(times[1..], leased, min, nows[1..], maxIdle);
      assert forall i | 0 <= i < |times| - 1 :: times[1..][i] == times[i + 1] && nows[1..][i] == nows[i + 1];
      assert forall i | 0 < i < |times| :: times[i] == times[1..][i - 1] && nows[i] == nows[1..][i - 1];
    }
  }

  lemma ScanStep(times: seq<nat>, leased: nat, min: int, nows: seq<nat>, maxIdle: nat)
    requires |nows| >= |times| && Scan(times, leased, min, nows, maxIdle).Some?
    ensures |times| + leased <= min ==> Scan(times, leased, min, nows, maxIdle) == Some(times)
    ensures |times| + leased > min ==> times != []
    ensures |times| + leased > min && OverAge(times[0], nows[0], maxIdle) ==>
              Scan(times, leased, min, nows, maxIdle) == Scan(times[1..], leased, min, nows[1..], maxIdle)
    ensures |times| + leased > min && !OverAge(times[0], nows[0], maxIdle) ==>
              Scan(times, leased, min, nows, maxIdle) == Some(times)
  {
  }

  lemma TailAscending(times: seq<nat>, n: nat)
    requires Ascending(times) && n <= |times|
    ensures Ascending(times[n..])
  {
    forall i, j | 0 <= i < |times| - n && 0 <= j < |times| - n ensures InOrder(times[n..], i, j) {
      assert InOrder(times, n + i, n + j);
    }
  }

  /** Because the list is ordered by age, stopping at the first young connection is enough: the
      scan drops a prefix of over-age ones, and either is down to the minimum or leaves none
      that was over age when the clock was last read. */
  lemma {:induction false} ScanLeavesNoOverAge(
      times: seq<nat>, leased: nat, min: int, nows: seq<nat>, maxIdle: nat)
    requires Ascending(times) && |nows| >= |times| && Scan(times, leased, min, nows, maxIdle).Some?
    ensures var rest := Scan(times, leased, min, nows, maxIdle).value;
            var n := |times| - |rest|;
            && 0 <= n && rest == times[n..]
            && (forall i | 0 <= i < n :: OverAge(times[i], nows[i], maxIdle))
            && (|rest| + leased <= min || forall i | 0 <= i < |rest| :: !OverAge(rest[i], nows[n], maxIdle))
            && (|times| + leased >= min ==> |rest| + leased >= min)
  {
    if |times| + leased > min && OverAge(times[0], nows[0], maxIdle) {
      TailAscending(times, 1);
      ScanLeavesNoOverAge(times[1..], leased, min, nows[1..], maxIdle);
      assert forall i | 0 < i < |times| :: times[i] == times[1..][i - 1] && nows[i] == nows[1..][i - 1];
    } else if |times| + leased > min {
      forall i | 0 <= i < |times| ensures !OverAge(times[i], nows[0], maxIdle) {
        assert InOrder(times, 0, i);
      }
    }
  }

  lemma LaterReadings(nows: seq<nat>, n: nat)
    requires Ascending(nows) && n < |nows|
    ensures forall i | n <= i < |nows| :: nows[i] >= nows[n]
  {
    forall i | n <= i < |nows| ensures nows[i] >= nows[n] {
      assert InOrder(nows, n, i);
    }
  }

  // ----- The pool -----

  class Connection {
    /** When it was last used. */
    var time: nat

    constructor (now: nat)
      ensures time == now
    {
      time := now;
    }
  }

  function Times(cs: seq<Connection>): (times: seq<nat>)
    reads cs
    ensures |times| == |cs|
  {
    seq(|cs|, i requires 0 <= i < |cs| reads cs => cs[i].time)
  }

  ghost predicate Different(cs: seq<Connection>) {
    forall i, j | 0 <= i < j < |cs| :: cs[i] != cs[j]
  }

  class Pool {
    var list: seq<Connection>
    var count: int
    const min: int
    const max: int
    const maxIdle: nat
    ghost var leased: set<Connection>
    /** The time of the last critical section. */
    ghost var clock: nat

    /** Idle plus leased is the count, nothing is both or twice, the idle ones are in order of
        last use, and the count is within the larger of the two bounds. */
    ghost predicate Valid()
      reads this, list
    {
      && count == |list| + |leased|
      && Different(list) && (forall c | c in list :: c !in leased)
      && Ascending(Times(list)) && (forall i | 0 <= i < |list| :: list[i].time <= clock)
      && (count <= 0 || count <= min || count <= max)
    }

    /** A pool that has reached its minimum: with bounds in order, `min <= count <= max`. */
    ghost predicate Filled()
      reads this, list
      ensures Filled() && 0 <= min <= max ==> min <= count <= max
    {
      Valid() && min <= count
    }

    lemma LaterAscending(cs: seq<Connection>, c: Connection)
      requires Ascending(Times(cs)) && forall i | 0 <= i < |cs| :: cs[i].time <= c.time
      ensures Ascending(Times(cs + [c]))
    {
      var times := Times(cs + [c]);
      forall i, j | 0 <= i < |times| && 0 <= j < |times| ensures InOrder(times, i, j) {
        if j < |cs| && i < |cs| {
          assert InOrder(Times(cs), i, j);
        }
      }
    }

    /** Connects, when the server lets it. */
    method AddConnection(now: nat, connects: bool)
      requires Valid() && now >= clock && (count < min || count < max)
      modifies `list, `count, `clock
      ensures Valid() && clock == now
      ensures old(Filled()) ==> Filled()
      ensures count == old(count) + (if connects then 1 else 0) && forall c | c in list :: c in old(list) || fresh(c)
      ensures if connects then |list| == |old(list)| + 1 && list[..|old(list)|] == old(list) && fresh(list[|old(list)|])
              else list == old(list)
    {
      hide Ascending, InOrder, OverAge;
      clock := now;
      if !connects {
        return;
      }
      var conn := new Connection(now);
      LaterAscending(list, conn);
      list := list + [conn];
      count := count + 1;
    }

    /** One round of the producer: it has waited until too few connections are idle. */
    method Produce(now: nat, connects: bool)
      requires Valid() && now >= clock
      modifies `list, `count, `clock
      ensures Valid() && clock == now && (old(Filled()) ==> Filled())
      ensures var adds := |old(list)| < min && old(count) < max && connects;
              && count == old(count) + (if adds then 1 else 0)
              && (if adds then |list| == |old(list)| + 1 && list[..|old(list)|] == old(list) && fresh(list[|old(list)|])
                  else list == old(list))
    {
      clock := now;
      if |list| >= min {
        return;
      }
      if count < max {
        AddConnection(now, connects);
      }
    }

    /** One pass of the scanner, the clock rising as it is read. Its precondition is exactly that
        it never looks at the front of an empty list (see `ScanUndefined`). */
    method ScanPass(nows: seq<nat>)
      requires Valid() && |nows| >= |list| && Ascending(nows) && forall i | 0 <= i < |nows| :: nows[i] >= clock
      requires Scan(Times(list), |leased|, min, nows, maxIdle).Some?
      modifies `list, `count, `clock
      ensures Valid() && (clock == old(clock) || clock in nows) && (old(Filled()) ==> Filled())
      ensures |list| <= |old(list)| && list == old(list)[|old(list)| - |list|..]
      ensures Some(Times(list)) == old(Scan(Times(list), |leased|, min, nows, maxIdle))
    {
      hide Scan, InOrder, Ascending, Different;
      var n := 0;
      ghost var all := list;
      assert nows[0..] == nows;
      while count > min
        invariant 0 <= n <= |all| && list == all[n..]
        invariant Valid() && (old(count) >= min ==> count >= min)
        invariant clock == old(clock) || clock in nows
        invariant forall i | n <= i < |nows| :: nows[i] >= clock
        invariant Scan(Times(list), |leased|, min, nows[n..], maxIdle)
                  == Scan(Times(all), |leased|, min, nows, maxIdle)
        decreases |list|
      {
        ScanStep(Times(list), |leased|, min, nows[n..], maxIdle);
        var conn := list[0];
        var now := nows[n];
        clock := now;
        LaterReadings(nows, n);
        if now - conn.time >= maxIdle {
          PopFront();
          assert nows[n..][1..] == nows[n + 1..];
          n := n + 1;
        } else {
          break;
        }
      }
      ScanStep(Times(list), |leased|, min, nows[n..], maxIdle);
    }

    /** The oldest connection is removed and deleted. */
    method PopFront()
      requires Valid() && list != []
      modifies `list, `count
      ensures Valid() && list == old(list)[1..] && Times(list) == old(Times(list))[1..] && count == old(count) - 1
    {
      TailAscending(Times(list), 1);
      assert Times(list[1..]) == Times(list)[1..];
      list := list[1..];
      count := count - 1;
    }

    /** Takes the connection unused the longest; the caller has waited until there is one. */
    method GetConnection(now: nat) returns (conn: Connection)
      requires Valid() && now >= clock && list != []
      modifies `list, `leased, `clock
      ensures Valid() && clock == now && count == old(count) && (old(Filled()) ==> Filled())
      ensures conn == old(list)[0] && list == old(list)[1..] && leased == old(leased) + {conn}
      ensures conn !in old(leased)
    {
      clock := now;
      conn := list[0];
      TailAscending(Times(list), 1);
      assert Times(list[1..]) == Times(list)[1..];
      leased := leased + {conn};
      list := list[1..];
    }

    /** What dropping the last reference to a lease does. */
    method ReturnConnection(conn: Connection, now: nat)
      requires Valid() && now >= clock && conn in leased
      modifies this, conn
      ensures Valid() && clock == now && conn.time == now && count == old(count) && (old(Filled()) ==> Filled())
      ensures list == old(list) + [conn] && leased == old(leased) - {conn}
    {
      clock := now;
      ghost var times := Times(list);
      conn.time := now;
      assert Times(list) == times;
      LaterAscending(list, conn);
      leased := leased - {conn};
      list := list + [conn];
    }

    /** Fills the pool to its minimum, as far as the server lets it. */
    constructor (min: int, max: int, maxIdle: nat, now: nat, connects: seq<bool>)
      requires |connects| >= min
      ensures Valid() && leased == {} && this.min == min && this.max == max && this.maxIdle == maxIdle
      ensures clock == now
      ensures min >= 0 && (forall i | 0 <= i < min :: connects[i]) ==> count == min && Filled()
    {
      this.min, this.max, this.maxIdle := min, max, maxIdle;
      list, count, leased, clock := [], 0, {}, now;
      new;
      var i := 0;
      while i < min
        invariant 0 <= i <= |connects| && (min >= 0 ==> i <= min) && Valid() && leased == {} && clock == now
        invariant count <= i && ((forall k | 0 <= k < i :: connects[k]) ==> count == i)
        invariant forall c | c in list :: fresh(c)
      {
        AddConnection(now, connects[i]);
        i := i + 1;
      }
    }
  }
  /** A pool whose scan does run off its list: two connections on lease from a pool with a
      minimum of one, the second made because none was idle. */
  method AllOnLease(maxIdle: nat, now: nat) returns (pool: Pool)
    ensures fresh(pool) && pool.Filled()
    ensures pool.list == [] && Scan([], |pool.leased|, pool.min, [], pool.maxIdle) == None
  {
    pool := new Pool(1, 2, maxIdle, now, [true]);
    var first := pool.GetConnection(now);
    pool.Produce(now, true);
    var second := pool.GetConnection(now);
  }
}
