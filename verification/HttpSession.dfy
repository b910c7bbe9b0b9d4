/** Moving whole buffers through a socket that moves pieces: body assembly of a request, and
sending a response. What each socket call does is the environment's choice, kept in a plan. */
module HttpSession {
  import opened MachineInt
  import opened Optional

  /** How much the calls to come can move before one fails. */
  function Capacity(plan: seq<int>): nat {
    if plan == [] || plan[0] <= 0 then 0 else plan[0] + Capacity(plan[1..])
  }

  function Least(a: nat, b: nat): nat { if a <= b then a else b }

  /** How much the next call moves when `left` was asked for and `avail` is there. */
  function Amount(left: nat, avail: nat, plan: seq<int>): (n: int)
    ensures n <= left && n <= avail
  {
    if plan == [] || plan[0] <= 0 || left == 0 || avail == 0 then -1
    else Least(plan[0], Least(left, avail))
  }

  lemma AmountTaken(left: nat, avail: nat, plan: seq<int>)
    requires left > 0
    ensures var n := Amount(left, avail, plan);
            var all := Least(left, Least(avail, Capacity(plan)));
            if n <= 0 then all == 0
            else plan != [] && all == n + Least(left - n, Least(avail - n, Capacity(plan[1..])))
  {
  }

  /** The buffer with a piece stored at a place. */
  function Stored(was: string, at: nat, piece: string): (now: string)
    requires at + |piece| <= |was|
    ensures |now| == |was|
  {
    was[..at] + piece + was[at + |piece|..]
  }

  lemma StoredMore(was: string, from: nat, offset: nat, stream: string, n: nat)
    requires from + offset + n <= |was| && offset + n <= |stream|
    ensures Stored(Stored(was, from, stream[..offset]), from + offset, stream[offset..][..n])
            == Stored(was, from, stream[..offset + n])
    ensures stream[offset..][n..] == stream[offset + n..]
  {
    assert stream[..offset + n] == stream[..offset] + stream[offset..][..n];
  }

  lemma StoredNothing(was: string, at: nat)
    requires at <= |was|
    ensures Stored(was, at, "") == was
  {
  }

  /** The peer's byte stream, what was sent to it, and the results of the calls to come: a
      result of 0 or less is a closed or failed connection. */
  class Socket {
    var incoming: string
    var sent: string
    var plan: seq<int>
    var closed: bool

    constructor (incoming: string, plan: seq<int>)
      ensures this.incoming == incoming && this.plan == plan && sent == "" && !closed
    {
      this.incoming, this.plan, sent, closed := incoming, plan, "", false;
    }

    /** Stores the next piece of the stream in the buffer. */
    method Recv(buffer: array<char>, at: nat, left: nat) returns (n: int)
      requires at + left <= buffer.Length
      modifies this, buffer
      ensures n == old(Amount(left, |incoming|, plan)) && sent == old(sent) && closed == old(closed)
      ensures plan == if old(plan) == [] then [] else old(plan)[1..]
      ensures n <= 0 ==> incoming == old(incoming) && buffer[..] == old(buffer[..])
      ensures n > 0 ==> incoming == old(incoming)[n..] && buffer[..] == Stored(old(buffer[..]), at, old(incoming)[..n])
    {
      n := Amount(left, |incoming|, plan);
      plan := if plan == [] then [] else plan[1..];
      if n > 0 {
        forall i | 0 <= i < n {
          buffer[at + i] := incoming[i];
        }
        incoming := incoming[n..];
      }
    }

    /** Takes some of the bytes. */
    method Send(bytes: string) returns (n: int)
      modifies this
      ensures n == old(Amount(|bytes|, |bytes|, plan)) && incoming == old(incoming) && closed == old(closed)
      ensures plan == if old(plan) == [] then [] else old(plan)[1..]
      ensures sent == old(sent) + if n > 0 then bytes[..n] else ""
    {
      n := Amount(|bytes|, |bytes|, plan);
      plan := if plan == [] then [] else plan[1..];
      sent := sent + if n > 0 then bytes[..n] else "";
    }

    method Close()
      modifies `closed
      ensures closed
    {
      closed := true;
    }
  }

  class Session {
    const sock: Socket

    constructor (sock: Socket)
      ensures this.sock == sock
    {
      this.sock := sock;
    }

    /** `recvlen`. However the stream is cut into pieces, as much as is asked for, there and
        allowed by the calls has been stored, in order; all of it is reported by its length cut
        to 32 bits, less by a number that is not positive. */
    method RecvLen(buffer: array<char>, from: nat, len: nat) returns (r: int)
      requires from + len <= buffer.Length
      modifies sock, buffer
      ensures var k := old(Least(len, Least(|sock.incoming|, Capacity(sock.plan))));
              && (if k == len then r == ToInt(len) else r <= 0)
              && buffer[..] == Stored(old(buffer[..]), from, old(sock.incoming)[..k])
              && sock.incoming == old(sock.incoming)[k..]
      ensures sock.closed == old(sock.closed) && sock.sent == old(sock.sent)
    {
      hide Capacity, Amount, ToInt, Stored;
      var offset, left := 0, len;
      ghost var stream, was, most := sock.incoming, buffer[..], Least(|sock.incoming|, Capacity(sock.plan));
      StoredNothing(was, from);
      while left > 0
        invariant 0 <= left && offset + left == len && offset <= |stream| && sock.incoming == stream[offset..]
        invariant offset + Least(left, Least(|sock.incoming|, Capacity(sock.plan))) == Least(len, most)
        invariant buffer[..] == Stored(was, from, stream[..offset])
        invariant sock.closed == old(sock.closed) && sock.sent == old(sock.sent)
      {
        AmountTaken(left, |sock.incoming|, sock.plan);
        var n := sock.Recv(buffer, from + offset, left);
        if n <= 0 {
          return n;
        }
        StoredMore(was, from, offset, stream, n);
        offset := offset + n;
        left := left - n;
      }
      r := ToInt(len);
    }

    /** `sendlen`: as much of the buffer as the calls allow has been handed over, once and in
        order, and all of it is reported by its length cut to 32 bits. */
    method SendLen(buffer: string) returns (r: int)
      modifies sock
      ensures var k := old(Least(|buffer|, Capacity(sock.plan)));
              && (if k == |buffer| then r == ToInt(|buffer|) else r <= 0)
              && sock.sent == old(sock.sent) + buffer[..k]
      ensures sock.closed == old(sock.closed) && sock.incoming == old(sock.incoming)
    {
      var offset, left := 0, |buffer|;
      while left > 0
        invariant 0 <= left && offset + left == |buffer| && sock.sent == old(sock.sent) + buffer[..offset]
        invariant offset + Least(left, Capacity(sock.plan)) == old(Least(|buffer|, Capacity(sock.plan)))
        invariant sock.closed == old(sock.closed) && sock.incoming == old(sock.incoming)
      {
        var n := sock.Send(buffer[offset..]);
        if n <= 0 {
          return n;
        }
        assert buffer[..offset] + buffer[offset..][..n] == buffer[..offset + n];
        offset := offset + n;
        left := left - n;
      }
      r := ToInt(|buffer|);
    }

    /** The body of a request whose head announced `length` bytes, of which `data[..offset]` came
        with the head: exactly the first `length` bytes of that remainder and the stream after it,
        or nothing and a closed socket. It is had exactly when stream and calls give what is
        missing and the number missing is still positive as a 32-bit int. */
    method RecvBody(data: array<char>, offset: nat, length: int) returns (body: Option<string>)
      requires offset <= data.Length
      modifies sock
      ensures length <= 0 ==> body == None && sock.incoming == old(sock.incoming) && sock.closed == old(sock.closed)
      ensures length > 0 ==> (body.Some? <==>
                length <= offset || (ToInt(length - offset) > 0
                                     && length - offset <= old(Least(|sock.incoming|, Capacity(sock.plan)))))
      ensures length > 0 && body.Some? ==>
                var all := data[..offset] + old(sock.incoming);
                length <= |all| && body.value == all[..length]
                && data[..offset] + old(sock.incoming)
                   == (if length <= offset then data[..offset] else body.value) + sock.incoming
      ensures length > 0 && body == None ==> sock.closed
      ensures body.Some? ==> sock.closed == old(sock.closed)
    {
      if length <= 0 {
        return None;
      }
      var target := new char[length];
      var have := if length >= offset then offset else length;
      forall i | 0 <= i < have {
        target[i] := data[i];
      }
      ghost var stream := sock.incoming;
      assert target[..have] == data[..have];
      var missing := length - offset;
      if missing > 0 {
        var r := RecvLen(target, have, missing);
        if r <= 0 {
          sock.Close();
          return None;
        }
        assert target[..] == target[..have] + target[have..];
        WholeBody(data[..offset], stream, target[have..], missing);
      } else {
        assert (data[..offset] + stream)[..length] == data[..length];
      }
      body := Some(target[..]);
    }
  }

  lemma WholeBody(head: string, stream: string, got: string, missing: nat)
    requires missing <= |stream| && got == stream[..missing]
    ensures (head + stream)[..|head| + missing] == head + got
    ensures head + stream == (head + got) + stream[missing..]
  {
    assert stream == got + stream[missing..];
  }
}
