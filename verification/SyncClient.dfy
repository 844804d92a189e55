/** The synchronous TCP client (cTCPSyncClient_V2.h): framing loops over a peer that splits its stream
    at will, and the accounting of descriptors. */
module SyncClient {
  import opened Wrappers

  type Byte = bv8
  type Buffer = seq<Byte>
  type Descriptor = nat

  datatype IOResult = Success | Closed | Timeout | NotConnected | InvalidArgument | Failed

  const RECEIVE_CHUNK_SIZE: nat := 4096

  // errno values on Linux; EWOULDBLOCK is EAGAIN
  const EINTR := 4
  const EAGAIN := 11
  const EMSGSIZE := 90
  const ETIMEDOUT := 110

  predicate IsTimeoutError(errorCode: int) {
    errorCode == EAGAIN || errorCode == ETIMEDOUT
  }

  function Classify(errorCode: int): IOResult {
    if IsTimeoutError(errorCode) then Timeout else Failed
  }

  // ----- The environment

  /** What the next socket call does: move up to `count` bytes (at least one), or fail with an error. */
  datatype Event = Moves(count: nat) | Fails(errno: int)

  /** Nothing but interruptions goes wrong. */
  predicate Orderly(script: seq<Event>) {
    forall i :: 0 <= i < |script| && script[i].Fails? ==> script[i].errno == EINTR
  }

  predicate Harmless(e: Event) {
    e.Moves? || e.errno == EINTR
  }

  /** Calls have used up the script as far as `rest`, and none failed. */
  ghost predicate Clean(script: seq<Event>, rest: seq<Event>) {
    && |rest| <= |script| && rest == script[|script| - |rest|..]
    && forall i: nat :: i < |script| - |rest| ==> Harmless(script[i])
  }

  /** ... and only the last one failed, with error e. */
  ghost predicate FailedWith(script: seq<Event>, rest: seq<Event>, e: int) {
    && |rest| < |script| && rest == script[|script| - |rest|..]
    && script[|script| - |rest| - 1] == Fails(e) && e != EINTR
    && forall i: nat :: i < |script| - |rest| - 1 ==> Harmless(script[i])
  }

  /** The status that stands for an error: a timeout for the timeout codes, a failure for the others. */
  ghost predicate Stands(r: IOResult, e: int) {
    (r == Timeout <==> e == EAGAIN || e == ETIMEDOUT) && (r == Failed <==> r != Timeout)
  }

  lemma NothingUsed(script: seq<Event>)
    ensures Clean(script, script)
  {
  }

  /** One more call, after calls that did not fail. */
  lemma UsedOne(script: seq<Event>, mid: seq<Event>)
    requires Clean(script, mid) && mid != []
    ensures Harmless(mid[0]) ==> Clean(script, mid[1..])
    ensures !Harmless(mid[0]) ==> FailedWith(script, mid[1..], mid[0].errno)
  {
    var k := |script| - |mid|;
    assert mid[0] == script[k];
    forall i: nat | i < k ensures Harmless(script[i]) {
    }
  }

  lemma UsedMore(script: seq<Event>, mid: seq<Event>, rest: seq<Event>)
    requires Clean(script, mid)
    ensures Clean(mid, rest) ==> Clean(script, rest)
    ensures forall e :: FailedWith(mid, rest, e) ==> FailedWith(script, rest, e)
  {
    var k := |script| - |mid|;
    assert forall i: nat :: i < |mid| ==> mid[i] == script[k + i];
    assert forall i: nat :: k <= i < |script| ==> script[i] == mid[i - k];
  }

  /** The two ways to end exclude each other. */
  lemma CleanOrFailed(script: seq<Event>, rest: seq<Event>, e: int)
    ensures !(Clean(script, rest) && FailedWith(script, rest, e))
    ensures Orderly(script) ==> !FailedWith(script, rest, e)
  {
    if FailedWith(script, rest, e) {
      assert !Harmless(script[|script| - |rest| - 1]);
    }
  }

  datatype Moved = Bytes(n: nat) | Error(errno: int)

  /** How a connection attempt for one resolved address turns out; a connection brings the bytes the
      peer sends before its orderly close, and the scripts of the receive and send calls. */
  datatype Attempt =
    | NoSocket(errno: int)
    | NotConfigured(errno: int)
    | Refused(errno: int)
    | Connects(stream: Buffer, receives: seq<Event>, sends: seq<Event>)

  datatype Lookup = LookupFails(code: int) | Addresses(attempts: seq<Attempt>)

  /** The operating system and the peer. */
  class Network {
    var open: set<Descriptor>
    var openCount: nat
    var closeCount: nat
    var incoming: Buffer          // what the peer has still to deliver before its orderly close
    var receives: seq<Event>
    var wire: Buffer              // what the peer was sent on the current connection
    var sends: seq<Event>

    ghost predicate Valid()
      reads this
    {
      openCount == closeCount + |open| && forall fd :: fd in open ==> fd < openCount
    }

    constructor ()
      ensures Valid() && open == {} && openCount == 0 && closeCount == 0
    {
      open, openCount, closeCount := {}, 0, 0;
      incoming, receives, wire, sends := [], [], [], [];
    }

    /** A fresh descriptor. */
    method OpenSocket() returns (fd: Descriptor)
      requires Valid()
      modifies this`open, this`openCount
      ensures Valid() && fd !in old(open) && open == old(open) + {fd} && openCount == old(openCount) + 1
    {
      fd := openCount;
      open := open + {fd};
      openCount := openCount + 1;
    }

    method CloseSocket(fd: Descriptor)
      requires Valid() && fd in open
      modifies this`open, this`closeCount
      ensures Valid() && open == old(open) - {fd} && closeCount == old(closeCount) + 1
    {
      open := open - {fd};
      closeCount := closeCount + 1;
    }

    method Establish(stream: Buffer, r: seq<Event>, w: seq<Event>)
      modifies this`incoming, this`receives, this`wire, this`sends
      ensures incoming == stream && receives == r && wire == [] && sends == w
    {
      incoming, receives, wire, sends := stream, r, [], w;
    }

    /** recv: some bytes, none exactly at the end of the stream, or an error. */
    method Recv(limit: nat) returns (r: Moved, chunk: Buffer)
      requires limit > 0
      modifies this`incoming, this`receives
      ensures old(incoming) == chunk + incoming
      ensures r.Bytes? ==> r.n == |chunk| <= limit && (r.n == 0 <==> old(incoming) == [])
      ensures r.Error? ==> chunk == [] && old(receives) != [] && old(receives)[0] == Fails(r.errno)
      ensures r.Bytes? && old(receives) != [] ==> old(receives)[0].Moves?
      ensures receives == if old(receives) == [] then [] else old(receives)[1..]
    {
      if receives != [] && receives[0].Fails? {
        r, chunk := Error(receives[0].errno), [];
        receives := receives[1..];
      } else {
        var most := if receives == [] || receives[0].count == 0 then limit else Min(receives[0].count, limit);
        var n := Min(most, |incoming|);
        r, chunk := Bytes(n), incoming[..n];
        incoming := incoming[n..];
        receives := if receives == [] then [] else receives[1..];
      }
    }

    /** send: some of the bytes, or an error. */
    method Send(data: Buffer) returns (r: Moved)
      requires data != []
      modifies this`wire, this`sends
      ensures r.Bytes? ==> 0 < r.n <= |data| && wire == old(wire) + data[..r.n]
      ensures r.Error? ==> wire == old(wire) && old(sends) != [] && old(sends)[0] == Fails(r.errno)
      ensures r.Bytes? && old(sends) != [] ==> old(sends)[0].Moves?
      ensures sends == if old(sends) == [] then [] else old(sends)[1..]
    {
      if sends != [] && sends[0].Fails? {
        r := Error(sends[0].errno);
        sends := sends[1..];
      } else {
        var n := if sends == [] || sends[0].count == 0 then |data| else Min(sends[0].count, |data|);
        wire := wire + data[..n];
        r := Bytes(n);
        sends := if sends == [] then [] else sends[1..];
      }
    }
  }

  // ----- What the framing calls return, as functions of the peer's stream alone

  predicate MatchAt(s: Buffer, d: Buffer, i: nat) {
    i + |d| <= |s| && s[i..i + |d|] == d
  }

  predicate Occurs(d: Buffer, s: Buffer) {
    exists i: nat :: i <= |s| && MatchAt(s, d, i)
  }

  lemma OccursInLonger(d: Buffer, s: Buffer, t: Buffer)
    requires s <= t && Occurs(d, s)
    ensures Occurs(d, t)
  {
    var i: nat :| i <= |s| && MatchAt(s, d, i);
    assert t[i..i + |d|] == s[i..i + |d|];
    assert MatchAt(t, d, i);
  }

  /** A match inside a prefix without the delimiter is impossible. */
  lemma MatchesEndLate(d: Buffer, s: Buffer, t: Buffer, i: nat)
    requires s <= t && !Occurs(d, s) && MatchAt(t, d, i)
    ensures i + |d| > |s|
  {
    if i + |d| <= |s| {
      assert s[i..i + |d|] == t[i..i + |d|];
      assert MatchAt(s, d, i);
    }
  }

  function DelimiterResult(stream: Buffer, d: Buffer, maxBytes: nat): IOResult {
    if Occurs(d, stream[..Min(maxBytes, |stream|)]) then Success
    else if |stream| >= maxBytes then Failed
    else Closed
  }

  lemma FoundEarly(d: Buffer, out: Buffer, stream: Buffer, maxBytes: nat)
    requires out <= stream && |out| <= maxBytes && Occurs(d, out)
    ensures DelimiterResult(stream, d, maxBytes) == Success
  {
    OccursInLonger(d, out, stream[..Min(maxBytes, |stream|)]);
  }

  /** The loop's other two ways out: the stream is over, or the limit is reached. */
  lemma NeverFound(d: Buffer, out: Buffer, rest: Buffer, maxBytes: nat)
    requires !Occurs(d, out) && (|out| == maxBytes || (|out| < maxBytes && rest == []))
    ensures DelimiterResult(out + rest, d, maxBytes) == if |out| == maxBytes then Failed else Closed
  {
    assert (out + rest)[..Min(maxBytes, |out + rest|)] == out;
  }

  /** Wherever the delimiter occurs, at most 4095 bytes follow it. */
  ghost predicate LittleAfter(d: Buffer, out: Buffer) {
    forall i: nat :: MatchAt(out, d, i) ==> |out| - (i + |d|) <= 4095
  }

  /** When the last chunk brought the first occurrence, less than a chunk follows any occurrence. */
  lemma LittleFollows(d: Buffer, before: Buffer, out: Buffer)
    requires before <= out && |out| <= |before| + RECEIVE_CHUNK_SIZE && !Occurs(d, before)
    ensures LittleAfter(d, out)
  {
    forall i: nat | MatchAt(out, d, i)
      ensures |out| - (i + |d|) <= 4095
    {
      MatchesEndLate(d, before, out, i);
    }
  }

  function UntilClosedResult(stream: Buffer, maxBytes: nat): (IOResult, Buffer) {
    if |stream| < maxBytes then (Success, stream) else (Failed, stream[..maxBytes])
  }

  function ExactResult(stream: Buffer, n: nat): (IOResult, Buffer) {
    if |stream| >= n then (Success, stream[..n]) else (Closed, stream)
  }

  /** Successful reads of a and then b bytes are one read of a + b bytes; and a longer read succeeds
      exactly when both shorter ones do. */
  lemma ExactReadsCompose(stream: Buffer, a: nat, b: nat)
    ensures ExactResult(stream, a + b).0 == Success <==>
              ExactResult(stream, a).0 == Success && ExactResult(stream[Min(a, |stream|)..], b).0 == Success
    ensures ExactResult(stream, a + b).1 == ExactResult(stream, a).1 + ExactResult(stream[Min(a, |stream|)..], b).1
  {
    if |stream| >= a + b {
      assert stream[..a + b] == stream[..a] + stream[a..][..b];
    } else if |stream| >= a {
      assert stream == stream[..a] + stream[a..];
    }
  }

  // ----- The client

  class Client {
    const net: Network
    var socket: Option<Descriptor>
    var lastPlatformError: int
    var lastAddressInfoError: int

    /** Descriptors opened minus closed is one when connected, and none otherwise. */
    ghost predicate Valid()
      reads this, net
    {
      && net.Valid()
      && net.open == (if socket.Some? then {socket.value} else {})
      && net.openCount - net.closeCount == (if socket.Some? then 1 else 0)
    }

    constructor (net: Network)
      requires net.Valid() && net.open == {}
      ensures Valid() && this.net == net && socket.None?
    {
      this.net := net;
      socket, lastPlatformError, lastAddressInfoError := None, 0, 0;
    }

    method ClearLastError()
      modifies this`lastPlatformError, this`lastAddressInfoError
      ensures lastPlatformError == 0 && lastAddressInfoError == 0
    {
      lastPlatformError, lastAddressInfoError := 0, 0;
    }

    method SetLastPlatformError(errorCode: int)
      modifies this`lastPlatformError, this`lastAddressInfoError
      ensures lastPlatformError == errorCode && lastAddressInfoError == 0
    {
      lastPlatformError, lastAddressInfoError := errorCode, 0;
    }

    method Close()
      requires Valid()
      modifies this`socket, net`open, net`closeCount
      ensures Valid() && socket.None? && net.open == {}
      ensures net.closeCount == old(net.closeCount) + (if old(socket).Some? then 1 else 0)
    {
      if socket.Some? {
        net.CloseSocket(socket.value);
        socket := None;
      }
    }

    /** A socket that could not be configured or connected is closed again. */
    method OpenAndGiveUp(errorCode: int)
      requires Valid() && socket.None?
      modifies this`lastPlatformError, this`lastAddressInfoError, net`open, net`openCount, net`closeCount
      ensures Valid() && net.closeCount == old(net.closeCount) + 1
      ensures lastPlatformError == errorCode && lastAddressInfoError == 0
    {
      var fd := net.OpenSocket();
      SetLastPlatformError(errorCode);
      net.CloseSocket(fd);
    }

    ghost predicate JustConnected(a: Attempt)
      reads net
    {
      && a.Connects? && net.incoming == a.stream && net.receives == a.receives
      && net.wire == [] && net.sends == a.sends
    }

    /** The whole address loop: the first address that connects wins; every socket opened on the way
        was closed; and when none connects the error is that of the last address. */
    method Connect(lookup: Lookup) returns (ok: bool)
      requires Valid()
      modifies this, net
      ensures Valid() && (ok <==> socket.Some?)
      ensures ok <==> lookup.Addresses? && exists i :: 0 <= i < |lookup.attempts| && lookup.attempts[i].Connects?
      ensures ok ==> exists i :: FirstConnection(lookup, i) && JustConnected(lookup.attempts[i])
      ensures ok ==> lastPlatformError == 0 && lastAddressInfoError == 0
      ensures !ok && lookup.LookupFails? ==> lastPlatformError == 0 && lastAddressInfoError == lookup.code
      ensures !ok && lookup.Addresses? ==> lastAddressInfoError == 0 && lastPlatformError == LastError(lookup.attempts)
    {
      Close();
      ClearLastError();
      if lookup.LookupFails? {
        lastPlatformError, lastAddressInfoError := 0, lookup.code;
        return false;
      }
      var attempts := lookup.attempts;
      for k := 0 to |attempts|
        invariant Valid() && socket.None?
        invariant forall i :: 0 <= i < k ==> !attempts[i].Connects?
        invariant lastAddressInfoError == 0 && lastPlatformError == LastError(attempts[..k])
      {
        assert attempts[..k + 1] == attempts[..k] + [attempts[k]];
        match attempts[k]
        case NoSocket(e) =>
          SetLastPlatformError(e);
        case NotConfigured(e) =>
          OpenAndGiveUp(e);
        case Refused(e) =>
          OpenAndGiveUp(e);
        case Connects(stream, r, w) =>
          var fd := net.OpenSocket();
          net.Establish(stream, r, w);
          socket := Some(fd);
          ClearLastError();
          assert FirstConnection(lookup, k);
          return true;
      }
      assert attempts[..|attempts|] == attempts;
      return false;
    }

    /** sendAll puts a prefix of the data on the wire, all of it exactly on Success. */
    method SendAll(data: Buffer, isNull: bool) returns (r: IOResult)
      requires Valid()
      modifies this`lastPlatformError, this`lastAddressInfoError, net`wire, net`sends
      ensures Valid()
      ensures exists k: nat :: k <= |data| && net.wire == old(net.wire) + data[..k] && (r == Success <==> k == |data|)
      ensures data != [] ==> (r == InvalidArgument <==> isNull)
      ensures data != [] && !isNull ==> (r == NotConnected <==> socket.None?)
      ensures r != Closed
      ensures r == Success || data == [] || isNull || socket.None? ==> lastPlatformError == 0
      ensures data != [] && !isNull && socket.Some? ==>
                if Clean(old(net.sends), net.sends) then r == Success
                else FailedWith(old(net.sends), net.sends, lastPlatformError) && Stands(r, lastPlatformError)
      ensures data == [] || isNull || socket.None? ==> net.sends == old(net.sends)
    {
      ClearLastError();
      assert data[..0] == [];
      if data == [] {
        assert net.wire == old(net.wire) + data[..0];
        return Success;
      }
      if isNull {
        assert net.wire == old(net.wire) + data[..0];
        return InvalidArgument;
      }
      if socket.None? {
        assert net.wire == old(net.wire) + data[..0];
        return NotConnected;
      }
      var totalSent: nat := 0;
      ghost var script := net.sends;
      NothingUsed(script);
      while totalSent < |data|
        invariant totalSent <= |data| && net.wire == old(net.wire) + data[..totalSent]
        invariant lastPlatformError == 0 && lastAddressInfoError == 0
        invariant Clean(script, net.sends)
        decreases |data| - totalSent, |net.sends|
      {
        if net.sends != [] {
          UsedOne(script, net.sends);
        }
        var moved := net.Send(data[totalSent..]);
        if moved.Bytes? {
          assert data[..totalSent + moved.n] == data[..totalSent] + data[totalSent..][..moved.n];
          totalSent := totalSent + moved.n;
        } else if moved.errno != EINTR {
          SetLastPlatformError(moved.errno);
          CleanOrFailed(script, net.sends, moved.errno);
          return Classify(moved.errno);
        }
      }
      assert data[..totalSent] == data;
      return Success;
    }

    /** receiveSome: one chunk of at most maxBytes, however often the call is interrupted. */
    method ReceiveSome(maxBytes: nat) returns (r: IOResult, out: Buffer)
      requires Valid()
      modifies this`lastPlatformError, this`lastAddressInfoError, net`incoming, net`receives
      ensures Valid() && old(net.incoming) == out + net.incoming
      ensures r == InvalidArgument <==> maxBytes == 0
      ensures r == NotConnected <==> maxBytes > 0 && socket.None?
      ensures if r == Success then 0 < |out| <= maxBytes && lastPlatformError == 0 else out == []
      ensures maxBytes > 0 && socket.Some? ==>
                if Clean(old(net.receives), net.receives)
                then r == (if old(net.incoming) == [] then Closed else Success) && lastPlatformError == 0
                else FailedWith(old(net.receives), net.receives, lastPlatformError) && Stands(r, lastPlatformError)
    {
      out := [];
      ClearLastError();
      if maxBytes == 0 {
        return InvalidArgument, [];
      }
      if socket.None? {
        return NotConnected, [];
      }
      ghost var script := net.receives;
      NothingUsed(script);
      while true
        invariant net.incoming == old(net.incoming)
        invariant lastPlatformError == 0 && lastAddressInfoError == 0
        invariant Clean(script, net.receives)
        decreases |net.receives|
      {
        if net.receives != [] {
          UsedOne(script, net.receives);
        }
        var moved, chunk := net.Recv(maxBytes);
        if moved.Bytes? {
          return if moved.n > 0 then Success else Closed, chunk;
        }
        if moved.errno != EINTR {
          SetLastPlatformError(moved.errno);
          CleanOrFailed(script, net.receives, moved.errno);
          return Classify(moved.errno), [];
        }
      }
    }

    /** receiveExact consumes exactly the bytes it returns; unless a call fails the outcome depends
        only on the stream. */
    method ReceiveExact(bytesToRead: nat) returns (r: IOResult, out: Buffer)
      requires Valid()
      modifies this`lastPlatformError, this`lastAddressInfoError, net`incoming, net`receives
      ensures Valid() && old(net.incoming) == out + net.incoming
      ensures r == Success <==> |out| == bytesToRead && (bytesToRead == 0 || socket.Some?)
      ensures |out| <= bytesToRead
      ensures r == NotConnected <==> bytesToRead > 0 && socket.None?
      ensures bytesToRead > 0 && socket.Some? ==>
                if Clean(old(net.receives), net.receives)
                then (r, out) == ExactResult(old(net.incoming), bytesToRead) && lastPlatformError == 0
                else FailedWith(old(net.receives), net.receives, lastPlatformError) && Stands(r, lastPlatformError)
      ensures bytesToRead == 0 || socket.None? ==> lastPlatformError == 0 && net.receives == old(net.receives)
    {
      out := [];
      ClearLastError();
      if bytesToRead == 0 {
        return Success, [];
      }
      if socket.None? {
        return NotConnected, [];
      }
      ghost var script := net.receives;
      NothingUsed(script);
      while |out| < bytesToRead
        invariant |out| <= bytesToRead && old(net.incoming) == out + net.incoming
        invariant Clean(script, net.receives) && lastPlatformError == 0
        decreases bytesToRead - |out|, |net.receives|
      {
        if net.receives != [] {
          UsedOne(script, net.receives);
        }
        var moved, chunk := net.Recv(bytesToRead - |out|);
        if moved.Bytes? {
          if moved.n == 0 {
            assert out == old(net.incoming);
            return Closed, out;
          }
          out := out + chunk;
        } else if moved.errno != EINTR {
          SetLastPlatformError(moved.errno);
          CleanOrFailed(script, net.receives, moved.errno);
          return Classify(moved.errno), out;
        }
      }
      assert out == old(net.incoming)[..bytesToRead];
      return Success, out;
    }

    /** One turn of the two loops below: another chunk, if there is one, is added to `out`. */
    method ReceiveMore(ghost script: seq<Event>, out: Buffer, maxBytes: nat) returns (r: IOResult, more: Buffer)
      requires Valid() && socket.Some? && |out| < maxBytes && Clean(script, net.receives)
      modifies this`lastPlatformError, this`lastAddressInfoError, net`incoming, net`receives
      ensures Valid() && out <= more && |more| <= maxBytes && |more| <= |out| + RECEIVE_CHUNK_SIZE
      ensures out + old(net.incoming) == more + net.incoming
      ensures if r == Success then |more| > |out| else more == out
      ensures r == Closed ==> net.incoming == []
      ensures if r == Success || r == Closed then Clean(script, net.receives) && lastPlatformError == 0
              else !Clean(script, net.receives) && FailedWith(script, net.receives, lastPlatformError) && Stands(r, lastPlatformError)
    {
      ghost var mid := net.receives;
      var chunk;
      r, chunk := ReceiveSome(Min(RECEIVE_CHUNK_SIZE, maxBytes - |out|));
      more := out + chunk;
      UsedMore(script, mid, net.receives);
      CleanOrFailed(mid, net.receives, lastPlatformError);
      CleanOrFailed(script, net.receives, lastPlatformError);
    }

    /** receiveUntilDelimiter: unless a call fails the status depends only on the stream, whatever
        the chunking and the interruptions; `out` is exactly what was consumed; and on Success fewer
        than a chunk's bytes follow any occurrence of the delimiter. */
    method ReceiveUntilDelimiter(d: Buffer, maxBytes: nat) returns (r: IOResult, out: Buffer)
      requires Valid()
      modifies this`lastPlatformError, this`lastAddressInfoError, net`incoming, net`receives
      ensures Valid() && old(net.incoming) == out + net.incoming
      ensures r == InvalidArgument <==> d == [] || maxBytes == 0
      ensures r == NotConnected <==> d != [] && maxBytes > 0 && socket.None?
      ensures d != [] && maxBytes > 0 && socket.Some? ==>
                if Clean(old(net.receives), net.receives)
                then r == DelimiterResult(old(net.incoming), d, maxBytes)
                     && lastPlatformError == (if r == Failed then EMSGSIZE else 0)
                else FailedWith(old(net.receives), net.receives, lastPlatformError) && Stands(r, lastPlatformError)
      ensures d != [] ==> |out| <= maxBytes && (r == Success <==> Occurs(d, out))
      ensures r == Success ==> LittleAfter(d, out)
    {
      out := [];
      if d == [] || maxBytes == 0 {
        ClearLastError();
        return InvalidArgument, [];
      }
      if socket.None? {
        ClearLastError();
        return NotConnected, [];
      }
      ClearLastError();
      ghost var stream, script := net.incoming, net.receives;
      NothingUsed(script);
      while |out| < maxBytes
        invariant Valid() && |out| <= maxBytes && stream == out + net.incoming
        invariant !Occurs(d, out)
        invariant Clean(script, net.receives) && lastPlatformError == 0
        decreases maxBytes - |out|
      {
        ghost var before := out;
        var readResult;
        readResult, out := ReceiveMore(script, out, maxBytes);
        if readResult != Success {
          if readResult == Closed {
            NeverFound(d, out, [], maxBytes);
          }
          return readResult, out;
        }
        if Occurs(d, out) {
          FoundEarly(d, out, stream, maxBytes);
          LittleFollows(d, before, out);
          return Success, out;
        }
      }
      NeverFound(d, out, net.incoming, maxBytes);
      SetLastPlatformError(EMSGSIZE);
      return Failed, out;
    }

    /** receiveUntilClosed: unless a call fails, status and data depend only on the stream. */
    method ReceiveUntilClosed(maxBytes: nat) returns (r: IOResult, out: Buffer)
      requires Valid()
      modifies this`lastPlatformError, this`lastAddressInfoError, net`incoming, net`receives
      ensures Valid() && old(net.incoming) == out + net.incoming && |out| <= maxBytes
      ensures r == InvalidArgument <==> maxBytes == 0
      ensures r == NotConnected <==> maxBytes > 0 && socket.None?
      ensures r != Closed
      ensures maxBytes > 0 && socket.Some? ==>
                if Clean(old(net.receives), net.receives)
                then (r, out) == UntilClosedResult(old(net.incoming), maxBytes)
                     && lastPlatformError == (if r == Failed then EMSGSIZE else 0)
                else FailedWith(old(net.receives), net.receives, lastPlatformError) && Stands(r, lastPlatformError)
    {
      out := [];
      ClearLastError();
      if maxBytes == 0 {
        return InvalidArgument, [];
      }
      if socket.None? {
        return NotConnected, [];
      }
      ghost var stream, script := net.incoming, net.receives;
      NothingUsed(script);
      while |out| < maxBytes
        invariant Valid() && |out| <= maxBytes && stream == out + net.incoming
        invariant Clean(script, net.receives) && lastPlatformError == 0
        decreases maxBytes - |out|
      {
        var readResult;
        readResult, out := ReceiveMore(script, out, maxBytes);
        if readResult == Closed {
          ClearLastError();
          assert out == stream;
          return Success, out;
        }
        if readResult != Success {
          return readResult, out;
        }
      }
      assert out == stream[..maxBytes];
      SetLastPlatformError(EMSGSIZE);
      return Failed, out;
    }

    /** The request could not be sent on the connection a: what the exchange then answers. */
    ghost predicate SendFailed(a: Attempt, r: IOResult, response: Buffer)
      requires a.Connects?
      reads this, net
    {
      && FailedWith(a.sends, net.sends, lastPlatformError) && Stands(r, lastPlatformError) && response == []
      && net.receives == a.receives
    }

    /** The response could not be received on the connection a. */
    ghost predicate ReceiveFailed(a: Attempt, r: IOResult)
      requires a.Connects?
      reads this, net
    {
      FailedWith(a.receives, net.receives, lastPlatformError) && Stands(r, lastPlatformError)
    }

    /** The common beginning of both exchanges: connect and send, and close again if that fails. */
    method Request(lookup: Lookup, request: Buffer, isNull: bool) returns (r: IOResult)
      requires Valid()
      modifies this, net
      ensures Valid() && (socket.Some? <==> r == Success)
      ensures !Reachable(lookup) ==> r == Failed
      ensures Reachable(lookup) && request != [] && isNull ==> r == InvalidArgument
      ensures r == Success ==> Reachable(lookup) && net.wire == request
      ensures forall i :: FirstConnection(lookup, i) ==>
                var a := lookup.attempts[i];
                && (r == Success ==> net.incoming == a.stream && net.receives == a.receives)
                && (request == [] || !isNull ==> if Clean(a.sends, net.sends) then r == Success else SendFailed(a, r, []))
    {
      var ok := Connect(lookup);
      if !ok {
        return Failed;
      }
      ghost var first :| FirstConnection(lookup, first) && JustConnected(lookup.attempts[first]);
      assert forall i :: FirstConnection(lookup, i) ==> i == first;
      NothingUsed(net.sends);
      r := SendAll(request, isNull);
      if r != Success {
        Close();
        return;
      }
      assert net.wire == request by {
        assert net.wire == [] + request[..|request|];
      }
    }

    /** exchangeOnce leaves no descriptor open on any exit; what it returns is the beginning of the
        stream; and it is determined by the first failing call, if any, and by the stream. */
    method ExchangeOnce(lookup: Lookup, request: Buffer, isNull: bool, maxResponseBytes: nat)
      returns (r: IOResult, response: Buffer)
      requires Valid()
      modifies this, net
      ensures Valid() && socket.None? && net.open == {} && net.openCount == net.closeCount
      ensures !Reachable(lookup) ==> r == Failed && response == []
      ensures r == Success ==> Reachable(lookup) && net.wire == request && 0 < |response| <= maxResponseBytes
      ensures r != Success ==> response == []
      ensures forall i :: FirstConnection(lookup, i) ==> response <= lookup.attempts[i].stream
      ensures Reachable(lookup) && request != [] && isNull ==> r == InvalidArgument
      ensures request == [] || !isNull ==> forall i :: FirstConnection(lookup, i) ==>
                var a := lookup.attempts[i];
                if !Clean(a.sends, net.sends) then SendFailed(a, r, response)
                else if maxResponseBytes == 0 then r == InvalidArgument
                else if !Clean(a.receives, net.receives) then ReceiveFailed(a, r)
                else r == if a.stream == [] then Closed else Success
    {
      r := Request(lookup, request, isNull);
      if r != Success {
        return r, [];
      }
      r, response := ReceiveSome(maxResponseBytes);
      Close();
    }

    /** exchangeOnceUntilClosed: the same, and unless a call fails the whole stream comes back.
        `shutdownFails` is the errno of a failing shutdown, if it fails. */
    method ExchangeOnceUntilClosed(lookup: Lookup, request: Buffer, isNull: bool, shutdownFails: Option<int>, maxResponseBytes: nat)
      returns (r: IOResult, response: Buffer)
      requires Valid()
      modifies this, net
      ensures Valid() && socket.None? && net.open == {} && net.openCount == net.closeCount
      ensures !Reachable(lookup) ==> r == Failed && response == []
      ensures r == Success ==> Reachable(lookup) && net.wire == request
      ensures forall i :: FirstConnection(lookup, i) ==> response <= lookup.attempts[i].stream
      ensures Reachable(lookup) && request != [] && isNull ==> r == InvalidArgument && response == []
      ensures request == [] || !isNull ==> forall i :: FirstConnection(lookup, i) ==>
                var a := lookup.attempts[i];
                if !Clean(a.sends, net.sends) then SendFailed(a, r, response)
                else if shutdownFails.Some? then r == Failed && response == [] && lastPlatformError == shutdownFails.value
                else if maxResponseBytes == 0 then r == InvalidArgument
                else if !Clean(a.receives, net.receives) then ReceiveFailed(a, r)
                else (r, response) == UntilClosedResult(a.stream, maxResponseBytes)
    {
      r := Request(lookup, request, isNull);
      if r != Success {
        return r, [];
      }
      ClearLastError();
      if shutdownFails.Some? {
        SetLastPlatformError(shutdownFails.value);
        Close();
        return Failed, [];
      }
      r, response := ReceiveUntilClosed(maxResponseBytes);
      Close();
    }
  }

  /** Address i is the first one that connects. */
  ghost predicate FirstConnection(lookup: Lookup, i: int) {
    && lookup.Addresses? && 0 <= i < |lookup.attempts| && lookup.attempts[i].Connects?
    && forall j :: 0 <= j < i ==> !lookup.attempts[j].Connects?
  }

  ghost predicate Reachable(lookup: Lookup) {
    lookup.Addresses? && exists i :: 0 <= i < |lookup.attempts| && lookup.attempts[i].Connects?
  }

  /** The error left behind by a list of failed attempts: that of the last one. */
  function LastError(attempts: seq<Attempt>): int {
    if attempts == [] || attempts[|attempts| - 1].Connects? then 0 else attempts[|attempts| - 1].errno
  }
}
