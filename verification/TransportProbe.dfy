/** The transport probe (ops/fifo-lab/transport_probe.c): a 64-byte window that reports the publish token in a
    stream of TLS records, once per connection, whatever the records' boundaries.
 */
module TransportProbe {
  import opened Chunks

  type Byte = char

  const WINDOW := 64

  function Token(): (token: seq<Byte>)
    ensures |token| == 23
  {
    "NetStream.Publish.Start"
  }

  // ----- The reference: occurrences in the concatenated stream

  /** An occurrence of the token ends just before position `n`. */
  predicate EndsAt(token: seq<Byte>, s: seq<Byte>, n: int) {
    |token| <= n <= |s| && s[n - |token|..n] == token
  }

  ghost predicate Occurs(token: seq<Byte>, s: seq<Byte>) {
    exists n :: EndsAt(token, s, n)
  }

  lemma PrefixKeepsEnds(token: seq<Byte>, a: seq<Byte>, b: seq<Byte>, n: int)
    requires n <= |a|
    ensures EndsAt(token, a + b, n) <==> EndsAt(token, a, n)
  {
    if |token| <= n {
      assert (a + b)[n - |token|..n] == a[n - |token|..n];
    }
  }

  lemma OccursGrows(token: seq<Byte>, a: seq<Byte>, b: seq<Byte>)
    ensures Occurs(token, a) ==> Occurs(token, a + b)
  {
    if Occurs(token, a) {
      var n :| EndsAt(token, a, n);
      PrefixKeepsEnds(token, a, b, n);
    }
  }

  /** One byte more: the only new place for an occurrence is the end. */
  lemma OccursOneMore(token: seq<Byte>, a: seq<Byte>, x: Byte)
    ensures Occurs(token, a + [x]) <==> Occurs(token, a) || EndsAt(token, a + [x], |a| + 1)
  {
    OccursGrows(token, a, [x]);
    if Occurs(token, a + [x]) {
      var n :| EndsAt(token, a + [x], n);
      if n <= |a| {
        PrefixKeepsEnds(token, a, [x], n);
      }
    }
  }

  /** The last bytes of a stream, as many as the window holds. */
  function Last(s: seq<Byte>): seq<Byte> {
    if |s| <= WINDOW then s else s[|s| - WINDOW..]
  }

  lemma WindowSuffices(token: seq<Byte>, s: seq<Byte>)
    requires |token| <= WINDOW
    ensures EndsAt(token, s, |s|) <==> |Last(s)| >= |token| && Last(s)[|Last(s)| - |token|..] == token
  {
    if |s| >= |token| {
      assert Last(s)[|Last(s)| - |token|..] == s[|s| - |token|..|s|];
    }
  }

  // ----- Every cutting of the stream

  /** The token is complete with the bytes of chunk `k` and not before. */
  ghost predicate Reports(token: seq<Byte>, chunks: seq<seq<Byte>>, k: nat)
    requires k < |chunks|
  {
    !Occurs(token, Join(chunks[..k])) && Occurs(token, Join(chunks[..k + 1]))
  }

  /** The end of the first occurrence. */
  ghost predicate FirstEnd(token: seq<Byte>, s: seq<Byte>, n: nat) {
    EndsAt(token, s, n) && forall m :: EndsAt(token, s, m) ==> n <= m
  }

  /** That is so exactly when chunk `k` brings the last byte of the first occurrence in the whole stream. */
  lemma ReportsAtFirstOccurrence(token: seq<Byte>, chunks: seq<seq<Byte>>, k: nat, n: nat)
    requires k < |chunks| && token != [] && FirstEnd(token, Join(chunks), n)
    ensures Reports(token, chunks, k) <==> |Join(chunks[..k])| < n <= |Join(chunks[..k + 1])|
  {
    var whole := Join(chunks);
    OccursUpTo(token, chunks, k, n);
    OccursUpTo(token, chunks, k + 1, n);
  }

  lemma OccursUpTo(token: seq<Byte>, chunks: seq<seq<Byte>>, k: nat, n: nat)
    requires k <= |chunks| && FirstEnd(token, Join(chunks), n)
    ensures Occurs(token, Join(chunks[..k])) <==> n <= |Join(chunks[..k])|
  {
    var whole, part := Join(chunks), Join(chunks[..k]);
    JoinPrefix(chunks, k);
    assert whole == part + whole[|part|..];
    if Occurs(token, part) {
      var m :| EndsAt(token, part, m);
      PrefixKeepsEnds(token, part, whole[|part|..], m);
    }
    if n <= |part| {
      PrefixKeepsEnds(token, part, whole[|part|..], n);
    }
  }

  lemma {:induction false} Earliest(token: seq<Byte>, s: seq<Byte>, n: nat) returns (first: nat)
    requires EndsAt(token, s, n)
    ensures FirstEnd(token, s, first)
    decreases n
  {
    if m: nat :| m < n && EndsAt(token, s, m) {
      first := Earliest(token, s, m);
    } else {
      first := n;
    }
  }

  /** It is so of some chunk exactly when the token occurs in the concatenated stream, and of no two chunks. */
  lemma ReportedOnceIffOccurs(token: seq<Byte>, chunks: seq<seq<Byte>>)
    requires token != []
    ensures Occurs(token, Join(chunks)) <==> exists k :: 0 <= k < |chunks| && Reports(token, chunks, k)
    ensures forall i, j :: 0 <= i < j < |chunks| ==> !(Reports(token, chunks, i) && Reports(token, chunks, j))
  {
    hide Join, Occurs;
    forall i, j | 0 <= i < j < |chunks| ensures !(Reports(token, chunks, i) && Reports(token, chunks, j)) {
      OccursLater(token, chunks, i + 1, j);
    }
    forall k | 0 <= k < |chunks| && Reports(token, chunks, k) ensures Occurs(token, Join(chunks)) {
      OccursLater(token, chunks, k + 1, |chunks|);
      assert chunks[..|chunks|] == chunks;
    }
    if Occurs(token, Join(chunks)) {
      var k := ReportingCall(token, chunks);
    }
  }

  lemma OccursLater(token: seq<Byte>, chunks: seq<seq<Byte>>, i: nat, j: nat)
    requires i <= j <= |chunks|
    ensures Occurs(token, Join(chunks[..i])) ==> Occurs(token, Join(chunks[..j]))
  {
    hide Join, Occurs;
    JoinPrefix(chunks[..j], i);
    assert chunks[..j][..i] == chunks[..i];
    var a, b := Join(chunks[..i]), Join(chunks[..j]);
    assert b == a + b[|a|..];
    OccursGrows(token, a, b[|a|..]);
  }

  lemma {:induction false} ReportingCall(token: seq<Byte>, chunks: seq<seq<Byte>>) returns (k: nat)
    requires token != [] && Occurs(token, Join(chunks))
    ensures k < |chunks| && Reports(token, chunks, k)
    decreases |chunks|
  {
    assert chunks[..|chunks|] == chunks;
    var less := chunks[..|chunks| - 1];
    if Occurs(token, Join(less)) {
      k := ReportingCall(token, less);
      assert less[..k] == chunks[..k] && less[..k + 1] == chunks[..k + 1];
    } else {
      k := |chunks| - 1;
    }
  }

  // ----- The program

  datatype Stage =
    | TcpBegin | TcpComplete | TcpFailure(errno: int) | TlsBegin | TlsComplete | TransportError(ret: int) | PublishAck

  datatype Event = Event(connection: int, stage: Stage)

  const EINPROGRESS := 115
  const EINTR := 4
  const GNUTLS_AGAIN := -28
  const GNUTLS_INTERRUPTED := -52

  /** What the log says over all connections: acknowledgements are reported at most once each, after the TLS
      handshake of their own connection. */
  ghost predicate LogOk(events: seq<Event>, serial: int, tlsDone: bool, publishDone: bool) {
    && (forall i :: 0 <= i < |events| ==> events[i].connection <= serial)
    && (forall i, j :: 0 <= i < j < |events| && events[i].stage == PublishAck && events[j].stage == PublishAck ==>
          events[i].connection < events[j].connection)
    && (tlsDone ==> Happened(events, |events|, serial, TlsComplete))
    && (publishDone <==> Happened(events, |events|, serial, PublishAck))
    && (forall i :: 0 <= i < |events| && events[i].stage == PublishAck ==>
          Happened(events, i, events[i].connection, TlsComplete))
  }

  ghost predicate Happened(events: seq<Event>, before: nat, connection: int, stage: Stage)
    requires before <= |events|
  {
    exists k :: 0 <= k < before && events[k] == Event(connection, stage)
  }

  function Connected(serial: int, done: bool, ret: int, errno: int): seq<Event> {
    if ret == 0 then (if done then [] else [Event(serial, TcpComplete)])
    else if ret < 0 && errno != EINPROGRESS && errno != EINTR then [Event(serial, TcpFailure(errno))]
    else []
  }

  class Probe {
    var trackedFd: int
    var serial: int
    var tcpDone: bool
    var tlsStarted: bool
    var tlsDone: bool
    var errorDone: bool
    var publishDone: bool
    const tail: array<Byte>
    var tailLen: nat
    var events: seq<Event>
    // All bytes that this connection received after its handshake completed.
    ghost var received: seq<Byte>

    ghost predicate Valid()
      reads this, tail
    {
      && tail.Length == WINDOW && tailLen <= WINDOW
      && LogOk(events, serial, tlsDone, publishDone)
      && (publishDone <==> Occurs(Token(), received))
      && (!publishDone ==> tail[..tailLen] == Last(received))
      && (!tlsDone ==> received == [])
    }

    constructor ()
      ensures Valid() && fresh(tail) && events == [] && received == []
    {
      NothingOccurs(Token());
      trackedFd, serial := -1, 0;
      tcpDone, tlsStarted, tlsDone, errorDone, publishDone := false, false, false, false, false;
      tail, tailLen := new Byte[WINDOW], 0;
      events, received := [], [];
    }

    method Report(stage: Stage)
      modifies this`events
      ensures events == old(events) + [Event(serial, stage)]
    {
      events := events + [Event(serial, stage)];
    }

    /** A connection attempt; only one to the target starts a new connection. */
    method Connect(fd: int, target: bool, ret: int, errno: int)
      requires Valid()
      modifies this
      ensures Valid()
      ensures target ==>
        events == old(events) + [Event(serial, TcpBegin)] + Connected(serial, false, ret, errno)
        && tcpDone == (ret == 0)
      ensures target ==> serial == old(serial) + 1 && received == [] && !publishDone && !tlsDone && trackedFd == fd
      ensures !target ==> events == old(events) && received == old(received) && serial == old(serial)
    {
      hide EndsAt, Occurs, LogOk, Token;
      if target {
        NewConnection(events, serial, tlsDone, publishDone);
        NothingOccurs(Token());
        trackedFd, serial := fd, serial + 1;
        tcpDone, tlsStarted, tlsDone, errorDone, publishDone := false, false, false, false, false;
        tailLen, received := 0, [];
        LogExtends(events, serial, false, false, TcpBegin);
        Report(TcpBegin);
        ReportConnect(ret, errno);
      }
    }

    method ReportConnect(ret: int, errno: int)
      requires Valid()
      modifies this`tcpDone, this`events
      ensures Valid() && tcpDone == (old(tcpDone) || ret == 0)
      ensures events == old(events) + Connected(serial, old(tcpDone), ret, errno)
    {
      hide EndsAt, Occurs, LogOk, Token;
      if ret == 0 {
        if !tcpDone {
          tcpDone := true;
          LogExtends(events, serial, tlsDone, publishDone, TcpComplete);
          Report(TcpComplete);
        }
      } else if ret < 0 && errno != EINPROGRESS && errno != EINTR {
        LogExtends(events, serial, tlsDone, publishDone, TcpFailure(errno));
        Report(TcpFailure(errno));
      }
    }

    method Handshake(ret: int)
      requires Valid()
      modifies this
      ensures Valid() && serial == old(serial) && received == old(received) && publishDone == old(publishDone)
      ensures tlsDone == (old(tlsDone) || ret == 0) && tlsStarted
      ensures events == old(events) + (if !old(tlsStarted) then [Event(serial, TlsBegin)] else [])
                                    + (if ret == 0 && !old(tlsDone) then [Event(serial, TlsComplete)] else [])
    {
      hide EndsAt, Occurs, LogOk, Token;
      if !tlsStarted {
        tlsStarted := true;
        LogExtends(events, serial, tlsDone, publishDone, TlsBegin);
        Report(TlsBegin);
      }
      if ret == 0 && !tlsDone {
        tlsDone := true;
        LogExtends(events, serial, false, publishDone, TlsComplete);
        Report(TlsComplete);
      }
    }

    /** An ordinary nonblocking result is no error, and one error is reported per connection. */
    method ObserveError(ret: int)
      requires Valid()
      modifies this`errorDone, this`events
      ensures Valid()
      ensures
        var fails := ret < 0 && ret != GNUTLS_AGAIN && ret != GNUTLS_INTERRUPTED && !old(errorDone);
        && errorDone == (old(errorDone) || fails)
        && events == old(events) + if fails then [Event(serial, TransportError(ret))] else []
    {
      hide EndsAt, Occurs, LogOk, Token;
      if ret < 0 && ret != GNUTLS_AGAIN && ret != GNUTLS_INTERRUPTED && !errorDone {
        errorDone := true;
        LogExtends(events, serial, tlsDone, publishDone, TransportError(ret));
        Report(TransportError(ret));
      }
    }

    /** Shifts the window by one byte when it is full, then appends the byte. */
    method Append(x: Byte)
      requires tail.Length == WINDOW && tailLen <= WINDOW
      requires tail[..tailLen] == Last(received)
      modifies this`tailLen, this`received, tail
      ensures tailLen <= WINDOW && received == old(received) + [x] && tail[..tailLen] == Last(received)
    {
      if tailLen == WINDOW {
        forall k | 0 <= k < WINDOW - 1 {
          tail[k] := tail[k + 1];
        }
        tailLen := tailLen - 1;
      }
      tail[tailLen] := x;
      tailLen := tailLen + 1;
      received := received + [x];
    }

    /** One record: the token is reported by this call exactly when it holds the last byte of its first occurrence
        in everything that the connection received since its handshake. */
    method RecordRecv(ret: int, data: seq<Byte>)
      requires Valid() && (ret > 0 ==> |data| == ret)
      modifies this, tail
      ensures Valid() && serial == old(serial) && tlsDone == old(tlsDone)
      ensures received == if ret > 0 && tlsDone then old(received) + data else old(received)
      ensures
        var fails := ret < 0 && ret != GNUTLS_AGAIN && ret != GNUTLS_INTERRUPTED && !old(errorDone);
        var acknowledges := !old(Occurs(Token(), received)) && Occurs(Token(), received);
        events == old(events) + (if fails then [Event(serial, TransportError(ret))] else [])
                              + (if acknowledges then [Event(serial, PublishAck)] else [])
    {
      hide EndsAt, Occurs, LogOk, Token;
      ObserveError(ret);
      if ret > 0 && tlsDone && !publishDone {
        Scan(data);
      } else if ret > 0 && tlsDone {
        OccursGrows(Token(), received, data);
        received := received + data;
      }
    }

    /** Appends one byte and compares the end of the window with the token. */
    method Match(x: Byte) returns (matched: bool)
      requires tail.Length == WINDOW && tailLen <= WINDOW
      requires tail[..tailLen] == Last(received) && !Occurs(Token(), received)
      modifies this`tailLen, this`received, tail
      ensures tailLen <= WINDOW && received == old(received) + [x] && tail[..tailLen] == Last(received)
      ensures matched <==> Occurs(Token(), received)
    {
      hide EndsAt, Occurs, Token;
      ghost var before := received;
      var token := Token();
      Append(x);
      OccursOneMore(token, before, x);
      WindowSuffices(token, received);
      if tailLen < |token| {
        return false;
      }
      assert tail[tailLen - |token|..tailLen] == tail[..tailLen][tailLen - |token|..];
      matched := tail[tailLen - |token|..tailLen] == token;
    }

    method Scan(data: seq<Byte>)
      requires Valid() && tlsDone && !publishDone
      modifies this`tailLen, this`received, this`publishDone, this`events, tail
      ensures Valid() && received == old(received) + data
      ensures events == old(events) + if Occurs(Token(), received) then [Event(serial, PublishAck)] else []
    {
      hide EndsAt, Occurs, LogOk, Token, Last;
      var i := 0;
      while i < |data|
        invariant 0 <= i <= |data| && tailLen <= WINDOW && !publishDone
        invariant received + data[i..] == old(received) + data && tail[..tailLen] == Last(received)
        invariant !Occurs(Token(), received) && events == old(events)
      {
        assert data[i..] == [data[i]] + data[i + 1..];
        var matched := Match(data[i]);
        i := i + 1;
        if matched {
          publishDone := true;
          LogExtends(events, serial, tlsDone, false, PublishAck);
          Report(PublishAck);
          OccursGrows(Token(), received, data[i..]);
          received := received + data[i..];
          return;
        }
      }
      assert received + data[i..] == received;
    }

    /** The calls of one connection after its handshake.  Whatever the records' boundaries, call `k` reports exactly
        when it brings the last byte of the token's first occurrence in the stream that they make up; some call
        does exactly when the token occurs in that stream, and no two do. */
    method Receive(chunks: seq<seq<Byte>>) returns (reported: seq<bool>)
      requires Valid() && tlsDone && received == []
      requires forall k :: 0 <= k < |chunks| ==> chunks[k] != []
      modifies this, tail
      ensures Valid() && received == Join(chunks) && serial == old(serial)
      ensures |reported| == |chunks|
      ensures events == old(events) + if Occurs(Token(), Join(chunks)) then [Event(serial, PublishAck)] else []
      ensures Occurs(Token(), Join(chunks)) ==> exists n: nat :: FirstEnd(Token(), Join(chunks), n)
      ensures forall k, n: nat :: 0 <= k < |chunks| && FirstEnd(Token(), Join(chunks), n) ==>
        (reported[k] <==> |Join(chunks[..k])| < n <= |Join(chunks[..k + 1])|)
      ensures (exists k :: 0 <= k < |chunks| && reported[k]) <==> Occurs(Token(), Join(chunks))
      ensures forall i, j :: 0 <= i < j < |chunks| ==> !(reported[i] && reported[j])
    {
      hide EndsAt, Occurs, LogOk, Token, FirstEnd, Join, Last, Happened;
      reported := [];
      NothingReceived(chunks);
      ghost var before := events;
      for k := 0 to |chunks|
        invariant Valid() && tlsDone && serial == old(serial) && received == Join(chunks[..k])
        invariant |reported| == k && forall i :: 0 <= i < k ==> reported[i] == Reports(Token(), chunks, i)
        invariant events == before + if Occurs(Token(), Join(chunks[..k])) then [Event(serial, PublishAck)] else []
      {
        JoinOneMore(chunks, k);
        OccursGrows(Token(), received, chunks[k]);
        var logged := |events|;
        RecordRecv(|chunks[k]|, chunks[k]);
        reported := reported + [|events| > logged];
      }
      assert chunks[..|chunks|] == chunks;
      ReportsConclude(Token(), chunks, reported);
    }
  }

  lemma NothingReceived(chunks: seq<seq<Byte>>)
    ensures Join(chunks[..0]) == [] && !Occurs(Token(), [])
  {
    NothingOccurs(Token());
  }

  lemma JoinOneMore(chunks: seq<seq<Byte>>, k: nat)
    requires k < |chunks|
    ensures Join(chunks[..k + 1]) == Join(chunks[..k]) + chunks[k]
  {
    assert chunks[..k + 1][..k] == chunks[..k];
  }

  lemma EndsAfterStart(token: seq<Byte>, s: seq<Byte>, n: int)
    requires EndsAt(token, s, n)
    ensures n >= 0
  {
  }

  lemma ReportsConclude(token: seq<Byte>, chunks: seq<seq<Byte>>, reported: seq<bool>)
    requires token != [] && |reported| == |chunks|
    requires forall k :: 0 <= k < |chunks| ==> reported[k] == Reports(token, chunks, k)
    ensures forall k, n: nat :: 0 <= k < |chunks| && FirstEnd(token, Join(chunks), n) ==>
      (reported[k] <==> |Join(chunks[..k])| < n <= |Join(chunks[..k + 1])|)
    ensures Occurs(token, Join(chunks)) ==> exists n: nat :: FirstEnd(token, Join(chunks), n)
    ensures (exists k :: 0 <= k < |chunks| && reported[k]) <==> Occurs(token, Join(chunks))
    ensures forall i, j :: 0 <= i < j < |chunks| ==> !(reported[i] && reported[j])
  {
    hide EndsAt, FirstEnd, Join, Reports;
    ReportedOnceIffOccurs(token, chunks);
    if Occurs(token, Join(chunks)) {
      var end :| EndsAt(token, Join(chunks), end);
      EndsAfterStart(token, Join(chunks), end);
      var first := Earliest(token, Join(chunks), end);
    }
    forall k, n: nat | 0 <= k < |chunks| && FirstEnd(token, Join(chunks), n)
      ensures reported[k] <==> |Join(chunks[..k])| < n <= |Join(chunks[..k + 1])|
    {
      ReportsAtFirstOccurrence(token, chunks, k, n);
    }
  }

  lemma NewConnection(events: seq<Event>, serial: int, tlsDone: bool, publishDone: bool)
    requires LogOk(events, serial, tlsDone, publishDone)
    ensures LogOk(events, serial + 1, false, false)
  {
  }

  lemma NothingOccurs(token: seq<Byte>)
    requires token != []
    ensures !Occurs(token, [])
  {
  }

  lemma LogExtends(events: seq<Event>, serial: int, tlsDone: bool, publishDone: bool, stage: Stage)
    requires LogOk(events, serial, tlsDone, publishDone)
    requires stage == PublishAck ==> tlsDone && !publishDone
    ensures LogOk(events + [Event(serial, stage)], serial, tlsDone || stage == TlsComplete,
        publishDone || stage == PublishAck)
  {
    hide Happened;
    var longer := events + [Event(serial, stage)];
    forall i, connection, s | 0 <= i <= |events|
      ensures Happened(longer, i, connection, s) == Happened(events, i, connection, s) {
      HappenedBefore(events, Event(serial, stage), i, connection, s);
    }
    forall connection, s
      ensures Happened(longer, |longer|, connection, s) ==
        (Happened(events, |events|, connection, s) || Event(connection, s) == Event(serial, stage))
    {
      HappenedBefore(events, Event(serial, stage), |events|, connection, s);
    }
    if stage == PublishAck {
      forall i | 0 <= i < |events| && events[i].stage == PublishAck ensures events[i].connection < serial {
        if events[i].connection == serial {
          IsHappened(events, i);
        }
      }
    }
  }

  lemma IsHappened(events: seq<Event>, i: nat)
    requires i < |events|
    ensures Happened(events, |events|, events[i].connection, events[i].stage)
  {
  }

  lemma HappenedBefore(events: seq<Event>, last: Event, i: nat, connection: int, stage: Stage)
    requires i <= |events|
    ensures Happened(events + [last], i, connection, stage) == Happened(events, i, connection, stage)
    ensures Happened(events + [last], |events| + 1, connection, stage) ==
      (Happened(events, |events|, connection, stage) || Event(connection, stage) == last)
  {
    var longer := events + [last];
    assert longer[|events|] == last;
    if Happened(events, i, connection, stage) {
      var k :| 0 <= k < i && events[k] == Event(connection, stage);
      assert longer[k] == events[k];
    }
    if Happened(events, |events|, connection, stage) {
      var k :| 0 <= k < |events| && events[k] == Event(connection, stage);
      assert longer[k] == events[k];
    }
  }
}
