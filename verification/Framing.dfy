/** Length-prefixed framing of the TCP transport, over a byte stream that arrives in arbitrary pieces. */
module Framing {
  import opened Options

  type Byte = b: int | 0 <= b < 256
  type Bytes = seq<Byte>

  const HEADER_SIZE := 4
  const LENGTH_LIMIT := 0x1_0000_0000

  /** `struct.pack("!I", n)`: four bytes, most significant first. */
  function Header(n: nat): (h: Bytes)
    requires n < LENGTH_LIMIT
    ensures |h| == HEADER_SIZE
  {
    [n / 0x100_0000, n / 0x1_0000 % 256, n / 0x100 % 256, n % 256]
  }

  /** `struct.unpack("!I", h)`. */
  function Length(h: Bytes): (n: nat)
    requires |h| == HEADER_SIZE
    ensures n < LENGTH_LIMIT
  {
    h[0] as int * 0x100_0000 + h[1] as int * 0x1_0000 + h[2] as int * 0x100 + h[3] as int
  }

  lemma HeaderRoundTrip(n: nat)
    requires n < LENGTH_LIMIT
    ensures Length(Header(n)) == n
  {
    var q := n / 0x100;
    var r := q / 0x100;
    assert n / 0x1_0000 == r && n / 0x100_0000 == r / 0x100;
  }

  /** Byte strings of equal length compared as numbers, most significant byte first. */
  predicate Below(a: Bytes, b: Bytes)
    requires |a| == |b|
  {
    a != [] && (a[0] < b[0] || (a[0] == b[0] && Below(a[1..], b[1..])))
  }

  /** Network byte order: headers compare as the lengths they stand for. */
  lemma HeadersCompare(m: nat, n: nat)
    requires m < n < LENGTH_LIMIT
    ensures Below(Header(m), Header(n))
  {
    var a, b := Header(m), Header(n);
    HeaderRoundTrip(m);
    HeaderRoundTrip(n);
    assert Length(a) < Length(b);
    hide Header;
    assert a[1..][1..] == a[2..] && a[2..][1..] == a[3..] && b[1..][1..] == b[2..] && b[2..][1..] == b[3..];
    assert a[0] <= b[0];
    if a[0] == b[0] {
      assert a[1] <= b[1];
      if a[1] == b[1] {
        assert a[2] <= b[2];
        if a[2] == b[2] {
          assert a[3] < b[3];
          assert Below(a[3..], b[3..]);
        }
        assert Below(a[2..], b[2..]);
      }
      assert Below(a[1..], b[1..]);
    }
  }

  predicate Sendable(payloads: seq<Bytes>)
  {
    forall i :: 0 <= i < |payloads| ==> |payloads[i]| < LENGTH_LIMIT
  }

  function Frame(payload: Bytes): Bytes
    requires |payload| < LENGTH_LIMIT
  {
    Header(|payload|) + payload
  }

  /** What a sender puts on the wire for a list of payloads. */
  function Encode(payloads: seq<Bytes>): Bytes
    requires Sendable(payloads)
  {
    if payloads == [] then [] else Frame(payloads[0]) + Encode(payloads[1..])
  }

  // ---- The receiver, on a whole stream -----------------------------------------------

  /** The stream starts with a complete frame. */
  predicate HasFrame(stream: Bytes)
  {
    |stream| >= HEADER_SIZE && |stream| - HEADER_SIZE >= Length(stream[..HEADER_SIZE])
  }

  function FirstPayload(stream: Bytes): Bytes
    requires HasFrame(stream)
  {
    stream[HEADER_SIZE..HEADER_SIZE + Length(stream[..HEADER_SIZE])]
  }

  function AfterFrame(stream: Bytes): (rest: Bytes)
    requires HasFrame(stream)
    ensures |rest| < |stream|
  {
    stream[HEADER_SIZE + Length(stream[..HEADER_SIZE])..]
  }

  /** The messages a receiver takes from a stream before it sees the disconnect. */
  function Decode(stream: Bytes): seq<Bytes>
    decreases |stream|
  {
    if HasFrame(stream) then [FirstPayload(stream)] + Decode(AfterFrame(stream)) else []
  }

  /** How many of the frames fit in the first `n` bytes. */
  function Complete(payloads: seq<Bytes>, n: int): (k: nat)
    ensures k <= |payloads|
  {
    if payloads == [] || n < HEADER_SIZE + |payloads[0]| then 0
    else 1 + Complete(payloads[1..], n - HEADER_SIZE - |payloads[0]|)
  }

  /** A frame is recognised whatever follows it. */
  lemma FrameComesOff(payload: Bytes, rest: Bytes)
    requires |payload| < LENGTH_LIMIT
    ensures var stream := Frame(payload) + rest;
            HasFrame(stream) && FirstPayload(stream) == payload && AfterFrame(stream) == rest
  {
    var stream := Frame(payload) + rest;
    HeaderRoundTrip(|payload|);
    assert stream[..HEADER_SIZE] == Header(|payload|);
  }

  /** A frame that is cut short is not recognised. */
  lemma CutFrameStays(payload: Bytes, n: nat)
    requires |payload| < LENGTH_LIMIT && n < |Frame(payload)|
    ensures !HasFrame(Frame(payload)[..n])
  {
    HeaderRoundTrip(|payload|);
    if n >= HEADER_SIZE {
      assert Frame(payload)[..n][..HEADER_SIZE] == Header(|payload|);
    }
  }

  /** A stream cut after any byte yields exactly the payloads whose frames are complete before the cut. */
  lemma {:induction false} CutStream(payloads: seq<Bytes>, n: nat)
    requires Sendable(payloads) && n <= |Encode(payloads)|
    ensures Decode(Encode(payloads)[..n]) == payloads[..Complete(payloads, n)]
  {
    if payloads == [] {
      assert Encode(payloads)[..n] == [];
    } else {
      var first, rest := Frame(payloads[0]), Encode(payloads[1..]);
      if n < |first| {
        assert Encode(payloads)[..n] == first[..n];
        CutFrameStays(payloads[0], n);
      } else {
        var m := n - |first|;
        assert Encode(payloads)[..n] == first + rest[..m];
        FrameComesOff(payloads[0], rest[..m]);
        CutStream(payloads[1..], m);
        var k := Complete(payloads[1..], m);
        assert payloads[..1 + k] == [payloads[0]] + payloads[1..][..k];
      }
    }
  }

  lemma {:induction false} AllComplete(payloads: seq<Bytes>)
    requires Sendable(payloads)
    ensures Complete(payloads, |Encode(payloads)|) == |payloads|
  {
    if payloads != [] {
      AllComplete(payloads[1..]);
    }
  }

  /** Round trip: the receiver gets exactly the list that was sent. */
  lemma RoundTrip(payloads: seq<Bytes>)
    requires Sendable(payloads)
    ensures Decode(Encode(payloads)) == payloads
  {
    AllComplete(payloads);
    assert Encode(payloads)[..|Encode(payloads)|] == Encode(payloads);
    CutStream(payloads, |Encode(payloads)|);
    assert payloads[..|payloads|] == payloads;
  }

  /** `Complete` counts what it should: k frames fit, k + 1 do not. */
  lemma {:induction false} CompleteIsMaximal(payloads: seq<Bytes>, n: nat)
    requires Sendable(payloads)
    ensures var k := Complete(payloads, n);
            && |Encode(payloads[..k])| <= n
            && (k < |payloads| ==> |Encode(payloads[..k + 1])| > n)
  {
    var k := Complete(payloads, n);
    if k == 0 {
      assert payloads[..0] == [];
      if payloads != [] {
        assert payloads[..1] == [payloads[0]] && payloads[..1][1..] == [];
      }
    } else {
      CompleteIsMaximal(payloads[1..], n - HEADER_SIZE - |payloads[0]|);
      assert payloads[..k][1..] == payloads[1..][..k - 1];
      if k < |payloads| {
        assert payloads[..k + 1][1..] == payloads[1..][..k];
      }
    }
  }

  // ---- The receiver, piece by piece ---------------------------------------------------

  /**
   A connected socket.  `incoming` is what the peer has sent before closing; `pieces` decides how
   many bytes each read returns, at least one while there are any, so every chunking is covered.
   */
  class Socket {
    var incoming: Bytes
    var outgoing: Bytes
    var pieces: seq<nat>

    constructor (incoming: Bytes, pieces: seq<nat>)
      ensures this.incoming == incoming && outgoing == []
    {
      this.incoming, this.pieces, outgoing := incoming, pieces, [];
    }

    /** `sock.recv(n)`: a non-empty piece of at most `n` bytes, or nothing after the disconnect. */
    method Recv(n: nat) returns (chunk: Bytes)
      requires n > 0
      modifies this`incoming, this`pieces
      ensures |chunk| <= n && chunk + incoming == old(incoming)
      ensures chunk == [] <==> old(incoming) == []
    {
      var size := if pieces == [] then n else pieces[0];
      pieces := if pieces == [] then [] else pieces[1..];
      if size < 1 {
        size := 1;
      }
      if size > n {
        size := n;
      }
      if size > |incoming| {
        size := |incoming|;
      }
      chunk := incoming[..size];
      incoming := incoming[size..];
    }

    /** `_send_msg`; packing a length of 2^32 or more raises. */
    method SendMsg(data: Bytes) returns (ok: bool)
      modifies this`outgoing
      ensures ok <==> |data| < LENGTH_LIMIT
      ensures outgoing == if |data| < LENGTH_LIMIT then old(outgoing) + Frame(data) else old(outgoing)
    {
      if |data| >= LENGTH_LIMIT {
        return false;
      }
      outgoing := outgoing + Frame(data);
      ok := true;
    }

    /** `_recv_exact`. */
    method RecvExact(n: nat) returns (r: Option<Bytes>)
      modifies this`incoming, this`pieces
      ensures n <= |old(incoming)| ==> r == Some(old(incoming)[..n]) && incoming == old(incoming)[n..]
      ensures n > |old(incoming)| ==> r == None && incoming == []
    {
      var data: Bytes := [];
      var remaining := n;
      while remaining > 0
        invariant 0 <= remaining == n - |data|
        invariant data + incoming == old(incoming)
        decreases remaining
      {
        var chunk := Recv(remaining);
        if chunk == [] {
          return None;
        }
        data := data + chunk;
        remaining := remaining - |chunk|;
      }
      r := Some(data);
      assert data == old(incoming)[..n];
    }

    /** `_recv_msg`. */
    method RecvMsg() returns (r: Option<Bytes>)
      modifies this`incoming, this`pieces
      ensures HasFrame(old(incoming)) ==>
                r == Some(FirstPayload(old(incoming))) && incoming == AfterFrame(old(incoming))
      ensures !HasFrame(old(incoming)) ==> r == None
    {
      var header := RecvExact(HEADER_SIZE);
      if header.None? {
        return None;
      }
      var length := Length(header.value);
      ghost var stream := old(incoming);
      assert HasFrame(stream) ==>
        stream[HEADER_SIZE..][..length] == FirstPayload(stream) && stream[HEADER_SIZE..][length..] == AfterFrame(stream);
      r := RecvExact(length);
    }

    /** The reading loop of a connection: messages until the disconnect. */
    method RecvAll() returns (messages: seq<Bytes>)
      modifies this`incoming, this`pieces
      ensures messages == Decode(old(incoming))
    {
      messages := [];
      var more := true;
      while more
        invariant more ==> messages + Decode(incoming) == Decode(old(incoming))
        invariant !more ==> messages == Decode(old(incoming))
        decreases more, |incoming|
      {
        ghost var before := incoming;
        var raw := RecvMsg();
        if raw.None? {
          more := false;
        } else {
          assert messages + ([raw.value] + Decode(incoming)) == (messages + [raw.value]) + Decode(incoming);
          messages := messages + [raw.value];
        }
      }
    }
  }
}
