/** What goes over a tunnel: the framed handshake and the upload half of a proxied stream. */
module TunnelStream {
  type Byte = x: int | 0 <= x < 256

  // ---- Handshake framing

  const MAX_HANDSHAKE := 8192

  function Magic(): seq<Byte> {
    [0x41, 0x52, 0x50, 0x46, 0x00, 0x01]
  }

  /** Four bytes, most significant first, of a number reduced to 32 bits. */
  function U32(n: nat): seq<Byte> {
    [n / 0x100_0000 % 0x100, n / 0x1_0000 % 0x100, n / 0x100 % 0x100, n % 0x100]
  }

  function FromU32(b: seq<Byte>): nat
    requires |b| == 4
  {
    var w: int, x: int, y: int, z: int := b[0], b[1], b[2], b[3];
    w * 0x100_0000 + x * 0x1_0000 + y * 0x100 + z
  }

  lemma U32RoundTrip(n: nat)
    requires n < 0x1_0000_0000
    ensures FromU32(U32(n)) == n
  {
    var a, b := n / 0x100, n / 0x1_0000;
    assert b == a / 0x100 && n / 0x100_0000 == b / 0x100;
  }

  lemma FromU32RoundTrip(b: seq<Byte>)
    requires |b| == 4
    ensures U32(FromU32(b)) == b && FromU32(b) < 0x1_0000_0000
  {
    var n := FromU32(b);
    var w: int, x: int, y: int := b[0], b[1], b[2];
    assert n / 0x100 == w * 0x1_0000 + x * 0x100 + y;
    assert n / 0x1_0000 == w * 0x100 + x;
    assert n / 0x100_0000 == w;
  }

  datatype Sent = TooLarge | Bytes(bytes: seq<Byte>)

  /** What is written for a serialized handshake. */
  function Encode(payload: seq<Byte>): Sent {
    if |payload| > MAX_HANDSHAKE then TooLarge else Bytes(Magic() + U32(|payload|) + payload)
  }

  datatype Received = Truncated | BadMagic | BadLength | Handshake(payload: seq<Byte>, rest: seq<Byte>)

  /** What is read from the start of `input`; `rest` is left in the stream. */
  function Decode(input: seq<Byte>): Received {
    if |input| < 6 then Truncated
    else if input[..6] != Magic() then BadMagic
    else if |input| < 10 then Truncated
    else
      var length := FromU32(input[6..10]);
      if length == 0 || length > MAX_HANDSHAKE then BadLength
      else if |input| < 10 + length then Truncated
      else Handshake(input[10..10 + length], input[10 + length..])
  }

  lemma HeaderParts(payload: seq<Byte>, rest: seq<Byte>)
    requires |payload| <= MAX_HANDSHAKE
    ensures var input := Encode(payload).bytes + rest;
            input[..6] == Magic() && input[6..10] == U32(|payload|) && FromU32(input[6..10]) == |payload|
            && |input| == 10 + |payload| + |rest|
  {
    U32RoundTrip(|payload|);
  }

  /** On the wire: the magic bytes, the length with its most significant byte first, and the payload; a payload beyond
      8192 bytes is not sent. */
  lemma OnTheWire(payload: seq<Byte>)
    ensures Encode(payload) == if |payload| > 8192 then TooLarge
                               else Bytes([0x41, 0x52, 0x50, 0x46, 0, 1, 0, 0, |payload| / 256, |payload| % 256]
                                          + payload)
  {
    var n := |payload|;
    if n <= 8192 {
      assert n / 0x100_0000 == 0 && n / 0x1_0000 == 0 && n / 0x100 < 0x100;
    }
  }

  /** Decoding what was written gives the payload back and leaves what follows.  A serialized handshake is never
      empty; an empty payload would be refused. */
  lemma HandshakeRoundTrip(payload: seq<Byte>, rest: seq<Byte>)
    requires |payload| <= 8192
    ensures Encode(payload).Bytes?
    ensures Decode(Encode(payload).bytes + rest) == if payload == [] then BadLength else Handshake(payload, rest)
  {
    HeaderParts(payload, rest);
    var input := Encode(payload).bytes + rest;
    if payload != [] {
      assert input[10..10 + |payload|] == payload;
      assert input[10 + |payload|..] == rest;
    }
  }

  /** Nothing else decodes: the consumed bytes are exactly the encoding of the payload. */
  lemma DecodeOnlyEncoded(input: seq<Byte>)
    requires Decode(input).Handshake?
    ensures var r := Decode(input);
            0 < |r.payload| <= MAX_HANDSHAKE && input == Encode(r.payload).bytes + r.rest
  {
    var r := Decode(input);
    FromU32RoundTrip(input[6..10]);
    assert input == input[..6] + input[6..10] + r.payload + r.rest;
  }

  /** A handshake cut short anywhere is never taken for a whole one. */
  lemma CutShort(payload: seq<Byte>, n: nat)
    requires 0 < |payload| <= 8192 && n < 10 + |payload|
    ensures Encode(payload).Bytes? && |Encode(payload).bytes| == 10 + |payload|
    ensures Decode(Encode(payload).bytes[..n]) == Truncated
  {
    var whole := Encode(payload).bytes;
    HeaderParts(payload, []);
    assert whole + [] == whole;
    var input := whole[..n];
    if n >= 6 {
      assert input[..6] == whole[..6];
    }
    if n >= 10 {
      assert input[6..10] == whole[6..10];
    }
  }

  // ---- The upload pump

  const BUFFER := 65536

  /** The local socket's answer to one read; no bytes means its end. */
  datatype Read = Got(bytes: seq<Byte>) | ReadFails

  /** The stream's answer to one wait for capacity, and whether it then takes a frame. */
  datatype Poll = Capacity(size: nat, accepts: bool) | Closed | PollFails

  /** A frame, and the wait whose capacity it was cut to; the closing frame needs none. */
  datatype Frame = Data(bytes: seq<Byte>, slot: nat) | EndOfStream

  datatype Ending = Done | Failed | Waiting

  /** What the first `n` reads gave. */
  ghost function BytesRead(arrivals: seq<Read>, n: nat): seq<Byte>
    requires n <= |arrivals|
  {
    if n == 0 then []
    else
      var earlier, last := BytesRead(arrivals, n - 1), arrivals[n - 1];
      if last.Got? && last.bytes != [] then earlier + last.bytes else earlier
  }

  ghost function Payload(frames: seq<Frame>): seq<Byte> {
    if frames == [] then []
    else
      var last := frames[|frames| - 1];
      Payload(frames[..|frames| - 1]) + if last.Data? then last.bytes else []
  }

  lemma PayloadNext(frames: seq<Frame>, f: Frame)
    ensures Payload(frames + [f]) == Payload(frames) + if f.Data? then f.bytes else []
  {
    assert (frames + [f])[..|frames|] == frames;
  }

  lemma {:induction false} PayloadConcat(a: seq<Frame>, b: seq<Frame>)
    ensures Payload(a + b) == Payload(a) + Payload(b)
  {
    if b == [] {
      assert a + b == a;
    } else {
      var init, last := b[..|b| - 1], b[|b| - 1];
      assert a + b == (a + init) + [last];
      PayloadConcat(a, init);
      PayloadNext(a + init, last);
    }
  }

  /** The piece fits the capacity that wait `slot` granted. */
  predicate Fits(f: Frame, polls: seq<Poll>) {
    && f.Data? && f.slot < |polls| && polls[f.slot].Capacity? && polls[f.slot].accepts
    && 0 < |f.bytes| <= polls[f.slot].size && |f.bytes| <= BUFFER
  }

  /** Data frames that each fit the capacity of a wait of their own, out of the waits from `low` up to `high`. */
  ghost predicate WithinCapacity(frames: seq<Frame>, polls: seq<Poll>, low: nat, high: nat) {
    && low <= high <= |polls|
    && (forall i :: 0 <= i < |frames| ==> Fits(frames[i], polls) && low <= frames[i].slot < high)
    && (forall i, j :: 0 <= i < j < |frames| ==> frames[i].slot < frames[j].slot)
  }

  lemma CapacityConcat(a: seq<Frame>, b: seq<Frame>, polls: seq<Poll>, low: nat, middle: nat, high: nat)
    requires WithinCapacity(a, polls, low, middle) && WithinCapacity(b, polls, middle, high)
    ensures WithinCapacity(a + b, polls, low, high)
  {
    forall i, j | 0 <= i < j < |a + b| ensures (a + b)[i].slot < (a + b)[j].slot {
      if i < |a| <= j {
        assert (a + b)[i] == a[i] && (a + b)[j] == b[j - |a|];
      }
    }
  }

  /** Every piece uses its capacity up, unless it is the last of the buffer. */
  ghost predicate Greedy(pieces: seq<Frame>, polls: seq<Poll>, unsent: seq<Byte>) {
    forall i :: 0 <= i < |pieces| && Fits(pieces[i], polls) ==>
      |pieces[i].bytes| == polls[pieces[i].slot].size || (i == |pieces| - 1 && unsent == [])
  }

  /** One more piece, cut to the capacity of the wait just answered. */
  lemma PieceFits(pieces: seq<Frame>, polls: seq<Poll>, low: nat, slot: nat, unsent: seq<Byte>, size: nat)
    requires WithinCapacity(pieces, polls, low, slot) && slot < |polls| && Greedy(pieces, polls, unsent)
    requires polls[slot].Capacity? && polls[slot].accepts && unsent != [] && |unsent| <= BUFFER
    requires 0 < size == if polls[slot].size < |unsent| then polls[slot].size else |unsent|
    ensures var more := pieces + [Data(unsent[..size], slot)];
            WithinCapacity(more, polls, low, slot + 1) && Greedy(more, polls, unsent[size..])
  {
    var piece := Data(unsent[..size], slot);
    var more := pieces + [piece];
    assert WithinCapacity([piece], polls, slot, slot + 1);
    CapacityConcat(pieces, [piece], polls, low, slot, slot + 1);
    forall i | 0 <= i < |more| && Fits(more[i], polls)
      ensures |more[i].bytes| == polls[more[i].slot].size || (i == |more| - 1 && unsent[size..] == [])
    {
      assert i < |pieces| ==> more[i] == pieces[i];
    }
  }

  /** The frames carry `bytes` in order, but for `unsent` at the end. */
  ghost predicate Carries(frames: seq<Frame>, unsent: seq<Byte>, bytes: seq<Byte>) {
    Payload(frames) + unsent == bytes
  }

  lemma PieceMoves(pieces: seq<Frame>, unsent: seq<Byte>, bytes: seq<Byte>, size: nat, slot: nat)
    requires size <= |unsent| && Carries(pieces, unsent, bytes)
    ensures Carries(pieces + [Data(unsent[..size], slot)], unsent[size..], bytes)
  {
    PayloadNext(pieces, Data(unsent[..size], slot));
    assert unsent == unsent[..size] + unsent[size..];
    assert Payload(pieces) + unsent[..size] + unsent[size..] == Payload(pieces) + unsent;
  }

  lemma ChunkCarried(frames: seq<Frame>, before: seq<Byte>, pieces: seq<Frame>, unsent: seq<Byte>, chunk: seq<Byte>)
    requires Carries(frames, [], before) && Carries(pieces, unsent, chunk)
    ensures Carries(frames + pieces, unsent, before + chunk)
  {
    PayloadConcat(frames, pieces);
    assert Payload(frames) == before;
    assert before + Payload(pieces) + unsent == before + (Payload(pieces) + unsent);
  }

  lemma EndCarried(frames: seq<Frame>, bytes: seq<Byte>)
    requires Carries(frames, [], bytes)
    ensures Carries(frames + [EndOfStream], [], bytes)
  {
    PayloadNext(frames, EndOfStream);
  }

  /** Sends the bytes of one read in pieces as large as the capacity allows; `unsent` is what is left in the buffer. */
  method Drain(chunk: seq<Byte>, polls: seq<Poll>, start: nat)
    returns (pieces: seq<Frame>, unsent: seq<Byte>, polled: nat, ending: Ending)
    requires |chunk| <= BUFFER && start <= |polls|
    ensures WithinCapacity(pieces, polls, start, polled) && Greedy(pieces, polls, unsent)
    ensures Carries(pieces, unsent, chunk)
    ensures ending.Done? <==> unsent == []
    ensures ending.Failed? ==> start < polled && !(polls[polled - 1].Capacity? && polls[polled - 1].accepts)
    ensures ending.Waiting? ==> polled == |polls|
  {
    pieces, unsent, polled := [], chunk, start;
    assert Payload([]) + chunk == chunk;
    while unsent != []
      invariant start <= polled <= |polls| && |unsent| <= |chunk|
      invariant WithinCapacity(pieces, polls, start, polled) && Greedy(pieces, polls, unsent)
      invariant Carries(pieces, unsent, chunk)
      decreases |polls| - polled
    {
      if polled == |polls| {
        return pieces, unsent, polled, Waiting;
      }
      var poll := polls[polled];
      polled := polled + 1;
      if !poll.Capacity? {
        return pieces, unsent, polled, Failed;
      }
      var size := if poll.size < |unsent| then poll.size else |unsent|;
      if size == 0 {
        continue;
      }
      if !poll.accepts {
        return pieces, unsent, polled, Failed;
      }
      PieceFits(pieces, polls, start, polled - 1, unsent, size);
      PieceMoves(pieces, unsent, chunk, size, polled - 1);
      pieces, unsent := pieces + [Data(unsent[..size], polled - 1)], unsent[size..];
    }
    ending := Done;
  }

  /** Sends the bytes of one read after the frames already sent. */
  method Forward(sent: seq<Frame>, chunk: seq<Byte>, polls: seq<Poll>, start: nat, ghost before: seq<Byte>)
    returns (frames: seq<Frame>, unsent: seq<Byte>, polled: nat, ending: Ending)
    requires |chunk| <= BUFFER && WithinCapacity(sent, polls, 0, start) && Carries(sent, [], before)
    ensures WithinCapacity(frames, polls, 0, polled) && Carries(frames, unsent, before + chunk)
    ensures ending.Done? <==> unsent == []
    ensures ending.Failed? ==> 0 < polled && !(polls[polled - 1].Capacity? && polls[polled - 1].accepts)
    ensures ending.Waiting? ==> polled == |polls|
  {
    var pieces;
    pieces, unsent, polled, ending := Drain(chunk, polls, start);
    CapacityConcat(sent, pieces, polls, 0, start, polled);
    ChunkCarried(sent, before, pieces, unsent, chunk);
    frames := sent + pieces;
  }

  /** The pump. `arrivals` and `polls` are the answers so far; `closes` says whether the closing frame is taken.
      `sent` are the data frames, in order; the end of the stream follows them exactly on completion. */
  method Upload(arrivals: seq<Read>, polls: seq<Poll>, closes: bool)
    returns (frames: seq<Frame>, unsent: seq<Byte>, taken: nat, polled: nat, ending: Ending, ghost sent: seq<Frame>)
    requires forall i :: 0 <= i < |arrivals| && arrivals[i].Got? ==> |arrivals[i].bytes| <= BUFFER
    ensures taken <= |arrivals| && WithinCapacity(sent, polls, 0, polled)
    ensures frames == if ending.Done? then sent + [EndOfStream] else sent
    ensures Carries(frames, unsent, BytesRead(arrivals, taken))
    ensures forall i :: 0 <= i < taken - 1 ==> arrivals[i].Got? && arrivals[i].bytes != []
    ensures ending.Done? ==> unsent == [] && 0 < taken && arrivals[taken - 1] == Got([]) && closes
    ensures ending.Waiting? ==> (if unsent == [] then taken == |arrivals| else polled == |polls|)
    ensures ending.Failed? ==>
              if unsent == [] then
                0 < taken && (arrivals[taken - 1].ReadFails? || (arrivals[taken - 1] == Got([]) && !closes))
              else 0 < polled && !(polls[polled - 1].Capacity? && polls[polled - 1].accepts)
  {
    frames, unsent, taken, polled := [], [], 0, 0;
    while taken < |arrivals|
      invariant taken <= |arrivals| && unsent == []
      invariant WithinCapacity(frames, polls, 0, polled)
      invariant Carries(frames, [], BytesRead(arrivals, taken))
      invariant forall i :: 0 <= i < taken ==> arrivals[i].Got? && arrivals[i].bytes != []
    {
      var read := arrivals[taken];
      ghost var before := BytesRead(arrivals, taken);
      taken := taken + 1;
      sent := frames;
      if read.ReadFails? {
        return frames, [], taken, polled, Failed, sent;
      }
      if read.bytes == [] {
        if !closes {
          return frames, [], taken, polled, Failed, sent;
        }
        EndCarried(frames, BytesRead(arrivals, taken));
        return frames + [EndOfStream], [], taken, polled, Done, sent;
      }
      frames, unsent, polled, ending := Forward(frames, read.bytes, polls, polled, before);
      sent := frames;
      if !ending.Done? {
        return;
      }
    }
    ending, sent := Waiting, frames;
  }
}
