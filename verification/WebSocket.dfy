/**
The benchmark client's end of a WebSocket (bench/client.py): frames read from a buffer that grows by
whatever the socket delivers, and masked frames sent. The frame format is that of section 5.2 of
RFC 6455, the masking that of its section 5.3.
*/
module WebSockets {
  import opened Utf8
  import opened Wrappers

  datatype Frame = Frame(opcode: nat, payload: seq<Byte>)

  /** What one `recv` delivers; an end of the stream delivers nothing. */
  type Chunk = c: seq<Byte> | c != [] witness [0]

  // ----- numbers in network byte order -----

  function Limit(k: nat): (r: nat)
    ensures r > 0
  {
    if k == 0 then 1 else 256 * Limit(k - 1)
  }

  function Pack(n: nat, k: nat): (s: seq<Byte>)
    ensures |s| == k
  {
    if k == 0 then [] else Pack(n / 256, k - 1) + [n % 256]
  }

  function Digit(b: Byte): nat {
    b
  }

  function Unpack(s: seq<Byte>): nat {
    if s == [] then 0 else 256 * Unpack(s[..|s| - 1]) + Digit(s[|s| - 1])
  }

  lemma {:induction false} UnpackOfPack(n: nat, k: nat)
    requires n < Limit(k)
    ensures Unpack(Pack(n, k)) == n
  {
    if k > 0 {
      UnpackOfPack(n / 256, k - 1);
      assert Pack(n, k)[..k - 1] == Pack(n / 256, k - 1);
    }
  }

  /** The first byte is the most significant one. */
  lemma {:induction false} UnpackIsBigEndian(b: Byte, s: seq<Byte>)
    ensures Unpack([b] + s) == Digit(b) * Limit(|s|) + Unpack(s)
  {
    var t := [b] + s;
    if s == [] {
      assert t[..0] == [] && Unpack(t[..0]) == 0;
    } else {
      var before := s[..|s| - 1];
      assert t[..|t| - 1] == [b] + before;
      UnpackIsBigEndian(b, before);
      assert 256 * (Digit(b) * Limit(|before|)) == Digit(b) * (256 * Limit(|before|));
    }
  }

  lemma {:induction false} Limits()
    ensures Limit(2) == 0x1_0000 && Limit(8) == 0x1_0000_0000_0000_0000
  {
    assert Limit(1) == 256 * Limit(0);
    assert Limit(2) == 256 * Limit(1);
    assert Limit(3) == 256 * Limit(2);
    assert Limit(4) == 256 * Limit(3);
    assert Limit(5) == 256 * Limit(4);
    assert Limit(6) == 256 * Limit(5);
    assert Limit(7) == 256 * Limit(6);
  }

  // ----- receiving -----

  /** The length field: the bytes before the payload, and the payload's length, once they are there. */
  function Header(s: seq<Byte>): Option<(nat, nat)> {
    if |s| < 2 then None
    else
      var length := Digit(s[1]) % 128;
      if length == 126 then if |s| < 4 then None else Some((4, Unpack(s[2..4])))
      else if length == 127 then if |s| < 10 then None else Some((10, Unpack(s[2..10])))
      else Some((2, length))
  }

  /** The first frame of a stream and what follows it, once all of it is there. */
  function Take(s: seq<Byte>): Option<(Frame, seq<Byte>)> {
    match Header(s)
    case None => None
    case Some((at, length)) =>
      if |s| < at + length then None
      else Some((Frame(Digit(s[0]) % 16, s[at..at + length]), s[at + length..]))
  }

  /** Once the frame is buffered, what is still to come does not change it. */
  lemma {:induction false} TakeOfBuffer(buffer: seq<Byte>, more: seq<Byte>, at: nat, length: nat)
    requires Header(buffer + more) == Some((at, length)) && 0 < at && at + length <= |buffer|
    ensures Take(buffer + more) == Some((Frame(Digit(buffer[0]) % 16, buffer[at..at + length]), buffer[at + length..] + more))
  {
    var s := buffer + more;
    assert s[at..at + length] == buffer[at..at + length];
    assert s[at + length..] == buffer[at + length..] + more;
  }

  function Concat(chunks: seq<Chunk>): seq<Byte> {
    if chunks == [] then [] else chunks[0] + Concat(chunks[1..])
  }

  datatype Error = Closed | TooLong

  class WebSocket {
    var buffer: seq<Byte>
    /** What the socket will deliver before it ends, and what was sent to it. */
    var incoming: seq<Chunk>
    var outgoing: seq<Byte>

    constructor (buffer: seq<Byte>, incoming: seq<Chunk>)
      ensures Stream() == buffer + Concat(incoming) && outgoing == []
    {
      this.buffer, this.incoming, outgoing := buffer, incoming, [];
    }

    /** All bytes still to be read, buffered or not. */
    function Stream(): seq<Byte>
      reads this
    {
      buffer + Concat(incoming)
    }

    /** Reads until `n` bytes are buffered. */
    method Need(n: nat) returns (open: bool)
      modifies `buffer, `incoming
      ensures Stream() == old(Stream()) && old(buffer) <= buffer
      ensures open <==> |Stream()| >= n
      ensures open ==> |buffer| >= n
    {
      while |buffer| < n
        invariant Stream() == old(Stream()) && old(buffer) <= buffer
        decreases |incoming|
      {
        if incoming == [] {
          return false;
        }
        var data := incoming[0];
        assert buffer + Concat(incoming) == buffer + data + Concat(incoming[1..]);
        incoming := incoming[1..];
        buffer := buffer + data;
      }
      return true;
    }

    /** The length field of the next frame, with the bytes before the payload buffered. */
    method ReadHeader() returns (head: Option<(nat, nat)>)
      modifies `buffer, `incoming
      ensures Stream() == old(Stream()) && head == Header(Stream())
      ensures head.Some? ==> 2 <= head.value.0 <= |buffer|
    {
      var open := Need(2);
      if !open { return None; }
      var length := Digit(buffer[1]) % 128;
      assert buffer[1] == Stream()[1];
      if length == 126 {
        open := Need(4);
        if !open { return None; }
        assert buffer[2..4] == Stream()[2..4];
        return Some((4, Unpack(buffer[2..4])));
      } else if length == 127 {
        open := Need(10);
        if !open { return None; }
        assert buffer[2..10] == Stream()[2..10];
        return Some((10, Unpack(buffer[2..10])));
      }
      return Some((2, length));
    }

    /**
    The first frame of the stream, wherever the chunks end, and the stream without it; or, if the
    stream ends before the frame does, an error that loses no byte.
    */
    method Receive() returns (r: Result<Frame, Error>)
      modifies `buffer, `incoming
      ensures match Take(old(Stream()))
              case Some((frame, rest)) => r == Ok(frame) && Stream() == rest
              case None => r == Err(Closed) && Stream() == old(Stream())
    {
      var head := ReadHeader();
      if head.None? { return Err(Closed); }
      var opcode, at, length := Digit(buffer[0]) % 16, head.value.0, head.value.1;
      var open := Need(at + length);
      if !open { return Err(Closed); }
      TakeOfBuffer(buffer, Concat(incoming), at, length);
      var payload := buffer[at..at + length];
      buffer := buffer[at + length..];
      return Ok(Frame(opcode, payload));
    }

    /** One frame with the text of a value, unless the text is too long for the length field. */
    method Send(payload: seq<Byte>, mask: seq<Byte>) returns (r: Result<(), Error>)
      requires |mask| == 4
      modifies `outgoing
      ensures match Sent(payload, mask)
              case Some(bytes) => r == Ok(()) && outgoing == old(outgoing) + bytes
              case None => r == Err(TooLong) && outgoing == old(outgoing)
      ensures r == if |payload| <= 65535 then Ok(()) else Err(TooLong)
      ensures r.Err? ==> outgoing == old(outgoing)
      ensures r.Ok? ==> |outgoing| >= |old(outgoing)| && outgoing[..|old(outgoing)|] == old(outgoing)
      ensures r.Ok? ==> IsTextFrame(outgoing[|old(outgoing)|..], payload, mask)
    {
      SentIsTextFrame(payload, mask);
      var n := |payload|;
      var header := [0x81];
      if n < 126 {
        header := header + [0x80 + n];
      } else {
        if n > 0xFFFF { return Err(TooLong); }
        header := header + [0x80 + 126] + Pack(n, 2);
      }
      var bytes := header + mask + Masked(payload, mask);
      assert (outgoing + bytes)[|outgoing|..] == bytes && (outgoing + bytes)[..|outgoing|] == outgoing;
      outgoing := outgoing + bytes;
      return Ok(());
    }
  }

  // ----- frames of section 5.2 -----

  /** The three forms of the length field. */
  datatype Form = Short | Word | Long

  predicate Holds(form: Form, n: nat) {
    match form
    case Short => n < 126
    case Word => n < 0x1_0000
    case Long => n < 0x1_0000_0000_0000_0000
  }

  function LengthField(form: Form, n: nat): seq<Byte>
    requires Holds(form, n)
  {
    match form
    case Short => [n]
    case Word => [126] + Pack(n, 2)
    case Long => [127] + Pack(n, 8)
  }

  /** An unmasked frame. */
  function Encode(final: bool, form: Form, f: Frame): seq<Byte>
    requires f.opcode < 16 && Holds(form, |f.payload|)
  {
    [if final then 0x80 + f.opcode else f.opcode] + LengthField(form, |f.payload|) + f.payload
  }

  lemma {:induction false} ShortHeader(first: Byte, n: nat, rest: seq<Byte>)
    requires n < 126
    ensures Header([first] + [n] + rest) == Some((2, n))
  {
  }

  lemma {:induction false} WordHeader(first: Byte, n: nat, rest: seq<Byte>)
    requires n < Limit(2)
    ensures Header([first] + ([126] + Pack(n, 2)) + rest) == Some((4, n))
  {
    var s := [first] + ([126] + Pack(n, 2)) + rest;
    assert s[2..4] == Pack(n, 2);
    UnpackOfPack(n, 2);
  }

  lemma {:induction false} LongHeader(first: Byte, n: nat, rest: seq<Byte>)
    requires n < Limit(8)
    ensures Header([first] + ([127] + Pack(n, 8)) + rest) == Some((10, n))
  {
    var s := [first] + ([127] + Pack(n, 8)) + rest;
    assert s[2..10] == Pack(n, 8);
    UnpackOfPack(n, 8);
  }

  lemma {:induction false} HeaderOfEncode(form: Form, n: nat, first: Byte, rest: seq<Byte>)
    requires Holds(form, n)
    ensures var field := LengthField(form, n);
            Header([first] + field + rest) == Some((1 + |field|, n))
  {
    Limits();
    match form
    case Short => ShortHeader(first, n, rest);
    case Word => WordHeader(first, n, rest);
    case Long => LongHeader(first, n, rest);
  }

  lemma {:induction false} OpcodeOf(final: bool, opcode: nat)
    requires opcode < 16
    ensures Digit(if final then 0x80 + opcode else opcode) % 16 == opcode
  {
  }

  /** A frame in any form is read back, and nothing after it is touched. */
  lemma {:induction false} TakeOfEncode(final: bool, form: Form, f: Frame, rest: seq<Byte>)
    requires f.opcode < 16 && Holds(form, |f.payload|)
    ensures Take(Encode(final, form, f) + rest) == Some((f, rest))
  {
    var first: Byte := if final then 0x80 + f.opcode else f.opcode;
    var field := LengthField(form, |f.payload|);
    HeaderOfEncode(form, |f.payload|, first, f.payload + rest);
    TakeOfParts(first, field, f.payload, rest);
    OpcodeOf(final, f.opcode);
  }

  lemma {:induction false} TakeOfParts(first: Byte, field: seq<Byte>, payload: seq<Byte>, rest: seq<Byte>)
    requires Header([first] + field + (payload + rest)) == Some((1 + |field|, |payload|))
    ensures Take([first] + field + payload + rest) == Some((Frame(Digit(first) % 16, payload), rest))
  {
    var s := [first] + field + payload + rest;
    var at, n := 1 + |field|, |payload|;
    assert s == [first] + field + (payload + rest);
    assert s[at..at + n] == payload && s[at + n..] == rest;
  }

  /** No frame is returned before its last byte has arrived. */
  lemma {:induction false} TakeWaits(final: bool, form: Form, f: Frame, n: nat)
    requires f.opcode < 16 && Holds(form, |f.payload|) && n < |Encode(final, form, f)|
    ensures Take(Encode(final, form, f)[..n]) == None
  {
    var first: Byte := if final then 0x80 + f.opcode else f.opcode;
    var field := LengthField(form, |f.payload|);
    var s := Encode(final, form, f);
    var t := s[..n];
    if n > |field| {
      assert t == [first] + field + f.payload[..n - 1 - |field|];
      HeaderOfEncode(form, |f.payload|, first, f.payload[..n - 1 - |field|]);
    } else if n >= 2 {
      assert s[1] == field[0] && t[1] == s[1];
    }
  }

  datatype Sending = Sending(final: bool, form: Form, frame: Frame) {
    predicate Fine() {
      frame.opcode < 16 && Holds(form, |frame.payload|)
    }

    function Code(): seq<Byte>
      requires Fine()
    {
      Encode(final, form, frame)
    }
  }

  predicate AllFine(sendings: seq<Sending>) {
    forall i :: 0 <= i < |sendings| ==> sendings[i].Fine()
  }

  function EncodeAll(sendings: seq<Sending>): seq<Byte>
    requires AllFine(sendings)
  {
    if sendings == [] then [] else sendings[0].Code() + EncodeAll(sendings[1..])
  }

  function FramesOf(sendings: seq<Sending>): seq<Frame> {
    if sendings == [] then [] else [sendings[0].frame] + FramesOf(sendings[1..])
  }

  lemma {:induction false} TakeShrinks(s: seq<Byte>)
    ensures Take(s).Some? ==> |Take(s).value.1| < |s|
  {
  }

  /** What repeated calls of `Receive` return until the stream ends. */
  function Received(stream: seq<Byte>): seq<Frame>
    decreases |stream|
  {
    TakeShrinks(stream);
    match Take(stream)
    case None => []
    case Some((frame, rest)) => [frame] + Received(rest)
  }

  lemma {:induction false} ReceivedStep(stream: seq<Byte>, frame: Frame, rest: seq<Byte>)
    requires Take(stream) == Some((frame, rest))
    ensures Received(stream) == [frame] + Received(rest)
  {
  }

  lemma {:induction false} FirstArrives(s: Sending, more: seq<Byte>)
    requires s.Fine()
    ensures Received(s.Code() + more) == [s.frame] + Received(more)
  {
    TakeOfEncode(s.final, s.form, s.frame, more);
    ReceivedStep(s.Code() + more, s.frame, more);
  }

  lemma {:induction false} BrokenWaits(last: Sending, n: nat)
    requires last.Fine() && n < |last.Code()|
    ensures Received(last.Code()[..n]) == []
  {
    TakeWaits(last.final, last.form, last.frame, n);
  }

  /** Frames sent one after the other are all received, in order, and a broken one after them is not. */
  lemma {:induction false} FramesArrive(sendings: seq<Sending>, last: Sending, n: nat)
    requires AllFine(sendings) && last.Fine() && n < |last.Code()|
    ensures Received(EncodeAll(sendings) + last.Code()[..n]) == FramesOf(sendings)
    decreases |sendings|
  {
    var broken := last.Code()[..n];
    if sendings == [] {
      BrokenWaits(last, n);
      assert EncodeAll(sendings) + broken == broken;
    } else {
      var first, rest := sendings[0].Code(), EncodeAll(sendings[1..]);
      assert (first + rest) + broken == first + (rest + broken);
      FirstArrives(sendings[0], rest + broken);
      FramesArrive(sendings[1..], last, n);
    }
  }

  /** The calls of `Receive` until the stream ends. */
  method ReceiveAll(socket: WebSocket) returns (frames: seq<Frame>)
    modifies socket
    ensures frames == Received(old(socket.Stream()))
  {
    frames := [];
    ghost var left := socket.Stream();
    while true
      invariant left == socket.Stream()
      invariant frames + Received(left) == Received(old(socket.Stream()))
      decreases |left|
    {
      var r := socket.Receive();
      if r.Err? {
        return;
      }
      TakeShrinks(left);
      ReceivedStep(left, r.value, socket.Stream());
      left := socket.Stream();
      frames := frames + [r.value];
    }
  }

  // ----- masking, section 5.3 -----

  function Mix(a: Byte, b: Byte): Byte {
    ((a as bv8) ^ (b as bv8)) as Byte
  }

  function Masked(payload: seq<Byte>, mask: seq<Byte>): (r: seq<Byte>)
    requires |mask| == 4
    ensures |r| == |payload|
  {
    seq(|payload|, i requires 0 <= i < |payload| => Mix(payload[i], mask[i % 4]))
  }

  /** The bytes of `Send`; none where packing the length raises. */
  function Sent(payload: seq<Byte>, mask: seq<Byte>): Option<seq<Byte>>
    requires |mask| == 4
  {
    var n := |payload|;
    if n < 126 then Some([0x81] + [0x80 + n] + mask + Masked(payload, mask))
    else if n <= 0xFFFF then Some([0x81] + [0x80 + 126] + Pack(n, 2) + mask + Masked(payload, mask))
    else None
  }

  /** The number that two bytes stand for, the high one first. */
  function Two(high: Byte, low: Byte): nat {
    var h: nat, l: nat := high, low;
    256 * h + l
  }

  /**
  The bytes are one masked text frame: the final bit and opcode 1, the mask bit and the length in its
  shortest form, the mask, and each byte of the payload combined with the mask's byte of its index modulo 4.
  */
  predicate IsTextFrame(bytes: seq<Byte>, payload: seq<Byte>, mask: seq<Byte>)
    requires |mask| == 4
  {
    var n := |payload|;
    var at := if n < 126 then 2 else 4;
    && |bytes| == at + 4 + n
    && bytes[0] as int == 0x81
    && (n < 126 ==> bytes[1] as int == 0x80 + n)
    && (n >= 126 ==> bytes[1] as int == 0xFE && Two(bytes[2], bytes[3]) == n)
    && bytes[at..at + 4] == mask
    && Keyed(bytes[at + 4..], payload, mask)
  }

  /** The bytes are the payload's, each combined with the key's byte of its index modulo 4. */
  predicate Keyed(s: seq<Byte>, payload: seq<Byte>, key: seq<Byte>)
    requires |key| == 4
  {
    |s| == |payload| && forall i :: 0 <= i < |s| ==> IsXor(s[i], payload[i], key[i % 4])
  }

  /** A byte is the exclusive or of two others. */
  predicate IsXor(r: Byte, a: Byte, b: Byte) {
    r as bv8 == (a as bv8) ^ (b as bv8)
  }

  lemma {:induction false} SentIsTextFrame(payload: seq<Byte>, mask: seq<Byte>)
    requires |mask| == 4
    ensures Sent(payload, mask).Some? <==> |payload| <= 65535
    ensures Sent(payload, mask).Some? ==> IsTextFrame(Sent(payload, mask).value, payload, mask)
  {
    if Sent(payload, mask).Some? {
      var bytes, n := Sent(payload, mask).value, |payload|;
      var at := if n < 126 then 2 else 4;
      if n >= 126 {
        PackTwo(n);
      }
      assert bytes[at..at + 4] == mask;
      assert bytes[at + 4..] == Masked(payload, mask);
      MaskedIsKeyed(payload, mask);
    }
  }

  lemma {:induction false} MaskedIsKeyed(payload: seq<Byte>, mask: seq<Byte>)
    requires |mask| == 4
    ensures Keyed(Masked(payload, mask), payload, mask)
  {
    forall i | 0 <= i < |payload|
      ensures IsXor(Masked(payload, mask)[i], payload[i], mask[i % 4])
    {
      BackAgain((payload[i] as bv8) ^ (mask[i % 4] as bv8));
    }
  }

  lemma {:induction false} PackTwo(n: nat)
    requires n < 0x1_0000
    ensures Two(Pack(n, 2)[0], Pack(n, 2)[1]) == n
  {
    Limits();
    UnpackOfPack(n, 2);
    var s := Pack(n, 2);
    assert s == [s[0]] + [s[1]];
    UnpackIsBigEndian(s[0], [s[1]]);
    assert Limit(1) == 256 * Limit(0) && Unpack([s[1]][..0]) == 0;
  }

  lemma {:induction false} BackAgain(b: bv8)
    ensures (b as Byte) as bv8 == b
  {
  }

  // ----- a server's end -----

  /** Unmasking with the key's bytes in turn. */
  function Unmasked(s: seq<Byte>, key: seq<Byte>): seq<Byte>
    requires |key| == 4
  {
    if s == [] then [] else [Unkeyed(s[0], key[0])] + Unmasked(s[1..], key[1..] + [key[0]])
  }

  function Unkeyed(b: Byte, k: Byte): Byte {
    ((b as bv8) ^ (k as bv8)) as Byte
  }

  /** The length field of a masked frame and where the mask begins; the shortest form is required. */
  function MaskedHeader(s: seq<Byte>): Option<(nat, nat)> {
    if |s| < 2 || s[1] < 128 then None
    else
      var length: nat := s[1] - 128;
      if length < 126 then Some((2, length))
      else if length == 126 then
        if |s| < 4 || Two(s[2], s[3]) < 126 then None else Some((4, Two(s[2], s[3])))
      else if |s| < 10 || Unpack(s[2..10]) < 0x1_0000 then None
      else Some((10, Unpack(s[2..10])))
  }

  /**
  A server's reading of a client's frame by sections 5.2 and 5.3: the final frame of a message, no
  reserved bit, a mask, and the payload unmasked.
  */
  function TakeMasked(s: seq<Byte>): Option<(Frame, seq<Byte>)> {
    match MaskedHeader(s)
    case None => None
    case Some((at, n)) =>
      if |s| < at + 4 + n || s[0] / 128 != 1 || s[0] / 16 % 8 != 0 then None
      else
        var payload := s[at + 4..at + 4 + n];
        Some((Frame(s[0] % 16, Unmasked(payload, s[at..at + 4])), s[at + 4 + n..]))
  }

  /** Every byte is the value of eight bits, found from its half. */
  lemma {:induction false} BitsOf(a: nat) returns (x: bv8)
    requires a < 256
    ensures x as nat == a
  {
    if a == 0 {
      x := 0;
    } else {
      var half := BitsOf(a / 2);
      Twice(half);
      x := if a % 2 == 0 then half * 2 else half * 2 + 1;
    }
  }

  lemma {:induction false} Twice(x: bv8)
    requires x as nat < 128
    ensures (x * 2) as nat == 2 * (x as nat) && (x * 2 + 1) as nat == 2 * (x as nat) + 1
  {
  }

  lemma {:induction false} ThereAndBack(a: Byte)
    ensures (a as bv8) as Byte == a
  {
    var x := BitsOf(a);
    assert (x as nat) as bv8 == x;
  }

  lemma {:induction false} XorTwice(x: bv8, k: bv8)
    ensures (x ^ k) ^ k == x
  {
  }

  lemma {:induction false} XorBack(a: Byte, b: Byte, k: Byte)
    requires IsXor(b, a, k)
    ensures Unkeyed(b, k) == a
  {
    XorTwice(a as bv8, k as bv8);
    ThereAndBack(a);
  }

  lemma {:induction false} Rotates(key: seq<Byte>, i: nat)
    requires |key| == 4
    ensures (key[1..] + [key[0]])[i % 4] == key[(i + 1) % 4]
  {
  }

  lemma {:induction false} KeyedRest(s: seq<Byte>, payload: seq<Byte>, key: seq<Byte>)
    requires |key| == 4 && Keyed(s, payload, key) && s != []
    ensures Keyed(s[1..], payload[1..], key[1..] + [key[0]])
  {
    var next := key[1..] + [key[0]];
    forall i | 0 <= i < |s[1..]| ensures IsXor(s[1..][i], payload[1..][i], next[i % 4]) {
      Rotates(key, i);
      assert IsXor(s[i + 1], payload[i + 1], key[(i + 1) % 4]);
    }
  }

  lemma {:induction false} UnmaskedIs(s: seq<Byte>, payload: seq<Byte>, key: seq<Byte>)
    requires |key| == 4 && Keyed(s, payload, key)
    ensures Unmasked(s, key) == payload
    decreases |s|
  {
    if s != [] {
      XorBack(payload[0], s[0], key[0]);
      KeyedRest(s, payload, key);
      UnmaskedIs(s[1..], payload[1..], key[1..] + [key[0]]);
      assert payload == [payload[0]] + payload[1..];
    }
  }

  lemma {:induction false} MaskedHeaderIs(s: seq<Byte>, payload: seq<Byte>, mask: seq<Byte>, rest: seq<Byte>)
    requires |mask| == 4 && |payload| <= 65535 && IsTextFrame(s, payload, mask)
    ensures MaskedHeader(s + rest) == Some((if |payload| < 126 then 2 else 4, |payload|))
  {
    var n := |payload|;
    assert (s + rest)[1] == s[1];
  }

  /** A payload is sent if it has at most 65535 bytes, and then a server reads it back as one text frame. */
  lemma {:induction false} SendRoundTrips(payload: seq<Byte>, mask: seq<Byte>, rest: seq<Byte>)
    requires |mask| == 4
    ensures Sent(payload, mask).Some? <==> |payload| <= 65535
    ensures Sent(payload, mask).Some? ==> TakeMasked(Sent(payload, mask).value + rest) == Some((Frame(1, payload), rest))
  {
    SentIsTextFrame(payload, mask);
    if Sent(payload, mask).Some? {
      TextFrameIsRead(Sent(payload, mask).value, payload, mask, rest);
    }
  }

  lemma {:induction false} TextFrameIsRead(s: seq<Byte>, payload: seq<Byte>, mask: seq<Byte>, rest: seq<Byte>)
    requires |mask| == 4 && |payload| <= 65535 && IsTextFrame(s, payload, mask)
    ensures TakeMasked(s + rest) == Some((Frame(1, payload), rest))
  {
    var n, t := |payload|, s + rest;
    var at := if n < 126 then 2 else 4;
    MaskedHeaderIs(s, payload, mask, rest);
    assert t[at + 4 + n..] == rest && t[0] == s[0];
    KeyedPart(s, payload, mask, rest);
    UnmaskedIs(t[at + 4..at + 4 + n], payload, mask);
  }

  lemma {:induction false} KeyedPart(s: seq<Byte>, payload: seq<Byte>, mask: seq<Byte>, rest: seq<Byte>)
    requires |mask| == 4 && IsTextFrame(s, payload, mask)
    ensures var at := if |payload| < 126 then 2 else 4;
            && (s + rest)[at..at + 4] == mask
            && Keyed((s + rest)[at + 4..at + 4 + |payload|], payload, mask)
  {
    var at := if |payload| < 126 then 2 else 4;
    assert (s + rest)[at..at + 4] == s[at..at + 4];
    assert (s + rest)[at + 4..at + 4 + |payload|] == s[at + 4..];
  }
}
