/**
 Docker's multiplexed exec stream (team/power_execution.py): frames of an 8-byte header (stream id, three
 padding bytes, big-endian length) and a payload, read from a socket that delivers bytes in pieces of any size.
 */
module RpcFrames {
  import opened Wrappers

  type byte = b: int | 0 <= b < 256

  datatype ReadError = TimedOut | EndOfStream

  datatype FrameError = Timeout | TruncatedHeader | InvalidStream | OversizedFrame | TruncatedPayload | OversizedResponse

  /** The bytes still to come, and how many of them each `recv` hands out; `ready` is the result of `select`. */
  class Socket {
    var data: seq<byte>
    var tick: nat
    const ready: nat -> bool
    const grant: nat -> nat

    constructor (data: seq<byte>, ready: nat -> bool, grant: nat -> nat)
      ensures this.data == data && this.ready == ready && this.grant == grant
    {
      this.data, this.ready, this.grant, tick := data, ready, grant, 0;
    }

    /** At least one byte and at most `amount`, unless the stream has ended. */
    method Recv(amount: nat) returns (chunk: seq<byte>)
      requires amount > 0
      modifies this
      ensures old(data) == chunk + data && |chunk| <= amount
      ensures chunk == [] <==> old(data) == []
    {
      var n := grant(tick);
      tick := tick + 1;
      n := if n == 0 then 1 else n;
      n := if n > amount then amount else n;
      n := if n > |data| then |data| else n;
      chunk := data[..n];
      data := data[n..];
    }
  }

  ghost predicate AlwaysReady(socket: Socket) {
    forall n :: socket.ready(n)
  }

  /** All `amount` bytes or none, whatever the sizes of the pieces. */
  method ReadExact(socket: Socket, amount: nat) returns (r: Result<seq<byte>, ReadError>)
    modifies socket
    ensures r.Success? ==> |r.value| == amount && old(socket.data) == r.value + socket.data
    ensures r == Failure(EndOfStream) ==> |old(socket.data)| < amount && socket.data == []
    ensures AlwaysReady(socket) ==> r != Failure(TimedOut)
  {
    var output: seq<byte> := [];
    while |output| < amount
      invariant |output| <= amount
      invariant old(socket.data) == output + socket.data
      decreases amount - |output|
    {
      if !socket.ready(socket.tick) {
        return Failure(TimedOut);
      }
      var chunk := socket.Recv(amount - |output|);
      if chunk == [] {
        return Failure(EndOfStream);
      }
      output := output + chunk;
    }
    r := Success(output);
  }

  // ---------------------------------------------------------------- the meaning of a whole stream

  function BigEndian(b: seq<byte>): nat {
    if b == [] then 0 else 256 * BigEndian(b[..|b| - 1]) + b[|b| - 1]
  }

  datatype Output = Output(stdout: seq<byte>, stderr: seq<byte>)

  function Extend(out: Output, stream: byte, payload: seq<byte>): Output {
    if stream == 1 then out.(stdout := out.stdout + payload) else out.(stderr := out.stderr + payload)
  }

  function Parse(data: seq<byte>, maximum: nat, out: Output): Result<Output, FrameError>
    decreases |data|
  {
    if data == [] then Success(out)
    else if |data| < 8 then Failure(TruncatedHeader)
    else
      var stream, length := data[0], BigEndian(data[4..8]);
      if stream !in {1, 2} then Failure(InvalidStream)
      else if length > maximum + 1 then Failure(OversizedFrame)
      else if |data| < 8 + length then Failure(TruncatedPayload)
      else
        var after := Extend(out, stream, data[8..8 + length]);
        if |after.stdout| + |after.stderr| > maximum then Failure(OversizedResponse)
        else Parse(data[8 + length..], maximum, after)
  }

  /** The reader computes exactly the meaning of the whole stream, for every way of cutting it into pieces. */
  method ReadFrames(socket: Socket, maximum: nat) returns (r: Result<Output, FrameError>)
    modifies socket
    ensures r != Failure(Timeout) ==> r == Parse(old(socket.data), maximum, Output([], []))
    ensures AlwaysReady(socket) ==> r != Failure(Timeout)
  {
    var out := Output([], []);
    ghost var whole := socket.data;
    while true
      invariant Parse(whole, maximum, Output([], [])) == Parse(socket.data, maximum, out)
      decreases |socket.data|
    {
      ghost var data := socket.data;
      var first := ReadExact(socket, 1);
      if first == Failure(EndOfStream) {
        break;
      }
      if first.Failure? {
        assert first.error == TimedOut;
        return Failure(Timeout);
      }
      var rest := ReadExact(socket, 7);
      if rest.Failure? {
        return Failure(if rest.error == TimedOut then Timeout else TruncatedHeader);
      }
      var header := first.value + rest.value;
      assert data == header + socket.data;
      assert data[4..8] == header[4..8];
      var stream, length := header[0], BigEndian(header[4..8]);
      if stream !in {1, 2} {
        return Failure(InvalidStream);
      }
      if length > maximum + 1 {
        return Failure(OversizedFrame);
      }
      var chunk := ReadExact(socket, length);
      if chunk.Failure? {
        return Failure(if chunk.error == TimedOut then Timeout else TruncatedPayload);
      }
      assert data == header + chunk.value + socket.data;
      assert data[8..8 + length] == chunk.value && data[8 + length..] == socket.data;
      out := Extend(out, stream, chunk.value);
      if |out.stdout| + |out.stderr| > maximum {
        return Failure(OversizedResponse);
      }
    }
    r := Success(out);
  }

  // ---------------------------------------------------------------- frames as they are written

  datatype Frame = Frame(stream: byte, padding: seq<byte>, payload: seq<byte>)

  predicate FrameOk(f: Frame) {
    f.stream in {1, 2} && |f.padding| == 3 && |f.payload| < 0x1_0000_0000
  }

  function Length(n: nat): (b: seq<byte>)
    requires n < 0x1_0000_0000
    ensures |b| == 4
  {
    [n / 0x100_0000, n / 0x1_0000 % 256, n / 0x100 % 256, n % 256]
  }

  function Bytes(f: Frame): seq<byte>
    requires FrameOk(f)
  {
    [f.stream] + f.padding + Length(|f.payload|) + f.payload
  }

  predicate FramesOk(fs: seq<Frame>) {
    forall k :: 0 <= k < |fs| ==> FrameOk(fs[k])
  }

  function Stream(fs: seq<Frame>): seq<byte>
    requires FramesOk(fs)
  {
    if fs == [] then [] else Bytes(fs[0]) + Stream(fs[1..])
  }

  function Collect(fs: seq<Frame>, out: Output): Output {
    if fs == [] then out else Collect(fs[1..], Extend(out, fs[0].stream, fs[0].payload))
  }

  function Total(fs: seq<Frame>): nat {
    if fs == [] then 0 else |fs[0].payload| + Total(fs[1..])
  }

  lemma LengthIsBigEndian(n: nat)
    requires n < 0x1_0000_0000
    ensures BigEndian(Length(n)) == n
  {
    var b := Length(n);
    assert b[..3][..2] == b[..2] && b[..2][..1] == b[..1] && b[..1][..0] == [];
    assert BigEndian(b[..1]) == b[0];
    assert BigEndian(b[..2]) == 256 * (b[0] as int) + b[1];
    assert BigEndian(b[..3]) == 256 * (256 * (b[0] as int) + b[1]) + b[2];
  }

  lemma FirstFrame(f: Frame, rest: seq<byte>)
    requires FrameOk(f)
    ensures var data := Bytes(f) + rest;
            var n := |f.payload|;
            && |data| == 8 + n + |rest|
            && data[0] == f.stream && BigEndian(data[4..8]) == n
            && data[8..8 + n] == f.payload && data[8 + n..] == rest
  {
    var data := Bytes(f) + rest;
    assert data[4..8] == Length(|f.payload|);
    LengthIsBigEndian(|f.payload|);
  }

  /** Frames within the limit are read back as exactly the two concatenations; frames beyond it are refused. */
  lemma {:induction false} FramesParse(fs: seq<Frame>, maximum: nat, out: Output)
    requires FramesOk(fs) && |out.stdout| + |out.stderr| <= maximum
    ensures Parse(Stream(fs), maximum, out).Success? <==> |out.stdout| + |out.stderr| + Total(fs) <= maximum
    ensures Parse(Stream(fs), maximum, out).Success? ==> Parse(Stream(fs), maximum, out).value == Collect(fs, out)
    ensures Parse(Stream(fs), maximum, out).Failure? ==>
              Parse(Stream(fs), maximum, out).error in {OversizedFrame, OversizedResponse}
    decreases |fs|
  {
    if fs != [] {
      FirstFrame(fs[0], Stream(fs[1..]));
      var after := Extend(out, fs[0].stream, fs[0].payload);
      if |fs[0].payload| <= maximum + 1 && |after.stdout| + |after.stderr| <= maximum {
        FramesParse(fs[1..], maximum, after);
      }
    }
  }

  /** The two concatenations, stream by stream. */
  function PayloadsOf(fs: seq<Frame>, stream: byte): seq<byte> {
    if fs == [] then [] else (if fs[0].stream == stream then fs[0].payload else []) + PayloadsOf(fs[1..], stream)
  }

  lemma Associative(a: seq<byte>, b: seq<byte>, c: seq<byte>)
    ensures a + b + c == a + (b + c)
  {
  }

  lemma {:induction false} CollectIsConcatenation(fs: seq<Frame>, out: Output)
    requires FramesOk(fs)
    ensures Collect(fs, out) == Output(out.stdout + PayloadsOf(fs, 1), out.stderr + PayloadsOf(fs, 2))
    decreases |fs|
  {
    if fs != [] {
      var f, rest := fs[0], fs[1..];
      CollectIsConcatenation(rest, Extend(out, f.stream, f.payload));
      Associative(out.stdout, f.payload, PayloadsOf(rest, 1));
      Associative(out.stderr, f.payload, PayloadsOf(rest, 2));
      assert [] + PayloadsOf(rest, 1) == PayloadsOf(rest, 1) && [] + PayloadsOf(rest, 2) == PayloadsOf(rest, 2);
    }
  }

  /** For frames within the limit, and any chunking, the reader returns exactly the two concatenations. */
  lemma FramesRoundTrip(fs: seq<Frame>, maximum: nat)
    requires FramesOk(fs) && Total(fs) <= maximum
    ensures Parse(Stream(fs), maximum, Output([], [])) == Success(Output(PayloadsOf(fs, 1), PayloadsOf(fs, 2)))
  {
    FramesParse(fs, maximum, Output([], []));
    CollectIsConcatenation(fs, Output([], []));
    assert [] + PayloadsOf(fs, 1) == PayloadsOf(fs, 1) && [] + PayloadsOf(fs, 2) == PayloadsOf(fs, 2);
  }

  lemma Digits(x: nat, y: nat, z: nat, w: nat)
    requires x < 256 && y < 256 && z < 256 && w < 256
    ensures var n := 0x100_0000 * x + 0x1_0000 * y + 0x100 * z + w;
            n / 0x100_0000 == x && n / 0x1_0000 == 256 * x + y && n / 0x100 == 0x1_0000 * x + 256 * y + z && n % 256 == w
  {
  }

  lemma LastDigit(x: nat, y: nat)
    requires y < 256
    ensures (256 * x + y) % 256 == y
  {
  }

  lemma BigEndianIsLength(b: seq<byte>)
    requires |b| == 4
    ensures BigEndian(b) < 0x1_0000_0000 && Length(BigEndian(b)) == b
  {
    BigEndianOfFour(b);
    hide BigEndian;
    Digits(b[0], b[1], b[2], b[3]);
    LastDigit(b[0], b[1]);
    LastDigit(256 * (b[0] as int) + b[1], b[2]);
  }

  lemma BigEndianOfFour(b: seq<byte>)
    requires |b| == 4
    ensures BigEndian(b) == 0x100_0000 * (b[0] as int) + 0x1_0000 * (b[1] as int) + 0x100 * (b[2] as int) + b[3]
  {
    assert b[..3][..2] == b[..2] && b[..2][..1] == b[..1] && b[..1][..0] == [];
    assert BigEndian(b[..1]) == b[0];
    assert BigEndian(b[..2]) == 256 * (b[0] as int) + b[1];
    assert BigEndian(b[..3]) == 256 * (256 * (b[0] as int) + b[1]) + b[2];
  }

  ghost predicate IsStreamOf(data: seq<byte>, fs: seq<Frame>) {
    FramesOk(fs) && Stream(fs) == data
  }

  /** The frames that accepted bytes are made of. */
  lemma {:induction false} FramesOf(data: seq<byte>, maximum: nat, out: Output) returns (fs: seq<Frame>)
    requires Parse(data, maximum, out).Success? && |out.stdout| + |out.stderr| <= maximum
    ensures IsStreamOf(data, fs) && |out.stdout| + |out.stderr| + Total(fs) <= maximum
    decreases |data|
  {
    fs := [];
    if data != [] {
      var length := BigEndian(data[4..8]);
      BigEndianIsLength(data[4..8]);
      var f := Frame(data[0], data[1..4], data[8..8 + length]);
      var rest := FramesOf(data[8 + length..], maximum, Extend(out, f.stream, f.payload));
      fs := [f] + rest;
      assert fs[1..] == rest;
      assert Bytes(f) == data[..8 + length];
    }
  }

  /** Bytes are accepted exactly if they are some frames, one after the other, whose payloads fit. */
  lemma AcceptedExactly(data: seq<byte>, maximum: nat)
    ensures Parse(data, maximum, Output([], [])).Success? <==> exists fs :: IsStreamOf(data, fs) && Total(fs) <= maximum
  {
    if Parse(data, maximum, Output([], [])).Success? {
      var fs := FramesOf(data, maximum, Output([], []));
      assert IsStreamOf(data, fs) && Total(fs) <= maximum;
    }
    if exists fs :: IsStreamOf(data, fs) && Total(fs) <= maximum {
      var fs :| IsStreamOf(data, fs) && Total(fs) <= maximum;
      FramesParse(fs, maximum, Output([], []));
    }
  }

  /** A frame is refused on its header alone, whatever follows it: for its stream, or for its length. */
  lemma HeaderDecides(header: seq<byte>, payload: seq<byte>, maximum: nat, out: Output)
    requires |header| == 8
    ensures var r := Parse(header + payload, maximum, out);
            var length := BigEndian(header[4..8]);
            && (header[0] !in {1, 2} ==> r == Failure(InvalidStream))
            && (header[0] in {1, 2} && length > maximum + 1 ==> r == Failure(OversizedFrame))
            && (header[0] in {1, 2} && length <= maximum + 1 && |payload| < length ==> r == Failure(TruncatedPayload))
            && (header[0] in {1, 2} && length <= maximum + 1 && |payload| == length ==>
                 (r.Success? <==> |out.stdout| + |out.stderr| + length <= maximum))
  {
    var data := header + payload;
    assert data[4..8] == header[4..8];
    if |payload| == BigEndian(header[4..8]) {
      assert data[8 + |payload|..] == [];
    }
  }

  /** The positions between frames. */
  ghost predicate Boundary(fs: seq<Frame>, n: nat)
    requires FramesOk(fs)
  {
    n == 0 || (fs != [] && n >= |Bytes(fs[0])| && Boundary(fs[1..], n - |Bytes(fs[0])|))
  }

  /** A stream cut anywhere is accepted exactly when it is cut between frames. */
  lemma {:induction false} TruncationIsRefused(fs: seq<Frame>, n: nat, maximum: nat, out: Output)
    requires FramesOk(fs) && n <= |Stream(fs)| && |out.stdout| + |out.stderr| + Total(fs) <= maximum
    ensures Parse(Stream(fs)[..n], maximum, out).Success? <==> Boundary(fs, n)
    ensures !Boundary(fs, n) ==>
              Parse(Stream(fs)[..n], maximum, out).error in {TruncatedHeader, TruncatedPayload}
    decreases |fs|
  {
    if fs != [] && n > 0 {
      var f, rest := fs[0], Stream(fs[1..]);
      var size := |Bytes(f)|;
      var data := Stream(fs)[..n];
      FirstFrame(f, rest);
      if n >= 8 {
        assert data[0] == f.stream && data[4..8] == (Bytes(f) + rest)[4..8];
      }
      if n >= size {
        assert data[8..size] == f.payload;
        assert data[size..] == rest[..n - size];
        TruncationIsRefused(fs[1..], n - size, maximum, Extend(out, f.stream, f.payload));
      }
    }
  }
}
