/** The RCON client of the agent (agent/rcon.go): the frame codec of the Source RCON Protocol,
    section "Basic Packet Structure", over a TCP stream that delivers bytes in any chunks. */
module Rcon {

  type Byte = b: int | 0 <= b < 256
  type Int32 = v: int | -0x8000_0000 <= v < 0x8000_0000

  const MIN_SIZE := 10
  const MAX_SIZE := 4096
  const MAX_BODY := MAX_SIZE - MIN_SIZE

  datatype Message = Message(id: Int32, typ: Int32, body: seq<Byte>)
  datatype RconPacket = RconPacket(size: Int32, id: Int32, typ: Int32, body: seq<Byte>)
  const ZERO_PACKET := RconPacket(0, 0, 0, [])

  datatype ReadError = NoError | BadSize | Io

  /** What a byte stream holds at its head. */
  datatype Parsed = Short | Rejected(size: Int32) | Frame(packet: RconPacket)

  // ---- The wire format

  /** byte(v), byte(v >> 8), ...: the shift is arithmetic, so it rounds down, and the conversion
      keeps the low eight bits of the two's complement. */
  function LittleEndian(v: Int32): (bs: seq<Byte>)
    ensures |bs| == 4
  {
    [v % 0x100, v / 0x100 % 0x100, v / 0x1_0000 % 0x100, v / 0x100_0000 % 0x100]
  }

  /** The shifted bytes occupy disjoint bits, so `|` adds; the top byte's shift wraps into the sign. */
  function FromLittleEndian(bs: seq<Byte>): Int32
    requires |bs| == 4
  {
    var b0: int, b1: int, b2: int, b3: int := bs[0], bs[1], bs[2], bs[3];
    var u := b0 + b1 * 0x100 + b2 * 0x1_0000 + b3 * 0x100_0000;
    if u < 0x8000_0000 then u else u - 0x1_0000_0000
  }

  /** `rconSend` computes 4 + size in 32 bits: a longer body would overflow it. */
  predicate Sendable(body: seq<Byte>) {
    4 + MIN_SIZE + |body| < 0x8000_0000
  }

  function Encode(m: Message): (bs: seq<Byte>)
    requires Sendable(m.body)
    ensures |bs| == 4 + MIN_SIZE + |m.body|
  {
    LittleEndian(MIN_SIZE + |m.body|) + LittleEndian(m.id) + LittleEndian(m.typ) + m.body + [0, 0]
  }

  function SizeField(s: seq<Byte>): Int32
    requires |s| >= 4
  {
    FromLittleEndian(s[..4])
  }

  predicate SizeAccepted(size: Int32) {
    MIN_SIZE <= size <= MAX_SIZE
  }

  function Parse(s: seq<Byte>): Parsed {
    if |s| < 4 then Short
    else if !SizeAccepted(SizeField(s)) then Rejected(SizeField(s))
    else if |s| < 4 + SizeField(s) then Short
    else
      var n := SizeField(s);
      Frame(RconPacket(n, FromLittleEndian(s[4..8]), FromLittleEndian(s[8..12]), s[12..2 + n]))
  }

  /** The bytes a read takes off the stream when it does not run dry. */
  function Consumed(s: seq<Byte>): (n: nat)
    ensures n <= |s|
  {
    match Parse(s)
    case Short => |s|
    case Rejected(_) => 4
    case Frame(p) => 4 + p.size
  }

  /** The stream after n reads. */
  function After(s: seq<Byte>, n: nat): seq<Byte> {
    if n == 0 then s else After(s[Consumed(s)..], n - 1)
  }

  ghost predicate AllSendable(ms: seq<Message>) {
    forall i :: 0 <= i < |ms| ==> Sendable(ms[i].body)
  }

  ghost predicate AllReadable(ms: seq<Message>) {
    forall i :: 0 <= i < |ms| ==> |ms[i].body| <= MAX_BODY
  }

  function EncodeAll(ms: seq<Message>): seq<Byte>
    requires AllSendable(ms)
  {
    if ms == [] then [] else Encode(ms[0]) + EncodeAll(ms[1..])
  }

  function PacketOf(m: Message): RconPacket
    requires Sendable(m.body)
  {
    RconPacket(MIN_SIZE + |m.body|, m.id, m.typ, m.body)
  }

  // ---- Codec theorems

  lemma Int32Inverse(v: Int32)
    ensures FromLittleEndian(LittleEndian(v)) == v
  {
    var q1, q2, q3 := v / 0x100, v / 0x1_0000, v / 0x100_0000;
    assert q2 == q1 / 0x100 && q3 == q2 / 0x100;
    assert v == 0x100 * q1 + v % 0x100;
    assert q1 == 0x100 * q2 + q1 % 0x100;
    assert q2 == 0x100 * q3 + q2 % 0x100;
    assert q3 % 0x100 == if v >= 0 then q3 else q3 + 0x100;
  }

  lemma BytesInverse(bs: seq<Byte>)
    requires |bs| == 4
    ensures LittleEndian(FromLittleEndian(bs)) == bs
  {
    var v := FromLittleEndian(bs);
    var b3: int := bs[3];
    var top := if b3 < 0x80 then b3 else b3 - 0x100;
    var b2: int := bs[2];
    var q2 := b2 + 0x100 * top;
    var q1: int := bs[1] + 0x100 * q2;
    assert v == bs[0] + 0x100 * q1;
    assert v / 0x100 == q1 && q1 / 0x100 == q2 && q2 / 0x100 == top;
    assert v / 0x1_0000 == q2 && v / 0x100_0000 == top;
  }

  function Unsigned(bs: seq<Byte>): nat
    requires |bs| == 4
  {
    var b0: int, b1: int, b2: int, b3: int := bs[0], bs[1], bs[2], bs[3];
    b0 + b1 * 0x100 + b2 * 0x1_0000 + b3 * 0x100_0000
  }

  lemma LittleEndianMeaning(v: Int32)
    ensures Unsigned(LittleEndian(v)) == if v >= 0 then v else v + 0x1_0000_0000
  {
    Int32Inverse(v);
  }

  /** Where the fields of a frame are: size, id and type little-endian in this order, then the body and
      two zero bytes; the size counts everything behind itself. */
  lemma FrameLayout(m: Message)
    requires Sendable(m.body)
    ensures var e, n := Encode(m), |m.body|;
      && |e| == 14 + n && Unsigned(e[..4]) == 10 + n
      && (Unsigned(e[4..8]) - m.id) % 0x1_0000_0000 == 0 && (Unsigned(e[8..12]) - m.typ) % 0x1_0000_0000 == 0
      && e[12..12 + n] == m.body && e[12 + n..] == [0, 0]
  {
    var e, n := Encode(m), |m.body|;
    assert e[..4] == LittleEndian(MIN_SIZE + n) && e[4..8] == LittleEndian(m.id) && e[8..12] == LittleEndian(m.typ);
    LittleEndianMeaning(MIN_SIZE + n);
    LittleEndianMeaning(m.id);
    LittleEndianMeaning(m.typ);
  }

  /** A frame written by `rconSend` is read back whole, exactly when its body fits the size window. */
  lemma ParseEncode(m: Message, tail: seq<Byte>)
    requires Sendable(m.body)
    ensures |m.body| <= MAX_BODY ==> Parse(Encode(m) + tail) == Frame(PacketOf(m))
    ensures |m.body| > MAX_BODY ==> Parse(Encode(m) + tail) == Rejected(MIN_SIZE + |m.body|)
  {
    var s, n := Encode(m) + tail, MIN_SIZE + |m.body|;
    assert s[..4] == LittleEndian(n);
    assert s[4..8] == LittleEndian(m.id);
    assert s[8..12] == LittleEndian(m.typ);
    Int32Inverse(n);
    Int32Inverse(m.id);
    Int32Inverse(m.typ);
    if n <= MAX_SIZE {
      assert s[12..2 + n] == m.body;
    }
  }

  /** Frames written back to back come off the stream one per read, at their own boundaries. */
  lemma {:induction false} StreamRoundTrip(ms: seq<Message>, tail: seq<Byte>, n: nat)
    requires AllReadable(ms) && n <= |ms|
    ensures After(EncodeAll(ms) + tail, n) == EncodeAll(ms[n..]) + tail
    ensures n < |ms| ==> Parse(After(EncodeAll(ms) + tail, n)) == Frame(PacketOf(ms[n]))
    decreases n
  {
    if n == 0 {
      assert ms[0..] == ms;
      if ms == [] {
      } else {
        assert EncodeAll(ms) + tail == Encode(ms[0]) + (EncodeAll(ms[1..]) + tail);
        ParseEncode(ms[0], EncodeAll(ms[1..]) + tail);
      }
    } else {
      var rest := EncodeAll(ms[1..]) + tail;
      assert EncodeAll(ms) + tail == Encode(ms[0]) + rest;
      ParseEncode(ms[0], rest);
      assert (Encode(ms[0]) + rest)[Consumed(Encode(ms[0]) + rest)..] == rest;
      StreamRoundTrip(ms[1..], tail, n - 1);
      assert ms[1..][n - 1..] == ms[n..];
    }
  }

  /** Printing an accepted packet reproduces its frame, except that the two trailing bytes, which
      the reader ignores, come out as zero. */
  lemma PrintParse(s: seq<Byte>)
    requires Parse(s).Frame?
    ensures var p := Parse(s).packet;
      var m := Message(p.id, p.typ, p.body);
      && PacketOf(m) == p
      && |Encode(m)| == Consumed(s)
      && Encode(m)[..2 + p.size] == s[..2 + p.size]
      && (Encode(m) == s[..4 + p.size] <==> s[2 + p.size] == 0 == s[3 + p.size])
  {
    var p := Parse(s).packet;
    var m := Message(p.id, p.typ, p.body);
    BytesInverse(s[..4]);
    BytesInverse(s[4..8]);
    BytesInverse(s[8..12]);
    assert s[..2 + p.size] == s[..4] + s[4..8] + s[8..12] + s[12..2 + p.size];
    var e := Encode(m);
    assert e == s[..2 + p.size] + [0, 0];
    assert s[..4 + p.size] == s[..2 + p.size] + [s[2 + p.size], s[3 + p.size]];
    assert e[2 + p.size] == 0 == e[3 + p.size];
    assert s[..4 + p.size][2 + p.size] == s[2 + p.size] && s[..4 + p.size][3 + p.size] == s[3 + p.size];
  }

  // ---- The connection

  /** The buffer with data written over it from off on. */
  function Overwrite(buf: seq<Byte>, off: nat, data: seq<Byte>): (r: seq<Byte>)
    requires off + |data| <= |buf|
    ensures |r| == |buf|
  {
    buf[..off] + data + buf[off + |data|..]
  }

  /** Go's copy(buf[off:], data). */
  method Copy(buf: array<Byte>, off: nat, data: seq<Byte>)
    requires off + |data| <= buf.Length
    modifies buf
    ensures buf[..] == Overwrite(old(buf[..]), off, data)
  {
    ghost var before := buf[..];
    for i := 0 to |data|
      invariant buf[..] == Overwrite(before, off, data[..i])
    {
      buf[off + i] := data[i];
    }
    assert data[..|data|] == data;
  }

  /** A TCP connection.  `incoming` is what the peer has sent and nobody has read yet.  A reliable
      connection reports an error only when there is nothing left to read; any other may fail at
      any moment.  How many bytes one read returns is never under the caller's control; `stalls` bounds
      how many more reads return nothing at all, without an error. */
  class Conn {
    const reliable: bool
    var incoming: seq<Byte>
    var written: seq<Byte>
    var stalls: nat

    constructor (reliable: bool, incoming: seq<Byte>, stalls: nat)
      ensures this.reliable == reliable && this.incoming == incoming && this.stalls == stalls && written == []
    {
      this.reliable, this.incoming, this.stalls, this.written := reliable, incoming, stalls, [];
    }

    /** Go's Read on buf[off:]: fills some leading part of it, may report an error as well. */
    method Read(buf: array<Byte>, off: nat) returns (n: nat, err: bool)
      requires off < buf.Length
      modifies this`incoming, this`stalls, buf
      ensures n <= buf.Length - off && n <= |old(incoming)|
      ensures buf[..] == Overwrite(old(buf[..]), off, old(incoming)[..n])
      ensures incoming == old(incoming)[n..]
      ensures stalls <= old(stalls) && (!err && n == 0 ==> stalls < old(stalls))
      ensures reliable && err ==> old(incoming) == []
    {
      var stall: bool := *;
      if stall && stalls > 0 {
        n, err, stalls := 0, false, stalls - 1;
      } else if incoming == [] {
        n, err := 0, true;
      } else {
        n :| 1 <= n <= buf.Length - off && n <= |incoming|;
        err := *;
        if reliable {
          err := false;
        } else if err {
          n :| 0 <= n <= buf.Length - off && n <= |incoming|;
        }
      }
      var data := incoming[..n];
      incoming := incoming[n..];
      Copy(buf, off, data);
    }

    method Write(data: seq<Byte>) returns (err: bool)
      modifies this`written
      ensures !err ==> written == old(written) + data
      ensures old(written) <= written <= old(written) + data
      ensures reliable ==> !err
    {
      err := *;
      if reliable {
        err := false;
      }
      var n := |data|;
      if err {
        n :| 0 <= n <= |data|;
      }
      written := written + data[..n];
    }
  }

  // ---- The client

  method WriteInt32(buf: array<Byte>, off: nat, v: Int32)
    requires off + 4 <= buf.Length
    modifies buf
    ensures buf[..] == old(buf[..off]) + LittleEndian(v) + old(buf[..])[off + 4..]
    ensures forall k :: off + 4 <= k < buf.Length ==> buf[k] == old(buf[k])
  {
    buf[off] := v % 0x100;
    buf[off + 1] := v / 0x100 % 0x100;
    buf[off + 2] := v / 0x1_0000 % 0x100;
    buf[off + 3] := v / 0x100_0000 % 0x100;
  }

  method RconSend(conn: Conn, m: Message) returns (err: bool)
    requires Sendable(m.body)
    modifies conn`written
    ensures !err ==> conn.written == old(conn.written) + Encode(m)
    ensures old(conn.written) <= conn.written <= old(conn.written) + Encode(m)
    ensures conn.reliable ==> !err
  {
    var size := 4 + 4 + |m.body| + 2;
    var buf := new Byte[4 + size](_ => 0);
    WriteInt32(buf, 0, size);
    WriteInt32(buf, 4, m.id);
    WriteInt32(buf, 8, m.typ);
    Copy(buf, 12, m.body);
    assert buf[..12] == LittleEndian(size) + LittleEndian(m.id) + LittleEndian(m.typ);
    assert buf[12..12 + |m.body|] == m.body;
    assert buf[12 + |m.body|..] == [0, 0];
    assert buf[..] == buf[..12] + buf[12..12 + |m.body|] + buf[12 + |m.body|..];
    err := conn.Write(buf[..]);
  }

  lemma ReadOn(s: seq<Byte>, before: seq<Byte>, total: nat, n: nat)
    requires total + n <= |before| && total + n <= |s|
    ensures Overwrite(Overwrite(before, 0, s[..total]), total, s[total..][..n]) == Overwrite(before, 0, s[..total + n])
    ensures s[total..][n..] == s[total + n..]
  {
    assert s[..total] + s[total..][..n] == s[..total + n];
  }

  lemma Part(s: seq<Byte>, a: nat, r: seq<Byte>, i: nat, j: nat)
    requires i <= j <= |r| && a + |r| <= |s| && r == s[a..a + |r|]
    ensures r[i..j] == s[a + i..a + j]
  {
    forall k | 0 <= k < j - i
      ensures r[i..j][k] == s[a + i..a + j][k]
    {
      assert r[i + k] == s[a + (i + k)];
    }
  }

  /** The first total bytes of s are in the buffer, over what was there before. */
  ghost predicate Filled(buf: seq<Byte>, before: seq<Byte>, s: seq<Byte>, rest: seq<Byte>, total: nat) {
    |buf| == |before| && total <= |before| && total <= |s| && buf == Overwrite(before, 0, s[..total])
      && rest == s[total..]
  }

  method ReadNext(conn: Conn, buf: array<Byte>, total: nat, ghost s: seq<Byte>, ghost before: seq<Byte>)
    returns (n: nat, err: bool)
    requires total < buf.Length && Filled(buf[..], before, s, conn.incoming, total)
    modifies conn`incoming, conn`stalls, buf
    ensures Filled(buf[..], before, s, conn.incoming, total + n)
    ensures conn.stalls <= old(conn.stalls) && (!err && n == 0 ==> conn.stalls < old(conn.stalls))
    ensures conn.reliable && err ==> total == |s|
  {
    n, err := conn.Read(buf, total);
    ReadOn(s, before, total, n);
  }

  method ReadFull(conn: Conn, buf: array<Byte>) returns (total: nat, err: bool)
    modifies conn`incoming, conn`stalls, buf
    ensures total <= buf.Length && total <= |old(conn.incoming)|
    ensures buf[..] == Overwrite(old(buf[..]), 0, old(conn.incoming)[..total])
    ensures conn.incoming == old(conn.incoming)[total..]
    ensures !err ==> total == buf.Length
    ensures conn.reliable ==> (err <==> |old(conn.incoming)| < buf.Length)
  {
    total := 0;
    ghost var s, before := conn.incoming, buf[..];
    while total < buf.Length
      invariant Filled(buf[..], before, s, conn.incoming, total)
      decreases conn.stalls, buf.Length - total
    {
      var n, e := ReadNext(conn, buf, total, s, before);
      total := total + n;
      if e {
        return total, true;
      }
    }
    return total, false;
  }

  lemma PayloadParses(s: seq<Byte>, rest: seq<Byte>)
    requires |s| >= 4 && SizeAccepted(SizeField(s)) && |s| >= 4 + SizeField(s) && rest == s[4..4 + SizeField(s)]
    ensures var n := SizeField(s);
      Parse(s) == Frame(RconPacket(n, FromLittleEndian(rest[0..4]), FromLittleEndian(rest[4..8]), rest[8..n - 2]))
  {
    var n := SizeField(s);
    Part(s, 4, rest, 0, 4);
    Part(s, 4, rest, 4, 8);
    Part(s, 4, rest, 8, n - 2);
  }

  method RconRead(conn: Conn) returns (p: RconPacket, err: ReadError)
    modifies conn`incoming, conn`stalls
    ensures err.NoError? ==> Parse(old(conn.incoming)) == Frame(p)
    ensures err.BadSize? ==> Parse(old(conn.incoming)) == Rejected(p.size)
    ensures !err.Io? ==> conn.incoming == old(conn.incoming)[Consumed(old(conn.incoming))..]
    ensures err.Io? ==> exists k :: 0 <= k <= Consumed(old(conn.incoming)) && conn.incoming == old(conn.incoming)[k..]
    ensures conn.reliable ==> (err.Io? <==> Parse(old(conn.incoming)).Short?)
  {
    ghost var s := conn.incoming;
    p := ZERO_PACKET;
    var sizeBuf := new Byte[4](_ => 0);
    var got, e := ReadFull(conn, sizeBuf);
    if e {
      return p, Io;
    }
    assert sizeBuf[..] == s[..4];
    p := p.(size := FromLittleEndian(sizeBuf[..]));
    if p.size < 10 || p.size > 4096 {
      return p, BadSize;
    }
    var rest := new Byte[p.size](_ => 0);
    got, e := ReadFull(conn, rest);
    if e {
      assert conn.incoming == s[4 + got..];
      return p, Io;
    }
    assert rest[..] == s[4..4 + p.size];
    p := p.(id := FromLittleEndian(rest[0..4]), typ := FromLittleEndian(rest[4..8]));
    var bodyEnd := rest.Length - 2;
    if bodyEnd > 8 {
      p := p.(body := rest[8..bodyEnd]);
    }
    PayloadParses(s, rest[..]);
    assert rest[0..4] == rest[..][0..4] && rest[4..8] == rest[..][4..8] && rest[8..bodyEnd] == rest[..][8..bodyEnd];
    assert conn.incoming == s[4 + p.size..];
    return p, NoError;
  }

  method SendAll(conn: Conn, ms: seq<Message>)
    requires conn.reliable && AllReadable(ms)
    modifies conn`written
    ensures conn.written == old(conn.written) + EncodeAll(ms)
  {
    for i := 0 to |ms|
      invariant conn.written == old(conn.written) + EncodeAll(ms[..i])
    {
      EncodeAllSnoc(ms[..i], ms[i]);
      assert ms[..i + 1] == ms[..i] + [ms[i]];
      var failed := RconSend(conn, ms[i]);
    }
    assert ms[..|ms|] == ms;
  }

  /** n reads on a reliable connection return the n packets that stand at the head of the stream. */
  method ReceiveAll(conn: Conn, n: nat, ghost ms: seq<Message>) returns (ps: seq<RconPacket>)
    requires conn.reliable && AllReadable(ms) && n == |ms| && conn.incoming == EncodeAll(ms)
    modifies conn`incoming, conn`stalls
    ensures |ps| == n && conn.incoming == []
    ensures forall i :: 0 <= i < n ==> ps[i] == PacketOf(ms[i])
  {
    ps := [];
    for i := 0 to n
      invariant conn.incoming == EncodeAll(ms[i..])
      invariant |ps| == i && forall j :: 0 <= j < i ==> ps[j] == PacketOf(ms[j])
    {
      HeadOf(ms[i..]);
      assert ms[i..][1..] == ms[i + 1..];
      var p, err := RconRead(conn);
      ps := ps + [p];
    }
  }

  lemma HeadOf(ms: seq<Message>)
    requires ms != [] && AllReadable(ms)
    ensures Parse(EncodeAll(ms)) == Frame(PacketOf(ms[0]))
    ensures EncodeAll(ms)[Consumed(EncodeAll(ms))..] == EncodeAll(ms[1..])
  {
    ParseEncode(ms[0], EncodeAll(ms[1..]));
  }

  /** Sending packets one after the other and reading as many: the reader gets them whole and in order
      and leaves nothing, however the bytes arrive. */
  method SendAndReceive(ms: seq<Message>, stalls: nat) returns (ps: seq<RconPacket>)
    requires AllReadable(ms)
    ensures |ps| == |ms| && forall i :: 0 <= i < |ms| ==> ps[i] == PacketOf(ms[i])
  {
    var sender := new Conn(true, [], 0);
    SendAll(sender, ms);
    var receiver := new Conn(true, sender.written, stalls);
    ps := ReceiveAll(receiver, |ms|, ms);
  }

  lemma {:induction false} EncodeAllSnoc(ms: seq<Message>, m: Message)
    requires AllSendable(ms) && Sendable(m.body)
    ensures EncodeAll(ms + [m]) == EncodeAll(ms) + Encode(m)
  {
    if ms == [] {
      assert [m][1..] == [];
    } else {
      assert (ms + [m])[1..] == ms[1..] + [m];
      EncodeAllSnoc(ms[1..], m);
    }
  }

  datatype Answer =
    | ConnectFailed
    | AuthSendFailed
    | AuthReadFailed
    | WrongPassword
    | CommandSendFailed
    | CommandReadFailed
    | Response(body: seq<Byte>)

  predicate Authenticated(s: seq<Byte>) {
    Parse(s).Frame? && Parse(s).packet.id != -1
  }

  /** The outcome of a session over everything the server sends on a reliable connection. */
  function Session(s: seq<Byte>): Answer {
    if !Parse(s).Frame? then AuthReadFailed
    else if !Authenticated(s) then WrongPassword
    else match Parse(After(s, 1)) case Frame(q) => Response(q.body) case _ => CommandReadFailed
  }

  /** A failed dial is a null connection.  The command goes on the wire only after an
      authentication reply other than -1. */
  method SendRconCommand(conn: Conn?, password: seq<Byte>, command: seq<Byte>) returns (r: Answer)
    requires Sendable(password) && Sendable(command)
    modifies conn
    ensures r.ConnectFailed? <==> conn == null
    ensures conn != null && conn.reliable ==>
      && r == Session(old(conn.incoming))
      && conn.written == old(conn.written) + Encode(Message(1, 3, password))
         + (if Authenticated(old(conn.incoming)) then Encode(Message(2, 2, command)) else [])
    ensures conn != null && !Authenticated(old(conn.incoming)) ==>
      conn.written <= old(conn.written) + Encode(Message(1, 3, password))
    ensures r.Response? || r.WrongPassword? ==> conn != null && r == Session(old(conn.incoming))
    ensures r.AuthSendFailed? ==> conn != null && conn.incoming == old(conn.incoming)
    ensures r.AuthReadFailed? || r.WrongPassword? ==>
      conn != null && conn.written == old(conn.written) + Encode(Message(1, 3, password))
    ensures r.CommandSendFailed? || r.CommandReadFailed? ==> conn != null && Authenticated(old(conn.incoming))
    ensures r.CommandReadFailed? || r.Response? ==>
      && conn != null
      && conn.written == old(conn.written) + Encode(Message(1, 3, password)) + Encode(Message(2, 2, command))
  {
    if conn == null {
      return ConnectFailed;
    }
    ghost var s := conn.incoming;
    var failed := RconSend(conn, Message(1, 3, password));
    if failed {
      return AuthSendFailed;
    }
    var authResp, err := RconRead(conn);
    if !err.NoError? {
      return AuthReadFailed;
    }
    if authResp.id == -1 {
      return WrongPassword;
    }
    assert conn.incoming == After(s, 1) by {
      assert After(s, 1) == After(s[Consumed(s)..], 0);
    }
    failed := RconSend(conn, Message(2, 2, command));
    if failed {
      return CommandSendFailed;
    }
    var resp;
    resp, err := RconRead(conn);
    if !err.NoError? {
      return CommandReadFailed;
    }
    return Response(resp.body);
  }

  lemma SessionOf(s: seq<Byte>, p: RconPacket)
    requires Parse(s) == Frame(p)
    ensures Session(s) == WrongPassword <==> p.id == -1
    ensures p.id != -1 && Parse(After(s, 1)).Frame? ==> Session(s) == Response(Parse(After(s, 1)).packet.body)
  {
  }

  lemma FirstPackets(ms: seq<Message>, tail: seq<Byte>)
    requires |ms| >= 1 && AllReadable(ms)
    ensures Parse(EncodeAll(ms) + tail) == Frame(PacketOf(ms[0]))
    ensures |ms| >= 2 ==> Parse(After(EncodeAll(ms) + tail, 1)) == Frame(PacketOf(ms[1]))
  {
    StreamRoundTrip(ms, tail, 0);
    if |ms| >= 2 {
      StreamRoundTrip(ms, tail, 1);
    }
  }

  /** What follows the last whole frame: too short for a size, a size outside 10..4096, or a frame that is
      cut short. */
  predicate NoFrame(tail: seq<Byte>) {
    |tail| < 4 ||
    var size := FromLittleEndian(tail[..4]);
    size < 10 || size > 4096 || |tail| < 4 + size
  }

  /** Message i was sent and its body has at most 4086 bytes. */
  predicate Readable(ms: seq<Message>, i: nat) {
    i < |ms| && |ms[i].body| <= 4086
  }

  lemma FirstParsed(ms: seq<Message>, tail: seq<Byte>)
    requires AllSendable(ms) && NoFrame(tail)
    ensures var s := EncodeAll(ms) + tail;
      && (Parse(s).Frame? <==> Readable(ms, 0))
      && (Readable(ms, 0) ==> Parse(s) == Frame(PacketOf(ms[0])) && After(s, 1) == EncodeAll(ms[1..]) + tail)
  {
    var s := EncodeAll(ms) + tail;
    if ms == [] {
      assert s == tail;
    } else {
      var rest := EncodeAll(ms[1..]) + tail;
      assert s == Encode(ms[0]) + rest;
      ParseEncode(ms[0], rest);
      if Readable(ms, 0) { AfterOne(ms[0], rest); }
    }
  }

  lemma AfterOne(m: Message, rest: seq<Byte>)
    requires |m.body| <= MAX_BODY
    ensures After(Encode(m) + rest, 1) == rest
  {
    ParseEncode(m, rest);
    var s := Encode(m) + rest;
    assert After(s, 1) == After(s[Consumed(s)..], 0);
  }

  /** The outcome of a session for any messages the server may send, of any length, and anything that may
      stand behind them. */
  lemma SessionExactly(ms: seq<Message>, tail: seq<Byte>)
    requires AllSendable(ms) && NoFrame(tail)
    ensures var r := Session(EncodeAll(ms) + tail);
      && (r == AuthReadFailed <==> !Readable(ms, 0))
      && (r == WrongPassword <==> Readable(ms, 0) && ms[0].id == -1)
      && (r == CommandReadFailed <==> Readable(ms, 0) && ms[0].id != -1 && !Readable(ms, 1))
      && (forall b :: r == Response(b) <==> Readable(ms, 0) && ms[0].id != -1 && Readable(ms, 1) && b == ms[1].body)
  {
    var s := EncodeAll(ms) + tail;
    FirstParsed(ms, tail);
    if Readable(ms, 0) {
      FirstParsed(ms[1..], tail);
      SessionCases(s, Parse(After(s, 1)));
      assert Readable(ms[1..], 0) <==> Readable(ms, 1);
    }
  }

  lemma SessionCases(s: seq<Byte>, next: Parsed)
    requires Parse(s).Frame? && next == Parse(After(s, 1))
    ensures var p := Parse(s).packet;
      Session(s) ==
        if p.id == -1 then WrongPassword else if next.Frame? then Response(next.packet.body) else CommandReadFailed
  {
  }

  /** Replies are paired with requests by position, not by id: the first packet is taken for the
      authentication verdict and the second for the answer to the command, whatever they are. */
  lemma SessionByPosition(ms: seq<Message>, tail: seq<Byte>)
    requires |ms| >= 1 && AllReadable(ms)
    ensures var r := Session(EncodeAll(ms) + tail);
      && (r == WrongPassword <==> ms[0].id == -1)
      && (ms[0].id != -1 && |ms| >= 2 ==> r == Response(ms[1].body))
  {
    var s := EncodeAll(ms) + tail;
    FirstPackets(ms, tail);
    SessionOf(s, PacketOf(ms[0]));
  }

  /** A server whose verdict is packet k, after `ms[..k]`, refuses the password.  The refusal is reported
      if and only if the very first packet carries the id -1; a refusal behind any other packet ends
      in the second packet's body as the answer. */
  lemma RefusalReported(ms: seq<Message>, k: nat, tail: seq<Byte>)
    requires k < |ms| && ms[k].id == -1 && AllReadable(ms)
    ensures var r := Session(EncodeAll(ms) + tail);
      && (r == WrongPassword <==> ms[0].id == -1)
      && (r != WrongPassword ==> k > 0 && r == Response(ms[1].body))
  {
    SessionByPosition(ms, tail);
  }

  /** A server that sends only its authentication reply first is understood. */
  lemma SessionWithPlainReplies(auth: Int32, reply: Message, tail: seq<Byte>)
    requires |reply.body| <= MAX_BODY
    ensures Session(EncodeAll([Message(auth, 2, []), reply]) + tail)
         == if auth == -1 then WrongPassword else Response(reply.body)
  {
    SessionByPosition([Message(auth, 2, []), reply], tail);
  }

  /** The protocol's section "SERVERDATA_AUTH_RESPONSE" has the server send an empty
      SERVERDATA_RESPONSE_VALUE first.  Then the authentication verdict is taken for the answer to
      the command: every session ends in an empty response, the wrong password included. */
  lemma SessionWithLeadingEmptyReply(auth: Int32, rest: seq<Message>, tail: seq<Byte>)
    requires AllReadable(rest)
    ensures Session(EncodeAll([Message(1, 0, []), Message(auth, 2, [])] + rest) + tail) == Response([])
  {
    SessionByPosition([Message(1, 0, []), Message(auth, 2, [])] + rest, tail);
  }
}
