// The packet codec of protocol/header.go.
module Protocol {
  import opened Basics

  const CONNECT: Byte := 0
  const CONN_ACK: Byte := 1
  const CONN_ERR: Byte := 2
  const DATA: Byte := 3
  const CLOSE: Byte := 4
  const RESET: Byte := 5
  const NAK: Byte := 6
  const LQR: Byte := 7

  datatype Packet = Packet(
    ptype: Byte,
    streamID: U16,
    addr: seq<Byte>,
    seqNum: Byte,
    groupID: U16,
    idx: Byte,
    isParity: bool,
    payload: seq<Byte>,
    losses: Byte)

  // A packet with every field but the type and the stream at its zero value.
  function Blank(ptype: Byte, streamID: U16): Packet {
    Packet(ptype, streamID, [], 0, 0, 0, false, [], 0)
  }

  function Base(p: Packet): seq<Byte>
    requires p.streamID < 4096
  {
    [p.ptype as int * 16 % 256 + p.streamID / 256, p.streamID % 256]
  }

  function BigEndian(n: U16): (r: seq<Byte>) {
    [n / 256, n % 256]
  }

  function FromBigEndian(hi: Byte, lo: Byte): U16 {
    hi as int * 256 + lo as int
  }

  // Where the address of a CONNECT or CONN_ERR packet ends.
  function AddrEnd(buf: seq<Byte>): int
    requires |buf| >= 3
  {
    3 + buf[2] as int
  }

  function Marshal(p: Packet): (r: Result<seq<Byte>>) {
    if p.streamID > 0xFFF then Err
    else if p.ptype == CONNECT || p.ptype == CONN_ERR then
      if |p.addr| > 255 then Err else Ok(Base(p) + [|p.addr|] + p.addr)
    else if p.ptype == CONN_ACK || p.ptype == CLOSE || p.ptype == RESET then
      Ok(Base(p))
    else if p.ptype == DATA then
      var t := if p.isParity then 2 else 1;
      Ok(Base(p) + [p.seqNum] + BigEndian(p.groupID) + [p.idx as int * 8 % 256 + t] + p.payload)
    else if p.ptype == NAK then
      Ok(Base(p) + [p.seqNum])
    else if p.ptype == LQR then
      Ok(Base(p) + BigEndian(p.groupID) + [p.losses, 0])
    else Err
  }

  function Unmarshal(buf: seq<Byte>): (r: Result<Packet>) {
    if |buf| < 2 then Err
    else
      var p := Blank(buf[0] / 16, FromBigEndian(buf[0] % 16, buf[1]));
      if p.ptype == CONNECT || p.ptype == CONN_ERR then
        if |buf| < 3 || |buf| < AddrEnd(buf) then Err
        else Ok(p.(addr := buf[3..AddrEnd(buf)]))
      else if p.ptype == CONN_ACK || p.ptype == CLOSE || p.ptype == RESET then
        Ok(p)
      else if p.ptype == DATA then
        if |buf| < 6 then Err
        else Ok(p.(seqNum := buf[2], groupID := FromBigEndian(buf[3], buf[4]), idx := buf[5] / 8,
                   isParity := buf[5] % 8 == 2, payload := buf[6..]))
      else if p.ptype == NAK then
        if |buf| < 3 then Err else Ok(p.(seqNum := buf[2]))
      else if p.ptype == LQR then
        if |buf| < 6 then Err
        else Ok(p.(groupID := FromBigEndian(buf[2], buf[3]), losses := buf[4]))
      else Err
  }

  // What survives the wire: the fields the packet's type carries, the index cut to 5 bits.
  function Normalize(p: Packet): Packet {
    var b := Blank(p.ptype, p.streamID);
    if p.ptype == CONNECT || p.ptype == CONN_ERR then b.(addr := p.addr)
    else if p.ptype == DATA then
      b.(seqNum := p.seqNum, groupID := p.groupID, idx := p.idx % 32, isParity := p.isParity, payload := p.payload)
    else if p.ptype == NAK then b.(seqNum := p.seqNum)
    else if p.ptype == LQR then b.(groupID := p.groupID, losses := p.losses)
    else b
  }

  ghost predicate Encodable(p: Packet) {
    && p.streamID <= 0xFFF
    && p.ptype <= 7
    && (p.ptype == CONNECT || p.ptype == CONN_ERR ==> |p.addr| <= 255)
  }

  // Only the fields of its type, a 12-bit stream, a 5-bit index, a short address.
  ghost predicate WellFormed(p: Packet) {
    Encodable(p) && Normalize(p) == p
  }

  // Marshal accepts exactly the encodable packets, and decoding gives back what the wire keeps;
  // nothing is lost exactly when the packet is well formed.
  lemma RoundTrip(p: Packet)
    ensures Marshal(p).Ok? <==> Encodable(p)
    ensures Encodable(p) ==> Unmarshal(Marshal(p).value) == Ok(Normalize(p))
    ensures WellFormed(p) <==> Marshal(p).Ok? && Unmarshal(Marshal(p).value) == Ok(p)
  {
    if Encodable(p) {
      BaseRoundTrip(p);
      if p.ptype == CONNECT || p.ptype == CONN_ERR {
        AddrRoundTrip(p);
      } else if p.ptype == DATA {
        DataRoundTrip(p);
      } else {
        var buf := Marshal(p).value;
        assert buf[0] == Base(p)[0] && buf[1] == Base(p)[1];
      }
    }
  }

  lemma BaseRoundTrip(p: Packet)
    requires p.streamID <= 0xFFF && p.ptype <= 7
    ensures Base(p)[0] / 16 == p.ptype
    ensures FromBigEndian(Base(p)[0] % 16, Base(p)[1]) == p.streamID
  {
    assert p.ptype as int * 16 % 256 == p.ptype as int * 16;
  }

  lemma AddrRoundTrip(p: Packet)
    requires Encodable(p) && (p.ptype == CONNECT || p.ptype == CONN_ERR)
    ensures Unmarshal(Marshal(p).value) == Ok(Normalize(p))
  {
    BaseRoundTrip(p);
    var buf := Marshal(p).value;
    assert buf[0] == Base(p)[0] && buf[1] == Base(p)[1];
    assert buf[3..AddrEnd(buf)] == p.addr;
  }

  lemma DataRoundTrip(p: Packet)
    requires Encodable(p) && p.ptype == DATA
    ensures Unmarshal(Marshal(p).value) == Ok(Normalize(p))
  {
    BaseRoundTrip(p);
    var buf := Marshal(p).value;
    assert buf[0] == Base(p)[0] && buf[1] == Base(p)[1];
    assert buf[2] == p.seqNum && [buf[3], buf[4]] == BigEndian(p.groupID);
    IndexRoundTrip(p.idx, if p.isParity then 2 else 1);
    assert buf[5] == p.idx as int * 8 % 256 + if p.isParity then 2 else 1;
    assert buf[6..] == p.payload;
  }

  lemma IndexRoundTrip(idx: Byte, t: int)
    requires 0 <= t < 8
    ensures (idx as int * 8 % 256 + t) / 8 == idx as int % 32
    ensures (idx as int * 8 % 256 + t) % 8 == t
  {
    var q := idx as int / 32;
    assert idx as int * 8 == 256 * q + 8 * (idx as int % 32);
  }

  // The buffers that Marshal itself produces: no trailing bytes after a fixed-size packet,
  // the type bits of a DATA packet 1 or 2, the reserved byte of an LQR zero.
  ghost predicate Canonical(buf: seq<Byte>)
    requires Unmarshal(buf).Ok?
  {
    var t := buf[0] / 16;
    if t == CONNECT || t == CONN_ERR then |buf| == AddrEnd(buf)
    else if t == DATA then buf[5] % 8 == 1 || buf[5] % 8 == 2
    else if t == NAK then |buf| == 3
    else if t == LQR then |buf| == 6 && buf[5] == 0
    else |buf| == 2
  }

  // Whatever Unmarshal accepts can be sent again and reads back as the same packet;
  // the bytes themselves come back exactly when they were canonical.
  lemma Renormalize(buf: seq<Byte>)
    requires Unmarshal(buf).Ok?
    ensures WellFormed(Unmarshal(buf).value)
    ensures Marshal(Unmarshal(buf).value).Ok?
    ensures Unmarshal(Marshal(Unmarshal(buf).value).value) == Unmarshal(buf)
    ensures Marshal(Unmarshal(buf).value).value == buf <==> Canonical(buf)
  {
    var p := Unmarshal(buf).value;
    RoundTrip(p);
    BaseAgain(buf);
    if p.ptype == DATA {
      DataAgain(buf);
    } else {
      OtherAgain(buf);
    }
  }

  lemma BaseAgain(buf: seq<Byte>)
    requires Unmarshal(buf).Ok?
    ensures Unmarshal(buf).value.streamID <= 0xFFF && Unmarshal(buf).value.ptype <= 7
    ensures Base(Unmarshal(buf).value) == buf[..2]
  {
    HeaderBytes(buf[0], buf[1]);
    var p := Unmarshal(buf).value;
    assert p.ptype == buf[0] / 16 && p.streamID == FromBigEndian(buf[0] % 16, buf[1]);
    assert Base(p)[0] == buf[0] && Base(p)[1] == buf[1];
  }

  lemma HeaderBytes(b0: Byte, b1: Byte)
    ensures b0 as int / 16 * 16 + b0 as int % 16 == b0
    ensures b0 as int / 16 * 16 % 256 == b0 as int / 16 * 16
    ensures FromBigEndian(b0 % 16, b1) < 4096
    ensures FromBigEndian(b0 % 16, b1) / 256 == b0 % 16
    ensures FromBigEndian(b0 % 16, b1) % 256 == b1
  {
  }

  lemma DataAgain(buf: seq<Byte>)
    requires Unmarshal(buf).Ok? && Unmarshal(buf).value.ptype == DATA
    ensures Marshal(Unmarshal(buf).value).Ok?
    ensures Marshal(Unmarshal(buf).value).value == buf <==> Canonical(buf)
  {
    BaseAgain(buf);
    var p := Unmarshal(buf).value;
    var t := buf[5] as int % 8;
    var again := Marshal(p).value;
    assert buf[5] as int == buf[5] as int / 8 * 8 + t;
    assert again[5] == buf[5] as int / 8 * 8 + if t == 2 then 2 else 1;
    assert buf == buf[..2] + [buf[2]] + [buf[3], buf[4]] + [buf[5]] + buf[6..];
  }

  lemma OtherAgain(buf: seq<Byte>)
    requires Unmarshal(buf).Ok? && Unmarshal(buf).value.ptype != DATA
    ensures Marshal(Unmarshal(buf).value).Ok?
    ensures Marshal(Unmarshal(buf).value).value == buf <==> Canonical(buf)
  {
    BaseAgain(buf);
    var p := Unmarshal(buf).value;
    var again := Marshal(p).value;
    if p.ptype == CONNECT || p.ptype == CONN_ERR {
      assert again == buf[..AddrEnd(buf)];
    } else if p.ptype == NAK {
      assert again == buf[..3];
    } else if p.ptype == LQR {
      assert again == buf[..2] + [buf[2], buf[3]] + [buf[4], 0];
    } else {
      assert again == buf[..2];
    }
  }

  // Header sizes: six bytes before a DATA payload.
  lemma DataSize(p: Packet)
    requires p.ptype == DATA && p.streamID <= 0xFFF
    ensures Marshal(p).Ok? && |Marshal(p).value| == 6 + |p.payload|
  {
  }

  // ---- the wire format, byte by byte

  // The first two bytes of every packet: type and stream.
  ghost predicate Header(buf: seq<Byte>, ptype: int, stream: int) {
    |buf| >= 2 && buf[0] == 16 * ptype + stream / 256 && buf[1] == stream % 256
  }

  // What Marshal writes, and where: 0 CONNECT, 1 CONN_ACK, 2 CONN_ERR, 3 DATA, 4 CLOSE, 5 RESET, 6 NAK, 7 LQR.
  lemma WireFormat(p: Packet, buf: seq<Byte>)
    requires Marshal(p) == Ok(buf)
    ensures 0 <= p.ptype <= 7 && 0 <= p.streamID < 4096 && Header(buf, p.ptype as int, p.streamID as int)
    ensures p.ptype == 0 || p.ptype == 2 ==> |buf| == 3 + |p.addr| && buf[2] == |p.addr| && buf[3..] == p.addr
    ensures p.ptype == 1 || p.ptype == 4 || p.ptype == 5 ==> |buf| == 2
    ensures p.ptype == 3 ==>
      && |buf| == 6 + |p.payload| && buf[2] == p.seqNum
      && 256 * buf[3] as int + buf[4] as int == p.groupID
      && buf[5] == 8 * (p.idx as int % 32) + (if p.isParity then 2 else 1)
      && buf[6..] == p.payload
    ensures p.ptype == 6 ==> |buf| == 3 && buf[2] == p.seqNum
    ensures p.ptype == 7 ==>
      |buf| == 6 && 256 * buf[2] as int + buf[3] as int == p.groupID && buf[4] == p.losses && buf[5] == 0
  {
    hide Unmarshal;
    assert p.ptype as int * 16 % 256 == p.ptype as int * 16;
    if p.ptype == 3 {
      IndexRoundTrip(p.idx, if p.isParity then 2 else 1);
    }
  }

  // Which buffers Unmarshal accepts, by type and length.
  lemma Accepted(buf: seq<Byte>)
    ensures Unmarshal(buf).Ok? <==>
      && |buf| >= 2 && buf[0] < 128
      && (buf[0] / 16 == 0 || buf[0] / 16 == 2 ==> |buf| >= 3 && |buf| >= 3 + buf[2] as int)
      && (buf[0] / 16 == 3 || buf[0] / 16 == 7 ==> |buf| >= 6)
      && (buf[0] / 16 == 6 ==> |buf| >= 3)
  {
  }

  // What Unmarshal reads, and from where; every field its type does not carry is zero.
  lemma ParsedFields(buf: seq<Byte>)
    requires Unmarshal(buf).Ok?
    ensures var p := Unmarshal(buf).value;
            && |buf| >= 2 && Header(buf, p.ptype as int, p.streamID as int) && p.streamID < 4096
            && (p.ptype == 0 || p.ptype == 2 ==> 3 + buf[2] as int <= |buf| && p.addr == buf[3..3 + buf[2] as int])
            && (p.ptype == 3 ==>
                  && |buf| >= 6 && p.seqNum == buf[2] && p.groupID == 256 * buf[3] as int + buf[4] as int
                  && p.idx == buf[5] / 8 && (p.isParity <==> buf[5] % 8 == 2) && p.payload == buf[6..])
            && (p.ptype == 6 ==> |buf| >= 3 && p.seqNum == buf[2])
            && (p.ptype == 7 ==>
                  |buf| >= 6 && p.groupID == 256 * buf[2] as int + buf[3] as int && p.losses == buf[4])
            && (p.ptype != 0 && p.ptype != 2 ==> p.addr == [])
            && (p.ptype != 3 ==> p.idx == 0 && !p.isParity && p.payload == [])
            && (p.ptype != 3 && p.ptype != 6 ==> p.seqNum == 0)
            && (p.ptype != 3 && p.ptype != 7 ==> p.groupID == 0)
            && (p.ptype != 7 ==> p.losses == 0)
  {
    hide Marshal;
    HeaderBytes(buf[0], buf[1]);
  }
}
