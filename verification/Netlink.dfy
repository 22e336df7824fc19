/**
 * The netlink-style message by which the runtime configures its C stage: the attribute
 * serialisers (libcontainer/message_linux.go) and the parser of the C side (nsexec.c, nl_parse).
 *
 * Both sides use the byte order of the host, which is a parameter here.
 */
module Netlink {

  import opened Text
  import opened Wrappers

  type U16 = n: int | 0 <= n < 0x1_0000
  type U32 = n: int | 0 <= n < 0x1_0000_0000

  const INIT_MSG: U16 := 62000
  const REQUEST_FLAG: U16 := 1      // NLM_F_REQUEST
  const CLONE_FLAGS: U16 := 27281
  const NS_PATHS: U16 := 27282
  const UIDMAP: U16 := 27283
  const GIDMAP: U16 := 27284
  const SETGROUP: U16 := 27285
  const OOM_SCORE_ADJ: U16 := 27286
  const ROOTLESS_EUID: U16 := 27287
  const UIDMAP_PATH: U16 := 27288
  const GIDMAP_PATH: U16 := 27289
  const MOUNT_SOURCES: U16 := 27290

  const HEADER: nat := 4            // NLA_HDRLEN
  const MESSAGE_HEADER: nat := 16   // NLMSG_HDRLEN

  // ---------------------------------------------------------------- integers in host byte order

  function Put16(little: bool, n: U16): seq<Byte> {
    if little then [n % 256, n / 256] else [n / 256, n % 256]
  }

  function Get16(little: bool, s: seq<Byte>): U16
    requires |s| >= 2
  {
    var a: int, b: int := s[0], s[1];
    if little then a + 256 * b else 256 * a + b
  }

  function Put32(little: bool, n: U32): seq<Byte> {
    if little then Put16(true, n % 0x1_0000) + Put16(true, n / 0x1_0000)
    else Put16(false, n / 0x1_0000) + Put16(false, n % 0x1_0000)
  }

  function Get32(little: bool, s: seq<Byte>): U32
    requires |s| >= 4
  {
    var a, b := Get16(little, s), Get16(little, s[2..]);
    if little then a + 0x1_0000 * b else 0x1_0000 * a + b
  }

  lemma GetPut16(little: bool, n: U16, rest: seq<Byte>)
    ensures Get16(little, Put16(little, n) + rest) == n
  {
  }

  lemma GetPut32(little: bool, n: U32, rest: seq<Byte>)
    ensures Get32(little, Put32(little, n) + rest) == n
  {
    var s := Put32(little, n) + rest;
    if little {
      assert s == Put16(true, n % 0x1_0000) + (Put16(true, n / 0x1_0000) + rest);
      assert s[2..] == Put16(true, n / 0x1_0000) + rest;
    } else {
      assert s == Put16(false, n / 0x1_0000) + (Put16(false, n % 0x1_0000) + rest);
      assert s[2..] == Put16(false, n % 0x1_0000) + rest;
    }
  }

  // ---------------------------------------------------------------- the serialisers

  datatype Attr =
    | Int32(kind: U16, word: U32)
    | Bytes(kind: U16, value: seq<Byte>)
    | Flag(kind: U16, on: bool)
  {
    /** The length field: header, contents and, for a byte string, the final NUL. */
    function Len(): nat {
      if Bytes? then HEADER + |value| + 1 else HEADER + 4
    }

    /** A length beyond 16 bits makes the serialiser panic. */
    predicate Fits() {
      Len() <= 0xFFFF
    }

    /** What the receiver sees as payload. */
    function Payload(little: bool): seq<Byte> {
      match this
      case Int32(_, w) => Put32(little, w)
      case Bytes(_, v) => v + [0]
      case Flag(_, on) => Put32(little, if on then 1 else 0)
    }
  }

  function Align(n: nat): (r: nat)
    ensures n <= r < n + 4 && r % 4 == 0
  {
    (n + 3) / 4 * 4
  }

  function Zeros(n: nat): seq<Byte> {
    seq(n, _ => 0)
  }

  function Encode(little: bool, a: Attr): (r: seq<Byte>)
    requires a.Fits()
    ensures |r| == Align(a.Len())
  {
    Put16(little, a.Len()) + Put16(little, a.kind) + a.Payload(little) + Zeros(Align(a.Len()) - a.Len())
  }

  function EncodeAll(little: bool, attrs: seq<Attr>): seq<Byte>
    requires forall a <- attrs :: a.Fits()
  {
    if attrs == [] then [] else Encode(little, attrs[0]) + EncodeAll(little, attrs[1..])
  }

  method PutUint16(buf: array<Byte>, at: nat, little: bool, n: U16)
    requires at + 2 <= buf.Length
    modifies buf
    ensures buf[..] == old(buf[..at]) + Put16(little, n) + old(buf[at + 2..])
  {
    if little {
      buf[at], buf[at + 1] := n % 256, n / 256;
    } else {
      buf[at], buf[at + 1] := n / 256, n % 256;
    }
  }

  method PutUint32(buf: array<Byte>, at: nat, little: bool, n: U32)
    requires at + 4 <= buf.Length
    modifies buf
    ensures buf[..] == old(buf[..at]) + Put32(little, n) + old(buf[at + 4..])
  {
    var low, high := n % 0x1_0000, n / 0x1_0000;
    if little {
      buf[at], buf[at + 1], buf[at + 2], buf[at + 3] := low % 256, low / 256, high % 256, high / 256;
    } else {
      buf[at], buf[at + 1], buf[at + 2], buf[at + 3] := high / 256, high % 256, low / 256, low % 256;
    }
  }

  /** The copy into the zeroed buffer behind the attribute header. */
  method CopyInto(buf: array<Byte>, at: nat, value: seq<Byte>)
    requires at + |value| <= buf.Length
    modifies buf
    ensures buf[..] == old(buf[..at]) + value + old(buf[at + |value|..])
  {
    var i := 0;
    while i < |value|
      invariant 0 <= i <= |value|
      invariant forall k :: at <= k < at + i ==> buf[k] == value[k - at]
      invariant forall k :: 0 <= k < buf.Length && !(at <= k < at + i) ==> buf[k] == old(buf[k])
    {
      buf[at + i] := value[i];
      i := i + 1;
    }
    ghost var wanted := old(buf[..at]) + value + old(buf[at + |value|..]);
    assert forall k :: 0 <= k < buf.Length ==> buf[k] == wanted[k];
  }

  /** A zeroed buffer with the attribute header in place. */
  method NewAttribute(little: bool, kind: U16, len: U16) returns (buf: array<Byte>)
    requires len >= HEADER
    ensures fresh(buf)
    ensures buf[..] == Put16(little, len) + Put16(little, kind) + Zeros(Align(len) - HEADER)
  {
    buf := new Byte[Align(len)](_ => 0);
    assert buf[..] == Zeros(Align(len));
    PutUint16(buf, 0, little, len);
    assert buf[..] == Put16(little, len) + Zeros(Align(len) - 2);
    PutUint16(buf, 2, little, kind);
  }

  lemma BytesBuffer(little: bool, kind: U16, value: seq<Byte>, buf: seq<Byte>)
    requires Bytes(kind, value).Fits()
    requires var len := Bytes(kind, value).Len();
             buf == Put16(little, len) + Put16(little, kind) + value + Zeros(Align(len) - HEADER - |value|)
    ensures buf == Encode(little, Bytes(kind, value))
  {
    var len := Bytes(kind, value).Len();
    assert Zeros(Align(len) - HEADER - |value|) == [0] + Zeros(Align(len) - len);
  }

  /** The three Serialize methods; no buffer stands for the panic. */
  method Serialize(little: bool, a: Attr) returns (r: Option<array<Byte>>)
    ensures r.Some? <==> a.Fits()
    ensures r.Some? ==> r.value[..] == Encode(little, a)
  {
    match a {
      case Bytes(kind, value) =>
        if a.Len() > 0xFFFF {
          return None;
        }
        var buf := NewAttribute(little, kind, a.Len());
        CopyInto(buf, HEADER, value);
        BytesBuffer(little, kind, value, buf[..]);
        r := Some(buf);
      case Int32(kind, word) =>
        var buf := SerializeWord(little, kind, word);
        r := Some(buf);
      case Flag(kind, on) =>
        var buf := SerializeWord(little, kind, if on then 1 else 0);
        r := Some(buf);
    }
  }

  method SerializeWord(little: bool, kind: U16, word: U32) returns (buf: array<Byte>)
    ensures buf[..] == Encode(little, Int32(kind, word))
  {
    buf := NewAttribute(little, kind, HEADER + 4);
    PutUint32(buf, HEADER, little, word);
  }

  /** The request: a message header with the total length, then the attributes. */
  function Message(little: bool, seqNo: U32, attrs: seq<Attr>): seq<Byte>
    requires forall a <- attrs :: a.Fits()
    requires MESSAGE_HEADER + |EncodeAll(little, attrs)| < 0x1_0000_0000
  {
    Put32(little, MESSAGE_HEADER + |EncodeAll(little, attrs)|)
    + (Put16(little, INIT_MSG)
       + (Put16(little, REQUEST_FLAG) + Put32(little, seqNo) + Put32(little, 0) + EncodeAll(little, attrs)))
  }

  // ---------------------------------------------------------------- the parser

  /** The C structure that the attributes fill in; absent strings are null. */
  datatype Config = Config(
    cloneFlags: U32,
    rootlessEuid: Byte,
    setgroup: Byte,
    oomScoreAdj: Option<seq<Byte>>,
    namespaces: Option<seq<Byte>>,
    uidmap: Option<seq<Byte>>,
    gidmap: Option<seq<Byte>>,
    uidmapPath: Option<seq<Byte>>,
    gidmapPath: Option<seq<Byte>>,
    mountSources: Option<seq<Byte>>)

  const EMPTY := Config(0, 0, 0, None, None, None, None, None, None, None)

  /**
   * Unknown is the parser's own complaint; the other three are inputs on which the C code
   * would read outside its buffer, fall short of a read, or see another message.
   */
  datatype ParseError = UnknownAttribute | OutsideBuffer | ShortRead | WrongMessage

  datatype Parsed = Ok(config: Config) | Failed(error: ParseError)

  /** The switch on the attribute type; `rest` is the buffer from the payload on. */
  function Store(little: bool, c: Config, kind: U16, rest: seq<Byte>, len: nat): Parsed
    requires len <= |rest|
  {
    var s := Some(rest[..len]);
    if kind == CLONE_FLAGS then
      if |rest| < 4 then Failed(OutsideBuffer) else Ok(c.(cloneFlags := Get32(little, rest)))
    else if kind == ROOTLESS_EUID then
      if |rest| < 1 then Failed(OutsideBuffer) else Ok(c.(rootlessEuid := rest[0]))
    else if kind == OOM_SCORE_ADJ then Ok(c.(oomScoreAdj := s))
    else if kind == NS_PATHS then Ok(c.(namespaces := s))
    else if kind == UIDMAP then Ok(c.(uidmap := s))
    else if kind == GIDMAP then Ok(c.(gidmap := s))
    else if kind == UIDMAP_PATH then Ok(c.(uidmapPath := s))
    else if kind == GIDMAP_PATH then Ok(c.(gidmapPath := s))
    else if kind == SETGROUP then
      if |rest| < 1 then Failed(OutsideBuffer) else Ok(c.(setgroup := rest[0]))
    else if kind == MOUNT_SOURCES then Ok(c.(mountSources := s))
    else Failed(UnknownAttribute)
  }

  /** One trip round the parser's loop: the new structure and how far to advance. */
  function ParseOne(little: bool, data: seq<Byte>, c: Config): (Parsed, nat) {
    if |data| < HEADER then (Failed(OutsideBuffer), 1)
    else
      var len := Get16(little, data);
      if len < HEADER || len > |data| then (Failed(OutsideBuffer), 1)
      else (Store(little, c, Get16(little, data[2..]), data[HEADER..], len - HEADER),
            HEADER + Align(len - HEADER))
  }

  function Parse(little: bool, data: seq<Byte>, c: Config): Parsed
    decreases |data|
  {
    if data == [] then Ok(c)
    else
      var (r, step) := ParseOne(little, data, c);
      if r.Failed? then r
      else if step < |data| then Parse(little, data[step..], r.config)
      else Ok(r.config)
  }

  /** The parser's loop over the payload, with its cursor. */
  method ParseLoop(little: bool, data: seq<Byte>) returns (r: Parsed)
    ensures r == Parse(little, data, EMPTY)
  {
    var config := EMPTY;
    var current := 0;
    while current < |data|
      invariant 0 <= current
      invariant Parse(little, data, EMPTY)
             == if current < |data| then Parse(little, data[current..], config) else Ok(config)
      decreases |data| - current
    {
      var (stored, step) := ParseOne(little, data[current..], config);
      if stored.Failed? {
        return stored;
      }
      assert step < |data[current..]| ==> data[current..][step..] == data[current + step..];
      config, current := stored.config, current + step;
    }
    r := Ok(config);
  }

  /** nl_parse on the byte stream of the pipe: header, payload of the announced size, parse. */
  function Receive(little: bool, pipe: seq<Byte>): Parsed {
    if |pipe| < MESSAGE_HEADER then Failed(ShortRead)
    else if Get16(little, pipe[4..]) != INIT_MSG then Failed(WrongMessage)
    else
      var length := Get32(little, pipe);
      if length < MESSAGE_HEADER || |pipe| < length then Failed(ShortRead)
      else Parse(little, pipe[MESSAGE_HEADER..length], EMPTY)
  }

  // ---------------------------------------------------------------- round trip

  lemma AdvanceIsEncodedLength(n: nat)
    ensures HEADER + Align(n) == Align(HEADER + n)
  {
  }

  lemma HeaderAndPayload(length: seq<Byte>, kind: seq<Byte>, payload: seq<Byte>, rest: seq<Byte>)
    requires |length| == 2 && |kind| == 2
    ensures var data := length + kind + payload + rest;
            && data == length + (kind + (payload + rest)) && data[2..] == kind + (payload + rest)
            && data[HEADER..] == payload + rest && data[HEADER..][..|payload|] == payload
  {
  }

  /** Fields of the encoding as the parser finds them. */
  lemma EncodingLayout(little: bool, a: Attr, rest: seq<Byte>)
    requires a.Fits()
    ensures var data := Encode(little, a) + rest;
            && Get16(little, data) == a.Len() && Get16(little, data[2..]) == a.kind
            && data[HEADER..][..a.Len() - HEADER] == a.Payload(little)
            && HEADER + Align(a.Len() - HEADER) == |Encode(little, a)|
  {
    var payload := a.Payload(little);
    var after := Zeros(Align(a.Len()) - a.Len()) + rest;
    var length, kind := Put16(little, a.Len()), Put16(little, a.kind);
    assert Encode(little, a) + rest == length + kind + payload + after;
    HeaderAndPayload(length, kind, payload, after);
    GetPut16(little, a.Len(), kind + (payload + after));
    GetPut16(little, a.kind, payload + after);
    AdvanceIsEncodedLength(a.Len() - HEADER);
  }

  /** The attribute carries the message struct that its type calls for. */
  predicate WellKinded(a: Attr) {
    match a
    case Int32(k, _) => k == CLONE_FLAGS
    case Flag(k, _) => k == ROOTLESS_EUID || k == SETGROUP
    case Bytes(k, _) => k in {OOM_SCORE_ADJ, NS_PATHS, UIDMAP, GIDMAP, UIDMAP_PATH, GIDMAP_PATH, MOUNT_SOURCES}
  }

  /**
   * What the sender means by an attribute, independent of the encoding. The receiver looks at
   * the first byte of a 32-bit flag only.
   */
  function Meant(little: bool, c: Config, a: Attr): Config
    requires WellKinded(a)
  {
    match a
    case Int32(_, w) => c.(cloneFlags := w)
    case Flag(k, on) =>
      var b: Byte := if on && little then 1 else 0;
      if k == ROOTLESS_EUID then c.(rootlessEuid := b) else c.(setgroup := b)
    case Bytes(k, v) =>
      var s := Some(v + [0]);
      if k == OOM_SCORE_ADJ then c.(oomScoreAdj := s)
      else if k == NS_PATHS then c.(namespaces := s)
      else if k == UIDMAP then c.(uidmap := s)
      else if k == GIDMAP then c.(gidmap := s)
      else if k == UIDMAP_PATH then c.(uidmapPath := s)
      else if k == GIDMAP_PATH then c.(gidmapPath := s)
      else c.(mountSources := s)
  }

  lemma StoreIsMeant(little: bool, c: Config, a: Attr, after: seq<Byte>)
    requires WellKinded(a)
    ensures Store(little, c, a.kind, a.Payload(little) + after, |a.Payload(little)|) == Ok(Meant(little, c, a))
  {
    match a
    case Int32(_, w) => GetPut32(little, w, after);
    case Flag(_, on) =>
    case Bytes(_, v) => assert (v + [0] + after)[..|v| + 1] == v + [0];
  }

  lemma ParseOneEncoded(little: bool, a: Attr, rest: seq<Byte>, c: Config)
    requires a.Fits() && WellKinded(a)
    ensures ParseOne(little, Encode(little, a) + rest, c) == (Ok(Meant(little, c, a)), |Encode(little, a)|)
  {
    var data := Encode(little, a) + rest;
    EncodingLayout(little, a, rest);
    var after := data[HEADER..][a.Len() - HEADER..];
    assert data[HEADER..] == a.Payload(little) + after;
    StoreIsMeant(little, c, a, after);
  }

  lemma ParseStep(little: bool, data: seq<Byte>, c: Config, next: Config, step: nat)
    requires 0 < step <= |data| && ParseOne(little, data, c) == (Ok(next), step)
    ensures Parse(little, data, c) == Parse(little, data[step..], next)
  {
  }

  /** The effect of a whole list of attributes. */
  function MeantAll(little: bool, c: Config, attrs: seq<Attr>): Config
    requires forall a <- attrs :: WellKinded(a)
    decreases |attrs|
  {
    if attrs == [] then c else MeantAll(little, Meant(little, c, attrs[0]), attrs[1..])
  }

  /** The C parser recovers every attribute of any encoded list and stops at its end. */
  lemma {:induction false} AttributesRoundTrip(little: bool, attrs: seq<Attr>, c: Config)
    requires forall a <- attrs :: a.Fits() && WellKinded(a)
    ensures Parse(little, EncodeAll(little, attrs), c) == Ok(MeantAll(little, c, attrs))
    decreases |attrs|
  {
    if attrs != [] {
      var first, rest := Encode(little, attrs[0]), EncodeAll(little, attrs[1..]);
      ParseOneEncoded(little, attrs[0], rest, c);
      ParseStep(little, first + rest, c, Meant(little, c, attrs[0]), |first|);
      assert (first + rest)[|first|..] == rest;
      AttributesRoundTrip(little, attrs[1..], Meant(little, c, attrs[0]));
    }
  }

  lemma HeaderParts(length: seq<Byte>, kind: seq<Byte>, others: seq<Byte>, body: seq<Byte>, more: seq<Byte>)
    requires |length| == 4 && |kind| == 2 && |others| == 10
    ensures var pipe := length + (kind + (others + body)) + more;
            && pipe == length + (kind + (others + body) + more)
            && pipe[4..] == kind + (others + body + more)
            && pipe[MESSAGE_HEADER..MESSAGE_HEADER + |body|] == body
  {
  }

  lemma MessageLayout(little: bool, seqNo: U32, attrs: seq<Attr>, more: seq<Byte>)
    requires forall a <- attrs :: a.Fits()
    requires MESSAGE_HEADER + |EncodeAll(little, attrs)| < 0x1_0000_0000
    ensures var pipe := Message(little, seqNo, attrs) + more;
            var length := MESSAGE_HEADER + |EncodeAll(little, attrs)|;
            && |pipe| >= length && Get32(little, pipe) == length && Get16(little, pipe[4..]) == INIT_MSG
            && pipe[MESSAGE_HEADER..length] == EncodeAll(little, attrs)
  {
    var body := EncodeAll(little, attrs);
    var length := MESSAGE_HEADER + |body|;
    var others := Put16(little, REQUEST_FLAG) + Put32(little, seqNo) + Put32(little, 0);
    HeaderParts(Put32(little, length), Put16(little, INIT_MSG), others, body, more);
    GetPut32(little, length, Put16(little, INIT_MSG) + (others + body) + more);
    GetPut16(little, INIT_MSG, others + body + more);
  }

  /** Whatever else follows on the pipe, the message is received as it was meant. */
  lemma MessageRoundTrip(little: bool, seqNo: U32, attrs: seq<Attr>, more: seq<Byte>)
    requires forall a <- attrs :: a.Fits() && WellKinded(a)
    requires MESSAGE_HEADER + |EncodeAll(little, attrs)| < 0x1_0000_0000
    ensures Receive(little, Message(little, seqNo, attrs) + more) == Ok(MeantAll(little, EMPTY, attrs))
  {
    MessageLayout(little, seqNo, attrs, more);
    AttributesRoundTrip(little, attrs, EMPTY);
  }
}
