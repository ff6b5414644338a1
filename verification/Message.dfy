/** The six message types, their wire format, and parse_message. */
module Messages {
  import opened Bytes

  const MSG_STAMP_LENGTH := DIGEST_LENGTH
  const BCAST_MARKER_LENGTH := DIGEST_LENGTH
  const GROUP_ID_LENGTH := DIGEST_LENGTH
  const ID_LENGTH := 20
  const KEY_LENGTH := 5

  const TYPE_JOIN: byte := 1
  const TYPE_JOIN_NOTIF: byte := 2
  const TYPE_JOIN_ACK: byte := 3
  const TYPE_READY: byte := 4
  const TYPE_READY_NOTIF: byte := 5
  const TYPE_DATA: byte := 6

  datatype Msg =
    | Join(stamp: Bytes, id: Bytes, pubKey: Bytes, port: Port)
    | JoinNotif(stamp: Bytes, marker: Bytes, channel: bool, groupId: Bytes,
                peerId: Bytes, pubKey: Bytes, ip: Bytes, port: Port)
    | JoinAck(stamp: Bytes, groupId: Bytes, peerId: Bytes, pubKey: Bytes)
    | Ready(stamp: Bytes)
    | ReadyNotif(stamp: Bytes)
    | Data(stamp: Bytes, marker: Bytes, data: Bytes)
  {
    predicate IsBroadcast() { JoinNotif? || Data? }
  }

  datatype Error = UnknownType | OutOfRange

  datatype Parsed = Success(message: Msg) | Failure(error: Error)

  // ------------------------------------------------- the format, as values

  function Serialize(m: Msg): Bytes {
    match m
    case Join(stamp, id, pubKey, port) =>
      [TYPE_JOIN] + stamp + id + pubKey + Itos(port)
    case JoinNotif(stamp, marker, channel, groupId, peerId, pubKey, ip, port) =>
      [TYPE_JOIN_NOTIF] + stamp + marker + [if channel then 1 else 0] + peerId + pubKey + groupId
      + ip + [COLON] + Itos(port)
    case JoinAck(stamp, groupId, peerId, pubKey) =>
      [TYPE_JOIN_ACK] + stamp + peerId + pubKey + groupId
    case Ready(stamp) =>
      [TYPE_READY] + stamp
    case ReadyNotif(stamp) =>
      [TYPE_READY_NOTIF] + stamp
    case Data(stamp, marker, data) =>
      [TYPE_DATA] + stamp + marker + data
  }

  /** std::string(s, from, count): cut short at the end of s. */
  function Cut(s: Bytes, from: nat, count: nat): Bytes
    requires from <= |s|
  {
    if from + count <= |s| then s[from..from + count] else s[from..]
  }

  /** Where the first colon is, or the length. */
  function FindColon(s: Bytes): (k: nat)
    ensures k <= |s| && COLON !in s[..k]
    ensures k < |s| ==> s[k] == COLON
  {
    if s == [] || s[0] == COLON then 0 else
      var k := 1 + FindColon(s[1..]);
      assert s[..k] == [s[0]] + s[1..][..k - 1];
      k
  }

  /** The text before the first colon; everything when there is none. */
  function IpOf(endpoint: Bytes): Bytes {
    endpoint[..FindColon(endpoint)]
  }

  /** The number after the first colon; of the whole text when there is none,
      since the missing position becomes -1 and -1 + 1 is the start. */
  function PortOf(endpoint: Bytes, before: Port): Port {
    ReadPort(PortText(endpoint), before)
  }

  function PortText(endpoint: Bytes): Bytes {
    var k := FindColon(endpoint);
    if k < |endpoint| then endpoint[k + 1..] else endpoint
  }

  /** parse_message. Each type demands that its last field start within w. The
      port variable is not initialised: `before` is what it happens to hold. */
  function Parse(w: Bytes, before: Port): Parsed {
    if w == [] then Failure(UnknownType)
    else if w[0] == TYPE_JOIN then
      if |w| < 46 then Failure(OutOfRange)
      else Success(Join(w[1..21], w[21..41], w[41..46], ReadPort(w[46..], before)))
    else if w[0] == TYPE_JOIN_NOTIF then
      if |w| < 87 then Failure(OutOfRange)
      else Success(JoinNotif(w[1..21], w[21..41], w[41] != 0, w[67..87], w[42..62], w[62..67],
                             IpOf(w[87..]), PortOf(w[87..], before)))
    else if w[0] == TYPE_JOIN_ACK then
      if |w| < 46 then Failure(OutOfRange)
      else Success(JoinAck(w[1..21], Cut(w, 46, GROUP_ID_LENGTH), w[21..41], w[41..46]))
    else if w[0] == TYPE_READY then Success(Ready(Cut(w, 1, MSG_STAMP_LENGTH)))
    else if w[0] == TYPE_READY_NOTIF then Success(ReadyNotif(Cut(w, 1, MSG_STAMP_LENGTH)))
    else if w[0] == TYPE_DATA then
      if |w| < 41 then Failure(OutOfRange)
      else Success(Data(w[1..21], w[21..41], w[41..]))
    else Failure(UnknownType)
  }

  // ------------------------------------------------------- round trips

  /** The messages parse_message can return: fixed lengths, except that a group
      id and the stamp of a bare signal may have been cut short. */
  predicate Canonical(m: Msg) {
    match m
    case Join(stamp, id, pubKey, _) =>
      |stamp| == MSG_STAMP_LENGTH && |id| == ID_LENGTH && |pubKey| == KEY_LENGTH
    case JoinNotif(stamp, marker, _, groupId, peerId, pubKey, ip, _) =>
      && |stamp| == MSG_STAMP_LENGTH && |marker| == BCAST_MARKER_LENGTH && |groupId| == GROUP_ID_LENGTH
      && |peerId| == ID_LENGTH && |pubKey| == KEY_LENGTH && COLON !in ip
    case JoinAck(stamp, groupId, peerId, pubKey) =>
      |stamp| == MSG_STAMP_LENGTH && |groupId| <= GROUP_ID_LENGTH && |peerId| == ID_LENGTH && |pubKey| == KEY_LENGTH
    case Ready(stamp) => |stamp| <= MSG_STAMP_LENGTH
    case ReadyNotif(stamp) => |stamp| <= MSG_STAMP_LENGTH
    case Data(stamp, marker, _) => |stamp| == MSG_STAMP_LENGTH && |marker| == BCAST_MARKER_LENGTH
  }

  lemma {:induction false} ColonAfter(ip: Bytes, rest: Bytes)
    requires COLON !in ip
    ensures FindColon(ip + [COLON] + rest) == |ip|
  {
    var s := ip + [COLON] + rest;
    if ip != [] {
      assert s[1..] == ip[1..] + [COLON] + rest;
      ColonAfter(ip[1..], rest);
    }
  }

  /** The field f of w starts where what precedes it ends; what precedes it is
      then followed by everything from f on. */
  lemma Field(w: Bytes, before: Bytes, f: Bytes, after: Bytes)
    requires w == before + f + after
    ensures |before| + |f| <= |w| && w[|before|..|before| + |f|] == f
    ensures w == before + (f + after)
  {
  }

  lemma RoundTripJoin(m: Msg, before: Port)
    requires m.Join? && Canonical(m)
    ensures Parse(Serialize(m), before) == Success(m)
  {
    hide ReadPort, Itos;
    var w, port := Serialize(m), Itos(m.port);
    var a := [TYPE_JOIN] + m.stamp;
    Field(w, a + m.id, m.pubKey, port);
    Field(w, a, m.id, m.pubKey + port);
    Field(w, [TYPE_JOIN], m.stamp, m.id + (m.pubKey + port));
    assert w[46..] == port;
    ReadPortInvertsItos(m.port, before);
  }

  lemma RoundTripEndpoint(ip: Bytes, port: Port, before: Port)
    requires COLON !in ip
    ensures IpOf(ip + [COLON] + Itos(port)) == ip && PortOf(ip + [COLON] + Itos(port), before) == port
  {
    hide ReadPort, Itos;
    var s := ip + [COLON] + Itos(port);
    ColonAfter(ip, Itos(port));
    assert s[..|ip|] == ip && s[|ip| + 1..] == Itos(port);
    ReadPortInvertsItos(port, before);
  }

  lemma RoundTripJoinNotif(m: Msg, before: Port)
    requires m.JoinNotif? && Canonical(m)
    ensures Parse(Serialize(m), before) == Success(m)
  {
    hide ReadPort, Itos, IpOf, PortOf;
    var w, flag := Serialize(m), [if m.channel then 1 else 0];
    var a := [TYPE_JOIN_NOTIF] + m.stamp;
    var b := a + m.marker;
    var c := b + flag + m.peerId;
    var endpoint := m.ip + [COLON] + Itos(m.port);
    assert w == c + m.pubKey + m.groupId + endpoint;
    var z := m.groupId + endpoint;
    Field(w, c + m.pubKey, m.groupId, endpoint);
    Field(w, c, m.pubKey, z);
    Field(w, b + flag, m.peerId, m.pubKey + z);
    var y := m.peerId + (m.pubKey + z);
    Field(w, b, flag, y);
    Field(w, a, m.marker, flag + y);
    Field(w, [TYPE_JOIN_NOTIF], m.stamp, m.marker + (flag + y));
    assert w[41..42][0] == flag[0];
    assert w[87..] == endpoint;
    RoundTripEndpoint(m.ip, m.port, before);
  }

  lemma RoundTripJoinAck(m: Msg, before: Port)
    requires m.JoinAck? && Canonical(m)
    ensures Parse(Serialize(m), before) == Success(m)
  {
    var w := Serialize(m);
    var a := [TYPE_JOIN_ACK] + m.stamp;
    Field(w, a + m.peerId, m.pubKey, m.groupId);
    Field(w, a, m.peerId, m.pubKey + m.groupId);
    Field(w, [TYPE_JOIN_ACK], m.stamp, m.peerId + (m.pubKey + m.groupId));
    assert w[46..] == m.groupId;
    assert |w| == 46 + |m.groupId|;
  }

  lemma RoundTripSignals(m: Msg, before: Port)
    requires (m.Ready? || m.ReadyNotif? || m.Data?) && Canonical(m)
    ensures Parse(Serialize(m), before) == Success(m)
  {
    var w := Serialize(m);
    if m.Data? {
      Field(w, [TYPE_DATA] + m.stamp, m.marker, m.data);
      Field(w, [TYPE_DATA], m.stamp, m.marker + m.data);
      assert w[41..] == m.data;
    } else {
      assert w[1..] == m.stamp;
    }
  }

  /** parse_message undoes serialize on every message it could have made. */
  lemma RoundTrip(m: Msg, before: Port)
    requires Canonical(m)
    ensures Parse(Serialize(m), before) == Success(m)
  {
    if m.Join? {
      RoundTripJoin(m, before);
    } else if m.JoinNotif? {
      RoundTripJoinNotif(m, before);
    } else if m.JoinAck? {
      RoundTripJoinAck(m, before);
    } else {
      RoundTripSignals(m, before);
    }
  }

  lemma ParseIsCanonical(w: Bytes, before: Port)
    requires Parse(w, before).Success?
    ensures Canonical(Parse(w, before).message)
  {
  }

  /** What parse_message returns, on any bytes at all, survives being written
      and read again, even into a port variable that holds something else:
      nonzero flags, cut fields, missing colons, odd ports, no port at all. */
  lemma NormalForm(w: Bytes, before: Port, later: Port)
    requires Parse(w, before).Success?
    ensures Parse(Serialize(Parse(w, before).message), later) == Parse(w, before)
  {
    ParseIsCanonical(w, before);
    RoundTrip(Parse(w, before).message, later);
  }

  /** Exactly the canonical messages are ever returned. */
  lemma CanonicalIsParsed(m: Msg)
    ensures Canonical(m) <==> exists w, before :: Parse(w, before) == Success(m)
  {
    if Canonical(m) {
      RoundTrip(m, 0);
    }
    if w, before :| Parse(w, before) == Success(m) {
      ParseIsCanonical(w, before);
    }
  }

  /** Reading is determined by the bytes if and only if a port follows where one
      is due. */
  lemma PortIsThere(w: Bytes, before: Port, other: Port)
    requires Parse(w, before).Success? && before != other
    ensures Parse(w, before) == Parse(w, other) <==>
      match Parse(w, before).message
      case Join(_, _, _, _) => SkipSpaces(w[46..]) != []
      case JoinNotif(_, _, _, _, _, _, _, _) => SkipSpaces(PortText(w[87..])) != []
      case _ => true
  {
    hide DigitRun, DecimalValue, SkipSpaces, FindColon;
  }

  lemma SerializeInjective(m: Msg, n: Msg)
    requires Canonical(m) && Canonical(n) && Serialize(m) == Serialize(n)
    ensures m == n
  {
    RoundTrip(m, 0);
    RoundTrip(n, 0);
  }

  // ------------------------------------------------ where the fields are

  /** This text stands there in w. */
  predicate At(w: Bytes, offset: nat, text: Bytes) {
    offset + |text| <= |w| && w[offset..offset + |text|] == text
  }

  /** The format, type by type: the type's number, the stamp, and what follows. */
  predicate InPlace(w: Bytes, m: Msg) {
    At(w, 1, m.stamp) &&
    match m
    case Join(_, id, pubKey, _) => w[0] == 1 && At(w, 21, id) && At(w, 41, pubKey)
    case JoinNotif(_, marker, _, groupId, peerId, pubKey, _, _) =>
      w[0] == 2 && At(w, 21, marker) && At(w, 42, peerId) && At(w, 62, pubKey) && At(w, 67, groupId)
    case JoinAck(_, groupId, peerId, pubKey) =>
      w[0] == 3 && At(w, 21, peerId) && At(w, 41, pubKey) && At(w, 46, groupId)
    case Ready(_) => w[0] == 4
    case ReadyNotif(_) => w[0] == 5
    case Data(_, marker, data) => w[0] == 6 && At(w, 21, marker) && At(w, 41, data)
  }

  /** What can be read: which types there are, and how long they have to be. */
  lemma WhatCanBeRead(w: Bytes, before: Port)
    ensures Parse(w, before).Success? <==>
      w != [] && match w[0]
                 case 1 => |w| >= 46
                 case 2 => |w| >= 87
                 case 3 => |w| >= 46
                 case 4 => true
                 case 5 => true
                 case 6 => |w| >= 41
                 case _ => false
    ensures Parse(w, before) == Failure(UnknownType) <==> w == [] || !(1 <= w[0] <= 6)
  {
  }

  /** What is read is what stands in the fields' places. A group id, or the stamp
      of a bare signal, takes what there is; any flag but zero is one; the address
      ends before the first colon, and the number is read from behind it, or from
      the start when there is no colon. */
  lemma ReadInPlace(w: Bytes, before: Port)
    requires Parse(w, before).Success?
    ensures InPlace(w, Parse(w, before).message)
    ensures match Parse(w, before).message
            case Join(_, _, _, port) => |w| >= 46 && port == ReadPort(w[46..], before)
            case JoinNotif(_, _, channel, _, _, _, ip, port) =>
              |w| >= 87 && (channel <==> w[41] != 0) && EndsIn(w[87..], ip, port, before)
            case JoinAck(_, groupId, _, _) => |groupId| == if |w| < 66 then |w| - 46 else 20
            case Data(_, _, data) => |data| == |w| - 41
            case m => |m.stamp| == if |w| < 21 then |w| - 1 else 20
  {
    hide ReadPort, EndsIn, IpOf, PortOf;
    if w[0] == TYPE_JOIN_NOTIF {
      EndpointEnds(w[87..], before);
    }
  }

  /** An endpoint: address, colon, port; or all of it both, without a colon. */
  predicate EndsIn(endpoint: Bytes, ip: Bytes, port: Port, before: Port) {
    58 !in ip && if endpoint == ip then port == ReadPort(ip, before)
                 else ip + [58] <= endpoint && port == ReadPort(endpoint[|ip| + 1..], before)
  }

  lemma EndpointEnds(endpoint: Bytes, before: Port)
    ensures EndsIn(endpoint, IpOf(endpoint), PortOf(endpoint, before), before)
  {
    hide ReadPort;
    var k := FindColon(endpoint);
    assert k < |endpoint| ==> endpoint[..k] + [58] == endpoint[..k + 1];
  }

  /** What is written has every field in its place. */
  lemma WrittenInPlace(m: Msg)
    requires Canonical(m)
    ensures InPlace(Serialize(m), m)
  {
    hide Parse, InPlace, Serialize;
    RoundTrip(m, 0);
    ReadInPlace(Serialize(m), 0);
  }

  /** And nothing besides but a request's port, or a notification's flag and
      endpoint. */
  lemma NothingElseWritten(m: Msg)
    requires Canonical(m)
    ensures var w := Serialize(m);
            match m
            case Join(_, _, _, port) => |w| >= 46 && w[46..] == Itos(port)
            case JoinNotif(_, _, channel, _, _, _, ip, port) =>
              |w| >= 87 && w[41] == (if channel then 1 else 0) && w[87..] == ip + [58] + Itos(port)
            case JoinAck(_, groupId, _, _) => |w| == 46 + |groupId|
            case Data(_, _, data) => |w| == 41 + |data|
            case _ => |w| == 1 + |m.stamp|
  {
    hide Itos;
    if m.JoinNotif? {
      NotificationEnds(m);
    }
  }

  lemma NotificationEnds(m: Msg)
    requires m.JoinNotif? && Canonical(m)
    ensures var w := Serialize(m);
            |w| >= 87 && w[41] == (if m.channel then 1 else 0) && w[87..] == m.ip + [58] + Itos(m.port)
  {
    hide Itos;
    var b, flag := [TYPE_JOIN_NOTIF] + m.stamp + m.marker, [if m.channel then 1 else 0];
    var c, endpoint := b + flag + m.peerId + m.pubKey + m.groupId, m.ip + [58] + Itos(m.port);
    assert Serialize(m) == c + endpoint;
    assert |c| == 87 && c[41] == flag[0];
  }

  // ---------------------------------------------------------- the log key

  /** What MessageLog::operator< compares: bytes 1 to 20 of the stored text. */
  function StampOf(w: Bytes): Bytes
    requires w != []
  {
    Cut(w, 1, MSG_STAMP_LENGTH)
  }

  /** The stamp is where the log looks for it. */
  predicate Stamped(m: Msg) {
    |m.stamp| == MSG_STAMP_LENGTH || (|m.stamp| < MSG_STAMP_LENGTH && (m.Ready? || m.ReadyNotif?))
  }

  lemma ParsedIsStamped(w: Bytes, before: Port)
    requires Parse(w, before).Success?
    ensures Stamped(Parse(w, before).message)
  {
  }

  lemma SerializedStamp(m: Msg)
    requires Stamped(m)
    ensures Serialize(m) != [] && StampOf(Serialize(m)) == m.stamp
  {
    var w := Serialize(m);
    var rest := w[1 + |m.stamp|..];
    assert w[1..1 + |m.stamp|] == m.stamp;
  }

  // ------------------------------------------------------- the methods

  method SerializeHeader(kind: byte, stamp: Bytes) returns (s: Bytes)
    ensures s == [kind] + stamp
  {
    s := [];
    s := s + [kind];
    s := s + stamp;
  }

  method SerializeMessage(m: Msg) returns (s: Bytes)
    ensures s == Serialize(m)
  {
    match m
    case Join(stamp, id, pubKey, port) =>
      s := SerializeHeader(TYPE_JOIN, stamp);
      s := s + id;
      s := s + pubKey;
      s := s + Itos(port);
    case JoinNotif(stamp, marker, channel, groupId, peerId, pubKey, ip, port) =>
      s := SerializeHeader(TYPE_JOIN_NOTIF, stamp);
      s := s + marker;
      s := s + [if channel then 1 else 0];
      s := s + peerId;
      s := s + pubKey;
      s := s + groupId;
      s := s + ip;
      s := s + [COLON];
      s := s + Itos(port);
    case JoinAck(stamp, groupId, peerId, pubKey) =>
      s := SerializeHeader(TYPE_JOIN_ACK, stamp);
      s := s + peerId;
      s := s + pubKey;
      s := s + groupId;
    case Ready(stamp) =>
      s := SerializeHeader(TYPE_READY, stamp);
    case ReadyNotif(stamp) =>
      s := SerializeHeader(TYPE_READY_NOTIF, stamp);
    case Data(stamp, marker, data) =>
      s := SerializeHeader(TYPE_DATA, stamp);
      s := s + marker;
      s := s + data;
  }

  /** string(msg, offset, count), which throws when offset is past the end. */
  method ReadField(msg: Bytes, offset: nat, count: nat) returns (field: Bytes, thrown: bool)
    ensures thrown <==> offset > |msg|
    ensures !thrown ==> field == Cut(msg, offset, count)
  {
    field, thrown := [], offset > |msg|;
    if !thrown {
      field := if offset + count <= |msg| then msg[offset..offset + count] else msg[offset..];
    }
  }

  method ParseJoin(msg: Bytes, stamp: Bytes, before: Port) returns (p: Parsed)
    requires msg != [] && msg[0] == TYPE_JOIN && stamp == StampOf(msg)
    ensures p == Parse(msg, before)
  {
    var offset := 1 + MSG_STAMP_LENGTH;
    var id, thrown := ReadField(msg, offset, ID_LENGTH);
    if thrown { return Failure(OutOfRange); }
    offset := offset + ID_LENGTH;
    var pubKey;
    pubKey, thrown := ReadField(msg, offset, KEY_LENGTH);
    if thrown { return Failure(OutOfRange); }
    offset := offset + KEY_LENGTH;
    var endpoint;
    endpoint, thrown := ReadField(msg, offset, |msg|);
    if thrown { return Failure(OutOfRange); }
    p := Success(Join(stamp, id, pubKey, ReadPort(endpoint, before)));
  }

  method ParseJoinNotif(msg: Bytes, stamp: Bytes, before: Port) returns (p: Parsed)
    requires msg != [] && msg[0] == TYPE_JOIN_NOTIF && stamp == StampOf(msg)
    ensures p == Parse(msg, before)
  {
    hide ReadPort, FindColon;
    var offset := 1 + MSG_STAMP_LENGTH;
    var marker, thrown := ReadField(msg, offset, BCAST_MARKER_LENGTH);
    if thrown { return Failure(OutOfRange); }
    offset := offset + BCAST_MARKER_LENGTH;
    // reading the flag checks nothing; past the end, the next field throws
    var flag := if offset < |msg| then msg[offset] else 0;
    offset := offset + 1;
    var peerId;
    peerId, thrown := ReadField(msg, offset, ID_LENGTH);
    if thrown { return Failure(OutOfRange); }
    offset := offset + ID_LENGTH;
    var pubKey;
    pubKey, thrown := ReadField(msg, offset, KEY_LENGTH);
    if thrown { return Failure(OutOfRange); }
    offset := offset + KEY_LENGTH;
    var groupId;
    groupId, thrown := ReadField(msg, offset, GROUP_ID_LENGTH);
    if thrown { return Failure(OutOfRange); }
    offset := offset + GROUP_ID_LENGTH;
    var endpoint;
    endpoint, thrown := ReadField(msg, offset, |msg|);
    if thrown { return Failure(OutOfRange); }
    p := Success(JoinNotif(stamp, marker, flag != 0, groupId, peerId, pubKey,
                           IpOf(endpoint), PortOf(endpoint, before)));
  }

  method ParseMessage(msg: Bytes, before: Port) returns (p: Parsed)
    ensures p == Parse(msg, before)
  {
    if msg == [] { return Failure(UnknownType); }
    var offset := 1 + MSG_STAMP_LENGTH;
    var stamp, thrown := ReadField(msg, 1, MSG_STAMP_LENGTH);
    if msg[0] == TYPE_JOIN {
      p := ParseJoin(msg, stamp, before);
    } else if msg[0] == TYPE_JOIN_NOTIF {
      p := ParseJoinNotif(msg, stamp, before);
    } else if msg[0] == TYPE_JOIN_ACK {
      var peerId, pubKey, groupId;
      peerId, thrown := ReadField(msg, offset, ID_LENGTH);
      if thrown { return Failure(OutOfRange); }
      offset := offset + ID_LENGTH;
      pubKey, thrown := ReadField(msg, offset, KEY_LENGTH);
      if thrown { return Failure(OutOfRange); }
      offset := offset + KEY_LENGTH;
      groupId, thrown := ReadField(msg, offset, GROUP_ID_LENGTH);
      if thrown { return Failure(OutOfRange); }
      p := Success(JoinAck(stamp, groupId, peerId, pubKey));
    } else if msg[0] == TYPE_READY {
      p := Success(Ready(stamp));
    } else if msg[0] == TYPE_READY_NOTIF {
      p := Success(ReadyNotif(stamp));
    } else if msg[0] == TYPE_DATA {
      var marker, data;
      marker, thrown := ReadField(msg, offset, BCAST_MARKER_LENGTH);
      if thrown { return Failure(OutOfRange); }
      offset := offset + BCAST_MARKER_LENGTH;
      data, thrown := ReadField(msg, offset, |msg|);
      if thrown { return Failure(OutOfRange); }
      p := Success(Data(stamp, marker, data));
    } else {
      p := Failure(UnknownType);
    }
  }
}
