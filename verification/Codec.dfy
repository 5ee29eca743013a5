/** What the codec guarantees: encoding and decoding are inverse, and packets are unambiguous. */
module Codec {
  import opened Prelude
  import opened Utf8
  import opened Messages
  import opened Protocol

  /** Any message of the four types. */
  datatype Message =
    | Request(request: PamRequest<Text>)
    | Reply(reply: PamReply<Text>)
    | Command(command: DaemonToHelper<Text>)
    | Report(report: HelperToDaemon<Text>)

  /** The type of message a receiver expects. */
  datatype Channel = Requests | Replies | Commands | Reports

  function ChannelOf(m: Message): Channel {
    match m
    case Request(_) => Requests
    case Reply(_) => Replies
    case Command(_) => Commands
    case Report(_) => Reports
  }

  function Kind(m: Message): u16 {
    match m
    case Request(_) => PAM_ENSURE_READY
    case Reply(r) => ReplyKind(r)
    case Command(c) => CommandKind(c)
    case Report(r) => ReportKind(r)
  }

  function Fields(m: Message): Fallible<seq<byte>> {
    match m
    case Request(r) => RequestFields(r)
    case Reply(r) => ReplyFields(r)
    case Command(c) => CommandFields(c)
    case Report(r) => ReportFields(r)
  }

  function Body(channel: Channel, kind: u16, input: seq<byte>): Fallible<Message> {
    match channel
    case Requests => var r :- RequestBody(kind, input); Ok(Request(r))
    case Replies => var r :- ReplyBody(kind, input); Ok(Reply(r))
    case Commands => var c :- CommandBody(kind, input); Ok(Command(c))
    case Reports => var r :- ReportBody(kind, input); Ok(Report(r))
  }

  function Encode(m: Message): Fallible<seq<byte>> {
    EncodeMessage(Kind(m), Fields(m))
  }

  function Decode(channel: Channel, packet: seq<byte>): Fallible<Message> {
    var (kind, input) :- DecodeHeader(packet);
    Body(channel, kind, input)
  }

  /** Every string of the message fits its field and contains no NUL. */
  predicate Encodable(m: Message) {
    match m
    case Request(EnsureManagerReady(id, dir)) => Fits(id, 256) && Fits(dir, 4096)
    case Reply(ReplyReady) => true
    case Reply(ReplyError(_, text)) => Fits(text, 1024)
    case Command(LeaseRejected(text)) => Fits(text, 1024)
    case Command(_) => true
    case Report(LeaseOpened(id, dir)) => Fits(id, 256) && Fits(dir, 4096)
    case Report(ReadinessPayload(text)) => Fits(text, 4096)
    case Report(StartFailed(text)) => Fits(text, 1024)
    case Report(Fatal(text)) => Fits(text, 1024)
    case Report(_) => true
  }

  predicate Fits(text: Text, max: nat) {
    1 <= |text| <= max && 0 !in text
  }

  // ---- Fields ----

  lemma StringRoundTrip(field: string, value: Text, min: nat, max: nat, rest: seq<byte>)
    requires max <= 0xFFFF
    ensures var put := PutString(field, value, min, max);
            put.Ok? ==> GetString(put.value + rest, field, min, max) == Ok((value, rest))
  {
    var put := PutString(field, value, min, max);
    if put.Ok? {
      var input := put.value + rest;
      U16Inverse(|value|, []);
      assert input[..2] == U16Bytes(|value|) && input[2..] == value + rest;
      assert (value + rest)[..|value|] == value && (value + rest)[|value|..] == rest;
    }
  }

  lemma StringCanonical(input: seq<byte>, field: string, min: nat, max: nat)
    requires max <= 0xFFFF
    ensures var got := GetString(input, field, min, max);
            got.Ok? ==>
              && PutString(field, got.value.0, min, max).Ok?
              && input == PutString(field, got.value.0, min, max).value + got.value.1
              && (got.value.1 == [] ==> PutString(field, got.value.0, min, max) == Ok(input))
  {
    var got := GetString(input, field, min, max);
    if got.Ok? {
      var (value, rest) := got.value;
      U16Inverse(0, input[..2]);
      assert U16Bytes(|value| % 0x1_0000) == input[..2];
      CutThree(input, value, rest);
      NothingLeft(input, input[..2] + value, rest);
    }
  }

  lemma CutThree(input: seq<byte>, value: seq<byte>, rest: seq<byte>)
    requires 2 + |value| <= |input| && value == input[2..][..|value|] && rest == input[2..][|value|..]
    ensures input == (input[..2] + value) + rest
  {
  }

  lemma LocationRoundTrip(id: Text, dir: Text, rest: seq<byte>)
    ensures var put := PutLocation(id, dir);
            put.Ok? ==> GetLocation(put.value + rest) == Ok(((id, dir), rest))
  {
    var put := PutLocation(id, dir);
    if put.Ok? {
      var first := PutString("session ID", id, 1, MAX_SESSION_ID).value;
      var second := PutString("runtime directory", dir, 1, MAX_PATH).value;
      assert put.value + rest == first + (second + rest);
      StringRoundTrip("session ID", id, 1, MAX_SESSION_ID, second + rest);
      StringRoundTrip("runtime directory", dir, 1, MAX_PATH, rest);
    }
  }

  lemma LocationCanonical(input: seq<byte>)
    ensures var got := GetLocation(input);
            got.Ok? ==>
              && PutLocation(got.value.0.0, got.value.0.1).Ok?
              && input == PutLocation(got.value.0.0, got.value.0.1).value + got.value.1
              && (got.value.1 == [] ==> PutLocation(got.value.0.0, got.value.0.1) == Ok(input))
  {
    var got := GetLocation(input);
    if got.Ok? {
      var (id, middle) := GetString(input, "session ID", 1, MAX_SESSION_ID).value;
      StringCanonical(input, "session ID", 1, MAX_SESSION_ID);
      StringCanonical(middle, "runtime directory", 1, MAX_PATH);
      var first := PutString("session ID", id, 1, MAX_SESSION_ID).value;
      var second := PutString("runtime directory", got.value.0.1, 1, MAX_PATH).value;
      Regroup(first, second, got.value.1);
      NothingLeft(input, first + second, got.value.1);
    }
  }

  lemma Regroup(a: seq<byte>, b: seq<byte>, c: seq<byte>)
    ensures a + (b + c) == (a + b) + c
  {
  }

  lemma NothingLeft(input: seq<byte>, bytes: seq<byte>, rest: seq<byte>)
    requires input == bytes + rest
    ensures rest == [] ==> bytes == input
  {
  }

  lemma NumberRoundTrip(n: u32, rest: seq<byte>)
    ensures GetU32(U32Bytes(n) + rest) == Ok((n, rest))
  {
    U32Inverse(n, []);
    assert (U32Bytes(n) + rest)[..4] == U32Bytes(n) && (U32Bytes(n) + rest)[4..] == rest;
  }

  lemma NumberCanonical(input: seq<byte>)
    ensures var got := GetU32(input);
            got.Ok? ==>
              && input == U32Bytes(got.value.0) + got.value.1
              && (got.value.1 == [] ==> U32Bytes(got.value.0) == input)
  {
    if |input| >= 4 {
      U32Inverse(0, input[..4]);
    }
  }

  lemma ShortRoundTrip(n: u16, rest: seq<byte>)
    ensures GetU16(U16Bytes(n) + rest) == Ok((n, rest))
  {
    U16Inverse(n, []);
    assert (U16Bytes(n) + rest)[..2] == U16Bytes(n) && (U16Bytes(n) + rest)[2..] == rest;
  }

  lemma ShortCanonical(input: seq<byte>)
    ensures var got := GetU16(input); got.Ok? ==> input == U16Bytes(got.value.0) + got.value.1
  {
    if |input| >= 2 {
      U16Inverse(0, input[..2]);
    }
  }

  lemma ErrorRoundTrip(code: ErrorCode, text: Text, rest: seq<byte>)
    ensures var put := PutError(code, text);
            put.Ok? ==> GetError(put.value + rest) == Ok(((code, text), rest))
  {
    var put := PutError(code, text);
    if put.Ok? {
      var body := PutString("error message", text, 1, MAX_MESSAGE).value;
      assert put.value + rest == U16Bytes(CodeNumber(code)) + (body + rest);
      ShortRoundTrip(CodeNumber(code), body + rest);
      StringRoundTrip("error message", text, 1, MAX_MESSAGE, rest);
    }
  }

  lemma ErrorCanonical(input: seq<byte>)
    ensures var got := GetError(input);
            got.Ok? ==>
              && PutError(got.value.0.0, got.value.0.1).Ok?
              && input == PutError(got.value.0.0, got.value.0.1).value + got.value.1
              && (got.value.1 == [] ==> PutError(got.value.0.0, got.value.0.1) == Ok(input))
  {
    var got := GetError(input);
    if got.Ok? {
      var (number, middle) := GetU16(input).value;
      ShortCanonical(input);
      CodeCanonical(number);
      StringCanonical(middle, "error message", 1, MAX_MESSAGE);
      var text := PutString("error message", got.value.0.1, 1, MAX_MESSAGE).value;
      Regroup(U16Bytes(number), text, got.value.1);
      NothingLeft(input, PutError(got.value.0.0, got.value.0.1).value, got.value.1);
    }
  }

  lemma CodeCanonical(number: u16)
    ensures CodeFromWire(number).Ok? ==> CodeNumber(CodeFromWire(number).value) == number
  {
  }

  lemma StatusRoundTrip(status: ProcessStatus, rest: seq<byte>)
    ensures GetStatus(PutStatus(status) + rest) == Ok((status, rest))
  {
    var value := U32Bytes(StatusValue(status));
    assert PutStatus(status) + rest == U16Bytes(StatusKind(status)) + (value + rest);
    ShortRoundTrip(StatusKind(status), value + rest);
    NumberRoundTrip(StatusValue(status), rest);
  }

  lemma StatusCanonical(input: seq<byte>)
    ensures var got := GetStatus(input);
            got.Ok? ==>
              && input == PutStatus(got.value.0) + got.value.1
              && (got.value.1 == [] ==> PutStatus(got.value.0) == input)
  {
    ShortCanonical(input);
    var kind := GetU16(input);
    if kind.Ok? {
      NumberCanonical(kind.value.1);
    }
  }

  // ---- The header ----

  lemma HeaderRoundTrip(kind: u16, payload: seq<byte>)
    requires HEADER_LENGTH + |payload| <= MAX_PACKET_SIZE
    ensures DecodeHeader(Header(kind, |payload|) + payload) == Ok((kind, payload))
  {
    var length := |payload|;
    U16OfBytes(PROTOCOL_VERSION);
    U16OfBytes(kind);
    U32OfBytes(length);
    HeaderIsRead(U16Bytes(PROTOCOL_VERSION), U16Bytes(kind), U32Bytes(length), payload);
    assert length % 0x1_0000_0000 == length;
  }

  lemma HeaderIsRead(version: seq<byte>, kind: seq<byte>, length: seq<byte>, payload: seq<byte>)
    requires |version| == |kind| == 2 && |length| == 4 && HEADER_LENGTH + |payload| <= MAX_PACKET_SIZE
    requires U16Of(version) == PROTOCOL_VERSION && U32Of(length) == |payload|
    ensures DecodeHeader(MAGIC + version + kind + length + payload) == Ok((U16Of(kind), payload))
  {
    FiveParts(MAGIC, version, kind, length, payload);
  }

  lemma FiveParts(magic: seq<byte>, version: seq<byte>, kind: seq<byte>, length: seq<byte>, payload: seq<byte>)
    requires |magic| == |length| == 4 && |version| == |kind| == 2
    ensures var packet := magic + version + kind + length + payload;
            && packet[..4] == magic && packet[4..6] == version && packet[6..8] == kind
            && packet[8..12] == length && packet[12..] == payload
  {
  }

  lemma HeaderCanonical(packet: seq<byte>)
    ensures var got := DecodeHeader(packet);
            got.Ok? ==>
              && |packet| <= MAX_PACKET_SIZE
              && packet == Header(got.value.0, |got.value.1|) + got.value.1
              && EncodeMessage(got.value.0, Ok(got.value.1)) == Ok(packet)
  {
    if DecodeHeader(packet).Ok? {
      HeaderIsFront(packet);
      assert packet == packet[..12] + packet[12..];
    }
  }

  lemma HeaderIsFront(packet: seq<byte>)
    requires DecodeHeader(packet).Ok?
    ensures |packet| >= 12 && DecodeHeader(packet).value.1 == packet[12..]
    ensures Header(DecodeHeader(packet).value.0, |packet| - 12) == packet[..12]
  {
    U16Inverse(0, packet[4..6]);
    U16Inverse(0, packet[6..8]);
    U32Inverse(0, packet[8..12]);
    FrontParts(packet);
  }

  lemma FrontParts(packet: seq<byte>)
    requires |packet| >= 12
    ensures packet[..12] == packet[..4] + packet[4..6] + packet[6..8] + packet[8..12]
  {
  }

  // ---- Bodies ----

  lemma FieldsIffEncodable(m: Message)
    ensures Fields(m).Ok? <==> Encodable(m)
    ensures Fields(m).Ok? ==> |Fields(m).value| <= 4 + MAX_SESSION_ID + MAX_PATH
    ensures Fields(m).Err? ==> Fields(m).error.InvalidFieldLength? || Fields(m).error.InteriorNul?
  {
  }

  lemma BodyInvertsFields(m: Message)
    requires Fields(m).Ok?
    ensures Body(ChannelOf(m), Kind(m), Fields(m).value) == Ok(m)
  {
    var input := Fields(m).value;
    assert input + [] == input;
    match m
    case Request(EnsureManagerReady(id, dir)) => LocationRoundTrip(id, dir, []);
    case Reply(ReplyReady) =>
    case Reply(ReplyError(code, text)) => ErrorRoundTrip(code, text, []);
    case Command(command) => CommandBodyInvertsFields(command);
    case Report(report) => ReportBodyInvertsFields(report);
  }

  lemma CommandBodyInvertsFields(m: DaemonToHelper<Text>)
    requires CommandFields(m).Ok?
    ensures CommandBody(CommandKind(m), CommandFields(m).value) == Ok(m)
  {
    var input := CommandFields(m).value;
    assert input + [] == input;
    match m
    case LeaseRejected(text) => StringRoundTrip("lease rejection reason", text, 1, MAX_MESSAGE, []);
    case StartManager(attempt) => NumberRoundTrip(attempt, []);
    case _ =>
  }

  lemma ReportBodyInvertsFields(m: HelperToDaemon<Text>)
    requires ReportFields(m).Ok?
    ensures ReportBody(ReportKind(m), ReportFields(m).value) == Ok(m)
  {
    var input := ReportFields(m).value;
    assert input + [] == input;
    match m
    case LeaseOpened(id, dir) => LocationRoundTrip(id, dir, []);
    case ManagerSpawned(pid) => NumberRoundTrip(pid, []);
    case ManagerExited(status) => StatusRoundTrip(status, []);
    case ReadinessPayload(_) => TextReportBodyInvertsFields(m);
    case StartFailed(_) => TextReportBodyInvertsFields(m);
    case Fatal(_) => TextReportBodyInvertsFields(m);
    case _ =>
  }

  lemma TextReportBodyInvertsFields(m: HelperToDaemon<Text>)
    requires ReportFields(m).Ok? && (m.ReadinessPayload? || m.StartFailed? || m.Fatal?)
    ensures ReportBody(ReportKind(m), ReportFields(m).value) == Ok(m)
  {
    var input := ReportFields(m).value;
    assert input + [] == input;
    if m.ReadinessPayload? {
      StringRoundTrip("readiness payload", m.payload, 1, MAX_READY_PAYLOAD, []);
    } else if m.StartFailed? {
      StringRoundTrip("startup failure", m.message, 1, MAX_MESSAGE, []);
    } else {
      StringRoundTrip("fatal error", m.message, 1, MAX_MESSAGE, []);
    }
  }

  lemma FieldsInvertBody(channel: Channel, kind: u16, input: seq<byte>)
    ensures var got := Body(channel, kind, input);
            got.Ok? ==>
              && ChannelOf(got.value) == channel
              && Kind(got.value) == kind
              && Fields(got.value) == Ok(input)
  {
    match channel
    case Requests => LocationCanonical(input);
    case Replies => ErrorCanonical(input);
    case Commands => CommandFieldsInvertBody(kind, input);
    case Reports => ReportFieldsInvertBody(kind, input);
  }

  lemma CommandFieldsInvertBody(kind: u16, input: seq<byte>)
    ensures var got := CommandBody(kind, input);
            got.Ok? ==> CommandKind(got.value) == kind && CommandFields(got.value) == Ok(input)
  {
    StringCanonical(input, "lease rejection reason", 1, MAX_MESSAGE);
    NumberCanonical(input);
  }

  lemma ReportFieldsInvertBody(kind: u16, input: seq<byte>)
    ensures var got := ReportBody(kind, input);
            got.Ok? ==> ReportKind(got.value) == kind && ReportFields(got.value) == Ok(input)
  {
    if kind == HELPER_LEASE_OPENED {
      LocationCanonical(input);
    } else if kind == HELPER_MANAGER_EXITED {
      StatusCanonical(input);
    } else if kind == HELPER_MANAGER_SPAWNED {
      NumberCanonical(input);
    } else {
      TextReportFieldsInvertBody(kind, input);
    }
  }

  lemma TextReportFieldsInvertBody(kind: u16, input: seq<byte>)
    requires kind != HELPER_LEASE_OPENED && kind != HELPER_MANAGER_EXITED && kind != HELPER_MANAGER_SPAWNED
    ensures var got := ReportBody(kind, input);
            got.Ok? ==> ReportKind(got.value) == kind && ReportFields(got.value) == Ok(input)
  {
    if kind == HELPER_READINESS_PAYLOAD {
      StringCanonical(input, "readiness payload", 1, MAX_READY_PAYLOAD);
    } else if kind == HELPER_START_FAILED {
      StringCanonical(input, "startup failure", 1, MAX_MESSAGE);
    } else if kind == HELPER_FATAL {
      StringCanonical(input, "fatal error", 1, MAX_MESSAGE);
    }
  }

  // ---- Main results ----

  /** A message encodes exactly when its strings fit, and a packet is never too large. */
  lemma EncodesIffEncodable(m: Message)
    ensures Encode(m).Ok? <==> Encodable(m)
    ensures Encode(m).Err? ==> Encode(m).error.InvalidFieldLength? || Encode(m).error.InteriorNul?
    ensures Encode(m).Ok? ==> HEADER_LENGTH <= |Encode(m).value| <= MAX_PACKET_SIZE
  {
    FieldsIffEncodable(m);
  }

  /** Decoding inverts encoding. */
  lemma DecodeInvertsEncode(m: Message)
    ensures Encode(m).Ok? ==> Decode(ChannelOf(m), Encode(m).value) == Ok(m)
  {
    if Encode(m).Ok? {
      BodyInvertsFields(m);
      HeaderRoundTrip(Kind(m), Fields(m).value);
    }
  }

  /** Only the canonical packet decodes: encoding inverts decoding. */
  lemma EncodeInvertsDecode(channel: Channel, packet: seq<byte>)
    ensures var got := Decode(channel, packet);
            got.Ok? ==> ChannelOf(got.value) == channel && Encode(got.value) == Ok(packet)
  {
    if Decode(channel, packet).Ok? {
      HeaderCanonical(packet);
      var (kind, input) := DecodeHeader(packet).value;
      FieldsInvertBody(channel, kind, input);
    }
  }

  lemma KindsAreDisjoint(m: Message, n: Message)
    requires Kind(m) == Kind(n)
    ensures ChannelOf(m) == ChannelOf(n)
  {
  }

  /** No packet is a message of two different types. */
  lemma OneTypePerPacket(packet: seq<byte>, c: Channel, d: Channel)
    requires Decode(c, packet).Ok? && Decode(d, packet).Ok?
    ensures c == d
  {
    var (kind, input) := DecodeHeader(packet).value;
    FieldsInvertBody(c, kind, input);
    FieldsInvertBody(d, kind, input);
    KindsAreDisjoint(Decode(c, packet).value, Decode(d, packet).value);
  }

  /** No proper prefix of a valid packet is a valid packet of any type. */
  lemma NoPrefixDecodes(packet: seq<byte>, c: Channel, d: Channel, k: nat)
    requires Decode(c, packet).Ok? && k < |packet|
    ensures Decode(d, packet[..k]).Err?
  {
    assert DecodeHeader(packet).Ok?;
    if k >= HEADER_LENGTH {
      assert packet[..k][8..12] == packet[8..12];
    }
    assert DecodeHeader(packet[..k]).Err?;
  }

  /** Where the header's fields are in any packet: the letters EUSV, the version, the kind and the length. */
  lemma PacketLayout(kind: u16, payload: seq<byte>)
    requires HEADER_LENGTH + |payload| <= MAX_PACKET_SIZE
    ensures var n := |payload|;
            EncodeMessage(kind, Ok(payload)) ==
            Ok([0x45, 0x55, 0x53, 0x56, 0, 1, kind / 0x100, kind % 0x100, 0, 0, n / 0x100, n % 0x100] + payload)
  {
    var n := |payload|;
    assert U32Bytes(n) == [0, 0, n / 0x100, n % 0x100];
    assert Header(kind, n) == [0x45, 0x55, 0x53, 0x56, 0, 1, kind / 0x100, kind % 0x100, 0, 0, n / 0x100, n % 0x100];
  }

  // ---- The packets, spelled out ----

  /** A whole packet: magic, version 1, kind and length, and then the payload. */
  function Packet(high: byte, low: byte, payload: seq<byte>): seq<byte>
    requires |payload| < 0x1_0000
  {
    [0x45, 0x55, 0x53, 0x56, 0, 1, high, low, 0, 0, |payload| / 0x100, |payload| % 0x100] + payload
  }

  /** A string with its length in front. */
  function Counted(text: Text): seq<byte>
    requires |text| < 0x1_0000
  {
    [|text| / 0x100, |text| % 0x100] + text
  }

  function Word(n: u32): seq<byte> {
    [n / 0x100_0000, n / 0x1_0000 % 0x100, n / 0x100 % 0x100, n % 0x100]
  }

  predicate IsPacketOfReply(m: PamReply<Text>, b: seq<byte>) {
    match m
    case ReplyReady => b == Packet(0, 2, [])
    case ReplyError(code, text) =>
      |text| <= 1024 &&
      match code
      case InvalidRequest => b == Packet(0, 3, [0, 1] + Counted(text))
      case PermissionDenied => b == Packet(0, 3, [0, 2] + Counted(text))
      case SessionNotFound => b == Packet(0, 3, [0, 3] + Counted(text))
      case SessionIneligible => b == Packet(0, 3, [0, 4] + Counted(text))
      case Login1Unavailable => b == Packet(0, 3, [0, 5] + Counted(text))
      case StartupFailed => b == Packet(0, 3, [0, 6] + Counted(text))
      case TimedOut => b == Packet(0, 3, [0, 7] + Counted(text))
      case Internal => b == Packet(0, 3, [0, 8] + Counted(text))
      case CodeUnsupportedVersion => b == Packet(0, 3, [0, 9] + Counted(text))
  }

  predicate IsPacketOfCommand(m: DaemonToHelper<Text>, b: seq<byte>) {
    match m
    case LeaseAccepted => b == Packet(1, 1, [])
    case LeaseRejected(reason) => |reason| <= 1024 && b == Packet(1, 2, Counted(reason))
    case StartManager(attempt) => b == Packet(1, 3, Word(attempt))
    case StopManager => b == Packet(1, 4, [])
    case Shutdown => b == Packet(1, 5, [])
  }

  predicate IsPacketOfReport(m: HelperToDaemon<Text>, b: seq<byte>) {
    match m
    case LeaseOpened(id, dir) => |id| <= 256 && |dir| <= 4096 && b == Packet(1, 0, Counted(id) + Counted(dir))
    case ManagerSpawned(pid) => b == Packet(1, 6, Word(pid))
    case ReadinessPayload(text) => |text| <= 4096 && b == Packet(1, 7, Counted(text))
    case ReadySucceeded => b == Packet(1, 8, [])
    case StartFailed(text) => |text| <= 1024 && b == Packet(1, 9, Counted(text))
    case ManagerExited(Exited(n)) => b == Packet(1, 10, [0, 1] + Word(n))
    case ManagerExited(Signaled(n)) => b == Packet(1, 10, [0, 2] + Word(n))
    case ManagerExited(Other(n)) => b == Packet(1, 10, [0, 3] + Word(n))
    case ShutdownComplete => b == Packet(1, 11, [])
    case Fatal(text) => |text| <= 1024 && b == Packet(1, 12, Counted(text))
  }

  /** The bytes of every message, with all numbers written out. */
  predicate IsPacketOf(m: Message, b: seq<byte>) {
    match m
    case Request(EnsureManagerReady(id, dir)) => |id| <= 256 && |dir| <= 4096 && b == Packet(0, 1, Counted(id) + Counted(dir))
    case Reply(r) => IsPacketOfReply(r, b)
    case Command(c) => IsPacketOfCommand(c, b)
    case Report(r) => IsPacketOfReport(r, b)
  }

  lemma EncodedPacket(kind: u16, fields: Fallible<seq<byte>>)
    requires EncodeMessage(kind, fields).Ok?
    ensures fields.Ok? && |fields.value| < 0x1_0000
    ensures EncodeMessage(kind, fields).value == Packet(kind / 0x100, kind % 0x100, fields.value)
  {
    PacketLayout(kind, fields.value);
  }

  lemma PutCounted(field: string, text: Text, max: nat)
    requires max < 0x1_0000 && PutString(field, text, 1, max).Ok?
    ensures |text| <= max && PutString(field, text, 1, max).value == Counted(text)
  {
  }

  lemma ErrorIsPacket(code: ErrorCode, text: Text)
    requires Encode(Reply(ReplyError(code, text))).Ok?
    ensures |text| <= 1024
    ensures Encode(Reply(ReplyError(code, text))).value == Packet(0, 3, [0, CodeNumber(code)] + Counted(text))
  {
    EncodedPacket(PAM_ERROR, PutError(code, text));
    PutCounted("error message", text, MAX_MESSAGE);
    assert U16Bytes(CodeNumber(code)) == [0, CodeNumber(code)];
  }

  lemma ReplyIsPacket(m: PamReply<Text>)
    requires Encode(Reply(m)).Ok?
    ensures IsPacketOfReply(m, Encode(Reply(m)).value)
  {
    match m
    case ReplyReady => EncodedPacket(PAM_READY, Ok([]));
    case ReplyError(code, text) => ErrorIsPacket(code, text);
  }

  lemma CommandIsPacket(m: DaemonToHelper<Text>)
    requires Encode(Command(m)).Ok?
    ensures IsPacketOfCommand(m, Encode(Command(m)).value)
  {
    EncodedPacket(CommandKind(m), CommandFields(m));
    if m.LeaseRejected? {
      PutCounted("lease rejection reason", m.reason, MAX_MESSAGE);
    }
  }

  lemma LocationIsCounted(id: Text, dir: Text)
    requires PutLocation(id, dir).Ok?
    ensures |id| <= 256 && |dir| <= 4096 && PutLocation(id, dir).value == Counted(id) + Counted(dir)
  {
    PutCounted("session ID", id, MAX_SESSION_ID);
    PutCounted("runtime directory", dir, MAX_PATH);
  }

  lemma TextReportIsPacket(m: HelperToDaemon<Text>)
    requires Encode(Report(m)).Ok? && (m.ReadinessPayload? || m.StartFailed? || m.Fatal?)
    ensures IsPacketOfReport(m, Encode(Report(m)).value)
  {
    match m
    case ReadinessPayload(text) => CountedPacket(HELPER_READINESS_PAYLOAD, "readiness payload", text, MAX_READY_PAYLOAD);
    case StartFailed(text) => CountedPacket(HELPER_START_FAILED, "startup failure", text, MAX_MESSAGE);
    case Fatal(text) => CountedPacket(HELPER_FATAL, "fatal error", text, MAX_MESSAGE);
  }

  lemma CountedPacket(kind: u16, field: string, text: Text, max: nat)
    requires max < 0x1_0000 && EncodeMessage(kind, PutString(field, text, 1, max)).Ok?
    ensures |text| <= max && |Counted(text)| < 0x1_0000
    ensures EncodeMessage(kind, PutString(field, text, 1, max)).value == Packet(kind / 0x100, kind % 0x100, Counted(text))
  {
    EncodedPacket(kind, PutString(field, text, 1, max));
    PutCounted(field, text, max);
  }

  lemma StatusReportIsPacket(status: ProcessStatus)
    requires Encode(Report(ManagerExited(status))).Ok?
    ensures IsPacketOfReport(ManagerExited(status), Encode(Report(ManagerExited(status))).value)
  {
    EncodedPacket(HELPER_MANAGER_EXITED, ReportFields(ManagerExited(status)));
    assert Word(StatusValue(status)) == U32Bytes(StatusValue(status));
  }

  lemma ReportIsPacket(m: HelperToDaemon<Text>)
    requires Encode(Report(m)).Ok?
    ensures IsPacketOfReport(m, Encode(Report(m)).value)
  {
    if m.ReadinessPayload? || m.StartFailed? || m.Fatal? {
      TextReportIsPacket(m);
    } else if m.ManagerExited? {
      StatusReportIsPacket(m.status);
    } else {
      EncodedPacket(ReportKind(m), ReportFields(m));
      if m.LeaseOpened? {
        LocationIsCounted(m.sessionId, m.runtimeDir);
      }
    }
  }

  /** A message that can be encoded is the packet spelled out for it. */
  lemma PacketsAreSpelledOut(m: Message)
    requires Encode(m).Ok?
    ensures IsPacketOf(m, Encode(m).value)
  {
    match m
    case Request(r) =>
      EncodedPacket(PAM_ENSURE_READY, RequestFields(r));
      LocationIsCounted(r.sessionId, r.runtimeDir);
    case Reply(r) => ReplyIsPacket(r);
    case Command(c) => CommandIsPacket(c);
    case Report(r) => ReportIsPacket(r);
  }

  /** Packets in full, with the numbers of three kinds, an error code and a status. */
  lemma SamplePackets(text: Text)
    requires |text| == 1 && text[0] != 0
    ensures Encode(Command(Shutdown)) == Ok([0x45, 0x55, 0x53, 0x56, 0, 1, 1, 5, 0, 0, 0, 0])
    ensures Encode(Report(ManagerExited(Signaled(9)))) ==
            Ok([0x45, 0x55, 0x53, 0x56, 0, 1, 1, 0x0A, 0, 0, 0, 6, 0, 2, 0, 0, 0, 9])
    ensures Encode(Reply(ReplyError(TimedOut, text))) ==
            Ok([0x45, 0x55, 0x53, 0x56, 0, 1, 0, 3, 0, 0, 0, 5, 0, 7, 0, 1] + text)
  {
    SampleCommand();
    SampleReport();
    SampleReply(text);
  }

  lemma SampleCommand()
    ensures Encode(Command(Shutdown)) == Ok([0x45, 0x55, 0x53, 0x56, 0, 1, 1, 5, 0, 0, 0, 0])
  {
    PacketLayout(HELPER_SHUTDOWN, []);
    assert [0x45, 0x55, 0x53, 0x56, 0, 1, 1, 5, 0, 0, 0, 0] + [] == [0x45, 0x55, 0x53, 0x56, 0, 1, 1, 5, 0, 0, 0, 0];
  }

  lemma SampleReport()
    ensures Encode(Report(ManagerExited(Signaled(9)))) ==
            Ok([0x45, 0x55, 0x53, 0x56, 0, 1, 1, 0x0A, 0, 0, 0, 6, 0, 2, 0, 0, 0, 9])
  {
    var status := [0, 2, 0, 0, 0, 9];
    PacketLayout(HELPER_MANAGER_EXITED, status);
    assert PutStatus(Signaled(9)) == status;
    assert [0x45, 0x55, 0x53, 0x56, 0, 1, 1, 0x0A, 0, 0, 0, 6] + status ==
           [0x45, 0x55, 0x53, 0x56, 0, 1, 1, 0x0A, 0, 0, 0, 6, 0, 2, 0, 0, 0, 9];
  }

  lemma SampleReply(text: Text)
    requires |text| == 1 && text[0] != 0
    ensures Encode(Reply(ReplyError(TimedOut, text))) ==
            Ok([0x45, 0x55, 0x53, 0x56, 0, 1, 0, 3, 0, 0, 0, 5, 0, 7, 0, 1] + text)
  {
    var error := [0, 7] + ([0, 1] + text);
    PacketLayout(PAM_ERROR, error);
    assert text == [text[0]];
    assert PutString("error message", text, 1, MAX_MESSAGE) == Ok([0, 1] + text);
    assert PutError(TimedOut, text) == Ok(error);
    assert [0x45, 0x55, 0x53, 0x56, 0, 1, 0, 3, 0, 0, 0, 5] + error ==
           [0x45, 0x55, 0x53, 0x56, 0, 1, 0, 3, 0, 0, 0, 5, 0, 7, 0, 1] + text;
  }
}
