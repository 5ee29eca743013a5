/**
  The bounded wire protocol: message types, and what encoding and decoding them mean as functions
  on byte sequences. One message is one packet; multi-byte integers are big endian.
 */
module Protocol {
  import opened Prelude
  import opened Utf8
  import opened Messages

  const PROTOCOL_VERSION: u16 := 1
  const MAGIC: seq<byte> := [0x45, 0x55, 0x53, 0x56]
  const HEADER_LENGTH: nat := 12
  const MAX_PACKET_SIZE: nat := 8 * 1024
  const MAX_SESSION_ID: nat := 256
  const MAX_PATH: nat := 4096
  const MAX_MESSAGE: nat := 1024
  const MAX_READY_PAYLOAD: nat := 4096

  type u16 = n: int | 0 <= n <= 0xFFFF

  const PAM_ENSURE_READY: u16 := 1
  const PAM_READY: u16 := 2
  const PAM_ERROR: u16 := 3
  const HELPER_LEASE_OPENED: u16 := 0x100
  const HELPER_LEASE_ACCEPTED: u16 := 0x101
  const HELPER_LEASE_REJECTED: u16 := 0x102
  const HELPER_START: u16 := 0x103
  const HELPER_STOP: u16 := 0x104
  const HELPER_SHUTDOWN: u16 := 0x105
  const HELPER_MANAGER_SPAWNED: u16 := 0x106
  const HELPER_READINESS_PAYLOAD: u16 := 0x107
  const HELPER_READY_SUCCEEDED: u16 := 0x108
  const HELPER_START_FAILED: u16 := 0x109
  const HELPER_MANAGER_EXITED: u16 := 0x10a
  const HELPER_SHUTDOWN_COMPLETE: u16 := 0x10b
  const HELPER_FATAL: u16 := 0x10c

  datatype ProtocolError =
    | TruncatedHeader
    | InvalidMagic
    | UnsupportedVersion(version: u16)
    | PacketTooLarge(size: nat)
    | LengthMismatch
    | UnknownKind(kind: u16)
    | InvalidFieldLength(field: string, actual: nat, min: nat, max: nat)
    | InvalidUtf8(field: string)
    | InteriorNul(field: string)
    | InvalidEnum(what: string, value: u32)
    | TrailingData

  type Fallible<+T> = Result<T, ProtocolError>

  // ---- Integers ----

  function U16Bytes(n: u16): seq<byte> {
    [n / 0x100, n % 0x100]
  }

  function U32Bytes(n: u32): seq<byte> {
    [n / 0x100_0000, (n / 0x1_0000) % 0x100, (n / 0x100) % 0x100, n % 0x100]
  }

  function U16Of(s: seq<byte>): u16
    requires |s| == 2
  {
    (s[0] as int) * 0x100 + s[1]
  }

  function U32Of(s: seq<byte>): u32
    requires |s| == 4
  {
    (s[0] as int) * 0x100_0000 + (s[1] as int) * 0x1_0000 + (s[2] as int) * 0x100 + s[3]
  }

  lemma U16Inverse(n: u16, s: seq<byte>)
    ensures U16Of(U16Bytes(n)) == n
    ensures |s| == 2 ==> U16Bytes(U16Of(s)) == s
  {
  }

  lemma U16OfBytes(n: u16)
    ensures |U16Bytes(n)| == 2 && U16Of(U16Bytes(n)) == n
  {
  }

  lemma U32Inverse(n: u32, s: seq<byte>)
    ensures U32Of(U32Bytes(n)) == n
    ensures |s| == 4 ==> U32Bytes(U32Of(s)) == s
  {
    U32OfBytes(n);
    if |s| == 4 {
      U32BytesOf(s);
    }
  }

  lemma U32OfBytes(n: u32)
    ensures |U32Bytes(n)| == 4 && U32Of(U32Bytes(n)) == n
  {
    assert n / 0x1_0000 == 0x100 * (n / 0x100_0000) + (n / 0x1_0000) % 0x100;
    assert n / 0x100 == 0x100 * (n / 0x1_0000) + (n / 0x100) % 0x100;
  }

  lemma U32BytesOf(s: seq<byte>)
    requires |s| == 4
    ensures U32Bytes(U32Of(s)) == s
  {
    DigitsOf(s[0], s[1], s[2], s[3]);
  }

  /** The base-256 digits of a number are found again. */
  lemma DigitsOf(a: byte, b: byte, c: byte, d: byte)
    ensures var m: int := (a as int) * 0x100_0000 + (b as int) * 0x1_0000 + (c as int) * 0x100 + d;
            m / 0x100_0000 == a && (m / 0x1_0000) % 0x100 == b && (m / 0x100) % 0x100 == c && m % 0x100 == d
  {
    var high: int := (a as int) * 0x100 + b;
    var m: int := high * 0x1_0000 + (c as int) * 0x100 + d;
    assert m / 0x1_0000 == high;
    assert m / 0x100 == high * 0x100 + c;
  }

  // ---- Writing fields ----

  /** Why a string may not be written in a field bounded by `min..=max`, if it may not. */
  function StringFault(field: string, value: Text, min: nat, max: nat): Option<ProtocolError> {
    if !(min <= |value| <= max) then Some(InvalidFieldLength(field, |value|, min, max))
    else if 0 in value then Some(InteriorNul(field))
    else None
  }

  function PutString(field: string, value: Text, min: nat, max: nat): Fallible<seq<byte>> {
    match StringFault(field, value, min, max)
    case Some(error) => Err(error)
    case None => Ok(U16Bytes(|value| % 0x1_0000) + value)
  }

  function Header(kind: u16, length: nat): seq<byte> {
    MAGIC + U16Bytes(PROTOCOL_VERSION) + U16Bytes(kind) + U32Bytes(length % 0x1_0000_0000)
  }

  function EncodeMessage(kind: u16, fields: Fallible<seq<byte>>): Fallible<seq<byte>> {
    var payload :- fields;
    var total := HEADER_LENGTH + |payload|;
    if total > MAX_PACKET_SIZE then Err(PacketTooLarge(total))
    else Ok(Header(kind, |payload|) + payload)
  }

  // ---- Reading fields ----

  function Take(input: seq<byte>, count: nat): Fallible<(seq<byte>, seq<byte>)> {
    if count > |input| then Err(LengthMismatch) else Ok((input[..count], input[count..]))
  }

  function GetU16(input: seq<byte>): Fallible<(u16, seq<byte>)> {
    var (bytes, rest) :- Take(input, 2);
    Ok((U16Of(bytes), rest))
  }

  function GetU32(input: seq<byte>): Fallible<(u32, seq<byte>)> {
    var (bytes, rest) :- Take(input, 4);
    Ok((U32Of(bytes), rest))
  }

  function GetString(input: seq<byte>, field: string, min: nat, max: nat): Fallible<(Text, seq<byte>)> {
    var (length, body) :- GetU16(input);
    if !(min <= length <= max) then Err(InvalidFieldLength(field, length, min, max))
    else
      var (bytes, rest) :- Take(body, length);
      if !Valid(bytes) then Err(InvalidUtf8(field))
      else if 0 in bytes then Err(InteriorNul(field))
      else Ok((bytes, rest))
  }

  function DecodeHeader(packet: seq<byte>): Fallible<(u16, seq<byte>)> {
    if |packet| > MAX_PACKET_SIZE then Err(PacketTooLarge(|packet|))
    else if |packet| < HEADER_LENGTH then Err(TruncatedHeader)
    else if packet[..4] != MAGIC then Err(InvalidMagic)
    else if U16Of(packet[4..6]) != PROTOCOL_VERSION then Err(UnsupportedVersion(U16Of(packet[4..6])))
    else if U32Of(packet[8..12]) != |packet| - HEADER_LENGTH then Err(LengthMismatch)
    else Ok((U16Of(packet[6..8]), packet[HEADER_LENGTH..]))
  }

  function Finish<T>(value: T, input: seq<byte>): Fallible<T> {
    if input == [] then Ok(value) else Err(TrailingData)
  }

  // ---- The four message types ----

  function CodeNumber(code: ErrorCode): u16 {
    match code
    case InvalidRequest => 1
    case PermissionDenied => 2
    case SessionNotFound => 3
    case SessionIneligible => 4
    case Login1Unavailable => 5
    case StartupFailed => 6
    case TimedOut => 7
    case Internal => 8
    case CodeUnsupportedVersion => 9
  }

  function CodeFromWire(value: u16): Fallible<ErrorCode> {
    match value
    case 1 => Ok(InvalidRequest)
    case 2 => Ok(PermissionDenied)
    case 3 => Ok(SessionNotFound)
    case 4 => Ok(SessionIneligible)
    case 5 => Ok(Login1Unavailable)
    case 6 => Ok(StartupFailed)
    case 7 => Ok(TimedOut)
    case 8 => Ok(Internal)
    case 9 => Ok(CodeUnsupportedVersion)
    case _ => Err(InvalidEnum("error code", value))
  }

  function StatusKind(status: ProcessStatus): u16 {
    match status
    case Exited(_) => 1
    case Signaled(_) => 2
    case Other(_) => 3
  }

  function StatusValue(status: ProcessStatus): u32 {
    match status
    case Exited(value) => value
    case Signaled(value) => value
    case Other(value) => value
  }

  function StatusFromWire(kind: u16, value: u32): Fallible<ProcessStatus> {
    match kind
    case 1 => Ok(Exited(value))
    case 2 => Ok(Signaled(value))
    case 3 => Ok(Other(value))
    case _ => Err(InvalidEnum("process status", kind))
  }

  /** A session identifier followed by a path: the fields of a request and of an opened lease. */
  function PutLocation(sessionId: Text, runtimeDir: Text): Fallible<seq<byte>> {
    var first :- PutString("session ID", sessionId, 1, MAX_SESSION_ID);
    var second :- PutString("runtime directory", runtimeDir, 1, MAX_PATH);
    Ok(first + second)
  }

  function GetLocation(input: seq<byte>): Fallible<((Text, Text), seq<byte>)> {
    var (sessionId, middle) :- GetString(input, "session ID", 1, MAX_SESSION_ID);
    var (runtimeDir, rest) :- GetString(middle, "runtime directory", 1, MAX_PATH);
    Ok(((sessionId, runtimeDir), rest))
  }

  function PutError(code: ErrorCode, message: Text): Fallible<seq<byte>> {
    var text :- PutString("error message", message, 1, MAX_MESSAGE);
    Ok(U16Bytes(CodeNumber(code)) + text)
  }

  function GetError(input: seq<byte>): Fallible<((ErrorCode, Text), seq<byte>)> {
    var (number, middle) :- GetU16(input);
    var code :- CodeFromWire(number);
    var (message, rest) :- GetString(middle, "error message", 1, MAX_MESSAGE);
    Ok(((code, message), rest))
  }

  function PutStatus(status: ProcessStatus): seq<byte> {
    U16Bytes(StatusKind(status)) + U32Bytes(StatusValue(status))
  }

  function GetStatus(input: seq<byte>): Fallible<(ProcessStatus, seq<byte>)> {
    var (kind, middle) :- GetU16(input);
    var (value, rest) :- GetU32(middle);
    var status :- StatusFromWire(kind, value);
    Ok((status, rest))
  }

  // Each type gives a message its kind and fields, and reads a body of a known kind.

  function RequestFields(m: PamRequest<Text>): Fallible<seq<byte>> {
    PutLocation(m.sessionId, m.runtimeDir)
  }

  function RequestBody(kind: u16, input: seq<byte>): Fallible<PamRequest<Text>> {
    if kind == PAM_ENSURE_READY then
      var (location, rest) :- GetLocation(input);
      Finish(EnsureManagerReady(location.0, location.1), rest)
    else Err(UnknownKind(kind))
  }

  function ReplyKind(m: PamReply<Text>): u16 {
    if m.ReplyReady? then PAM_READY else PAM_ERROR
  }

  function ReplyFields(m: PamReply<Text>): Fallible<seq<byte>> {
    match m
    case ReplyReady => Ok([])
    case ReplyError(code, message) => PutError(code, message)
  }

  function ReplyBody(kind: u16, input: seq<byte>): Fallible<PamReply<Text>> {
    if kind == PAM_READY then Finish(ReplyReady, input)
    else if kind == PAM_ERROR then
      var (error, rest) :- GetError(input);
      Finish(ReplyError(error.0, error.1), rest)
    else Err(UnknownKind(kind))
  }

  function CommandKind(m: DaemonToHelper<Text>): u16 {
    match m
    case LeaseAccepted => HELPER_LEASE_ACCEPTED
    case LeaseRejected(_) => HELPER_LEASE_REJECTED
    case StartManager(_) => HELPER_START
    case StopManager => HELPER_STOP
    case Shutdown => HELPER_SHUTDOWN
  }

  function CommandFields(m: DaemonToHelper<Text>): Fallible<seq<byte>> {
    match m
    case LeaseRejected(reason) => PutString("lease rejection reason", reason, 1, MAX_MESSAGE)
    case StartManager(attempt) => Ok(U32Bytes(attempt))
    case _ => Ok([])
  }

  function CommandBody(kind: u16, input: seq<byte>): Fallible<DaemonToHelper<Text>> {
    if kind == HELPER_LEASE_ACCEPTED then Finish(LeaseAccepted, input)
    else if kind == HELPER_LEASE_REJECTED then
      var (reason, rest) :- GetString(input, "lease rejection reason", 1, MAX_MESSAGE);
      Finish(LeaseRejected(reason), rest)
    else if kind == HELPER_START then
      var (attempt, rest) :- GetU32(input);
      Finish(StartManager(attempt), rest)
    else if kind == HELPER_STOP then Finish(StopManager, input)
    else if kind == HELPER_SHUTDOWN then Finish(Shutdown, input)
    else Err(UnknownKind(kind))
  }

  function ReportKind(m: HelperToDaemon<Text>): u16 {
    match m
    case LeaseOpened(_, _) => HELPER_LEASE_OPENED
    case ManagerSpawned(_) => HELPER_MANAGER_SPAWNED
    case ReadinessPayload(_) => HELPER_READINESS_PAYLOAD
    case ReadySucceeded => HELPER_READY_SUCCEEDED
    case StartFailed(_) => HELPER_START_FAILED
    case ManagerExited(_) => HELPER_MANAGER_EXITED
    case ShutdownComplete => HELPER_SHUTDOWN_COMPLETE
    case Fatal(_) => HELPER_FATAL
  }

  function ReportFields(m: HelperToDaemon<Text>): Fallible<seq<byte>> {
    match m
    case LeaseOpened(sessionId, runtimeDir) => PutLocation(sessionId, runtimeDir)
    case ManagerSpawned(pid) => Ok(U32Bytes(pid))
    case ReadinessPayload(payload) => PutString("readiness payload", payload, 1, MAX_READY_PAYLOAD)
    case StartFailed(message) => PutString("startup failure", message, 1, MAX_MESSAGE)
    case ManagerExited(status) => Ok(PutStatus(status))
    case Fatal(message) => PutString("fatal error", message, 1, MAX_MESSAGE)
    case _ => Ok([])
  }

  function ReportBody(kind: u16, input: seq<byte>): Fallible<HelperToDaemon<Text>> {
    if kind == HELPER_LEASE_OPENED then
      var (location, rest) :- GetLocation(input);
      Finish(LeaseOpened(location.0, location.1), rest)
    else if kind == HELPER_MANAGER_SPAWNED then
      var (pid, rest) :- GetU32(input);
      Finish(ManagerSpawned(pid), rest)
    else if kind == HELPER_READINESS_PAYLOAD then
      var (payload, rest) :- GetString(input, "readiness payload", 1, MAX_READY_PAYLOAD);
      Finish(ReadinessPayload(payload), rest)
    else if kind == HELPER_READY_SUCCEEDED then Finish(ReadySucceeded, input)
    else if kind == HELPER_START_FAILED then
      var (message, rest) :- GetString(input, "startup failure", 1, MAX_MESSAGE);
      Finish(StartFailed(message), rest)
    else if kind == HELPER_MANAGER_EXITED then
      var (status, rest) :- GetStatus(input);
      Finish(ManagerExited(status), rest)
    else if kind == HELPER_SHUTDOWN_COMPLETE then Finish(ShutdownComplete, input)
    else if kind == HELPER_FATAL then
      var (message, rest) :- GetString(input, "fatal error", 1, MAX_MESSAGE);
      Finish(Fatal(message), rest)
    else Err(UnknownKind(kind))
  }
}
