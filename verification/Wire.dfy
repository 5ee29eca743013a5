/**
  The encoder and decoder as the program runs them: a buffer that grows and an input that is
  consumed. Every method computes what the functions of `Protocol` and `Codec` say.
 */
module Wire {
  import opened Prelude
  import opened Utf8
  import opened Messages
  import opened Protocol
  import Codec

  class Encoder {
    var bytes: seq<byte>

    constructor ()
      ensures bytes == []
    {
      bytes := [];
    }

    method Short(value: u16)
      modifies this
      ensures bytes == old(bytes) + U16Bytes(value)
    {
      bytes := bytes + [value / 0x100, value % 0x100];
    }

    method Number(value: u32)
      modifies this
      ensures bytes == old(bytes) + U32Bytes(value)
    {
      bytes := bytes + [value / 0x100_0000, (value / 0x1_0000) % 0x100, (value / 0x100) % 0x100, value % 0x100];
    }

    /** Either appends the whole field or reports its fault and appends nothing. */
    method String(field: string, value: Text, min: nat, max: nat) returns (r: Fallible<()>)
      modifies this
      ensures match PutString(field, value, min, max)
              case Ok(put) => r == Ok(()) && bytes == old(bytes) + put
              case Err(error) => r == Err(error) && bytes == old(bytes)
    {
      if !(min <= |value| <= max) {
        return Err(InvalidFieldLength(field, |value|, min, max));
      }
      if 0 in value {
        return Err(InteriorNul(field));
      }
      Short(|value| % 0x1_0000);
      bytes := bytes + value;
      r := Ok(());
    }

    method Location(sessionId: Text, runtimeDir: Text) returns (r: Fallible<()>)
      modifies this
      ensures match PutLocation(sessionId, runtimeDir)
              case Ok(put) => r == Ok(()) && bytes == old(bytes) + put
              case Err(error) => r == Err(error)
    {
      var _ :- String("session ID", sessionId, 1, MAX_SESSION_ID);
      r := String("runtime directory", runtimeDir, 1, MAX_PATH);
    }

    method Status(status: ProcessStatus)
      modifies this
      ensures bytes == old(bytes) + PutStatus(status)
    {
      match status
      case Exited(value) => Short(1); Number(value);
      case Signaled(value) => Short(2); Number(value);
      case Other(value) => Short(3); Number(value);
    }

    /** The packet with the collected fields. */
    method Seal(kind: u16) returns (r: Fallible<seq<byte>>)
      ensures r == EncodeMessage(kind, Ok(bytes))
    {
      var total := HEADER_LENGTH + |bytes|;
      if total > MAX_PACKET_SIZE {
        return Err(PacketTooLarge(total));
      }
      var packet := new Encoder();
      packet.bytes := MAGIC;
      packet.Short(PROTOCOL_VERSION);
      packet.Short(kind);
      packet.Number(|bytes| % 0x1_0000_0000);
      r := Ok(packet.bytes + bytes);
    }
  }

  class Decoder {
    var input: seq<byte>

    constructor (input: seq<byte>)
      ensures this.input == input
    {
      this.input := input;
    }

    method Bytes(count: nat) returns (r: Fallible<seq<byte>>)
      modifies this
      ensures match Take(old(input), count)
              case Ok(taken) => r == Ok(taken.0) && input == taken.1
              case Err(error) => r == Err(error) && input == old(input)
    {
      if count > |input| {
        return Err(LengthMismatch);
      }
      r := Ok(input[..count]);
      input := input[count..];
    }

    method Short() returns (r: Fallible<u16>)
      modifies this
      ensures match GetU16(old(input))
              case Ok(got) => r == Ok(got.0) && input == got.1
              case Err(error) => r == Err(error)
    {
      var bytes :- Bytes(2);
      r := Ok((bytes[0] as int) * 0x100 + bytes[1]);
    }

    method Number() returns (r: Fallible<u32>)
      modifies this
      ensures match GetU32(old(input))
              case Ok(got) => r == Ok(got.0) && input == got.1
              case Err(error) => r == Err(error)
    {
      var bytes :- Bytes(4);
      r := Ok(U32Of(bytes));
    }

    method String(field: string, min: nat, max: nat) returns (r: Fallible<Text>)
      modifies this
      ensures match GetString(old(input), field, min, max)
              case Ok(got) => r == Ok(got.0) && input == got.1
              case Err(error) => r == Err(error)
    {
      var length :- Short();
      if !(min <= length <= max) {
        return Err(InvalidFieldLength(field, length, min, max));
      }
      var bytes :- Bytes(length);
      if !Valid(bytes) {
        return Err(InvalidUtf8(field));
      }
      if 0 in bytes {
        return Err(InteriorNul(field));
      }
      r := Ok(bytes);
    }

    method Status() returns (r: Fallible<ProcessStatus>)
      modifies this
      ensures match GetStatus(old(input))
              case Ok(got) => r == Ok(got.0) && input == got.1
              case Err(error) => r == Err(error)
    {
      var kind :- Short();
      var value :- Number();
      match kind
      case 1 => r := Ok(Exited(value));
      case 2 => r := Ok(Signaled(value));
      case 3 => r := Ok(Other(value));
      case _ => r := Err(InvalidEnum("process status", kind));
    }

    method Finish() returns (r: Fallible<()>)
      ensures r == Protocol.Finish((), input)
    {
      r := if input == [] then Ok(()) else Err(TrailingData);
    }
  }

  /** Checks the header; on success the decoder is left at the first field. */
  method OpenPacket(packet: seq<byte>) returns (r: Fallible<u16>, decoder: Decoder)
    ensures fresh(decoder)
    ensures match DecodeHeader(packet)
            case Ok(opening) => r == Ok(opening.0) && decoder.input == opening.1
            case Err(error) => r == Err(error)
  {
    decoder := new Decoder(if |packet| < HEADER_LENGTH then [] else packet[HEADER_LENGTH..]);
    if |packet| > MAX_PACKET_SIZE {
      r := Err(PacketTooLarge(|packet|));
    } else if |packet| < HEADER_LENGTH {
      r := Err(TruncatedHeader);
    } else if packet[..4] != MAGIC {
      r := Err(InvalidMagic);
    } else if U16Of(packet[4..6]) != PROTOCOL_VERSION {
      r := Err(UnsupportedVersion(U16Of(packet[4..6])));
    } else if U32Of(packet[8..12]) != |packet| - HEADER_LENGTH {
      r := Err(LengthMismatch);
    } else {
      r := Ok(U16Of(packet[6..8]));
    }
  }

  lemma AppendedToNothing()
    ensures forall s: seq<byte> :: [] + s == s
  {
  }

  // ---- Requests and replies ----

  method EncodeRequest(m: PamRequest<Text>) returns (r: Fallible<seq<byte>>)
    ensures r == Codec.Encode(Codec.Request(m))
  {
    AppendedToNothing();
    var out := new Encoder();
    var _ :- out.Location(m.sessionId, m.runtimeDir);
    r := out.Seal(PAM_ENSURE_READY);
  }

  method DecodeRequest(packet: seq<byte>) returns (r: Fallible<PamRequest<Text>>)
    ensures r.MapOk(m => Codec.Request(m)) == Codec.Decode(Codec.Requests, packet)
  {
    var opening, input := OpenPacket(packet);
    var kind :- opening;
    if kind != PAM_ENSURE_READY {
      return Err(UnknownKind(kind));
    }
    var sessionId :- input.String("session ID", 1, MAX_SESSION_ID);
    var runtimeDir :- input.String("runtime directory", 1, MAX_PATH);
    var _ :- input.Finish();
    r := Ok(EnsureManagerReady(sessionId, runtimeDir));
  }

  method EncodeReply(m: PamReply<Text>) returns (r: Fallible<seq<byte>>)
    ensures r == Codec.Encode(Codec.Reply(m))
  {
    AppendedToNothing();
    var out := new Encoder();
    match m
    case ReplyReady => r := out.Seal(PAM_READY);
    case ReplyError(code, message) =>
      out.Short(CodeNumber(code));
      var _ :- out.String("error message", message, 1, MAX_MESSAGE);
      r := out.Seal(PAM_ERROR);
  }

  method DecodeReply(packet: seq<byte>) returns (r: Fallible<PamReply<Text>>)
    ensures r.MapOk(m => Codec.Reply(m)) == Codec.Decode(Codec.Replies, packet)
  {
    var opening, input := OpenPacket(packet);
    var kind :- opening;
    var reply: PamReply<Text> := ReplyReady;
    if kind == PAM_ERROR {
      var number :- input.Short();
      var code :- CodeFromWire(number);
      var message :- input.String("error message", 1, MAX_MESSAGE);
      reply := ReplyError(code, message);
    } else if kind != PAM_READY {
      return Err(UnknownKind(kind));
    }
    var _ :- input.Finish();
    r := Ok(reply);
  }

  // ---- Commands and reports ----

  method EncodeCommand(m: DaemonToHelper<Text>) returns (r: Fallible<seq<byte>>)
    ensures r == Codec.Encode(Codec.Command(m))
  {
    AppendedToNothing();
    var out := new Encoder();
    match m
    case LeaseAccepted => r := out.Seal(HELPER_LEASE_ACCEPTED);
    case LeaseRejected(reason) =>
      var _ :- out.String("lease rejection reason", reason, 1, MAX_MESSAGE);
      r := out.Seal(HELPER_LEASE_REJECTED);
    case StartManager(attempt) =>
      out.Number(attempt);
      r := out.Seal(HELPER_START);
    case StopManager => r := out.Seal(HELPER_STOP);
    case Shutdown => r := out.Seal(HELPER_SHUTDOWN);
  }

  method DecodeCommand(packet: seq<byte>) returns (r: Fallible<DaemonToHelper<Text>>)
    ensures r.MapOk(m => Codec.Command(m)) == Codec.Decode(Codec.Commands, packet)
  {
    var opening, input := OpenPacket(packet);
    var kind :- opening;
    var command: DaemonToHelper<Text> := Shutdown;
    if kind == HELPER_LEASE_ACCEPTED {
      command := LeaseAccepted;
    } else if kind == HELPER_LEASE_REJECTED {
      var reason :- input.String("lease rejection reason", 1, MAX_MESSAGE);
      command := LeaseRejected(reason);
    } else if kind == HELPER_START {
      var attempt :- input.Number();
      command := StartManager(attempt);
    } else if kind == HELPER_STOP {
      command := StopManager;
    } else if kind != HELPER_SHUTDOWN {
      return Err(UnknownKind(kind));
    }
    var _ :- input.Finish();
    r := Ok(command);
  }

  method EncodeReport(m: HelperToDaemon<Text>) returns (r: Fallible<seq<byte>>)
    ensures r == Codec.Encode(Codec.Report(m))
  {
    AppendedToNothing();
    var out := new Encoder();
    match m
    case LeaseOpened(sessionId, runtimeDir) =>
      var _ :- out.Location(sessionId, runtimeDir);
      r := out.Seal(HELPER_LEASE_OPENED);
    case ManagerSpawned(pid) =>
      out.Number(pid);
      r := out.Seal(HELPER_MANAGER_SPAWNED);
    case ReadinessPayload(payload) =>
      var _ :- out.String("readiness payload", payload, 1, MAX_READY_PAYLOAD);
      r := out.Seal(HELPER_READINESS_PAYLOAD);
    case ReadySucceeded => r := out.Seal(HELPER_READY_SUCCEEDED);
    case StartFailed(message) =>
      var _ :- out.String("startup failure", message, 1, MAX_MESSAGE);
      r := out.Seal(HELPER_START_FAILED);
    case ManagerExited(status) =>
      out.Status(status);
      r := out.Seal(HELPER_MANAGER_EXITED);
    case ShutdownComplete => r := out.Seal(HELPER_SHUTDOWN_COMPLETE);
    case Fatal(message) =>
      var _ :- out.String("fatal error", message, 1, MAX_MESSAGE);
      r := out.Seal(HELPER_FATAL);
  }

  method DecodeReport(packet: seq<byte>) returns (r: Fallible<HelperToDaemon<Text>>)
    ensures r.MapOk(m => Codec.Report(m)) == Codec.Decode(Codec.Reports, packet)
  {
    var opening, input := OpenPacket(packet);
    var kind :- opening;
    var report :- ReadReport(kind, input);
    var _ :- input.Finish();
    r := Ok(report);
  }

  /** The fields of a report of a known kind, before the check that nothing follows. */
  method ReadReport(kind: u16, input: Decoder) returns (r: Fallible<HelperToDaemon<Text>>)
    modifies input
    ensures match r
            case Ok(report) => ReportBody(kind, old(input.input)) == Protocol.Finish(report, input.input)
            case Err(error) => ReportBody(kind, old(input.input)) == Err(error)
  {
    if kind == HELPER_LEASE_OPENED {
      var sessionId :- input.String("session ID", 1, MAX_SESSION_ID);
      var runtimeDir :- input.String("runtime directory", 1, MAX_PATH);
      r := Ok(LeaseOpened(sessionId, runtimeDir));
    } else if kind == HELPER_MANAGER_SPAWNED {
      var pid :- input.Number();
      r := Ok(ManagerSpawned(pid));
    } else if kind == HELPER_READINESS_PAYLOAD {
      var payload :- input.String("readiness payload", 1, MAX_READY_PAYLOAD);
      r := Ok(ReadinessPayload(payload));
    } else if kind == HELPER_READY_SUCCEEDED {
      r := Ok(ReadySucceeded);
    } else if kind == HELPER_START_FAILED {
      var message :- input.String("startup failure", 1, MAX_MESSAGE);
      r := Ok(StartFailed(message));
    } else if kind == HELPER_MANAGER_EXITED {
      var status :- input.Status();
      r := Ok(ManagerExited(status));
    } else if kind == HELPER_SHUTDOWN_COMPLETE {
      r := Ok(ShutdownComplete);
    } else if kind == HELPER_FATAL {
      var message :- input.String("fatal error", 1, MAX_MESSAGE);
      r := Ok(Fatal(message));
    } else {
      r := Err(UnknownKind(kind));
    }
  }
}
