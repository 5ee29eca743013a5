/**
  The messages exchanged by PAM clients, the daemon and its helpers, over any type of text.

  The state machines only compare and pass on texts, and take them as strings; the codec takes
  them as UTF-8 bytes.
 */
module Messages {
  import opened Prelude

  datatype PamRequest<S> = EnsureManagerReady(sessionId: S, runtimeDir: S)

  datatype ErrorCode =
    | InvalidRequest
    | PermissionDenied
    | SessionNotFound
    | SessionIneligible
    | Login1Unavailable
    | StartupFailed
    | TimedOut
    | Internal
    | CodeUnsupportedVersion

  datatype PamReply<S> = ReplyReady | ReplyError(code: ErrorCode, message: S)

  datatype DaemonToHelper<S> =
    | LeaseAccepted
    | LeaseRejected(reason: S)
    | StartManager(attempt: u32)
    | StopManager
    | Shutdown

  datatype ProcessStatus = Exited(code: u32) | Signaled(signal: u32) | Other(raw: u32)

  datatype HelperToDaemon<S> =
    | LeaseOpened(sessionId: S, runtimeDir: S)
    | ManagerSpawned(pid: u32)
    | ReadinessPayload(payload: S)
    | ReadySucceeded
    | StartFailed(message: S)
    | ManagerExited(status: ProcessStatus)
    | ShutdownComplete
    | Fatal(message: S)

  type Command = DaemonToHelper<string>
  type Report = HelperToDaemon<string>
  type Answer = PamReply<string>
}
