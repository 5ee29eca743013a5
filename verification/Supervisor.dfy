/**
  The helper program: it opens the lease, takes commands, runs one manager at a time, and closes
  everything on every path out, in the order in which its variables are dropped.

  Whatever the program does to the outside goes through `World.Emit`, so verifying it shows that
  it only ever does what the automaton of `Helpers` allows, for every answer of the outside.
 */
module Supervisors {
  import opened Prelude
  import opened Utf8
  import opened Messages
  import opened Helpers
  import opened Processes
  import Readiness
  import Reports
  import Codec
  import opened Protocol

  datatype Timeouts = Timeouts(readiness: nat, gracefulStop: nat, forcedStop: nat)

  datatype RunningEvent = ManagerGone(status: ProcessStatus) | StopAsked | ShutdownAsked

  datatype ControlEvent = Taken(command: Command) | Hangup

  /** What nothing inside the event loop changes or takes back. */
  predicate Kept(before: Helper, now: Helper) {
    && now.lease == before.lease && now.lock == before.lock
    && now.voice.Finished? == before.voice.Finished? && now.course.Gone? == before.course.Gone?
    && (before.Closing() ==> now.Closing()) && (before.voice.Muted? ==> now.voice.Muted?)
    && (!before.waits.NoneFailed? ==> !now.waits.NoneFailed?)
  }

  /** All that a report of the manager's exit may change. */
  predicate Reported(before: Helper, now: Helper) {
    && Kept(before, now) && now.Closing() == before.Closing()
    && now.waits.StopFailed? == before.waits.StopFailed?
  }

  /** A start attempt that is over without a manager; its failure can be reported. */
  predicate FailedStart(h: Helper) {
    && !h.manager
    && (h.phase.Launching? || h.phase.Failing? || ((h.phase.Spawned? || h.phase.Payload?) && h.waits.StopFailed?))
  }

  /** No manager, and no start attempt that still has to be reported. */
  predicate Settled(h: Helper) {
    !h.manager && (h.phase.Idle? || FailedStart(h))
  }

  lemma ObeyedWhileRunning(h: Helper, c: Command)
    requires h.phase.Running? && !h.Closing()
    ensures After(h, Obey(c)) == if c.StopManager? then h else h.(course := Course.Leaving)
  {
  }

  lemma ObeyedWhileIdle(h: Helper, c: Command)
    requires h.phase.Idle? && !h.Closing()
    ensures After(h, Obey(c)) ==
            if c.StartManager? then h.(phase := Launching, serial := h.serial + 1)
            else if c.StopManager? then h else h.(course := Course.Leaving)
  {
  }

  lemma ObeyedWhileWaiting(h: Helper, c: Command)
    requires h.phase.AwaitAccept? && !h.Closing()
    ensures After(h, Obey(c)) ==
            if c.LeaseAccepted? then h.(phase := Idle) else h.(course := Course.Leaving)
  {
  }

  lemma FitsAreShort(text: seq<byte>, cut: seq<byte>)
    requires 0 !in text && Reports.LongestFit(text, MAX_MESSAGE, cut)
    ensures |cut| <= MAX_MESSAGE && 0 !in cut
  {
    assert cut == text[..|cut|];
  }

  /** An error text as it is sent: sanitized and cut on its UTF-8 bytes. */
  method Bounded(message: string) returns (bounded: string)
    ensures Short(bounded)
    ensures Reports.LongestFit(Reports.Sanitized(EncodeChars(message)), MAX_MESSAGE, EncodeChars(bounded))
    ensures forall t :: Reports.LongestFit(Reports.Sanitized(EncodeChars(message)), MAX_MESSAGE, t) ==> t == EncodeChars(bounded)
  {
    CharsSurviveEncoding(message);
    var cut := Reports.BoundedMessage(EncodeChars(message));
    BytesSurviveDecoding(cut);
    bounded := DecodeChars(cut);
    FitsAreShort(Reports.Sanitized(EncodeChars(message)), cut);
    forall t | Reports.LongestFit(Reports.Sanitized(EncodeChars(message)), MAX_MESSAGE, t)
      ensures t == cut
    {
      Reports.LongestFitIsUnique(Reports.Sanitized(EncodeChars(message)), MAX_MESSAGE, t, cut);
    }
  }

  class Supervisor {
    const world: World
    const timeouts: Timeouts
    var manager: Child?
    var shutdownRequested: bool

    /** The manager the program holds is the one the outside sees. */
    ghost predicate Held()
      reads this, world, manager
    {
      && world.Valid() && !world.run.now.course.Gone?
      && (manager == null ==> !world.run.now.manager)
      && (manager != null ==> Owns(manager) && world.run.now.manager && !world.run.now.waits.StopFailed?)
    }

    ghost predicate Owns(child: Child)
      reads world, child
    {
      child.world == world && child.call.RunManager? && !child.reaped && child.pid == world.facts.pid
    }

    ghost predicate Synced()
      reads this, world, manager
    {
      Held() && !world.run.now.voice.Finished?
    }

    constructor (world: World, timeouts: Timeouts)
      requires world.Valid() && !world.run.now.course.Gone? && !world.run.now.manager && !world.run.now.voice.Finished?
      ensures Synced() && manager == null && !shutdownRequested && this.world == world
    {
      this.world, this.timeouts, manager, shutdownRequested := world, timeouts, null, false;
    }

    /** Reaps the manager if it has exited. */
    method TryReapManager() returns (r: Outcome<Option<ProcessStatus>>)
      requires Synced()
      modifies this`manager, manager, world`run, world`facts, world`incidents, world`watch
      ensures Synced()
      ensures match r
              case Ok(Some(status)) =>
                && manager == null && world.run.now == old(world.run.now).(manager := false)
                && world.facts.exit == Some(status) && world.incidents > old(world.incidents)
              case Ok(None) =>
                && manager == old(manager) && world.run == old(world.run)
                && world.facts == old(world.facts) && world.incidents == old(world.incidents)
              case Err(_) =>
                && manager == old(manager) && world.run.now == Disturbed(old(world.run.now))
                && world.facts == old(world.facts) && world.incidents > old(world.incidents)
      ensures old(manager) != null ==> world.watch == old(world.watch).(manager := Some(world.now))
    {
      if manager == null {
        return Ok(None);
      }
      var status :- manager.TryWait();
      if status.Some? {
        manager := null;
      }
      r := Ok(status);
    }

    /** The manager is gone, and its exit was reported unless that or the stopping itself failed. */
    ghost predicate ManagerStopped(r: Outcome<()>, was: Child?, h: Helper)
      reads this, world, manager
    {
      match r
      case Ok(_) =>
        && Synced() && manager == null
        && if was == null then world.run.now == h
           else Reported(h, world.run.now) && world.run.now.phase == (if h.phase.Running? then Idle else Failing)
      case Err(_) =>
        && Synced() && manager == null && Reported(h, world.run.now.(waits := h.waits)) && was != null
        && (world.run.now.voice.Muted? || (world.run.now.waits.StopFailed? && world.run.now.phase == h.phase))
        && (!h.waits.NoneFailed? ==> !world.run.now.waits.NoneFailed?)
    }

    /**
      Stops the manager, if there is one, and reports how it exited; on an error the manager is
      dropped, which kills it.
     */
    method StopManager() returns (r: Outcome<()>)
      requires Synced() && (manager != null ==> HasStarted(world.run.now.phase))
      modifies this`manager, manager, world`now, world`run, world`broken, world`facts, world`incidents, world`watch, world`calls
      ensures ManagerStopped(r, old(manager), old(world.run.now)) && world.now >= old(world.now)
      ensures world.incidents >= old(world.incidents) + if r.Err? then 1 else 0
      ensures old(world.calls) <= world.calls
    {
      if manager == null {
        return Ok(());
      }
      var child := manager;
      manager := null;
      var status := StopChild(child);
      if status.Err? {
        Abandoning(child);
        return Err(status.error);
      }
      r := ReportExit(status.value);
    }

    /** The manager could not be stopped: it is dropped, and nothing is reported of it. */
    method Abandoning(child: Child)
      requires child.Valid() && child.world == world && child.call.RunManager? && !child.reaped
      requires !world.run.now.waits.NoneFailed? && HasStarted(world.run.now.phase)
      modifies child`reaped, child`signals, world`run, world`facts, world`incidents, world`watch
      ensures world.Valid() && world.run.now == old(world.run.now).(manager := false, waits := Waits.StopFailed)
      ensures world.incidents >= old(world.incidents)
    {
      if world.run.now.waits.SomeFailed? {
        world.Emit(StopFails);
      }
      child.Drop();
    }

    /** Reports how the manager that was just given up has exited. */
    method ReportExit(status: ProcessStatus) returns (r: Outcome<()>)
      requires world.Valid() && !world.run.now.course.Gone? && !world.run.now.manager && !world.run.now.waits.StopFailed?
      requires HasStarted(world.run.now.phase) && !world.run.now.voice.Finished? && world.facts.exit == Some(status)
      modifies world`broken, world`run, world`incidents
      ensures world.Valid() && (r.Err? ==> world.run.now == old(world.run.now).(voice := Muted))
      ensures r.Ok? ==> world.run.now == old(world.run.now).(phase := if old(world.run.now).phase.Running? then Idle else Failing)
      ensures world.incidents == old(world.incidents) + if r.Err? then 1 else 0
    {
      var sent := world.Send(ManagerExited(status));
      r := if sent then Ok(()) else Err("send helper event");
    }

    /** What stopping leaves of the manager: it is reaped, and its exit is known, unless a wait failed. */
    ghost predicate Stopped(child: Child, r: Outcome<ProcessStatus>, h: Helper, n: nat)
      reads world, child, child.world
    {
      && child.Valid() && child.reaped == r.Ok? && OnlyWaited(h.(manager := r.Err?), world.run.now)
      && (if r.Ok? then world.facts.exit == Some(r.value) else !world.run.now.waits.NoneFailed?)
      && world.incidents >= n + if r.Err? then 1 else 0
    }

    /**
      The stop hook, then waiting, then signals of growing force. Every wait that is given up is
      followed by a signal; only a manager that has exited already is spared the hook.
     */
    method StopChild(child: Child) returns (r: Outcome<ProcessStatus>)
      requires Owns(child) && child.Valid()
      modifies child`reaped, child`signals, child`overdue
      modifies world`now, world`run, world`facts, world`incidents, world`watch, world`calls
      ensures Stopped(child, r, old(world.run.now), old(world.incidents)) && world.now >= old(world.now)
      ensures old(child.signals) <= child.signals && old(child.overdue) <= child.overdue
      ensures |child.signals| - |old(child.signals)| == |child.overdue| - |old(child.overdue)|
      ensures Escalates(child.signals[|old(child.signals)|..], old(world.now), timeouts.gracefulStop, timeouts.forcedStop)
      ensures child.overdue[|old(child.overdue)|..] <= [timeouts.gracefulStop, timeouts.forcedStop]
      ensures || world.calls == old(world.calls) + [RunStop(child.pid)]
              || (world.calls == old(world.calls) && world.now == old(world.now) && child.signals == old(child.signals))
    {
      var early :- child.TryWait();
      if early.Some? {
        return Ok(early.value);
      }
      var _ :- RunStopHook(child.pid);
      r := ForceExit(child);
    }

    method ForceExit(child: Child) returns (r: Outcome<ProcessStatus>)
      requires Owns(child) && child.Valid()
      modifies child`reaped, child`signals, child`overdue, world`now, world`run, world`facts, world`incidents, world`watch
      ensures Stopped(child, r, old(world.run.now), old(world.incidents)) && world.now >= old(world.now)
      ensures old(child.signals) <= child.signals && old(child.overdue) <= child.overdue
      ensures |child.signals| - |old(child.signals)| == |child.overdue| - |old(child.overdue)|
      ensures Escalates(child.signals[|old(child.signals)|..], old(world.now), timeouts.gracefulStop, timeouts.forcedStop)
      ensures child.overdue[|old(child.overdue)|..] <= [timeouts.gracefulStop, timeouts.forcedStop]
    {
      var exited :- child.WaitTimeout(timeouts.gracefulStop);
      if exited.Some? {
        return Ok(exited.value);
      }
      r := Escalate(child);
    }

    method Escalate(child: Child) returns (r: Outcome<ProcessStatus>)
      requires Owns(child) && child.Valid()
      modifies child`reaped, child`signals, child`overdue, world`now, world`run, world`facts, world`incidents, world`watch
      ensures Stopped(child, r, old(world.run.now), old(world.incidents)) && world.now >= old(world.now)
      ensures old(child.signals) <= child.signals && old(child.overdue) <= child.overdue
      ensures |child.signals| - |old(child.signals)| == 1 + |child.overdue| - |old(child.overdue)|
      ensures Escalates(child.signals[|old(child.signals)|..], old(world.now), 0, timeouts.forcedStop)
      ensures child.overdue[|old(child.overdue)|..] <= [timeouts.forcedStop]
    {
      child.Send(Terminate);
      assert child.signals[|old(child.signals)|..] == [(Terminate, old(world.now))];
      var exited :- child.WaitTimeout(timeouts.forcedStop);
      if exited.Some? {
        return Ok(exited.value);
      }
      child.Send(Kill);
      assert child.signals[|old(child.signals)|..] == [(Terminate, old(world.now)), (Kill, world.now)];
      r := child.Wait();
    }

    /** The stop hook; a failed wait for it ends the stop, a failing or overdue hook does not. */
    method RunStopHook(pid: u32) returns (r: Outcome<()>)
      requires world.Valid() && !world.run.now.course.Gone? && pid == world.facts.pid
      modifies world`now, world`run, world`facts, world`incidents, world`watch, world`calls
      ensures world.Valid() && world.now >= old(world.now) && OnlyWaited(old(world.run.now), world.run.now)
      ensures r.Err? ==> !world.run.now.waits.NoneFailed?
      ensures world.facts == old(world.facts) && world.calls == old(world.calls) + [RunStop(pid)]
      ensures world.incidents >= old(world.incidents) + if r.Err? then 1 else 0
    {
      var spawns := world.Request(RunStop(pid));
      if !spawns {
        return Ok(());
      }
      var stop := new Child(world, RunStop(pid));
      r := AwaitHook(stop);
      stop.Drop();
    }

    method AwaitHook(stop: Child) returns (r: Outcome<()>)
      requires stop.Valid() && stop.call.RunStop? && stop.world == world && stop.signals == [] && stop.overdue == []
      modifies stop`reaped, stop`signals, stop`overdue, world`now, world`run, world`facts, world`incidents, world`watch
      ensures stop.Valid() && world.now >= old(world.now) && OnlyWaited(old(world.run.now), world.run.now)
      ensures world.facts == old(world.facts) && (r.Err? ==> !world.run.now.waits.NoneFailed?)
      ensures stop.overdue <= [timeouts.gracefulStop] && |stop.signals| == |stop.overdue|
      ensures world.incidents >= old(world.incidents) + if r.Err? then 1 else 0
    {
      var status :- stop.WaitTimeout(timeouts.gracefulStop);
      if status.None? {
        stop.Send(Kill);
        var killed := stop.Wait();
      }
      r := Ok(());
    }

    /** Reads the control socket during a start attempt; anything that arrives ends the attempt. */
    method CheckControl() returns (r: Outcome<()>)
      requires Synced() && Listening(world.run.now) && (world.run.now.phase.Spawned? || world.run.now.phase.Payload?)
      requires !shutdownRequested
      modifies this`shutdownRequested, world`run, world`facts, world`incidents
      ensures Synced() && manager == old(manager) && world.facts == old(world.facts)
      ensures world.run.now == if shutdownRequested then old(world.run.now).(course := Course.Leaving) else old(world.run.now)
      ensures r.Ok? ==> !shutdownRequested && world.patience > 0 && world.run == old(world.run)
      ensures world.incidents >= old(world.incidents) + if r.Err? then 1 else 0
    {
      r, shutdownRequested := world.Interrupted();
    }

    /**
      Within a start attempt that was reported up to `phase`: the manager lives, or its end was
      reported, if that was possible.
     */
    ghost predicate Attempting(phase: Phase)
      reads this, world, manager
    {
      && Synced() && (shutdownRequested <==> world.run.now.Closing())
      && if manager == null then world.run.now.voice.Muted? || world.run.now.phase.Failing? else world.run.now.phase == phase
    }

    /** Descriptors are polled only before the deadline, and failures before it have a cause. */
    ghost predicate InTime(failed: bool, deadline: nat, n: nat, polledAt: nat)
      reads world
    {
      && world.incidents >= n && (failed ==> world.incidents > n || world.now >= deadline)
      && (world.polledAt == polledAt || world.polledAt < deadline)
    }

    /** The part common to both waits: a manager that has exited is reported and ends the attempt. */
    method CheckManager() returns (r: Outcome<()>)
      requires manager != null && Attempting(world.run.now.phase) && !shutdownRequested
      requires world.run.now.phase.Spawned? || world.run.now.phase.Payload?
      modifies this`manager, manager, world`run, world`broken, world`facts, world`incidents, world`watch
      ensures Attempting(old(world.run.now.phase)) && Kept(old(world.run.now), world.run.now)
      ensures manager != null ==> manager == old(manager)
      ensures r.Ok? ==> manager != null && world.run == old(world.run) && world.facts == old(world.facts)
      ensures world.watch == old(world.watch).(manager := Some(world.now))
      ensures world.incidents >= old(world.incidents) + if r.Err? then 1 else 0
    {
      var status :- TryReapManager();
      if status.Some? {
        var _ :- ReportExit(status.value);
        return Err("manager exited before it was ready");
      }
      r := Ok(());
    }

    /**
      Reads the readiness payload from the FIFO until the deadline, and fails for a cause only. The
      payload can always be reported, and the buffer never holds more than one chunk beyond the
      longest payload.
     */
    method ReadPayload(deadline: nat) returns (r: Outcome<Text>)
      requires manager != null && Attempting(Spawned) && !shutdownRequested && world.facts.stream == [] && !world.watch.unread
      modifies this`manager, this`shutdownRequested, manager, world`now, world`patience, world`broken, world`run
      modifies world`facts, world`incidents, world`watch, world`polledAt
      ensures world.patience <= old(world.patience) && world.now >= old(world.now)
      ensures Attempting(Spawned) && Kept(old(world.run.now), world.run.now) && (manager != null ==> manager == old(manager))
      ensures r.Ok? ==> manager != null && world.run == old(world.run) && HasPayload(r.value)
      ensures InTime(r.Err?, deadline, old(world.incidents), old(world.polledAt))
    {
      var frame := new Readiness.ReadinessFrame();
      while true
        invariant world.patience <= old(world.patience) && world.now >= old(world.now)
        invariant Attempting(Spawned) && manager == old(manager) && world.run == old(world.run)
        invariant Expecting(frame.Value(), world.facts.stream) && !world.watch.unread
        invariant InTime(false, deadline, old(world.incidents), old(world.polledAt))
        decreases world.patience
      {
        var payload :- ReadOnce(frame, deadline);
        if payload.Some? {
          return Ok(payload.value);
        }
      }
    }

    /** One round of waiting for the payload. */
    method ReadOnce(frame: Readiness.ReadinessFrame, deadline: nat) returns (r: Outcome<Option<Text>>)
      requires manager != null && Attempting(Spawned) && !shutdownRequested && Expecting(frame.Value(), world.facts.stream)
      requires !world.watch.unread
      modifies frame, this`manager, this`shutdownRequested, manager, world`now, world`patience, world`broken, world`run
      modifies world`facts, world`incidents, world`watch, world`polledAt
      ensures world.patience <= old(world.patience) && world.now >= old(world.now)
      ensures Attempting(Spawned) && Kept(old(world.run.now), world.run.now) && (manager != null ==> manager == old(manager))
      ensures r.Ok? ==> manager != null && world.run == old(world.run)
      ensures r == Ok(None) ==>
                Expecting(frame.Value(), world.facts.stream) && !world.watch.unread && world.patience < old(world.patience)
      ensures r.Ok? && r.value.Some? ==> HasPayload(r.value.value)
      ensures InTime(r.Err?, deadline, old(world.incidents), old(world.polledAt))
    {
      var _ :- CheckManager();
      if world.now >= deadline {
        return Err("backend readiness timed out");
      }
      var ready :- world.Poll();
      if ready {
        r := HeardWhileReading(frame);
      } else {
        r := Ok(None);
      }
    }

    /** The stream was this message, and it can be reported. */
    ghost predicate HasPayload(payload: Text)
      reads world
    {
      Received(world.facts.stream, DecodeChars(payload)) && Reports.Delivered(Codec.Report(ReadinessPayload(payload)))
    }

    method HeardWhileReading(frame: Readiness.ReadinessFrame) returns (r: Outcome<Option<Text>>)
      requires manager != null && Attempting(Spawned) && !shutdownRequested && Expecting(frame.Value(), world.facts.stream)
      modifies frame, this`shutdownRequested, world`run, world`facts, world`incidents, world`watch
      ensures Attempting(Spawned) && Kept(old(world.run.now), world.run.now)
      ensures r.Ok? ==> world.run == old(world.run)
      ensures r == Ok(None) ==> Expecting(frame.Value(), world.facts.stream) && !world.watch.unread && world.patience > 0
      ensures r.Ok? && r.value.Some? ==> HasPayload(r.value.value)
      ensures world.incidents >= old(world.incidents) + if r.Err? then 1 else 0
    {
      var _ :- CheckControl();
      r := ReadChunk(frame);
    }

    /** Reads a chunk, if there is one, and adds it to the frame. */
    method ReadChunk(frame: Readiness.ReadinessFrame) returns (r: Outcome<Option<Text>>)
      requires Expecting(frame.Value(), world.facts.stream)
      modifies frame, world`facts, world`incidents, world`watch
      ensures world.facts == old(world.facts).(stream := world.facts.stream) && !world.watch.unread
      ensures r == Ok(None) ==> Expecting(frame.Value(), world.facts.stream)
      ensures r.Ok? && r.value.Some? ==> HasPayload(r.value.value)
      ensures |frame.bytes| <= 4096 + 1024
      ensures world.incidents >= old(world.incidents) + if r.Err? then 1 else 0
    {
      ghost var before := world.facts.stream;
      var read :- world.ReadFifo(Readiness.CHUNK_SIZE);
      match read
      case Closed =>
        var ended := frame.Eof();
        assert ended.Err?;
        r := Err("readiness FIFO reached EOF before NUL");
      case Nothing => r := Ok(None);
      case Chunk(bytes) =>
        assert world.facts.stream[..|before|] == before;
        var pushed := frame.Push(bytes);
        if pushed.Err? {
          return Err("malformed readiness message");
        }
        if pushed.value.Some? {
          Reports.PayloadsAreDelivered(world.facts.stream, pushed.value.value);
          BytesSurviveDecoding(pushed.value.value);
        }
        r := Ok(pushed.value);
    }

    /**
      Waits for the ready action until the deadline; success means it exited with 0 while the manager
      lived, and a failure has a cause.
     */
    method WaitReady(ready: Child, deadline: nat) returns (r: Outcome<()>)
      requires manager != null && Attempting(Payload) && !shutdownRequested && world.run.now.serial !in world.run.now.readySerials
      requires ready.Valid() && ready.call.RunReady? && ready.world == world && !ready.reaped
      modifies this`manager, this`shutdownRequested, manager, ready`reaped, world`now, world`patience, world`broken, world`run
      modifies world`facts, world`incidents, world`watch, world`polledAt
      ensures world.patience <= old(world.patience) && world.now >= old(world.now) && ready.Valid()
      ensures Attempting(Payload) && Kept(old(world.run.now), world.run.now) && (manager != null ==> manager == old(manager))
      ensures r.Ok? ==> Succeeded(ready) && world.facts == old(world.facts).(ready := Some(Exited(0)))
      ensures InTime(r.Err?, deadline, old(world.incidents), old(world.polledAt))
    {
      while true
        invariant world.patience <= old(world.patience) && world.now >= old(world.now)
        invariant Attempting(Payload) && ready.Valid() && !ready.reaped && !shutdownRequested
        invariant manager == old(manager) && world.run == old(world.run) && world.facts == old(world.facts)
        invariant InTime(false, deadline, old(world.incidents), old(world.polledAt))
        decreases world.patience
      {
        var done :- WatchReady(ready, deadline);
        if done {
          return Ok(());
        }
      }
    }

    /** One round of waiting for the ready action. */
    method WatchReady(ready: Child, deadline: nat) returns (r: Outcome<bool>)
      requires manager != null && Attempting(Payload) && !shutdownRequested && world.run.now.serial !in world.run.now.readySerials
      requires ready.Valid() && ready.call.RunReady? && ready.world == world && !ready.reaped
      modifies this`manager, this`shutdownRequested, manager, ready`reaped, world`now, world`patience, world`broken, world`run
      modifies world`facts, world`incidents, world`watch, world`polledAt
      ensures world.patience <= old(world.patience) && world.now >= old(world.now) && ready.Valid()
      ensures Attempting(Payload) && Kept(old(world.run.now), world.run.now) && (manager != null ==> manager == old(manager))
      ensures r == Ok(false) ==>
                && manager != null && world.run == old(world.run) && world.facts == old(world.facts)
                && !ready.reaped && world.patience < old(world.patience)
      ensures r == Ok(true) ==> Succeeded(ready) && world.facts == old(world.facts).(ready := Some(Exited(0)))
      ensures InTime(r.Err?, deadline, old(world.incidents), old(world.polledAt))
    {
      var _ :- CheckManager();
      var status :- ready.TryWait();
      if status.Some? {
        var _ :- ReadyEnded(status.value);
        return Ok(true);
      }
      var _ :- AwaitControl(deadline);
      r := Ok(false);
    }

    /** Waits, not beyond the deadline, and reads the control socket if anything has happened. */
    method AwaitControl(deadline: nat) returns (r: Outcome<()>)
      requires manager != null && Attempting(Payload) && !shutdownRequested && world.Watched()
      modifies this`shutdownRequested, world`now, world`patience, world`run, world`facts, world`incidents, world`watch, world`polledAt
      ensures world.patience <= old(world.patience) && world.now >= old(world.now)
      ensures Attempting(Payload) && Kept(old(world.run.now), world.run.now) && world.facts == old(world.facts)
      ensures r.Ok? ==> world.run == old(world.run) && world.patience < old(world.patience)
      ensures InTime(r.Err?, deadline, old(world.incidents), old(world.polledAt))
    {
      if world.now >= deadline {
        return Err("backend readiness timed out");
      }
      var any :- world.Poll();
      if any {
        var _ :- CheckControl();
      }
      r := Ok(());
    }

    /** The ready action exited with 0 while the manager lived. */
    ghost predicate Succeeded(ready: Child)
      reads this, world, ready
    {
      && manager != null && !world.run.now.Closing() && world.run.now.serial in world.run.now.readySerials
      && ready.reaped && ready.fate == Exited(0) && world.watch.manager.Some?
    }

    method ReadyEnded(status: ProcessStatus) returns (r: Outcome<()>)
      requires manager != null && Attempting(Payload) && !shutdownRequested
      requires world.run.now.serial !in world.run.now.readySerials && world.facts.ready == Some(status)
      modifies this`manager, manager, world`run, world`broken, world`facts, world`incidents, world`watch
      ensures Attempting(Payload) && Kept(old(world.run.now), world.run.now) && (manager != null ==> manager == old(manager))
      ensures r.Ok? ==> manager != null && world.run.now.serial in world.run.now.readySerials
      ensures r.Ok? ==> status == Exited(0) && world.facts == old(world.facts) && world.watch.manager.Some?
      ensures world.incidents >= old(world.incidents)
      ensures r.Err? ==> status != Exited(0) || world.incidents > old(world.incidents)
    {
      if status != Exited(0) {
        return Err("backend ready action failed");
      }
      world.ReadyDone();
      r := CheckManager();
    }

    method WaitWhileRunning() returns (r: Outcome<RunningEvent>)
      requires Synced() && manager != null && world.run.now.phase.Running? && !world.run.now.Closing()
      modifies this`manager, manager, world`now, world`patience, world`broken, world`run
      modifies world`facts, world`incidents, world`watch, world`polledAt
      ensures world.patience <= old(world.patience) && (r.Ok? && r.value.StopAsked? ==> world.patience < old(world.patience))
      ensures Synced() && Kept(old(world.run.now), world.run.now) && world.run.now.phase.Running?
      ensures match r
              case Ok(ManagerGone(status)) =>
                manager == null && !world.run.now.Closing() && !world.run.now.waits.StopFailed? && world.facts.exit == Some(status)
              case Ok(StopAsked) =>
                manager == old(manager) && !world.run.now.Closing() && EventSince(old(world.run), world.run) == Some(Obey(Command.StopManager))
              case Ok(ShutdownAsked) => manager == old(manager) && world.run.now.Closing()
              case Err(_) => manager == old(manager)
      ensures world.incidents >= old(world.incidents) + if r.Err? then 1 else 0
    {
      while true
        invariant world.patience <= old(world.patience)
        invariant Synced() && manager == old(manager) && world.run == old(world.run)
        invariant world.incidents >= old(world.incidents)
        decreases world.patience
      {
        var status :- TryReapManager();
        if status.Some? {
          return Ok(ManagerGone(status.value));
        }
        var any :- world.Poll();
        if !any {
          continue;
        }
        var event :- HeardWhileRunning();
        if event.Some? {
          return Ok(event.value);
        }
      }
    }

    method HeardWhileRunning() returns (r: Outcome<Option<RunningEvent>>)
      requires Synced() && world.run.now.phase.Running? && !world.run.now.Closing() && manager != null
      modifies world`run, world`facts, world`incidents
      ensures Synced() && world.facts == old(world.facts)
      ensures var closing := world.run.now.Closing();
              && world.run.now == (if closing then old(world.run.now).(course := Course.Leaving) else old(world.run.now))
              && match r
                 case Ok(None) => world.run == old(world.run) && world.patience > 0
                 case Ok(Some(event)) =>
                   && !event.ManagerGone? && (closing <==> event.ShutdownAsked?)
                   && (event.StopAsked? ==> world.patience > 0 && EventSince(old(world.run), world.run) == Some(Obey(Command.StopManager)))
                 case Err(_) => true
      ensures world.incidents >= old(world.incidents) + if r.Err? then 1 else 0
    {
      var down :- world.ShutdownReady();
      if down {
        return Ok(Some(ShutdownAsked));
      }
      r := CommandWhileRunning();
    }

    method CommandWhileRunning() returns (r: Outcome<Option<RunningEvent>>)
      requires Synced() && world.run.now.phase.Running? && !world.run.now.Closing() && manager != null
      modifies world`run, world`facts, world`incidents
      ensures Synced() && world.facts == old(world.facts)
      ensures var closing := world.run.now.Closing();
              && world.run.now == (if closing then old(world.run.now).(course := Course.Leaving) else old(world.run.now))
              && match r
                 case Ok(None) => world.run == old(world.run)
                 case Ok(Some(event)) =>
                   && !event.ManagerGone? && (closing <==> event.ShutdownAsked?)
                   && (event.StopAsked? ==> EventSince(old(world.run), world.run) == Some(Obey(Command.StopManager)))
                 case Err(_) => true
      ensures world.incidents >= old(world.incidents) + if r.Err? then 1 else 0
    {
      var command :- world.Receive();
      if command.None? {
        return Ok(None);
      }
      ObeyedWhileRunning(old(world.run.now), command.value);
      match command.value
      case StopManager => r := Ok(Some(StopAsked));
      case Shutdown => r := Ok(Some(ShutdownAsked));
      case _ => r := Err("unexpected command while manager is running");
    }

    /** What a start attempt leaves: a ready manager, or a failure that can still be reported and no manager. */
    ghost predicate Attempted(r: Outcome<()>)
      reads this, world, manager
    {
      match r
      case Ok(_) =>
        && Synced() && manager != null && world.run.now.phase.Running? && world.facts.ready == Some(Exited(0))
        && !shutdownRequested && !world.run.now.Closing()
      case Err(_) =>
        && Synced() && (shutdownRequested <==> world.run.now.Closing())
        && if manager == null then world.run.now.voice.Muted? || FailedStart(world.run.now)
           else world.run.now.voice.Muted? && !shutdownRequested && HasStarted(world.run.now.phase)
    }

    /**
      One start attempt. Success means that the backend was run once for the manager and once, with
      the text received, for the ready action. A failure has a cause: something went wrong outside,
      or the time allowed for readiness has passed. A shutdown in between is remembered.
     */
    method StartManager(attempt: u32) returns (r: Outcome<()>)
      requires Synced() && manager == null && !shutdownRequested
      requires world.run.now.phase.Launching? && !world.run.now.waits.StopFailed? && !world.run.now.Closing()
      requires world.run.now.serial !in world.run.now.readySerials && attempt == world.facts.attempt
      modifies this`manager, this`shutdownRequested, world`now, world`patience, world`broken, world`run
      modifies world`facts, world`incidents, world`watch, world`polledAt, world`calls
      ensures world.patience <= old(world.patience)
      ensures Attempted(r) && Kept(old(world.run.now), world.run.now) && (manager != null ==> fresh(manager))
      ensures old(world.calls) + [RunManager(attempt)] <= world.calls
      ensures r.Ok? ==> exists text :: Received(world.facts.stream, text)
                                    && world.calls == old(world.calls) + [RunManager(attempt), RunReady(text)]
      ensures InTime(r.Err?, old(world.now) + timeouts.readiness, old(world.incidents), old(world.polledAt))
    {
      var _ :- Launch(attempt);
      r := AwaitReadiness(world.now + timeouts.readiness);
    }

    /** The attempt from the launched manager on. */
    method AwaitReadiness(deadline: nat) returns (r: Outcome<()>)
      requires manager != null && Attempting(Spawned) && !shutdownRequested && world.facts.stream == [] && !world.watch.unread
      requires world.run.now.serial !in world.run.now.readySerials
      modifies this`manager, this`shutdownRequested, manager, world`now, world`patience, world`broken, world`run
      modifies world`facts, world`incidents, world`watch, world`polledAt, world`calls
      ensures world.patience <= old(world.patience) && old(world.calls) <= world.calls
      ensures Attempted(r) && Kept(old(world.run.now), world.run.now) && (manager != null ==> manager == old(manager))
      ensures r.Ok? ==> exists text :: Received(world.facts.stream, text) && world.calls == old(world.calls) + [RunReady(text)]
      ensures InTime(r.Err?, deadline, old(world.incidents), old(world.polledAt))
    {
      var payload := ReadPayload(deadline);
      if payload.Ok? {
        r := Proceed(DecodeChars(payload.value), deadline);
      } else {
        r := FailStart(payload.error);
      }
    }

    method ReportPayload(text: string) returns (r: Outcome<()>)
      requires manager != null && Attempting(Spawned) && !shutdownRequested && Received(world.facts.stream, text)
      modifies world`broken, world`run, world`incidents
      ensures Synced() && (r.Err? ==> world.run.now == old(world.run.now).(voice := Muted))
      ensures r.Ok? ==> world.run.now == old(world.run.now).(phase := Payload)
      ensures world.incidents == old(world.incidents) + if r.Err? then 1 else 0
    {
      var sent := world.Send(ReadinessPayload(text));
      r := if sent then Ok(()) else Err("send helper event");
    }

    /** The attempt from the payload on. */
    method Proceed(text: string, deadline: nat) returns (r: Outcome<()>)
      requires manager != null && Attempting(Spawned) && !shutdownRequested && Received(world.facts.stream, text)
      requires world.run.now.serial !in world.run.now.readySerials
      modifies this`manager, this`shutdownRequested, manager, world`now, world`patience, world`broken, world`run
      modifies world`facts, world`incidents, world`watch, world`polledAt, world`calls
      ensures world.patience <= old(world.patience) && old(world.calls) <= world.calls
      ensures Attempted(r) && Kept(old(world.run.now), world.run.now) && (manager != null ==> manager == old(manager))
      ensures r.Ok? ==> world.facts.stream == old(world.facts.stream) && world.calls == old(world.calls) + [RunReady(text)]
      ensures InTime(r.Err?, deadline, old(world.incidents), old(world.polledAt))
    {
      var _ :- ReportPayload(text);
      r := CallReady(text, deadline);
    }

    method CallReady(text: string, deadline: nat) returns (r: Outcome<()>)
      requires manager != null && Attempting(Payload) && !shutdownRequested && Received(world.facts.stream, text)
      requires world.run.now.serial !in world.run.now.readySerials
      modifies this`manager, this`shutdownRequested, manager, world`now, world`patience, world`broken, world`run
      modifies world`facts, world`incidents, world`watch, world`polledAt, world`calls
      ensures world.patience <= old(world.patience) && old(world.calls) <= world.calls
      ensures Attempted(r) && Kept(old(world.run.now), world.run.now) && (manager != null ==> manager == old(manager))
      ensures r.Ok? ==> world.facts.stream == old(world.facts.stream) && world.calls == old(world.calls) + [RunReady(text)]
      ensures InTime(r.Err?, deadline, old(world.incidents), old(world.polledAt))
    {
      var spawns := world.Request(RunReady(text));
      if spawns {
        r := BecomeReady(text, deadline);
      } else {
        r := FailStart("cannot execute backend ready action");
      }
    }

    /** Forks the manager and reports it; if that fails the child is dropped at once. */
    method Launch(attempt: u32) returns (r: Outcome<()>)
      requires Synced() && manager == null && world.run.now.phase.Launching? && !world.run.now.waits.StopFailed? && !world.run.now.Closing()
      requires attempt == world.facts.attempt
      modifies this`manager, world`run, world`broken, world`facts, world`incidents, world`watch, world`calls
      ensures Synced() && Kept(old(world.run.now), world.run.now) && !world.run.now.Closing()
      ensures world.run.now.serial == old(world.run.now.serial) && world.run.now.readySerials == old(world.run.now.readySerials)
      ensures r.Ok? ==> manager != null && fresh(manager) && world.run.now.phase.Spawned? && world.facts.stream == [] && !world.watch.unread
      ensures r.Err? ==> manager == null && (world.run.now.voice.Muted? || FailedStart(world.run.now))
      ensures world.calls == old(world.calls) + [RunManager(attempt)]
      ensures world.incidents >= old(world.incidents) + if r.Err? then 1 else 0
    {
      var spawns := world.Request(RunManager(attempt));
      if !spawns {
        return Err("cannot create the instance state or start the backend");
      }
      r := Spawn(attempt);
    }

    method Spawn(attempt: u32) returns (r: Outcome<()>)
      requires world.Called(RunManager(attempt))
      requires Synced() && manager == null && world.run.now.phase.Launching? && !world.run.now.waits.StopFailed? && !world.run.now.Closing()
      modifies this`manager, world`run, world`broken, world`facts, world`incidents, world`watch
      ensures Synced() && Kept(old(world.run.now), world.run.now) && !world.run.now.Closing()
      ensures world.run.now.serial == old(world.run.now.serial) && world.run.now.readySerials == old(world.run.now.readySerials)
      ensures r.Ok? ==> manager != null && fresh(manager) && world.run.now.phase.Spawned? && world.facts.stream == [] && !world.watch.unread
      ensures r.Err? ==> manager == null && (world.run.now.voice.Muted? || FailedStart(world.run.now))
      ensures world.incidents >= old(world.incidents) + if r.Err? then 1 else 0
    {
      var child := new Child(world, RunManager(attempt));
      var sent := world.Send(ManagerSpawned(child.pid));
      if !sent {
        child.Drop();
        return Err("send helper event");
      }
      manager := child;
      r := Ok(());
    }

    /** Stops the manager, if it is still there, before the attempt fails. */
    method FailStart(error: string) returns (r: Outcome<()>)
      requires Attempting(Spawned) || Attempting(Payload)
      modifies this`manager, manager, world`now, world`run, world`broken, world`facts, world`incidents, world`watch, world`calls
      ensures r.Err? && Attempted(r) && manager == null && Kept(old(world.run.now), world.run.now)
      ensures world.now >= old(world.now) && world.incidents >= old(world.incidents) && old(world.calls) <= world.calls
    {
      var _ :- StopManager();
      r := Err(error);
    }

    method BecomeReady(text: string, deadline: nat) returns (r: Outcome<()>)
      requires world.Called(RunReady(text))
      requires manager != null && Attempting(Payload) && !shutdownRequested && world.run.now.serial !in world.run.now.readySerials
      modifies this`manager, this`shutdownRequested, manager, world`now, world`patience, world`broken, world`run
      modifies world`facts, world`incidents, world`watch, world`polledAt, world`calls
      ensures world.patience <= old(world.patience) && old(world.calls) <= world.calls
      ensures Attempted(r) && Kept(old(world.run.now), world.run.now) && (manager != null ==> manager == old(manager))
      ensures r.Ok? ==> world.facts.stream == old(world.facts.stream) && world.calls == old(world.calls)
      ensures InTime(r.Err?, deadline, old(world.incidents), old(world.polledAt))
    {
      var ready := new Child(world, RunReady(text));
      r := Attend(ready, deadline);
      ready.Drop();
    }

    method Attend(ready: Child, deadline: nat) returns (r: Outcome<()>)
      requires manager != null && Attempting(Payload) && !shutdownRequested && world.run.now.serial !in world.run.now.readySerials
      requires ready.Valid() && ready.call.RunReady? && ready.world == world && !ready.reaped
      modifies this`manager, this`shutdownRequested, manager, ready`reaped, ready`signals, world`now, world`patience, world`broken
      modifies world`run, world`facts, world`incidents, world`watch, world`polledAt, world`calls
      ensures world.patience <= old(world.patience) && old(world.calls) <= world.calls && ready.Valid()
      ensures Attempted(r) && Kept(old(world.run.now), world.run.now) && (manager != null ==> manager == old(manager))
      ensures r.Ok? ==> ready.reaped && world.facts.stream == old(world.facts.stream) && world.calls == old(world.calls)
      ensures InTime(r.Err?, deadline, old(world.incidents), old(world.polledAt))
    {
      var waited := WaitReady(ready, deadline);
      r := Conclude(ready, waited);
    }

    /** Reports success, or kills the ready action and stops the manager. */
    method Conclude(ready: Child, waited: Outcome<()>) returns (r: Outcome<()>)
      requires Attempting(Payload) && ready.Valid() && ready.call.RunReady? && ready.world == world
      requires waited.Ok? ==> Succeeded(ready) && world.facts.ready == Some(Exited(0))
      modifies this`manager, manager, ready`reaped, ready`signals, world`now, world`run, world`broken
      modifies world`facts, world`incidents, world`watch, world`calls
      ensures Attempted(r) && ready.Valid() && Kept(old(world.run.now), world.run.now) && (manager != null ==> manager == old(manager))
      ensures world.now >= old(world.now) && world.incidents >= old(world.incidents) && old(world.calls) <= world.calls
      ensures r.Ok? ==> waited.Ok? && ready.reaped && world.facts == old(world.facts) && world.calls == old(world.calls)
      ensures r.Err? && waited.Ok? ==> world.incidents > old(world.incidents)
    {
      if waited.Err? {
        ready.Send(Kill);
        var killed := ready.Wait();
        r := FailStart(waited.error);
      } else {
        var sent := world.Send(ReadySucceeded);
        r := if sent then Ok(()) else Err("send helper event");
      }
    }

    /** Between two rounds of the event loop. */
    ghost predicate Between()
      reads this, world, manager
    {
      && Synced() && !world.run.now.Closing() && !world.run.now.waits.StopFailed? && !shutdownRequested
      && if manager == null then world.run.now.phase.Idle? else world.run.now.phase.Running?
    }

    /** Leaving the event loop without an error: every start attempt was reported, or cannot be. */
    ghost predicate Leaving()
      reads this, world, manager
    {
      && Synced() && world.run.now.Closing()
      && if manager == null then world.run.now.voice.Muted? || Settled(world.run.now) else world.run.now.phase.Running?
    }

    /** One round with a manager; true means to leave. */
    method ServeManager() returns (r: Outcome<bool>)
      requires Between() && manager != null
      modifies this`manager, manager, world`now, world`patience, world`broken, world`run
      modifies world`facts, world`incidents, world`watch, world`polledAt, world`calls
      ensures Synced() && Kept(old(world.run.now), world.run.now) && world.patience <= old(world.patience)
      ensures manager != null ==> manager == old(manager) && world.run.now.phase.Running?
      ensures r == Ok(true) ==> Leaving()
      ensures r == Ok(false) ==> Between() && manager == null
      ensures world.incidents >= old(world.incidents) + if r.Err? then 1 else 0
    {
      var event :- WaitWhileRunning();
      match event
      case ManagerGone(status) =>
        var _ :- ReportExit(status);
        r := Ok(false);
      case StopAsked =>
        var _ :- StopManager();
        r := Ok(false);
      case ShutdownAsked => r := Ok(true);
    }

    /** One round without a manager; true means to leave. */
    method TakeCommand() returns (r: Outcome<bool>)
      requires Between() && manager == null
      modifies this`manager, this`shutdownRequested, world`now, world`patience, world`broken, world`run
      modifies world`facts, world`incidents, world`watch, world`polledAt, world`calls
      ensures Synced() && Kept(old(world.run.now), world.run.now) && world.patience <= old(world.patience)
      ensures manager != null ==> fresh(manager) && HasStarted(world.run.now.phase)
      ensures r == Ok(true) ==> Leaving()
      ensures r == Ok(false) ==> Between() && world.patience < old(world.patience)
      ensures world.incidents >= old(world.incidents) + if r.Err? then 1 else 0
    {
      WorldIsConsistent(world);
      var event :- WaitForCommand(world);
      if event.Hangup? {
        return Ok(true);
      }
      ObeyedWhileIdle(old(world.run.now), event.command);
      match event.command
      case StartManager(attempt) => r := Attempt(attempt);
      case StopManager => r := Ok(false);
      case Shutdown => r := Ok(true);
      case _ => r := Err("unexpected helper command without a manager");
    }

    /** A start attempt and, unless the helper is to leave, the report of its failure. */
    method Attempt(attempt: u32) returns (r: Outcome<bool>)
      requires Synced() && manager == null && !shutdownRequested
      requires world.run.now.phase.Launching? && !world.run.now.waits.StopFailed? && !world.run.now.Closing()
      requires world.run.now.serial !in world.run.now.readySerials && attempt == world.facts.attempt
      modifies this`manager, this`shutdownRequested, world`now, world`patience, world`broken, world`run
      modifies world`facts, world`incidents, world`watch, world`polledAt, world`calls
      ensures Synced() && Kept(old(world.run.now), world.run.now) && world.patience <= old(world.patience)
      ensures manager != null ==> fresh(manager) && HasStarted(world.run.now.phase)
      ensures r == Ok(true) ==> Leaving()
      ensures r == Ok(false) ==> Between()
      ensures world.incidents >= old(world.incidents) + if r.Err? then 1 else 0
      ensures old(world.calls) + [RunManager(attempt)] <= world.calls
    {
      var started := StartManager(attempt);
      if started.Ok? {
        return Ok(false);
      }
      if shutdownRequested {
        return Ok(true);
      }
      var message := Bounded(started.error);
      var sent := world.Send(StartFailed(message));
      r := if sent then Ok(false) else Err("send helper event");
    }

    method Drop()
      requires Held()
      modifies manager, world`run, world`facts, world`incidents, world`watch
      ensures world.Valid() && !world.run.now.course.Gone? && !world.run.now.manager && world.incidents >= old(world.incidents)
      ensures OnlyWaited(old(world.run.now).(manager := false), world.run.now)
    {
      if manager != null {
        manager.Drop();
      }
    }

    /** Takes commands and serves managers until told to leave or until an error. */
    method EventLoop() returns (r: Outcome<()>)
      requires Between() && manager == null
      modifies this`manager, this`shutdownRequested, world`now, world`patience, world`broken, world`run
      modifies world`facts, world`incidents, world`watch, world`polledAt, world`calls
      ensures Synced() && Kept(old(world.run.now), world.run.now)
      ensures manager != null ==> fresh(manager) && HasStarted(world.run.now.phase)
      ensures r.Ok? ==> Leaving()
      ensures world.incidents >= old(world.incidents) + if r.Err? then 1 else 0
    {
      while true
        invariant Between() && Kept(old(world.run.now), world.run.now) && world.incidents >= old(world.incidents)
        invariant manager != null ==> fresh(manager)
        decreases world.patience, if manager == null then 0 else 1
      {
        var leave: bool;
        if manager != null {
          leave :- ServeManager();
        } else {
          leave :- TakeCommand();
        }
        if leave {
          return Ok(());
        }
      }
    }
  }

  method WaitForCommand(world: World) returns (r: Outcome<ControlEvent>)
    requires world.Valid() && !world.run.now.course.Gone? && Listening(world.run.now)
    requires !world.run.now.manager && (world.run.now.phase.AwaitAccept? || world.run.now.phase.Idle?)
    modifies world`now, world`patience, world`polledAt, world`run, world`facts, world`incidents, world`watch
    ensures world.Valid() && world.patience <= old(world.patience) && world.incidents >= old(world.incidents)
    ensures match r
            case Ok(Taken(c)) =>
              && world.run.now == After(old(world.run.now), Obey(c)) && EventSince(old(world.run), world.run) == Some(Obey(c))
              && world.patience < old(world.patience)
              && world.facts == Told(old(world.facts), old(world.run.now).phase, c)
              && (Unwelcome(old(world.run.now).phase, c) ==> world.incidents > old(world.incidents))
            case Ok(Hangup) => world.run.now == old(world.run.now).(course := Course.Leaving)
            case Err(_) => world.run == old(world.run) && world.incidents > old(world.incidents)
  {
    while true
      invariant world.Valid() && world.run == old(world.run) && world.patience <= old(world.patience)
      invariant world.facts == old(world.facts) && world.incidents >= old(world.incidents)
      decreases world.patience
    {
      var any :- world.Poll();
      var down :- world.ShutdownReady();
      if down {
        return Ok(Hangup);
      }
      var command :- world.Receive();
      if command.Some? {
        return Ok(Taken(command.value));
      }
    }
  }

  // ---- The whole program ----

  /** A frame that is not complete yet, of the chunks received. */
  ghost predicate Expecting(frame: Readiness.Frame, chunks: seq<seq<byte>>) {
    frame == Readiness.Framed(chunks) && !frame.complete && |frame.bytes| <= MAX_READY_PAYLOAD
  }

  /** The helper on its way out with everything of its own closed but the lease. */
  predicate ManagerIsGone(h: Helper) {
    h.Closing() && !h.manager && !h.course.Gone?
  }

  /** An error has a cause, and without one the helper left because it was told to. */
  ghost predicate Excused(world: World, r: Outcome<()>, n: nat, gaveUp: bool)
    reads world
  {
    world.incidents >= n && (r.Err? ==> world.incidents > n) && (r.Ok? ==> world.gaveUp == gaveUp)
  }

  /** From the opened lease to the end of the scope of the event loop; the lease is left to its owner. */
  method RunLeased(world: World, lease: PamLease, timeouts: Timeouts, ghost n: nat) returns (r: Outcome<()>)
    requires lease.Valid() && lease.isOpen && lease.world == world && world.facts.variables == lease.environment
    requires world.incidents >= n && (!IsLease(lease.environment) ==> world.incidents > n)
    requires world.run.now.phase.Boot? && !world.run.now.Closing() && !world.run.now.voice.Finished? && !world.run.now.manager
    modifies lease, world
    ensures lease.Valid() && ManagerIsGone(world.run.now) && world.run.now.lock == old(world.run.now.lock)
    ensures Excused(world, r, n, old(world.gaveUp))
  {
    var sent := Announce(world, lease, n);
    if !sent {
      return Err("no usable lease, or it cannot be announced");
    }
    r := RunAnnounced(world, lease, timeouts);
  }

  /** From the announced lease on: it is closed at once if the daemon does not accept it. */
  method RunAnnounced(world: World, lease: PamLease, timeouts: Timeouts) returns (r: Outcome<()>)
    requires lease.Valid() && lease.isOpen && lease.world == world
    requires world.run.now.phase.AwaitAccept? && !world.run.now.Closing() && !world.run.now.voice.Finished? && !world.run.now.manager
    modifies lease, world
    ensures lease.Valid() && ManagerIsGone(world.run.now) && world.run.now.lock == old(world.run.now.lock)
    ensures Excused(world, r, old(world.incidents), old(world.gaveUp))
  {
    WorldIsConsistent(world);
    var event := WaitForCommand(world);
    if event.Err? {
      world.GiveUp();
      return Err(event.error);
    }
    if event.value.Hangup? {
      r := lease.Close();
      return;
    }
    ObeyedWhileWaiting(old(world.run.now), event.value.command);
    if event.value.command != LeaseAccepted {
      return Err("lease rejected, or unexpected command");
    }
    r := RunAccepted(world, lease, timeouts);
  }

  /** Announces the lease exactly if it is what it must be and can be announced; otherwise the helper gives up. */
  method Announce(world: World, lease: PamLease, ghost n: nat) returns (sent: bool)
    requires world.Valid() && !world.run.now.course.Gone? && world.run.now.lease.Open?
    requires world.facts.variables == lease.environment
    requires world.incidents >= n && (!IsLease(lease.environment) ==> world.incidents > n)
    requires world.run.now.phase.Boot? && !world.run.now.Closing() && !world.run.now.voice.Finished?
    modifies world`broken, world`run, world`incidents, world`gaveUp
    ensures world.Valid() && world.incidents >= n
    ensures sent ==> world.run.now == old(world.run.now).(phase := AwaitAccept) && world.gaveUp == old(world.gaveUp)
    ensures !sent ==> world.run.now == old(world.run.now).(course := Leaving, voice := world.run.now.voice) && world.incidents > n
  {
    var id, dir := lease.Required("XDG_SESSION_ID"), lease.Required("XDG_RUNTIME_DIR");
    sent := false;
    if && id.Some? && dir.Some? && dir.value[0] == '/'
       && lease.Required("XDG_SESSION_CLASS") == Some("background")
       && lease.Required("XDG_SESSION_TYPE") == Some("unspecified")
    {
      sent := world.Send(LeaseOpened(id.value, dir.value));
    }
    if !sent {
      world.GiveUp();
    }
  }

  /** The event loop and what follows it. */
  method RunAccepted(world: World, lease: PamLease, timeouts: Timeouts) returns (r: Outcome<()>)
    requires lease.Valid() && lease.isOpen && lease.world == world
    requires world.run.now.phase.Idle? && !world.run.now.Closing() && !world.run.now.voice.Finished? && !world.run.now.manager
    modifies lease, world
    ensures lease.Valid() && ManagerIsGone(world.run.now) && world.run.now.lock == old(world.run.now.lock)
    ensures Excused(world, r, old(world.incidents), old(world.gaveUp)) && (r.Ok? ==> !world.run.now.voice.Speaking?)
  {
    var prepared := world.Prepared();
    if !prepared {
      world.GiveUp();
      return Err("cannot assemble the backend environment");
    }
    var supervisor := new Supervisor(world, timeouts);
    WorldIsConsistent(world);
    r := supervisor.EventLoop();
    if r.Ok? {
      r := WindDown(lease, supervisor);
    } else if !world.run.now.Closing() {
      world.GiveUp();
    }
    // The supervisor is declared after the lease, and so is dropped before it.
    supervisor.Drop();
  }

  /** The regular way out: the manager first, then the lease, then the last message. */
  method WindDown(lease: PamLease, supervisor: Supervisor) returns (r: Outcome<()>)
    requires supervisor.Leaving() && lease.Valid() && lease.isOpen && lease.world == supervisor.world
    modifies lease, supervisor`manager, supervisor.manager, supervisor.world
    ensures supervisor.Held() && lease.Valid() && supervisor.manager == null
    ensures supervisor.world.run.now.Closing() && supervisor.world.run.now.lock == old(supervisor.world.run.now.lock)
    ensures Excused(supervisor.world, r, old(supervisor.world.incidents), old(supervisor.world.gaveUp))
    ensures r.Ok? ==> !supervisor.world.run.now.voice.Speaking?
  {
    var _ :- supervisor.StopManager();
    WorldIsConsistent(supervisor.world);
    var _ :- lease.Close();
    var sent := supervisor.world.Send(ShutdownComplete);
    r := Ok(());
  }

  /** Opens the lease; that it cannot be opened is reported, if anything can be. */
  method OpenLease(world: World) returns (r: Outcome<PamLease>)
    requires world.Valid() && world.run.now == START.(lock := Locked)
    modifies world`broken, world`run, world`gaveUp, world`facts, world`incidents
    ensures world.incidents >= old(world.incidents)
    ensures match r
            case Ok(lease) =>
              && fresh(lease) && lease.world == world && lease.Valid() && lease.isOpen
              && world.run.now == old(world.run.now).(lease := Lease.Open) && world.gaveUp == old(world.gaveUp)
              && world.facts.variables == lease.environment
              && (!IsLease(lease.environment) ==> world.incidents > old(world.incidents))
            case Err(_) =>
              && world.Valid() && ManagerIsGone(world.run.now) && world.run.now.lock.Locked? && !world.run.now.voice.Speaking?
              && (world.run.now.lease.NoLease? || world.run.now.lease.Ended?) && world.incidents > old(world.incidents)
  {
    r := PamLease.Acquire(world);
    if r.Err? {
      var message := Bounded(r.error);
      var sent := world.Send(Fatal(message));
    }
  }

  /** What happens under the per-user lock. */
  method RunLocked(world: World, timeouts: Timeouts) returns (r: Outcome<()>)
    requires world.Valid() && world.run.now == START.(lock := Locked)
    modifies world
    ensures world.Valid() && ManagerIsGone(world.run.now) && world.run.now.lock.Locked?
    ensures world.run.now.lease.NoLease? || world.run.now.lease.Ended?
    ensures Excused(world, r, old(world.incidents), old(world.gaveUp))
  {
    var prepared := world.Prepared();
    if !prepared {
      world.GiveUp();
      return Err("backend is not available");
    }
    var lease := OpenLease(world);
    if lease.Err? {
      return Err(lease.error);
    }
    r := RunLeased(world, lease.value, timeouts, old(world.incidents));
    lease.value.Drop();
  }

  /**
    The program from start to exit. Whatever happens outside, it ends, and what it did is a run of
    the automaton that ends with the process gone.
   */
  method RunHelper(world: World, timeouts: Timeouts) returns (r: Outcome<()>)
    requires world.Valid() && world.run.now == START && world.run.past == []
    modifies world
    ensures world.Valid() && world.run.now.course.Gone? && Excused(world, r, old(world.incidents), old(world.gaveUp))
  {
    var prepared := world.Prepared();
    if !prepared {
      world.GiveUp();
      r := Err("untrusted configuration, or the user is already served");
    } else {
      world.Emit(TakeLock);
      r := RunLocked(world, timeouts);
    }
    world.End();
  }

  /**
    What that means for every run of the program: managers are reaped or abandoned, session and
    transaction are closed as often as opened, and unless a manager was abandoned, one was alive
    only while its accepted session was open. Every message was true when it was sent, and the
    program ends with an error only for a cause, and otherwise because it was told to leave.
   */
  method RunHelperSafely(world: World, timeouts: Timeouts) returns (r: Outcome<()>)
    requires world.Valid() && world.run.now == START && world.run.past == []
    modifies world
    ensures var trace := Events(world.run.past);
            && Possible(START, trace) && Run(START, trace).course.Gone?
            && Count(trace, CloseSession) == Count(trace, OpenSession) <= 1
            && Count(trace, EndPam) == Count(trace, BeginPam) <= 1
            && Count(trace, Fork) == Count(trace, Reap) + Count(trace, Abandon)
            && ((forall i :: 0 <= i <= |trace| ==> LifetimeHolds(trace, i)) <==> Abandon !in trace)
    ensures forall i :: 0 <= i < |world.run.past| ==> Genuine(world.run.past[i].facts, world.run.past[i].event)
    ensures if r.Err? then world.incidents > old(world.incidents) else world.gaveUp == old(world.gaveUp)
  {
    r := RunHelper(world, timeouts);
    RecordedIsRun(world.run.past, world.run.now);
    FinishedRunClosedEverything(Events(world.run.past));
    LifetimeHoldsIffNothingAbandoned(Events(world.run.past));
    forall i | 0 <= i < |world.run.past|
      ensures Genuine(world.run.past[i].facts, world.run.past[i].event)
    {
      assert Happened(world.run.past, i, world.run.now);
    }
  }
}
