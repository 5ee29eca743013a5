/**
  What the helper process has to do with: the world it acts on, the children it forks, and its PAM
  lease. Every action on the world must be allowed by the automaton of `Helpers` at that point.
 */
module Processes {
  import opened Prelude
  import opened Messages
  import opened Helpers
  import opened Utf8
  import Readiness

  type Outcome<+T> = Result<T, string>

  // ---- What is so ----

  /** What the outside has shown of the lease, and of the latest manager and its start attempt. */
  datatype Facts = Facts(
    variables: map<string, string>,   // of the PAM session
    attempt: u32,                     // of the latest start command
    pid: u32,
    exit: Option<ProcessStatus>,      // of the manager, once it was reaped
    stream: seq<seq<byte>>,           // read from the readiness FIFO
    ready: Option<ProcessStatus>)     // of the ready action, once it was reaped

  const NO_FACTS := Facts(map[], 0, 0, None, [], None)

  function Variable(variables: map<string, string>, name: string): Option<string> {
    if name in variables && variables[name] != "" then Some(variables[name]) else None
  }

  /** The session is the kind of lease it has to be. */
  predicate IsLease(variables: map<string, string>) {
    && Variable(variables, "XDG_SESSION_ID").Some?
    && Variable(variables, "XDG_RUNTIME_DIR").Some? && variables["XDG_RUNTIME_DIR"][0] == '/'
    && Variable(variables, "XDG_SESSION_CLASS") == Some("background")
    && Variable(variables, "XDG_SESSION_TYPE") == Some("unspecified")
  }

  /** The stream was one message with this text. */
  predicate Received(stream: seq<seq<byte>>, text: string) {
    stream != [] && Readiness.LastResult(stream) == Ok(Some(EncodeChars(text)))
  }

  /** The text fits an error message on the wire. */
  predicate Short(text: string) {
    |EncodeChars(text)| <= 1024 && 0 !in EncodeChars(text)
  }

  /** What the message reports is so. */
  predicate Truthful(f: Facts, m: Report) {
    match m
    case LeaseOpened(id, dir) =>
      IsLease(f.variables) && f.variables["XDG_SESSION_ID"] == id && f.variables["XDG_RUNTIME_DIR"] == dir
    case ManagerSpawned(pid) => pid == f.pid
    case ReadinessPayload(text) => Received(f.stream, text)
    case ReadySucceeded => f.ready == Some(Exited(0))
    case StartFailed(text) => Short(text)
    case ManagerExited(status) => f.exit == Some(status)
    case ShutdownComplete => true
    case Fatal(text) => Short(text)
  }

  /** Events that claim something. */
  predicate Claims(e: Event) {
    e.Say? || e.ReadyExitsZero?
  }

  predicate Genuine(f: Facts, e: Event) {
    (e.Say? ==> Truthful(f, e.message)) && (e.ReadyExitsZero? ==> f.ready == Some(Exited(0)))
  }

  /** The three actions of the backend. */
  datatype Call =
    | RunManager(attempt: u32)
    | RunReady(payload: string)
    | RunStop(pid: u32)

  /** The call is made with what the outside has given. */
  predicate Fitting(f: Facts, call: Call) {
    match call
    case RunManager(attempt) => attempt == f.attempt
    case RunReady(payload) => Received(f.stream, payload)
    case RunStop(pid) => pid == f.pid
  }

  /** Commands that end the program with an error. */
  predicate Unwelcome(phase: Phase, c: Command) {
    MakesLeave(phase, c) && !(phase.AwaitAccept? && c.LeaseAccepted?) && !(phase.Idle? && c.StartManager?)
    && (c.Shutdown? ==> phase.AwaitAccept?)
  }

  /** What is known after a command. */
  function Told(f: Facts, phase: Phase, c: Command): Facts {
    if phase.Idle? && c.StartManager? then f.(attempt := c.attempt) else f
  }

  /** When the children were last looked at, and whether the FIFO still has to be read. */
  datatype Watch = Watch(manager: Option<nat>, ready: Option<nat>, unread: bool)

  datatype Fifo = Nothing | Closed | Chunk(bytes: seq<byte>)

  // ---- What happened ----

  /** An event, the helper as it was when it happened, and what was so. */
  datatype Moment = Moment(before: Helper, event: Event, facts: Facts)

  datatype Record = Record(past: seq<Moment>, now: Helper)

  /** A record of a run of the automaton, from its start to `now`. */
  type Chronicle = r: Record | Recorded(r.past, r.now) ghost witness Record([], START)

  ghost predicate Recorded(past: seq<Moment>, now: Helper) {
    && (if past == [] then now else past[0].before) == START
    && forall i :: 0 <= i < |past| ==> Happened(past, i, now)
  }

  /** The `i`-th event was allowed and genuine, and led to the next moment. */
  ghost predicate Happened(past: seq<Moment>, i: nat, now: Helper)
    requires i < |past|
  {
    && May(past[i].before, past[i].event) && Genuine(past[i].facts, past[i].event)
    && After(past[i].before, past[i].event) == if i + 1 < |past| then past[i + 1].before else now
  }

  /** The event that has happened in between, if it was just one. */
  ghost function EventSince(before: Record, now: Record): Option<Event> {
    if |now.past| == |before.past| + 1 && before.past <= now.past then Some(now.past[|before.past|].event) else None
  }

  /** The record with one more event, which may happen and claims nothing that is not so. */
  ghost function Extended(run: Chronicle, e: Event, f: Facts): (longer: Chronicle)
    requires May(run.now, e) && Genuine(f, e)
    ensures longer.now == After(run.now, e) && EventSince(run, longer) == Some(e)
  {
    RecordedMore(run.past, run.now, e, f);
    Record(run.past + [Moment(run.now, e, f)], After(run.now, e))
  }

  lemma RecordedMore(past: seq<Moment>, now: Helper, e: Event, f: Facts)
    requires Recorded(past, now) && May(now, e) && Genuine(f, e)
    ensures Recorded(past + [Moment(now, e, f)], After(now, e))
  {
    var more := past + [Moment(now, e, f)];
    forall i | 0 <= i < |more|
      ensures Happened(more, i, After(now, e))
    {
      assert i < |past| ==> Happened(past, i, now);
    }
  }

  function Events(past: seq<Moment>): seq<Event> {
    seq(|past|, i requires 0 <= i < |past| => past[i].event)
  }

  lemma {:induction false} RecordedIsRun(past: seq<Moment>, now: Helper)
    requires Recorded(past, now)
    ensures Possible(START, Events(past)) && Run(START, Events(past)) == now
    decreases |past|
  {
    if past == [] {
    } else {
      var n := |past| - 1;
      var before := past[n].before;
      assert Happened(past, n, now);
      forall i | 0 <= i < n
        ensures Happened(past[..n], i, before)
      {
        assert Happened(past, i, now);
      }
      RecordedIsRun(past[..n], before);
      RunOneMore(START, Events(past[..n]), past[n].event);
      assert Events(past) == Events(past[..n]) + [past[n].event];
    }
  }

  /**
    The outside of the helper. Its answers are unknown. `patience` bounds how often it lets the
    helper poll before it hangs up, so that every run of the model is finite. `incidents` counts what
    goes wrong outside, or ends a start attempt; `calls` are what the helper asked for, and
    `polledAt` is when it last waited for its descriptors.
   */
  class World {
    var now: nat
    var patience: nat
    var broken: bool
    ghost var run: Chronicle
    ghost var facts: Facts
    ghost var incidents: nat
    ghost var gaveUp: bool
    ghost var calls: seq<Call>
    ghost var polledAt: nat
    ghost var watch: Watch

    /** What happened so far is a run of the automaton, and led to `run.now`. */
    ghost predicate Valid()
      reads this
    {
      broken <==> run.now.voice.Muted?
    }

    constructor (patience: nat)
      ensures Valid() && run.past == [] && run.now == START && incidents == 0 && !gaveUp && calls == []
    {
      now, this.patience, broken := 0, patience, false;
      run, facts, incidents, gaveUp, calls, polledAt := Record([], START), NO_FACTS, 0, false, [], 0;
      watch := Watch(None, None, false);
    }

    /** Something happens; the proof obligation of every caller is that it may happen now. */
    ghost method Emit(e: Event)
      requires Valid() && May(run.now, e) && !Claims(e) && !e.SayFails? && !e.GiveUp?
      modifies this`run
      ensures Valid() && run.now == After(old(run.now), e) && EventSince(old(run), run) == Some(e)
    {
      run := Extended(run, e, facts);
    }

    ghost method Say(m: Report)
      requires Valid() && May(run.now, Event.Say(m)) && Truthful(facts, m)
      modifies this`run
      ensures Valid() && run.now == AfterMessage(old(run.now), m)
    {
      run := Extended(run, Event.Say(m), facts);
    }

    /** The ready action counts as successful; only one that exited with 0 does. */
    ghost method ReadyDone()
      requires Valid() && May(run.now, ReadyExitsZero) && facts.ready == Some(Exited(0))
      modifies this`run
      ensures Valid() && run.now == old(run.now).(readySerials := old(run.now).readySerials + {old(run.now).serial})
    {
      run := Extended(run, ReadyExitsZero, facts);
    }

    /** The helper turns to leave without having been told; something must have gone wrong. */
    ghost method GiveUp()
      requires Valid() && May(run.now, Event.GiveUp) && incidents > 0
      modifies this`run, this`gaveUp
      ensures Valid() && gaveUp && run.now == old(run.now).(course := Leaving)
    {
      run, gaveUp := Extended(run, Event.GiveUp, facts), true;
    }

    /** The process ends, and with it its hold on the lock. */
    ghost method End()
      requires Valid() && run.now.Closing() && !run.now.course.Gone? && !run.now.lock.Released?
      requires run.now.lease.NoLease? || run.now.lease.Ended?
      modifies this`run
      ensures Valid() && run.now.course.Gone?
    {
      if run.now.lock.Locked? {
        Emit(DropLock);
      }
      Emit(Exit);
    }

    /** Whether what the helper needs to go on can be had. */
    method Prepared() returns (granted: bool)
      modifies this`incidents
      ensures incidents == old(incidents) + if granted then 0 else 1
    {
      granted := *;
      if !granted {
        incidents := incidents + 1;
      }
    }

    /** The latest call was this one. */
    ghost predicate Called(call: Call)
      reads this
    {
      calls != [] && calls[|calls| - 1] == call
    }

    /** Calls the backend; it is no incident if the stop hook cannot be had. */
    method Request(call: Call) returns (granted: bool)
      requires Fitting(facts, call)
      modifies this`calls, this`incidents
      ensures calls == old(calls) + [call]
      ensures incidents == old(incidents) + if granted || call.RunStop? then 0 else 1
    {
      granted := *;
      calls := calls + [call];
      if !granted && !call.RunStop? {
        incidents := incidents + 1;
      }
    }

    /** Reads the FIFO if there is anything to read: a chunk of at most so many bytes, or its end. */
    method ReadFifo(limit: nat) returns (r: Outcome<Fifo>)
      requires limit > 0
      modifies this`facts, this`incidents, this`watch
      ensures incidents >= old(incidents) && watch == old(watch).(unread := false)
      ensures match r
              case Ok(Chunk(bytes)) =>
                && 0 < |bytes| <= limit && facts == old(facts).(stream := old(facts).stream + [bytes])
                && (Readiness.LastResult(facts.stream).Err? ==> incidents > old(incidents))
              case Ok(Nothing) => facts == old(facts)
              case Ok(Closed) => facts == old(facts) && incidents > old(incidents)
              case Err(_) => facts == old(facts) && incidents > old(incidents)
    {
      var fails: bool, hungUp: bool, bytes: seq<byte> := *, *, *;
      watch := watch.(unread := false);
      if fails || (bytes == [] && hungUp) {
        incidents := incidents + 1;
        return if fails then Err("read readiness FIFO") else Ok(Closed);
      }
      if bytes == [] {
        return Ok(Nothing);
      }
      var chunk := if |bytes| > limit then bytes[..limit] else bytes;
      facts := facts.(stream := facts.stream + [chunk]);
      if Readiness.LastResult(facts.stream).Err? {
        incidents := incidents + 1;
      }
      r := Ok(Chunk(chunk));
    }

    /** Time passes, at least one tick. */
    method Pass()
      modifies this`now
      ensures now > old(now)
    {
      var ticks: int := *;
      now := now + 1 + (if ticks > 0 then ticks else 0);
    }

    /** Sending over the control socket; once it has failed it fails for good. */
    method Send(m: Report) returns (sent: bool)
      requires Valid() && !run.now.course.Gone?
      requires !run.now.voice.Muted? ==> May(run.now, Event.Say(m))
      requires Truthful(facts, m)
      modifies this`broken, this`run, this`incidents
      ensures Valid()
      ensures run.now == if sent then AfterMessage(old(run.now), m) else old(run.now).(voice := Muted)
      ensures sent ==> !old(run.now).voice.Muted?
      ensures incidents == old(incidents) + if sent then 0 else 1
    {
      if broken {
        incidents := incidents + 1;
        return false;
      }
      sent := *;
      if sent {
        Say(m);
      } else {
        incidents := incidents + 1;
        Break();
      }
    }

    method Break()
      requires Valid() && May(run.now, SayFails)
      modifies this`broken, this`run
      ensures Valid() && run.now == old(run.now).(voice := Muted)
    {
      broken, run := true, Extended(run, SayFails, facts);
    }

    /** Before it waits, the helper has looked at its manager and at a ready action, and has read what there was. */
    ghost predicate Watched()
      reads this
    {
      && (run.now.manager ==> watch.manager == Some(now)) && (run.now.phase.Payload? ==> watch.ready == Some(now))
      && (run.now.phase.Spawned? ==> !watch.unread)
    }

    /** Waits for anything to happen; when patience has run out, something has. */
    method Poll() returns (ready: Outcome<bool>)
      requires Watched()
      modifies this`now, this`patience, this`polledAt, this`incidents, this`watch
      ensures now >= old(now) && polledAt == old(now) && watch == old(watch).(unread := ready == Ok(true))
      ensures incidents == old(incidents) + if ready.Err? then 1 else 0
      ensures patience < old(patience) || (old(patience) == 0 && patience == 0 && ready == Ok(true))
    {
      var ticks: int, fails: bool, any: bool := *, *, *;
      polledAt := now;
      now := now + (if ticks > 0 then ticks else 0);
      ready := if patience == 0 then Ok(true) else if fails then Err("poll failed") else Ok(any);
      patience := if patience == 0 then 0 else patience - 1;
      if ready.Err? {
        incidents := incidents + 1;
      }
      watch := watch.(unread := ready == Ok(true));
    }

    /** A signal, or the end of the control connection. */
    method ShutdownReady() returns (down: Outcome<bool>)
      requires Valid() && !run.now.course.Gone? && Listening(run.now)
      modifies this`run, this`incidents
      ensures Valid()
      ensures if down == Ok(true) then run.now == old(run.now).(course := Leaving) && EventSince(old(run), run) == Some(HangUp)
              else run == old(run)
      ensures incidents == old(incidents) + if down.Err? then 1 else 0
      ensures patience == 0 ==> down == Ok(true)
    {
      var hangs: bool, fails: bool := *, *;
      if hangs || patience == 0 {
        Emit(HangUp);
        return Ok(true);
      }
      if fails {
        incidents := incidents + 1;
      }
      down := if fails then Err("signal descriptor failed") else Ok(false);
    }

    /** The next command, if one has arrived; it may be any. */
    method Receive() returns (command: Outcome<Option<Command>>)
      requires Valid() && !run.now.course.Gone? && Listening(run.now)
      modifies this`run, this`facts, this`incidents
      ensures Valid() && incidents >= old(incidents)
      ensures match command
              case Ok(Some(c)) =>
                && run.now == After(old(run.now), Obey(c)) && EventSince(old(run), run) == Some(Obey(c))
                && facts == Told(old(facts), old(run.now).phase, c)
                && (Unwelcome(old(run.now).phase, c) ==> incidents > old(incidents))
              case Ok(None) => run == old(run) && facts == old(facts)
              case Err(_) => run == old(run) && facts == old(facts) && incidents > old(incidents)
    {
      var arrived: bool, fails: bool := *, *;
      if fails {
        incidents := incidents + 1;
        return Err("receive failed");
      }
      if !arrived {
        return Ok(None);
      }
      var c: Command := *;
      if Unwelcome(run.now.phase, c) {
        incidents := incidents + 1;
      }
      facts := Told(facts, run.now.phase, c);
      Emit(Obey(c));
      command := Ok(Some(c));
    }

    /** The control socket during a start attempt; anything that arrives ends the attempt. */
    method Interrupted() returns (r: Outcome<()>, down: bool)
      requires Valid() && !run.now.course.Gone? && (run.now.phase.Spawned? || run.now.phase.Payload?) && Listening(run.now)
      modifies this`run, this`facts, this`incidents
      ensures Valid() && run.now == if down then old(run.now).(course := Leaving) else old(run.now)
      ensures facts == old(facts) && (r.Ok? ==> !down && patience > 0 && run == old(run))
      ensures incidents >= old(incidents) + if r.Err? then 1 else 0
    {
      var over := ShutdownReady();
      if over.Err? {
        return Err(over.error), false;
      }
      if over.value {
        incidents := incidents + 1;
        return Err("shutdown requested during backend startup"), true;
      }
      r, down := Cancelled();
    }

    method Cancelled() returns (r: Outcome<()>, down: bool)
      requires Valid() && !run.now.course.Gone? && (run.now.phase.Spawned? || run.now.phase.Payload?) && Listening(run.now)
      modifies this`run, this`facts, this`incidents
      ensures Valid() && run.now == if down then old(run.now).(course := Leaving) else old(run.now)
      ensures facts == old(facts) && (r.Ok? ==> !down && run == old(run))
      ensures incidents >= old(incidents) + if r.Err? then 1 else 0
    {
      var command := Receive();
      if command.Err? {
        return Err(command.error), false;
      }
      if command.value.None? {
        return Ok(()), false;
      }
      ObeyedWhileStarting(old(run.now), command.value.value);
      incidents := incidents + 1;
      return Err("startup cancelled by daemon, or unexpected command"), command.value.value.Shutdown?;
    }
  }

  /** What is known of the helper in any valid world. */
  lemma WorldIsConsistent(world: World)
    requires world.Valid()
    ensures Consistent(world.run.now)
    ensures forall n :: n in world.run.now.readySerials ==> n <= world.run.now.serial
  {
    RecordedIsRun(world.run.past, world.run.now);
    RunKeepsConsistent(START, Events(world.run.past));
    RunIsTimely(START, Events(world.run.past));
  }

  lemma EventIsTimely(h: Helper, e: Event)
    requires forall n :: n in h.readySerials ==> n <= h.serial
    ensures forall n :: n in After(h, e).readySerials ==> n <= After(h, e).serial
  {
    if e.ReadyExitsZero? {
      assert After(h, e).serial == h.serial;
    }
  }

  /** Ready actions have succeeded only for start commands that were taken. */
  lemma {:induction false} RunIsTimely(h: Helper, trace: seq<Event>)
    requires forall n :: n in h.readySerials ==> n <= h.serial
    ensures forall n :: n in Run(h, trace).readySerials ==> n <= Run(h, trace).serial
    decreases |trace|
  {
    if trace == [] {
    } else {
      EventIsTimely(h, trace[0]);
      RunIsTimely(After(h, trace[0]), trace[1..]);
    }
  }

  /** During a start attempt no command but `Shutdown` changes the course of the helper. */
  lemma ObeyedWhileStarting(h: Helper, c: Command)
    requires (h.phase.Spawned? || h.phase.Payload?) && !h.Closing()
    ensures After(h, Obey(c)) == if c.Shutdown? then h.(course := Leaving) else h
  {
  }

  /** Nothing happened but that waits may have failed. */
  predicate OnlyWaited(before: Helper, now: Helper) {
    now == before || now == Disturbed(before)
  }

  /** After a failed wait. */
  function Disturbed(h: Helper): Helper {
    if h.waits.NoneFailed? then h.(waits := SomeFailed) else h
  }

  // ---- Children ----

  datatype Signal = Terminate | Kill

  /** A child may be waited for without a limit only when the last signal it was sent is SIGKILL. */
  predicate Doomed(sent: seq<(Signal, nat)>) {
    sent != [] && sent[|sent| - 1].0.Kill?
  }

  /**
    Signals of growing force, the first not before the graceful timeout has passed and the second
    not before the forced one.
   */
  predicate Escalates(sent: seq<(Signal, nat)>, start: nat, graceful: nat, forced: nat) {
    && |sent| <= 2
    && (|sent| > 0 ==> sent[0].0.Terminate? && sent[0].1 >= start + graceful)
    && (|sent| > 1 ==> sent[1].0.Kill? && sent[1].1 >= sent[0].1 + forced)
  }

  /**
    A process forked for a call; the one that runs the manager is watched by the automaton. How it
    will end is not known before it is reaped. `overdue` lists the timeouts after which waiting for it
    was given up.
   */
  class Child {
    const world: World
    const call: Call
    const pid: u32
    const fate: ProcessStatus
    var reaped: bool
    ghost var signals: seq<(Signal, nat)>
    ghost var overdue: seq<nat>

    ghost predicate Valid()
      reads this, world
    {
      world.Valid() && !world.run.now.course.Gone? && (call.RunManager? ==> world.run.now.manager == !reaped)
    }

    /** What is known when the child was forked. */
    ghost function Forked(f: Facts): Facts {
      if call.RunManager? then f.(pid := pid, exit := None, stream := [], ready := None) else f
    }

    /** What is known once the child was reaped. */
    ghost function Reaped(f: Facts): Facts {
      if call.RunManager? then f.(exit := Some(fate)) else if call.RunReady? then f.(ready := Some(fate)) else f
    }

    /** What was looked at once the child was. */
    ghost function Looked(w: Watch, now: nat): Watch {
      if call.RunManager? then w.(manager := Some(now)) else if call.RunReady? then w.(ready := Some(now)) else w
    }

    /** Once a ready action was reaped, the manager has to be looked at again. */
    ghost function Afresh(w: Watch): Watch {
      if call.RunReady? then w.(manager := None) else w
    }

    /** What the helper has once the child was reaped. */
    ghost function Without(h: Helper): Helper {
      if call.RunManager? then h.(manager := false) else h
    }

    /** The child was reaped now; only a manager, or a ready action that failed, is an incident. */
    ghost predicate HasReaped(h: Helper, f: Facts, n: nat)
      reads this, world
    {
      && reaped && world.run.now == Without(h) && world.facts == Reaped(f) && world.incidents >= n
      && (call.RunManager? || (call.RunReady? && fate != Exited(0)) ==> world.incidents > n)
    }

    ghost predicate HasFailed(h: Helper, f: Facts, n: nat)
      reads this, world
    {
      world.run.now == Disturbed(h) && world.facts == f && world.incidents > n
    }

    ghost predicate Untouched(run: Chronicle, f: Facts, n: nat)
      reads this, world
    {
      world.run == run && world.facts == f && world.incidents == n
    }

    /** `fork` for the latest call: for a manager the automaton must allow it. */
    constructor (world: World, call: Call)
      requires world.Valid() && !world.run.now.course.Gone? && world.Called(call)
      requires call.RunManager? ==> May(world.run.now, Fork)
      modifies world`run, world`facts, world`watch
      ensures Valid() && !reaped && signals == [] && overdue == [] && this.world == world && this.call == call
      ensures world.run.now == if call.RunManager? then After(old(world.run.now), Fork) else old(world.run.now)
      ensures world.facts == Forked(old(world.facts))
      ensures world.watch == if call.RunManager? then Watch(None, None, false) else old(world.watch)
    {
      var number: int, status: ProcessStatus := *, *;
      pid := if 0 <= number <= U32_MAX then number else 0;
      fate := status;
      this.world, this.call, reaped, signals, overdue := world, call, false, [], [];
      new;
      if call.RunManager? {
        world.Emit(Fork);
        world.watch := Watch(None, None, false);
      }
      world.facts := Forked(world.facts);
    }

    /** The kernel hands over how the child ended. */
    method KernelReaps()
      requires Valid() && !reaped
      modifies this`reaped, world`run, world`facts, world`incidents, world`watch
      ensures Valid() && world.watch == Afresh(old(world.watch))
      ensures HasReaped(old(world.run.now), old(world.facts), old(world.incidents))
    {
      world.facts, world.watch := Reaped(world.facts), Afresh(world.watch);
      if call.RunManager? || (call.RunReady? && fate != Exited(0)) {
        world.incidents := world.incidents + 1;
      }
      if call.RunManager? {
        world.Emit(Reap);
      }
      reaped := true;
    }

    ghost method WaitFailed()
      requires Valid()
      modifies world`run, world`incidents
      ensures Valid()
      ensures world.run.now == Disturbed(old(world.run.now)) && world.incidents > old(world.incidents)
    {
      world.incidents := world.incidents + 1;
      if world.run.now.waits.NoneFailed? {
        world.Emit(WaitFails);
      }
    }

    /** Sending a signal; whether it arrives is not looked at. */
    ghost method Send(signal: Signal)
      modifies this`signals
      ensures signals == old(signals) + [(signal, world.now)]
    {
      signals := signals + [(signal, world.now)];
    }

    method TryWait() returns (r: Outcome<Option<ProcessStatus>>)
      requires Valid()
      modifies this`reaped, world`run, world`facts, world`incidents, world`watch
      ensures Valid()
      ensures var looked := Looked(old(world.watch), world.now); world.watch == if reaped && !old(reaped) then Afresh(looked) else looked
      ensures match r
              case Ok(Some(status)) => !old(reaped) && status == fate && HasReaped(old(world.run.now), old(world.facts), old(world.incidents))
              case Ok(None) => reaped == old(reaped) && Untouched(old(world.run), old(world.facts), old(world.incidents))
              case Err(_) => !old(reaped) && !reaped && HasFailed(old(world.run.now), old(world.facts), old(world.incidents))
    {
      world.watch := Looked(world.watch, world.now);
      if reaped {
        return Ok(None);
      }
      var fails: bool, exited: bool := *, *;
      if fails {
        WaitFailed();
        return Err("waitpid failed");
      }
      if !exited {
        return Ok(None);
      }
      KernelReaps();
      r := Ok(Some(fate));
    }

    /** Waits until the child exits; interrupted calls are repeated. */
    method Wait() returns (r: Outcome<ProcessStatus>)
      requires Valid() && (reaped || Doomed(signals))
      modifies this`reaped, world`run, world`facts, world`incidents, world`watch
      ensures Valid()
      ensures match r
              case Ok(status) => !old(reaped) && status == fate && HasReaped(old(world.run.now), old(world.facts), old(world.incidents))
              case Err(_) =>
                && reaped == old(reaped)
                && if reaped then Untouched(old(world.run), old(world.facts), old(world.incidents))
                   else HasFailed(old(world.run.now), old(world.facts), old(world.incidents))
    {
      if reaped {
        return Err("child already reaped");
      }
      var fails: bool := *;
      if fails {
        WaitFailed();
        return Err("waitpid failed");
      }
      KernelReaps();
      r := Ok(fate);
    }

    /** Waits at most for `timeout` ticks, and gives up only when they have passed. */
    method WaitTimeout(timeout: nat) returns (r: Outcome<Option<ProcessStatus>>)
      requires Valid()
      modifies this`reaped, this`overdue, world`run, world`facts, world`incidents, world`watch, world`now
      ensures Valid() && world.now >= old(world.now)
      ensures match r
              case Ok(Some(status)) =>
                && !old(reaped) && status == fate && HasReaped(old(world.run.now), old(world.facts), old(world.incidents))
                && overdue == old(overdue)
              case Ok(None) =>
                && reaped == old(reaped) && Untouched(old(world.run), old(world.facts), old(world.incidents))
                && world.now >= old(world.now) + timeout && overdue == old(overdue) + [timeout]
              case Err(_) =>
                && reaped == old(reaped) && HasFailed(old(world.run.now), old(world.facts), old(world.incidents))
                && overdue == old(overdue)
    {
      var deadline := world.now + timeout;
      while true
        invariant Valid() && reaped == old(reaped) && overdue == old(overdue) && world.now >= old(world.now)
        invariant Untouched(old(world.run), old(world.facts), old(world.incidents))
        decreases deadline - world.now
      {
        var status :- TryWait();
        if status.Some? {
          return Ok(status);
        }
        if world.now >= deadline {
          overdue := overdue + [timeout];
          return Ok(None);
        }
        var fails: bool := *;
        if fails {
          WaitFailed();
          return Err("poll failed");
        }
        world.Pass();
      }
    }

    /** A child that is dropped is killed and reaped, unless the kernel refuses. */
    method Drop()
      requires Valid()
      modifies this`reaped, this`signals, world`run, world`facts, world`incidents, world`watch
      ensures world.Valid() && !world.run.now.course.Gone? && (call.RunManager? ==> !world.run.now.manager)
      ensures !call.RunManager? ==> OnlyWaited(old(world.run.now), world.run.now)
      ensures call.RunManager? ==>
                OnlyWaited(old(world.run.now).(manager := false), world.run.now)
      ensures world.incidents >= old(world.incidents)
      ensures world.facts == old(world.facts) || (!old(reaped) && world.facts == Reaped(old(world.facts)))
      ensures old(reaped) || Doomed(signals)
    {
      if !reaped {
        Send(Kill);
        var status := Wait();
        if !reaped && call.RunManager? {
          world.Emit(Abandon);
        }
      }
    }
  }

  // ---- The PAM lease ----

  /** The PAM transaction and session, as flags over abstract PAM calls. */
  class PamLease {
    const world: World
    var isOpen: bool
    var ended: bool
    var environment: map<string, string>

    ghost predicate Valid()
      reads this, world
    {
      && world.Valid() && !world.run.now.course.Gone?
      && match world.run.now.lease
         case Begun => !isOpen && !ended
         case Open => isOpen && !ended
         case Ended => !isOpen && ended
         case _ => false
    }

    /** After `pam_start` has succeeded. */
    constructor (world: World)
      requires world.Valid() && May(world.run.now, BeginPam)
      modifies world`run
      ensures Valid() && !isOpen && this.world == world
      ensures world.run.now == After(old(world.run.now), BeginPam)
    {
      this.world, isOpen, ended, environment := world, false, false, map[];
      new;
      world.Emit(BeginPam);
    }

    function Required(name: string): Option<string>
      reads this
    {
      Variable(environment, name)
    }

    /**
      Opens the session and reads its variables. A failure on the way drops the half-open lease,
      which ends the transaction.
     */
    static method Acquire(world: World) returns (r: Outcome<PamLease>)
      requires world.Valid() && May(world.run.now, BeginPam) && !world.run.now.manager
      modifies world`run, world`gaveUp, world`facts, world`incidents
      ensures world.incidents >= old(world.incidents)
      ensures match r
              case Ok(lease) =>
                && fresh(lease) && lease.world == world && lease.Valid() && lease.isOpen
                && world.run.now == old(world.run.now).(lease := Lease.Open) && world.gaveUp == old(world.gaveUp)
                && world.facts.variables == lease.environment
                && (!IsLease(lease.environment) ==> world.incidents > old(world.incidents))
              case Err(_) =>
                && world.Valid() && world.gaveUp && world.incidents > old(world.incidents)
                && (|| world.run.now == old(world.run.now).(course := Leaving)
                    || world.run.now == old(world.run.now).(course := Leaving, lease := Ended))
    {
      var starts: bool := *;
      if !starts {
        world.incidents := world.incidents + 1;
        world.GiveUp();
        return Err("pam_start failed");
      }
      var lease := new PamLease(world);
      var opens := lease.Open();
      if !opens {
        lease.Drop();
        return Err("pam_open_session failed");
      }
      r := Ok(lease);
    }

    /** A session that is not the lease it should be is an incident, but opens. */
    method Open() returns (opens: bool)
      requires Valid() && world.run.now.lease.Begun? && May(world.run.now, OpenSession)
      modifies this`isOpen, this`environment, world`run, world`gaveUp, world`facts, world`incidents
      ensures Valid() && world.incidents >= old(world.incidents)
      ensures opens ==>
                && isOpen && world.run.now == old(world.run.now).(lease := Lease.Open) && world.gaveUp == old(world.gaveUp)
                && world.facts.variables == environment && (!IsLease(environment) ==> world.incidents > old(world.incidents))
      ensures !opens ==>
                && !isOpen && world.run.now == old(world.run.now).(course := Leaving)
                && world.gaveUp && world.incidents > old(world.incidents)
    {
      var variables: map<string, string> := *;
      opens := *;
      if !opens || !IsLease(variables) {
        world.incidents := world.incidents + 1;
      }
      if opens {
        world.Emit(OpenSession);
        isOpen, environment := true, variables;
        world.facts := world.facts.(variables := variables);
      } else {
        world.GiveUp();
      }
    }

    /** Closes the session if it is open, and ends the transaction whether or not that worked. */
    method CloseInner() returns (r: Outcome<()>)
      requires Valid() && !ended && world.run.now.Closing() && !world.run.now.manager
      modifies this, world`run, world`incidents
      ensures Valid() && ended
      ensures world.run.now == old(world.run.now).(lease := Ended)
      ensures world.incidents == old(world.incidents) + if r.Err? then 1 else 0
    {
      var closes: bool, ends: bool := *, *;
      r := Ok(());
      if isOpen {
        world.Emit(CloseSession);
        isOpen := false;
        if !closes {
          world.incidents := world.incidents + 1;
          r := Err("pam_close_session failed");
        }
      }
      world.Emit(EndPam);
      ended := true;
      if r.Ok? && !ends {
        world.incidents := world.incidents + 1;
        r := Err("pam_end failed");
      }
    }

    method Close() returns (r: Outcome<()>)
      requires Valid() && !ended && world.run.now.Closing() && !world.run.now.manager
      modifies this, world`run, world`incidents
      ensures Valid() && ended
      ensures world.run.now == old(world.run.now).(lease := Ended)
      ensures world.incidents == old(world.incidents) + if r.Err? then 1 else 0
    {
      r := CloseInner();
      ended := true;
    }

    method Drop()
      requires Valid() && world.run.now.Closing() && !world.run.now.manager
      modifies this, world`run, world`incidents
      ensures Valid() && ended && world.incidents >= old(world.incidents)
      ensures world.run.now == old(world.run.now).(lease := Ended)
    {
      if !ended {
        var result := CloseInner();
      }
    }
  }
}
