/**
  The language of a helper's messages, given as a grammar, and when a run speaks it.

    conversation ::= [] | Fatal | LeaseOpened attempts
    attempts     ::= [] | ShutdownComplete | StartFailed attempts | ManagerSpawned after-spawn
    after-spawn  ::= [] | ReadinessPayload after-payload | ManagerExited after-exit
    after-payload::= [] | ReadySucceeded after-ready | ManagerExited after-exit
    after-exit   ::= [] | ShutdownComplete | StartFailed attempts
    after-ready  ::= [] | ManagerExited attempts
 */
module Conversations {
  import opened Prelude
  import opened Messages
  import opened Helpers

  predicate Conversation(w: seq<Report>) {
    || w == []
    || (|w| == 1 && w[0].Fatal?)
    || (w[0].LeaseOpened? && Attempts(w[1..]))
  }

  predicate Attempts(w: seq<Report>)
    decreases |w|
  {
    || w == []
    || (|w| == 1 && w[0].ShutdownComplete?)
    || (w[0].StartFailed? && Attempts(w[1..]))
    || (w[0].ManagerSpawned? && AfterSpawn(w[1..], false))
  }

  predicate AfterSpawn(w: seq<Report>, payload: bool)
    decreases |w|
  {
    || w == []
    || (!payload && w[0].ReadinessPayload? && AfterSpawn(w[1..], true))
    || (payload && w[0].ReadySucceeded? && AfterReady(w[1..]))
    || (w[0].ManagerExited? && AfterExit(w[1..]))
  }

  predicate AfterExit(w: seq<Report>)
    decreases |w|
  {
    || w == []
    || (|w| == 1 && w[0].ShutdownComplete?)
    || (w[0].StartFailed? && Attempts(w[1..]))
  }

  predicate AfterReady(w: seq<Report>)
    decreases |w|
  {
    w == [] || (w[0].ManagerExited? && Attempts(w[1..]))
  }

  /** What may still be said from a given point of a run; nothing once an exit goes unreported. */
  predicate MayFollow(h: Helper, w: seq<Report>) {
    if h.voice.Finished? || h.waits.StopFailed? then w == []
    else match h.phase
      case Boot => Conversation(w)
      case AwaitAccept => Attempts(w)
      case Idle => Attempts(w)
      case Launching => Attempts(w)
      case Spawned => AfterSpawn(w, false)
      case Payload => AfterSpawn(w, true)
      case Failing => AfterExit(w)
      case Running => AfterReady(w)
  }

  /** After the first failed stop nothing is said. */
  predicate SilentAfterStop(trace: seq<Event>) {
    trace == [] || (if trace[0].StopFails? then Said(trace[1..]) == [] else SilentAfterStop(trace[1..]))
  }

  lemma SilentStep(h: Helper, e: Event, w: seq<Report>)
    requires Consistent(h) && May(h, e) && !e.Say? && !e.StopFails?
    ensures MayFollow(h, w) <==> MayFollow(After(h, e), w)
  {
  }

  lemma SpokenStep(h: Helper, m: Report, w: seq<Report>)
    requires Consistent(h) && May(h, Say(m)) && !h.waits.StopFailed?
    ensures MayFollow(h, [m] + w) <==> MayFollow(After(h, Say(m)), w)
  {
    assert ([m] + w)[0] == m && ([m] + w)[1..] == w;
  }

  /** What is said first after a failed stop belongs to no manager that has been reported. */
  lemma {:induction false} FirstAfterFailedStop(h: Helper, trace: seq<Event>)
    requires Consistent(h) && h.waits.StopFailed? && Possible(h, trace)
    ensures Said(trace) != [] ==> Said(trace)[0].StartFailed? || Said(trace)[0].ShutdownComplete?
    decreases |trace|
  {
    if trace != [] && !trace[0].Say? {
      EventKeepsConsistent(h, trace[0]);
      FirstAfterFailedStop(After(h, trace[0]), trace[1..]);
      assert Said(trace) == Said(trace[1..]);
    }
  }

  lemma {:induction false} SaidFollowsIffSilent(h: Helper, trace: seq<Event>)
    requires Consistent(h) && !h.waits.StopFailed? && Possible(h, trace)
    ensures MayFollow(h, Said(trace)) <==> SilentAfterStop(trace)
    decreases |trace|
  {
    if trace == [] {
    } else {
      var e := trace[0];
      EventKeepsConsistent(h, e);
      if e.StopFails? {
        FirstAfterFailedStop(After(h, e), trace[1..]);
        assert Said(trace) == Said(trace[1..]);
      } else {
        SaidFollowsIffSilent(After(h, e), trace[1..]);
        if e.Say? {
          SpokenStep(h, e.message, Said(trace[1..]));
        } else {
          assert Said(trace) == Said(trace[1..]);
          SilentStep(h, e, Said(trace));
        }
      }
    }
  }

  lemma {:induction false} SaidSomething(trace: seq<Event>)
    ensures Said(trace) == [] <==> forall j :: 0 <= j < |trace| ==> !trace[j].Say?
  {
    if trace == [] {
    } else {
      SaidSomething(trace[1..]);
      assert trace == [trace[0]] + trace[1..];
    }
  }

  lemma {:induction false} SilentByPosition(trace: seq<Event>)
    ensures SilentAfterStop(trace) <==>
            forall i, j :: 0 <= i < j < |trace| && trace[i].StopFails? ==> !trace[j].Say?
  {
    if trace == [] {
    } else {
      var rest := trace[1..];
      SilentByPosition(rest);
      SaidSomething(rest);
      assert forall i :: 0 <= i < |rest| ==> rest[i] == trace[i + 1];
      if trace[0].StopFails? {
        assert forall j :: 0 < j < |trace| ==> trace[j] == rest[j - 1];
      }
    }
  }

  /**
    A helper's messages form a conversation exactly when nothing was said after stopping a manager
    had failed. Only a start attempt goes on to say something then: that it failed.
   */
  lemma ConversationIffStopsReported(trace: seq<Event>)
    requires Possible(START, trace)
    ensures Conversation(Said(trace)) <==>
            forall i, j :: 0 <= i < j < |trace| && trace[i].StopFails? ==> !trace[j].Say?
  {
    SaidFollowsIffSilent(START, trace);
    SilentByPosition(trace);
  }

  /** Whenever stopping a manager succeeds, whatever other waits fail, the messages follow the grammar. */
  lemma StoppedRunsConverse(trace: seq<Event>)
    requires Possible(START, trace) && StopFails !in trace
    ensures Conversation(Said(trace))
  {
    ConversationIffStopsReported(trace);
  }

  lemma {:induction false} CleanRunsStop(h: Helper, trace: seq<Event>)
    requires h.waits.NoneFailed? && Possible(h, trace) && WaitFails !in trace
    ensures StopFails !in trace
    decreases |trace|
  {
    if trace == [] {
    } else {
      assert trace == [trace[0]] + trace[1..];
      CleanRunsStop(After(h, trace[0]), trace[1..]);
    }
  }

  /** In particular as long as no wait for a child fails. */
  lemma CleanRunsConverse(trace: seq<Event>)
    requires Possible(START, trace) && WaitFails !in trace
    ensures Conversation(Said(trace))
  {
    CleanRunsStop(START, trace);
    StoppedRunsConverse(trace);
  }

  /** A stop that fails in a start attempt, which is then reported as failed. */
  const UNREPORTED_EXIT: seq<Event> :=
    LAUNCHING_RUN + [Say(ManagerSpawned(7)), WaitFails, StopFails, Reap, Say(StartFailed("waitpid failed"))]

  lemma StopCanFail(trace: seq<Event>)
    requires |trace| >= 10 && Reaches(START, trace, 7, LAUNCHED)
    requires trace[7] == Say(ManagerSpawned(7)) && trace[8] == WaitFails && trace[9] == StopFails
    ensures Reaches(START, trace, 10, LAUNCHED.(phase := Spawned, waits := Waits.StopFailed))
  {
    ReachMore(START, trace, 7, LAUNCHED);
    ReachMore(START, trace, 8, LAUNCHED.(phase := Spawned));
    FailedStopIsPossible(trace);
  }

  lemma FailedStopIsPossible(trace: seq<Event>)
    requires |trace| >= 10 && Reaches(START, trace, 9, LAUNCHED.(phase := Spawned, waits := SomeFailed)) && trace[9] == StopFails
    ensures Reaches(START, trace, 10, LAUNCHED.(phase := Spawned, waits := Waits.StopFailed))
  {
    ReachMore(START, trace, 9, LAUNCHED.(phase := Spawned, waits := SomeFailed));
  }

  lemma UnreportedExitIsPossible(trace: seq<Event>)
    requires |trace| == 12 && Reaches(START, trace, 10, LAUNCHED.(phase := Spawned, waits := Waits.StopFailed))
    requires trace[10] == Reap && trace[11] == Say(StartFailed("waitpid failed"))
    ensures Possible(START, trace)
  {
    ReachMore(START, trace, 10, LAUNCHED.(phase := Spawned, waits := Waits.StopFailed));
    ReachMore(START, trace, 11, LAUNCHED.(phase := Spawned, waits := Waits.StopFailed, manager := false));
    assert trace[..12] == trace;
  }

  /** With such a stop they do not: the start fails without a report that the manager exited. */
  lemma FailedStopBreaksConversation()
    ensures Possible(START, UNREPORTED_EXIT) && !Conversation(Said(UNREPORTED_EXIT))
    ensures forall e :: e in UNREPORTED_EXIT && e.Say? ==> Speakable(e.message)
  {
    var trace := UNREPORTED_EXIT;
    assert trace[..7] == LAUNCHING_RUN;
    LaunchIsPossible(trace);
    StopCanFail(trace);
    UnreportedExitIsPossible(trace);
    ConversationIffStopsReported(trace);
    assert trace[9].StopFails? && trace[11].Say?;
  }

  // ---- What the grammar means for one manager after another ----

  function Spawns(w: seq<Report>): nat {
    if w == [] then 0 else (if w[0].ManagerSpawned? then 1 else 0) + Spawns(w[1..])
  }

  function Exits(w: seq<Report>): nat {
    if w == [] then 0 else (if w[0].ManagerExited? then 1 else 0) + Exits(w[1..])
  }

  lemma {:induction false} AttemptsBalance(w: seq<Report>)
    ensures Attempts(w) || AfterExit(w) ==> Exits(w) <= Spawns(w) <= Exits(w) + 1
    ensures AfterSpawn(w, true) || AfterSpawn(w, false) || AfterReady(w) ==> Spawns(w) <= Exits(w) <= Spawns(w) + 1
    decreases |w|
  {
    if w == [] {
    } else {
      AttemptsBalance(w[1..]);
    }
  }

  lemma {:induction false} AttemptsPrefix(w: seq<Report>, i: nat)
    requires i <= |w|
    ensures Attempts(w) ==> Attempts(w[..i])
    ensures AfterExit(w) ==> AfterExit(w[..i])
    ensures AfterReady(w) ==> AfterReady(w[..i])
    ensures forall p :: AfterSpawn(w, p) ==> AfterSpawn(w[..i], p)
    decreases |w|
  {
    if i == 0 {
    } else {
      AttemptsPrefix(w[1..], i - 1);
      assert w[..i][1..] == w[1..][..i - 1];
    }
  }

  /** Managers come one at a time: at every point, all spawned ones but at most the last have exited. */
  lemma OneManagerAtATime(w: seq<Report>, i: nat)
    requires Conversation(w) && i <= |w|
    ensures Conversation(w[..i])
    ensures Exits(w[..i]) <= Spawns(w[..i]) <= Exits(w[..i]) + 1
  {
    if 0 < i {
      AttemptsPrefix(w[1..], i - 1);
      assert w[..i][1..] == w[1..][..i - 1];
      AttemptsBalance(w[..i][1..]);
      if w[0].Fatal? {
        assert w[..i] == w && Spawns(w[1..]) == 0;
      }
    }
  }
}
