/**
 * What a run of `execute_mission` guarantees, proved about the `Execute` specification that
 * `Worker.ExecuteMission` implements.
 */
module WorkerProperties {
  import opened Wrappers
  import opened Missions
  import opened RedisModel
  import opened Worker

  /** The commands published on `gnc_commands`, in publication order. */
  function Commands(log: seq<Publication>): seq<FlightCommand> {
    if log == [] then []
    else
      (if log[0].channel == GncChannel && log[0].message.CommandEvent? then [log[0].message.command] else [])
      + Commands(log[1..])
  }

  lemma {:induction false} CommandsAppend(a: seq<Publication>, b: seq<Publication>)
    ensures Commands(a + b) == Commands(a) + Commands(b)
    decreases |a|
  {
    if a == [] {
      assert a + b == b;
    } else {
      assert (a + b)[1..] == a[1..] + b;
      CommandsAppend(a[1..], b);
    }
  }

  /** An IN_PROGRESS event for mission `id`, or a command forwarded to flight control. */
  predicate Intermediate(id: string, p: Publication) {
    || (p.channel == StatusChannel && p.message.StatusEvent? && p.message.missionId == id
        && p.message.record.status == InProgress)
    || (p.channel == GncChannel && p.message.CommandEvent?)
  }

  /** No abort request for `id` among the first `n` messages of `inbox`. */
  predicate NoAbortWithin(inbox: seq<PubSubMessage>, n: nat, id: string) {
    forall k :: 0 <= k < n && k < |inbox| ==> !IsAbortFor(Some(inbox[k]), id)
  }

  function Drop(inbox: seq<PubSubMessage>, n: nat): seq<PubSubMessage> {
    if n >= |inbox| then [] else inbox[n..]
  }

  /** The reference log of steps `i .. j - 1` run without interruption: for each command,
      its "Executing command k+1/n" progress event, then the command itself. */
  function Forwarded(id: string, fp: seq<FlightCommand>, i: nat, j: nat): seq<Publication>
    requires i <= j <= |fp|
    requires forall k :: i <= k < j ==> Runnable(fp[k])
    decreases j - i
  {
    if i == j then []
    else
      assert Runnable(fp[i]);
      CommandPubs(id, fp, i) + Forwarded(id, fp, i + 1, j)
  }

  /** The pauses of an uninterrupted loop from step `i`. */
  function ExpectedSleeps(fp: seq<FlightCommand>, i: nat): seq<nat>
    requires i <= |fp|
    requires forall k :: i <= k < |fp| ==> Runnable(fp[k])
    decreases |fp| - i
  {
    if i == |fp| then [] else assert Runnable(fp[i]); [StepDelay(fp[i].delay).value] + ExpectedSleeps(fp, i + 1)
  }

  lemma {:induction false} ForwardedCommands(id: string, fp: seq<FlightCommand>, i: nat, j: nat)
    requires i <= j <= |fp|
    requires forall k :: i <= k < j ==> Runnable(fp[k])
    ensures Commands(Forwarded(id, fp, i, j)) == fp[i..j]
    decreases j - i
  {
    if i < j {
      ForwardedHead(id, fp, i, j);
      ForwardedCommands(id, fp, i + 1, j);
      SliceHead(fp, i, j);
    }
  }

  lemma SliceHead<T>(s: seq<T>, i: nat, j: nat)
    requires i < j <= |s|
    ensures s[i..j] == [s[i]] + s[i + 1..j]
  {
  }

  /** The first step of the reference log forwards its own command and nothing else. */
  lemma ForwardedHead(id: string, fp: seq<FlightCommand>, i: nat, j: nat)
    requires i < j <= |fp|
    requires forall k :: i <= k < j ==> Runnable(fp[k])
    ensures Commands(Forwarded(id, fp, i, j)) == [fp[i]] + Commands(Forwarded(id, fp, i + 1, j))
  {
    var pair := CommandPubs(id, fp, i);
    var rest := Forwarded(id, fp, i + 1, j);
    assert Forwarded(id, fp, i, j) == pair + rest;
    ProgressPairCommands(pair);
    CommandsAppend(pair, rest);
  }

  /** A progress event followed by a command forwards exactly that command. */
  lemma ProgressPairCommands(pair: seq<Publication>)
    requires |pair| == 2 && pair[0].channel == StatusChannel
    requires pair[1].channel == GncChannel && pair[1].message.CommandEvent?
    ensures Commands(pair) == [pair[1].message.command]
  {
    assert |StatusChannel| != |GncChannel|;
    assert Commands(pair) == Commands(pair[1..]);
    assert pair[1..][1..] == [];
  }

  /** A poll that finds no abort request leaves none in the rest of the window. */
  lemma PollPasses(inbox: seq<PubSubMessage>, n: nat, id: string)
    requires n > 0 && NoAbortWithin(inbox, n, id)
    ensures !IsAbortFor(Head(inbox), id) && NoAbortWithin(Tail(inbox), n - 1, id)
  {
    if inbox != [] {
      assert !IsAbortFor(Some(inbox[0]), id);
      var tail := Tail(inbox);
      forall k | 0 <= k < n - 1 && k < |tail|
        ensures !IsAbortFor(Some(tail[k]), id)
      {
        assert tail[k] == inbox[k + 1];
      }
    }
  }

  /** A runnable command whose poll finds no abort: progress and command go out, its delay
      is slept, and the loop goes on with the next command and the rest of the messages. */
  lemma RunnableStep(id: string, fp: seq<FlightCommand>, i: nat, inbox: seq<PubSubMessage>)
    requires i < |fp| && Runnable(fp[i]) && !IsAbortFor(Head(inbox), id)
    ensures var rest := Steps(id, fp, i + 1, Tail(inbox));
      Steps(id, fp, i, inbox)
        == StepsTrace(CommandPubs(id, fp, i) + rest.log, [StepDelay(fp[i].delay).value] + rest.sleeps, rest.unread, rest.end)
  {
  }

  /** With runnable commands and no abort request for this mission among the messages it
      polls, the loop publishes the reference log, polls once per command, and runs out. */
  lemma {:induction false} StepsWithoutAbort(id: string, fp: seq<FlightCommand>, i: nat, inbox: seq<PubSubMessage>)
    requires i <= |fp|
    requires forall k :: i <= k < |fp| ==> Runnable(fp[k])
    requires NoAbortWithin(inbox, |fp| - i, id)
    ensures Steps(id, fp, i, inbox)
         == StepsTrace(Forwarded(id, fp, i, |fp|), ExpectedSleeps(fp, i), Drop(inbox, |fp| - i), RanOut)
    decreases |fp| - i
  {
    if i < |fp| {
      PollPasses(inbox, |fp| - i, id);
      var tail := Tail(inbox);
      RunnableStep(id, fp, i, inbox);
      StepsWithoutAbort(id, fp, i + 1, tail);
      assert Drop(tail, |fp| - (i + 1)) == Drop(inbox, |fp| - i);
    }
  }

  /** The abort request for this mission that the loop polls before step `i + j` stops it
      there: commands `i .. i + j - 1` have been published, none after, and ABORTED is the
      last event. */
  lemma {:induction false} StepsUntilAbort(id: string, fp: seq<FlightCommand>, i: nat, inbox: seq<PubSubMessage>, j: nat)
    requires i + j < |fp| && j < |inbox|
    requires IsAbortFor(Some(inbox[j]), id)
    requires NoAbortWithin(inbox, j, id)
    requires forall k :: i <= k < i + j ==> Runnable(fp[k])
    ensures Steps(id, fp, i, inbox).end == AbortSeen
    ensures Steps(id, fp, i, inbox).log == Forwarded(id, fp, i, i + j) + [StatusPublication(id, Aborted, AbortDetails)]
    ensures Steps(id, fp, i, inbox).unread == inbox[j + 1..]
    decreases j
  {
    var t := Steps(id, fp, i, inbox);
    if j == 0 {
      assert Head(inbox) == Some(inbox[0]);
    } else {
      PollPasses(inbox, j, id);
      var tail := Tail(inbox);
      assert tail[j - 1] == inbox[j];
      StepsUntilAbort(id, fp, i + 1, tail, j - 1);
      RunnableStep(id, fp, i, inbox);
      var pair := CommandPubs(id, fp, i);
      assert tail[j..] == inbox[j + 1..];
      assert Forwarded(id, fp, i, i + j) == pair + Forwarded(id, fp, i + 1, i + j);
      AppendAssoc(pair, Forwarded(id, fp, i + 1, i + j), [StatusPublication(id, Aborted, AbortDetails)]);
    }
  }

  /** Whatever happens, the commands forwarded from step `i` on are the plan's commands from
      `i` on, in order, with none skipped; all of them when the loop runs out. */
  lemma {:induction false} StepsCommands(id: string, fp: seq<FlightCommand>, i: nat, inbox: seq<PubSubMessage>)
    requires i <= |fp|
    ensures Commands(Steps(id, fp, i, inbox).log) <= fp[i..]
    ensures Steps(id, fp, i, inbox).end == RanOut ==> Commands(Steps(id, fp, i, inbox).log) == fp[i..]
    decreases |fp| - i
  {
    if i < |fp| {
      var st := Step(id, fp, i, Head(inbox));
      var pubs := st.pubs;
      assert fp[i..] == [fp[i]] + fp[i + 1..];
      if IsAbortFor(Head(inbox), id) {
        assert Commands(pubs) == [] by { assert pubs[1..] == []; }
      } else if fp[i].command.None? {
      } else {
        var pair := CommandPubs(id, fp, i);
        assert pubs == pair;
        ProgressPairCommands(pair);
        if st.next.Success? {
          var rest := Steps(id, fp, i + 1, Tail(inbox));
          StepsCommands(id, fp, i + 1, Tail(inbox));
          CommandsAppend(pubs, rest.log);
        }
      }
    }
  }

  /** The loop ends in an abort only when one of the messages it polled is an abort request
      for this mission. */
  lemma {:induction false} StepsAbortEvidence(id: string, fp: seq<FlightCommand>, i: nat, inbox: seq<PubSubMessage>)
    requires i <= |fp|
    requires Steps(id, fp, i, inbox).end == AbortSeen
    ensures exists k :: 0 <= k < |inbox| && k < |fp| - i && IsAbortFor(Some(inbox[k]), id)
    decreases |fp| - i
  {
    if IsAbortFor(Head(inbox), id) {
      assert IsAbortFor(Some(inbox[0]), id);
    } else {
      var tail := Tail(inbox);
      StepsAbortEvidence(id, fp, i + 1, tail);
      var k :| 0 <= k < |tail| && k < |fp| - (i + 1) && IsAbortFor(Some(tail[k]), id);
      assert tail[k] == inbox[k + 1];
    }
  }

  /** Every publication of `log` is progress or a command. */
  predicate AllIntermediate(id: string, log: seq<Publication>) {
    forall k :: 0 <= k < |log| ==> Intermediate(id, log[k])
  }

  lemma AllIntermediateAppend(id: string, a: seq<Publication>, b: seq<Publication>)
    requires AllIntermediate(id, a) && AllIntermediate(id, b)
    ensures AllIntermediate(id, a + b)
  {
    assert forall k :: 0 <= k < |a + b| ==> (a + b)[k] == if k < |a| then a[k] else b[k - |a|];
  }

  /** A step that stops the loop: the abort request, a command without a name, or a delay
      that cannot be slept. */
  lemma StoppingStep(id: string, fp: seq<FlightCommand>, i: nat, inbox: seq<PubSubMessage>)
    requires i < |fp| && (IsAbortFor(Head(inbox), id) || !Runnable(fp[i]))
    ensures var t := Steps(id, fp, i, inbox);
      if IsAbortFor(Head(inbox), id) then t.log == [StatusPublication(id, Aborted, AbortDetails)] && t.end == AbortSeen
      else t.end != AbortSeen && (t.log == [] || t.log == CommandPubs(id, fp, i))
  {
  }

  /** Everything the loop publishes is progress or a command, except the ABORTED event that
      closes an aborted loop. */
  predicate LoopShape(id: string, log: seq<Publication>, end: LoopEnd) {
    if end == AbortSeen then
      && |log| > 0 && log[|log| - 1] == StatusPublication(id, Aborted, AbortDetails)
      && AllIntermediate(id, log[..|log| - 1])
    else AllIntermediate(id, log)
  }

  lemma ShapePrepend(id: string, pair: seq<Publication>, log: seq<Publication>, end: LoopEnd)
    requires AllIntermediate(id, pair) && LoopShape(id, log, end)
    ensures LoopShape(id, pair + log, end)
  {
    if end == AbortSeen {
      AllIntermediateAppend(id, pair, log[..|log| - 1]);
      assert (pair + log)[..|pair + log| - 1] == pair + log[..|log| - 1];
    } else {
      AllIntermediateAppend(id, pair, log);
    }
  }

  lemma {:induction false} StepsShape(id: string, fp: seq<FlightCommand>, i: nat, inbox: seq<PubSubMessage>)
    requires i <= |fp|
    ensures var t := Steps(id, fp, i, inbox); LoopShape(id, t.log, t.end)
    decreases |fp| - i
  {
    if i < |fp| {
      if IsAbortFor(Head(inbox), id) || !Runnable(fp[i]) {
        StoppingStep(id, fp, i, inbox);
        assert Steps(id, fp, i, inbox).log[..0] == [];
        if fp[i].command.Some? {
          assert AllIntermediate(id, CommandPubs(id, fp, i));
        }
      } else {
        var pair := CommandPubs(id, fp, i);
        var rest := Steps(id, fp, i + 1, Tail(inbox));
        RunnableStep(id, fp, i, inbox);
        StepsShape(id, fp, i + 1, Tail(inbox));
        assert AllIntermediate(id, pair);
        ShapePrepend(id, pair, rest.log, rest.end);
      }
    }
  }

  /** The record `execute_mission` leaves behind for its mission. */
  function TerminalRecord(o: TaskOutcome): StatusRecord {
    match o
    case Returned(s) => StatusRecord(s, if s == Completed then CompletedDetails else AbortDetails)
    case Raised(e) => StatusRecord(Failed, FailureDetails(e))
  }

  /** No `mission_id`: the task raises before publishing anything or reading the abort channel. */
  lemma MissingIdRaises(plan: MissionPlan, delivered: seq<PubSubMessage>)
    requires plan.missionId.None?
    ensures Execute(plan, delivered).outcome == Raised(MissingKey("mission_id"))
    ensures Execute(plan, delivered).log == [] && Execute(plan, delivered).unread == delivered
  {
  }

  /** A run with an id opens with IN_PROGRESS "Starting mission execution.", closes with the
      terminal record, and in between only reports progress and forwards commands; the
      outcome is COMPLETED, ABORTED or a raised error. */
  lemma {:induction false} StatusTrail(plan: MissionPlan, delivered: seq<PubSubMessage>)
    requires plan.missionId.Some?
    ensures var x := Execute(plan, delivered); var rec := TerminalRecord(x.outcome);
      && |x.log| >= 2
      && x.log[0] == StatusPublication(plan.missionId.value, InProgress, StartDetails)
      && x.log[|x.log| - 1] == StatusPublication(plan.missionId.value, rec.status, rec.details)
      && AllIntermediate(plan.missionId.value, x.log[1..|x.log| - 1])
    ensures var x := Execute(plan, delivered);
      x.outcome in {Returned(Completed), Returned(Aborted)} || x.outcome.Raised?
  {
    var id := plan.missionId.value;
    var t := Loop(id, plan, delivered);
    if plan.flightPlan.Some? {
      StepsShape(id, plan.flightPlan.value, 0, delivered);
    }
    TrailAroundLoop(id, t.log, t.end);
  }

  /** The start event, a loop of the right shape and its finale make a trail that opens with
      the start, closes with the terminal record and holds only progress in between. */
  lemma TrailAroundLoop(id: string, log: seq<Publication>, end: LoopEnd)
    requires LoopShape(id, log, end)
    ensures var x := [StatusPublication(id, InProgress, StartDetails)] + log + Finale(id, end);
      var rec := TerminalRecord(OutcomeOf(end));
      && |x| >= 2
      && x[0] == StatusPublication(id, InProgress, StartDetails)
      && x[|x| - 1] == StatusPublication(id, rec.status, rec.details)
      && AllIntermediate(id, x[1..|x| - 1])
  {
    var x := [StatusPublication(id, InProgress, StartDetails)] + log + Finale(id, end);
    if end == AbortSeen {
      assert x[1..|x| - 1] == log[..|log| - 1];
    } else {
      assert x[1..|x| - 1] == log;
    }
  }

  /** Once the task is done, the store holds its terminal record for the mission, whatever it
      held before. */
  lemma StoredTerminalRecord(plan: MissionPlan, delivered: seq<PubSubMessage>, store: map<string, StatusRecord>)
    requires plan.missionId.Some?
    ensures var x := Execute(plan, delivered);
      StatusKey(plan.missionId.value) in Replay(store, x.log)
      && Replay(store, x.log)[StatusKey(plan.missionId.value)] == TerminalRecord(x.outcome)
  {
    var x := Execute(plan, delivered);
    StatusTrail(plan, delivered);
    LastStatusEventWins(store, x.log, plan.missionId.value, TerminalRecord(x.outcome));
  }

  /** The commands forwarded to flight control are always a prefix of the flight plan, in
      plan order; the whole plan exactly when the mission completes. */
  lemma {:induction false} CommandsFollowPlan(plan: MissionPlan, delivered: seq<PubSubMessage>)
    ensures plan.flightPlan.None? ==> Commands(Execute(plan, delivered).log) == []
    ensures plan.flightPlan.Some? ==> Commands(Execute(plan, delivered).log) <= plan.flightPlan.value
    ensures Execute(plan, delivered).outcome == Returned(Completed)
        ==> plan.flightPlan.Some? && Commands(Execute(plan, delivered).log) == plan.flightPlan.value
  {
    if plan.missionId.Some? {
      LoopCommands(plan, delivered);
      if plan.flightPlan.Some? {
        StepsCommands(plan.missionId.value, plan.flightPlan.value, 0, delivered);
      }
    }
  }

  /** The status events around the loop forward no command. */
  lemma LoopCommands(plan: MissionPlan, delivered: seq<PubSubMessage>)
    requires plan.missionId.Some?
    ensures Commands(Execute(plan, delivered).log) == Commands(Loop(plan.missionId.value, plan, delivered).log)
  {
    var id := plan.missionId.value;
    var t := Loop(id, plan, delivered);
    var start := StatusPublication(id, InProgress, StartDetails);
    var fin := Finale(id, t.end);
    assert Commands([start]) == [];
    assert Commands(fin) == [] by {
      if fin != [] { assert fin[1..] == []; }
    }
    CommandsAppend([start], t.log);
    CommandsAppend([start] + t.log, fin);
  }

  /** The task reports ABORTED only after polling an abort request for this very mission,
      before one of the plan's commands. */
  lemma AbortedOnlyOnRequest(plan: MissionPlan, delivered: seq<PubSubMessage>)
    requires Execute(plan, delivered).outcome == Returned(Aborted)
    ensures plan.missionId.Some? && plan.flightPlan.Some?
    ensures exists k :: 0 <= k < |delivered| && k < |plan.flightPlan.value|
                        && IsAbortFor(Some(delivered[k]), plan.missionId.value)
  {
    StepsAbortEvidence(plan.missionId.value, plan.flightPlan.value, 0, delivered);
  }

  /** With every command runnable and no abort request for the mission among the messages
      polled, the task forwards the whole plan, each command after its progress event,
      sleeps each command's delay, reads one message per command, and completes. */
  lemma CompletesWithoutAbort(plan: MissionPlan, delivered: seq<PubSubMessage>)
    requires plan.missionId.Some? && plan.flightPlan.Some?
    requires forall k :: 0 <= k < |plan.flightPlan.value| ==> Runnable(plan.flightPlan.value[k])
    requires NoAbortWithin(delivered, |plan.flightPlan.value|, plan.missionId.value)
    ensures var x := Execute(plan, delivered); var id := plan.missionId.value; var fp := plan.flightPlan.value;
      && x.outcome == Returned(Completed)
      && x.log == [StatusPublication(id, InProgress, StartDetails)] + Forwarded(id, fp, 0, |fp|)
                  + [StatusPublication(id, Completed, CompletedDetails)]
      && x.sleeps == ExpectedSleeps(fp, 0)
      && x.unread == Drop(delivered, |fp|)
  {
    StepsWithoutAbort(plan.missionId.value, plan.flightPlan.value, 0, delivered);
  }

  /** An empty flight plan forwards no command, reads no abort message, and completes with
      just the opening and closing status events. */
  lemma EmptyPlanCompletes(plan: MissionPlan, delivered: seq<PubSubMessage>)
    requires plan.missionId.Some? && plan.flightPlan == Some([])
    ensures var x := Execute(plan, delivered); var id := plan.missionId.value;
      && x.outcome == Returned(Completed)
      && x.log == [StatusPublication(id, InProgress, StartDetails), StatusPublication(id, Completed, CompletedDetails)]
      && Commands(x.log) == [] && x.sleeps == [] && x.unread == delivered
  {
    var x := Execute(plan, delivered);
    CommandsFollowPlan(plan, delivered);
  }

  /** The first abort request for the mission, polled before command `j`, stops the run
      there: commands `0 .. j - 1` went out, ABORTED is the last event, the messages after
      the request stay unread. */
  lemma AbortStopsAtRequest(plan: MissionPlan, delivered: seq<PubSubMessage>, j: nat)
    requires plan.missionId.Some? && plan.flightPlan.Some?
    requires j < |plan.flightPlan.value| && j < |delivered|
    requires IsAbortFor(Some(delivered[j]), plan.missionId.value)
    requires NoAbortWithin(delivered, j, plan.missionId.value)
    requires forall k :: 0 <= k < j ==> Runnable(plan.flightPlan.value[k])
    ensures var x := Execute(plan, delivered); var id := plan.missionId.value; var fp := plan.flightPlan.value;
      && x.outcome == Returned(Aborted)
      && x.log == [StatusPublication(id, InProgress, StartDetails)] + Forwarded(id, fp, 0, j)
                  + [StatusPublication(id, Aborted, AbortDetails)]
      && x.unread == delivered[j + 1..]
  {
    var id := plan.missionId.value;
    var fp := plan.flightPlan.value;
    StepsUntilAbort(id, fp, 0, delivered, j);
    var start := [StatusPublication(id, InProgress, StartDetails)];
    AppendAssoc(start, Forwarded(id, fp, 0, j), [StatusPublication(id, Aborted, AbortDetails)]);
    assert Execute(plan, delivered).log == start + Steps(id, fp, 0, delivered).log + [];
  }

  /** The exception the loop body raises on a command it cannot get through. */
  function StepError(c: FlightCommand): WorkerError
    requires !Runnable(c)
  {
    if c.command.None? then MissingKey("command") else StepDelay(c.delay).error
  }

  /** What a failing step publishes before raising: nothing when `command` is missing, its
      progress event and the command itself when only the delay is bad. */
  function FailingStepPubs(id: string, fp: seq<FlightCommand>, i: nat): seq<Publication>
    requires i < |fp|
  {
    if fp[i].command.None? then [] else CommandPubs(id, fp, i)
  }

  lemma {:induction false} StepsUntilFailure(id: string, fp: seq<FlightCommand>, i: nat, inbox: seq<PubSubMessage>, j: nat)
    requires i + j < |fp| && !Runnable(fp[i + j])
    requires NoAbortWithin(inbox, j + 1, id)
    requires forall k :: i <= k < i + j ==> Runnable(fp[k])
    ensures Steps(id, fp, i, inbox).end == StepFailed(StepError(fp[i + j]))
    ensures Steps(id, fp, i, inbox).log == Forwarded(id, fp, i, i + j) + FailingStepPubs(id, fp, i + j)
    decreases j
  {
    PollPasses(inbox, j + 1, id);
    if j > 0 {
      var tail := Tail(inbox);
      StepsUntilFailure(id, fp, i + 1, tail, j - 1);
      RunnableStep(id, fp, i, inbox);
      var pair := CommandPubs(id, fp, i);
      assert Forwarded(id, fp, i, i + j) == pair + Forwarded(id, fp, i + 1, i + j);
      AppendAssoc(pair, Forwarded(id, fp, i + 1, i + j), FailingStepPubs(id, fp, i + j));
    }
  }

  /** The first command that cannot be run, reached before any abort request, fails the
      task with that command's exception; a command with a bad delay has already been
      forwarded when the sleep raises. */
  lemma FailsAtFirstBadCommand(plan: MissionPlan, delivered: seq<PubSubMessage>, j: nat)
    requires plan.missionId.Some? && plan.flightPlan.Some?
    requires j < |plan.flightPlan.value| && !Runnable(plan.flightPlan.value[j])
    requires forall k :: 0 <= k < j ==> Runnable(plan.flightPlan.value[k])
    requires NoAbortWithin(delivered, j + 1, plan.missionId.value)
    ensures var x := Execute(plan, delivered); var fp := plan.flightPlan.value;
      && x.outcome == Raised(StepError(fp[j]))
      && Commands(x.log) == if fp[j].command.None? then fp[..j] else fp[..j + 1]
  {
    var id := plan.missionId.value;
    var fp := plan.flightPlan.value;
    StepsUntilFailure(id, fp, 0, delivered, j);
    LoopCommands(plan, delivered);
    FailingLogCommands(id, fp, j);
  }

  lemma FailingLogCommands(id: string, fp: seq<FlightCommand>, j: nat)
    requires j < |fp|
    requires forall k :: 0 <= k < j ==> Runnable(fp[k])
    ensures Commands(Forwarded(id, fp, 0, j) + FailingStepPubs(id, fp, j))
         == if fp[j].command.None? then fp[..j] else fp[..j + 1]
  {
    var fwd := Forwarded(id, fp, 0, j);
    var failing := FailingStepPubs(id, fp, j);
    ForwardedCommands(id, fp, 0, j);
    CommandsAppend(fwd, failing);
    if fp[j].command.Some? {
      ProgressPairCommands(failing);
      assert fp[..j + 1] == fp[0..j] + [fp[j]];
    } else {
      assert fp[..j] == fp[0..j];
    }
  }
}
