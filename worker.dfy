/**
 * The Celery task that executes one mission plan: it reports IN_PROGRESS, walks the plan's
 * `flight_plan` in order (polling the abort channel once before each command, reporting
 * progress, forwarding the command to flight control and sleeping), and ends COMPLETED,
 * ABORTED, or FAILED with the error re-raised; the abort subscription is released on every
 * path. `Execute` says what one run does; `ExecuteMission` does it against the store.
 */
module Worker {
  import opened Wrappers
  import opened Text
  import opened Missions
  import opened RedisModel

  /** The Python exceptions a run can meet: a missing key (`KeyError`), a delay too large for
      a float (the division raises `OverflowError`), a delay whose nanosecond count does not
      fit the clock's signed 64-bit type (`time.sleep` raises `OverflowError`), a negative
      delay (`time.sleep` raises `ValueError`), a delay that is not a number (`TypeError`). */
  datatype WorkerError =
    | MissingKey(key: string)
    | FloatOverflow
    | SleepOverflow
    | NegativeSleep
    | BadDelayOperand(typeName: string)

  const NegativeSleepText := "sleep length must be non-negative"
  const FloatOverflowText := "int too large to convert to float"
  // Two literals, so that the verifier sees the first character of the message.
  const SleepOverflowText := "timestamp too large" + " to convert to C _PyTime_t"

  /** `str(e)` for each of those exceptions: a `KeyError` shows the missing key in quotes, the
      `TypeError` names the operand's type. */
  function ErrorText(e: WorkerError): (t: string)
    ensures |t| >= 2 && (e.MissingKey? <==> t[0] == '\'')
    ensures e.MissingKey? ==> t[1..|t| - 1] == e.key
    ensures e.BadDelayOperand? ==> |t| >= 49 && t[36..|t| - 13] == e.typeName
    ensures e.NegativeSleep? ==> t == NegativeSleepText
    ensures e.SleepOverflow? ==> t == SleepOverflowText
    ensures e.FloatOverflow? ==> t == FloatOverflowText
  {
    match e
    case MissingKey(k) => "'" + k + "'"
    case FloatOverflow => FloatOverflowText
    case SleepOverflow => SleepOverflowText
    case NegativeSleep => NegativeSleepText
    case BadDelayOperand(t) => "unsupported operand type(s) for /: '" + t + "' and 'float'"
  }

  /** Distinct exceptions have distinct texts, so a FAILED record names the error it reports. */
  lemma ErrorTextInjective(e1: WorkerError, e2: WorkerError)
    requires ErrorText(e1) == ErrorText(e2)
    ensures e1 == e2
  {
  }

  const StartDetails := "Starting mission execution."
  const AbortDetails := "Mission aborted by operator."
  const CompletedDetails := "All mission commands executed successfully."

  function FailureDetails(e: WorkerError): string {
    "An error occurred: " + ErrorText(e)
  }

  /** "Executing command {i+1}/{n}: {command}". */
  function ProgressDetails(i: nat, n: nat, name: string): string {
    "Executing command " + NatToDecimal(i + 1) + "/" + NatToDecimal(n) + ": " + name
  }

  /** 2^1024 - 2^970: the least magnitude an `int` rounds to infinity at when Python converts
      it to a float (halfway above the largest double, with ties to even), so
      `delay_ms / 1000.0` raises before `time.sleep` is reached. */
  const FloatRange: int := 0xFF_FFFF_FFFF_FFFC00000000000000000000000000000000000000000000000000000000000000000000000000000000000000000000000000000000000000000000000000000000000000000000000000000000000000000000000000000000000000000000000000000000000000000000000000000000000000000000000000

  /** 10^100, to write the delays beyond a float's range. */
  const Googol: int := 10000000000000000000000000000000000000000000000000000000000000000000000000000000000000000000000000000

  /** A delay of `ms` milliseconds converts to a float. */
  predicate FloatFits(ms: int) {
    -FloatRange < ms < FloatRange
  }

  /** 2^63: `time.sleep` converts its argument to nanoseconds in a signed 64-bit integer
      before it looks at the sign. */
  const NanosecondRange: int := 0x8000_0000_0000_0000

  /** A delay of `ms` milliseconds is a nanosecond count the clock type can hold. */
  predicate SleepFits(ms: int) {
    -NanosecondRange <= ms * 1_000_000 < NanosecondRange
  }

  /** The pause after a command, in milliseconds: `delay_ms`, or 1000 when it is absent; the
      error Python raises when the value cannot be slept. The division fails first on a delay
      too large for a float; then the range check comes before the sign, so an out-of-range
      negative delay raises `OverflowError`, not `ValueError`. */
  function StepDelay(d: DelayField): (r: Result<nat, WorkerError>)
    ensures d.NoDelay? ==> r == Success(1000)
    ensures d.DelayMillis? ==> (r.Success? <==> 0 <= d.ms && SleepFits(d.ms))
    ensures d.DelayMillis? && r.Success? ==> r.value == d.ms
    ensures d.DelayMillis? && !FloatFits(d.ms) ==> r == Failure(FloatOverflow)
    ensures d.DelayMillis? && FloatFits(d.ms) && !SleepFits(d.ms) ==> r == Failure(SleepOverflow)
    ensures d.DelayMillis? && SleepFits(d.ms) && d.ms < 0 ==> r == Failure(NegativeSleep)
    ensures d.DelayNotNumber? ==> r == Failure(BadDelayOperand(d.typeName))
  {
    match d
    case NoDelay => Success(1000)
    case DelayMillis(ms) =>
      if !FloatFits(ms) then Failure(FloatOverflow)
      else if !SleepFits(ms) then Failure(SleepOverflow)
      else if ms < 0 then Failure(NegativeSleep)
      else Success(ms)
    case DelayNotNumber(t) => Failure(BadDelayOperand(t))
  }

  /** Ten billion seconds cannot be slept in either direction, and the sign is never looked at;
      the largest delays the clock holds are slept; 10^309 ms already fails in the division,
      as does the float threshold itself, while one below it reaches `time.sleep`. */
  lemma SleepRangeEdges()
    ensures StepDelay(DelayMillis(Googol * Googol * Googol * 1_000_000_000)) == Failure(FloatOverflow)
    ensures StepDelay(DelayMillis(-FloatRange)) == Failure(FloatOverflow)
    ensures StepDelay(DelayMillis(FloatRange - 1)) == Failure(SleepOverflow)
    ensures StepDelay(DelayMillis(10_000_000_000_000)) == Failure(SleepOverflow)
    ensures StepDelay(DelayMillis(-10_000_000_000_000)) == Failure(SleepOverflow)
    ensures StepDelay(DelayMillis(9_223_372_036_854)) == Success(9_223_372_036_854)
    ensures StepDelay(DelayMillis(-1)) == Failure(NegativeSleep)
  {
  }

  /** `message and message['type'] == 'message' and message['data'] == mission_id`. */
  predicate IsAbortFor(m: Option<PubSubMessage>, id: string) {
    m.Some? && m.value.kind == "message" && m.value.data == id
  }

  /** A command the loop gets through without raising: it has a `command` and a usable delay. */
  predicate Runnable(c: FlightCommand) {
    c.command.Some? && StepDelay(c.delay).Success?
  }

  function Head(inbox: seq<PubSubMessage>): Option<PubSubMessage> {
    if inbox == [] then None else Some(inbox[0])
  }

  function Tail(inbox: seq<PubSubMessage>): seq<PubSubMessage> {
    if inbox == [] then [] else inbox[1..]
  }

  /** How the command loop ends: it runs out of commands, it sees an abort, or a step raises. */
  datatype LoopEnd = RanOut | AbortSeen | StepFailed(error: WorkerError)

  /** One pass of the loop body: what it publishes, and either the pause it then takes
      (the loop goes on) or how the loop ends. */
  datatype StepResult = StepResult(pubs: seq<Publication>, next: Result<nat, LoopEnd>)

  /** What the loop publishes for command `i`: its "Executing command i+1/n" progress
      event, then the command itself on `gnc_commands`. */
  function CommandPubs(id: string, fp: seq<FlightCommand>, i: nat): seq<Publication>
    requires i < |fp| && fp[i].command.Some?
  {
    [StatusPublication(id, InProgress, ProgressDetails(i, |fp|, fp[i].command.value)),
     Publication(GncChannel, CommandEvent(fp[i]))]
  }

  /** The body of the loop for command `i`, given what the abort poll returned. */
  function Step(id: string, fp: seq<FlightCommand>, i: nat, polled: Option<PubSubMessage>): StepResult
    requires i < |fp|
  {
    if IsAbortFor(polled, id) then
      StepResult([StatusPublication(id, Aborted, AbortDetails)], Failure(AbortSeen))
    else if fp[i].command.None? then
      StepResult([], Failure(StepFailed(MissingKey("command"))))
    else
      var pubs := CommandPubs(id, fp, i);
      match StepDelay(fp[i].delay)
      case Failure(e) => StepResult(pubs, Failure(StepFailed(e)))
      case Success(d) => StepResult(pubs, Success(d))
  }

  /** What the loop does from step `i` on: what it publishes, the pauses it takes, the
      messages it leaves unread, and how it ends. */
  datatype StepsTrace = StepsTrace(log: seq<Publication>, sleeps: seq<nat>, unread: seq<PubSubMessage>, end: LoopEnd)

  function Steps(id: string, fp: seq<FlightCommand>, i: nat, inbox: seq<PubSubMessage>): StepsTrace
    requires i <= |fp|
    decreases |fp| - i
  {
    if i == |fp| then StepsTrace([], [], inbox, RanOut)
    else
      var st := Step(id, fp, i, Head(inbox));
      match st.next
      case Failure(end) => StepsTrace(st.pubs, [], Tail(inbox), end)
      case Success(d) =>
        var rest := Steps(id, fp, i + 1, Tail(inbox));
        StepsTrace(st.pubs + rest.log, [d] + rest.sleeps, rest.unread, rest.end)
  }

  /** The loop sleeps at most once per remaining command, once per command when it runs
      out, and reads the messages in arrival order, so that those it leaves are a suffix. */
  lemma {:induction false} StepsBounds(id: string, fp: seq<FlightCommand>, i: nat, inbox: seq<PubSubMessage>)
    requires i <= |fp|
    ensures var t := Steps(id, fp, i, inbox);
      |t.sleeps| <= |fp| - i && (t.end == RanOut ==> |t.sleeps| == |fp| - i)
    ensures var t := Steps(id, fp, i, inbox);
      |t.unread| <= |inbox| && t.unread == inbox[|inbox| - |t.unread|..]
    decreases |fp| - i
  {
    if i < |fp| {
      var st := Step(id, fp, i, Head(inbox));
      if st.next.Success? {
        StepsBounds(id, fp, i + 1, Tail(inbox));
      }
    }
  }

  /** The loop over `flight_plan`; reading a missing `flight_plan` raises before the first step. */
  function Loop(id: string, plan: MissionPlan, delivered: seq<PubSubMessage>): StepsTrace {
    match plan.flightPlan
    case None => StepsTrace([], [], delivered, StepFailed(MissingKey("flight_plan")))
    case Some(fp) => Steps(id, fp, 0, delivered)
  }

  lemma LoopBounds(id: string, plan: MissionPlan, delivered: seq<PubSubMessage>)
    ensures var t := Loop(id, plan, delivered);
      && (plan.flightPlan.None? ==> t.sleeps == [])
      && (plan.flightPlan.Some? ==>
            |t.sleeps| <= |plan.flightPlan.value| && (t.end == RanOut ==> |t.sleeps| == |plan.flightPlan.value|))
      && |t.unread| <= |delivered| && t.unread == delivered[|delivered| - |t.unread|..]
  {
    if plan.flightPlan.Some? {
      StepsBounds(id, plan.flightPlan.value, 0, delivered);
    }
  }

  /** What follows the loop: COMPLETED when it ran out of commands, FAILED in the `except`
      arm when a step raised, nothing more after an abort. */
  function Finale(id: string, end: LoopEnd): seq<Publication> {
    match end
    case RanOut => [StatusPublication(id, Completed, CompletedDetails)]
    case AbortSeen => []
    case StepFailed(e) => [StatusPublication(id, Failed, FailureDetails(e))]
  }

  /** The task's result: `{"status": ...}` returned, or the exception re-raised. */
  datatype TaskOutcome = Returned(status: Status) | Raised(error: WorkerError)

  function OutcomeOf(end: LoopEnd): TaskOutcome {
    match end
    case RanOut => Returned(Completed)
    case AbortSeen => Returned(Aborted)
    case StepFailed(e) => Raised(e)
  }

  /** One run of the task on a plan: what it publishes (every status event also written to
      the store), the pauses it takes, the abort messages it leaves unread, its outcome. */
  datatype Execution = Execution(log: seq<Publication>, sleeps: seq<nat>, unread: seq<PubSubMessage>, outcome: TaskOutcome)

  function Execute(plan: MissionPlan, delivered: seq<PubSubMessage>): (x: Execution)
    ensures |x.unread| <= |delivered| && x.unread == delivered[|delivered| - |x.unread|..]
    ensures plan.flightPlan.None? ==> x.sleeps == []
    ensures plan.flightPlan.Some? ==> |x.sleeps| <= |plan.flightPlan.value|
    ensures x.outcome == Returned(Completed) ==> plan.flightPlan.Some? && |x.sleeps| == |plan.flightPlan.value|
  {
    match plan.missionId
    case None => Execution([], [], delivered, Raised(MissingKey("mission_id")))
    case Some(id) =>
      var t := Loop(id, plan, delivered);
      LoopBounds(id, plan, delivered);
      Execution([StatusPublication(id, InProgress, StartDetails)] + t.log + Finale(id, t.end),
                t.sleeps, t.unread, OutcomeOf(t.end))
  }

  /** `update_mission_status`: the record goes to the store and, with the mission id, to
      `mission_status`; neither without the other. */
  method UpdateMissionStatus(r: Redis, id: string, status: Status, details: string)
    modifies r
    ensures r.store == old(r.store)[StatusKey(id) := StatusRecord(status, details)]
    ensures r.published == old(r.published) + [StatusPublication(id, status, details)]
    ensures r.store == Apply(old(r.store), StatusPublication(id, status, details))
    ensures r.tasks == old(r.tasks) && r.health == old(r.health)
  {
    var rec := StatusRecord(status, details);
    r.Set(StatusKey(id), rec);
    r.Publish(StatusChannel, StatusEvent(id, rec));
  }

  /** One pass of the loop body of `execute_mission` for command `i`. */
  method RunStep(r: Redis, s: Subscription, id: string, fp: seq<FlightCommand>, i: nat)
    returns (next: Result<nat, LoopEnd>)
    requires i < |fp|
    modifies r, s
    ensures next == Step(id, fp, i, Head(old(s.pending))).next
    ensures s.pending == Tail(old(s.pending))
    ensures r.published == old(r.published) + Step(id, fp, i, Head(old(s.pending))).pubs
    ensures r.store == Replay(old(r.store), Step(id, fp, i, Head(old(s.pending))).pubs)
    ensures r.tasks == old(r.tasks) && r.health == old(r.health)
    ensures s.subscribed == old(s.subscribed) && s.closed == old(s.closed)
  {
    var m := s.GetMessage();
    assert m == Head(old(s.pending));
    if m.Some? && m.value.kind == "message" && m.value.data == id {
      ReplaySnoc(r.store, [], StatusPublication(id, Aborted, AbortDetails));
      UpdateMissionStatus(r, id, Aborted, AbortDetails);
      return Failure(AbortSeen);
    }
    if fp[i].command.None? {
      return Failure(StepFailed(MissingKey("command")));
    }
    var name := fp[i].command.value;
    ghost var store0 := r.store;
    ghost var p := StatusPublication(id, InProgress, ProgressDetails(i, |fp|, name));
    ghost var q := Publication(GncChannel, CommandEvent(fp[i]));
    ReplaySnoc(store0, [], p);
    UpdateMissionStatus(r, id, InProgress, ProgressDetails(i, |fp|, name));
    r.Publish(GncChannel, CommandEvent(fp[i]));
    ReplayAppend(store0, [p], [q]);
    assert |GncChannel| != |StatusChannel|;
    ReplayIgnoresOtherChannels(Replay(store0, [p]), [q]);
    assert [p] + [q] == [p, q];
    assert Step(id, fp, i, m).pubs == [p, q];
    var delay := StepDelay(fp[i].delay);
    if delay.Failure? {
      next := Failure(StepFailed(delay.error));
    } else {
      next := Success(delay.value);
    }
  }

  /** The `for` loop of `execute_mission` over `flight_plan`, until it runs out of commands,
      sees an abort, or a step raises. */
  method RunSteps(r: Redis, s: Subscription, id: string, fp: seq<FlightCommand>)
    returns (end: LoopEnd, sleeps: seq<nat>)
    modifies r, s
    ensures end == Steps(id, fp, 0, old(s.pending)).end
    ensures sleeps == Steps(id, fp, 0, old(s.pending)).sleeps
    ensures s.pending == Steps(id, fp, 0, old(s.pending)).unread
    ensures r.published == old(r.published) + Steps(id, fp, 0, old(s.pending)).log
    ensures r.store == Replay(old(r.store), Steps(id, fp, 0, old(s.pending)).log)
    ensures r.tasks == old(r.tasks) && r.health == old(r.health)
    ensures s.subscribed == old(s.subscribed) && s.closed == old(s.closed)
  {
    ghost var whole := Steps(id, fp, 0, s.pending);
    ghost var done: seq<Publication> := [];
    sleeps := [];
    var i := 0;
    var stop: Option<LoopEnd> := None;
    while i < |fp| && stop.None?
      invariant 0 <= i <= |fp|
      invariant r.published == old(r.published) + done
      invariant r.store == Replay(old(r.store), done)
      invariant r.tasks == old(r.tasks) && r.health == old(r.health)
      invariant s.subscribed == old(s.subscribed) && s.closed == old(s.closed)
      invariant stop.None? ==>
        var rest := Steps(id, fp, i, s.pending);
        whole.log == done + rest.log && whole.sleeps == sleeps + rest.sleeps
        && whole.unread == rest.unread && whole.end == rest.end
      invariant stop.Some? ==>
        whole.log == done && whole.sleeps == sleeps && whole.unread == s.pending && whole.end == stop.value
      decreases |fp| - i, if stop.None? then 1 else 0
    {
      ghost var inbox := s.pending;
      ghost var st := Step(id, fp, i, Head(inbox));
      var next := RunStep(r, s, id, fp, i);
      AppendAssoc(old(r.published), done, st.pubs);
      ReplayAppend(old(r.store), done, st.pubs);
      if next.Failure? {
        assert Steps(id, fp, i, inbox) == StepsTrace(st.pubs, [], s.pending, next.error);
        assert done + st.pubs == done + Steps(id, fp, i, inbox).log;
        stop := Some(next.error);
      } else {
        ghost var rest := Steps(id, fp, i + 1, s.pending);
        assert Steps(id, fp, i, inbox) == StepsTrace(st.pubs + rest.log, [next.value] + rest.sleeps, rest.unread, rest.end);
        AppendAssoc(done, st.pubs, rest.log);
        AppendAssoc(sleeps, [next.value], rest.sleeps);
        sleeps := sleeps + [next.value];
        i := i + 1;
      }
      done := done + st.pubs;
    }
    if stop.None? {
      assert done + Steps(id, fp, i, s.pending).log == done;
    }
    end := if stop.Some? then stop.value else RanOut;
  }

  /** What `execute_mission` does once the loop is over, before the `finally` arm. */
  method Finish(r: Redis, id: string, end: LoopEnd) returns (outcome: TaskOutcome)
    modifies r
    ensures outcome == OutcomeOf(end)
    ensures r.published == old(r.published) + Finale(id, end)
    ensures r.store == Replay(old(r.store), Finale(id, end))
    ensures r.tasks == old(r.tasks) && r.health == old(r.health)
  {
    match end {
      case RanOut =>
        ReplaySnoc(r.store, [], StatusPublication(id, Completed, CompletedDetails));
        UpdateMissionStatus(r, id, Completed, CompletedDetails);
        outcome := Returned(Completed);
      case AbortSeen =>
        outcome := Returned(Aborted);
      case StepFailed(e) =>
        ReplaySnoc(r.store, [], StatusPublication(id, Failed, FailureDetails(e)));
        UpdateMissionStatus(r, id, Failed, FailureDetails(e));
        outcome := Raised(e);
    }
  }

  lemma AppendAssoc<T>(a: seq<T>, b: seq<T>, c: seq<T>)
    ensures a + (b + c) == a + b + c
  {
  }

  /** `execute_mission`. `delivered` is what the abort subscription receives, in order; the
      returned `sleeps` are the pauses requested from `time.sleep`, in milliseconds. */
  method ExecuteMission(r: Redis, plan: MissionPlan, delivered: seq<PubSubMessage>)
    returns (outcome: TaskOutcome, sub: Subscription?, sleeps: seq<nat>)
    modifies r
    ensures outcome == Execute(plan, delivered).outcome
    ensures sleeps == Execute(plan, delivered).sleeps
    ensures r.published == old(r.published) + Execute(plan, delivered).log
    ensures r.store == Replay(old(r.store), Execute(plan, delivered).log)
    ensures r.tasks == old(r.tasks) && r.health == old(r.health)
    ensures plan.missionId.None? <==> sub == null
    ensures sub != null ==> fresh(sub) && sub.channel == AbortChannel
    ensures sub != null ==> !sub.subscribed && sub.closed && sub.pending == Execute(plan, delivered).unread
  {
    sleeps := [];
    if plan.missionId.None? {
      outcome, sub := Raised(MissingKey("mission_id")), null;
      return;
    }
    var id := plan.missionId.value;
    ghost var base := r.published;
    ghost var store0 := r.store;
    ghost var start := [StatusPublication(id, InProgress, StartDetails)];
    ghost var t := Loop(id, plan, delivered);
    ReplaySnoc(store0, [], start[0]);
    UpdateMissionStatus(r, id, InProgress, StartDetails);
    var s := new Subscription(AbortChannel, delivered);
    sub := s;

    var end: LoopEnd;
    if plan.flightPlan.None? {
      end := StepFailed(MissingKey("flight_plan"));
      assert start + t.log == start;
    } else {
      end, sleeps := RunSteps(r, s, plan.missionId.value, plan.flightPlan.value);
    }
    ReplayAppend(store0, start, t.log);
    AppendAssoc(base, start, t.log);
    outcome := Finish(r, id, end);
    ReplayAppend(store0, start + t.log, Finale(id, end));
    AppendAssoc(base, start + t.log, Finale(id, end));
    s.Unsubscribe();
    s.Close();
  }
}
