/** One execution of the state machine with the real stage handlers in its task states: the
    envelope passed from task to task (each task's output_path is $.Payload, the handler's
    return value), the statuses the Choice sees, and how the execution ends. */
module Workflow {
  import opened Json
  import SM = StateMachine
  import TranscribeStage
  import BedrockStage
  import ComprehendStage

  /** The AWS services the Lambdas call. The transcription status can change between checks,
      so the status service is given per invocation of the transcribe Lambda (0 is the
      submit task, k > 0 the k-th check). */
  datatype Services = Services(
    start: TranscribeStage.StartJob,
    getJob: nat -> TranscribeStage.GetJob,
    getObject: BedrockStage.GetObject,
    invoke: BedrockStage.InvokeModel,
    detect: ComprehendStage.DetectEntitiesV2)

  datatype Outcome =
    | Succeeded(output: map<string, Json>)
    | Failed(cause: string)            // the Fail state
    | TaskFailed(error: Exception)     // a Lambda raised; the chain has no Catch
    | ChoiceFailed                     // the Choice's status path does not exist
    | TimedOut

  /** The three Lambdas as the chain invokes them: the envelope in, the returned payload or
      an exception out. The transcribe Lambda also gets the number of its invocation. */
  datatype Stages = Stages(
    transcribe: (map<string, Json>, nat) -> Result<map<string, Json>>,
    summarize: map<string, Json> -> Result<map<string, Json>>,
    annotate: map<string, Json> -> Result<map<string, Json>>)

  /** The deployed chain: the stage handlers of this model, over the given services. */
  function Pipeline(s: Services): Stages {
    Stages(
      (env, k: nat) => TranscribeStage.Handler(env, s.start, s.getJob(k)),
      env => BedrockStage.Summarize(env, s.getObject, s.invoke),
      env => ComprehendStage.Annotate(env, s.detect))
  }

  /** The states visited, the statuses the Choice compared, in order, and the outcome. */
  datatype Execution = Execution(trace: seq<SM.State>, statuses: seq<string>, outcome: Outcome)

  /** `$.Outputs.TranscriptionOutput.TranscriptionJobStatus`, if the path exists. */
  function ChoiceInput(env: map<string, Json>): Option<Json> {
    if "Outputs" in env && env["Outputs"].JObj?
       && "TranscriptionOutput" in env["Outputs"].fields
       && env["Outputs"].fields["TranscriptionOutput"].JObj?
       && "TranscriptionJobStatus" in env["Outputs"].fields["TranscriptionOutput"].fields
    then Some(env["Outputs"].fields["TranscriptionOutput"].fields["TranscriptionJobStatus"])
    else None
  }

  /** A value that is not a string matches neither string_equals condition. */
  function StatusText(v: Json): string {
    if v.JStr? then v.s else ""
  }

  /** What a check task and the following Choice make of the envelope. */
  datatype Check =
    | CheckRaised(error: Exception)
    | NoStatus
    | Observed(env: map<string, Json>, status: string)

  /** The k-th check: the transcribe Lambda, then the Choice reading the status. */
  function CheckAt(env: map<string, Json>, st: Stages, k: nat): Check {
    match st.transcribe(env, k)
    case Raise(e) => CheckRaised(e)
    case Ok(checked) =>
      match ChoiceInput(checked)
      case None => NoStatus
      case Some(v) => Observed(checked, StatusText(v))
  }

  /** After the Choice saw COMPLETED: summarisation, entity detection, Succeeded. */
  function Finish(env: map<string, Json>, st: Stages): Execution {
    match st.summarize(env)
    case Raise(e) => Execution([SM.PerformSummarization], [], TaskFailed(e))
    case Ok(summarized) =>
      match st.annotate(summarized)
      case Raise(e) => Execution([SM.PerformSummarization, SM.DetectEntities], [], TaskFailed(e))
      case Ok(annotated) => Execution([SM.PerformSummarization, SM.DetectEntities, SM.Succeeded], [], Succeeded(annotated))
  }

  /** From the wait, `elapsed` seconds into the execution, before the k-th check. */
  function Poll(env: map<string, Json>, st: Stages, k: nat, elapsed: nat): Execution
    requires elapsed <= SM.TimeoutSeconds
    decreases SM.TimeoutSeconds - elapsed
  {
    if elapsed + SM.WaitSeconds > SM.TimeoutSeconds then Execution([], [], TimedOut)
    else
      var round := [SM.Wait30Seconds, SM.CheckTranscriptionStatus, SM.TranscriptionComplete];
      match CheckAt(env, st, k)
      case CheckRaised(e) => Execution([SM.Wait30Seconds, SM.CheckTranscriptionStatus], [], TaskFailed(e))
      case NoStatus => Execution(round, [], ChoiceFailed)
      case Observed(checked, status) =>
        if status == "COMPLETED" then
          var tail := Finish(checked, st);
          Execution(round + tail.trace, [status], tail.outcome)
        else if status == "FAILED" then
          Execution(round + [SM.Fail], [status], Failed(SM.FailCause))
        else
          var rest := Poll(checked, st, k + 1, elapsed + SM.WaitSeconds);
          Execution(round + rest.trace, [status] + rest.statuses, rest.outcome)
  }

  /** An execution started with `input`. */
  function Execute(input: map<string, Json>, st: Stages): Execution {
    match st.transcribe(input, 0)
    case Raise(e) => Execution([SM.SubmitTranscribeJob], [], TaskFailed(e))
    case Ok(env) =>
      var rest := Poll(env, st, 1, 0);
      Execution([SM.SubmitTranscribeJob] + rest.trace, rest.statuses, rest.outcome)
  }

  /** No task raised and the Choice could read its input. */
  predicate Orderly(o: Outcome) {
    !o.TaskFailed? && !o.ChoiceFailed?
  }

  /** The round from the wait through the Choice, when the status check reads a status. */
  lemma PollObserved(env: map<string, Json>, st: Stages, k: nat, elapsed: nat)
    requires elapsed + SM.WaitSeconds <= SM.TimeoutSeconds && CheckAt(env, st, k).Observed?
    ensures var c := CheckAt(env, st, k);
      var round := [SM.Wait30Seconds, SM.CheckTranscriptionStatus, SM.TranscriptionComplete];
      Poll(env, st, k, elapsed) ==
        if c.status == "COMPLETED" then
          Execution(round + Finish(c.env, st).trace, [c.status], Finish(c.env, st).outcome)
        else if c.status == "FAILED" then
          Execution(round + [SM.Fail], [c.status], Failed(SM.FailCause))
        else
          var rest := Poll(c.env, st, k + 1, elapsed + SM.WaitSeconds);
          Execution(round + rest.trace, [c.status] + rest.statuses, rest.outcome)
  {
  }

  /** The abstract run through one round of the loop: wait, check, Choice on `observed`. */
  lemma RoundRunTimed(status: string, observed: string, polls: seq<string>, elapsed: nat)
    requires elapsed + SM.WaitSeconds <= SM.TimeoutSeconds
    ensures var after := elapsed + SM.WaitSeconds;
      var t := SM.RunTimed(SM.Config(SM.Choose(observed), observed, polls), after);
      SM.RunTimed(SM.Config(SM.Wait30Seconds, status, [observed] + polls), elapsed)
        == SM.Timed([SM.Wait30Seconds, SM.CheckTranscriptionStatus, SM.TranscriptionComplete] + t.trace, t.timedOut)
  {
    var after := elapsed + SM.WaitSeconds;
    var w := SM.Config(SM.Wait30Seconds, status, [observed] + polls);
    var ch := SM.Config(SM.CheckTranscriptionStatus, status, [observed] + polls);
    var co := SM.Config(SM.TranscriptionComplete, observed, polls);
    var next := SM.Config(SM.Choose(observed), observed, polls);
    assert SM.Step(w) == Some(ch);
    assert SM.Step(ch) == Some(co);
    assert SM.Step(co) == Some(next);
    var t := SM.RunTimed(next, after);
    assert SM.RunTimed(co, after) == SM.Timed([SM.TranscriptionComplete] + t.trace, t.timedOut);
    assert SM.RunTimed(ch, after) == SM.Timed([SM.CheckTranscriptionStatus, SM.TranscriptionComplete] + t.trace, t.timedOut);
  }

  lemma FinishFollows(env: map<string, Json>, st: Stages, elapsed: nat)
    requires elapsed <= SM.TimeoutSeconds && Orderly(Finish(env, st).outcome)
    ensures SM.RunTimed(SM.Config(SM.PerformSummarization, "COMPLETED", []), elapsed)
         == SM.Timed(Finish(env, st).trace, false)
  {
    var p := SM.Config(SM.PerformSummarization, "COMPLETED", []);
    var d := SM.Config(SM.DetectEntities, "COMPLETED", []);
    var f := SM.Config(SM.Succeeded, "COMPLETED", []);
    assert SM.Step(p) == Some(d);
    assert SM.Step(d) == Some(f);
    assert SM.RunTimed(f, elapsed) == SM.Timed([SM.Succeeded], false);
  }

  /** From the wait, an orderly execution visits exactly the states of the abstract timed
      run over the statuses it observed, and times out exactly when that run does. */
  lemma {:induction false} PollFollows(env: map<string, Json>, st: Stages, k: nat, elapsed: nat, status: string)
    requires elapsed <= SM.TimeoutSeconds
    requires Orderly(Poll(env, st, k, elapsed).outcome)
    ensures var e := Poll(env, st, k, elapsed);
      SM.RunTimed(SM.Config(SM.Wait30Seconds, status, e.statuses), elapsed) == SM.Timed(e.trace, e.outcome.TimedOut?)
    decreases SM.TimeoutSeconds - elapsed
  {
    if elapsed + SM.WaitSeconds <= SM.TimeoutSeconds {
      var c := CheckAt(env, st, k);
      assert c.Observed?;
      PollObserved(env, st, k, elapsed);
      var after := elapsed + SM.WaitSeconds;
      if SM.Decisive(c.status) {
        DecisiveFollows(env, st, k, elapsed, status);
      } else {
        var rest := Poll(c.env, st, k + 1, after);
        PollFollows(c.env, st, k + 1, after, c.status);
        RoundRunTimed(status, c.status, rest.statuses, elapsed);
      }
    }
  }

  /** The round in which the Choice sees COMPLETED or FAILED. */
  lemma DecisiveFollows(env: map<string, Json>, st: Stages, k: nat, elapsed: nat, status: string)
    requires elapsed + SM.WaitSeconds <= SM.TimeoutSeconds
    requires CheckAt(env, st, k).Observed? && SM.Decisive(CheckAt(env, st, k).status)
    requires Orderly(Poll(env, st, k, elapsed).outcome)
    ensures var e := Poll(env, st, k, elapsed);
      SM.RunTimed(SM.Config(SM.Wait30Seconds, status, e.statuses), elapsed) == SM.Timed(e.trace, e.outcome.TimedOut?)
  {
    var c := CheckAt(env, st, k);
    var after := elapsed + SM.WaitSeconds;
    PollObserved(env, st, k, elapsed);
    RoundRunTimed(status, c.status, [], elapsed);
    if c.status == "COMPLETED" {
      FinishFollows(c.env, st, after);
    } else {
      assert SM.RunTimed(SM.Config(SM.Fail, "FAILED", []), after) == SM.Timed([SM.Fail], false);
    }
  }

  /** An orderly execution is a run of the abstract state machine: its trace is the timed
      run over the statuses the Choice observed, and it times out exactly when that run
      does. This holds for any task handlers, the deployed ones among them. */
  lemma ExecutionFollowsStateMachine(input: map<string, Json>, st: Stages, submitted: string)
    requires Orderly(Execute(input, st).outcome)
    ensures var e := Execute(input, st);
      SM.RunTimed(SM.Initial(submitted, e.statuses), 0) == SM.Timed(e.trace, e.outcome.TimedOut?)
  {
    var env := st.transcribe(input, 0).value;
    PollFollows(env, st, 1, 0, submitted);
    var e := Execute(input, st);
    assert SM.Step(SM.Initial(submitted, e.statuses)) == Some(SM.Config(SM.Wait30Seconds, submitted, e.statuses));
  }

  /** Each check follows a completed wait, so the statuses seen fit in the time left. */
  lemma {:induction false} PollChecksFit(env: map<string, Json>, st: Stages, k: nat, elapsed: nat)
    requires elapsed <= SM.TimeoutSeconds
    ensures elapsed + SM.WaitSeconds * |Poll(env, st, k, elapsed).statuses| <= SM.TimeoutSeconds
    decreases SM.TimeoutSeconds - elapsed
  {
    if elapsed + SM.WaitSeconds <= SM.TimeoutSeconds {
      var c := CheckAt(env, st, k);
      if c.Observed? {
        PollObserved(env, st, k, elapsed);
        if c.status != "COMPLETED" && c.status != "FAILED" {
          PollChecksFit(c.env, st, k + 1, elapsed + SM.WaitSeconds);
        }
      }
    }
  }

  /** No execution checks the transcription status more than ten times. */
  lemma AtMostTenChecks(input: map<string, Json>, st: Stages)
    ensures |Execute(input, st).statuses| <= 10
  {
    if st.transcribe(input, 0).Ok? {
      PollChecksFit(st.transcribe(input, 0).value, st, 1, 0);
    }
  }

  /** Summarisation and detection end in Succeeded or in a task error, never in Fail. */
  lemma FinishNeverFails(env: map<string, Json>, st: Stages)
    ensures !Finish(env, st).outcome.Failed?
  {
  }

  lemma {:induction false} FailedPollSkipsAnalysis(env: map<string, Json>, st: Stages, k: nat, elapsed: nat)
    requires elapsed <= SM.TimeoutSeconds
    requires Poll(env, st, k, elapsed).outcome.Failed?
    ensures var e := Poll(env, st, k, elapsed);
      && e.outcome.cause == SM.FailCause
      && |e.statuses| > 0 && e.statuses[|e.statuses| - 1] == "FAILED"
      && SM.PerformSummarization !in e.trace && SM.DetectEntities !in e.trace
    decreases SM.TimeoutSeconds - elapsed
  {
    var c := CheckAt(env, st, k);
    assert c.Observed?;
    PollObserved(env, st, k, elapsed);
    FinishNeverFails(c.env, st);
    if c.status != "FAILED" {
      var rest := Poll(c.env, st, k + 1, elapsed + SM.WaitSeconds);
      FailedPollSkipsAnalysis(c.env, st, k + 1, elapsed + SM.WaitSeconds);
      var e := Poll(env, st, k, elapsed);
      assert e.statuses == [c.status] + rest.statuses;
      assert e.statuses[|e.statuses| - 1] == rest.statuses[|rest.statuses| - 1];
    }
  }

  /** An execution that ends in the Fail state saw FAILED last, and neither summarised nor
      detected entities. */
  lemma FailedExecutionSkipsAnalysis(input: map<string, Json>, st: Stages)
    requires Execute(input, st).outcome.Failed?
    ensures var e := Execute(input, st);
      && e.outcome.cause == SM.FailCause
      && |e.statuses| > 0 && e.statuses[|e.statuses| - 1] == "FAILED"
      && SM.PerformSummarization !in e.trace && SM.DetectEntities !in e.trace
  {
    FailedPollSkipsAnalysis(st.transcribe(input, 0).value, st, 1, 0);
  }

  predicate HasOutput(env: map<string, Json>, key: string) {
    "Outputs" in env && env["Outputs"].JObj? && key in env["Outputs"].fields
  }

  /** The envelope between tasks: the workflow input under ExecutionInput, and a
      TranscriptionOutput among the outputs. */
  predicate Carries(env: map<string, Json>, input: map<string, Json>) {
    "ExecutionInput" in env && env["ExecutionInput"] == JObj(input) && HasOutput(env, "TranscriptionOutput")
  }

  /** What each task keeps of the envelope, and what the last two add. */
  ghost predicate StagesCarry(st: Stages, input: map<string, Json>) {
    && (forall env, k :: Carries(env, input) && st.transcribe(env, k).Ok? ==>
          Carries(st.transcribe(env, k).value, input))
    && (forall env :: Carries(env, input) && st.summarize(env).Ok? ==>
          Carries(st.summarize(env).value, input) && HasOutput(st.summarize(env).value, "BedrockOutput"))
    && (forall env :: Carries(env, input) && HasOutput(env, "BedrockOutput") && st.annotate(env).Ok? ==>
          && Carries(st.annotate(env).value, input)
          && HasOutput(st.annotate(env).value, "BedrockOutput")
          && HasOutput(st.annotate(env).value, "ComprehendMedicalOutput"))
  }

  /** The deployed handlers keep ExecutionInput and every output they do not write. */
  lemma PipelineCarries(s: Services, input: map<string, Json>)
    ensures StagesCarry(Pipeline(s), input)
  {
    var st := Pipeline(s);
    forall env, k | Carries(env, input) && st.transcribe(env, k).Ok?
      ensures Carries(st.transcribe(env, k).value, input)
    {
      assert TranscribeStage.IsPollMode(env);
      TranscribeStage.PollChangesOnlyStatus(env, s.getJob(k));
    }
    forall env | Carries(env, input) && st.summarize(env).Ok?
      ensures Carries(st.summarize(env).value, input) && HasOutput(st.summarize(env).value, "BedrockOutput")
    {
      BedrockStage.SummarizeStoresEscapedCompletion(env, s.getObject, s.invoke);
    }
    forall env | Carries(env, input) && HasOutput(env, "BedrockOutput") && st.annotate(env).Ok?
      ensures && Carries(st.annotate(env).value, input)
              && HasOutput(st.annotate(env).value, "BedrockOutput")
              && HasOutput(st.annotate(env).value, "ComprehendMedicalOutput")
    {
      ComprehendStage.AnnotateStoresEntities(env, s.detect);
    }
  }

  /** With handlers that keep the envelope, a successful poll loop ends with all three
      stage outputs and the workflow input intact. */
  lemma {:induction false} PollCarries(env: map<string, Json>, input: map<string, Json>, st: Stages, k: nat, elapsed: nat)
    requires elapsed <= SM.TimeoutSeconds && Carries(env, input) && StagesCarry(st, input)
    requires Poll(env, st, k, elapsed).outcome.Succeeded?
    ensures var out := Poll(env, st, k, elapsed).outcome.output;
      Carries(out, input) && HasOutput(out, "BedrockOutput") && HasOutput(out, "ComprehendMedicalOutput")
    decreases SM.TimeoutSeconds - elapsed
  {
    var c := CheckAt(env, st, k);
    assert c.Observed?;
    PollObserved(env, st, k, elapsed);
    assert Carries(c.env, input);
    if c.status != "COMPLETED" {
      PollCarries(c.env, input, st, k + 1, elapsed + SM.WaitSeconds);
    }
  }

  /** A workflow input (no Outputs) that the deployed chain runs to Succeeded comes out
      with the input intact under ExecutionInput and with all three stage outputs. */
  lemma SucceededCarriesAllOutputs(input: map<string, Json>, s: Services)
    requires !TranscribeStage.IsPollMode(input)
    requires Execute(input, Pipeline(s)).outcome.Succeeded?
    ensures var out := Execute(input, Pipeline(s)).outcome.output;
      && "ExecutionInput" in out && out["ExecutionInput"] == JObj(input)
      && "Outputs" in out && out["Outputs"].JObj?
      && "TranscriptionOutput" in out["Outputs"].fields
      && "BedrockOutput" in out["Outputs"].fields
      && "ComprehendMedicalOutput" in out["Outputs"].fields
  {
    var st := Pipeline(s);
    assert st.transcribe(input, 0) == TranscribeStage.Handler(input, s.start, s.getJob(0));
    if st.transcribe(input, 0).Ok? {
      SubmitCarries(input, s.start, s.getJob(0));
    }
    PipelineCarries(s, input);
    ExecuteCarries(input, st);
  }

  /** With handlers that keep the envelope and a submission that builds it, a successful
      execution ends with all three stage outputs and the workflow input intact. */
  lemma ExecuteCarries(input: map<string, Json>, st: Stages)
    requires StagesCarry(st, input)
    requires st.transcribe(input, 0).Ok? ==> Carries(st.transcribe(input, 0).value, input)
    requires Execute(input, st).outcome.Succeeded?
    ensures var out := Execute(input, st).outcome.output;
      Carries(out, input) && HasOutput(out, "BedrockOutput") && HasOutput(out, "ComprehendMedicalOutput")
  {
    PollCarries(st.transcribe(input, 0).value, input, st, 1, 0);
  }

  /** The submit task puts the workflow input under ExecutionInput, next to its output. */
  lemma SubmitCarries(input: map<string, Json>, start: TranscribeStage.StartJob, getJob: TranscribeStage.GetJob)
    requires !TranscribeStage.IsPollMode(input) && TranscribeStage.Handler(input, start, getJob).Ok?
    ensures Carries(TranscribeStage.Handler(input, start, getJob).value, input)
  {
    assert TranscribeStage.Handler(input, start, getJob) == TranscribeStage.SubmitMode(input, start);
    TranscribeStage.SubmitShape(input, start);
  }
}
