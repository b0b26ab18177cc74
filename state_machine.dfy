/** The Step Functions chain of the conversation-analysis workflow: submit a transcription
    job, wait, check its status, and branch on the status to summarisation and entity
    detection, to the Fail state, or back to the wait. */
module StateMachine {
  import opened Json

  datatype State =
    | SubmitTranscribeJob        // "Submit Transcribe Job": the transcribe Lambda, submit mode
    | Wait30Seconds              // "Wait 30 Seconds"
    | CheckTranscriptionStatus   // "Check Transcription Status": the transcribe Lambda, poll mode
    | TranscriptionComplete      // the Choice "Transcription Complete?"
    | PerformSummarization       // "Perform Summarization With Bedrock"
    | DetectEntities             // "Detect Entities With Comprehend"
    | Succeeded
    | Fail

  const StartAt: State := SubmitTranscribeJob
  const FailCause: string := "Conversation analysis Failed"
  const SucceedComment: string := "Conversation analysis succeeded"
  const WaitSeconds: nat := 30
  const TimeoutSeconds: nat := 5 * 60

  predicate IsTerminal(s: State) {
    s == Succeeded || s == Fail
  }

  /** A status on which the Choice leaves the polling loop. */
  predicate Decisive(status: string) {
    status == "COMPLETED" || status == "FAILED"
  }

  /** The Choice: two string_equals conditions in order, then the default branch. */
  function Choose(status: string): State {
    if status == "COMPLETED" then PerformSummarization
    else if status == "FAILED" then Fail
    else Wait30Seconds
  }

  /** The chain's transitions; `status` is TranscriptionJobStatus as the Choice reads it.
      Terminal states have no successor. */
  function Next(s: State, status: string): Option<State> {
    match s
    case SubmitTranscribeJob => Some(Wait30Seconds)
    case Wait30Seconds => Some(CheckTranscriptionStatus)
    case CheckTranscriptionStatus => Some(TranscriptionComplete)
    case TranscriptionComplete => Some(Choose(status))
    case PerformSummarization => Some(DetectEntities)
    case DetectEntities => Some(Succeeded)
    case Succeeded => None
    case Fail => None
  }

  /** A point of an execution: the current state, the job status last written into the
      envelope, and the statuses the remaining checks will observe. */
  datatype Config = Config(state: State, status: string, polls: seq<string>)

  /** The first configuration: the state machine starts at the submit task; `submitted` is
      the status the submission itself reported. */
  function Initial(submitted: string, polls: seq<string>): Config {
    Config(StartAt, submitted, polls)
  }

  /** A rank that every step without a status check decreases. */
  function Rank(s: State): nat {
    match s
    case SubmitTranscribeJob => 5
    case TranscriptionComplete => 4
    case Wait30Seconds => 3
    case CheckTranscriptionStatus => 2
    case PerformSummarization => 2
    case DetectEntities => 1
    case Succeeded => 0
    case Fail => 0
  }

  /** One step: the status check consumes the next observed status; no step is possible from a
      terminal state, or from the status check once no further status is known. */
  function Step(c: Config): (r: Option<Config>)
    ensures r.None? <==> IsTerminal(c.state) || (c.state == CheckTranscriptionStatus && |c.polls| == 0)
    ensures r.Some? ==> Next(c.state, c.status) == Some(r.value.state)
    ensures r.Some? ==> |r.value.polls| < |c.polls|
                        || (r.value.polls == c.polls && Rank(r.value.state) < Rank(c.state))
  {
    if c.state == CheckTranscriptionStatus then
      if |c.polls| == 0 then None
      else Some(Config(TranscriptionComplete, c.polls[0], c.polls[1..]))
    else
      match Next(c.state, c.status)
      case None => None
      case Some(t) => Some(Config(t, c.status, c.polls))
  }

  /** The states an execution visits from `c`, in order. */
  function Run(c: Config): seq<State>
    decreases |c.polls|, Rank(c.state)
  {
    match Step(c)
    case None => [c.state]
    case Some(c') => [c.state] + Run(c')
  }

  /** `n` passes through the polling loop. */
  function Rounds(n: nat): seq<State> {
    if n == 0 then [] else [Wait30Seconds, CheckTranscriptionStatus, TranscriptionComplete] + Rounds(n - 1)
  }

  /** What follows the Choice once it sees a decisive status. */
  function Branch(status: string): seq<State> {
    if status == "COMPLETED" then [PerformSummarization, DetectEntities, Succeeded] else [Fail]
  }

  function Count(s: State, trace: seq<State>): nat {
    multiset(trace)[s]
  }

  /** The first index of a decisive status, when there is one. */
  predicate FirstDecisive(polls: seq<string>, k: nat) {
    k < |polls| && Decisive(polls[k]) && forall i :: 0 <= i < k ==> !Decisive(polls[i])
  }

  /** Every run starts with the submit task, and the submit task goes to the wait. */
  lemma StartsWithSubmitThenWait(submitted: string, polls: seq<string>)
    ensures |Run(Initial(submitted, polls))| >= 2
    ensures Run(Initial(submitted, polls))[..2] == [SubmitTranscribeJob, Wait30Seconds]
  {
    var c := Initial(submitted, polls);
    var w := Config(Wait30Seconds, submitted, polls);
    assert Step(c) == Some(w);
    assert Step(w).Some?;
    assert Run(c) == [SubmitTranscribeJob] + Run(w);
  }

  /** From the wait, with the first decisive status at index k of the observed statuses,
      the run goes round the loop k + 1 times and then takes that status's branch. */
  lemma {:induction false} RunFromWait(status: string, polls: seq<string>, k: nat)
    requires FirstDecisive(polls, k)
    ensures Run(Config(Wait30Seconds, status, polls)) == Rounds(k + 1) + Branch(polls[k])
    decreases k
  {
    var w := Config(Wait30Seconds, status, polls);
    var ch := Config(CheckTranscriptionStatus, status, polls);
    var co := Config(TranscriptionComplete, polls[0], polls[1..]);
    assert Run(w) == [Wait30Seconds] + Run(ch);
    assert Run(ch) == [CheckTranscriptionStatus] + Run(co);
    var next := Config(Choose(polls[0]), polls[0], polls[1..]);
    assert Run(co) == [TranscriptionComplete] + Run(next);
    if k == 0 {
      if polls[0] == "COMPLETED" {
        var d := Config(DetectEntities, polls[0], polls[1..]);
        var s := Config(Succeeded, polls[0], polls[1..]);
        assert Run(s) == [Succeeded];
        assert Run(d) == [DetectEntities] + Run(s);
        assert Run(next) == [PerformSummarization] + Run(d);
      } else {
        assert Run(next) == [Fail];
      }
    } else {
      assert !Decisive(polls[0]);
      assert FirstDecisive(polls[1..], k - 1);
      RunFromWait(polls[0], polls[1..], k - 1);
    }
  }

  /** From the wait, when no observed status is decisive, the run circles the loop once per
      status and stops at the status check that has no further status to observe. */
  lemma {:induction false} RunFromWaitPending(status: string, polls: seq<string>)
    requires forall i :: 0 <= i < |polls| ==> !Decisive(polls[i])
    ensures Run(Config(Wait30Seconds, status, polls))
            == Rounds(|polls|) + [Wait30Seconds, CheckTranscriptionStatus]
    decreases |polls|
  {
    var w := Config(Wait30Seconds, status, polls);
    var ch := Config(CheckTranscriptionStatus, status, polls);
    assert Run(w) == [Wait30Seconds] + Run(ch);
    if |polls| == 0 {
      assert Run(ch) == [CheckTranscriptionStatus];
    } else {
      var co := Config(TranscriptionComplete, polls[0], polls[1..]);
      var next := Config(Wait30Seconds, polls[0], polls[1..]);
      assert Run(ch) == [CheckTranscriptionStatus] + Run(co);
      assert Run(co) == [TranscriptionComplete] + Run(next);
      RunFromWaitPending(polls[0], polls[1..]);
    }
  }

  lemma {:induction false} RoundsCount(n: nat)
    ensures Count(Wait30Seconds, Rounds(n)) == n
    ensures Count(PerformSummarization, Rounds(n)) == 0
    ensures Count(DetectEntities, Rounds(n)) == 0
    ensures Count(Succeeded, Rounds(n)) == 0 && Count(Fail, Rounds(n)) == 0
  {
    if n > 0 {
      var head: seq<State> := [Wait30Seconds, CheckTranscriptionStatus, TranscriptionComplete];
      var rest := Rounds(n - 1);
      RoundsCount(n - 1);
      assert Rounds(n) == head + rest;
      forall x: State ensures Count(x, Rounds(n)) == Count(x, head) + Count(x, rest) {
        CountConcat(x, head, rest);
      }
      assert multiset(head) == multiset{Wait30Seconds, CheckTranscriptionStatus, TranscriptionComplete};
    }
  }

  /** The run from the start is the submit task followed by the run from the wait. */
  lemma RunFromStart(submitted: string, polls: seq<string>)
    ensures Run(Initial(submitted, polls)) == [SubmitTranscribeJob] + Run(Config(Wait30Seconds, submitted, polls))
  {
    assert Step(Initial(submitted, polls)) == Some(Config(Wait30Seconds, submitted, polls));
  }

  lemma CountConcat(s: State, a: seq<State>, b: seq<State>)
    ensures Count(s, a + b) == Count(s, a) + Count(s, b)
  {
    assert multiset(a + b) == multiset(a) + multiset(b);
  }

  /** The whole execution when the n-th check (counting from 1) is the first to observe
      COMPLETED or FAILED: the wait is visited exactly n times before the branch. */
  lemma WaitsBeforeBranch(submitted: string, polls: seq<string>, n: nat)
    requires 1 <= n && FirstDecisive(polls, n - 1)
    ensures Run(Initial(submitted, polls)) == [SubmitTranscribeJob] + Rounds(n) + Branch(polls[n - 1])
    ensures Count(Wait30Seconds, Run(Initial(submitted, polls))) == n
  {
    RunFromStart(submitted, polls);
    RunFromWait(submitted, polls, n - 1);
    var t := [SubmitTranscribeJob] + Rounds(n) + Branch(polls[n - 1]);
    assert Run(Initial(submitted, polls)) == t;
    BranchCount(n, polls[n - 1]);
  }

  lemma BranchCount(n: nat, status: string)
    ensures Count(Wait30Seconds, [SubmitTranscribeJob] + Rounds(n) + Branch(status)) == n
  {
    RoundsCount(n);
    CountConcat(Wait30Seconds, [SubmitTranscribeJob] + Rounds(n), Branch(status));
    CountConcat(Wait30Seconds, [SubmitTranscribeJob], Rounds(n));
  }

  /** COMPLETED at the first decisive check: summarisation, then entity detection, then
      Succeeded, as the last three states of the run. */
  lemma CompletedLeadsToSucceeded(submitted: string, polls: seq<string>, n: nat)
    requires 1 <= n && FirstDecisive(polls, n - 1) && polls[n - 1] == "COMPLETED"
    ensures var t := Run(Initial(submitted, polls));
      |t| >= 3 && t[|t| - 3..] == [PerformSummarization, DetectEntities, Succeeded]
      && Count(Fail, t) == 0
  {
    WaitsBeforeBranch(submitted, polls, n);
    BranchTrace(n, polls[n - 1]);
  }

  /** FAILED at the first decisive check: the run ends in Fail and never visits the
      summarisation or the entity detection. */
  lemma FailedNeverSummarizes(submitted: string, polls: seq<string>, n: nat)
    requires 1 <= n && FirstDecisive(polls, n - 1) && polls[n - 1] == "FAILED"
    ensures var t := Run(Initial(submitted, polls));
      t[|t| - 1] == Fail && PerformSummarization !in t && DetectEntities !in t && Succeeded !in t
  {
    WaitsBeforeBranch(submitted, polls, n);
    BranchTrace(n, polls[n - 1]);
  }

  /** The visits of a run that takes `status`'s branch after n rounds: COMPLETED ends with
      the three analysis states and never fails; any other decisive status ends in Fail
      and visits none of them. */
  lemma BranchTrace(n: nat, status: string)
    ensures var t := [SubmitTranscribeJob] + Rounds(n) + Branch(status);
      && (status == "COMPLETED" ==>
            |t| >= 3 && t[|t| - 3..] == [PerformSummarization, DetectEntities, Succeeded]
            && Count(Fail, t) == 0)
      && (status != "COMPLETED" ==>
            t[|t| - 1] == Fail && PerformSummarization !in t && DetectEntities !in t && Succeeded !in t)
  {
    RoundsCount(n);
    var t := [SubmitTranscribeJob] + Rounds(n) + Branch(status);
    forall x | x in {PerformSummarization, DetectEntities, Succeeded, Fail}
      ensures Count(x, t) == Count(x, [SubmitTranscribeJob]) + Count(x, Rounds(n)) + Count(x, Branch(status))
    {
      TraceCount(x, n, status);
    }
  }

  lemma TraceCount(x: State, n: nat, status: string)
    ensures Count(x, [SubmitTranscribeJob] + Rounds(n) + Branch(status))
         == Count(x, [SubmitTranscribeJob]) + Count(x, Rounds(n)) + Count(x, Branch(status))
  {
    CountConcat(x, [SubmitTranscribeJob] + Rounds(n), Branch(status));
    CountConcat(x, [SubmitTranscribeJob], Rounds(n));
  }

  /** A run whose checks never observe COMPLETED or FAILED keeps returning to the wait and
      reaches neither terminal state. */
  lemma PendingNeverTerminates(submitted: string, polls: seq<string>)
    requires forall i :: 0 <= i < |polls| ==> !Decisive(polls[i])
    ensures Run(Initial(submitted, polls))
            == [SubmitTranscribeJob] + Rounds(|polls|) + [Wait30Seconds, CheckTranscriptionStatus]
    ensures Count(Wait30Seconds, Run(Initial(submitted, polls))) == |polls| + 1
    ensures Succeeded !in Run(Initial(submitted, polls)) && Fail !in Run(Initial(submitted, polls))
  {
    PendingRun(submitted, polls);
    PendingCount(|polls|);
  }

  lemma PendingRun(submitted: string, polls: seq<string>)
    requires forall i :: 0 <= i < |polls| ==> !Decisive(polls[i])
    ensures Run(Initial(submitted, polls))
            == [SubmitTranscribeJob] + Rounds(|polls|) + [Wait30Seconds, CheckTranscriptionStatus]
  {
    var rest := Run(Config(Wait30Seconds, submitted, polls));
    RunFromStart(submitted, polls);
    RunFromWaitPending(submitted, polls);
    Associate([SubmitTranscribeJob], Rounds(|polls|), [Wait30Seconds, CheckTranscriptionStatus], rest);
  }

  lemma Associate(a: seq<State>, b: seq<State>, c: seq<State>, bc: seq<State>)
    requires bc == b + c
    ensures a + bc == a + b + c
  {
  }

  lemma PendingCount(n: nat)
    ensures var t := [SubmitTranscribeJob] + Rounds(n) + [Wait30Seconds, CheckTranscriptionStatus];
      Count(Wait30Seconds, t) == n + 1 && Succeeded !in t && Fail !in t
  {
    RoundsCount(n);
    var tail: seq<State> := [Wait30Seconds, CheckTranscriptionStatus];
    var t := [SubmitTranscribeJob] + Rounds(n) + tail;
    forall x | x in {Wait30Seconds, Succeeded, Fail}
      ensures Count(x, t) == Count(x, [SubmitTranscribeJob]) + Count(x, Rounds(n)) + Count(x, tail)
    {
      CountConcat(x, [SubmitTranscribeJob] + Rounds(n), tail);
      CountConcat(x, [SubmitTranscribeJob], Rounds(n));
    }
    assert Count(Succeeded, t) == 0 && Count(Fail, t) == 0;
  }

  /** In every run, the wait is followed by the status check and by nothing else, and a terminal
      state can only be the last state. */
  lemma {:induction false} RunShape(c: Config)
    ensures forall i :: 0 <= i < |Run(c)| && Run(c)[i] == Wait30Seconds
              ==> i + 1 < |Run(c)| && Run(c)[i + 1] == CheckTranscriptionStatus
    ensures forall i :: 0 <= i < |Run(c)| && IsTerminal(Run(c)[i]) ==> i == |Run(c)| - 1
    ensures Run(c)[0] == c.state
    decreases |c.polls|, Rank(c.state)
  {
    match Step(c)
    case None =>
    case Some(c') =>
      RunShape(c');
      var t := Run(c);
      assert t == [c.state] + Run(c');
      forall i | 0 <= i < |t| && t[i] == Wait30Seconds
        ensures i + 1 < |t| && t[i + 1] == CheckTranscriptionStatus
      {
        if i == 0 {
          assert c'.state == CheckTranscriptionStatus;
        } else {
          assert Run(c')[i - 1] == Wait30Seconds;
        }
      }
      forall i | 0 <= i < |t| && IsTerminal(t[i]) ensures i == |t| - 1 {
        if i > 0 {
          assert IsTerminal(Run(c')[i - 1]);
        }
      }
  }

  /** An execution under the overall timeout: only the waits take time. `timedOut` says the
      execution hit the timeout during a wait that therefore did not complete. */
  datatype Timed = Timed(trace: seq<State>, timedOut: bool)

  function RunTimed(c: Config, elapsed: nat): Timed
    requires elapsed <= TimeoutSeconds
    decreases |c.polls|, Rank(c.state)
  {
    if c.state == Wait30Seconds && elapsed + WaitSeconds > TimeoutSeconds then Timed([], true)
    else
      var after := if c.state == Wait30Seconds then elapsed + WaitSeconds else elapsed;
      match Step(c)
      case None => Timed([c.state], false)
      case Some(c') =>
        var t := RunTimed(c', after);
        Timed([c.state] + t.trace, t.timedOut)
  }

  /** The waits that complete fit in the time left: elapsed + 30 * waits <= 300. */
  lemma {:induction false} TimedWaitsFit(c: Config, elapsed: nat)
    requires elapsed <= TimeoutSeconds
    ensures elapsed + WaitSeconds * Count(Wait30Seconds, RunTimed(c, elapsed).trace) <= TimeoutSeconds
    decreases |c.polls|, Rank(c.state)
  {
    if c.state == Wait30Seconds && elapsed + WaitSeconds > TimeoutSeconds {
    } else {
      var after := if c.state == Wait30Seconds then elapsed + WaitSeconds else elapsed;
      match Step(c)
      case None =>
      case Some(c') =>
        TimedWaitsFit(c', after);
        var t := RunTimed(c', after);
        assert RunTimed(c, elapsed).trace == [c.state] + t.trace;
        assert multiset(RunTimed(c, elapsed).trace)[Wait30Seconds]
            == (if c.state == Wait30Seconds then 1 else 0) + multiset(t.trace)[Wait30Seconds];
    }
  }

  /** With 30-second waits and a five-minute timeout, at most ten waits complete. */
  lemma AtMostTenWaits(submitted: string, polls: seq<string>)
    ensures Count(Wait30Seconds, RunTimed(Initial(submitted, polls), 0).trace) <= 10
  {
    TimedWaitsFit(Initial(submitted, polls), 0);
  }

  /** A run that does not time out is the untimed run. */
  lemma {:induction false} TimedAgreesWithRun(c: Config, elapsed: nat)
    requires elapsed <= TimeoutSeconds
    requires !RunTimed(c, elapsed).timedOut
    ensures RunTimed(c, elapsed).trace == Run(c)
    decreases |c.polls|, Rank(c.state)
  {
    var after := if c.state == Wait30Seconds then elapsed + WaitSeconds else elapsed;
    match Step(c)
    case None =>
    case Some(c') =>
      TimedAgreesWithRun(c', after);
  }

  /** Reaching the wait with `elapsed` seconds gone, if the next m statuses are all pending
      and m + 1 more waits would not fit, the execution times out. */
  lemma {:induction false} PendingRoundsTimeOut(status: string, polls: seq<string>, m: nat, elapsed: nat)
    requires elapsed <= TimeoutSeconds
    requires m <= |polls| && forall i :: 0 <= i < m ==> !Decisive(polls[i])
    requires elapsed + WaitSeconds * (m + 1) > TimeoutSeconds
    ensures RunTimed(Config(Wait30Seconds, status, polls), elapsed).timedOut
    decreases m
  {
    var w := Config(Wait30Seconds, status, polls);
    if elapsed + WaitSeconds > TimeoutSeconds {
    } else {
      var ch := Config(CheckTranscriptionStatus, status, polls);
      var e := elapsed + WaitSeconds;
      assert RunTimed(w, elapsed).timedOut == RunTimed(ch, e).timedOut;
      assert m > 0;
      var co := Config(TranscriptionComplete, polls[0], polls[1..]);
      assert RunTimed(ch, e).timedOut == RunTimed(co, e).timedOut;
      var next := Config(Wait30Seconds, polls[0], polls[1..]);
      assert Step(co) == Some(next);
      assert RunTimed(co, e).timedOut == RunTimed(next, e).timedOut;
      PendingRoundsTimeOut(polls[0], polls[1..], m - 1, e);
    }
  }

  /** Ten pending statuses in a row from the start: the execution times out before it can
      branch, whatever the later statuses are. */
  lemma TenPendingChecksTimeOut(submitted: string, polls: seq<string>)
    requires |polls| >= 10 && forall i :: 0 <= i < 10 ==> !Decisive(polls[i])
    ensures RunTimed(Initial(submitted, polls), 0).timedOut
  {
    var c := Initial(submitted, polls);
    assert RunTimed(c, 0).timedOut == RunTimed(Config(Wait30Seconds, submitted, polls), 0).timedOut;
    PendingRoundsTimeOut(submitted, polls, 10, 0);
  }
}
