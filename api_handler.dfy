/** The API Lambda: it copies the request fields under new names into a dict that lives at
    module level (and so survives between invocations), starts a workflow execution with
    that dict as input, and answers with the execution's ARN. */
module ApiHandler {
  import opened Json

  /** Request body key, and the workflow input key it is copied to, in handler order. */
  const Renames: seq<(string, string)> := [
    ("job_name", "transcribe_job_name"),
    ("job_uri", "transcribe_job_uri"),
    ("output_location", "transcribe_job_bucket"),
    ("output_prefix", "transcribe_job_output_prefix"),
    ("language", "transcribe_job_language")
  ]

  const BodyKeys: set<string> :=
    {"job_name", "job_uri", "output_location", "output_prefix", "language"}

  const InputKeys: set<string> :=
    {"transcribe_job_name", "transcribe_job_uri", "transcribe_job_bucket",
     "transcribe_job_output_prefix", "transcribe_job_language"}

  datatype ApiResponse = ApiResponse(
    isBase64Encoded: bool,
    statusCode: int,
    body: map<string, Json>,
    headers: map<string, string>)

  /** The answer for a started execution. */
  function Started(executionArn: string): ApiResponse {
    ApiResponse(false, 200, map["sm_execution_arn" := JStr(executionArn)],
                map["content-type" := "application/json"])
  }

  /** `start_execution(stateMachineArn, input)`: the execution ARN, or what the client raised. */
  type StartExecution = (string, map<string, Json>) -> Result<string>

  /** The workflow input keys written by the first k renames. */
  function Targets(renames: seq<(string, string)>, k: nat): set<string>
    requires k <= |renames|
  {
    set i | 0 <= i < k :: renames[i].1
  }

  predicate DistinctTargets(renames: seq<(string, string)>) {
    forall i, j :: 0 <= i < j < |renames| ==> renames[i].1 != renames[j].1
  }

  /** The renames performed one after the other: the dict after those that happened, and
      the exception that stopped the rest, if any. */
  function Remap(input: map<string, Json>, body: Json, renames: seq<(string, string)>)
    : (map<string, Json>, Option<Exception>)
    decreases |renames|
  {
    if |renames| == 0 then (input, None)
    else
      match Get(body, renames[0].0)
      case Raise(e) => (input, Some(e))
      case Ok(v) => Remap(input[renames[0].1 := v], body, renames[1..])
  }

  /** The first k body keys are present and, unless k covers all renames, the next one is
      missing. */
  predicate PresentUpTo(b: map<string, Json>, renames: seq<(string, string)>, k: nat) {
    k <= |renames|
    && (forall i :: 0 <= i < k ==> renames[i].0 in b)
    && (k < |renames| ==> renames[k].0 !in b)
  }

  /** With the first k body keys present: exactly the first k copies happen, each with the
      body's value; every other key keeps its value; a missing k-th key raises KeyError. */
  lemma {:induction false} RemapEffect(input: map<string, Json>, b: map<string, Json>,
                                       renames: seq<(string, string)>, k: nat)
    requires DistinctTargets(renames) && PresentUpTo(b, renames, k)
    ensures var (written, err) := Remap(input, JObj(b), renames);
      && written.Keys == input.Keys + Targets(renames, k)
      && (forall i :: 0 <= i < k ==> written[renames[i].1] == b[renames[i].0])
      && (forall key :: key in input && key !in Targets(renames, k) ==> written[key] == input[key])
      && err == (if k < |renames| then Some(KeyError(renames[k].0)) else None)
    decreases |renames|
  {
    if |renames| > 0 {
      if k == 0 {
        assert Targets(renames, 0) == {};
      } else {
        var first, rest := renames[0], renames[1..];
        var input' := input[first.1 := b[first.0]];
        assert PresentUpTo(b, rest, k - 1) by {
          forall i | 0 <= i < k - 1 ensures rest[i].0 in b {
            assert rest[i] == renames[i + 1];
          }
          if k < |renames| {
            assert rest[k - 1] == renames[k];
          }
        }
        assert DistinctTargets(rest) by {
          forall i, j | 0 <= i < j < |rest| ensures rest[i].1 != rest[j].1 {
            assert rest[i] == renames[i + 1] && rest[j] == renames[j + 1];
          }
        }
        RemapEffect(input', b, rest, k - 1);
        TargetsCons(renames, k);
        var written := Remap(input', JObj(b), rest).0;
        forall i | 0 <= i < k ensures written[renames[i].1] == b[renames[i].0] {
          if i == 0 {
            FirstTargetNotLater(renames, k);
          } else {
            assert rest[i - 1] == renames[i];
          }
        }
      }
    }
  }

  lemma TargetsCons(renames: seq<(string, string)>, k: nat)
    requires 0 < k <= |renames|
    ensures Targets(renames, k) == {renames[0].1} + Targets(renames[1..], k - 1)
  {
    var rest := renames[1..];
    forall t | t in Targets(renames, k) ensures t in {renames[0].1} + Targets(rest, k - 1) {
      var i :| 0 <= i < k && renames[i].1 == t;
      if i > 0 { assert rest[i - 1].1 == t; }
    }
    forall t | t in Targets(rest, k - 1) ensures t in Targets(renames, k) {
      var i :| 0 <= i < k - 1 && rest[i].1 == t;
      assert renames[i + 1].1 == t;
    }
  }

  lemma FirstTargetNotLater(renames: seq<(string, string)>, k: nat)
    requires DistinctTargets(renames) && 0 < k <= |renames|
    ensures renames[0].1 !in Targets(renames[1..], k - 1)
  {
    var rest := renames[1..];
    forall j | 0 <= j < k - 1 ensures rest[j].1 != renames[0].1 {
      assert rest[j] == renames[j + 1];
    }
  }

  /** All five fields copied, from a body that holds them all. */
  function Renamed(b: map<string, Json>): map<string, Json>
    requires BodyKeys <= b.Keys
  {
    map[
      "transcribe_job_name" := b["job_name"],
      "transcribe_job_uri" := b["job_uri"],
      "transcribe_job_bucket" := b["output_location"],
      "transcribe_job_output_prefix" := b["output_prefix"],
      "transcribe_job_language" := b["language"]
    ]
  }

  /** lambda_handler as a function of the shared dict before the call: the shared dict after
      the call, and the response or the exception. */
  function Handler(input: map<string, Json>, stateMachineArn: string,
                   event: map<string, Json>, start: StartExecution)
    : (map<string, Json>, Result<ApiResponse>)
  {
    match Field(event, "body")
    case Raise(e) => (input, Raise(e))
    case Ok(body) =>
      var (written, err) := Remap(input, body, Renames);
      if err.Some? then (written, Raise(err.value))
      else
        match start(stateMachineArn, written)
        case Ok(arn) => (written, Ok(Started(arn)))
        case Raise(e) => (written, Raise(e))
  }

  lemma RenamesFacts()
    ensures DistinctTargets(Renames)
    ensures Targets(Renames, 5) == InputKeys
    ensures forall i :: 0 <= i < 5 ==> Renames[i].0 in BodyKeys
  {
    assert Targets(Renames, 5) == InputKeys by {
      assert Renames[0].1 in Targets(Renames, 5);
      assert Renames[1].1 in Targets(Renames, 5);
      assert Renames[2].1 in Targets(Renames, 5);
      assert Renames[3].1 in Targets(Renames, 5);
      assert Renames[4].1 in Targets(Renames, 5);
    }
  }

  /** A body with all five fields: afterwards the shared dict holds exactly the body's
      values under the new names, whatever it held before (it only ever holds these keys),
      and the execution is started with that dict; its ARN is the response body, or its
      exception is re-raised. */
  lemma HandlerWithAllFields(input: map<string, Json>, stateMachineArn: string,
                             event: map<string, Json>, start: StartExecution)
    requires input.Keys <= InputKeys
    requires "body" in event && event["body"].JObj? && BodyKeys <= event["body"].fields.Keys
    ensures var b := event["body"].fields;
      var (after, r) := Handler(input, stateMachineArn, event, start);
      && after == Renamed(b)
      && (start(stateMachineArn, Renamed(b)).Ok? ==>
            r == Ok(Started(start(stateMachineArn, Renamed(b)).value)))
      && (start(stateMachineArn, Renamed(b)).Raise? ==>
            r == Raise(start(stateMachineArn, Renamed(b)).error))
  {
    RemapAllFields(input, event["body"].fields);
  }

  lemma RemapAllFields(input: map<string, Json>, b: map<string, Json>)
    requires input.Keys <= InputKeys && BodyKeys <= b.Keys
    ensures Remap(input, JObj(b), Renames) == (Renamed(b), None)
  {
    RenamesFacts();
    assert PresentUpTo(b, Renames, 5);
    RemapEffect(input, b, Renames, 5);
    var written := Remap(input, JObj(b), Renames).0;
    MatchesRenamed(written, b);
  }

  lemma MatchesRenamed(written: map<string, Json>, b: map<string, Json>)
    requires BodyKeys <= b.Keys && written.Keys == InputKeys
    requires forall i :: 0 <= i < 5 ==>
      Renames[i].1 in written && Renames[i].0 in b && written[Renames[i].1] == b[Renames[i].0]
    ensures written == Renamed(b)
  {
    var r0, r1, r2, r3, r4 := Renames[0], Renames[1], Renames[2], Renames[3], Renames[4];
    assert written[r0.1] == b[r0.0] && written[r1.1] == b[r1.0] && written[r2.1] == b[r2.0]
      && written[r3.1] == b[r3.0] && written[r4.1] == b[r4.0];
  }

  /** A body without some field raises KeyError for the first missing one before the
      execution is started: the outcome is the same whatever start_execution would do. The
      fields before it are already overwritten in the shared dict, the others unchanged. */
  lemma HandlerMissingField(input: map<string, Json>, stateMachineArn: string,
                            event: map<string, Json>, start1: StartExecution,
                            start2: StartExecution, k: nat)
    requires "body" in event && event["body"].JObj? && k < 5
    requires PresentUpTo(event["body"].fields, Renames, k)
    ensures Handler(input, stateMachineArn, event, start1) == Handler(input, stateMachineArn, event, start2)
    ensures var b := event["body"].fields;
      var (after, r) := Handler(input, stateMachineArn, event, start1);
      && r == Raise(KeyError(Renames[k].0))
      && (forall i :: 0 <= i < k ==> Renames[i].1 in after && after[Renames[i].1] == b[Renames[i].0])
      && (forall key :: key in input && key !in Targets(Renames, k) ==> key in after && after[key] == input[key])
  {
    RenamesFacts();
    RemapEffect(input, event["body"].fields, Renames, k);
  }

  /** The Lambda's module state: the ARN read from the environment at load time and the
      module-level `input` dict. */
  class ApiLambda {
    const stateMachineArn: string
    var input: map<string, Json>

    /** Only the handler writes `input`, and only the five workflow input keys. */
    ghost predicate Valid()
      reads this
    {
      input.Keys <= InputKeys
    }

    constructor (stateMachineArn: string)
      ensures Valid() && this.stateMachineArn == stateMachineArn && input == map[]
    {
      this.stateMachineArn := stateMachineArn;
      input := map[];
    }

    /** lambda_handler: the copies change the shared dict one key at a time, so a missing
        field leaves the earlier copies in place. */
    method Handle(event: map<string, Json>, start: StartExecution) returns (r: Result<ApiResponse>)
      requires Valid()
      modifies this
      ensures Valid()
      ensures (input, r) == Handler(old(input), stateMachineArn, event, start)
    {
      var body :- Field(event, "body");
      ghost var before := input;
      var jobName :- Get(body, "job_name");
      input := input["transcribe_job_name" := jobName];
      var jobUri :- Get(body, "job_uri");
      input := input["transcribe_job_uri" := jobUri];
      var outputLocation :- Get(body, "output_location");
      input := input["transcribe_job_bucket" := outputLocation];
      var outputPrefix :- Get(body, "output_prefix");
      input := input["transcribe_job_output_prefix" := outputPrefix];
      var language :- Get(body, "language");
      input := input["transcribe_job_language" := language];
      assert Remap(before, body, Renames) == (input, None);
      var executionArn :- start(stateMachineArn, input);
      r := Ok(Started(executionArn));
    }
  }
}
