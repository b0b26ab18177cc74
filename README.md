# Patient chart automation: the conversation-analysis pipeline, modelled in Dafny

The system turns a recorded patient–provider conversation into a chart summary. A
Streamlit front end uploads the audio file to S3 and posts a request to an API Lambda.
That Lambda copies the request fields into the input of a Step Functions workflow and
starts it. The workflow:

1. submits a medical transcription job ("Submit Transcribe Job");
2. waits 30 seconds and checks the job status ("Check Transcription Status");
3. branches on the status:
   - COMPLETED goes to a Bedrock summarisation Lambda, then to a Comprehend Medical
     entity-detection Lambda, then to Succeeded;
   - FAILED goes to the Fail state;
   - any other status goes back to the wait.

The execution has a five-minute timeout. Every task passes one dictionary, the
envelope `{ExecutionInput, Outputs}`, to the next. Each stage reads some fields of the
envelope and adds or refreshes one output. The front end polls the execution until it
is no longer RUNNING, then splits the detected entities into columns.

The model has one module per part of the system:

- `Json` (json.dfy): the values the handlers pass around. It also holds the Python
  exceptions they can raise, a `Result` type for "returns or raises", the subscript and
  item-assignment operations, and a `Dict` class for a dictionary changed in place.
- `Text` (text.dfy): the Python string operations used. These are `split`, `join`,
  `rstrip` (which strips a set of characters), substring `in`, `replace("$", "\$")`,
  `lower`, `capitalize`, `rfind` and `os.path.splitext`. The module has round-trip and
  characterisation lemmas about them.
- `StateMachine` (state_machine.dfy): the chain as a transition function, and the run
  over the sequence of statuses the checks observe, with and without the timeout.
- `ApiHandler` (api_handler.dfy): the API Lambda. A class holds the module-level
  `input` dict that survives between invocations.
- `TranscribeStage` (transcribe_stage.dfy), `BedrockStage` (bedrock_stage.dfy) and
  `ComprehendStage` (comprehend_stage.dfy): the three task Lambdas.
  - Each handler is a function on the envelope's contents, and the lemmas are stated
    about that function.
  - A method on a `Dict` does the work in place, in the source's order, and is proved
    to give that function's result.
- `Workflow` (workflow.dfy): one execution of the chain with the stage handlers in its
  task states. It shows that every orderly execution is a run of the abstract state
  machine, and that a successful one ends with the input and all three stage outputs.
- `Frontend` (frontend.dfy): the front end's logic. This covers job-name and URI
  derivation, the API payload, the dropdown labels, the file-type check, the wait for
  the execution, and the entity columns.

The AWS services are function-typed parameters ("oracles") that return a value or
raise. They are the transcription start and get calls, S3 get_object, Bedrock
invoke_model, Comprehend Medical detect_entities_v2, and Step Functions start_execution.
In the front end they are S3 upload_file (the `upload` argument of
`Frontend.Session.UploadAudioStartSummarization`), the `requests.post` to the API
(`Frontend.Post`) and the answers of Step Functions describe_execution (the
`descriptions` sequence of `Frontend.AwaitExecution`).
Facts such as "the service is asked about this job and nothing else" are stated as
lemmas: two oracles that agree on that one request give the same result.

Four behaviours are modelled exactly as the code is written:

- The job name is cut with `rstrip`, which removes trailing characters drawn from the
  set of `'.' + ext`, not the suffix. `Frontend.RStripStripsCharacterSet` shows the
  final `w` of `interview` being lost.
- The file-type check is a substring test anywhere in the name
  (`Frontend.IsAcceptedExamples`).
- The trailing comma in `transcribe_audio_s3` turns the service response into a
  one-element tuple.
- The API handler's `input` dict is shared across invocations. A failing call leaves
  the earlier copies of that call in place.

## Model

| member | source | states |
|---|---|---|
| Json.SetItem | cdk/lambda/transcribe/main.py:30 | `d[key] = x` succeeds exactly on a dict: the new dict has the old keys plus `key`, holds `x` at `key`, and keeps every other entry |
| Text.Split | frontend/app.py:60-61 | `s.split(c)` has one piece more than `c` occurs in `s`, and no piece contains `c` |
| Text.JoinSplit | frontend/app.py:91-93 | joining the pieces of `s.split(c)` with `c` gives `s` back |
| Text.JoinAvoids | frontend/app.py:93 | a character that is in no part and not in the separator is not in the joined string |
| Text.RStrip | frontend/app.py:61 | `s.rstrip(chars)` is a prefix of `s`, does not end in a character of the set, and everything cut off belongs to the set |
| Text.RStripUnique | frontend/app.py:61 | those three facts determine the result of `rstrip` |
| Text.Contains | frontend/app.py:118 | `sub in s` holds exactly when `sub` occurs in `s` at some index |
| Text.EscapeDollars | cdk/lambda/bedrock/main.py:41 | the escaped text is longer than the input by the number of `$` it contains |
| Text.EscapedStartsWithoutDollar | cdk/lambda/bedrock/main.py:41 | an escaped non-empty text never starts with `$` |
| Text.UnescapeEscape | cdk/lambda/bedrock/main.py:41 | deleting the backslash in front of each `$` recovers the text the model returned |
| Text.EscapedDollarsArePreceded | cdk/lambda/bedrock/main.py:41 | every `$` of the escaped text stands right after a backslash |
| Text.EscapeWithoutDollar | cdk/lambda/bedrock/main.py:41 | a text without `$` is stored unchanged |
| Text.Lower | cdk/lambda/bedrock/main.py:38 | `lower()` keeps the length and lower-cases each character |
| Text.LowerConcat | cdk/lambda/bedrock/main.py:37-38 | lower-casing a concatenation lower-cases each part |
| Text.LowerConcat3 | cdk/lambda/bedrock/main.py:37-38 | the same, for the command's head, the language name and the tail |
| Text.Capitalize | frontend/app.py:92 | `capitalize()` keeps the length, upper-cases the first character and lower-cases the rest |
| Text.CaseMapKeepsUnderscore | frontend/app.py:92 | capitalising a part without `_` yields no `_` |
| Text.LastIndex | frontend/app.py:90 | the index `rfind` returns lies between -1 and the last position |
| Text.LastIndexFacts | frontend/app.py:90 | the index found holds the character, and no later index does |
| Text.SplitExt | frontend/app.py:90 | definition, no contract: `os.path.splitext`, cutting at the last '.' of the last path component unless only dots precede it there |
| Text.SplitExtFacts | frontend/app.py:90 | `splitext(p)`: root + ext is `p`, and a non-empty ext is one `.` followed by no `.` and no `/` |
| StateMachine.Next | cdk/cdk/cdk_stack.py:132-138 | definition, no contract: the chain's transitions; submit goes to the wait, the wait to the status task, that to the Choice, the Choice by status to summarisation, Fail or the wait, summarisation to detection, detection to Succeeded, and the terminal states have none |
| StateMachine.Run | cdk/cdk/cdk_stack.py:132-138 | definition, no contract: the states visited from a configuration, following Next and consuming one observed status per check, until no step is left |
| StateMachine.RunTimed | cdk/cdk/cdk_stack.py:116-144 | definition, no contract: the same run, with 30 seconds added per wait, cut off with a timeout flag at a wait that would pass the 300 seconds |
| StateMachine.Step | cdk/cdk/cdk_stack.py:132-138 | a step exists exactly when the state is not terminal (Succeeded, Fail) and, at the status check, a status is left to observe; it follows the chain's transition, and it consumes a status or lowers the rank |
| StateMachine.StartsWithSubmitThenWait | cdk/cdk/cdk_stack.py:133 | every run starts at Submit Transcribe Job, which is followed by the wait |
| StateMachine.RunFromStart | cdk/cdk/cdk_stack.py:133 | the run from the start is the submit task followed by the run from the wait |
| StateMachine.RunFromWait | cdk/cdk/cdk_stack.py:133-138 | when the first decisive status is at index k, the run from the wait goes round the loop k + 1 times and then takes that status's branch |
| StateMachine.RunFromWaitPending | cdk/cdk/cdk_stack.py:133-138 | when no observed status is COMPLETED or FAILED, every round returns to the wait |
| StateMachine.WaitsBeforeBranch | cdk/cdk/cdk_stack.py:133-138 | if the n-th check is the first to see COMPLETED or FAILED, the whole run is submit, n rounds, then the branch, and it visits the wait exactly n times |
| StateMachine.BranchTrace | cdk/cdk/cdk_stack.py:132-137 | after the submit task and n rounds, COMPLETED's branch ends with summarisation, detection and Succeeded and never visits Fail; any other decisive status ends in Fail and visits none of the three |
| StateMachine.CompletedLeadsToSucceeded | cdk/cdk/cdk_stack.py:132-136 | COMPLETED leads to summarisation, entity detection and Succeeded, in that order, as the run's last three states, and Fail is never visited |
| StateMachine.FailedNeverSummarizes | cdk/cdk/cdk_stack.py:122-137 | FAILED ends the run in Fail, and neither summarisation, detection nor Succeeded is visited |
| StateMachine.PendingNeverTerminates | cdk/cdk/cdk_stack.py:138 | statuses other than COMPLETED and FAILED loop back to the wait; such a run reaches neither terminal state |
| StateMachine.RunShape | cdk/cdk/cdk_stack.py:122-134 | in every run the wait is followed by the status check and only by it, and a terminal state can only be the last |
| StateMachine.TimedWaitsFit | cdk/cdk/cdk_stack.py:116-144 | the waits that complete fit in the time left before the timeout |
| StateMachine.AtMostTenWaits | cdk/cdk/cdk_stack.py:116-144 | with 30-second waits and a 5-minute timeout, at most ten waits complete in one execution |
| StateMachine.TimedAgreesWithRun | cdk/cdk/cdk_stack.py:140-144 | a run that does not time out is the run without a timeout |
| StateMachine.PendingRoundsTimeOut | cdk/cdk/cdk_stack.py:116-144 | pending statuses for longer than the time left make the execution time out |
| StateMachine.TenPendingChecksTimeOut | cdk/cdk/cdk_stack.py:116-144 | ten pending checks in a row from the start make the execution time out before it can branch |
| ApiHandler.Remap | cdk/lambda/api/main.py:29-33 | definition, no contract: the five `input[new] = body[old]` copies in order, stopping at the first missing body key with its KeyError |
| ApiHandler.Handler | cdk/lambda/api/main.py:28-53 | definition, no contract: read `body`, do the copies, start the execution with the shared dict, answer with the ARN or re-raise |
| ApiHandler.RemapEffect | cdk/lambda/api/main.py:29-33 | with the first k body fields present, exactly the first k copies happen, each under its new name with the body's value; other keys keep their values; a missing k-th field raises KeyError for it |
| ApiHandler.HandlerWithAllFields | cdk/lambda/api/main.py:28-53 | with all five fields, the shared dict afterwards holds exactly the body's values under the new names, whatever it held before; the execution is started with it; the answer is a 200, non-base64 response with content-type application/json whose body's sm_execution_arn is the returned ARN, or the client's exception re-raised instead of a response |
| ApiHandler.HandlerMissingField | cdk/lambda/api/main.py:28-38 | a missing field raises KeyError before start_execution, the outcome not depending on it; the fields copied before stay overwritten and the other keys are unchanged |
| ApiHandler.ApiLambda.constructor | cdk/lambda/api/main.py:10-11 | the Lambda starts with the configured state machine ARN and an empty shared dict |
| ApiHandler.ApiLambda.Handle | cdk/lambda/api/main.py:13-53 | the handler updates the shared dict key by key, and its new contents and its answer are those of the handler function |
| TranscribeStage.Handler | cdk/lambda/transcribe/main.py:23-62 | definition, no contract: poll mode when Outputs is present and not None, submit mode otherwise |
| TranscribeStage.PollMode | cdk/lambda/transcribe/main.py:23-32 | definition, no contract: look up the job named in ExecutionInput and write its reported status into Outputs.TranscriptionOutput |
| TranscribeStage.SubmitMode | cdk/lambda/transcribe/main.py:34-62 | definition, no contract: read the five job fields, start the job and wrap the event and the job record's four fields in a fresh envelope |
| TranscribeStage.TranscribeAudio | cdk/lambda/transcribe/main.py:65-79 | definition, no contract: map the language to its code, build the output key and start the medical transcription job |
| TranscribeStage.ModeSelection | cdk/lambda/transcribe/main.py:23-34 | the mode depends only on whether Outputs is present and not None: in poll mode the submission service plays no part, and in submit mode the status service plays none |
| TranscribeStage.PollLooksUpJobName | cdk/lambda/transcribe/main.py:26-29 | the poll asks the service only about ExecutionInput.transcribe_job_name |
| TranscribeStage.PollChangesOnlyStatus | cdk/lambda/transcribe/main.py:26-32 | a successful poll sets Outputs.TranscriptionOutput.TranscriptionJobStatus to the reported status, and every other key at every level keeps its value |
| TranscribeStage.PollWithoutJobName | cdk/lambda/transcribe/main.py:26 | without a job name the poll raises before the service is asked |
| TranscribeStage.SubmitRequestsEnglishJob | cdk/lambda/transcribe/main.py:65-79 | 'English' maps to en-US, and the job writes to prefix/medical/name.json with PRIMARYCARE and CONVERSATION; the result depends on the service only through that request |
| TranscribeStage.UnsupportedLanguageRaises | cdk/lambda/transcribe/main.py:66-68 | any other language leaves language_code unbound and raises before the service is called |
| TranscribeStage.ResponseNormalisation | cdk/lambda/transcribe/main.py:48-79 | the trailing comma always yields a one-element tuple, and the tuple and the bare response normalise to the same job record |
| TranscribeStage.SubmitShape | cdk/lambda/transcribe/main.py:54-62 | the envelope holds exactly ExecutionInput (the event) and Outputs, which holds exactly TranscriptionOutput with the four fields copied from the job record |
| TranscribeStage.TranscriptionOutputShape | cdk/lambda/transcribe/main.py:55-60 | TranscriptionOutput has exactly the four keys, each copied from the job record |
| TranscribeStage.SubmitThenPoll | cdk/lambda/transcribe/main.py:23-62 | the envelope the submission returns selects poll mode next time, and that poll asks about the submitted job |
| TranscribeStage.Handle | cdk/lambda/transcribe/main.py:9-62 | the poll branch updates the event in place and returns it; the submit branch leaves the event alone and returns a new dict; errors leave the event unchanged |
| TranscribeStage.HandlePoll | cdk/lambda/transcribe/main.py:23-32 | the status is written into the event's own dicts, giving the poll function's result |
| TranscribeStage.HandleSubmit | cdk/lambda/transcribe/main.py:34-62 | TranscriptionOutput is filled field by field into a fresh envelope equal to the submit function's result |
| BedrockStage.PromptText | cdk/lambda/bedrock/main.py:37-38 | definition, no contract: the transcript, '. ' and the lower-cased command naming the language |
| BedrockStage.CallModel | cdk/lambda/bedrock/main.py:48-64 | definition, no contract: invoke the model with the wrapped prompt and take the `completion` of its answer |
| BedrockStage.Summarize | cdk/lambda/bedrock/main.py:14-46 | definition, no contract: read the transcript object, ask the model, and store the escaped completion as BedrockOutput |
| BedrockStage.PromptLowersLanguage | cdk/lambda/bedrock/main.py:37-38 | the prompt is the transcript, '. ', and the command lower-cased, the language name included |
| BedrockStage.CallModelAsksWrappedPrompt | cdk/lambda/bedrock/main.py:48-64 | the model is asked once, with "\n\nHuman: " + prompt + "\n\nAssistant:" and 1024 tokens, and the result depends only on its answer to that request |
| BedrockStage.ReadsTranscribedObject | cdk/lambda/bedrock/main.py:28-32 | the object read is in the bucket the transcription job wrote to, at the key it was told to write |
| BedrockStage.ReadsOnlyFirstTranscript | cdk/lambda/bedrock/main.py:32-35 | only results.transcripts[0].transcript of that object is used |
| BedrockStage.SummarizeStoresEscapedCompletion | cdk/lambda/bedrock/main.py:40-46 | Outputs.BedrockOutput becomes {bedrock_model_result: escaped completion}, unescaping it gives the completion back, and ExecutionInput, the other outputs and the other keys are unchanged |
| BedrockStage.OutputsReadAfterModel | cdk/lambda/bedrock/main.py:40-44 | Outputs is read only after the model has answered, so a missing Outputs raises KeyError after the call |
| BedrockStage.Handle | cdk/lambda/bedrock/main.py:14-46 | the handler writes BedrockOutput into the event's own Outputs and returns the event; errors leave it unchanged |
| ComprehendStage.Annotate | cdk/lambda/comprehend-health/main.py:23-29 | definition, no contract: detect entities in the stored summary and store their list as ComprehendMedicalOutput |
| ComprehendStage.DetectsStoredSummary | cdk/lambda/comprehend-health/main.py:23-24 | the text sent for detection is exactly Outputs.BedrockOutput.bedrock_model_result |
| ComprehendStage.AnnotateStoresEntities | cdk/lambda/comprehend-health/main.py:26-29 | ComprehendMedicalOutput holds only `entities`, which is the service's Entities list element for element; every other output and key is unchanged |
| ComprehendStage.DetectionErrorReraised | cdk/lambda/comprehend-health/main.py:32-41 | an exception from detection is re-raised unchanged |
| ComprehendStage.MissingSummaryRaisesFirst | cdk/lambda/comprehend-health/main.py:23 | without a readable summary the handler raises before detection, with KeyError when BedrockOutput is missing |
| ComprehendStage.SummarizeThenDetect | cdk/lambda/comprehend-health/main.py:23 | the summary this stage reads is the escaped completion the bedrock stage stored |
| ComprehendStage.Handle | cdk/lambda/comprehend-health/main.py:8-29 | the handler writes ComprehendMedicalOutput into the event's own Outputs and returns the event; an exception leaves the event unchanged |
| Workflow.Poll | cdk/cdk/cdk_stack.py:116-138 | definition, no contract: from the wait, time out when 30 more seconds pass the timeout, else run the status task and branch on the status it wrote |
| Workflow.Execute | cdk/cdk/cdk_stack.py:92-144 | definition, no contract: run the submit task on the input, then the poll loop from the wait at 0 seconds |
| Workflow.PollFollows | cdk/cdk/cdk_stack.py:98-138 | from the wait, an orderly execution visits exactly the states of the abstract timed run over the statuses it observed |
| Workflow.ExecutionFollowsStateMachine | cdk/cdk/cdk_stack.py:92-144 | every execution in which no task raises is a run of the state machine over the statuses the Choice saw, timing out exactly when that run does |
| Workflow.PollChecksFit | cdk/cdk/cdk_stack.py:116-144 | each status check follows a completed wait, so the checks fit in the time left |
| Workflow.AtMostTenChecks | cdk/cdk/cdk_stack.py:116-144 | no execution checks the status more than ten times |
| Workflow.FinishNeverFails | cdk/cdk/cdk_stack.py:132 | summarisation and detection end in Succeeded or a task error, never in Fail |
| Workflow.FailedPollSkipsAnalysis | cdk/cdk/cdk_stack.py:122-137 | from the wait, ending in Fail means FAILED was the last status seen, with the stated cause, and no summarisation or detection |
| Workflow.FailedExecutionSkipsAnalysis | cdk/cdk/cdk_stack.py:122-138 | an execution that ends in Fail saw FAILED last and neither summarised nor detected entities |
| Workflow.PipelineCarries | cdk/cdk/cdk_stack.py:92-114 | the deployed task handlers keep ExecutionInput and TranscriptionOutput, and the last two add BedrockOutput and ComprehendMedicalOutput |
| Workflow.PollCarries | cdk/cdk/cdk_stack.py:98-138 | with such handlers, a successful poll loop ends with the input and all three outputs |
| Workflow.ExecuteCarries | cdk/cdk/cdk_stack.py:92-138 | with such handlers and a submission that builds the envelope, a successful execution ends with the input and all three outputs |
| Workflow.SubmitCarries | cdk/lambda/transcribe/main.py:54-62 | the submit task puts the workflow input under ExecutionInput, next to TranscriptionOutput |
| Workflow.SucceededCarriesAllOutputs | cdk/cdk/cdk_stack.py:92-144 | a workflow input that the deployed chain runs to Succeeded comes out under ExecutionInput unchanged, with TranscriptionOutput, BedrockOutput and ComprehendMedicalOutput |
| Frontend.JobName | frontend/app.py:60-61 | definition, no contract: the second '/' segment of the key, `rstrip`ped by '.' + the second '.' piece; IndexError when either piece is missing |
| Frontend.JobNameFacts | frontend/app.py:60-61 | the job name can be derived exactly when the key holds a '.' and a '/'; it is a prefix of the second '/' segment that does not end in a character of '.' + ext, and all that was cut off is in that set |
| Frontend.RStripStripsCharacterSet | frontend/app.py:61 | the set semantics: 'u-interview.wav' with ext 'wav' becomes 'u-intervie' |
| Frontend.Session.constructor | frontend/app.py:116 | the job name list starts empty |
| Frontend.Session.UploadAudioStartSummarization | frontend/app.py:55-65 | after the upload, the derived job name is appended to the list, and the list, s3://bucket/key and bucket are returned; a failure raises and appends nothing |
| Frontend.SubmitApiRequest | frontend/app.py:68-78 | definition, no contract: post the payload and return the response text on both branches of the status test |
| Frontend.SubmitReturnsTextOnAnyStatus | frontend/app.py:68-78 | the response text is returned whatever the status code |
| Frontend.PayloadReachesWorkflow | frontend/app.py:68-72 | the payload has exactly the five keys the API handler reads, with output_prefix 'audio_transcripts', so the workflow input gets every field the transcribe stage reads |
| Frontend.DisplayName | frontend/app.py:90-93 | definition, no contract: the name without extension, split at '_', each part capitalised, joined with spaces |
| Frontend.DisplayNameHasNoUnderscore | frontend/app.py:90-93 | a dropdown label never contains '_' |
| Frontend.FormatAudioNames | frontend/app.py:87-97 | the dropdown list is "Select" followed by the labels in file order; the mapping has one entry per label, sending it to a file that has it, the file itself when no later file shares the label |
| Frontend.IsAccepted | frontend/app.py:118 | definition, no contract: 'wav', 'mp4' or 'mp3' is a substring of the name |
| Frontend.IsAcceptedMeansOccurs | frontend/app.py:118 | a file is accepted exactly when 'wav', 'mp4' or 'mp3' occurs anywhere in its name |
| Frontend.IsAcceptedExamples | frontend/app.py:118 | 'wav' inside a word is enough: 'wavelength_notes.txt' is accepted |
| Frontend.LeadingRunning | frontend/app.py:130 | the number of leading RUNNING descriptions: all before it say RUNNING, and the one at it does not |
| Frontend.AwaitExecution | frontend/app.py:128-138 | the loop stops at the first status that is not RUNNING, after that many describe calls; SUCCEEDED yields output['Outputs'], any other status raises naming it |
| Frontend.EntityError | frontend/app.py:143-149 | an entity gets through the loop exactly when it is well formed (a dict with Text, Category and Type whose condition text is a string) |
| Frontend.MedicalConditions | frontend/app.py:147-148 | definition, no contract: the texts of the entities whose Category is MEDICAL_CONDITION, in order |
| Frontend.ConditionPositions | frontend/app.py:147-148 | the medical conditions are the texts of the condition entities, at increasing positions, and every condition entity contributes one |
| Frontend.SplitEntities | frontend/app.py:142-149 | the loop succeeds exactly when every entity is well formed; the Text, Category and Type columns are then aligned with the entities, and med_condition lists the condition texts in order; otherwise it raises what the first malformed entity raises |
| Frontend.ReadsStageOutputs | frontend/app.py:140-143 | Outputs as the bedrock and comprehend stages store them give back the stored summary and the detected entity list, element for element |
| Frontend.ShowResults | frontend/app.py:140-149 | the summary and the entity columns are read from the execution's Outputs; the columns exist exactly when every entity is well formed, and then they are aligned with the entities and med_condition lists the condition texts; any exception on the way is what is raised |

## Left out

- AWS calls: every boto3, Bedrock, S3, Comprehend Medical and Step Functions call is an
  oracle parameter returning a value or raising. The services' behaviour is not modelled.
- JSON serialisation: `json.loads` and `json.dumps`, the UTF-8 byte encoding and
  `readlines`. Payloads are values of the `Json` datatype from the start, so the API
  handler's body is taken as already parsed, and its response body is kept as a map.
- Logging and Streamlit output: log lines, `st.success`/`st.error`, spinners, `st.stop`.
  Their calls change no modelled value.
- The rest of the front end: page layout, widgets, the pandas DataFrame, the LangChain
  agent and `get_llm`, audio playback, and `find_audio_files` (`os.walk`). The dropdown
  selection itself is the user's choice and is not modelled.
- Time: the 30-second Wait and the 5-minute timeout are counted in seconds of waiting
  only. Task durations count as zero, and the front end's `time.sleep(5)` is left out.
- Frontend.AwaitExecution: the describe_execution answers are a finite sequence. When
  every one says RUNNING, the model returns None where the loop would keep polling.
- Task failures: the chain has no Catch, so a Lambda that raises fails the execution
  (`TaskFailed`). It does not go to the Fail state.
- Workflow.ExecutionFollowsStateMachine: is stated for orderly executions only, where
  no task raises and the Choice can read its status path. Executions ended by a task
  error are covered only by FailedExecutionSkipsAnalysis and FinishNeverFails.
- Workflow.StatusText: a status that is not a string matches neither string_equals
  condition, so it is read as a pending status.
- TranscribeStage.Interpolate: the f-string of the output key would format a non-string
  value with `str()`. The model raises TypeError instead, because the workflow input
  fields are strings.
- Text.Lower and Text.Capitalize: case mapping covers the ASCII letters only. Python's
  Unicode case tables are not modelled.
- Aliasing: only the top-level event is a mutable `Dict`. Nested dictionaries are
  values, so in-place writes into a nested dict that another reference shares are not
  modelled. The envelope has no such sharing.
- Concurrency between executions, and between invocations of the API Lambda that share
  its module-level dict.
- `cdk/cdk/frontend_stack.py`, and the resource declarations of `cdk/cdk/cdk_stack.py`
  outside the chain: infrastructure with no behaviour to state.
