/** The transcribe Lambda. Invoked once by "Submit Transcribe Job" with the workflow input,
    it starts a medical transcription job and wraps the input into the envelope
    {ExecutionInput, Outputs: {TranscriptionOutput}}; invoked by "Check Transcription
    Status" with that envelope, it refreshes the job status in place. */
module TranscribeStage {
  import opened Json

  const EnglishCode: string := "en-US"
  const Specialty: string := "PRIMARYCARE"
  const JobType: string := "CONVERSATION"

  /** The job record fields copied into TranscriptionOutput, in order. */
  const JobFields: seq<string> := ["MedicalTranscriptionJobName", "TranscriptionJobStatus", "LanguageCode", "Media"]

  /** `event.get('Outputs') is not None`: the only test that selects the poll mode. */
  predicate IsPollMode(event: map<string, Json>) {
    "Outputs" in event && event["Outputs"] != JNull
  }

  /** The arguments of start_medical_transcription_job. */
  datatype StartRequest = StartRequest(
    jobName: Json,
    languageCode: string,
    media: map<string, Json>,
    outputBucketName: Json,
    outputKey: string,
    specialty: string,
    jobType: string)

  /** start_medical_transcription_job: the service response, or what the client raised. */
  type StartJob = StartRequest -> Result<Json>

  /** get_medical_transcription_job, keyed by the job name. */
  type GetJob = Json -> Result<Json>

  /** What the submit branch gets back from transcribe_audio_s3: a tuple or a bare response. */
  datatype SubmitResponse = Tupled(items: seq<Json>) | Plain(response: Json)

  /** The language mapping: only 'English' binds language_code; for any other value the
      use of the unbound local raises. */
  function LanguageCode(language: Json): Result<string> {
    if language == JStr("English") then Ok(EnglishCode) else Raise(UnboundLocalError("language_code"))
  }

  /** `f"{output_prefix}/medical/{job_name}.json"`. */
  function OutputKey(outputPrefix: string, jobName: string): string {
    outputPrefix + "/medical/" + jobName + ".json"
  }

  /** A value interpolated into the f-string; only strings are modelled. */
  function Interpolate(v: Json): Result<string> {
    match v
    case JStr(s) => Ok(s)
    case _ => Raise(TypeError("non-string value in the output key"))
  }

  /** transcribe_audio_s3. The trailing comma after the service call makes its result a
      one-element tuple. */
  function TranscribeAudio(jobName: Json, jobUri: Json, bucket: Json, outputPrefix: Json,
                           language: Json, start: StartJob): Result<SubmitResponse>
  {
    var code :- LanguageCode(language);
    var prefix :- Interpolate(outputPrefix);
    var name :- Interpolate(jobName);
    var response :- start(StartRequest(jobName, code, map["MediaFileUri" := jobUri], bucket,
                                       OutputKey(prefix, name), Specialty, JobType));
    Ok(Tupled([response]))
  }

  /** The normalisation of lines 48-51: unwrap a tuple, then take MedicalTranscriptionJob. */
  function MedicalJob(response: SubmitResponse): Result<Json> {
    match response
    case Tupled(items) =>
      if |items| == 0 then Raise(IndexError("tuple index out of range"))
      else Get(items[0], "MedicalTranscriptionJob")
    case Plain(v) => Get(v, "MedicalTranscriptionJob")
  }

  /** The four fields of TranscriptionOutput, read from the job record. */
  function TranscriptionOutput(job: Json): Result<map<string, Json>> {
    var jobName :- Get(job, "MedicalTranscriptionJobName");
    var status :- Get(job, "TranscriptionJobStatus");
    var code :- Get(job, "LanguageCode");
    var media :- Get(job, "Media");
    Ok(map["MedicalTranscriptionJobName" := jobName, "TranscriptionJobStatus" := status,
           "LanguageCode" := code, "Media" := media])
  }

  /** The submit branch: a fresh envelope around the event. */
  function SubmitMode(event: map<string, Json>, start: StartJob): Result<map<string, Json>> {
    var name :- Field(event, "transcribe_job_name");
    var uri :- Field(event, "transcribe_job_uri");
    var bucket :- Field(event, "transcribe_job_bucket");
    var prefix :- Field(event, "transcribe_job_output_prefix");
    var language :- Field(event, "transcribe_job_language");
    var response :- TranscribeAudio(name, uri, bucket, prefix, language, start);
    var job :- MedicalJob(response);
    var out :- TranscriptionOutput(job);
    Ok(map["ExecutionInput" := JObj(event), "Outputs" := JObj(map["TranscriptionOutput" := JObj(out)])])
  }

  /** The status the service reports for a job, as line 30 reads it. */
  function ReportedStatus(response: Json): Result<Json> {
    var job :- Get(response, "MedicalTranscriptionJob");
    Get(job, "TranscriptionJobStatus")
  }

  /** The poll branch: the event with Outputs.TranscriptionOutput.TranscriptionJobStatus
      replaced by the reported status. The right-hand side is evaluated before the target. */
  function PollMode(event: map<string, Json>, getJob: GetJob): Result<map<string, Json>> {
    var input :- Field(event, "ExecutionInput");
    var name :- Get(input, "transcribe_job_name");
    var response :- getJob(name);
    var status :- ReportedStatus(response);
    var outputs :- Field(event, "Outputs");
    var transcription :- Get(outputs, "TranscriptionOutput");
    var transcription' :- SetItem(transcription, "TranscriptionJobStatus", status);
    var outputs' :- SetItem(outputs, "TranscriptionOutput", transcription');
    Ok(event["Outputs" := outputs'])
  }

  /** lambda_handler, on the event's contents. */
  function Handler(event: map<string, Json>, start: StartJob, getJob: GetJob): Result<map<string, Json>> {
    if IsPollMode(event) then PollMode(event, getJob) else SubmitMode(event, start)
  }

  /** The mode depends on Outputs alone: in poll mode the submission service plays no part,
      in submit mode the status service plays none. */
  lemma ModeSelection(event: map<string, Json>, start1: StartJob, start2: StartJob,
                      getJob1: GetJob, getJob2: GetJob)
    ensures IsPollMode(event) ==> Handler(event, start1, getJob1) == Handler(event, start2, getJob1)
    ensures !IsPollMode(event) ==> Handler(event, start1, getJob1) == Handler(event, start1, getJob2)
  {
  }

  /** The job name the poll branch reads. */
  predicate HasJobName(event: map<string, Json>) {
    "ExecutionInput" in event && event["ExecutionInput"].JObj?
    && "transcribe_job_name" in event["ExecutionInput"].fields
  }

  function JobName(event: map<string, Json>): Json
    requires HasJobName(event)
  {
    event["ExecutionInput"].fields["transcribe_job_name"]
  }

  /** The poll branch asks the service about ExecutionInput.transcribe_job_name and about
      nothing else: two services that agree on that job give the same result. */
  lemma PollLooksUpJobName(event: map<string, Json>, getJob1: GetJob, getJob2: GetJob)
    requires HasJobName(event) && getJob1(JobName(event)) == getJob2(JobName(event))
    ensures PollMode(event, getJob1) == PollMode(event, getJob2)
  {
  }

  /** A successful poll changes exactly one entry: Outputs.TranscriptionOutput.
      TranscriptionJobStatus becomes the status the service reported; every other key, at
      every level, keeps its value. */
  lemma PollChangesOnlyStatus(event: map<string, Json>, getJob: GetJob)
    requires PollMode(event, getJob).Ok?
    ensures HasJobName(event) && getJob(JobName(event)).Ok?
    ensures var after := PollMode(event, getJob).value;
      && after.Keys == event.Keys
      && (forall k :: k in event && k != "Outputs" ==> after[k] == event[k])
      && event["Outputs"].JObj? && after["Outputs"].JObj?
      && var outs, outs' := event["Outputs"].fields, after["Outputs"].fields;
      && outs'.Keys == outs.Keys
      && (forall k :: k in outs && k != "TranscriptionOutput" ==> outs'[k] == outs[k])
      && "TranscriptionOutput" in outs && outs["TranscriptionOutput"].JObj?
      && outs'["TranscriptionOutput"].JObj?
      && var t, t' := outs["TranscriptionOutput"].fields, outs'["TranscriptionOutput"].fields;
      && t'.Keys == t.Keys + {"TranscriptionJobStatus"}
      && Ok(t'["TranscriptionJobStatus"]) == ReportedStatus(getJob(JobName(event)).value)
      && (forall k :: k in t && k != "TranscriptionJobStatus" ==> t'[k] == t[k])
  {
  }

  /** A poll that cannot find the job name raises before the service is asked. */
  lemma PollWithoutJobName(event: map<string, Json>, getJob1: GetJob, getJob2: GetJob)
    requires !HasJobName(event)
    ensures PollMode(event, getJob1).Raise?
    ensures PollMode(event, getJob1) == PollMode(event, getJob2)
  {
  }

  /** The five workflow input fields are present. */
  predicate HasInputFields(event: map<string, Json>) {
    && "transcribe_job_name" in event && "transcribe_job_uri" in event
    && "transcribe_job_bucket" in event && "transcribe_job_output_prefix" in event
    && "transcribe_job_language" in event
  }

  /** The request an English job with string name and prefix submits. */
  function ExpectedRequest(event: map<string, Json>): StartRequest
    requires HasInputFields(event)
    requires event["transcribe_job_name"].JStr? && event["transcribe_job_output_prefix"].JStr?
  {
    StartRequest(event["transcribe_job_name"], EnglishCode,
                 map["MediaFileUri" := event["transcribe_job_uri"]],
                 event["transcribe_job_bucket"],
                 OutputKey(event["transcribe_job_output_prefix"].s, event["transcribe_job_name"].s),
                 Specialty, JobType)
  }

  /** 'English' maps to en-US and the job writes to <prefix>/medical/<name>.json: the submit
      branch's result depends on the service only through its answer to that request. */
  lemma SubmitRequestsEnglishJob(event: map<string, Json>, start1: StartJob, start2: StartJob)
    requires HasInputFields(event) && event["transcribe_job_language"] == JStr("English")
    requires event["transcribe_job_name"].JStr? && event["transcribe_job_output_prefix"].JStr?
    requires start1(ExpectedRequest(event)) == start2(ExpectedRequest(event))
    ensures SubmitMode(event, start1) == SubmitMode(event, start2)
  {
  }

  /** Any language other than 'English' raises before the service is called. */
  lemma UnsupportedLanguageRaises(event: map<string, Json>, start1: StartJob, start2: StartJob)
    requires HasInputFields(event) && event["transcribe_job_language"] != JStr("English")
    ensures SubmitMode(event, start1) == Raise(UnboundLocalError("language_code"))
    ensures SubmitMode(event, start1) == SubmitMode(event, start2)
  {
  }

  /** transcribe_audio_s3 always answers with a one-element tuple, and the tuple and the
      bare response normalise to the same job record. */
  lemma ResponseNormalisation(jobName: Json, jobUri: Json, bucket: Json, outputPrefix: Json,
                              language: Json, start: StartJob)
    ensures var r := TranscribeAudio(jobName, jobUri, bucket, outputPrefix, language, start);
      r.Ok? ==> r.value.Tupled? && |r.value.items| == 1
                && MedicalJob(r.value) == MedicalJob(Plain(r.value.items[0]))
  {
  }

  /** A successful submission: the envelope holds exactly ExecutionInput (the event itself)
      and Outputs, which holds exactly TranscriptionOutput with the four job fields. */
  lemma SubmitShape(event: map<string, Json>, start: StartJob)
    requires SubmitMode(event, start).Ok?
    ensures var m := SubmitMode(event, start).value;
      && m.Keys == {"ExecutionInput", "Outputs"}
      && m["ExecutionInput"] == JObj(event)
      && m["Outputs"].JObj? && m["Outputs"].fields.Keys == {"TranscriptionOutput"}
      && m["Outputs"].fields["TranscriptionOutput"].JObj?
      && var t := m["Outputs"].fields["TranscriptionOutput"].fields;
      && t.Keys == {"MedicalTranscriptionJobName", "TranscriptionJobStatus", "LanguageCode", "Media"}
      && var job := MedicalJob(TranscribeAudio(event["transcribe_job_name"], event["transcribe_job_uri"],
                         event["transcribe_job_bucket"], event["transcribe_job_output_prefix"],
                         event["transcribe_job_language"], start).value);
      && job.Ok? && job.value.JObj?
      && forall k :: k in t ==> k in job.value.fields && t[k] == job.value.fields[k]
  {
    var response := TranscribeAudio(event["transcribe_job_name"], event["transcribe_job_uri"],
                                    event["transcribe_job_bucket"], event["transcribe_job_output_prefix"],
                                    event["transcribe_job_language"], start).value;
    TranscriptionOutputShape(MedicalJob(response).value);
  }

  /** The four fields, copied from the job record. */
  lemma TranscriptionOutputShape(job: Json)
    requires TranscriptionOutput(job).Ok?
    ensures var t := TranscriptionOutput(job).value;
      && job.JObj?
      && t.Keys == {"MedicalTranscriptionJobName", "TranscriptionJobStatus", "LanguageCode", "Media"}
      && forall k :: k in t ==> k in job.fields && t[k] == job.fields[k]
  {
  }

  /** The envelope the submit branch returns selects the poll branch on the next invocation,
      and that poll asks about the job the submission started. */
  lemma SubmitThenPoll(event: map<string, Json>, start: StartJob)
    requires SubmitMode(event, start).Ok?
    ensures IsPollMode(SubmitMode(event, start).value)
    ensures HasJobName(SubmitMode(event, start).value)
    ensures JobName(SubmitMode(event, start).value) == event["transcribe_job_name"]
  {
  }

  /** lambda_handler on the event object. The poll branch updates the event in place and
      returns it; the submit branch leaves it alone and returns a new dict. */
  method Handle(event: Dict, start: StartJob, getJob: GetJob) returns (r: Result<Dict>)
    modifies event
    ensures IsPollMode(old(event.items)) ==>
      match PollMode(old(event.items), getJob)
      case Ok(m) => r == Ok(event) && event.items == m
      case Raise(e) => r == Raise(e) && event.items == old(event.items)
    ensures !IsPollMode(old(event.items)) ==>
      event.items == old(event.items) &&
      match SubmitMode(old(event.items), start)
      case Ok(m) => r.Ok? && fresh(r.value) && r.value.items == m
      case Raise(e) => r == Raise(e)
  {
    if "Outputs" in event.items && event.items["Outputs"] != JNull {
      r := HandlePoll(event, getJob);
    } else {
      r := HandleSubmit(event, start);
    }
  }

  /** The poll branch: the status is written into the event's own dicts. */
  method HandlePoll(event: Dict, getJob: GetJob) returns (r: Result<Dict>)
    requires IsPollMode(event.items)
    modifies event
    ensures match PollMode(old(event.items), getJob)
      case Ok(m) => r == Ok(event) && event.items == m
      case Raise(e) => r == Raise(e) && event.items == old(event.items)
  {
    var input :- Field(event.items, "ExecutionInput");
    var name :- Get(input, "transcribe_job_name");
    var response :- getJob(name);
    var status :- ReportedStatus(response);
    var outputs := event.items["Outputs"];
    var transcription :- Get(outputs, "TranscriptionOutput");
    var transcription' :- SetItem(transcription, "TranscriptionJobStatus", status);
    var outputs' :- SetItem(outputs, "TranscriptionOutput", transcription');
    event.items := event.items["Outputs" := outputs'];
    r := Ok(event);
  }

  /** The submit branch: TranscriptionOutput is filled field by field, and the new envelope
      first gets an empty Outputs, then the one holding it. */
  method HandleSubmit(event: Dict, start: StartJob) returns (r: Result<Dict>)
    ensures match SubmitMode(event.items, start)
      case Ok(m) => r.Ok? && fresh(r.value) && r.value.items == m
      case Raise(e) => r == Raise(e)
  {
    var name :- Field(event.items, "transcribe_job_name");
    var uri :- Field(event.items, "transcribe_job_uri");
    var bucket :- Field(event.items, "transcribe_job_bucket");
    var prefix :- Field(event.items, "transcribe_job_output_prefix");
    var language :- Field(event.items, "transcribe_job_language");
    var response :- TranscribeAudio(name, uri, bucket, prefix, language, start);
    var job :- MedicalJob(response);
    var transcOut: map<string, Json> := map[];
    var jobName :- Get(job, "MedicalTranscriptionJobName");
    transcOut := transcOut["MedicalTranscriptionJobName" := jobName];
    var status :- Get(job, "TranscriptionJobStatus");
    transcOut := transcOut["TranscriptionJobStatus" := status];
    var code :- Get(job, "LanguageCode");
    transcOut := transcOut["LanguageCode" := code];
    var media :- Get(job, "Media");
    transcOut := transcOut["Media" := media];
    var filtered := new Dict(map["ExecutionInput" := JObj(event.items), "Outputs" := JObj(map[])]);
    filtered.items := filtered.items["Outputs" := JObj(map["TranscriptionOutput" := JObj(transcOut)])];
    r := Ok(filtered);
  }
}
