/** The Streamlit front end's logic: deriving the job name and URI of an uploaded file, the
    API request, the names shown in the file dropdown, the file-type check, the loop that
    waits for the workflow execution, and the split of the detected entities into columns. */
module Frontend {
  import opened Json
  import opened Text
  import ApiHandler
  import TranscribeStage

  // ---------------------------------------------------------------------------------------
  // Upload and job naming

  /** `seq[i]` on the pieces of a split, or IndexError. */
  function Piece(parts: seq<string>, i: nat): Result<string> {
    if i < |parts| then Ok(parts[i]) else Raise(IndexError("list index out of range"))
  }

  /** The job name: the second '/'-separated segment of the key, with every trailing
      character that occurs in '.' + ext removed, ext being the second '.'-separated piece. */
  function JobName(s3File: string): Result<string> {
    var ext :- Piece(Split(s3File, '.'), 1);
    var segment :- Piece(Split(s3File, '/'), 1);
    Ok(RStrip(segment, Chars("." + ext)))
  }

  /** `f"s3://{bucket}/{s3_file}"`. */
  function JobUri(bucket: string, s3File: string): string {
    "s3://" + bucket + "/" + s3File
  }

  /** The derivation succeeds exactly when the key holds a '.' and a '/'. Its result is a
      prefix of the segment that does not end in a character of the set, and what it cut off
      consists of characters of the set: the set is stripped, not the suffix '.' + ext. */
  lemma JobNameFacts(s3File: string)
    ensures JobName(s3File).Ok? <==> '.' in s3File && '/' in s3File
    ensures JobName(s3File).Ok? ==>
      var segment := Split(s3File, '/')[1];
      var strip := Chars("." + Split(s3File, '.')[1]);
      var name := JobName(s3File).value;
      && name <= segment
      && (|name| > 0 ==> name[|name| - 1] !in strip)
      && (forall i :: |name| <= i < |segment| ==> segment[i] in strip)
  {
    OccursWhenCounted(s3File, '.');
    OccursWhenCounted(s3File, '/');
  }

  /** The set semantics at work: with ext 'wav', the segment 'u-interview.wav' loses the
      final 'w' of 'interview' along with '.wav'. */
  lemma RStripStripsCharacterSet()
    ensures RStrip("u-interview.wav", Chars(".wav")) == "u-intervie"
  {
    var strip := Chars(".wav");
    assert strip == {'.', 'w', 'a', 'v'} by {
      assert ".wav"[0] == '.' && ".wav"[1] == 'w' && ".wav"[2] == 'a' && ".wav"[3] == 'v';
    }
    RStripUnique("u-interview.wav", strip, "u-intervie");
  }

  /** The front end's session: the job name list upload_audio_start_summarization appends to. */
  class Session {
    var jobNameList: seq<string>

    constructor ()
      ensures jobNameList == []
    {
      jobNameList := [];
    }

    /** upload_audio_start_summarization: the upload (which may raise), then the job name is
        appended and the job list, URI and bucket are returned. */
    method UploadAudioStartSummarization(bucket: string, s3File: string, upload: Result<()>)
      returns (r: Result<(seq<string>, string, string)>)
      modifies this
      ensures match (var _ :- upload; JobName(s3File))
        case Ok(name) =>
          && jobNameList == old(jobNameList) + [name]
          && r == Ok((jobNameList, JobUri(bucket, s3File), bucket))
        case Raise(e) => jobNameList == old(jobNameList) && r == Raise(e)
    {
      var _ :- upload;
      var parts := Split(s3File, '.');
      var ext :- Piece(parts, 1);
      var segments := Split(s3File, '/');
      var segment :- Piece(segments, 1);
      var jobName := RStrip(segment, Chars("." + ext));
      jobNameList := jobNameList + [jobName];
      var jobUri := JobUri(bucket, s3File);
      r := Ok((jobNameList, jobUri, bucket));
    }
  }

  // ---------------------------------------------------------------------------------------
  // API request

  const OutputPrefix: string := "audio_transcripts"

  /** The JSON body submit_api_request posts. */
  function RequestPayload(jobName: string, jobUri: string, bucket: string, language: string): map<string, Json> {
    map["job_name" := JStr(jobName), "job_uri" := JStr(jobUri), "output_location" := JStr(bucket),
        "output_prefix" := JStr(OutputPrefix), "language" := JStr(language)]
  }

  datatype HttpResponse = HttpResponse(statusCode: int, text: string)

  /** requests.post to the API endpoint with a JSON body. */
  type Post = map<string, Json> -> Result<HttpResponse>

  /** submit_api_request: the response text, on either branch of the status test. */
  function SubmitApiRequest(jobName: string, jobUri: string, bucket: string, language: string,
                            post: Post): Result<string>
  {
    var resp :- post(RequestPayload(jobName, jobUri, bucket, language));
    if resp.statusCode == 200 then Ok(resp.text) else Ok(resp.text)
  }

  /** The status code does not change what is returned: two endpoints answering with the
      same text give the same result, and that result is the text. */
  lemma SubmitReturnsTextOnAnyStatus(jobName: string, jobUri: string, bucket: string, language: string,
                                     post1: Post, post2: Post)
    requires var p := RequestPayload(jobName, jobUri, bucket, language);
      post1(p).Ok? && post2(p).Ok? && post1(p).value.text == post2(p).value.text
    ensures SubmitApiRequest(jobName, jobUri, bucket, language, post1)
         == SubmitApiRequest(jobName, jobUri, bucket, language, post2)
         == Ok(post1(RequestPayload(jobName, jobUri, bucket, language)).value.text)
  {
  }

  /** The payload holds exactly the five keys the API handler reads, so the handler copies
      every one of them (output prefix 'audio_transcripts') into the workflow input, which
      then has every field the transcribe stage reads. */
  lemma PayloadReachesWorkflow(jobName: string, jobUri: string, bucket: string, language: string,
                               input: map<string, Json>, stateMachineArn: string,
                               start: ApiHandler.StartExecution)
    requires input.Keys <= ApiHandler.InputKeys
    ensures RequestPayload(jobName, jobUri, bucket, language).Keys == ApiHandler.BodyKeys
    ensures var event := map["body" := JObj(RequestPayload(jobName, jobUri, bucket, language))];
      var after := ApiHandler.Handler(input, stateMachineArn, event, start).0;
      && after == map["transcribe_job_name" := JStr(jobName), "transcribe_job_uri" := JStr(jobUri),
                      "transcribe_job_bucket" := JStr(bucket),
                      "transcribe_job_output_prefix" := JStr(OutputPrefix),
                      "transcribe_job_language" := JStr(language)]
      && TranscribeStage.HasInputFields(after)
  {
    var event := map["body" := JObj(RequestPayload(jobName, jobUri, bucket, language))];
    ApiHandler.HandlerWithAllFields(input, stateMachineArn, event, start);
  }

  // ---------------------------------------------------------------------------------------
  // Dropdown names

  function CapitalizedParts(parts: seq<string>): (r: seq<string>)
    ensures |r| == |parts|
  {
    seq(|parts|, i requires 0 <= i < |parts| => Capitalize(parts[i]))
  }

  /** The dropdown label of a file: its name without extension, split at '_', each part
      capitalised, joined with spaces. */
  function DisplayName(audio: string): string {
    Join(CapitalizedParts(Split(SplitExt(audio).0, '_')), " ")
  }

  /** A label never contains '_'. */
  lemma DisplayNameHasNoUnderscore(audio: string)
    ensures '_' !in DisplayName(audio)
  {
    var parts := Split(SplitExt(audio).0, '_');
    var caps := CapitalizedParts(parts);
    forall i | 0 <= i < |caps| ensures '_' !in caps[i] {
      CaseMapKeepsUnderscore(parts[i]);
    }
    JoinAvoids(caps, " ", '_');
  }

  /** The labels of the files, in file order. */
  function DisplayNames(audioList: seq<string>): (r: seq<string>)
    ensures |r| == |audioList|
  {
    seq(|audioList|, i requires 0 <= i < |audioList| => DisplayName(audioList[i]))
  }

  /** After the first n files: one entry per label seen, each sending its label to the file
      at index source[label], which is the last file with that label. */
  ghost predicate IndexedUpTo(files: seq<string>, labels: seq<string>, n: nat,
                              mapping: map<string, string>, source: map<string, nat>)
    requires n <= |files| == |labels|
  {
    && mapping.Keys == source.Keys == (set i | 0 <= i < n :: labels[i])
    && (forall name :: name in source ==>
          source[name] < n && labels[source[name]] == name && mapping[name] == files[source[name]])
    && (forall i :: 0 <= i < n ==>
          (forall j :: i < j < n ==> labels[j] != labels[i]) ==> source[labels[i]] == i)
  }

  lemma IndexedStep(files: seq<string>, labels: seq<string>, n: nat,
                    mapping: map<string, string>, source: map<string, nat>)
    requires n < |files| == |labels| && IndexedUpTo(files, labels, n, mapping, source)
    ensures IndexedUpTo(files, labels, n + 1, mapping[labels[n] := files[n]], source[labels[n] := n])
  {
    LabelsSeenStep(labels, n);
    SourcesStep(files, labels, n, mapping, source);
    LastSourcesStep(files, labels, n, mapping, source);
  }

  /** Every label seen still points at a file with that label. */
  lemma SourcesStep(files: seq<string>, labels: seq<string>, n: nat,
                    mapping: map<string, string>, source: map<string, nat>)
    requires n < |files| == |labels| && IndexedUpTo(files, labels, n, mapping, source)
    ensures var mapping', source' := mapping[labels[n] := files[n]], source[labels[n] := n];
      forall name :: name in source' ==>
        source'[name] < n + 1 && labels[source'[name]] == name && mapping'[name] == files[source'[name]]
  {
    var key := labels[n];
    var mapping', source' := mapping[key := files[n]], source[key := n];
    forall name | name in source'
      ensures source'[name] < n + 1 && labels[source'[name]] == name && mapping'[name] == files[source'[name]]
    {
      if name != key {
        assert name in source;
        assert source'[name] == source[name] && mapping'[name] == mapping[name];
      }
    }
  }

  /** A label without a later duplicate points at its own index. */
  lemma LastSourcesStep(files: seq<string>, labels: seq<string>, n: nat,
                        mapping: map<string, string>, source: map<string, nat>)
    requires n < |files| == |labels| && IndexedUpTo(files, labels, n, mapping, source)
    ensures var source' := source[labels[n] := n];
      forall i :: 0 <= i < n + 1 ==>
        (forall j :: i < j < n + 1 ==> labels[j] != labels[i]) ==> labels[i] in source' && source'[labels[i]] == i
  {
    var key := labels[n];
    var source' := source[key := n];
    forall i | 0 <= i < n + 1 && (forall j :: i < j < n + 1 ==> labels[j] != labels[i])
      ensures labels[i] in source' && source'[labels[i]] == i
    {
      if i < n {
        assert labels[i] != key;
        assert labels[i] in source;
        assert forall j :: i < j < n ==> labels[j] != labels[i];
      }
    }
  }

  lemma LabelsSeenStep(labels: seq<string>, n: nat)
    requires n < |labels|
    ensures (set i | 0 <= i < n + 1 :: labels[i]) == (set i | 0 <= i < n :: labels[i]) + {labels[n]}
  {
  }

  /** All files seen: every label is in the mapping, with a file that has it. */
  lemma IndexedAll(files: seq<string>, labels: seq<string>,
                   mapping: map<string, string>, source: map<string, nat>)
    requires |files| == |labels| && IndexedUpTo(files, labels, |files|, mapping, source)
    ensures mapping.Keys == (set i | 0 <= i < |labels| :: labels[i])
    ensures forall name :: name in mapping ==>
      exists i :: 0 <= i < |labels| && labels[i] == name && mapping[name] == files[i]
    ensures forall i :: 0 <= i < |labels| ==>
      (forall j :: i < j < |labels| ==> labels[j] != labels[i]) ==> mapping[labels[i]] == files[i]
  {
    forall name | name in mapping
      ensures exists i :: 0 <= i < |labels| && labels[i] == name && mapping[name] == files[i]
    {
      var i := source[name];
      assert 0 <= i < |labels| && labels[i] == name && mapping[name] == files[i];
    }
  }

  /** The loop of lines 89-97: the dropdown list is "Select" followed by the labels in file
      order; the mapping has one entry per label and sends it to a file with that label, the
      last such file when labels collide. */
  method FormatAudioNames(audioList: seq<string>) returns (names: seq<string>, mapping: map<string, string>)
    ensures var labels := DisplayNames(audioList);
      && names == ["Select"] + labels
      && mapping.Keys == (set i | 0 <= i < |labels| :: labels[i])
      && (forall name :: name in mapping ==>
            exists i :: 0 <= i < |labels| && labels[i] == name && mapping[name] == audioList[i])
      && (forall i :: 0 <= i < |labels| ==>
            (forall j :: i < j < |labels| ==> labels[j] != labels[i]) ==> mapping[labels[i]] == audioList[i])
  {
    ghost var labels := DisplayNames(audioList);
    ghost var source: map<string, nat> := map[];
    mapping := map[];
    names := [];
    for n := 0 to |audioList|
      invariant names == labels[..n]
      invariant IndexedUpTo(audioList, labels, n, mapping, source)
    {
      var audio := audioList[n];
      var formatted := DisplayName(audio);
      assert formatted == labels[n];
      IndexedStep(audioList, labels, n, mapping, source);
      names := names + [formatted];
      mapping := mapping[formatted := audio];
      source := source[formatted := n];
    }
    assert labels[..|audioList|] == labels;
    IndexedAll(audioList, labels, mapping, source);
    names := ["Select"] + names;
  }

  // ---------------------------------------------------------------------------------------
  // File-type check

  /** `'wav' in audio or 'mp4' in audio or 'mp3' in audio`: a substring test anywhere in
      the name, not an extension test. */
  function IsAccepted(audio: string): bool {
    Contains(audio, "wav") || Contains(audio, "mp4") || Contains(audio, "mp3")
  }

  lemma IsAcceptedMeansOccurs(audio: string)
    ensures IsAccepted(audio) <==>
      exists i :: OccursAt(audio, "wav", i) || OccursAt(audio, "mp4", i) || OccursAt(audio, "mp3", i)
  {
  }

  /** 'wav' inside a word is enough. */
  lemma IsAcceptedExamples()
    ensures IsAccepted("wavelength_notes.txt")
  {
    assert OccursAt("wavelength_notes.txt", "wav", 0);
  }

  // ---------------------------------------------------------------------------------------
  // Waiting for the execution

  /** describe_execution's answer: the status and, when present, the parsed output. */
  datatype Description = Description(status: string, output: Option<Json>)

  /** How many leading descriptions say RUNNING. */
  function LeadingRunning(ds: seq<Description>): (k: nat)
    ensures k <= |ds|
    ensures forall j :: 0 <= j < k ==> ds[j].status == "RUNNING"
    ensures k < |ds| ==> ds[k].status != "RUNNING"
  {
    if |ds| == 0 || ds[0].status != "RUNNING" then 0 else 1 + LeadingRunning(ds[1..])
  }

  /** What the front end makes of the first description that is not RUNNING. */
  function Settle(d: Description): Result<Json> {
    if d.status == "SUCCEEDED" then
      match d.output
      case None => Raise(KeyError("output"))
      case Some(out) => Get(out, "Outputs")
    else Raise(StepFunctionFailed("Step function failed with status: " + d.status))
  }

  /** Lines 128-138, with the i-th describe_execution call answered by descriptions[i]. The
      loop stops at the first status that is not RUNNING; SUCCEEDED gives output['Outputs'],
      any other status raises naming it. `None` means every supplied description said
      RUNNING; `calls` counts the describe_execution calls. */
  method AwaitExecution(descriptions: seq<Description>) returns (r: Option<Result<Json>>, calls: nat)
    ensures var k := LeadingRunning(descriptions);
      if k < |descriptions| then r == Some(Settle(descriptions[k])) && calls == k + 1
      else r == None && calls == |descriptions|
    ensures r.Some? ==>
      && descriptions[calls - 1].status != "RUNNING"
      && (forall j :: 0 <= j < calls - 1 ==> descriptions[j].status == "RUNNING")
    ensures r.Some? && descriptions[calls - 1].status == "SUCCEEDED" ==>
      r.value == (if descriptions[calls - 1].output.Some? then Get(descriptions[calls - 1].output.value, "Outputs")
                  else Raise(KeyError("output")))
    ensures r.Some? && descriptions[calls - 1].status != "SUCCEEDED" ==>
      r.value == Raise(StepFunctionFailed("Step function failed with status: " + descriptions[calls - 1].status))
  {
    if |descriptions| == 0 {
      return None, 0;
    }
    var response := descriptions[0];
    var status := response.status;
    calls := 1;
    while status == "RUNNING"
      invariant 1 <= calls <= |descriptions|
      invariant response == descriptions[calls - 1] && status == response.status
      invariant forall j :: 0 <= j < calls - 1 ==> descriptions[j].status == "RUNNING"
      decreases |descriptions| - calls
    {
      if calls == |descriptions| {
        LeadingRunningAll(descriptions);
        return None, calls;
      }
      response := descriptions[calls];
      status := response.status;
      calls := calls + 1;
    }
    LeadingRunningAt(descriptions, calls - 1);
    if status == "SUCCEEDED" {
      match response.output
      case None => r := Some(Raise(KeyError("output")));
      case Some(out) => r := Some(Get(out, "Outputs"));
    } else {
      r := Some(Raise(StepFunctionFailed("Step function failed with status: " + response.status)));
    }
  }

  /** The first non-RUNNING description is the one LeadingRunning points at. */
  lemma LeadingRunningAt(ds: seq<Description>, k: nat)
    requires k < |ds| && ds[k].status != "RUNNING"
    requires forall j :: 0 <= j < k ==> ds[j].status == "RUNNING"
    ensures LeadingRunning(ds) == k
  {
  }

  lemma LeadingRunningAll(ds: seq<Description>)
    requires forall j :: 0 <= j < |ds| ==> ds[j].status == "RUNNING"
    ensures LeadingRunning(ds) == |ds|
  {
  }

  // ---------------------------------------------------------------------------------------
  // Entity columns

  const MedicalCondition: string := "MEDICAL_CONDITION"

  /** An entity the loop of lines 143-149 gets through. */
  predicate WellFormed(e: Json) {
    && e.JObj? && "Text" in e.fields && "Category" in e.fields && "Type" in e.fields
    && (e.fields["Category"] == JStr(MedicalCondition) ==> e.fields["Text"].JStr?)
  }

  /** What the loop raises on an entity, in the order of the lines: the three subscripts,
      then the '\n'.join over a condition's text. */
  function EntityError(e: Json): (r: Option<Exception>)
    ensures r.None? <==> WellFormed(e)
  {
    match Get(e, "Text")
    case Raise(x) => Some(x)
    case Ok(text) =>
      match Get(e, "Category")
      case Raise(x) => Some(x)
      case Ok(category) =>
        match Get(e, "Type")
        case Raise(x) => Some(x)
        case Ok(_) =>
          if category == JStr(MedicalCondition) && !text.JStr?
          then Some(TypeError("sequence item: expected str instance"))
          else None
  }

  /** The entity is a medical condition, with a text the join accepts. */
  predicate IsCondition(e: Json) {
    e.JObj? && "Category" in e.fields && e.fields["Category"] == JStr(MedicalCondition)
    && "Text" in e.fields && e.fields["Text"].JStr?
  }

  /** The texts of the medical-condition entities, in order. */
  function MedicalConditions(es: seq<Json>): seq<string>
  {
    if |es| == 0 then []
    else
      var last := es[|es| - 1];
      MedicalConditions(es[..|es| - 1]) + (if IsCondition(last) then [last.fields["Text"].s] else [])
  }

  /** MedicalConditions is the in-order filter: its elements are the texts of the condition
      entities at increasing positions, and every condition entity contributes one. */
  lemma {:induction false} ConditionPositions(es: seq<Json>) returns (pos: seq<nat>)
    ensures |pos| == |MedicalConditions(es)|
    ensures forall k :: 0 <= k < |pos| ==>
      pos[k] < |es| && IsCondition(es[pos[k]]) && MedicalConditions(es)[k] == es[pos[k]].fields["Text"].s
    ensures forall k, l :: 0 <= k < l < |pos| ==> pos[k] < pos[l]
    ensures forall j :: 0 <= j < |es| && IsCondition(es[j]) ==> j in pos
  {
    if |es| == 0 {
      pos := [];
    } else {
      var n := |es| - 1;
      var init, last := es[..n], es[n];
      var p := ConditionPositions(init);
      var conditions := MedicalConditions(init);
      if IsCondition(last) {
        assert MedicalConditions(es) == conditions + [last.fields["Text"].s];
        pos := p + [n];
      } else {
        assert MedicalConditions(es) == conditions;
        pos := p;
      }
      forall k | 0 <= k < |p|
        ensures pos[k] == p[k] && es[p[k]] == init[p[k]] && MedicalConditions(es)[k] == conditions[k]
      {
      }
      forall j | 0 <= j < n && IsCondition(es[j])
        ensures j in pos
      {
        assert init[j] == es[j];
        assert j in p;
      }
    }
  }

  /** One entity more: its text is appended exactly when it is a condition. */
  lemma ConditionsStep(es: seq<Json>, n: nat)
    requires n < |es|
    ensures MedicalConditions(es[..n + 1])
         == MedicalConditions(es[..n]) + (if IsCondition(es[n]) then [es[n].fields["Text"].s] else [])
  {
    assert es[..n + 1][..n] == es[..n];
  }

  /** The columns built from the entities. */
  datatype Columns = Columns(text: seq<Json>, category: seq<Json>, types: seq<Json>, medCondition: seq<string>)

  /** What `for entity in v` iterates over: a list's elements; a string's one-character
      strings. Iterating a non-empty dict yields its str keys, and subscripting the first of
      them with 'Text' raises; other values are not iterable. */
  function Entities(v: Json): Result<seq<Json>> {
    match v
    case JArr(items) => Ok(items)
    case JStr(s) => Ok(seq(|s|, i requires 0 <= i < |s| => JStr([s[i]])))
    case JObj(m) => if m == map[] then Ok([]) else Raise(TypeError("string indices must be integers"))
    case _ => Raise(TypeError("object is not iterable"))
  }

  /** The loop of lines 142-149. It succeeds exactly when every entity is well-formed; then
      the Text, Category and Type columns are aligned with the entities position by position
      and the medical conditions are the condition texts in order. Otherwise it raises what
      the first malformed entity raises. */
  method SplitEntities(entities: seq<Json>) returns (r: Result<Columns>)
    ensures r.Ok? <==> forall i :: 0 <= i < |entities| ==> WellFormed(entities[i])
    ensures r.Ok? ==>
      && |r.value.text| == |r.value.category| == |r.value.types| == |entities|
      && (forall i :: 0 <= i < |entities| ==>
            && r.value.text[i] == entities[i].fields["Text"]
            && r.value.category[i] == entities[i].fields["Category"]
            && r.value.types[i] == entities[i].fields["Type"])
      && r.value.medCondition == MedicalConditions(entities)
    ensures r.Raise? ==> exists k ::
      && 0 <= k < |entities| && EntityError(entities[k]) == Some(r.error)
      && (forall j :: 0 <= j < k ==> WellFormed(entities[j]))
  {
    var text, category, types, medCondition := [], [], [], [];
    for n := 0 to |entities|
      invariant forall i :: 0 <= i < n ==> WellFormed(entities[i])
      invariant |text| == |category| == |types| == n
      invariant forall i :: 0 <= i < n ==>
        && text[i] == entities[i].fields["Text"]
        && category[i] == entities[i].fields["Category"]
        && types[i] == entities[i].fields["Type"]
      invariant medCondition == MedicalConditions(entities[..n])
    {
      var entity := entities[n];
      var err := EntityError(entity);
      if err.Some? {
        return Raise(err.value);
      }
      text := text + [entity.fields["Text"]];
      category := category + [entity.fields["Category"]];
      types := types + [entity.fields["Type"]];
      ConditionsStep(entities, n);
      if entity.fields["Category"] == JStr(MedicalCondition) {
        medCondition := medCondition + [entity.fields["Text"].s];
      }
    }
    assert entities[..|entities|] == entities;
    r := Ok(Columns(text, category, types, medCondition));
  }

  /** Lines 140 and 143 on the execution's Outputs: the summary shown, and the entities of
      ComprehendMedicalOutput as the loop iterates over them. */
  function ReadOutputs(outputs: Json): Result<(Json, seq<Json>)> {
    var bedrockOutput :- Get(outputs, "BedrockOutput");
    var summary :- Get(bedrockOutput, "bedrock_model_result");
    var comprehendOutput :- Get(outputs, "ComprehendMedicalOutput");
    var entities :- Get(comprehendOutput, "entities");
    var es :- Entities(entities);
    Ok((summary, es))
  }

  /** The outputs as the bedrock and comprehend stages store them are read back: the
      stored summary, and the entity list element for element. */
  lemma ReadsStageOutputs(outs: map<string, Json>, summary: Json, items: seq<Json>)
    requires "BedrockOutput" in outs && outs["BedrockOutput"] == JObj(map["bedrock_model_result" := summary])
    requires "ComprehendMedicalOutput" in outs
      && outs["ComprehendMedicalOutput"] == JObj(map["entities" := JArr(items)])
    ensures ReadOutputs(JObj(outs)) == Ok((summary, items))
  {
  }

  /** Lines 140-149: the summary and the entity columns, or the first exception raised on
      the way. */
  method ShowResults(outputs: Json) returns (r: Result<(Json, Columns)>)
    ensures ReadOutputs(outputs).Raise? ==> r == Raise(ReadOutputs(outputs).error)
    ensures ReadOutputs(outputs).Ok? ==>
      var (summary, es) := ReadOutputs(outputs).value;
      && (r.Ok? <==> forall i :: 0 <= i < |es| ==> WellFormed(es[i]))
      && (r.Ok? ==>
            && r.value.0 == summary
            && |r.value.1.text| == |r.value.1.category| == |r.value.1.types| == |es|
            && (forall i :: 0 <= i < |es| ==>
                  && r.value.1.text[i] == es[i].fields["Text"]
                  && r.value.1.category[i] == es[i].fields["Category"]
                  && r.value.1.types[i] == es[i].fields["Type"])
            && r.value.1.medCondition == MedicalConditions(es))
      && (r.Raise? ==> exists k ::
            && 0 <= k < |es| && EntityError(es[k]) == Some(r.error)
            && (forall j :: 0 <= j < k ==> WellFormed(es[j])))
  {
    var read :- ReadOutputs(outputs);
    var columns :- SplitEntities(read.1);
    r := Ok((read.0, columns));
  }
}
