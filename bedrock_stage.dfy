/** The bedrock Lambda ("Perform Summarization"): it reads the transcript the transcription
    job wrote to S3, asks the Claude v2 model to summarise it, escapes the dollar signs of
    the completion and stores it as Outputs.BedrockOutput. */
module BedrockStage {
  import opened Json
  import opened Text
  import TranscribeStage

  const ModelId: string := "anthropic.claude-v2"
  const ContentType: string := "application/json"
  const DefaultMaxTokens: int := 1024

  /** The command text around the language name, spelling as in the source. */
  const CommandHead: string := "Summarize this conversation in "
  const CommandTail: string := ". Highlight the key observations and acion items in as much details possible"

  /** The arguments of invoke_model, with the JSON body's two fields unpacked. */
  datatype ModelRequest = ModelRequest(
    modelId: string,
    contentType: string,
    accept: string,
    prompt: string,
    maxTokensToSample: int)

  /** s3.get_object(Bucket, Key), with the body read, decoded and parsed. */
  type GetObject = (Json, string) -> Result<Json>

  /** invoke_model, with the first line of the response body parsed. */
  type InvokeModel = ModelRequest -> Result<Json>

  /** The S3 key: prefix + '/medical/' + name + '.json'; left to right, each `+` needs a str. */
  function ObjectKey(body: Json): Result<string> {
    var prefix :- Get(body, "transcribe_job_output_prefix");
    var p :- AsString(prefix);
    var name :- Get(body, "transcribe_job_name");
    var n :- AsString(name);
    Ok(p + "/medical/" + n + ".json")
  }

  /** Bucket and key of the object read. */
  function Location(body: Json): Result<(Json, string)> {
    var bucket :- Get(body, "transcribe_job_bucket");
    var key :- ObjectKey(body);
    Ok((bucket, key))
  }

  /** `json_obj['results']['transcripts'][0]['transcript']`. */
  function Transcript(doc: Json): Result<Json> {
    var results :- Get(doc, "results");
    var transcripts :- Get(results, "transcripts");
    var first :- First(transcripts);
    Get(first, "transcript")
  }

  function Command(language: string): string {
    CommandHead + language + CommandTail
  }

  /** prompt_text: the transcript, ". ", and the whole command lower-cased. */
  function PromptText(transcript: Json, language: Json): Result<string> {
    var lang :- AsString(language);
    var t :- AsString(transcript);
    Ok(t + ". " + Lower(Command(lang)))
  }

  /** The request call_bedrock_model sends, with max_tokens_to_sample at its default. */
  function PromptRequest(promptText: string): ModelRequest {
    ModelRequest(ModelId, ContentType, ContentType,
                 "\n\nHuman: " + promptText + "\n\nAssistant:", DefaultMaxTokens)
  }

  /** call_bedrock_model: the `completion` field of the response. */
  function CallModel(promptText: string, invoke: InvokeModel): Result<Json> {
    var response :- invoke(PromptRequest(promptText));
    Get(response, "completion")
  }

  /** Everything up to the model's answer, which must be a str for `.replace`. */
  function Completion(event: map<string, Json>, getObject: GetObject, invoke: InvokeModel): Result<string> {
    var body :- Field(event, "ExecutionInput");
    var language :- Get(body, "transcribe_job_language");
    var loc :- Location(body);
    var doc :- getObject(loc.0, loc.1);
    var transcript :- Transcript(doc);
    Answer(transcript, language, invoke)
  }

  /** From the transcript on: the prompt, the model call, and the str check of `.replace`. */
  function Answer(transcript: Json, language: Json, invoke: InvokeModel): Result<string> {
    var prompt :- PromptText(transcript, language);
    var completion :- CallModel(prompt, invoke);
    match completion
    case JStr(c) => Ok(c)
    case _ => Raise(AttributeError("replace"))
  }

  /** Lines 43-44 together: Outputs.BedrockOutput becomes a dict holding only the result. */
  function StoreResult(event: map<string, Json>, result: string): Result<map<string, Json>> {
    var outputs :- Field(event, "Outputs");
    var outputs' :- SetItem(outputs, "BedrockOutput", JObj(map["bedrock_model_result" := JStr(result)]));
    Ok(event["Outputs" := outputs'])
  }

  /** lambda_handler, on the event's contents. */
  function Summarize(event: map<string, Json>, getObject: GetObject, invoke: InvokeModel): Result<map<string, Json>> {
    var completion :- Completion(event, getObject, invoke);
    StoreResult(event, EscapeDollars(completion))
  }

  /** The language name is lower-cased along with the rest of the command. */
  lemma PromptLowersLanguage(transcript: string, language: string)
    ensures PromptText(JStr(transcript), JStr(language))
         == Ok(transcript + ". " + Lower(CommandHead) + Lower(language) + Lower(CommandTail))
  {
    assert PromptText(JStr(transcript), JStr(language)) == Ok(transcript + ". " + Lower(Command(language)));
    LowerConcat3After(transcript + ". ", CommandHead, language, CommandTail);
  }

  /** The model is asked once, with the wrapped prompt: two models that answer that request
      alike give the same result. */
  lemma CallModelAsksWrappedPrompt(promptText: string, invoke1: InvokeModel, invoke2: InvokeModel)
    requires invoke1(PromptRequest(promptText)) == invoke2(PromptRequest(promptText))
    ensures CallModel(promptText, invoke1) == CallModel(promptText, invoke2)
    ensures PromptRequest(promptText).prompt == "\n\nHuman: " + promptText + "\n\nAssistant:"
    ensures PromptRequest(promptText).maxTokensToSample == 1024
  {
  }

  /** The object read is the one the transcription job was told to write: same bucket, and
      the key OutputKey built from the same prefix and job name. */
  lemma ReadsTranscribedObject(input: map<string, Json>, start: TranscribeStage.StartJob)
    requires TranscribeStage.SubmitMode(input, start).Ok?
    requires input["transcribe_job_name"].JStr? && input["transcribe_job_output_prefix"].JStr?
    ensures var m := TranscribeStage.SubmitMode(input, start).value;
      var request := TranscribeStage.ExpectedRequest(input);
      Location(m["ExecutionInput"]) == Ok((request.outputBucketName, request.outputKey))
  {
    TranscribeStage.SubmitShape(input, start);
  }

  /** The handler reads one S3 object, and of it only results.transcripts[0].transcript:
      two stores whose objects at that location agree on that field give the same result. */
  lemma ReadsOnlyFirstTranscript(event: map<string, Json>, getObject1: GetObject,
                                 getObject2: GetObject, invoke: InvokeModel)
    requires "ExecutionInput" in event && Location(event["ExecutionInput"]).Ok?
    requires var loc := Location(event["ExecutionInput"]).value;
      getObject1(loc.0, loc.1).Ok? && getObject2(loc.0, loc.1).Ok?
      && Transcript(getObject1(loc.0, loc.1).value) == Transcript(getObject2(loc.0, loc.1).value)
    ensures Summarize(event, getObject1, invoke) == Summarize(event, getObject2, invoke)
  {
    assert Completion(event, getObject1, invoke) == Completion(event, getObject2, invoke);
  }

  /** A successful run adds Outputs.BedrockOutput = {bedrock_model_result: escaped}, where
      removing the escapes gives the model's completion back; ExecutionInput, every other
      output (TranscriptionOutput among them) and every other key keep their values. */
  lemma SummarizeStoresEscapedCompletion(event: map<string, Json>, getObject: GetObject, invoke: InvokeModel)
    requires Summarize(event, getObject, invoke).Ok?
    ensures Completion(event, getObject, invoke).Ok?
    ensures var after := Summarize(event, getObject, invoke).value;
      var c := Completion(event, getObject, invoke).value;
      && after.Keys == event.Keys
      && (forall k :: k in event && k != "Outputs" ==> after[k] == event[k])
      && event["Outputs"].JObj? && after["Outputs"].JObj?
      && var outs, outs' := event["Outputs"].fields, after["Outputs"].fields;
      && outs'.Keys == outs.Keys + {"BedrockOutput"}
      && (forall k :: k in outs && k != "BedrockOutput" ==> outs'[k] == outs[k])
      && outs'["BedrockOutput"].JObj?
      && outs'["BedrockOutput"].fields.Keys == {"bedrock_model_result"}
      && outs'["BedrockOutput"].fields["bedrock_model_result"].JStr?
      && var stored := outs'["BedrockOutput"].fields["bedrock_model_result"].s;
      && stored == EscapeDollars(c)
      && UnescapeDollars(stored) == c
  {
    UnescapeEscape(Completion(event, getObject, invoke).value);
  }

  /** Outputs is looked up only after the model has answered: without it the handler raises
      KeyError once the completion is in hand. */
  lemma OutputsReadAfterModel(event: map<string, Json>, getObject: GetObject, invoke: InvokeModel)
    requires "Outputs" !in event
    ensures Completion(event, getObject, invoke).Ok? ==>
      Summarize(event, getObject, invoke) == Raise(KeyError("Outputs"))
    ensures Completion(event, getObject, invoke).Raise? ==>
      Summarize(event, getObject, invoke) == Raise(Completion(event, getObject, invoke).error)
  {
  }

  /** lambda_handler on the event object: Outputs.BedrockOutput is first set to an empty
      dict, which then receives the result; the event itself is returned. */
  method Handle(event: Dict, getObject: GetObject, invoke: InvokeModel) returns (r: Result<Dict>)
    modifies event
    ensures match Summarize(old(event.items), getObject, invoke)
      case Ok(m) => r == Ok(event) && event.items == m
      case Raise(e) => r == Raise(e) && event.items == old(event.items)
  {
    var completion :- Completion(event.items, getObject, invoke);
    var result := EscapeDollars(completion);
    var outputs :- Field(event.items, "Outputs");
    var outputs' :- SetItem(outputs, "BedrockOutput", JObj(map[]));
    var bedrockOutput := JObj(outputs'.fields["BedrockOutput"].fields["bedrock_model_result" := JStr(result)]);
    outputs' := JObj(outputs'.fields["BedrockOutput" := bedrockOutput]);
    assert outputs'.fields == outputs.fields["BedrockOutput" := bedrockOutput];
    event.items := event.items["Outputs" := outputs'];
    r := Ok(event);
  }
}
