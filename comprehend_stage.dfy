/** The comprehend-health Lambda ("Detect Entities"): it sends the stored summary to
    Comprehend Medical and adds the detected entities as Outputs.ComprehendMedicalOutput. */
module ComprehendStage {
  import opened Json
  import opened Text
  import BedrockStage

  /** detect_entities_v2(Text=document): the service response, or what the client raised. */
  type DetectEntitiesV2 = Json -> Result<Json>

  /** detect_entities: the response's `Entities`; an exception from the client is re-raised
      as it is. */
  function DetectEntities(document: Json, detect: DetectEntitiesV2): Result<Json> {
    var response :- detect(document);
    Get(response, "Entities")
  }

  /** `event['Outputs']['BedrockOutput']['bedrock_model_result']` can be read. */
  predicate HasSummary(event: map<string, Json>) {
    "Outputs" in event && event["Outputs"].JObj?
    && "BedrockOutput" in event["Outputs"].fields
    && event["Outputs"].fields["BedrockOutput"].JObj?
    && "bedrock_model_result" in event["Outputs"].fields["BedrockOutput"].fields
  }

  function Summary(event: map<string, Json>): Json
    requires HasSummary(event)
  {
    event["Outputs"].fields["BedrockOutput"].fields["bedrock_model_result"]
  }

  /** lambda_handler, on the event's contents. */
  function Annotate(event: map<string, Json>, detect: DetectEntitiesV2): Result<map<string, Json>> {
    var outputs :- Field(event, "Outputs");
    var bedrockOutput :- Get(outputs, "BedrockOutput");
    var document :- Get(bedrockOutput, "bedrock_model_result");
    var entities :- DetectEntities(document, detect);
    var outputs' :- SetItem(outputs, "ComprehendMedicalOutput", JObj(map["entities" := entities]));
    Ok(event["Outputs" := outputs'])
  }

  /** The text sent for detection is exactly the stored summary: two services that answer
      that text alike give the same result. */
  lemma DetectsStoredSummary(event: map<string, Json>, detect1: DetectEntitiesV2, detect2: DetectEntitiesV2)
    requires HasSummary(event) && detect1(Summary(event)) == detect2(Summary(event))
    ensures Annotate(event, detect1) == Annotate(event, detect2)
  {
  }

  /** A successful run adds Outputs.ComprehendMedicalOutput, holding only `entities`, which
      is the service's Entities value as it came (no element dropped, added or reordered);
      every other output and every other key keep their values. */
  lemma AnnotateStoresEntities(event: map<string, Json>, detect: DetectEntitiesV2)
    requires Annotate(event, detect).Ok?
    ensures HasSummary(event) && detect(Summary(event)).Ok?
    ensures var after := Annotate(event, detect).value;
      var entities := DetectEntities(Summary(event), detect);
      && entities.Ok?
      && after.Keys == event.Keys
      && (forall k :: k in event && k != "Outputs" ==> after[k] == event[k])
      && after["Outputs"].JObj?
      && var outs, outs' := event["Outputs"].fields, after["Outputs"].fields;
      && outs'.Keys == outs.Keys + {"ComprehendMedicalOutput"}
      && (forall k :: k in outs && k != "ComprehendMedicalOutput" ==> outs'[k] == outs[k])
      && outs'["ComprehendMedicalOutput"] == JObj(map["entities" := entities.value])
      && (entities.value.JArr? ==>
            var stored := outs'["ComprehendMedicalOutput"].fields["entities"];
            && stored.JArr? && |stored.items| == |entities.value.items|
            && forall i :: 0 <= i < |stored.items| ==> stored.items[i] == entities.value.items[i])
  {
  }

  /** An exception from the detection service is re-raised unchanged. */
  lemma DetectionErrorReraised(event: map<string, Json>, detect: DetectEntitiesV2)
    requires HasSummary(event) && detect(Summary(event)).Raise?
    ensures Annotate(event, detect) == Raise(detect(Summary(event)).error)
  {
  }

  /** Without a readable summary the handler raises before the service is called; a dict of
      outputs without BedrockOutput gives KeyError('BedrockOutput'). */
  lemma MissingSummaryRaisesFirst(event: map<string, Json>, detect1: DetectEntitiesV2, detect2: DetectEntitiesV2)
    requires !HasSummary(event)
    ensures Annotate(event, detect1).Raise?
    ensures Annotate(event, detect1) == Annotate(event, detect2)
    ensures "Outputs" in event && event["Outputs"].JObj? && "BedrockOutput" !in event["Outputs"].fields ==>
      Annotate(event, detect1) == Raise(KeyError("BedrockOutput"))
  {
  }

  /** The envelope the bedrock stage returns carries the summary this stage reads: the
      escaped model completion. */
  lemma SummarizeThenDetect(event: map<string, Json>, getObject: BedrockStage.GetObject,
                            invoke: BedrockStage.InvokeModel)
    requires BedrockStage.Summarize(event, getObject, invoke).Ok?
    ensures BedrockStage.Completion(event, getObject, invoke).Ok?
    ensures var m := BedrockStage.Summarize(event, getObject, invoke).value;
      HasSummary(m)
      && Summary(m) == JStr(EscapeDollars(BedrockStage.Completion(event, getObject, invoke).value))
  {
    BedrockStage.SummarizeStoresEscapedCompletion(event, getObject, invoke);
  }

  /** lambda_handler on the event object: Outputs.ComprehendMedicalOutput is first set to an
      empty dict, which then receives the entities; the event itself is returned. */
  method Handle(event: Dict, detect: DetectEntitiesV2) returns (r: Result<Dict>)
    modifies event
    ensures match Annotate(old(event.items), detect)
      case Ok(m) => r == Ok(event) && event.items == m
      case Raise(e) => r == Raise(e) && event.items == old(event.items)
  {
    var outputs :- Field(event.items, "Outputs");
    var bedrockOutput :- Get(outputs, "BedrockOutput");
    var document :- Get(bedrockOutput, "bedrock_model_result");
    var entities :- DetectEntities(document, detect);
    var outputs' :- SetItem(outputs, "ComprehendMedicalOutput", JObj(map[]));
    var comprehendOutput := JObj(outputs'.fields["ComprehendMedicalOutput"].fields["entities" := entities]);
    outputs' := JObj(outputs'.fields["ComprehendMedicalOutput" := comprehendOutput]);
    assert outputs'.fields == outputs.fields["ComprehendMedicalOutput" := comprehendOutput];
    event.items := event.items["Outputs" := outputs'];
    r := Ok(event);
  }
}
