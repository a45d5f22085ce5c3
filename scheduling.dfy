/**
 * groq_engine.py, `SchedulingAgent.process_request`: the branch taken for
 * each intent string. CREATE and EDIT hand the request to the language
 * model, whose answer is not part of this model; DELETE and every other
 * string return a fixed dictionary.
 */
module Scheduling {
  /** `IntentAgent.intents` */
  const Intents: seq<string> := ["CREATE", "DELETE", "EDIT", "UNKNOWN"]

  /** What `process_request` returns: the model's completion, or a dictionary. */
  datatype Reply = AskModel | Fields(fields: map<string, string>)

  const DeleteAction := "delete"
  const UnknownIntentError := "Unknown intent"

  /** The dispatch on `intent.intent`, whatever string the classifier returned. */
  function ProcessRequest(intent: string, actionQuery: string): (r: Reply)
    ensures r == AskModel <==> intent == "CREATE" || intent == "EDIT"
    ensures intent == "DELETE" ==> r == Fields(map["action" := DeleteAction, "query" := actionQuery])
    ensures intent !in {"CREATE", "EDIT", "DELETE"} ==> r == Fields(map["error" := UnknownIntentError])
  {
    if intent in ["CREATE", "EDIT"] then AskModel
    else if intent == "DELETE" then Fields(map["action" := DeleteAction, "query" := actionQuery])
    else Fields(map["error" := UnknownIntentError])
  }

  /** The intent list holds four distinct names, and only UNKNOWN of them falls to the error branch. */
  lemma IntentsExact()
    ensures |Intents| == 4
    ensures forall i, j :: 0 <= i < j < |Intents| ==> Intents[i] != Intents[j]
    ensures forall i :: 0 <= i < |Intents| ==>
      (ProcessRequest(Intents[i], "").Fields? && "error" in ProcessRequest(Intents[i], "").fields
       <==> Intents[i] == "UNKNOWN")
  {
  }

  /**
   * Only a DELETE reply carries the query, and it carries it unchanged; a
   * dictionary reply is either the delete request or the error, never both.
   */
  lemma QueryOnlyOnDelete(intent: string, actionQuery: string)
    ensures var r := ProcessRequest(intent, actionQuery);
      && (r.Fields? && "query" in r.fields <==> intent == "DELETE")
      && (r.Fields? && "query" in r.fields ==> r.fields["query"] == actionQuery)
      && (r.Fields? ==> ("error" in r.fields <==> "action" !in r.fields))
  {
  }
}
