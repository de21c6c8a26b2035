/**
  The skill builder's request dispatch: the handlers are registered in a
  fixed order, and a request goes to the first one whose `can_handle`
  accepts it. No catch-all handler and no exception handler are registered,
  so a request that no handler accepts has no response.
 */
module Dispatch {

  import opened Options
  import opened Handlers
  import Ssml

  /** One registered handler: its `can_handle` test and which handler it is. */
  datatype Entry = Entry(canHandle: Envelope -> bool, id: HandlerId)

  /** The `add_request_handler` calls, in order. */
  const Registry: seq<Entry> := [
    Entry(LaunchCanHandle, LaunchRequestHandler),
    Entry(AskCanHandle, AskDeepseekIntentHandler),
    Entry(HelpCanHandle, HelpIntentHandler),
    Entry(CancelAndStopCanHandle, CancelAndStopIntentHandler)
  ]

  /** Entry `i` accepts `env` and no entry before it does. */
  predicate FirstAccepting(entries: seq<Entry>, env: Envelope, i: int) {
    0 <= i < |entries| && entries[i].canHandle(env) &&
    forall j :: 0 <= j < i ==> !entries[j].canHandle(env)
  }

  /** The handler of the first entry, in order, that accepts `env`; None when none does. */
  function FirstMatch(entries: seq<Entry>, env: Envelope): (r: Option<HandlerId>)
    ensures r.None? <==> forall i :: 0 <= i < |entries| ==> !entries[i].canHandle(env)
    ensures r.Some? ==> exists i :: FirstAccepting(entries, env, i) && entries[i].id == r.value
  {
    if entries == [] then None
    else if entries[0].canHandle(env) then
      assert FirstAccepting(entries, env, 0);
      Some(entries[0].id)
    else
      var r := FirstMatch(entries[1..], env);
      assert forall i :: 1 <= i < |entries| ==> entries[i] == entries[1..][i - 1];
      if r.Some? then
        var i :| FirstAccepting(entries[1..], env, i) && entries[1..][i].id == r.value;
        assert FirstAccepting(entries, env, i + 1);
        r
      else
        r
  }

  /** At most one registered handler accepts any envelope. */
  lemma RegisteredTestsExclusive(env: Envelope, i: int, j: int)
    requires 0 <= i < |Registry| && 0 <= j < |Registry|
    requires Registry[i].canHandle(env) && Registry[j].canHandle(env)
    ensures i == j
  {
  }

  /** The handler the dispatcher picks for `env`. */
  function Dispatch(env: Envelope): (r: Option<HandlerId>)
    ensures r == Some(LaunchRequestHandler) <==> LaunchCanHandle(env)
    ensures r == Some(AskDeepseekIntentHandler) <==> AskCanHandle(env)
    ensures r == Some(HelpIntentHandler) <==> HelpCanHandle(env)
    ensures r == Some(CancelAndStopIntentHandler) <==> CancelAndStopCanHandle(env)
    ensures r == None <==>
      !LaunchCanHandle(env) && !AskCanHandle(env) && !HelpCanHandle(env) && !CancelAndStopCanHandle(env)
  {
    var r := FirstMatch(Registry, env);
    assert Registry[0].canHandle(env) == LaunchCanHandle(env);
    assert Registry[1].canHandle(env) == AskCanHandle(env);
    assert Registry[2].canHandle(env) == HelpCanHandle(env);
    assert Registry[3].canHandle(env) == CancelAndStopCanHandle(env);
    r
  }

  /**
    The skill's answer to one request: the directive of the handler whose
    `can_handle` accepts it, or None when no handler accepts it.
   */
  function Respond(env: Envelope, apiKey: Option<string>, http: HttpOutcome): (r: Option<Directive>)
    ensures LaunchCanHandle(env) ==> r == Some(LaunchHandle())
    ensures AskCanHandle(env) ==> r == Some(AskHandle(env, apiKey, http))
    ensures HelpCanHandle(env) ==> r == Some(HelpHandle())
    ensures CancelAndStopCanHandle(env) ==> r == Some(CancelAndStopHandle())
    ensures r.None? <==>
      !LaunchCanHandle(env) && !AskCanHandle(env) && !HelpCanHandle(env) && !CancelAndStopCanHandle(env)
  {
    match Dispatch(env)
    case None => None
    case Some(h) => Some(Handle(h, env, apiKey, http))
  }

  /** A launch request gets the fixed greeting and the standing reprompt. */
  lemma LaunchAnswer(env: Envelope, apiKey: Option<string>, http: HttpOutcome)
    requires env.reqType == "LaunchRequest"
    ensures Dispatch(env) == Some(LaunchRequestHandler)
    ensures Respond(env, apiKey, http) == Some(Directive(LaunchGreeting, Some(WhatToKnow)))
  {
  }

  /** The help intent gets the fixed explanation and the standing reprompt. */
  lemma HelpAnswer(env: Envelope, apiKey: Option<string>, http: HttpOutcome)
    requires env.reqType == "IntentRequest" && env.intentName == Some("AMAZON.HelpIntent")
    ensures Dispatch(env) == Some(HelpIntentHandler)
    ensures Respond(env, apiKey, http) == Some(Directive(HelpText, Some(WhatToKnow)))
  {
  }

  /** Cancel and Stop go to the same handler, which says goodbye without a reprompt. */
  lemma CancelAndStopAnswer(env: Envelope, apiKey: Option<string>, http: HttpOutcome)
    requires env.reqType == "IntentRequest"
    requires env.intentName == Some("AMAZON.CancelIntent") || env.intentName == Some("AMAZON.StopIntent")
    ensures Dispatch(env) == Some(CancelAndStopIntentHandler)
    ensures Respond(env, apiKey, http) == Some(Directive(Farewell, None))
  {
  }

  /** A question always gets a directive from the question handler, whatever the key and the HTTP outcome. */
  lemma QuestionAlwaysAnswered(env: Envelope, apiKey: Option<string>, http: HttpOutcome)
    requires env.reqType == "IntentRequest" && env.intentName == Some("AskIntent")
    ensures Respond(env, apiKey, http) == Some(AskHandle(env, apiKey, http))
    ensures Ssml.Unwrap(Respond(env, apiKey, http).value.speech).Some?
  {
  }

  /** The end of a session and any intent other than the four have no handler. */
  lemma UnhandledRequests(env: Envelope, apiKey: Option<string>, http: HttpOutcome)
    ensures env.reqType == "SessionEndedRequest" ==> Respond(env, apiKey, http) == None
    ensures (env.reqType == "IntentRequest" &&
             env.intentName !in {Some("AskIntent"), Some("AMAZON.HelpIntent"), Some("AMAZON.CancelIntent"), Some("AMAZON.StopIntent")})
            ==> Respond(env, apiKey, http) == None
  {
  }

  /**
    The only answers without a reprompt are the farewell and the two
    apologies of the question handler for a missing key and for billing.
   */
  lemma AnswersWithoutReprompt(env: Envelope, apiKey: Option<string>, http: HttpOutcome)
    requires Respond(env, apiKey, http).Some? && Respond(env, apiKey, http).value.reprompt.None?
    ensures Respond(env, apiKey, http).value in {Directive(Farewell, None), NotConfigured, Unable}
  {
  }

}
