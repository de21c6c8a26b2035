/**
  The four request handlers of the skill: what each accepts (`can_handle`)
  and what it answers (`handle`). The platform's request envelope, the
  response builder, the environment and the chat-completion call are
  replaced by plain values: an Envelope in, a Directive out, the API key and
  the outcome of the HTTP call as parameters.
 */
module Handlers {

  import opened Options
  import opened Text
  import Ssml

  /** The `prompt` slot of an intent: absent (looking it up fails), or present with a possibly empty value. */
  datatype PromptSlot = NoPromptSlot | PromptSlot(value: Option<string>)

  /** The parts of a request envelope the handlers read. */
  datatype Envelope = Envelope(reqType: string, intentName: Option<string>, promptSlot: PromptSlot)

  /** What the response builder is given: the speech and, when `.ask` is called, a reprompt. */
  datatype Directive = Directive(speech: string, reprompt: Option<string>)

  /**
    The outcome of the one POST to the chat-completion service. `bodyText` is
    the parsed JSON body rendered as a string, `jsonOk` says whether the body
    parses as JSON at all, `content` is `choices[0].message.content` when
    that path exists.
   */
  datatype HttpOutcome =
    | TransportError
    | Reply(status: int, bodyText: string, content: Option<string>, jsonOk: bool)

  datatype HandlerId =
    | LaunchRequestHandler
    | AskDeepseekIntentHandler
    | HelpIntentHandler
    | CancelAndStopIntentHandler

  // ---------------------------------------------------------------- can_handle

  predicate LaunchCanHandle(env: Envelope) {
    env.reqType == "LaunchRequest"
  }

  predicate AskCanHandle(env: Envelope) {
    env.reqType == "IntentRequest" && env.intentName == Some("AskIntent")
  }

  predicate HelpCanHandle(env: Envelope) {
    env.reqType == "IntentRequest" && env.intentName == Some("AMAZON.HelpIntent")
  }

  predicate CancelAndStopCanHandle(env: Envelope) {
    env.reqType == "IntentRequest" &&
    (env.intentName == Some("AMAZON.CancelIntent") || env.intentName == Some("AMAZON.StopIntent"))
  }

  // ---------------------------------------------------------------- fixed texts

  const WhatToKnow: string := "What would you like to know?"
  const WhatElse: string := "What else would you like to learn about?"
  const FollowUp: string := " Is there anything else you'd like to know?"

  const LaunchGreeting: string :=
    "Hi! I'm your DeepSeek friend, ready to help you understand anything. "
    + "What would you like to learn about? "
    + "Just ask me any question!"

  const HelpText: string :=
    "I'm your DeepSeek friend, an AI that loves to explain complex topics. "
    + "You can ask me anything you're curious about, from science to history to technology. "
    + "For example, try asking 'what is quantum computing?' or "
    + "'explain how black holes work'. What would you like to learn about?"

  const Farewell: string := "Goodbye! I enjoyed our chat. Come back anytime you want to learn something new!"

  const NotConfiguredText: string :=
    "I apologize, but I need to be properly configured first. Please contact the skill administrator."
  const UnableText: string := "I apologize, but I'm unable to help right now. Please try again later."
  const TroubleText: string := "I'm having trouble thinking right now. Could you try asking me again?"

  /** The four answers of the question handler that do not depend on the completion text. */
  const NotConfigured: Directive := Directive(Ssml.FormatResponse(NotConfiguredText), None)
  const Unable: Directive := Directive(Ssml.FormatResponse(UnableText), None)
  const Trouble: Directive := Directive(Ssml.FormatResponse(TroubleText), Some(WhatToKnow))

  /** The answer that speaks a completion, followed by the standing question. */
  function Answered(completion: string): (d: Directive)
    ensures Ssml.Unwrap(d.speech) == Some(completion + FollowUp)
    ensures d.reprompt == Some(WhatElse)
  {
    Ssml.UnwrapFormat(completion + FollowUp);
    Directive(Ssml.FormatResponse(completion + FollowUp), Some(WhatElse))
  }

  // ---------------------------------------------------------------- handle

  function LaunchHandle(): Directive {
    Directive(LaunchGreeting, Some(WhatToKnow))
  }

  function HelpHandle(): Directive {
    Directive(HelpText, Some(WhatToKnow))
  }

  function CancelAndStopHandle(): Directive {
    Directive(Farewell, None)
  }

  // ---------------------------------------------------------------- the question handler

  /** The billing words looked for in the body of a 402 or 429 reply. */
  const BillingKeywords: seq<string> := ["credit", "quota", "payment", "billing"]

  /** Python's `any(k in text for k in keys)`. */
  function AnyKeywordIn(keys: seq<string>, text: string): (r: bool)
    ensures r <==> exists j :: 0 <= j < |keys| && Contains(text, keys[j])
  {
    if keys == [] then false
    else Contains(text, keys[0]) || AnyKeywordIn(keys[1..], text)
  }

  /** The billing test of the 402/429 branch, on the lower-cased rendered body. */
  predicate HasBillingKeyword(body: string) {
    AnyKeywordIn(BillingKeywords, Lower(body))
  }

  /** `if not api_key`: no key in the environment, or an empty one. */
  predicate KeyMissing(apiKey: Option<string>) {
    apiKey == None || apiKey == Some("")
  }

  /** The two statuses that are checked for a billing message before anything else. */
  predicate CreditStatus(status: int) {
    status == 402 || status == 429
  }

  /** The statuses for which `raise_for_status` raises: client and server errors. */
  predicate ErrorStatus(status: int) {
    400 <= status < 600
  }

  /** The result of the body of the `try` block: a returned directive, or an exception that escaped it. */
  datatype Step = Returned(d: Directive) | Raised

  /** The `try` block of `AskDeepseekIntentHandler.handle`, statement by statement. */
  function AskTry(slot: PromptSlot, apiKey: Option<string>, http: HttpOutcome): Step {
    if slot.NoPromptSlot? then Raised                                    // slots["prompt"]
    else if apiKey == None || apiKey.value == "" then Returned(NotConfigured)
    else if http.TransportError? then Raised                             // requests.post
    else if http.status == 402 || http.status == 429 then
      if !http.jsonOk then Raised                                        // response.json()
      else if AnyKeywordIn(BillingKeywords, Lower(http.bodyText)) then Returned(Unable)
      else Raised                                                        // raise_for_status
    else if 400 <= http.status < 600 then Raised                         // raise_for_status
    else if !http.jsonOk then Raised                                     // response.json()
    else if http.content.None? then Raised                               // ['choices'][0]['message']['content']
    else Returned(Answered(http.content.value))
  }

  /** The completion the service answered with, when its reply is a usable success. */
  function Completion(http: HttpOutcome): Option<string> {
    if http.Reply? && !ErrorStatus(http.status) && http.jsonOk then http.content else None
  }

  /** A 402 or 429 reply whose body speaks of billing. */
  predicate BillingRefusal(http: HttpOutcome) {
    http.Reply? && CreditStatus(http.status) && http.jsonOk && HasBillingKeyword(http.bodyText)
  }

  /**
    `AskDeepseekIntentHandler.handle`: the `try` block, with every exception
    caught and answered with the trouble apology. The answer follows the table
    below, and it is always wrapped in the voice tags.
   */
  function AskHandle(env: Envelope, apiKey: Option<string>, http: HttpOutcome): (d: Directive)
    ensures env.promptSlot.NoPromptSlot? ==> d == Trouble
    ensures env.promptSlot.PromptSlot? && KeyMissing(apiKey) ==> d == NotConfigured
    ensures env.promptSlot.PromptSlot? && !KeyMissing(apiKey) && BillingRefusal(http) ==> d == Unable
    ensures env.promptSlot.PromptSlot? && !KeyMissing(apiKey) && Completion(http).Some? ==> d == Answered(Completion(http).value)
    ensures env.promptSlot.PromptSlot? && !KeyMissing(apiKey) && !BillingRefusal(http) && Completion(http).None? ==> d == Trouble
    ensures Ssml.Unwrap(d.speech).Some?
  {
    Ssml.UnwrapFormat(TroubleText);
    Ssml.UnwrapFormat(NotConfiguredText);
    Ssml.UnwrapFormat(UnableText);
    match AskTry(env.promptSlot, apiKey, http)
    case Returned(d) => d
    case Raised => Trouble
  }

  /** Billing word `j` is spelt, in some mix of upper and lower case, at position `i` of the body. */
  predicate KeywordAnyCaseAt(body: string, j: int, i: int) {
    0 <= j < |BillingKeywords| && 0 <= i && i + |BillingKeywords[j]| <= |body| &&
    Lower(body[i..i + |BillingKeywords[j]|]) == BillingKeywords[j]
  }

  /**
    The billing test ignores case: it passes exactly when some billing word,
    spelt in any mix of upper and lower case, occurs in the body.
   */
  lemma BillingKeywordAnyCase(body: string)
    ensures HasBillingKeyword(body) <==> exists j, i :: KeywordAnyCaseAt(body, j, i)
  {
    if HasBillingKeyword(body) {
      var j :| 0 <= j < |BillingKeywords| && Contains(Lower(body), BillingKeywords[j]);
      var i :| OccursAt(Lower(body), BillingKeywords[j], i);
      LowerSlice(body, i, i + |BillingKeywords[j]|);
      assert KeywordAnyCaseAt(body, j, i);
    }
    if j, i :| KeywordAnyCaseAt(body, j, i) {
      LowerSlice(body, i, i + |BillingKeywords[j]|);
      assert OccursAt(Lower(body), BillingKeywords[j], i);
    }
  }

  /** Lower-casing the body first does not change the billing test. */
  lemma BillingTestOnLowerCase(body: string)
    ensures HasBillingKeyword(Lower(body)) == HasBillingKeyword(body)
  {
  }

  /** "Insufficient CREDITS" is a billing message. */
  lemma UpperCaseCreditsIsBilling()
    ensures HasBillingKeyword("Insufficient CREDITS")
  {
    var body := "Insufficient CREDITS";
    assert body[13..19] == "CREDIT";
    assert Lower("CREDIT") == "credit";
    assert KeywordAnyCaseAt(body, 0, 13);
    BillingKeywordAnyCase(body);
  }

  /**
    Each answer of the question handler is given in exactly the cases of the
    table: the apology for a missing key, the billing apology, the trouble
    apology, or the completion with its follow-up reprompt.
   */
  lemma AskOutcomes(env: Envelope, apiKey: Option<string>, http: HttpOutcome)
    ensures AskHandle(env, apiKey, http) == NotConfigured <==> env.promptSlot.PromptSlot? && KeyMissing(apiKey)
    ensures AskHandle(env, apiKey, http) == Unable <==>
      env.promptSlot.PromptSlot? && !KeyMissing(apiKey) && BillingRefusal(http)
    ensures AskHandle(env, apiKey, http) == Trouble <==>
      env.promptSlot.NoPromptSlot? || (!KeyMissing(apiKey) && !BillingRefusal(http) && Completion(http).None?)
    ensures AskHandle(env, apiKey, http).reprompt == Some(WhatElse) <==>
      env.promptSlot.PromptSlot? && !KeyMissing(apiKey) && Completion(http).Some?
  {
  }

  /** `handle` of the handler `h`. */
  function Handle(h: HandlerId, env: Envelope, apiKey: Option<string>, http: HttpOutcome): Directive {
    match h
    case LaunchRequestHandler => LaunchHandle()
    case AskDeepseekIntentHandler => AskHandle(env, apiKey, http)
    case HelpIntentHandler => HelpHandle()
    case CancelAndStopIntentHandler => CancelAndStopHandle()
  }

}
