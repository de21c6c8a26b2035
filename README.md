# DeepSeek friend Alexa skill: dispatch and question handling

This project models the decision logic of the Alexa skill in
`lambda/lambda_function.py`. The skill registers four request handlers in a
fixed order: launch, the `AskIntent` question, help, and cancel/stop. Each
request goes to the first handler whose `can_handle` accepts it. The
question handler reads the `prompt` slot and the OpenRouter API key. It
posts the prompt to a chat-completion service. It then answers with either
the completion or one of three fixed apologies, wrapped in speech markup
that selects the voice "Joanna".

The platform's request envelope becomes the `Envelope` datatype. It holds
the request type, the intent name and the `prompt` slot. The response
builder becomes the `Directive` datatype, which holds the speech and an
optional reprompt. The environment variable becomes an `apiKey: Option<string>`
parameter. The HTTP call becomes an `HttpOutcome` parameter. That parameter
is either a transport error or a reply with a status, the rendered JSON
body, whether the body parses, and `choices[0].message.content` when that
path exists.

Modules:
- `Options`: the `Option` datatype.
- `Text`: ASCII lower-casing, and the substring test behind Python's `k in s`.
- `Ssml`: `format_response` and its inverse, `Unwrap`.
- `Handlers`: the envelope, the directive, the four `can_handle` tests and `handle` bodies, and the question handler's `try` block as written (`AskTry`). `AskHandle` catches every exception from that block, and its contract is the outcome table.
- `Dispatch`: the registry as an ordered sequence of (test, handler) entries, first-match dispatch, and the end-to-end answer `Respond`.

The code lacks several things such a skill often has, and the model
follows the code:
- The HTTP call has no timeout. A failure that raises (a refused connection, a connection the operating system times out) is not reported separately; it falls into the generic `except` and gets the "trouble thinking" apology. A service that accepts the connection and never replies raises nothing, so the invocation gives no answer at all (see "## Left out").
- No catch-all handler and no exception handler are registered. A request that no handler accepts (for example `SessionEndedRequest` or an unknown intent) has no response; `Respond` returns `None`.
- No session-end handler is registered.
- The missing-key and billing apologies have no reprompt.
- The `prompt` slot is looked up before the key is checked. A missing slot therefore gets the "trouble thinking" apology even when the key is missing too.

## Model

| member | source | states |
|---|---|---|
| `Text.Lower` | lambda/lambda_function.py:77 | lower-casing keeps the length and lower-cases each character on its own |
| `Text.Contains` | lambda/lambda_function.py:77 | `k in s` holds exactly when `k` occurs in `s` at some position |
| `Ssml.FormatResponse` | lambda/lambda_function.py:34-36 | the markup is the voice opening tag, then the text unchanged, then the closing tags |
| `Ssml.Unwrap` | lambda/lambda_function.py:36 | succeeds exactly on strings with the voice tags around them, and what it returns formats back to its input |
| `Ssml.UnwrapFormat` | lambda/lambda_function.py:36 | removing the tags from `format_response(t)` recovers `t` |
| `Ssml.FormatInjective` | lambda/lambda_function.py:36 | different texts are never spoken as the same markup |
| `Handlers.LaunchCanHandle` | lambda/lambda_function.py:14-15 | accepts exactly the requests of type `LaunchRequest` |
| `Handlers.AskCanHandle` | lambda/lambda_function.py:30-32 | accepts exactly the `IntentRequest`s whose intent is `AskIntent` |
| `Handlers.HelpCanHandle` | lambda/lambda_function.py:116-118 | accepts exactly the `IntentRequest`s whose intent is `AMAZON.HelpIntent` |
| `Handlers.CancelAndStopCanHandle` | lambda/lambda_function.py:134-137 | accepts exactly the `IntentRequest`s whose intent is `AMAZON.CancelIntent` or `AMAZON.StopIntent` |
| `Handlers.LaunchHandle` | lambda/lambda_function.py:17-27 | speaks the fixed greeting, unwrapped, with reprompt "What would you like to know?" |
| `Handlers.HelpHandle` | lambda/lambda_function.py:120-131 | speaks the fixed explanation, unwrapped, with reprompt "What would you like to know?" |
| `Handlers.CancelAndStopHandle` | lambda/lambda_function.py:139-146 | speaks the fixed farewell, unwrapped, with no reprompt |
| `Handlers.AskTry` | lambda/lambda_function.py:39-102 | the `try` block in source order: slot lookup (raises when absent), key test (missing-key apology), the call (raises on transport error), the 402/429 branch (raises on an unparseable body, billing apology on a keyword), `raise_for_status` (raises on 400..599), parsing and the content lookup (raise when either fails), then the completion |
| `Handlers.Handle` | lambda/lambda_function.py:13-146 | runs the `handle` of the given handler: the three fixed answers, or the question handler with the envelope, the key and the HTTP outcome |
| `Handlers.AnyKeywordIn` | lambda/lambda_function.py:77 | `any(k in text for k in keys)` holds exactly when one of the keys occurs in the text |
| `Handlers.BillingKeywordAnyCase` | lambda/lambda_function.py:75-84 | the billing test passes exactly when some billing word, spelt in any mix of cases, occurs somewhere in the body |
| `Handlers.BillingTestOnLowerCase` | lambda/lambda_function.py:77 | lower-casing the body first does not change the billing test |
| `Handlers.UpperCaseCreditsIsBilling` | lambda/lambda_function.py:77 | "Insufficient CREDITS" passes the billing test |
| `Handlers.Answered` | lambda/lambda_function.py:89-102 | a completion is spoken as `format_response(content + " Is there anything else you'd like to know?")` with reprompt "What else would you like to learn about?" |
| `Handlers.AskHandle` | lambda/lambda_function.py:38-113 | missing slot gives the trouble apology; otherwise a missing or empty key gives the "properly configured" apology without reprompt, whatever the HTTP outcome; a parseable 402/429 body with a billing word gives the "unable to help" apology without reprompt; a usable success gives the completion; every other case (transport error, 402/429 without keyword or unparseable, other 4xx/5xx, unparseable body, missing content) gives the trouble apology with reprompt "What would you like to know?"; the speech is always voice markup |
| `Handlers.AskOutcomes` | lambda/lambda_function.py:38-113 | each of the four answers of the question handler is given in exactly the cases of its table row, in both directions |
| `Dispatch.FirstMatch` | lambda/lambda_function.py:149-153 | returns no handler exactly when no entry accepts; otherwise returns the handler of an accepting entry with no accepting entry before it |
| `Dispatch.RegisteredTestsExclusive` | lambda/lambda_function.py:14-137 | at most one registered `can_handle` accepts any envelope |
| `Dispatch.Dispatch` | lambda/lambda_function.py:149-153 | each handler is picked exactly when its own `can_handle` holds, and no handler is picked exactly when none holds |
| `Dispatch.Respond` | lambda/lambda_function.py:149-154 | a request accepted by a handler's `can_handle` gets that handler's directive (launch greeting, question handler's answer, help text, farewell); a request accepted by none of the four gets no response |
| `Dispatch.LaunchAnswer` | lambda/lambda_function.py:13-27 | a launch request gets the fixed greeting with reprompt "What would you like to know?" |
| `Dispatch.HelpAnswer` | lambda/lambda_function.py:115-131 | the help intent gets the fixed explanation with reprompt "What would you like to know?" |
| `Dispatch.CancelAndStopAnswer` | lambda/lambda_function.py:133-146 | Cancel and Stop both go to one handler, which speaks the farewell without a reprompt |
| `Dispatch.QuestionAlwaysAnswered` | lambda/lambda_function.py:29-113 | an `AskIntent` request always gets the question handler's directive, in voice markup, for every key and every HTTP call that returns or raises |
| `Dispatch.UnhandledRequests` | lambda/lambda_function.py:149-153 | `SessionEndedRequest` and intents other than the four have no response |
| `Dispatch.AnswersWithoutReprompt` | lambda/lambda_function.py:38-146 | the only answers without a reprompt are the farewell and the two apologies for a missing key and for billing |

## Left out

- The HTTP call (`requests.post`, its headers, the URL and the model name, lambda/lambda_function.py:55-72) is network I/O. Its outcome is the `HttpOutcome` parameter. The prompt text is therefore not used by the model: it only goes into the request body.
- A call to the service that is accepted but never answered. `requests.post` is given no timeout, so such a call waits until the platform stops the invocation, and the skill gives no answer. `HttpOutcome` has no value for it: the model covers only calls that return a reply or raise.
- `response.json()` and `raise_for_status` are library code. They become the `jsonOk`, `content` and `status` fields of a reply. An error status is one in 400..599, the range for which `raise_for_status` raises.
- `str(error_data)` renders a parsed JSON value. The model takes the rendered text as `bodyText`. `Text.Lower` lower-cases ASCII letters only, where Python's `str.lower` also folds non-ASCII letters. Only two non-ASCII characters lower-case to ASCII ones: U+0130 (to `i` followed by U+0307) and the Kelvin sign U+212A (to `k`). No billing word contains `k`. The `i` from U+0130 is always followed by U+0307, so it could only match the last letter of a billing word, and none ends in `i`. So the ASCII test gives Python's answer on every body.
- `os.environ.get('OPENROUTER_API_KEY')` reads process configuration. The key is the `apiKey` parameter.
- `SkillBuilder`, `lambda_handler` and the response builder are SDK plumbing. Only the handler order and the (speech, reprompt) pair are modelled. The builder's `.ask` also keeps the session open. That flag is not a separate field: it is set exactly when a reprompt is present.
- When no handler accepts a request, the SDK raises an error out of `lambda_handler`. The model gives `None` and does not model the error itself.
- A content value that is not a string (JSON `null`, a number) is spoken through Python's string formatting. The model takes `content` as already rendered text.
