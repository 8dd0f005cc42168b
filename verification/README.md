# Order intake: validation and pipeline model

A Dafny model of the deterministic core of a chat-driven order-intake
assistant. A caller sends the whole conversation so far. One request runs
four stages in a fixed order:

1. `categorize_order` flattens the conversation into prompt messages.
2. `create_order` lets a language model fill in a draft order and a comment.
3. `validate_order` tries to promote the draft to a strict order. If that
   fails, it asks a language model for a clarifying question.
4. `create_response` appends one AI turn carrying the comment and the order.

The model covers the order entities and their validation rules (`model.py`)
and the four stages (`main.py`). The language-model calls and the JSON
serialiser become function-typed parameters: `Extractor`, `Clarifier` and
`Serializer`.

Files:

- `wrappers.dfy`: `Option` and `Result`.
- `pattern.dfy`: the two identifier regular expressions, written as data. `ReMatch`
  is what Python's `re.match` does with them. `FullMatch` is the exact match
  the validators use in this model.
- `order_model.dfy`: the enums `OrderType` and `OrderClass`. The draft
  `OrderDraft` (`OrderInitiation`) and the strict `ValidatedOrder`
  (`EnhancedOrderInitiation`). The three field validators, the per-field rule
  table `Accepts`, and `Promote`. `Promote` returns either the strict order
  or every violation, in field order.
- `conversation.dfy`: `ConversationMessage` and its literal types.
- `pipeline.dfy`: the normalisation loop `CategorizeOrder` and its
  specification `Flatten`. The mutable `AiAnalysis` and `ValidateOrder`,
  which updates it in place. The pure `CreateResponse`, and `RunGraph`,
  which runs the four stages in order.

How the model reads the code:

- The strict order's fields are typed `str`, `float` and the two enums. Pydantic
  checks those types before any field validator runs. So a field left as
  None is reported as Pydantic's own type error (`Violation.Missing`), not
  with the validator's message. The validators' own `is None` and
  empty-string tests can never decide the outcome. A present value that
  fails a validator gives `Violation.Invalid` with the validator's exact
  message.
- The validation error lists the failing fields in declaration order, one
  entry per field. `order_confirmed` is required in the draft too, so it never
  fails.
- One would expect a turn's payload to reach the prompt whenever it is set.
  The code does something else. An AI turn always contributes its payload,
  and other turns never do. The guard `payload is not undefined` compares
  against a sentinel that a parsed message never holds, so it is always
  true. A prompt message's content must be text. So an AI turn whose
  payload is None makes `categorize_order` raise, and the request aborts.
  In the model, `CategorizeOrder`, `RunSpec` and `RunGraph` return None
  exactly then (`Normalizable` is the condition).
  `FlattenAgreesWhenPayloadsOnAiTurns` shows that the code's rule and the
  "payload when set" rule agree on every conversation in which exactly the
  AI turns carry a payload. `RunExtendsNextPrompt` shows that the
  pipeline's own replies keep a conversation in that shape.
- `payload` and `payload_type` are meant to be set together; both default
  to None. The message type does not enforce this
  (`ConsistencyNotEnforced`), and no stage rejects a turn that breaks it.
  Only the turn `create_response` appends always satisfies it.
- A validation error entry for a value that a validator rejected quotes
  that value (`Violation.Invalid` carries it, `ViolationsQuoteInputs`). So
  the clarification call sees which value was wrong, as it does in the
  error text it receives.

## Model

| member | source | states |
|---|---|---|
| `Pattern.MatchPrefix` | model.py:107 | matching the anchored pattern at the start of a string consumes exactly the pattern's fixed width |
| `Pattern.ReMatch` | model.py:107 | Python's `re.match` with a final `$` accepts strings of the pattern's width or one character longer |
| `Pattern.FullMatch` | model.py:113 | an exact match has exactly the pattern's width |
| `Pattern.ReMatchIsFullMatchOrNewline` | model.py:113 | for these patterns `re.match` accepts exactly the full matches and the full matches followed by one newline |
| `Pattern.IntervenantShape` | model.py:107 | `[\da-zA-Z]{7}` matches exactly the strings of 7 ASCII letters or digits |
| `Pattern.SecurityShape` | model.py:113 | `[\da-zA-Z]{6}\.[\da-zA-Z]{3}` matches exactly 10 characters with a dot at index 6 and ASCII letters or digits elsewhere |
| `Pattern.TrailingNewlineAccepted` | model.py:105-115 | "0001091\n" and "507170.000\n" pass the Python patterns as written but are not exact matches |
| `OrderModel.ParseOrderType` | model.py:9-11 | an order type is read only from "BUY" or "SELL", and reading gives back that text |
| `OrderModel.ParseOrderClass` | model.py:14-16 | an order class is read only from "N" |
| `OrderModel.EnumValuesRoundTrip` | model.py:9-16 | each enum member's value reads back as that member |
| `OrderModel.ValidateIntervenant` | model.py:105-109 | accepts iff the intervenant is present and is exactly 7 ASCII letters or digits; returns it unchanged; otherwise a missing-field error or the intervenant message |
| `OrderModel.ValidateSecurityId` | model.py:111-115 | accepts iff the security id is present and is 6 letters or digits, a dot, then 3 letters or digits; returns it unchanged; otherwise a missing-field error or the security message |
| `OrderModel.ValidateQuantity` | model.py:117-121 | accepts iff the quantity is present and strictly positive; returns it unchanged; zero and negative values get "Quantity must be a positive number." |
| `OrderModel.Require` | model.py:95-103 | a required enum field passes iff present, keeping its value, and is otherwise reported missing |
| `OrderModel.ViolationsReportEveryField` | model.py:87-121 | the error names a field iff that field breaks its rule, so every failing field is reported and no passing field is |
| `OrderModel.ViolationsQuoteInputs` | model.py:105-121 | an entry is "missing" exactly when the draft left the field None, and a validator's entry quotes the value the draft holds |
| `OrderModel.ViolationsInFieldOrder` | model.py:87-103 | the error has at most one entry per field, in declaration order |
| `OrderModel.Promote` | model.py:87-121 | promotion succeeds iff all five rules hold; the strict order then passes every check and has the draft's values exactly; otherwise the non-empty list of violations is returned |
| `OrderModel.RevalidateIsIdentity` | model.py:105-121 | validating a strict order's own values gives back that same order |
| `OrderModel.DefaultDraftViolations` | model.py:63-84 | a draft with only the confirmation flag fails on intervenant, security, order type and quantity, and its default class "N" passes |
| `OrderModel.WellFormedDraftPromoted` | model.py:87-121 | a complete well-formed draft is promoted with unchanged values |
| `OrderModel.NegativeQuantityRejected` | model.py:117-121 | a quantity of -5 with otherwise good fields is the single violation |
| `OrderModel.MalformedSecurityRejected` | model.py:111-115 | "12.345" is refused as the only violation, and "123456.789" is accepted |
| `Conversation.ParseDataType` | model.py:133 | `data_type` is read only from "Human", "System" or "AI" |
| `Conversation.ParsePayloadType` | model.py:135 | `payload_type` is read only from "FinancialPosition" or "OrderInitiation" |
| `Conversation.ConsistencyNotEnforced` | model.py:132-136 | default turns have neither payload nor payload type, and a turn may carry a payload without a type |
| `Pipeline.CategorizeOrder` | main.py:60-69 | the loop aborts (None) exactly when some AI turn has no payload, and otherwise builds exactly `Flatten` of the conversation |
| `Pipeline.FlattenLength` | main.py:64-68 | the prompt has one message per turn plus one per AI turn |
| `Pipeline.FlattenAllAi` | main.py:67-68 | every prompt message is tagged as an AI message, whoever spoke |
| `Pipeline.FlattenAppend` | main.py:64-69 | normalising two stretches of conversation in turn is normalising their concatenation, so conversation order is kept |
| `Pipeline.FlattenAt` | main.py:64-69 | turn k's payload and text sit between the earlier turns' messages and the later ones' |
| `Pipeline.FlattenAgreesWhenPayloadsOnAiTurns` | main.py:64-68 | when exactly the AI turns carry payloads, the loop as written matches the "payload when set" rule |
| `Pipeline.Validate` | main.py:137-159 | validation never changes field values; on success the order is the valid strict order and the comment is kept; on failure the order is kept and only the comment is replaced by the clarification of the violations and the old comment |
| `Pipeline.RevalidatePromoted` | main.py:138-141 | validating an already promoted order changes nothing |
| `Pipeline.ValidateIdempotentOnSuccess` | main.py:138-141 | once validation succeeds, validating again is a no-op |
| `Pipeline.AiAnalysis.constructor` | model.py:124-129 | a new analysis holds the extracted draft and comment |
| `Pipeline.CreateOrder` | main.py:112-115 | the stored analysis is the extractor's draft and comment for the normalised messages |
| `Pipeline.ValidateOrder` | main.py:118-160 | the in-place update keeps field values and leaves the analysis as `Validate` describes |
| `Pipeline.CreateResponse` | main.py:163-170 | the history grows by exactly one turn and its prefix is unchanged; the new turn is an AI turn with the comment as text, type OrderInitiation and the serialised order fields as payload |
| `Pipeline.RunGraph` | main.py:173-185 | the four stages run in the fixed order and give `RunSpec` of the request, which is None when normalisation aborts |
| `Pipeline.RunReply` | main.py:60-170 | a request aborts exactly when some AI turn lacks a payload; otherwise it returns the caller's history plus one AI turn; its payload is the serialisation of the extracted fields whether or not validation passed; its text is the extractor's comment on success and the clarification of every violation on failure |
| `Pipeline.ReplyPayloadDecodes` | main.py:163-170 | a decoder that undoes the serialiser on the extracted draft reads the reply's payload back as that draft, promoted or not |
| `Pipeline.AiTurnWithoutPayloadAborts` | main.py:65-67 | any AI turn without a payload makes the whole request abort |
| `Pipeline.RunExtendsNextPrompt` | main.py:163-170 | the returned history can be normalised again; the next request's prompt is this one's followed by the new turn's payload and text, and "payload exactly on AI turns" is kept |

## Left out

- The web layer is not modelled: the FastAPI app, CORS, the no-cache middleware, the preflight handler and the POST route. They are HTTP plumbing.
- Environment loading and `tool.py` are not modelled. They only build the language-model clients from environment variables.
- The extraction chain of `create_order` is not modelled. Its prompt, the bound tool and the parser become the `Extractor` parameter, which returns the first parsed draft and comment.
- `Pipeline.Validate`: the clarification chain of `validate_order` becomes the `Clarifier` parameter. `Clarifier` takes the structured list of violations and the old comment. The list gives each entry's field, its message and, for a validator's rejection, the rejected value. The text rendering of the Pydantic error that the chain receives is not modelled. That rendering also carries Pydantic's error-type names, documentation links, and the `None` input of a missing field. Two errors that differ only in those parts reach the `Clarifier` as the same list.
- Failures of those calls are not modelled. Each aborts the request in the source. The model treats both calls as total. The failures are:
  - network errors;
  - a parser that returns no tool call, so that `res[0]` raises;
  - tool-call arguments that the parser cannot read as an `OrderInitiation`, for example an order type outside BUY/SELL or an order class other than N.
- `OrderModel.ParseOrderType`, `OrderModel.ParseOrderClass`: they state the enum check that the parser inside `Extractor` applies. The model does not call them, because a typed `OrderDraft` cannot hold an out-of-enum value. So no out-of-enum value ever reaches `Promote`.
- `model_dump_json` is not modelled; Pydantic's serialiser becomes the `Serializer` parameter. `RunReply` states that the payload is the serialisation of the extracted draft. `ReplyPayloadDecodes` states that a decoder undoing the serialiser on that draft reads the draft back.
- The `order_schema` dictionary is not modelled. It is only prompt text and is never used for validation.
- The LangGraph state graph is not modelled as such. `RunGraph` composes the four stages in sequence and does not model the merging of partial state updates. The state keys `conversation_type` and `question` are not modelled, because no stage reads or writes them.
- `Pipeline.CategorizeOrder`: does not model the `is not undefined` guard. A message parsed from a request never holds that sentinel, so the guard is always true.
- `OrderModel.ValidateQuantity`: a quantity is a `real`. Python floats are not modelled. In particular a NaN quantity passes the source's `quantity <= 0` test and infinity is accepted; the model has neither.
- `OrderModel.ValidateIntervenant`, `OrderModel.ValidateSecurityId`: `\d` is read as the ASCII digits. Python's `\d` also matches other Unicode decimal digits, which the source therefore accepts.
- The `print` calls are not modelled.

## Findings

| source | as written | input that shows it | evidently intended | confidence | as-written member | corrected member |
|---|---|---|---|---|---|---|
| model.py:107 | `re.match(r'^[\da-zA-Z]{7}$', intervenant)`: `$` also matches just before a final newline | "0001091\n" (8 characters) is accepted and stored with its newline | exactly 7 letters or digits and nothing else | high, not executed | `Pattern.ReMatch`, shown by `Pattern.TrailingNewlineAccepted` | `OrderModel.ValidateIntervenant` |
| model.py:113 | `re.match(r"^[\da-zA-Z]{6}\.[\da-zA-Z]{3}$", security_id)`, with the same `$` behaviour | "507170.000\n" (11 characters) is accepted and stored with its newline | exactly 6 letters or digits, a dot, 3 letters or digits | high, not executed | `Pattern.ReMatch`, shown by `Pattern.TrailingNewlineAccepted` | `OrderModel.ValidateSecurityId` |
