/** The request pipeline: normalise the conversation into prompt messages,
    extract a draft order, validate it, and append one reply turn. The two
    language-model calls and the JSON serialiser are parameters: `Extractor`
    stands for the extraction chain, `Clarifier` for the chain that turns a
    validation error and the previous comment into a new question, and
    `Serializer` for dumping an order's fields to JSON text. */
module Pipeline {
  import opened Wrappers
  import opened OrderModel
  import opened Conversation

  /** The kind of a prompt message. The normaliser only ever builds AI
      messages; the other kinds are here so that `FlattenAllAi` says
      something. */
  datatype Role = HumanRole | SystemRole | AiRole

  /** One prompt message: its kind and its text. */
  datatype ModelMessage = ModelMessage(role: Role, content: string)

  /** Every AI turn carries a payload. Building the prompt message for an AI
      turn's payload refuses a missing one, so on any other conversation
      normalisation raises and the request is aborted. */
  predicate Normalizable(h: seq<ConversationMessage>)
  {
    forall i :: 0 <= i < |h| && h[i].dataType == AI ==> h[i].payload.Some?
  }

  /** What one conversation turn contributes to the prompt: an AI turn its
      payload and then its text, any other turn its text alone; every
      message is tagged as coming from the AI. */
  function Emitted(m: ConversationMessage): seq<ModelMessage>
    requires m.dataType == AI ==> m.payload.Some?
  {
    if m.dataType == AI then [ModelMessage(AiRole, m.payload.value), ModelMessage(AiRole, m.data)]
    else [ModelMessage(AiRole, m.data)]
  }

  /** The prompt for a whole conversation, turn after turn. */
  function Flatten(h: seq<ConversationMessage>): seq<ModelMessage>
    requires Normalizable(h)
  {
    if h == [] then []
    else
      var h' := h[..|h| - 1];
      assert forall i :: 0 <= i < |h'| ==> h'[i] == h[i];
      Flatten(h') + Emitted(h[|h| - 1])
  }

  /** Number of AI turns in `h`. */
  function CountAi(h: seq<ConversationMessage>): nat
  {
    if h == [] then 0 else CountAi(h[..|h| - 1]) + (if h[|h| - 1].dataType == AI then 1 else 0)
  }

  /** `categorize_order`: the normalisation loop. Its guard compares the
      payload with a sentinel that a parsed message never holds, so it is
      always taken and is left out here; an AI turn without a payload
      aborts the loop (None). */
  method CategorizeOrder(conversation: seq<ConversationMessage>) returns (messages: Option<seq<ModelMessage>>)
    ensures messages.Some? <==> Normalizable(conversation)
    ensures messages.Some? ==> messages.value == Flatten(conversation)
  {
    var prompt := [];
    for i := 0 to |conversation|
      invariant Normalizable(conversation[..i])
      invariant prompt == Flatten(conversation[..i])
    {
      var message := conversation[i];
      if message.dataType == AI {
        if message.payload.None? {
          return None;
        }
        prompt := prompt + [ModelMessage(AiRole, message.payload.value)];
      }
      prompt := prompt + [ModelMessage(AiRole, message.data)];
      assert conversation[..i + 1][..i] == conversation[..i];
    }
    assert conversation[..|conversation|] == conversation;
    messages := Some(prompt);
  }

  /** Normalisability is about each turn alone, so it splits over
      concatenation. */
  lemma NormalizableConcat(a: seq<ConversationMessage>, b: seq<ConversationMessage>)
    ensures Normalizable(a + b) <==> Normalizable(a) && Normalizable(b)
  {
    if Normalizable(a + b) {
      forall i | 0 <= i < |a| ensures a[i] == (a + b)[i] { }
      forall i | 0 <= i < |b| ensures b[i] == (a + b)[|a| + i] { }
    }
  }

  /** One prompt message per turn, plus one more per AI turn. */
  lemma {:induction false} FlattenLength(h: seq<ConversationMessage>)
    requires Normalizable(h)
    ensures |Flatten(h)| == |h| + CountAi(h)
  {
    if h != [] {
      assert h == h[..|h| - 1] + [h[|h| - 1]];
      NormalizableConcat(h[..|h| - 1], [h[|h| - 1]]);
      FlattenLength(h[..|h| - 1]);
    }
  }

  /** Every prompt message is tagged as an AI message, whoever spoke. */
  lemma {:induction false} FlattenAllAi(h: seq<ConversationMessage>)
    requires Normalizable(h)
    ensures forall i :: 0 <= i < |Flatten(h)| ==> Flatten(h)[i].role == AiRole
  {
    if h != [] {
      assert h == h[..|h| - 1] + [h[|h| - 1]];
      NormalizableConcat(h[..|h| - 1], [h[|h| - 1]]);
      FlattenAllAi(h[..|h| - 1]);
    }
  }

  /** Normalising two stretches of conversation one after the other is
      normalising the whole: the prompt keeps the conversation's order. */
  lemma {:induction false} FlattenAppend(a: seq<ConversationMessage>, b: seq<ConversationMessage>)
    requires Normalizable(a) && Normalizable(b)
    ensures Normalizable(a + b)
    ensures Flatten(a + b) == Flatten(a) + Flatten(b)
    decreases |b|
  {
    NormalizableConcat(a, b);
    if b == [] {
      assert a + b == a;
    } else {
      var b' := b[..|b| - 1];
      assert b == b' + [b[|b| - 1]];
      NormalizableConcat(b', [b[|b| - 1]]);
      assert (a + b)[..|a + b| - 1] == a + b';
      FlattenAppend(a, b');
    }
  }

  lemma FlattenSingle(m: ConversationMessage)
    requires m.dataType == AI ==> m.payload.Some?
    ensures Normalizable([m]) && Flatten([m]) == Emitted(m)
  {
    assert [m][..0] == [];
  }

  /** Turn `k` contributes its messages exactly between those of the turns
      before it and those of the turns after it. */
  lemma {:induction false} FlattenAt(h: seq<ConversationMessage>, k: nat)
    requires Normalizable(h) && k < |h|
    ensures Normalizable(h[..k]) && Normalizable(h[k + 1..])
    ensures Flatten(h) == Flatten(h[..k]) + Emitted(h[k]) + Flatten(h[k + 1..])
  {
    assert h == h[..k] + [h[k]] + h[k + 1..];
    NormalizableConcat(h[..k] + [h[k]], h[k + 1..]);
    NormalizableConcat(h[..k], [h[k]]);
    FlattenAppend(h[..k] + [h[k]], h[k + 1..]);
    FlattenAppend(h[..k], [h[k]]);
    FlattenSingle(h[k]);
  }

  /** The rule a reader would expect: a turn's payload is sent when it is
      set, whoever the turn is from, and then its text. */
  function EmittedWhenSet(m: ConversationMessage): seq<ModelMessage>
  {
    (if m.payload.Some? then [ModelMessage(AiRole, m.payload.value)] else []) + [ModelMessage(AiRole, m.data)]
  }

  function FlattenWhenSet(h: seq<ConversationMessage>): seq<ModelMessage>
  {
    if h == [] then [] else FlattenWhenSet(h[..|h| - 1]) + EmittedWhenSet(h[|h| - 1])
  }

  /** Exactly the AI turns carry a payload: what the conversations this
      pipeline builds look like when the caller adds only human turns. */
  predicate PayloadsOnAiTurns(h: seq<ConversationMessage>)
  {
    forall i :: 0 <= i < |h| ==> (h[i].payload.Some? <==> h[i].dataType == AI)
  }

  /** Such conversations can be normalised, and there the normalisation as
      written agrees with the "payload when set" rule. */
  lemma {:induction false} FlattenAgreesWhenPayloadsOnAiTurns(h: seq<ConversationMessage>)
    requires PayloadsOnAiTurns(h)
    ensures Normalizable(h) && Flatten(h) == FlattenWhenSet(h)
  {
    if h != [] {
      var h' := h[..|h| - 1];
      assert PayloadsOnAiTurns(h') by {
        forall i | 0 <= i < |h'| ensures (h'[i].payload.Some? <==> h'[i].dataType == AI) {
          assert h'[i] == h[i];
        }
      }
      FlattenAgreesWhenPayloadsOnAiTurns(h');
      var m := h[|h| - 1];
      assert m.payload.Some? <==> m.dataType == AI;
      assert h == h' + [m];
      NormalizableConcat(h', [m]);
    }
  }

  /** The order stored in the analysis: the extracted draft, or the strict
      order that replaced it. */
  datatype StoredOrder = Draft(draft: OrderDraft) | Promoted(order: ValidatedOrder)

  /** The field values of the stored order (`model_dump`); both kinds of
      order have the same fields. */
  function Fields(o: StoredOrder): OrderDraft
  {
    match o
    case Draft(d) => d
    case Promoted(v) => ToDraft(v)
  }

  /** The value of an `AiAnalysis`: the order and the comment for the user. */
  datatype Extraction = Extraction(order: StoredOrder, comment: string)

  type Extractor = seq<ModelMessage> -> (OrderDraft, string)
  type Clarifier = (seq<Violation>, string) -> string
  type Serializer = OrderDraft -> string

  /** What validation does to an analysis: on success the order is swapped
      for the strict one and the comment kept; on failure the order is kept
      and the comment replaced by the clarification of the errors. Either
      way the field values stay as they were. */
  function Validate(e: Extraction, clarify: Clarifier): (r: Extraction)
    ensures Fields(r.order) == Fields(e.order)
    ensures Promote(Fields(e.order)).Success? ==>
      r.order.Promoted? && r.order.order.Valid() && r.comment == e.comment
    ensures Promote(Fields(e.order)).Failure? ==>
      r.order == e.order && r.comment == clarify(Violations(Fields(e.order)), e.comment)
  {
    match Promote(Fields(e.order))
    case Success(v) => Extraction(Promoted(v), e.comment)
    case Failure(errors) => Extraction(e.order, clarify(errors, e.comment))
  }

  /** Validating an order that has already been promoted changes nothing. */
  lemma RevalidatePromoted(v: ValidatedOrder, comment: string, clarify: Clarifier)
    requires v.Valid()
    ensures Validate(Extraction(Promoted(v), comment), clarify) == Extraction(Promoted(v), comment)
  {
    RevalidateIsIdentity(v);
  }

  /** Once validation succeeds, validating again is a no-op. */
  lemma ValidateIdempotentOnSuccess(e: Extraction, clarify: Clarifier)
    requires Promote(Fields(e.order)).Success?
    ensures Validate(Validate(e, clarify), clarify) == Validate(e, clarify)
  {
    var r := Validate(e, clarify);
    RevalidatePromoted(r.order.order, r.comment, clarify);
  }

  /** `AiAnalysis`: the extraction result, which validation updates in place. */
  class AiAnalysis {
    var orderInitiation: StoredOrder
    var comment: string

    constructor (order: OrderDraft, comment: string)
      ensures orderInitiation == Draft(order) && this.comment == comment
    {
      orderInitiation := Draft(order);
      this.comment := comment;
    }

    function Snapshot(): Extraction
      reads this
    {
      Extraction(orderInitiation, comment)
    }
  }

  /** `create_order`: the extraction chain's first result, as a new analysis. */
  method CreateOrder(messages: seq<ModelMessage>, extract: Extractor) returns (analysis: AiAnalysis)
    ensures fresh(analysis)
    ensures analysis.Snapshot() == Extraction(Draft(extract(messages).0), extract(messages).1)
  {
    var (draft, comment) := extract(messages);
    analysis := new AiAnalysis(draft, comment);
  }

  /** `validate_order`: try the promotion; store the strict order on
      success, or overwrite the comment with a clarification on failure. */
  method ValidateOrder(analysis: AiAnalysis, clarify: Clarifier)
    modifies analysis
    ensures Fields(analysis.orderInitiation) == Fields(old(analysis.orderInitiation))
    ensures analysis.Snapshot() == Validate(old(analysis.Snapshot()), clarify)
  {
    var promoted := Promote(Fields(analysis.orderInitiation));
    match promoted
    case Success(enhanced) =>
      analysis.orderInitiation := Promoted(enhanced);
    case Failure(errors) =>
      analysis.comment := clarify(errors, analysis.comment);
  }

  /** `create_response`: the conversation with one AI turn appended, carrying
      the comment as text and the order's fields as its payload. */
  function CreateResponse(conversation: seq<ConversationMessage>, e: Extraction, serialize: Serializer)
    : (r: seq<ConversationMessage>)
    ensures |r| == |conversation| + 1 && r[..|conversation|] == conversation
    ensures r[|conversation|].dataType == AI && r[|conversation|].data == e.comment
    ensures r[|conversation|].payloadType == Some(OrderInitiation)
    ensures r[|conversation|].payload == Some(serialize(Fields(e.order)))
    ensures PayloadConsistent(r[|conversation|])
  {
    conversation + [ConversationMessage(AI, e.comment, Some(OrderInitiation), Some(serialize(Fields(e.order))))]
  }

  /** The four stages, always in this order, as one function of the
      request; None when normalisation aborts the request. */
  function RunSpec(conversation: seq<ConversationMessage>, extract: Extractor, clarify: Clarifier,
                   serialize: Serializer): Option<seq<ConversationMessage>>
  {
    if !Normalizable(conversation) then None
    else
      var messages := Flatten(conversation);
      var (draft, comment) := extract(messages);
      var validated := Validate(Extraction(Draft(draft), comment), clarify);
      Some(CreateResponse(conversation, validated, serialize))
  }

  /** One request: `categorize_order`, `create_order`, `validate_order`,
      `create_response`, in that order; None when the first stage aborts. */
  method RunGraph(conversation: seq<ConversationMessage>, extract: Extractor, clarify: Clarifier,
                  serialize: Serializer) returns (result: Option<seq<ConversationMessage>>)
    ensures result == RunSpec(conversation, extract, clarify, serialize)
  {
    var messages := CategorizeOrder(conversation);
    if messages.None? {
      return None;
    }
    var analysis := CreateOrder(messages.value, extract);
    ValidateOrder(analysis, clarify);
    result := Some(CreateResponse(conversation, analysis.Snapshot(), serialize));
  }

  /** A request aborts exactly when some AI turn lacks a payload. Otherwise
      it returns the caller's history untouched with exactly one AI turn
      after it, whose comment is the extractor's when the order is complete
      and the clarification of every violation otherwise, and whose payload
      is the serialisation of the extracted field values whether the order
      passed or not. */
  lemma RunReply(conversation: seq<ConversationMessage>, extract: Extractor, clarify: Clarifier,
                 serialize: Serializer)
    ensures RunSpec(conversation, extract, clarify, serialize).Some? <==> Normalizable(conversation)
    ensures Normalizable(conversation) ==>
      var r := RunSpec(conversation, extract, clarify, serialize).value;
      var (draft, comment) := extract(Flatten(conversation));
      && |r| == |conversation| + 1 && r[..|conversation|] == conversation
      && r[|conversation|].dataType == AI
      && r[|conversation|].payloadType == Some(OrderInitiation)
      && r[|conversation|].payload == Some(serialize(draft))
      && r[|conversation|].data == (if Promote(draft).Success? then comment else clarify(Violations(draft), comment))
  {
  }

  /** Whoever reads the reply back with a decoder that undoes the serialiser
      on the extracted draft gets that draft's field values, whether or not
      validation promoted it. */
  lemma ReplyPayloadDecodes(conversation: seq<ConversationMessage>, extract: Extractor, clarify: Clarifier,
                            serialize: Serializer, deserialize: string -> Option<OrderDraft>)
    requires Normalizable(conversation)
    requires deserialize(serialize(extract(Flatten(conversation)).0)) == Some(extract(Flatten(conversation)).0)
    ensures var r := RunSpec(conversation, extract, clarify, serialize).value;
      deserialize(r[|conversation|].payload.value) == Some(extract(Flatten(conversation)).0)
  {
  }

  /** The history a request returns can be normalised in turn, keeps
      "payload exactly on AI turns" when the caller's history had it, and
      the next request's prompt is this one's followed by the new turn's
      payload and text. */
  lemma {:induction false} RunExtendsNextPrompt(conversation: seq<ConversationMessage>, extract: Extractor,
                                                clarify: Clarifier, serialize: Serializer)
    requires Normalizable(conversation)
    ensures var r := RunSpec(conversation, extract, clarify, serialize);
      && r.Some? && Normalizable(r.value)
      && Flatten(r.value) == Flatten(conversation) + Emitted(r.value[|conversation|])
      && (PayloadsOnAiTurns(conversation) ==> PayloadsOnAiTurns(r.value))
  {
    var r := RunSpec(conversation, extract, clarify, serialize).value;
    var last := r[|conversation|];
    assert r == conversation + [last];
    FlattenSingle(last);
    FlattenAppend(conversation, [last]);
    if PayloadsOnAiTurns(conversation) {
      forall i | 0 <= i < |r| ensures (r[i].payload.Some? <==> r[i].dataType == AI) {
        if i < |conversation| {
          assert r[i] == conversation[i];
        }
      }
    }
  }

  /** An AI turn without a payload aborts the request, whatever else the
      conversation holds. */
  lemma AiTurnWithoutPayloadAborts(conversation: seq<ConversationMessage>, k: nat, extract: Extractor,
                                   clarify: Clarifier, serialize: Serializer)
    requires k < |conversation| && conversation[k].dataType == AI && conversation[k].payload.None?
    ensures RunSpec(conversation, extract, clarify, serialize).None?
  {
  }
}
