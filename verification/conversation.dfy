/** `ConversationMessage`: one turn of the chat the caller sends and gets
    back, possibly carrying a serialised structured artifact. */
module Conversation {
  import opened Wrappers

  /** Who produced the turn. */
  datatype DataType = Human | System | AI

  /** What kind of artifact the turn carries. */
  datatype PayloadType = FinancialPosition | OrderInitiation

  datatype ConversationMessage = ConversationMessage(
    dataType: DataType,
    data: string,
    payloadType: Option<PayloadType>,
    payload: Option<string>)

  function DataTypeValue(t: DataType): string
  {
    match t
    case Human => "Human"
    case System => "System"
    case AI => "AI"
  }

  function PayloadTypeValue(t: PayloadType): string
  {
    match t
    case FinancialPosition => "FinancialPosition"
    case OrderInitiation => "OrderInitiation"
  }

  /** Reading `data_type` from the request body: one of three literals. */
  function ParseDataType(s: string): (r: Option<DataType>)
    ensures r.Some? <==> s == "Human" || s == "System" || s == "AI"
    ensures r.Some? ==> DataTypeValue(r.value) == s
  {
    if s == "Human" then Some(Human)
    else if s == "System" then Some(System)
    else if s == "AI" then Some(AI)
    else None
  }

  /** Reading `payload_type` from the request body: one of two literals. */
  function ParsePayloadType(s: string): (r: Option<PayloadType>)
    ensures r.Some? <==> s == "FinancialPosition" || s == "OrderInitiation"
    ensures r.Some? ==> PayloadTypeValue(r.value) == s
  {
    if s == "FinancialPosition" then Some(FinancialPosition)
    else if s == "OrderInitiation" then Some(OrderInitiation)
    else None
  }

  /** A turn built from its two required fields: `payload_type` and `payload`
      both default to None. */
  function NewMessage(dataType: DataType, data: string): ConversationMessage
  {
    ConversationMessage(dataType, data, None, None)
  }

  /** An artifact comes with its tag and a tag with its artifact. The message
      type states this as intent only; nothing checks it. */
  predicate PayloadConsistent(m: ConversationMessage)
  {
    m.payload.Some? <==> m.payloadType.Some?
  }

  /** Turns built with the defaults are consistent, and a turn carrying an
      artifact without a tag is still a well-typed message: the invariant is
      not enforced. */
  lemma ConsistencyNotEnforced(dataType: DataType, data: string)
    ensures PayloadConsistent(NewMessage(dataType, data))
    ensures exists m: ConversationMessage :: m.dataType == dataType && m.data == data && !PayloadConsistent(m)
  {
    var m := ConversationMessage(dataType, data, None, Some("{}"));
    assert !PayloadConsistent(m);
  }
}
