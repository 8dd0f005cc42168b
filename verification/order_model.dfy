/** The order entities of the intake assistant: the closed enums for order
    type and order class, the draft order the extraction step fills in
    (every field optional), the strict order it is promoted to (every field
    required, three of them checked for shape or range), and the promotion
    itself, which either yields the strict order or lists every violated
    rule, field by field. */
module OrderModel {
  import opened Wrappers
  import opened Pattern

  /** `OrderType`: BUY or SELL, nothing else. */
  datatype OrderType = Buy | Sell

  /** `OrderClass`: only the normal class "N" exists. */
  datatype OrderClass = Normal

  function OrderTypeValue(t: OrderType): string
  {
    match t
    case Buy => "BUY"
    case Sell => "SELL"
  }

  function OrderClassValue(c: OrderClass): string
  {
    "N"
  }

  /** Reading an order type from its text value; any other text is refused. */
  function ParseOrderType(s: string): (r: Option<OrderType>)
    ensures r.Some? <==> s == "BUY" || s == "SELL"
    ensures r.Some? ==> OrderTypeValue(r.value) == s
  {
    if s == "BUY" then Some(Buy)
    else if s == "SELL" then Some(Sell)
    else None
  }

  /** Reading an order class from its text value; any other text is refused. */
  function ParseOrderClass(s: string): (r: Option<OrderClass>)
    ensures r.Some? <==> s == "N"
    ensures r.Some? ==> OrderClassValue(r.value) == s
  {
    if s == "N" then Some(Normal) else None
  }

  lemma {:induction false} EnumValuesRoundTrip(t: OrderType, c: OrderClass)
    ensures ParseOrderType(OrderTypeValue(t)) == Some(t)
    ensures ParseOrderClass(OrderClassValue(c)) == Some(c)
  {
    match t
    case Buy =>
    case Sell =>
  }

  /** `OrderInitiation`: the draft. Only the confirmation flag is required. */
  datatype OrderDraft = OrderDraft(
    orderConfirmed: bool,
    intervenant: Option<string>,
    securityId: Option<string>,
    orderType: Option<OrderType>,
    quantity: Option<real>,
    orderClass: Option<OrderClass>)

  /** A draft built from the confirmation flag alone: every other field takes
      its declared default, None for all of them except the order class. */
  function NewDraft(orderConfirmed: bool): OrderDraft
  {
    OrderDraft(orderConfirmed, None, None, None, None, Some(Normal))
  }

  /** `EnhancedOrderInitiation`: the strict order, every field present. */
  datatype ValidatedOrder = ValidatedOrder(
    orderConfirmed: bool,
    intervenant: string,
    securityId: string,
    orderType: OrderType,
    quantity: real,
    orderClass: OrderClass)
  {
    /** The checks of the three field validators hold. */
    predicate Valid()
    {
      IsIntervenant(intervenant) && IsSecurityId(securityId) && quantity > 0.0
    }
  }

  /** The strict order's field values, seen as a draft (what dumping it to a
      dictionary and reading that back as an `OrderInitiation` gives). */
  function ToDraft(v: ValidatedOrder): OrderDraft
  {
    OrderDraft(v.orderConfirmed, Some(v.intervenant), Some(v.securityId),
               Some(v.orderType), Some(v.quantity), Some(v.orderClass))
  }

  predicate IsIntervenant(s: string)
  {
    FullMatch(IntervenantPattern, s)
  }

  predicate IsSecurityId(s: string)
  {
    FullMatch(SecurityPattern, s)
  }

  /** The fields of the strict order that can be refused, in declaration
      order (`order_confirmed` is required in the draft too, so it never is). */
  datatype Field = IntervenantField | SecurityIdField | OrderTypeField | QuantityField | OrderClassField

  function FieldRank(f: Field): nat
  {
    match f
    case IntervenantField => 0
    case SecurityIdField => 1
    case OrderTypeField => 2
    case QuantityField => 3
    case OrderClassField => 4
  }

  /** A rejected field value, as the validation error quotes it. */
  datatype FieldValue = Text(text: string) | Number(number: real)

  /** One entry of the validation error. `Missing`: the field is None, which
      the strict type refuses before any field validator runs. `Invalid`: the
      field validator raised with this message on this input value. */
  datatype Violation = Missing(field: Field) | Invalid(field: Field, message: string, input: FieldValue)

  const IntervenantError: string := "It seems that the intervenant is missing or incomplete, please correct"
  const SecurityError: string := "It seems that the security is missing or incomplete, please correct"
  const QuantityError: string := "Quantity must be a positive number."

  /** `validate_intervenant`, after the strict type has required a string. */
  function ValidateIntervenant(v: Option<string>): (r: Result<string, Violation>)
    ensures r.Success? <==> v.Some? && |v.value| == 7 && forall i :: 0 <= i < 7 ==> IsAsciiAlnum(v.value[i])
    ensures r.Success? ==> r.value == v.value
    ensures r.Failure? ==> r.error == if v.None? then Missing(IntervenantField) else Invalid(IntervenantField, IntervenantError, Text(v.value))
  {
    match v
    case None => Failure(Missing(IntervenantField))
    case Some(s) =>
      IntervenantShape(s);
      if s == [] || !IsIntervenant(s) then Failure(Invalid(IntervenantField, IntervenantError, Text(s)))
      else Success(s)
  }

  /** `validate_security`, after the strict type has required a string. */
  function ValidateSecurityId(v: Option<string>): (r: Result<string, Violation>)
    ensures r.Success? <==> v.Some? && |v.value| == 10 && v.value[6] == '.' &&
                            forall i :: 0 <= i < 10 && i != 6 ==> IsAsciiAlnum(v.value[i])
    ensures r.Success? ==> r.value == v.value
    ensures r.Failure? ==> r.error == if v.None? then Missing(SecurityIdField) else Invalid(SecurityIdField, SecurityError, Text(v.value))
  {
    match v
    case None => Failure(Missing(SecurityIdField))
    case Some(s) =>
      SecurityShape(s);
      if s == [] || !IsSecurityId(s) then Failure(Invalid(SecurityIdField, SecurityError, Text(s)))
      else Success(s)
  }

  /** `validate_quantity`, after the strict type has required a number. */
  function ValidateQuantity(v: Option<real>): (r: Result<real, Violation>)
    ensures r.Success? <==> v.Some? && v.value > 0.0
    ensures r.Success? ==> r.value == v.value
    ensures r.Failure? ==> r.error == if v.None? then Missing(QuantityField) else Invalid(QuantityField, QuantityError, Number(v.value))
  {
    match v
    case None => Failure(Missing(QuantityField))
    case Some(q) => if q <= 0.0 then Failure(Invalid(QuantityField, QuantityError, Number(q))) else Success(q)
  }

  /** A required field with no validator of its own: present or missing. */
  function Require<T>(v: Option<T>, f: Field): (r: Result<T, Violation>)
    ensures r.Success? <==> v.Some?
    ensures r.Success? ==> r.value == v.value
    ensures r.Failure? ==> r.error == Missing(f)
  {
    match v
    case None => Failure(Missing(f))
    case Some(x) => Success(x)
  }

  function ErrorsOf<T>(r: Result<T, Violation>): seq<Violation>
  {
    if r.Failure? then [r.error] else []
  }

  /** The rule table of the strict order, field by field, stated directly on
      the characters rather than through the patterns. */
  predicate Accepts(d: OrderDraft, f: Field)
  {
    match f
    case IntervenantField =>
      d.intervenant.Some? && |d.intervenant.value| == 7 &&
      forall i :: 0 <= i < 7 ==> IsAsciiAlnum(d.intervenant.value[i])
    case SecurityIdField =>
      d.securityId.Some? && |d.securityId.value| == 10 && d.securityId.value[6] == '.' &&
      forall i :: 0 <= i < 10 && i != 6 ==> IsAsciiAlnum(d.securityId.value[i])
    case OrderTypeField => d.orderType.Some?
    case QuantityField => d.quantity.Some? && d.quantity.value > 0.0
    case OrderClassField => d.orderClass.Some?
  }

  /** Every violated rule of `d`, in field order, as the validation error
      lists them. */
  function Violations(d: OrderDraft): seq<Violation>
  {
    ErrorsOf(ValidateIntervenant(d.intervenant)) +
    ErrorsOf(ValidateSecurityId(d.securityId)) +
    ErrorsOf(Require(d.orderType, OrderTypeField)) +
    ErrorsOf(ValidateQuantity(d.quantity)) +
    ErrorsOf(Require(d.orderClass, OrderClassField))
  }

  /** The error names a field exactly when that field breaks its rule: every
      failing field is reported, not only the first, and no passing one is. */
  lemma ViolationsReportEveryField(d: OrderDraft, f: Field)
    ensures (exists v :: v in Violations(d) && v.field == f) <==> !Accepts(d, f)
  {
    var i := ValidateIntervenant(d.intervenant);
    var s := ValidateSecurityId(d.securityId);
    var t := Require(d.orderType, OrderTypeField);
    var q := ValidateQuantity(d.quantity);
    var c := Require(d.orderClass, OrderClassField);
    var r := match f
      case IntervenantField => ErrorsOf(i)
      case SecurityIdField => ErrorsOf(s)
      case OrderTypeField => ErrorsOf(t)
      case QuantityField => ErrorsOf(q)
      case OrderClassField => ErrorsOf(c);
    assert forall v :: v in Violations(d) && v.field == f ==> v in r;
    if !Accepts(d, f) {
      assert r != [] && r[0] in Violations(d) && r[0].field == f;
    }
  }

  /** The value a validator's error quotes for a field: the draft's value
      for the three validated fields when it is present; the two enum fields
      have no validator and are never quoted. */
  function QuotedInput(d: OrderDraft, f: Field): Option<FieldValue>
  {
    match f
    case IntervenantField => if d.intervenant.Some? then Some(Text(d.intervenant.value)) else None
    case SecurityIdField => if d.securityId.Some? then Some(Text(d.securityId.value)) else None
    case OrderTypeField => None
    case QuantityField => if d.quantity.Some? then Some(Number(d.quantity.value)) else None
    case OrderClassField => None
  }

  /** An entry is `Missing` exactly when the draft left the field empty, and
      an `Invalid` entry quotes the value the draft holds in that field. */
  lemma ViolationsQuoteInputs(d: OrderDraft, v: Violation)
    requires v in Violations(d)
    ensures v.Missing? <==> QuotedInput(d, v.field).None?
    ensures v.Invalid? ==> QuotedInput(d, v.field) == Some(v.input)
  {
    var i := ValidateIntervenant(d.intervenant);
    var s := ValidateSecurityId(d.securityId);
    var t := Require(d.orderType, OrderTypeField);
    var q := ValidateQuantity(d.quantity);
    var c := Require(d.orderClass, OrderClassField);
    assert v in ErrorsOf(i) || v in ErrorsOf(s) || v in ErrorsOf(t) || v in ErrorsOf(q) || v in ErrorsOf(c);
  }

  /** Entries strictly ordered by field: at most one per field, in the order
      the fields are declared. */
  predicate InFieldOrder(vs: seq<Violation>)
  {
    forall i, j :: 0 <= i < j < |vs| ==> FieldRank(vs[i].field) < FieldRank(vs[j].field)
  }

  /** Every entry of `vs` is about a field ranked within [lo, hi). */
  predicate RanksWithin(vs: seq<Violation>, lo: nat, hi: nat)
  {
    forall v :: v in vs ==> lo <= FieldRank(v.field) < hi
  }

  lemma InFieldOrderConcat(xs: seq<Violation>, ys: seq<Violation>, lo: nat, mid: nat, hi: nat)
    requires lo <= mid <= hi
    requires InFieldOrder(xs) && RanksWithin(xs, lo, mid)
    requires InFieldOrder(ys) && RanksWithin(ys, mid, hi)
    ensures InFieldOrder(xs + ys) && RanksWithin(xs + ys, lo, hi)
  {
    var zs := xs + ys;
    forall i, j | 0 <= i < j < |zs| ensures FieldRank(zs[i].field) < FieldRank(zs[j].field) {
      if j < |xs| {
        assert zs[i] == xs[i] && zs[j] == xs[j];
      } else if i >= |xs| {
        assert zs[i] == ys[i - |xs|] && zs[j] == ys[j - |xs|];
      } else {
        assert zs[i] == xs[i] && zs[j] == ys[j - |xs|];
        assert zs[i] in xs && zs[j] in ys;
      }
    }
  }

  lemma ErrorsOfRanked<T>(r: Result<T, Violation>, f: Field)
    requires r.Failure? ==> r.error.field == f
    ensures InFieldOrder(ErrorsOf(r)) && RanksWithin(ErrorsOf(r), FieldRank(f), FieldRank(f) + 1)
  {
  }

  /** At most one entry per field, in the order the fields are declared. */
  lemma ViolationsInFieldOrder(d: OrderDraft)
    ensures InFieldOrder(Violations(d))
  {
    var i := ValidateIntervenant(d.intervenant);
    var s := ValidateSecurityId(d.securityId);
    var t := Require(d.orderType, OrderTypeField);
    var q := ValidateQuantity(d.quantity);
    var c := Require(d.orderClass, OrderClassField);
    ErrorsOfRanked(i, IntervenantField);
    ErrorsOfRanked(s, SecurityIdField);
    ErrorsOfRanked(t, OrderTypeField);
    ErrorsOfRanked(q, QuantityField);
    ErrorsOfRanked(c, OrderClassField);
    var a, b, g, h, k := ErrorsOf(i), ErrorsOf(s), ErrorsOf(t), ErrorsOf(q), ErrorsOf(c);
    InFieldOrderConcat(a, b, 0, 1, 2);
    InFieldOrderConcat(a + b, g, 0, 2, 3);
    InFieldOrderConcat(a + b + g, h, 0, 3, 4);
    InFieldOrderConcat(a + b + g + h, k, 0, 4, 5);
  }

  /** Promoting a draft to the strict order (`EnhancedOrderInitiation(**draft)`):
      all rules pass and the strict order carries the draft's values
      unchanged, or some rule fails and every failure is reported. */
  function Promote(d: OrderDraft): (r: Result<ValidatedOrder, seq<Violation>>)
    ensures r.Success? <==> forall f :: Accepts(d, f)
    ensures r.Success? ==> r.value.Valid() && ToDraft(r.value) == d
    ensures r.Failure? ==> r.error == Violations(d) && r.error != []
  {
    var i := ValidateIntervenant(d.intervenant);
    var s := ValidateSecurityId(d.securityId);
    var t := Require(d.orderType, OrderTypeField);
    var q := ValidateQuantity(d.quantity);
    var c := Require(d.orderClass, OrderClassField);
    if i.Success? && s.Success? && t.Success? && q.Success? && c.Success? then
      IntervenantShape(i.value);
      SecurityShape(s.value);
      Success(ValidatedOrder(d.orderConfirmed, i.value, s.value, t.value, q.value, c.value))
    else
      ViolationsReportEveryField(d, if i.Failure? then IntervenantField
                                    else if s.Failure? then SecurityIdField
                                    else if t.Failure? then OrderTypeField
                                    else if q.Failure? then QuantityField
                                    else OrderClassField);
      Failure(Violations(d))
  }

  /** Validating an order that already passed validation succeeds again and
      gives back the very same order: no validator alters what it accepts. */
  lemma {:induction false} RevalidateIsIdentity(v: ValidatedOrder)
    requires v.Valid()
    ensures Promote(ToDraft(v)) == Success(v)
  {
    IntervenantShape(v.intervenant);
    SecurityShape(v.securityId);
    var r := Promote(ToDraft(v));
    assert Accepts(ToDraft(v), IntervenantField) && Accepts(ToDraft(v), SecurityIdField);
    assert r.Success?;
    assert ToDraft(r.value) == ToDraft(v);
  }

  /** A draft holding only the confirmation flag fails on exactly the four
      fields that default to None; the order class, defaulting to "N",
      passes. */
  lemma DefaultDraftViolations(orderConfirmed: bool)
    ensures Promote(NewDraft(orderConfirmed)) ==
      Failure([Missing(IntervenantField), Missing(SecurityIdField), Missing(OrderTypeField), Missing(QuantityField)])
  {
    var d := NewDraft(orderConfirmed);
    assert !Accepts(d, IntervenantField);
    assert Violations(d) == [Missing(IntervenantField)] + [Missing(SecurityIdField)] +
                            [Missing(OrderTypeField)] + [Missing(QuantityField)] + [];
    assert Violations(d) == [Missing(IntervenantField), Missing(SecurityIdField), Missing(OrderTypeField), Missing(QuantityField)];
  }

  /** A complete, well-formed draft is promoted with its values as they are. */
  lemma WellFormedDraftPromoted()
    ensures Promote(OrderDraft(true, Some("AB12345"), Some("123456.ABC"), Some(Buy), Some(100.0), Some(Normal)))
         == Success(ValidatedOrder(true, "AB12345", "123456.ABC", Buy, 100.0, Normal))
  {
    GoodIdentifiers();
  }

  /** A negative quantity is the one violation of an otherwise good draft. */
  lemma NegativeQuantityRejected()
    ensures Promote(OrderDraft(true, Some("AB12345"), Some("123456.ABC"), Some(Buy), Some(-5.0), Some(Normal)))
         == Failure([Invalid(QuantityField, QuantityError, Number(-5.0))])
  {
    var d := OrderDraft(true, Some("AB12345"), Some("123456.ABC"), Some(Buy), Some(-5.0), Some(Normal));
    GoodIdentifiers();
    assert Violations(d) == [] + [] + [] + [Invalid(QuantityField, QuantityError, Number(-5.0))] + [];
    assert Violations(d) == [Invalid(QuantityField, QuantityError, Number(-5.0))];
    assert !Accepts(d, QuantityField);
  }

  /** A security identifier of the wrong shape is refused; the corrected one
      sent on the next turn is accepted. */
  lemma MalformedSecurityRejected()
    ensures Promote(OrderDraft(true, Some("AB12345"), Some("12.345"), Some(Sell), Some(10.0), Some(Normal)))
         == Failure([Invalid(SecurityIdField, SecurityError, Text("12.345"))])
    ensures Promote(OrderDraft(true, Some("AB12345"), Some("123456.789"), Some(Sell), Some(10.0), Some(Normal))).Success?
  {
    var d := OrderDraft(true, Some("AB12345"), Some("12.345"), Some(Sell), Some(10.0), Some(Normal));
    GoodIdentifiers();
    assert !Accepts(d, SecurityIdField);
    assert Violations(d) == [] + [Invalid(SecurityIdField, SecurityError, Text("12.345"))] + [] + [] + [];
    assert Violations(d) == [Invalid(SecurityIdField, SecurityError, Text("12.345"))];
    var s := "123456.789";
    assert forall i :: 0 <= i < 10 && i != 6 ==> IsAsciiAlnum(s[i]);
  }

  /** The identifiers the examples above use are well formed. */
  lemma GoodIdentifiers()
    ensures Accepts(OrderDraft(true, Some("AB12345"), Some("123456.ABC"), None, None, None), IntervenantField)
    ensures Accepts(OrderDraft(true, Some("AB12345"), Some("123456.ABC"), None, None, None), SecurityIdField)
  {
    var a, b := "AB12345", "123456.ABC";
    assert forall i :: 0 <= i < 7 ==> IsAsciiAlnum(a[i]);
    assert forall i :: 0 <= i < 10 && i != 6 ==> IsAsciiAlnum(b[i]);
  }
}
