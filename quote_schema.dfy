/** The request body of `POST /quotes` (app/schemas/quotes.py): the field
    constraints of `QuoteItemIn` and `QuoteCreate`, as a validator from the raw
    JSON body to the typed payload the endpoint receives. A body the validator
    refuses is answered with 422 before the endpoint runs. */
module QuoteSchema {
  import opened Common
  import opened Money

  /** `Literal["base","transport_km","surcharge","misc"]`. */
  datatype ItemKind = Base | TransportKm | Surcharge | Misc

  function KindName(k: ItemKind): (name: string) {
    match k
    case Base => "base"
    case TransportKm => "transport_km"
    case Surcharge => "surcharge"
    case Misc => "misc"
  }

  /** The literal check: a string names a kind exactly when it is that kind's name. */
  function ParseKind(s: string): (r: Option<ItemKind>)
    ensures r.Some? ==> KindName(r.value) == s
    ensures r.None? ==> forall k: ItemKind :: KindName(k) != s
  {
    if s == "base" then Some(Base)
    else if s == "transport_km" then Some(TransportKm)
    else if s == "surcharge" then Some(Surcharge)
    else if s == "misc" then Some(Misc)
    else None
  }

  /** The `surcharges` JSON object; stored as given and never priced. */
  type Surcharges = map<string, string>

  /** A validated line item (`QuoteItemIn`), amounts in cents. */
  datatype QuoteItemIn = QuoteItemIn(
    kind: ItemKind,
    description: string,
    unit: Option<string>,
    qty: Option<Cents>,
    unitPrice: Option<Cents>,
    lineTotal: Cents)

  /** A validated quote payload (`QuoteCreate`). */
  datatype QuoteCreate = QuoteCreate(
    requestId: Id,
    currency: string,
    message: Option<string>,
    items: seq<QuoteItemIn>,
    transportFee: Option<Cents>,
    surcharges: Option<Surcharges>,
    expiresAt: Option<string>)

  /** A line item as it arrives in the JSON body. */
  datatype RawItem = RawItem(
    kind: Input<string>,
    description: Input<string>,
    unit: Input<string>,
    qty: Input<Decimal>,
    unitPrice: Input<Decimal>,
    lineTotal: Input<Decimal>)

  /** A quote body as it arrives. */
  datatype RawQuoteCreate = RawQuoteCreate(
    requestId: Input<Id>,
    currency: Input<string>,
    message: Input<string>,
    items: Input<seq<RawItem>>,
    transportFee: Input<Decimal>,
    surcharges: Input<Surcharges>,
    expiresAt: Input<string>)

  const DEFAULT_CURRENCY: string := "EUR"

  predicate OptionalInRange(a: Option<Cents>) {
    a.None? || InRange(a.value)
  }

  /** The constraints a validated item satisfies. */
  predicate ItemConforms(it: QuoteItemIn) {
    OptionalInRange(it.qty) && OptionalInRange(it.unitPrice) && InRange(it.lineTotal)
  }

  /** The constraints a validated payload satisfies. */
  predicate Conforms(q: QuoteCreate) {
    && |q.currency| == 3
    && |q.items| >= 1
    && (forall i :: 0 <= i < |q.items| ==> ItemConforms(q.items[i]))
    && OptionalInRange(q.transportFee)
  }

  /** An `Optional[condecimal(12, 2)] = None` field: absent and null give None,
      a value must pass the decimal check. The outer None is a refusal. */
  function OptionalAmount(i: Input<Decimal>): (r: Option<Option<Cents>>)
    ensures i.Missing? || i.Null? ==> r == Some(None)
    ensures i.Given? ==> (r.Some? <==> ToCents(i.value).Some?)
    ensures r.Some? && i.Given? ==> r.value == ToCents(i.value)
  {
    match i
    case Missing => Some(None)
    case Null => Some(None)
    case Given(d) => if ToCents(d).Some? then Some(ToCents(d)) else None
  }

  function ValidateItem(raw: RawItem): (r: Result<QuoteItemIn>)
    ensures r.Err? ==> r.error == Unprocessable
    ensures r.Ok? ==> ItemConforms(r.value)
    ensures r.Ok? <==>
              && (raw.kind.Missing? || (raw.kind.Given? && ParseKind(raw.kind.value).Some?))
              && raw.description.Given?
              && OptionalAmount(raw.qty).Some?
              && OptionalAmount(raw.unitPrice).Some?
              && raw.lineTotal.Given? && ToCents(raw.lineTotal.value).Some?
    ensures r.Ok? && raw.kind.Missing? ==> r.value.kind == Base
    ensures r.Ok? && raw.kind.Given? ==> KindName(r.value.kind) == raw.kind.value
    ensures r.Ok? ==> r.value.description == raw.description.value && r.value.unit == OrNone(raw.unit)
    ensures r.Ok? ==> && r.value.lineTotal == ToCents(raw.lineTotal.value).value
                      && Some(r.value.qty) == OptionalAmount(raw.qty)
                      && Some(r.value.unitPrice) == OptionalAmount(raw.unitPrice)
  {
    var kind := match raw.kind
      case Missing => Some(Base)
      case Null => None
      case Given(s) => ParseKind(s);
    var qty, unitPrice := OptionalAmount(raw.qty), OptionalAmount(raw.unitPrice);
    var lineTotal := if raw.lineTotal.Given? then ToCents(raw.lineTotal.value) else None;
    if kind.Some? && raw.description.Given? && qty.Some? && unitPrice.Some? && lineTotal.Some? then
      Ok(QuoteItemIn(kind.value, raw.description.value, OrNone(raw.unit), qty.value, unitPrice.value, lineTotal.value))
    else
      Err(Unprocessable)
  }

  /** Every item must pass; one bad item refuses the list. */
  function ValidateItems(raws: seq<RawItem>): (r: Result<seq<QuoteItemIn>>)
    ensures r.Err? ==> r.error == Unprocessable
    ensures r.Ok? <==> forall i :: 0 <= i < |raws| ==> ValidateItem(raws[i]).Ok?
    ensures r.Ok? ==> |r.value| == |raws| && forall i :: 0 <= i < |raws| ==> r.value[i] == ValidateItem(raws[i]).value
  {
    if raws == [] then Ok([])
    else
      match (ValidateItem(raws[0]), ValidateItems(raws[1..]))
      case (Ok(first), Ok(rest)) => Ok([first] + rest)
      case _ => Err(Unprocessable)
  }

  /** `QuoteCreate` validation. */
  function Validate(raw: RawQuoteCreate): (r: Result<QuoteCreate>)
    ensures r.Err? ==> r.error == Unprocessable
    ensures r.Ok? ==> Conforms(r.value)
    ensures !raw.requestId.Given? ==> r.Err?
    ensures raw.items.Given? && raw.items.value == [] ==> r.Err?
    ensures !raw.items.Given? ==> r.Err?
    ensures raw.currency.Null? ==> r.Err?
    ensures raw.currency.Given? && |raw.currency.value| != 3 ==> r.Err?
    ensures r.Ok? && raw.currency.Missing? ==> r.value.currency == DEFAULT_CURRENCY
    ensures r.Ok? && raw.currency.Given? ==> r.value.currency == raw.currency.value
    ensures r.Ok? <==>
              && raw.requestId.Given?
              && (raw.currency.Missing? || (raw.currency.Given? && |raw.currency.value| == 3))
              && raw.items.Given? && |raw.items.value| >= 1 && ValidateItems(raw.items.value).Ok?
              && OptionalAmount(raw.transportFee).Some?
    ensures r.Ok? ==> && r.value.requestId == raw.requestId.value
                      && r.value.items == ValidateItems(raw.items.value).value
                      && r.value.transportFee == OptionalAmount(raw.transportFee).value
                      && ((raw.transportFee.Missing? || raw.transportFee.Null?) ==> r.value.transportFee.None?)
                      && r.value.message == OrNone(raw.message)
                      && r.value.surcharges == OrNone(raw.surcharges)
                      && r.value.expiresAt == OrNone(raw.expiresAt)
  {
    var currency := match raw.currency
      case Missing => Some(DEFAULT_CURRENCY)
      case Null => None
      case Given(c) => if |c| == 3 then Some(c) else None;
    var items := if raw.items.Given? && |raw.items.value| >= 1 then ValidateItems(raw.items.value) else Err(Unprocessable);
    var fee := OptionalAmount(raw.transportFee);
    if raw.requestId.Given? && currency.Some? && items.Ok? && fee.Some? then
      Ok(QuoteCreate(raw.requestId.value, currency.value, OrNone(raw.message), items.value,
                     fee.value, OrNone(raw.surcharges), OrNone(raw.expiresAt)))
    else
      Err(Unprocessable)
  }

  function EncodeAmount(a: Option<Cents>): (i: Input<Decimal>) {
    if a.Some? then Given(FromCents(a.value)) else Missing
  }

  function OrMissing<T>(a: Option<T>): (i: Input<T>) {
    if a.Some? then Given(a.value) else Missing
  }

  /** The JSON a client sends for a typed item: every field written out. */
  function EncodeItem(it: QuoteItemIn): (raw: RawItem) {
    RawItem(Given(KindName(it.kind)), Given(it.description), OrMissing(it.unit),
            EncodeAmount(it.qty), EncodeAmount(it.unitPrice), Given(FromCents(it.lineTotal)))
  }

  function Encode(q: QuoteCreate): (raw: RawQuoteCreate) {
    RawQuoteCreate(Given(q.requestId), Given(q.currency), OrMissing(q.message),
                   Given(seq(|q.items|, i requires 0 <= i < |q.items| => EncodeItem(q.items[i]))),
                   EncodeAmount(q.transportFee), OrMissing(q.surcharges), OrMissing(q.expiresAt))
  }

  lemma {:induction false} ValidateEncodeItem(it: QuoteItemIn)
    requires ItemConforms(it)
    ensures ValidateItem(EncodeItem(it)) == Ok(it)
  {
    ToCentsFromCents(it.lineTotal);
    if it.qty.Some? { ToCentsFromCents(it.qty.value); }
    if it.unitPrice.Some? { ToCentsFromCents(it.unitPrice.value); }
    match it.kind
    case Base =>
    case TransportKm =>
    case Surcharge =>
    case Misc =>
  }

  /** Round trip: every payload that meets the constraints is accepted, as itself. */
  lemma {:induction false} ValidateEncode(q: QuoteCreate)
    requires Conforms(q)
    ensures Validate(Encode(q)) == Ok(q)
  {
    var raw := Encode(q);
    forall i | 0 <= i < |q.items| ensures ValidateItem(raw.items.value[i]) == Ok(q.items[i]) {
      ValidateEncodeItem(q.items[i]);
    }
    var items := ValidateItems(raw.items.value);
    assert items.Ok?;
    assert items.value == q.items;
    if q.transportFee.Some? { ToCentsFromCents(q.transportFee.value); }
  }
}
