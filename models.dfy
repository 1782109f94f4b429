/** The four document schemas (customer, order, campaign, communication log):
    their fields, enumerations and defaults, and what saving a new document
    demands of it. Amounts, prices and totals are whole numbers (for instance
    cents) and dates are integer timestamps. */
module Models {
  import opened Collections
  import opened Text

  // ---------------------------------------------------------------- customers

  datatype Customer = Customer(
    name: string,
    email: string,
    phone: Option<string>,
    totalSpend: int,
    visits: int,
    lastActivity: int,
    createdAt: int,
    updatedAt: int)

  /** Email is stored trimmed and lower-cased. */
  function NormalizeEmail(email: string): (r: string)
  {
    Lower(Trim(email))
  }

  lemma LowerKeepsSpace(s: string)
    ensures forall i :: 0 <= i < |s| ==> (IsSpace(Lower(s)[i]) <==> IsSpace(s[i]))
  {
    LowerAt(s);
  }

  lemma {:induction false} LowerIdempotent(s: string)
    ensures Lower(Lower(s)) == Lower(s)
  {
    LowerAt(s);
    LowerAt(Lower(s));
    assert forall i :: 0 <= i < |s| ==> Lower(Lower(s))[i] == Lower(s)[i];
  }

  /** A stored email is a fixed point of the normalisation, so normalising a
      query value and comparing it with stored emails is a consistent test. */
  lemma {:induction false} NormalizeEmailIdempotent(email: string)
    ensures NormalizeEmail(NormalizeEmail(email)) == NormalizeEmail(email)
  {
    var t := Trim(email);
    var l := Lower(t);
    LowerKeepsSpace(t);
    TrimSpec(email);
    assert TrimStart(l) == l;
    assert TrimEnd(l) == l;
    assert Trim(l) == l;
    LowerIdempotent(t);
  }

  /** `new Customer({...}).save()`: the trim and lowercase setters are applied,
      the counters take their defaults of zero and the three dates their
      default of now; saving fails (None) when a required field is empty once
      trimmed. */
  function SaveCustomer(name: string, email: string, phone: Option<string>, now: int): Option<Customer>
  {
    var n := Trim(name);
    var e := NormalizeEmail(email);
    if n == [] || e == [] then None
    else Some(Customer(n, e, TrimOption(phone), 0, 0, now, now, now))
  }

  /** Saving succeeds exactly when name and email are non-empty once trimmed;
      a saved customer has the normalised fields, zero spend and visits, and
      every date set to now. */
  lemma SaveCustomerDefaults(name: string, email: string, phone: Option<string>, now: int)
    ensures SaveCustomer(name, email, phone, now).Some? <==> Trim(name) != [] && NormalizeEmail(email) != []
    ensures SaveCustomer(name, email, phone, now).Some? ==>
      var c := SaveCustomer(name, email, phone, now).value;
      && c.totalSpend == 0 && c.visits == 0
      && c.lastActivity == now && c.createdAt == now && c.updatedAt == now
      && c.name == Trim(name) && c.name != [] && c.email == NormalizeEmail(email)
      && c.phone.Some? == phone.Some? && (phone.Some? ==> c.phone.value == Trim(phone.value))
  {
  }

  function TrimOption(s: Option<string>): (r: Option<string>)
    ensures r.Some? == s.Some?
  {
    if s.Some? then Some(Trim(s.value)) else None
  }

  /** The closed set of customer fields a campaign rule may name. */
  datatype CustomerField = Name | Email | Phone | TotalSpend | Visits | LastActivity | CreatedAt | UpdatedAt

  function ParseField(s: string): (f: Option<CustomerField>)
  {
    match s
    case "name" => Some(Name)
    case "email" => Some(Email)
    case "phone" => Some(Phone)
    case "totalSpend" => Some(TotalSpend)
    case "visits" => Some(Visits)
    case "lastActivity" => Some(LastActivity)
    case "createdAt" => Some(CreatedAt)
    case "updatedAt" => Some(UpdatedAt)
    case _ => None
  }

  /** A rule's comparison value: a number (amounts and dates included) or a string. */
  datatype Value = IntVal(i: int) | StrVal(s: string)

  /** `customer[field]`: None when the field is unknown or the optional phone is unset. */
  function FieldValue(c: Customer, field: string): (v: Option<Value>)
    ensures ParseField(field).None? ==> v.None?
    ensures field == "totalSpend" ==> v == Some(IntVal(c.totalSpend))
    ensures field == "visits" ==> v == Some(IntVal(c.visits))
    ensures field == "name" ==> v == Some(StrVal(c.name))
  {
    match ParseField(field)
    case None => None
    case Some(f) =>
      match f
      case Name => Some(StrVal(c.name))
      case Email => Some(StrVal(c.email))
      case Phone => if c.phone.Some? then Some(StrVal(c.phone.value)) else None
      case TotalSpend => Some(IntVal(c.totalSpend))
      case Visits => Some(IntVal(c.visits))
      case LastActivity => Some(IntVal(c.lastActivity))
      case CreatedAt => Some(IntVal(c.createdAt))
      case UpdatedAt => Some(IntVal(c.updatedAt))
  }

  // ---------------------------------------------------------------- orders

  datatype ProductLine = ProductLine(name: string, quantity: int, price: int)

  /** `status` is a plain string: the schema's enumeration is only enforced
      when a new order is saved, not by `findByIdAndUpdate`. `createdAt` and
      `updatedAt` are the schema's automatic timestamps. */
  datatype Order = Order(customer: Id, amount: int, products: seq<ProductLine>, status: string, orderDate: int,
                         createdAt: int, updatedAt: int)

  predicate IsOrderStatus(s: string)
  {
    s == "pending" || s == "completed" || s == "cancelled"
  }

  /** `new Order({...}).save()`: every product line needs a non-empty name,
      the status defaults to pending, and the order date and both timestamps
      are the time of the save. */
  function SaveOrder(customer: Id, amount: int, products: seq<ProductLine>, now: int): (r: Option<Order>)
    ensures r.Some? <==> forall i :: 0 <= i < |products| ==> products[i].name != []
    ensures r.Some? ==> r.value.customer == customer && r.value.amount == amount && r.value.products == products
    ensures r.Some? ==> r.value.status == "pending" && IsOrderStatus(r.value.status)
    ensures r.Some? ==> r.value.orderDate == now && r.value.createdAt == now && r.value.updatedAt == now
  {
    if forall i :: 0 <= i < |products| ==> products[i].name != [] then
      Some(Order(customer, amount, products, "pending", now, now, now))
    else None
  }

  // ---------------------------------------------------------------- campaigns

  datatype CampaignStatus = Draft | Active | Completed | Cancelled

  /** One rule condition as stored or as sent in a request. */
  datatype Condition = Condition(field: string, operator: string, value: Value)

  /** `condition` is the combinator, absent when a request leaves it out. */
  datatype Rules = Rules(conditions: seq<Condition>, condition: Option<string>)

  datatype DeliveryStats = DeliveryStats(sent: nat, failed: nat)

  datatype Campaign = Campaign(
    name: string,
    description: Option<string>,
    rules: Rules,
    message: string,
    audience: seq<Id>,
    audienceSize: nat,
    deliveryStats: DeliveryStats,
    status: CampaignStatus,
    createdBy: Id)

  predicate IsOperator(op: string)
  {
    op == ">" || op == "<" || op == ">=" || op == "<=" || op == "=" || op == "!=" || op == "contains"
  }

  predicate IsCombinator(s: string)
  {
    s == "AND" || s == "OR"
  }

  /** What the schema demands of a condition: a non-empty field and an operator
      from the enumeration (the value is always present here). */
  predicate ConditionSchemaValid(c: Condition)
  {
    c.field != [] && IsOperator(c.operator)
  }

  /** `new Campaign({...}).save()`: name (trimmed) and message are required,
      every condition must satisfy the schema and a given combinator must be
      AND or OR; a missing one becomes AND. A new campaign is a draft with an
      empty audience and zero counters. */
  function SaveCampaign(name: string, description: Option<string>, rules: Rules, message: string, createdBy: Id)
    : Option<Campaign>
  {
    if && Trim(name) != [] && message != []
       && (rules.condition.None? || IsCombinator(rules.condition.value))
       && forall i :: 0 <= i < |rules.conditions| ==> ConditionSchemaValid(rules.conditions[i])
    then
      var combinator := if rules.condition.Some? then rules.condition.value else "AND";
      Some(Campaign(Trim(name), TrimOption(description), Rules(rules.conditions, Some(combinator)), message,
                    [], 0, DeliveryStats(0, 0), Draft, createdBy))
    else None
  }

  /** Saving succeeds exactly when the required fields are present and every
      condition and the combinator are valid; a saved campaign is a draft with
      an empty audience, zero counters, the given conditions and message, and
      the combinator AND when none was given. */
  lemma SaveCampaignDefaults(name: string, description: Option<string>, rules: Rules, message: string, createdBy: Id)
    ensures SaveCampaign(name, description, rules, message, createdBy).Some? <==>
      && Trim(name) != [] && message != []
      && (rules.condition.None? || IsCombinator(rules.condition.value))
      && forall i :: 0 <= i < |rules.conditions| ==> ConditionSchemaValid(rules.conditions[i])
    ensures SaveCampaign(name, description, rules, message, createdBy).Some? ==>
      var c := SaveCampaign(name, description, rules, message, createdBy).value;
      && c.status == Draft && c.audience == [] && c.audienceSize == 0
      && c.deliveryStats == DeliveryStats(0, 0)
      && c.name == Trim(name) && c.message == message && c.createdBy == createdBy
      && c.rules.conditions == rules.conditions
      && c.rules.condition == (if rules.condition.None? then Some("AND") else rules.condition)
  {
  }

  // ---------------------------------------------------------------- communication logs

  datatype LogStatus = Sent | Failed | Pending

  datatype CommLog = CommLog(
    campaign: Id,
    customer: Id,
    message: string,
    status: LogStatus,
    failureReason: Option<string>,
    sentAt: int)

  /** The status enumeration: any other string makes saving the log fail. */
  function ParseLogStatus(s: string): (r: Option<LogStatus>)
    ensures r == Some(Sent) <==> s == "sent"
    ensures r == Some(Failed) <==> s == "failed"
    ensures r == Some(Pending) <==> s == "pending"
    ensures r.None? <==> s != "sent" && s != "failed" && s != "pending"
  {
    if s == "sent" then Some(Sent)
    else if s == "failed" then Some(Failed)
    else if s == "pending" then Some(Pending)
    else None
  }

  /** A new log: pending, no failure reason, `sentAt` defaulting to now. */
  function NewLog(campaign: Id, customer: Id, message: string, now: int): (l: CommLog)
    ensures l.status == Pending && l.failureReason.None?
    ensures l.campaign == campaign && l.customer == customer && l.message == message && l.sentAt == now
  {
    CommLog(campaign, customer, message, Pending, None, now)
  }
}
