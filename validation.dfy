/** The request validators of the campaign and order routes and the gate that
    turns their findings into a 400 reply. A request body is a parsed JSON
    value; a validator reads one field of it, converts it to a string the way
    express-validator does and tests that string (the standard validators),
    or looks at the raw value (`isArray`, `isObject` and the custom check on
    campaign conditions). Every failing validator records one error, and the
    errors come in the order the validators are declared. */
module Validation {
  import opened Collections

  /** A JSON value; `Missing` is a field the body does not have (`undefined`).
      Numbers are whole. */
  datatype Json = Missing | Null | Bool(b: bool) | Num(n: int) | Str(s: string) | Arr(items: seq<Json>)
                | Obj(fields: map<string, Json>)

  /** One entry of the error list: the field's path and the message. */
  datatype FieldError = FieldError(path: string, message: string)

  /** Property access: `Missing` unless `v` is an object with that key. */
  function Get(v: Json, key: string): (r: Json)
    ensures !v.Obj? ==> r == Missing
  {
    if v.Obj? && key in v.fields then v.fields[key] else Missing
  }

  /** JavaScript truthiness. */
  predicate Truthy(v: Json)
  {
    match v
    case Missing => false
    case Null => false
    case Bool(b) => b
    case Num(n) => n != 0
    case Str(s) => s != []
    case Arr(_) => true
    case Obj(_) => true
  }

  // ---------------------------------------------------------------- numbers as text

  predicate IsDigit(c: char)
  {
    '0' <= c <= '9'
  }

  predicate AllDigits(s: string)
  {
    forall i :: 0 <= i < |s| ==> IsDigit(s[i])
  }

  function DigitChar(d: nat): (c: char)
    requires d < 10
    ensures IsDigit(c) && c as int - '0' as int == d
  {
    ('0' as int + d) as char
  }

  /** The decimal digits of `n`, without leading zeroes. */
  function Digits(n: nat): (s: string)
    ensures s != [] && AllDigits(s)
  {
    if n < 10 then [DigitChar(n)] else Digits(n / 10) + [DigitChar(n % 10)]
  }

  /** `String(n)` for a whole number. */
  function Decimal(n: int): (s: string)
    ensures s != []
  {
    if n < 0 then "-" + Digits(-n) else Digits(n)
  }

  /** The number a string of digits denotes. */
  function DigitsValue(s: string): nat
    requires AllDigits(s)
  {
    if s == [] then 0 else DigitsValue(s[..|s| - 1]) * 10 + (s[|s| - 1] as int - '0' as int)
  }

  lemma {:induction false} DigitsRoundTrip(n: nat)
    ensures DigitsValue(Digits(n)) == n
  {
    if n >= 10 {
      DigitsRoundTrip(n / 10);
      var s := Digits(n);
      assert s[..|s| - 1] == Digits(n / 10);
    }
  }

  /** The part of `s` after an optional leading sign. */
  function Unsigned(s: string): (t: string)
    ensures |t| <= |s|
  {
    if s != [] && (s[0] == '+' || s[0] == '-') then s[1..] else s
  }

  /** validator.js `isInt` with leading zeroes allowed: an optional sign and
      one or more digits. */
  predicate IsIntString(s: string)
  {
    Unsigned(s) != [] && AllDigits(Unsigned(s))
  }

  /** `Number(s)` for a string that passes `IsIntString`. */
  function IntValue(s: string): int
    requires IsIntString(s)
  {
    if s[0] == '-' then 0 - DigitsValue(s[1..]) as int else DigitsValue(Unsigned(s))
  }

  /** validator.js `isNumeric`, `^[+-]?([0-9]*[.])?[0-9]+$`: after an optional
      sign, digits with at most one decimal point, ending in a digit. */
  predicate IsNumericString(s: string)
  {
    var t := Unsigned(s);
    && t != [] && IsDigit(t[|t| - 1])
    && (forall i :: 0 <= i < |t| ==> IsDigit(t[i]) || t[i] == '.')
    && (forall i, j :: 0 <= i < j < |t| && t[i] == '.' ==> t[j] != '.')
  }

  /** A whole number's text is an integer string that reads back as the
      number, and is numeric. */
  lemma DecimalRoundTrip(n: int)
    ensures IsIntString(Decimal(n)) && IntValue(Decimal(n)) == n
  {
    var s := Decimal(n);
    if n < 0 {
      var d := Digits(-n);
      DigitsRoundTrip(-n);
      assert s == "-" + d;
      assert s[1..] == d;
      assert Unsigned(s) == d;
    } else {
      var d := Digits(n);
      DigitsRoundTrip(n);
      assert s == d;
      assert IsDigit(d[0]);
      assert Unsigned(s) == d;
    }
  }

  /** Every integer string is numeric. */
  lemma IntStringIsNumeric(s: string)
    requires IsIntString(s)
    ensures IsNumericString(s)
  {
  }

  // ---------------------------------------------------------------- express-validator

  /** `Array.prototype.join(',')` of already converted elements. */
  function JoinComma(parts: seq<string>): string
  {
    if parts == [] then []
    else if |parts| == 1 then parts[0]
    else parts[0] + "," + JoinComma(parts[1..])
  }

  /** express-validator's `toString`: `undefined` and `null` become the empty
      string, an object `[object Object]`, an array its comma-joined elements
      and everything else `String(value)`. */
  function ToStr(v: Json): string
  {
    match v
    case Missing => ""
    case Null => ""
    case Bool(b) => if b then "true" else "false"
    case Num(n) => Decimal(n)
    case Str(s) => s
    case Arr(items) => JoinComma(seq(|items|, i requires 0 <= i < |items| => ToStr(items[i])))
    case Obj(_) => "[object Object]"
  }

  /** A standard validator holds for the value, or for every element when
      the value is an array. */
  predicate Passes(v: Json, ok: string -> bool)
  {
    if v.Arr? then forall i :: 0 <= i < |v.items| ==> ok(ToStr(v.items[i])) else ok(ToStr(v))
  }

  function StandardEach(path: string, items: seq<Json>, ok: string -> bool, message: string): (errs: seq<FieldError>)
    ensures errs == [] <==> forall i :: 0 <= i < |items| ==> ok(ToStr(items[i]))
    ensures forall i :: 0 <= i < |errs| ==> errs[i] == FieldError(path, message)
  {
    if items == [] then []
    else (if ok(ToStr(items[0])) then [] else [FieldError(path, message)]) + StandardEach(path, items[1..], ok, message)
  }

  /** A standard validator: one error per failing element of an array value,
      otherwise one error when the value fails. */
  function Standard(path: string, v: Json, ok: string -> bool, message: string): (errs: seq<FieldError>)
    ensures errs == [] <==> Passes(v, ok)
    ensures forall i :: 0 <= i < |errs| ==> errs[i] == FieldError(path, message)
  {
    if v.Arr? then StandardEach(path, v.items, ok, message)
    else if ok(ToStr(v)) then [] else [FieldError(path, message)]
  }

  /** `isArray()` and `isObject()` look at the raw value. */
  function RawCheck(path: string, holds: bool, message: string): (errs: seq<FieldError>)
    ensures errs == [] <==> holds
  {
    if holds then [] else [FieldError(path, message)]
  }

  predicate NotEmptyText(s: string) { s != [] }

  /** `isLength({ min: 10, max: 5000 })`, counting characters. */
  predicate MessageLength(s: string) { 10 <= |s| <= 5000 }

  predicate AndOr(s: string) { s == "AND" || s == "OR" }

  /** `isInt({ min: 1 })` */
  predicate PositiveIntText(s: string) { IsIntString(s) && IntValue(s) >= 1 }

  // ---------------------------------------------------------------- campaign conditions

  const FieldAndOperatorRequired: string := "All conditions must have field and operator properties"
  const ValueRequired: string := "All conditions must have a value property"
  /** What the runtime throws when the check reads a property of `undefined`
      or `null`, or iterates over a value that is not iterable. */
  const LengthOfUndefined: string := "Cannot read properties of undefined (reading 'length')"
  const LengthOfNull: string := "Cannot read properties of null (reading 'length')"
  const NotIterable: string := "conditions is not iterable"
  const FieldOfNull: string := "Cannot read properties of null (reading 'field')"

  /** The custom check's verdict on one element: None when it passes, or the
      message it throws. */
  function ConditionError(c: Json): Option<string>
  {
    if c.Missing? || c.Null? then Some(FieldOfNull)
    else if !Truthy(Get(c, "field")) || !Truthy(Get(c, "operator")) then Some(FieldAndOperatorRequired)
    else if Get(c, "value").Missing? || Get(c, "value").Null? then Some(ValueRequired)
    else None
  }

  /** The loop over the conditions: the first failing element's message. */
  function FirstConditionError(items: seq<Json>): Option<string>
  {
    if items == [] then None
    else if ConditionError(items[0]).Some? then ConditionError(items[0])
    else FirstConditionError(items[1..])
  }

  /** The check passes exactly when every element passes, and otherwise
      reports the message of the first element that fails. */
  lemma {:induction false} FirstConditionErrorIsFirst(items: seq<Json>)
    ensures FirstConditionError(items).None? <==> forall i :: 0 <= i < |items| ==> ConditionError(items[i]).None?
    ensures FirstConditionError(items).Some? ==>
      exists i :: 0 <= i < |items| && ConditionError(items[i]) == FirstConditionError(items)
                  && forall j :: 0 <= j < i ==> ConditionError(items[j]).None?
  {
    if items != [] && ConditionError(items[0]).None? {
      FirstConditionErrorIsFirst(items[1..]);
      if FirstConditionError(items).Some? {
        var i :| 0 <= i < |items[1..]| && ConditionError(items[1..][i]) == FirstConditionError(items[1..])
                 && forall j :: 0 <= j < i ==> ConditionError(items[1..][j]).None?;
        assert ConditionError(items[i + 1]) == FirstConditionError(items);
        forall j | 0 <= j < i + 1 ensures ConditionError(items[j]).None? {
          if j > 0 {
            assert items[j] == items[1..][j - 1];
          }
        }
      }
    } else if items != [] {
      assert ConditionError(items[0]) == FirstConditionError(items);
    }
  }

  /** The custom validator on `rules.conditions`: an empty array (or anything
      whose `length` is 0) passes at once; otherwise every element is checked
      in order, and reading `length` of `undefined`/`null` or iterating a
      non-iterable throws. A non-empty string is iterated character by
      character, and a character has no `field`. */
  function ConditionsCheck(v: Json): Option<string>
  {
    match v
    case Missing => Some(LengthOfUndefined)
    case Null => Some(LengthOfNull)
    case Str(s) => if s == [] then None else Some(FieldAndOperatorRequired)
    case Arr(items) => if items == [] then None else FirstConditionError(items)
    case Obj(_) => if Get(v, "length") == Num(0) then None else Some(NotIterable)
    case Bool(_) => Some(NotIterable)
    case Num(_) => Some(NotIterable)
  }

  // ---------------------------------------------------------------- the validator chains

  /** `validateCampaign`, up to the gate. */
  function ValidateCampaign(body: Json): seq<FieldError>
  {
    var message := Get(body, "message");
    var rules := Get(body, "rules");
    var conditions := Get(rules, "conditions");
    Standard("name", Get(body, "name"), NotEmptyText, "Campaign name is required")
    + Standard("message", message, NotEmptyText, "Campaign message is required")
    + Standard("message", message, MessageLength, "Message must be between 10 and 5000 characters")
    + RawCheck("rules", rules.Obj?, "Rules must be an object")
    + Standard("rules.condition", Get(rules, "condition"), AndOr, "Condition must be AND or OR")
    + RawCheck("rules.conditions", conditions.Arr?, "Rules conditions must be an array")
    + (match ConditionsCheck(conditions)
       case None => []
       case Some(m) => [FieldError("rules.conditions", m)])
  }

  /** The errors a standard validator records on the same field of every
      element of `products`, one chain after the other. */
  function EachProduct(items: seq<Json>, key: string, ok: string -> bool, message: string, from: nat)
    : (errs: seq<FieldError>)
    ensures errs == [] <==> forall i :: 0 <= i < |items| ==> Passes(Get(items[i], key), ok)
    decreases |items|
  {
    if items == [] then []
    else Standard("products[" + Decimal(from) + "]." + key, Get(items[0], key), ok, message)
         + EachProduct(items[1..], key, ok, message, from + 1)
  }

  /** The wildcard instances of `products.*.<key>`: the elements of an array
      value; anything else has none. */
  function ProductChain(products: Json, key: string, ok: string -> bool, message: string): seq<FieldError>
  {
    if products.Arr? then EachProduct(products.items, key, ok, message, 0) else []
  }

  /** `validateOrder`, up to the gate. */
  function ValidateOrder(body: Json): seq<FieldError>
  {
    var products := Get(body, "products");
    Standard("customer", Get(body, "customer"), NotEmptyText, "Customer ID is required")
    + Standard("amount", Get(body, "amount"), IsNumericString, "Amount must be a number")
    + RawCheck("products", products.Arr?, "Products must be an array")
    + ProductChain(products, "name", NotEmptyText, "Product name is required")
    + ProductChain(products, "quantity", PositiveIntText, "Quantity must be at least 1")
    + ProductChain(products, "price", IsNumericString, "Price must be a number")
  }

  /** What `handleValidationErrors` does: answer 400 with the errors, or pass
      the request on to the handler. */
  datatype Gate = Rejected(status: int, errors: seq<FieldError>) | Next

  function HandleValidationErrors(errors: seq<FieldError>): (g: Gate)
    ensures g.Next? <==> errors == []
    ensures g.Rejected? ==> g.status == 400 && g.errors == errors
  {
    if errors == [] then Next else Rejected(400, errors)
  }

  // ---------------------------------------------------------------- what the chains accept

  /** A campaign request reaches the handler exactly when the name is
      non-empty, the message is 10 to 5000 characters, `rules` is an object
      whose combinator is AND or OR, and its conditions are an array in which
      every element has a truthy field and operator and a value that is
      neither `undefined` nor `null`. */
  lemma CampaignAccepted(body: Json)
    ensures HandleValidationErrors(ValidateCampaign(body)).Next? <==>
      var rules := Get(body, "rules");
      var conditions := Get(rules, "conditions");
      && Passes(Get(body, "name"), NotEmptyText)
      && Passes(Get(body, "message"), NotEmptyText) && Passes(Get(body, "message"), MessageLength)
      && rules.Obj? && Passes(Get(rules, "condition"), AndOr)
      && conditions.Arr? && forall i :: 0 <= i < |conditions.items| ==> ConditionError(conditions.items[i]).None?
  {
    var conditions := Get(Get(body, "rules"), "conditions");
    if conditions.Arr? {
      FirstConditionErrorIsFirst(conditions.items);
    }
  }

  /** For a string message, 10 to 5000 characters is the whole requirement. */
  lemma MessageTextAccepted(s: string)
    ensures Passes(Str(s), NotEmptyText) && Passes(Str(s), MessageLength) <==> 10 <= |s| <= 5000
  {
  }

  /** Given a truthy field and operator, a condition passes exactly when its
      value is present and not `null`: falsy values such as 0, false and ""
      are accepted. A falsy field or operator is refused before the value is
      looked at. */
  lemma ConditionValues(fields: map<string, Json>, v: Json)
    ensures Truthy(Get(Obj(fields), "field")) && Truthy(Get(Obj(fields), "operator")) ==>
      (ConditionError(Obj(fields["value" := v])).None? <==> !v.Missing? && !v.Null?)
    ensures !v.Missing? && !v.Null? && Truthy(Get(Obj(fields), "field")) && Truthy(Get(Obj(fields), "operator")) ==>
      ConditionError(Obj(fields["value" := v])).None?
    ensures !Truthy(Get(Obj(fields), "field")) || !Truthy(Get(Obj(fields), "operator")) ==>
      ConditionError(Obj(fields["value" := v])) == Some(FieldAndOperatorRequired)
  {
    assert Get(Obj(fields["value" := v]), "field") == Get(Obj(fields), "field");
    assert Get(Obj(fields["value" := v]), "operator") == Get(Obj(fields), "operator");
  }

  /** On an array the custom check passes exactly when every element passes
      (at once when the array is empty), and otherwise reports the first
      failing element's message. */
  lemma ConditionsArrayChecked(items: seq<Json>)
    ensures items == [] ==> ConditionsCheck(Arr(items)).None?
    ensures ConditionsCheck(Arr(items)).None? <==> forall i :: 0 <= i < |items| ==> ConditionError(items[i]).None?
    ensures ConditionsCheck(Arr(items)).Some? ==>
      exists i :: 0 <= i < |items| && ConditionError(items[i]) == ConditionsCheck(Arr(items))
                  && forall j :: 0 <= j < i ==> ConditionError(items[j]).None?
  {
    FirstConditionErrorIsFirst(items);
  }

  /** An order request reaches the handler exactly when the customer is
      non-empty, the amount numeric, the products an array, and every product
      has a non-empty name, a quantity that is an integer of at least 1 and a
      numeric price. */
  lemma OrderAccepted(body: Json)
    ensures HandleValidationErrors(ValidateOrder(body)).Next? <==>
      var products := Get(body, "products");
      && Passes(Get(body, "customer"), NotEmptyText)
      && Passes(Get(body, "amount"), IsNumericString)
      && products.Arr?
      && forall i :: 0 <= i < |products.items| ==>
           && Passes(Get(products.items[i], "name"), NotEmptyText)
           && Passes(Get(products.items[i], "quantity"), PositiveIntText)
           && Passes(Get(products.items[i], "price"), IsNumericString)
  {
  }

  /** A JSON number passes `isInt({ min: 1 })` exactly when it is at least 1,
      and always passes `isNumeric`. */
  lemma NumberChecks(n: int)
    ensures Passes(Num(n), PositiveIntText) <==> n >= 1
    ensures Passes(Num(n), IsNumericString)
  {
    DecimalRoundTrip(n);
    IntStringIsNumeric(Decimal(n));
  }
}
