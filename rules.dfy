/** Campaign audience rules: how `buildQueryFromRules` turns a rule set into a
    store filter, which filters the store accepts, and which customers an
    accepted filter selects. The store's query execution is stated here as
    evaluation over customer records, with MongoDB's semantics for the seven
    operators: values of different types never compare (only `$ne` then
    holds), a field the customer does not have matches only `$ne`, and an
    empty `$and`/`$or` list is an invalid filter. An untranslated operator
    leaves the clause `{ field: { undefined: value } }`: on a schema path
    the value cannot be cast and the filter is invalid, while on any other
    path it is an equality with an embedded document that no customer
    matches. */
module RuleEngine {
  import opened Collections
  import opened Text
  import opened Models

  datatype MongoOp = Gt | Lt | Gte | Lte | Eq | Ne | Regex

  /** The operator map of `buildQueryFromRules`; None for any other operator. */
  function OperatorMap(op: string): (r: Option<MongoOp>)
    ensures r.Some? <==> IsOperator(op)
    ensures r == Some(Regex) <==> op == "contains"
  {
    match op
    case ">" => Some(Gt)
    case "<" => Some(Lt)
    case ">=" => Some(Gte)
    case "<=" => Some(Lte)
    case "=" => Some(Eq)
    case "!=" => Some(Ne)
    case "contains" => Some(Regex)
    case _ => None
  }

  /** `{ [field]: { [mongoOperator]: value } }`, with `$options: 'i'` for contains. */
  datatype Clause = Clause(field: string, op: Option<MongoOp>, value: Value, caseInsensitive: bool)

  /** `{ $and: [...] }` or `{ $or: [...] }`. */
  datatype Query = And(clauses: seq<Clause>) | Or(clauses: seq<Clause>)

  function BuildClause(c: Condition): Clause
  {
    Clause(c.field, OperatorMap(c.operator), c.value, c.operator == "contains")
  }

  /** `buildQueryFromRules`: AND only for the combinator "AND", OR otherwise
      (a missing combinator included). */
  function BuildQuery(rules: Rules): (q: Query)
    ensures |q.clauses| == |rules.conditions|
    ensures forall i :: 0 <= i < |q.clauses| ==> q.clauses[i] == BuildClause(rules.conditions[i])
  {
    var clauses := seq(|rules.conditions|, i requires 0 <= i < |rules.conditions| => BuildClause(rules.conditions[i]));
    if rules.condition == Some("AND") then And(clauses) else Or(clauses)
  }

  /** A clause whose operator the map left untranslated, on a path of the
      customer schema: casting `{ undefined: value }` to the path's type fails. */
  predicate CastFails(cl: Clause)
  {
    cl.op.None? && ParseField(cl.field).Some?
  }

  /** The store rejects an empty `$and`/`$or` list and a clause it cannot cast. */
  predicate QueryAccepted(q: Query)
  {
    |q.clauses| > 0 && forall i :: 0 <= i < |q.clauses| ==> !CastFails(q.clauses[i])
  }

  /** `a` is greater than `b`; values of different types are unordered. */
  predicate Greater(a: Value, b: Value)
  {
    match (a, b)
    case (IntVal(x), IntVal(y)) => x > y
    case (StrVal(x), StrVal(y)) => LexLess(y, x)
    case _ => false
  }

  /** One clause of a filter holds for a customer. An untranslated operator
      never holds: the customer has no embedded document at that path. */
  predicate ClauseHolds(cl: Clause, c: Customer)
  {
    var fv := FieldValue(c, cl.field);
    match cl.op
    case None => false
    case Some(Gt) => fv.Some? && Greater(fv.value, cl.value)
    case Some(Lt) => fv.Some? && Greater(cl.value, fv.value)
    case Some(Gte) => fv.Some? && (fv.value == cl.value || Greater(fv.value, cl.value))
    case Some(Lte) => fv.Some? && (fv.value == cl.value || Greater(cl.value, fv.value))
    case Some(Eq) => fv == Some(cl.value)
    case Some(Ne) => fv != Some(cl.value)
    case Some(Regex) =>
      && fv.Some? && fv.value.StrVal? && cl.value.StrVal?
      && if cl.caseInsensitive then IncludesIgnoreCase(fv.value.s, cl.value.s) else Includes(fv.value.s, cl.value.s)
  }

  predicate AllHold(cls: seq<Clause>, c: Customer)
  {
    cls == [] || (ClauseHolds(cls[0], c) && AllHold(cls[1..], c))
  }

  predicate AnyHold(cls: seq<Clause>, c: Customer)
  {
    cls != [] && (ClauseHolds(cls[0], c) || AnyHold(cls[1..], c))
  }

  predicate QueryHolds(q: Query, c: Customer)
    requires QueryAccepted(q)
  {
    if q.And? then AllHold(q.clauses, c) else AnyHold(q.clauses, c)
  }

  datatype Outcome<+T> = Ok(value: T) | InvalidFilter

  /** Whether the filter built from `rules` selects customer `c`. */
  function Matches(rules: Rules, c: Customer): (r: Outcome<bool>)
    ensures r.InvalidFilter? <==> rules.conditions == [] || exists i :: 0 <= i < |rules.conditions| && Uncastable(rules.conditions[i])
  {
    var q := BuildQuery(rules);
    if QueryAccepted(q) then Ok(QueryHolds(q, c)) else InvalidFilter
  }

  /** A condition with an operator outside the map on a field of the customer schema. */
  predicate Uncastable(cond: Condition)
  {
    !IsOperator(cond.operator) && ParseField(cond.field).Some?
  }

  /** One rule condition holds for `c`. */
  predicate ConditionHolds(cond: Condition, c: Customer)
  {
    ClauseHolds(BuildClause(cond), c)
  }

  lemma {:induction false} AllHoldIff(cls: seq<Clause>, c: Customer)
    ensures AllHold(cls, c) <==> forall i :: 0 <= i < |cls| ==> ClauseHolds(cls[i], c)
  {
    if cls != [] {
      AllHoldIff(cls[1..], c);
      assert forall i :: 1 <= i < |cls| ==> cls[1..][i - 1] == cls[i];
    }
  }

  lemma {:induction false} AnyHoldIff(cls: seq<Clause>, c: Customer)
    ensures AnyHold(cls, c) <==> exists i :: 0 <= i < |cls| && ClauseHolds(cls[i], c)
  {
    if cls != [] {
      AnyHoldIff(cls[1..], c);
      assert forall i :: 1 <= i < |cls| ==> cls[1..][i - 1] == cls[i];
      if ClauseHolds(cls[0], c) {
        assert 0 < |cls| && ClauseHolds(cls[0], c);
      }
    }
  }

  /** With the combinator "AND" a customer matches exactly when every
      condition holds; with any other combinator, or none, exactly when at
      least one does. */
  lemma MatchesCombinator(rules: Rules, c: Customer)
    ensures Matches(rules, c).Ok? && rules.condition == Some("AND") ==>
      (Matches(rules, c).value <==>
        forall i :: 0 <= i < |rules.conditions| ==> ConditionHolds(rules.conditions[i], c))
    ensures Matches(rules, c).Ok? && rules.condition != Some("AND") ==>
      (Matches(rules, c).value <==>
        exists i :: 0 <= i < |rules.conditions| && ConditionHolds(rules.conditions[i], c))
  {
    var q := BuildQuery(rules);
    if QueryAccepted(q) {
      AllHoldIff(q.clauses, c);
      AnyHoldIff(q.clauses, c);
    }
  }

  function Single(field: string, op: string, v: Value, combinator: Option<string>): Rules
  {
    Rules([Condition(field, op, v)], combinator)
  }

  /** The six comparison operators on a numeric field and a numeric value,
      whatever the combinator. */
  lemma NumericOrderOperators(field: string, v: int, c: Customer, x: int, combinator: Option<string>)
    requires FieldValue(c, field) == Some(IntVal(x))
    ensures Matches(Single(field, ">", IntVal(v), combinator), c) == Ok(x > v)
    ensures Matches(Single(field, "<", IntVal(v), combinator), c) == Ok(x < v)
    ensures Matches(Single(field, ">=", IntVal(v), combinator), c) == Ok(x >= v)
    ensures Matches(Single(field, "<=", IntVal(v), combinator), c) == Ok(x <= v)
  {
    SingleClause(field, ">", IntVal(v), combinator, c);
    SingleClause(field, "<", IntVal(v), combinator, c);
    SingleClause(field, ">=", IntVal(v), combinator, c);
    SingleClause(field, "<=", IntVal(v), combinator, c);
  }

  /** On a numeric field `=` and `!=` compare the numbers. */
  lemma NumericEqualityOperators(field: string, v: int, c: Customer, x: int, combinator: Option<string>)
    requires FieldValue(c, field) == Some(IntVal(x))
    ensures Matches(Single(field, "=", IntVal(v), combinator), c) == Ok(x == v)
    ensures Matches(Single(field, "!=", IntVal(v), combinator), c) == Ok(x != v)
  {
    SingleClause(field, "=", IntVal(v), combinator, c);
    SingleClause(field, "!=", IntVal(v), combinator, c);
  }

  /** On a string field the ordering operators compare character codes
      lexicographically. */
  lemma StringOrderOperators(field: string, v: string, c: Customer, x: string, combinator: Option<string>)
    requires FieldValue(c, field) == Some(StrVal(x))
    ensures Matches(Single(field, ">", StrVal(v), combinator), c) == Ok(LexLess(v, x))
    ensures Matches(Single(field, "<", StrVal(v), combinator), c) == Ok(LexLess(x, v))
    ensures Matches(Single(field, ">=", StrVal(v), combinator), c) == Ok(x == v || LexLess(v, x))
    ensures Matches(Single(field, "<=", StrVal(v), combinator), c) == Ok(x == v || LexLess(x, v))
  {
    SingleClause(field, ">", StrVal(v), combinator, c);
    SingleClause(field, "<", StrVal(v), combinator, c);
    SingleClause(field, ">=", StrVal(v), combinator, c);
    SingleClause(field, "<=", StrVal(v), combinator, c);
  }

  /** On a string field equality is exact (case-sensitive). */
  lemma StringEqualityOperators(field: string, v: string, c: Customer, x: string, combinator: Option<string>)
    requires FieldValue(c, field) == Some(StrVal(x))
    ensures Matches(Single(field, "=", StrVal(v), combinator), c) == Ok(x == v)
    ensures Matches(Single(field, "!=", StrVal(v), combinator), c) == Ok(x != v)
  {
    SingleClause(field, "=", StrVal(v), combinator, c);
    SingleClause(field, "!=", StrVal(v), combinator, c);
  }

  /** `contains` matches when the value occurs in the field, ignoring case. */
  lemma ContainsIgnoresCase(field: string, v: string, c: Customer, x: string, combinator: Option<string>)
    requires FieldValue(c, field) == Some(StrVal(x))
    ensures Matches(Single(field, "contains", StrVal(v), combinator), c) == Ok(Includes(Lower(x), Lower(v)))
  {
    SingleClause(field, "contains", StrVal(v), combinator, c);
  }

  /** A field the customer lacks (an unknown field, or an unset phone) is
      matched only by `!=`, and a value of the other type likewise. */
  lemma OnlyNotEqualAcrossTypes(cond: Condition, c: Customer, combinator: Option<string>)
    requires IsOperator(cond.operator)
    requires FieldValue(c, cond.field).None?
          || FieldValue(c, cond.field).value.IntVal? != cond.value.IntVal?
    ensures Matches(Rules([cond], combinator), c) == Ok(cond.operator == "!=")
  {
    SingleClause(cond.field, cond.operator, cond.value, combinator, c);
  }

  /** An operator outside the map on a field the customer schema does not
      know makes no error: that condition selects nobody, so it drops out of
      an OR and empties an AND. */
  lemma UntranslatedOnUnknownField(rules: Rules, c: Customer, i: nat)
    requires i < |rules.conditions|
    requires !IsOperator(rules.conditions[i].operator) && ParseField(rules.conditions[i].field).None?
    ensures !ConditionHolds(rules.conditions[i], c)
    ensures Matches(rules, c).Ok? && rules.condition == Some("AND") ==> Matches(rules, c) == Ok(false)
  {
    MatchesCombinator(rules, c);
  }

  lemma SingleClause(field: string, op: string, v: Value, combinator: Option<string>, c: Customer)
    requires IsOperator(op)
    ensures QueryAccepted(BuildQuery(Single(field, op, v, combinator)))
    ensures Matches(Single(field, op, v, combinator), c) == Ok(ClauseHolds(BuildClause(Condition(field, op, v)), c))
  {
    var q := BuildQuery(Single(field, op, v, combinator));
    assert q.clauses == [BuildClause(Condition(field, op, v))];
    assert q.clauses[1..] == [];
    assert AllHold(q.clauses[1..], c) && !AnyHold(q.clauses[1..], c);
  }

  // ---------------------------------------------------------------- audience

  /** `Customer.find(query)`: the customers among `ids` (in that order) that the filter selects. */
  function Select(q: Query, customers: map<Id, Customer>, ids: seq<Id>): (aud: seq<Id>)
    requires QueryAccepted(q)
    requires forall i :: 0 <= i < |ids| ==> ids[i] in customers
    ensures forall k :: k in aud <==> k in ids && QueryHolds(q, customers[k])
    ensures Ascending(ids) ==> Ascending(aud)
  {
    if ids == [] then []
    else
      var rest := Select(q, customers, ids[1..]);
      AscendingTail(ids);
      assert forall k :: k in ids <==> k == ids[0] || k in ids[1..];
      if QueryHolds(q, customers[ids[0]]) then
        AscendingCons(ids[0], rest);
        [ids[0]] + rest
      else
        rest
  }

  /** `Customer.countDocuments(query)`: how many customers among `ids` the filter selects. */
  function CountMatching(q: Query, customers: map<Id, Customer>, ids: seq<Id>): (n: nat)
    requires QueryAccepted(q)
    requires forall i :: 0 <= i < |ids| ==> ids[i] in customers
    ensures n <= |ids|
  {
    if ids == [] then 0
    else (if QueryHolds(q, customers[ids[0]]) then 1 else 0) + CountMatching(q, customers, ids[1..])
  }

  lemma {:induction false} CountIsSelectLength(q: Query, customers: map<Id, Customer>, ids: seq<Id>)
    requires QueryAccepted(q)
    requires forall i :: 0 <= i < |ids| ==> ids[i] in customers
    ensures CountMatching(q, customers, ids) == |Select(q, customers, ids)|
  {
    if ids != [] {
      CountIsSelectLength(q, customers, ids[1..]);
    }
  }

  /** The audience of a rule set over a customer table whose keys are all
      below `bound`: the matching customers in natural order. */
  function Audience(rules: Rules, customers: map<Id, Customer>, bound: nat): (r: Outcome<seq<Id>>)
    ensures r.InvalidFilter? <==> rules.conditions == [] || exists i :: 0 <= i < |rules.conditions| && Uncastable(rules.conditions[i])
    ensures r.Ok? ==> forall k :: k in r.value <==> k in customers && k < bound && Matches(rules, customers[k]) == Ok(true)
    ensures r.Ok? ==> Ascending(r.value)
  {
    var q := BuildQuery(rules);
    if QueryAccepted(q) then Ok(Select(q, customers, KeysBelow(customers, bound))) else InvalidFilter
  }

  /** `previewCampaignAudience`: the number of matching customers, or 500 for an invalid filter. */
  function Preview(rules: Rules, customers: map<Id, Customer>, bound: nat): (r: Reply<nat>)
    ensures r.status == 200 || r.status == 500
    ensures r.status == 200 <==> r.body.Some?
  {
    var q := BuildQuery(rules);
    if QueryAccepted(q) then Reply(200, Some(CountMatching(q, customers, KeysBelow(customers, bound))))
    else Reply(500, None)
  }

  /** The preview count equals the size of the audience that activation records,
      and the preview fails exactly when activation's audience query does. */
  lemma PreviewIsAudienceSize(rules: Rules, customers: map<Id, Customer>, bound: nat)
    ensures Preview(rules, customers, bound).status == 200 <==> Audience(rules, customers, bound).Ok?
    ensures Audience(rules, customers, bound).Ok? ==>
      Preview(rules, customers, bound).body == Some(|Audience(rules, customers, bound).value|)
  {
    var q := BuildQuery(rules);
    if QueryAccepted(q) {
      CountIsSelectLength(q, customers, KeysBelow(customers, bound));
    }
  }
}
