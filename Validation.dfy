/**
  * The rule tables both forms hand to their schema library, and the one evaluator
  * that interprets them: for each field, the message of the first rule the field's
  * current value breaks, and no entry for a field that breaks none.
  */
module Validation {
  import opened Optional

  /**
    * A field's value as the schema receives it. `Empty` is an undefined value:
    * the form library turns a field holding "" into undefined before validating,
    * so `Text("")` and `Empty` are both absent.
    */
  datatype Value = Empty | Text(s: string) | Number(n: int)

  predicate Absent(v: Value) {
    v.Empty? || v == Text("")
  }

  /** One check the schema attaches to a field, with the message it reports. */
  datatype Rule =
    | Required(msg: string)
    | Email(msg: string)
    | Positive(msg: string)
    | Min(bound: int, msg: string)
    | Max(bound: int, msg: string)

  /**
    * Whether a rule accepts a value. Only `Required` rejects an absent value; every
    * other rule accepts it and judges present values only. A number rule rejects
    * text and the email rule rejects a number. The email syntax itself is the
    * parameter `isEmail`.
    */
  predicate Passes(rule: Rule, v: Value, isEmail: string -> bool) {
    match rule
    case Required(_) => !Absent(v)
    case Email(_) => Absent(v) || (v.Text? && isEmail(v.s))
    case Positive(_) => Absent(v) || (v.Number? && v.n > 0)
    case Min(bound, _) => Absent(v) || (v.Number? && v.n >= bound)
    case Max(bound, _) => Absent(v) || (v.Number? && v.n <= bound)
  }

  /** The message of the first rule, in table order, that rejects `v`; `None` when all accept it. */
  function FirstFailure(rules: seq<Rule>, v: Value, isEmail: string -> bool): (r: Option<string>)
    ensures r.None? <==> forall i | 0 <= i < |rules| :: Passes(rules[i], v, isEmail)
    ensures r.Some? ==>
      exists i | 0 <= i < |rules| ::
        !Passes(rules[i], v, isEmail) && r.value == rules[i].msg &&
        forall j | 0 <= j < i :: Passes(rules[j], v, isEmail)
  {
    if rules == [] then None
    else if !Passes(rules[0], v, isEmail) then Some(rules[0].msg)
    else
      var r := FirstFailure(rules[1..], v, isEmail);
      assert forall i | 1 <= i < |rules| :: rules[i] == rules[1..][i - 1];
      r
  }

  /** A field's rules, in the order the schema declares them. */
  datatype FieldRules = FieldRules(name: string, rules: seq<Rule>)

  /** A schema: one entry per field. */
  type Schema = seq<FieldRules>

  /** Field names are keys of an object, so a schema names each field once. */
  predicate DistinctNames(schema: Schema) {
    forall i, j | 0 <= i < j < |schema| :: schema[i].name != schema[j].name
  }

  predicate Declares(schema: Schema, name: string) {
    exists k | 0 <= k < |schema| :: schema[k].name == name
  }

  /** A field missing from the values is undefined. */
  function ValueOf(values: map<string, Value>, name: string): Value {
    if name in values then values[name] else Empty
  }

  function FieldError(field: FieldRules, values: map<string, Value>, isEmail: string -> bool): Option<string> {
    FirstFailure(field.rules, ValueOf(values, field.name), isEmail)
  }

  /**
    * The validation result: each declared field that breaks a rule maps to its
    * first failing message; nothing else has an entry.
    */
  function Validate(schema: Schema, values: map<string, Value>, isEmail: string -> bool): (errors: map<string, string>)
    requires DistinctNames(schema)
    ensures forall k | 0 <= k < |schema| :: Find(errors, schema[k].name) == FieldError(schema[k], values, isEmail)
    ensures forall name | name in errors :: Declares(schema, name)
  {
    if schema == [] then map[]
    else
      var rest := Validate(schema[1..], values, isEmail);
      assert forall k | 1 <= k < |schema| :: schema[k] == schema[1..][k - 1];
      match FieldError(schema[0], values, isEmail)
      case None => rest
      case Some(msg) => rest[schema[0].name := msg]
  }

  /** A field set is valid, i.e. its validation result is empty, exactly when every rule of every field accepts it. */
  lemma ValidIffAllRulesPass(schema: Schema, values: map<string, Value>, isEmail: string -> bool)
    requires DistinctNames(schema)
    ensures Validate(schema, values, isEmail) == map[] <==>
      forall k, i | 0 <= k < |schema| && 0 <= i < |schema[k].rules| ::
        Passes(schema[k].rules[i], ValueOf(values, schema[k].name), isEmail)
  {
    var errors := Validate(schema, values, isEmail);
    if errors != map[] {
      var name :| name in errors;
      var k :| 0 <= k < |schema| && schema[k].name == name;
      assert Find(errors, schema[k].name).Some?;
    } else {
      forall k | 0 <= k < |schema|
        ensures FieldError(schema[k], values, isEmail).None?
      {
        assert Find(errors, schema[k].name).None?;
      }
    }
  }

  /** A field's entry depends on that field's value alone, whatever the other fields hold. */
  lemma FieldErrorIsLocal(schema: Schema, v1: map<string, Value>, v2: map<string, Value>,
                          name: string, isEmail: string -> bool)
    requires DistinctNames(schema)
    requires ValueOf(v1, name) == ValueOf(v2, name)
    ensures Find(Validate(schema, v1, isEmail), name) == Find(Validate(schema, v2, isEmail), name)
  {
    if Declares(schema, name) {
      var k :| 0 <= k < |schema| && schema[k].name == name;
      assert FieldError(schema[k], v1, isEmail) == FieldError(schema[k], v2, isEmail);
    }
  }
}
