/**
 * The part of the Joi validation library that the request-body schemas use:
 * schemas as values, built with the same chain of calls as in the source
 * (`StringSchema().Required().Min(1)` for `Joi.string().required().min(1)`),
 * and `Validate`, which checks a value against a schema the way Joi 17 does
 * with its default preferences (stop at the first error, convert unless
 * strict, reject keys an object schema does not list).
 */
module Joi {
  import opened Wrappers
  import opened Json
  import opened Bodies
  import Patterns

  /** Joi's error codes that these schemas can raise. */
  datatype Code =
    | AnyRequired | AnyOnly | AnyCustom
    | StringBase | StringEmpty | StringMin | StringMax | StringEmail
    | StringPatternBase | StringPatternName
    | NumberBase | NumberUnsafe | NumberGreater
    | ObjectBase | ObjectUnknown

  /**
   * The first error found: the path of the offending key, its code, and the
   * message template the schema sets for that code (None: Joi's default message).
   * For an unknown key the path is that of the enclosing object.
   */
  datatype Error = Error(path: seq<string>, code: Code, message: Option<string>)

  datatype Presence = Optional | Required

  /** The regular expressions used with `pattern(...)`. */
  datatype Regex = TenDigits | IsoDateTime

  /** The rules applied, in order, after the base type check. */
  datatype Rule =
    | MinLength(min: nat)
    | MaxLength(max: nat)
    | Matches(regex: Regex, name: Option<string>)
    | EmailAddress
    | GreaterThan(bound: int)
    | ValidTimestamp

  datatype Kind = AnyType | StringType | NumberType | ObjectType(keys: seq<Key>)

  datatype Key = Key(name: string, schema: Schema)

  /**
   * A schema: its type, presence, the values `allow`/`valid` list (with `only`
   * set by `valid`), its rules, whether an object accepts unlisted keys,
   * whether it is `strict`, and the messages it overrides.
   */
  datatype Schema = Schema(
    kind: Kind,
    presence: Presence,
    allowed: seq<Value>,
    only: bool,
    rules: seq<Rule>,
    unknownAllowed: bool,
    strict: bool,
    messages: map<Code, string>)
  {
    function Required(): Schema { this.(presence := Presence.Required) }
    function Optional(): Schema { this.(presence := Presence.Optional) }
    function Min(n: nat): Schema { this.(rules := rules + [MinLength(n)]) }
    function Max(n: nat): Schema { this.(rules := rules + [MaxLength(n)]) }
    function Pattern(regex: Regex, name: Option<string>): Schema { this.(rules := rules + [Matches(regex, name)]) }
    function Email(): Schema { this.(rules := rules + [EmailAddress]) }
    function Greater(bound: int): Schema { this.(rules := rules + [GreaterThan(bound)]) }
    function Valid(values: seq<string>): Schema { this.(allowed := allowed + Strings(values), only := true) }
    function Allow(value: string): Schema { this.(allowed := allowed + [JStr(value)]) }
    function Unknown(allow: bool): Schema { this.(unknownAllowed := allow) }
    function Strict(): Schema { this.(strict := true) }
    function Messages(m: map<Code, string>): Schema { this.(messages := messages + m) }
  }

  function Strings(values: seq<string>): (r: seq<Value>)
    ensures |r| == |values| && forall i :: 0 <= i < |r| ==> r[i] == JStr(values[i])
  {
    if values == [] then [] else [JStr(values[0])] + Strings(values[1..])
  }

  /** The allowed values `valid(...)` records. */
  lemma ValidValues(s: Schema, values: seq<string>, v: Value)
    requires s.allowed == []
    ensures v in s.Valid(values).allowed <==> v.JStr? && v.s in values
  {
    var a := s.Valid(values).allowed;
    assert a == Strings(values);
    if v in a {
      var i :| 0 <= i < |a| && a[i] == v;
    }
    if v.JStr? && v.s in values {
      var i :| 0 <= i < |values| && values[i] == v.s;
      assert a[i] == v;
    }
  }

  function Make(kind: Kind): Schema
  {
    Schema(kind, Presence.Optional, [], false, [], false, false, map[])
  }

  /** `Joi.string()` */
  function StringSchema(): Schema { Make(StringType) }
  /** `Joi.number()` */
  function NumberSchema(): Schema { Make(NumberType) }
  /** `Joi.object({...})` */
  function ObjectSchema(keys: seq<Key>): Schema { Make(ObjectType(keys)) }
  /** `Joi.custom(isValidTimestamp, ...)`: any value, checked by the custom function. */
  function TimestampSchema(): Schema { Make(AnyType).(rules := [ValidTimestamp]) }

  /**
   * What the model leaves to code it cannot see: Joi's `email()` check, Joi's
   * conversion of a string to a number (when not strict), and the
   * application's `isValidTimestamp`.
   */
  datatype Env = Env(
    isEmail: string -> bool,
    numberFromString: string -> Option<int>,
    isValidTimestamp: Value -> bool)

  predicate RegexMatches(regex: Regex, s: string)
  {
    match regex
    case TenDigits => Patterns.TenDigits(s)
    case IsoDateTime => Patterns.IsoDateTime(s)
  }

  /** The conversion step: only a number schema converts, and only a string. */
  function Coerce(env: Env, kind: Kind, v: Option<Value>, convert: bool): Option<Value>
  {
    if convert && kind.NumberType? && v.Some? && v.value.JStr? then
      match env.numberFromString(v.value.s)
      case Some(n) => Some(JNum(n))
      case None => v
    else v
  }

  /** The base type check of a present value. */
  function BaseError(kind: Kind, v: Value): Option<Code>
  {
    match kind
    case AnyType => None
    case StringType =>
      if !v.JStr? then Some(StringBase)
      else if v.s == "" then Some(StringEmpty)
      else None
    case NumberType =>
      if !v.JNum? then Some(NumberBase)
      else if !IsSafe(v.n) then Some(NumberUnsafe)
      else None
    case ObjectType(_) =>
      if !v.JObj? then Some(ObjectBase) else None
  }

  function RuleError(env: Env, rule: Rule, v: Value): Option<Code>
  {
    match rule
    case MinLength(min) => if v.JStr? && |v.s| < min then Some(StringMin) else None
    case MaxLength(max) => if v.JStr? && |v.s| > max then Some(StringMax) else None
    case Matches(regex, name) =>
      if v.JStr? && !RegexMatches(regex, v.s) then
        Some(if name.Some? then StringPatternName else StringPatternBase)
      else None
    case EmailAddress => if v.JStr? && !env.isEmail(v.s) then Some(StringEmail) else None
    case GreaterThan(bound) => if v.JNum? && v.n <= bound then Some(NumberGreater) else None
    case ValidTimestamp => if !env.isValidTimestamp(v) then Some(AnyCustom) else None
  }

  /** The first rule, in the order they were added, that the value breaks. */
  function RulesError(env: Env, rules: seq<Rule>, v: Value): (r: Option<Code>)
    ensures r.None? <==> forall i :: 0 <= i < |rules| ==> RuleError(env, rules[i], v).None?
  {
    if rules == [] then None
    else match RuleError(env, rules[0], v)
      case Some(code) => Some(code)
      case None => RulesError(env, rules[1..], v)
  }

  function Fail<T>(path: seq<string>, code: Code, messages: map<Code, string>): Result<T, Error>
  {
    Err(Error(path, code, if code in messages then Some(messages[code]) else None))
  }

  function KeyNames(keys: seq<Key>): set<string>
  {
    set i | 0 <= i < |keys| :: keys[i].name
  }

  /**
   * Joi's validation of one (possibly absent) value: conversion, presence,
   * allowed values, base type, the keys of an object and then its unlisted
   * keys, and finally the rules. `convert` and `inherited` are the
   * preferences in force; a schema's own `strict` and `messages` refine them
   * for it and everything below it. The result is the validated value.
   */
  function Validate(env: Env, s: Schema, input: Option<Value>, path: seq<string>,
                    convert: bool, inherited: map<Code, string>): (r: Result<Option<Value>, Error>)
    ensures r.Ok? ==> (r.value.Some? <==> input.Some?)
    ensures r.Err? ==> |path| <= |r.error.path| && r.error.path[..|path|] == path
    decreases s
  {
    var convert := convert && !s.strict;
    var messages := inherited + s.messages;
    var v := Coerce(env, s.kind, input, convert);
    if v.None? then
      if s.presence == Presence.Required then Fail(path, AnyRequired, messages) else Ok(None)
    else if v.value in s.allowed then Ok(v)
    else if s.only then Fail(path, AnyOnly, messages)
    else match BaseError(s.kind, v.value)
      case Some(code) => Fail(path, code, messages)
      case None =>
        if s.kind.ObjectType? then
          match ValidateKeys(env, s.kind.keys, v.value.fields, path, convert, messages)
          case Err(e) => Err(e)
          case Ok(fields) =>
            if !s.unknownAllowed && !(v.value.fields.Keys <= KeyNames(s.kind.keys)) then
              Fail(path, ObjectUnknown, messages)
            else Ok(Some(JObj(fields)))
        else match RulesError(env, s.rules, v.value)
          case Some(code) => Fail(path, code, messages)
          case None => Ok(v)
  }

  /** The listed keys of an object, in the order the schema lists them; the result is the object with each listed key's validated value. */
  function ValidateKeys(env: Env, keys: seq<Key>, fields: map<string, Value>, path: seq<string>,
                        convert: bool, messages: map<Code, string>): (r: Result<map<string, Value>, Error>)
    ensures r.Ok? ==> r.value.Keys == fields.Keys
    ensures r.Err? ==> |path| <= |r.error.path| && r.error.path[..|path|] == path
    decreases keys
  {
    if keys == [] then Ok(fields)
    else
      var k := keys[0];
      match Validate(env, k.schema, Lookup(fields, k.name), path + [k.name], convert, messages)
      case Err(e) =>
        assert e.path[..|path|] == e.path[..|path| + 1][..|path|];
        Err(e)
      case Ok(out) =>
        match ValidateKeys(env, keys[1..], fields, path, convert, messages)
        case Err(e) => Err(e)
        case Ok(rest) => Ok(if out.Some? then rest[k.name := out.value] else rest)
  }

  /**
   * `schema.validate(body)` with Joi's default preferences: the validated
   * value, or the first error. An object schema hands on an object, and a
   * `strict()` schema hands on exactly the body it accepted.
   */
  function Check(env: Env, s: Schema, body: Value): (r: Result<Value, Error>)
    ensures r.Ok? && s.kind.ObjectType? && s.allowed == [] ==> r.value.JObj?
    ensures r.Ok? && s.strict ==> r.value == body
  {
    assert s.strict ==> Validate(env, s, Some(body), [], true, map[]) == Validate(env, s, Some(body), [], false, map[]);
    NoConversionKeepsValue(env, s, Some(body), [], map[]);
    match Validate(env, s, Some(body), [], true, map[])
    case Ok(out) => Ok(out.value)
    case Err(e) => Err(e)
  }

  predicate Accepts(env: Env, s: Schema, body: Value)
  {
    Check(env, s, body).Ok?
  }

  // ----- General facts about Validate -------------------------------------

  /** One listed key of an object passes on its own. */
  predicate KeyPasses(env: Env, k: Key, fields: map<string, Value>, path: seq<string>,
                      convert: bool, messages: map<Code, string>)
  {
    Validate(env, k.schema, Lookup(fields, k.name), path + [k.name], convert, messages).Ok?
  }

  /** The listed keys pass exactly when each of them passes on its own. */
  lemma {:induction false} KeysPass(env: Env, keys: seq<Key>, fields: map<string, Value>, path: seq<string>,
                                    convert: bool, messages: map<Code, string>)
    ensures ValidateKeys(env, keys, fields, path, convert, messages).Ok? <==>
      forall i :: 0 <= i < |keys| ==> KeyPasses(env, keys[i], fields, path, convert, messages)
    decreases keys
  {
    if keys != [] {
      KeysPass(env, keys[1..], fields, path, convert, messages);
      assert forall i :: 1 <= i < |keys| ==> keys[i] == keys[1..][i - 1];
    }
  }

  /** The error reported for an object's keys is that of the first listed key that fails. */
  lemma {:induction false} KeysFirstError(env: Env, keys: seq<Key>, fields: map<string, Value>, path: seq<string>,
                                          convert: bool, messages: map<Code, string>, j: nat)
    requires j < |keys|
    requires forall i :: 0 <= i < j ==>
      Validate(env, keys[i].schema, Lookup(fields, keys[i].name), path + [keys[i].name], convert, messages).Ok?
    requires Validate(env, keys[j].schema, Lookup(fields, keys[j].name), path + [keys[j].name], convert, messages).Err?
    ensures ValidateKeys(env, keys, fields, path, convert, messages) ==
      Err(Validate(env, keys[j].schema, Lookup(fields, keys[j].name), path + [keys[j].name], convert, messages).error)
    decreases j
  {
    if j > 0 {
      assert forall i :: 1 <= i < |keys| ==> keys[i] == keys[1..][i - 1];
      KeysFirstError(env, keys[1..], fields, path, convert, messages, j - 1);
    }
  }

  /** Without conversion, a value that passes comes back unchanged. */
  lemma {:induction false} NoConversionKeepsValue(env: Env, s: Schema, input: Option<Value>, path: seq<string>,
                                                  inherited: map<Code, string>)
    ensures Validate(env, s, input, path, false, inherited).Ok? ==>
      Validate(env, s, input, path, false, inherited).value == input
    decreases s
  {
    if input.Some? && s.kind.ObjectType? && input.value.JObj? {
      NoConversionKeepsKeys(env, s.kind.keys, input.value.fields, path, inherited + s.messages);
    }
  }

  lemma {:induction false} NoConversionKeepsKeys(env: Env, keys: seq<Key>, fields: map<string, Value>, path: seq<string>,
                                                 messages: map<Code, string>)
    ensures ValidateKeys(env, keys, fields, path, false, messages).Ok? ==>
      ValidateKeys(env, keys, fields, path, false, messages).value == fields
    decreases keys
  {
    if keys != [] {
      var k := keys[0];
      NoConversionKeepsValue(env, k.schema, Lookup(fields, k.name), path + [k.name], messages);
      NoConversionKeepsKeys(env, keys[1..], fields, path, messages);
    }
  }

  /** An object schema without rules of its own passes an object exactly when every listed key passes and no other key is present. */
  lemma ObjectPasses(env: Env, s: Schema, body: Value, path: seq<string>, convert: bool, inherited: map<Code, string>)
    requires s.kind.ObjectType? && s.allowed == [] && !s.only && !s.unknownAllowed
    ensures Validate(env, s, Some(body), path, convert, inherited).Ok? <==>
      body.JObj? && body.fields.Keys <= KeyNames(s.kind.keys) &&
      forall i :: 0 <= i < |s.kind.keys| ==>
        KeyPasses(env, s.kind.keys[i], body.fields, path, convert && !s.strict, inherited + s.messages)
  {
    if body.JObj? {
      KeysPass(env, s.kind.keys, body.fields, path, convert && !s.strict, inherited + s.messages);
    }
  }

  /** A top-level object schema accepts a body exactly when it is an object, every listed key passes and no other key is present. */
  lemma AcceptsObject(env: Env, s: Schema, body: Value)
    requires s.kind.ObjectType? && s.allowed == [] && !s.only && !s.unknownAllowed
    ensures Accepts(env, s, body) <==>
      (body.JObj? && body.fields.Keys <= KeyNames(s.kind.keys) &&
       forall i :: 0 <= i < |s.kind.keys| ==> KeyPasses(env, s.kind.keys[i], body.fields, [], !s.strict, s.messages))
  {
    ObjectPasses(env, s, body, [], true, map[]);
    assert map[] + s.messages == s.messages;
  }

  /** When the body is an object, the error reported is that of the first listed key that fails. */
  lemma ObjectFirstError(env: Env, s: Schema, body: Value, j: nat)
    requires s.kind.ObjectType? && s.allowed == [] && !s.only
    requires body.JObj? && j < |s.kind.keys|
    requires forall i :: 0 <= i < j ==> KeyPasses(env, s.kind.keys[i], body.fields, [], !s.strict, s.messages)
    requires !KeyPasses(env, s.kind.keys[j], body.fields, [], !s.strict, s.messages)
    ensures Check(env, s, body) ==
      Err(Validate(env, s.kind.keys[j].schema, Lookup(body.fields, s.kind.keys[j].name), [] + [s.kind.keys[j].name],
                   !s.strict, s.messages).error)
  {
    assert map[] + s.messages == s.messages;
    KeysFirstError(env, s.kind.keys, body.fields, [], !s.strict, s.messages, j);
  }

  /** An accepted object comes back as the object its listed keys' validation builds. */
  lemma ObjectValue(env: Env, s: Schema, body: Value, path: seq<string>, convert: bool, inherited: map<Code, string>)
    requires s.kind.ObjectType? && s.allowed == [] && !s.only
    requires Validate(env, s, Some(body), path, convert, inherited).Ok?
    ensures body.JObj?
    ensures ValidateKeys(env, s.kind.keys, body.fields, path, convert && !s.strict, inherited + s.messages).Ok?
    ensures Validate(env, s, Some(body), path, convert, inherited).value ==
      Some(JObj(ValidateKeys(env, s.kind.keys, body.fields, path, convert && !s.strict, inherited + s.messages).value))
  {
  }

  /** With distinct key names, the validated object holds, under each listed key that was present, that key's validated value. */
  lemma {:induction false} KeysOutput(env: Env, keys: seq<Key>, fields: map<string, Value>, path: seq<string>,
                                      convert: bool, messages: map<Code, string>, i: nat)
    requires ValidateKeys(env, keys, fields, path, convert, messages).Ok?
    requires forall a, b :: 0 <= a < b < |keys| ==> keys[a].name != keys[b].name
    requires i < |keys| && keys[i].name in fields
    ensures var r := Validate(env, keys[i].schema, Lookup(fields, keys[i].name), path + [keys[i].name], convert, messages);
      r.Ok? && r.value.Some? &&
      ValidateKeys(env, keys, fields, path, convert, messages).value[keys[i].name] == r.value.value
    decreases i
  {
    if i > 0 {
      var tail := keys[1..];
      assert forall a, b :: 0 <= a < b < |tail| ==> tail[a].name != tail[b].name by {
        forall a, b | 0 <= a < b < |tail| ensures tail[a].name != tail[b].name {
          assert tail[a] == keys[a + 1] && tail[b] == keys[b + 1];
        }
      }
      assert tail[i - 1] == keys[i];
      KeysOutput(env, keys[1..], fields, path, convert, messages, i - 1);
      assert keys[0].name != keys[i].name;
    }
  }

  /** With distinct key names and no unlisted key, the validated object is the map of each present key's validated value. */
  lemma ObjectKeysValue(env: Env, keys: seq<Key>, fields: map<string, Value>, path: seq<string>,
                        convert: bool, messages: map<Code, string>, expected: map<string, Value>)
    requires ValidateKeys(env, keys, fields, path, convert, messages).Ok?
    requires forall a, b :: 0 <= a < b < |keys| ==> keys[a].name != keys[b].name
    requires fields.Keys <= KeyNames(keys) && expected.Keys == fields.Keys
    requires forall i :: 0 <= i < |keys| && keys[i].name in fields ==>
      Validate(env, keys[i].schema, Lookup(fields, keys[i].name), path + [keys[i].name], convert, messages) ==
      Ok(Some(expected[keys[i].name]))
    ensures ValidateKeys(env, keys, fields, path, convert, messages).value == expected
  {
    var out := ValidateKeys(env, keys, fields, path, convert, messages).value;
    forall k | k in fields ensures out[k] == expected[k] {
      var i :| 0 <= i < |keys| && keys[i].name == k;
      KeysOutput(env, keys, fields, path, convert, messages, i);
    }
  }

  /** For a two-key object, "every listed key passes" spelled out. */
  lemma TwoKeysPass(env: Env, keys: seq<Key>, fields: map<string, Value>, path: seq<string>,
                    convert: bool, messages: map<Code, string>)
    requires |keys| == 2
    ensures (forall i :: 0 <= i < |keys| ==> KeyPasses(env, keys[i], fields, path, convert, messages)) <==>
      KeyPasses(env, keys[0], fields, path, convert, messages) && KeyPasses(env, keys[1], fields, path, convert, messages)
  {
  }

  /** For a three-key object, "every listed key passes" spelled out. */
  lemma ThreeKeysPass(env: Env, keys: seq<Key>, fields: map<string, Value>, path: seq<string>,
                      convert: bool, messages: map<Code, string>)
    requires |keys| == 3
    ensures (forall i :: 0 <= i < |keys| ==> KeyPasses(env, keys[i], fields, path, convert, messages)) <==>
      KeyPasses(env, keys[0], fields, path, convert, messages) && KeyPasses(env, keys[1], fields, path, convert, messages) &&
      KeyPasses(env, keys[2], fields, path, convert, messages)
  {
  }

  /** For a four-key object, "every listed key passes" spelled out. */
  lemma FourKeysPass(env: Env, keys: seq<Key>, fields: map<string, Value>, path: seq<string>,
                     convert: bool, messages: map<Code, string>)
    requires |keys| == 4
    ensures (forall i :: 0 <= i < |keys| ==> KeyPasses(env, keys[i], fields, path, convert, messages)) <==>
      KeyPasses(env, keys[0], fields, path, convert, messages) && KeyPasses(env, keys[1], fields, path, convert, messages) &&
      KeyPasses(env, keys[2], fields, path, convert, messages) && KeyPasses(env, keys[3], fields, path, convert, messages)
  {
  }

  /** For two rules, "no rule is broken" spelled out. */
  lemma TwoRulesPass(env: Env, rules: seq<Rule>, v: Value)
    requires |rules| == 2
    ensures (forall i :: 0 <= i < |rules| ==> RuleError(env, rules[i], v).None?) <==>
      RuleError(env, rules[0], v).None? && RuleError(env, rules[1], v).None?
  {
  }

  /** A string or custom schema hands back the value it was given. */
  lemma LeafKeepsValue(env: Env, s: Schema, input: Option<Value>, path: seq<string>, convert: bool, inherited: map<Code, string>)
    requires s.kind == StringType || s.kind == AnyType
    ensures Validate(env, s, input, path, convert, inherited).Ok? ==>
      Validate(env, s, input, path, convert, inherited).value == input
  {
  }

  /** A number schema hands back the converted value. */
  lemma NumberValue(env: Env, s: Schema, input: Option<Value>, path: seq<string>, convert: bool, inherited: map<Code, string>)
    requires s.kind == NumberType
    ensures Validate(env, s, input, path, convert, inherited).Ok? ==>
      Validate(env, s, input, path, convert, inherited).value == Coerce(env, NumberType, input, convert && !s.strict)
  {
  }

  /** A string schema without `valid(...)`: absent and optional, an allowed value, or a non-empty string that keeps every rule. */
  lemma StringPasses(env: Env, s: Schema, input: Option<Value>, path: seq<string>, convert: bool, inherited: map<Code, string>)
    requires s.kind == StringType && !s.only
    ensures Validate(env, s, input, path, convert, inherited).Ok? <==>
      (input.None? && s.presence == Presence.Optional) ||
      (input.Some? && (input.value in s.allowed ||
        (IsText(input.value) && forall i :: 0 <= i < |s.rules| ==> RuleError(env, s.rules[i], input.value).None?)))
  {
  }

  /** A string schema with `valid(...)`: only the listed values pass, whatever their type. */
  lemma EnumPasses(env: Env, s: Schema, input: Option<Value>, path: seq<string>, convert: bool, inherited: map<Code, string>)
    requires s.kind == StringType && s.only
    ensures Validate(env, s, input, path, convert, inherited).Ok? <==>
      (input.None? && s.presence == Presence.Optional) || (input.Some? && input.value in s.allowed)
  {
  }

  /** A number schema: absent and optional, or a safe number (after conversion, when converting) that keeps every rule. */
  lemma NumberPasses(env: Env, s: Schema, input: Option<Value>, path: seq<string>, convert: bool, inherited: map<Code, string>)
    requires s.kind == NumberType && s.allowed == [] && !s.only
    ensures Validate(env, s, input, path, convert, inherited).Ok? <==>
      (input.None? && s.presence == Presence.Optional) ||
      (input.Some? &&
        var v := Coerce(env, NumberType, input, convert && !s.strict).value;
        IsSafeNumber(v) && forall i :: 0 <= i < |s.rules| ==> RuleError(env, s.rules[i], v).None?)
  {
  }

  /** A schema of any type: absent and optional, or a value that keeps every rule. */
  lemma AnyPasses(env: Env, s: Schema, input: Option<Value>, path: seq<string>, convert: bool, inherited: map<Code, string>)
    requires s.kind == AnyType && s.allowed == [] && !s.only
    ensures Validate(env, s, input, path, convert, inherited).Ok? <==>
      (input.None? && s.presence == Presence.Optional) ||
      (input.Some? && forall i :: 0 <= i < |s.rules| ==> RuleError(env, s.rules[i], input.value).None?)
  {
  }
}
