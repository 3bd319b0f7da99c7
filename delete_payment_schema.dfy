/** `deletePaymentSchema`: the body of a request that deletes one payment entry. */
module DeletePaymentSchema {
  import opened Wrappers
  import opened Json
  import opened Joi
  import opened Bodies

  const NotAString := "\"{{#label}}\" should be a type of 'string'"
  const EmptyField := "\"{{#label}}\" cannot be an empty field"
  const MissingField := "\"{{#label}}\" is a required field"

  /** The messages are set on the object and so hold for each of its keys. */
  const DeletePayment: Schema :=
    ObjectSchema([
      Key("gymId", StringSchema().Required()),
      Key("userId", StringSchema().Required()),
      Key("planId", StringSchema().Required()),
      Key("paymentId", StringSchema().Required())
    ]).Messages(map[StringBase := NotAString, StringEmpty := EmptyField, AnyRequired := MissingField])

  /** The four identifiers, in the order the schema checks them. */
  const Ids: seq<string> := ["gymId", "userId", "planId", "paymentId"]
  const IdSet: set<string> := {"gymId", "userId", "planId", "paymentId"}

  /** A valid body: four non-empty string identifiers and no other key. */
  predicate IsDeletePayment(body: Value)
  {
    body.JObj? &&
    body.fields.Keys <= IdSet &&
    forall i :: 0 <= i < |Ids| ==> HasText(body.fields, Ids[i])
  }

  lemma DeletePaymentKeyNames()
    ensures |DeletePayment.kind.keys| == |Ids|
    ensures forall i :: 0 <= i < |Ids| ==> DeletePayment.kind.keys[i].name == Ids[i]
    ensures KeyNames(DeletePayment.kind.keys) == IdSet
  {
    var keys := DeletePayment.kind.keys;
    assert keys[0].name == "gymId" && keys[1].name == "userId";
    assert keys[2].name == "planId" && keys[3].name == "paymentId";
  }

  /** How one identifier passes or fails, with the message the object sets for the failure. */
  lemma DeletePaymentKey(env: Env, f: map<string, Value>, i: nat)
    requires i < |Ids|
    ensures var k := DeletePayment.kind.keys[i];
      var r := Validate(env, k.schema, Lookup(f, k.name), [] + [k.name], true, DeletePayment.messages);
      (r.Ok? <==> HasText(f, Ids[i])) &&
      (r.Err? ==> r.error == Error([Ids[i]],
        if Ids[i] !in f then AnyRequired else if f[Ids[i]].JStr? then StringEmpty else StringBase,
        Some(if Ids[i] !in f then MissingField else if f[Ids[i]].JStr? then EmptyField else NotAString)))
  {
    DeletePaymentKeyNames();
    var k := DeletePayment.kind.keys[i];
    StringPasses(env, k.schema, Lookup(f, k.name), [] + [k.name], true, DeletePayment.messages);
  }

  /** The schema accepts exactly the bodies with four non-empty identifiers. */
  lemma DeletePaymentAccepts(env: Env, body: Value)
    ensures Accepts(env, DeletePayment, body) <==> IsDeletePayment(body)
  {
    DeletePaymentKeyNames();
    AcceptsObject(env, DeletePayment, body);
    if body.JObj? {
      forall i | 0 <= i < |Ids| ensures KeyPasses(env, DeletePayment.kind.keys[i], body.fields, [], true, DeletePayment.messages) <==> HasText(body.fields, Ids[i]) {
        DeletePaymentKey(env, body.fields, i);
      }
    }
  }

  /**
   * A body that has every identifier before `Ids[j]` but not a usable `Ids[j]`
   * is refused with the error for `Ids[j]`: `is a required field` when it is
   * missing, `should be a type of 'string'` when it is not a string, `cannot be
   * an empty field` when it is `""`.
   */
  lemma DeletePaymentFirstError(env: Env, body: Value, j: nat)
    requires body.JObj? && j < |Ids|
    requires forall i :: 0 <= i < j ==> HasText(body.fields, Ids[i])
    requires !HasText(body.fields, Ids[j])
    ensures var f := body.fields;
      Check(env, DeletePayment, body) == Err(Error([Ids[j]],
        if Ids[j] !in f then AnyRequired else if f[Ids[j]].JStr? then StringEmpty else StringBase,
        Some(if Ids[j] !in f then MissingField else if f[Ids[j]].JStr? then EmptyField else NotAString)))
  {
    DeletePaymentKeyNames();
    forall i | 0 <= i <= j ensures KeyPasses(env, DeletePayment.kind.keys[i], body.fields, [], true, DeletePayment.messages) <==> HasText(body.fields, Ids[i]) {
      DeletePaymentKey(env, body.fields, i);
    }
    ObjectFirstError(env, DeletePayment, body, j);
    DeletePaymentKey(env, body.fields, j);
  }
}
