/** `createPlanSchema`: the body of a request that creates a subscription plan. */
module CreatePlanSchema {
  import opened Json
  import opened Joi
  import opened Bodies

  const CreatePlan: Schema :=
    ObjectSchema([
      Key("name", StringSchema().Required()),
      Key("price", NumberSchema().Required()),
      Key("months", NumberSchema().Required()),
      Key("gym_id", StringSchema().Required())
    ]).Unknown(false).Strict()

  const PlanKeys: set<string> := {"name", "price", "months", "gym_id"}

  /** A valid plan body: two non-empty strings, two numbers of any sign, nothing else. */
  predicate IsPlan(body: Value)
  {
    body.JObj? &&
    body.fields.Keys <= PlanKeys &&
    HasText(body.fields, "name") &&
    HasSafeNumber(body.fields, "price") &&
    HasSafeNumber(body.fields, "months") &&
    HasText(body.fields, "gym_id")
  }

  /** Each listed key on its own. */
  lemma CreatePlanKeys(env: Env, f: map<string, Value>)
    ensures var keys := CreatePlan.kind.keys; var m := CreatePlan.messages;
      (KeyPasses(env, keys[0], f, [], false, m) <==> HasText(f, "name")) &&
      (KeyPasses(env, keys[1], f, [], false, m) <==> HasSafeNumber(f, "price")) &&
      (KeyPasses(env, keys[2], f, [], false, m) <==> HasSafeNumber(f, "months")) &&
      (KeyPasses(env, keys[3], f, [], false, m) <==> HasText(f, "gym_id"))
  {
    var keys := CreatePlan.kind.keys;
    var m := CreatePlan.messages;
    StringPasses(env, keys[0].schema, Lookup(f, "name"), ["name"], false, m);
    NumberPasses(env, keys[1].schema, Lookup(f, "price"), ["price"], false, m);
    NumberPasses(env, keys[2].schema, Lookup(f, "months"), ["months"], false, m);
    StringPasses(env, keys[3].schema, Lookup(f, "gym_id"), ["gym_id"], false, m);
  }

  /** The schema accepts exactly the plan bodies. */
  lemma CreatePlanAccepts(env: Env, body: Value)
    ensures Accepts(env, CreatePlan, body) <==> IsPlan(body)
  {
    var keys := CreatePlan.kind.keys;
    assert KeyNames(keys) == PlanKeys by {
      assert keys[0].name == "name" && keys[1].name == "price";
      assert keys[2].name == "months" && keys[3].name == "gym_id";
    }
    AcceptsObject(env, CreatePlan, body);
    if body.JObj? {
      var f := body.fields;
      var m := CreatePlan.messages;
      CreatePlanKeys(env, f);
      FourKeysPass(env, keys, f, [], false, m);
    }
  }

  /** Strict mode: an accepted body is passed on exactly as sent, so `"1200"` for `price` is never turned into a number. */
  lemma CreatePlanKeepsBody(env: Env, body: Value)
    ensures Accepts(env, CreatePlan, body) ==> Check(env, CreatePlan, body).value == body
    ensures body.JObj? && "price" in body.fields && body.fields["price"].JStr? ==> !Accepts(env, CreatePlan, body)
  {
    CreatePlanAccepts(env, body);
  }
}
