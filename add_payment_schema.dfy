/**
 * `addPaymentSchema`: the body of a request that records a payment, with the
 * member's coordinates under `meta` and the payment itself under `data`.
 * `isValidTimestamp` is imported from a schema file (`createMemberSchema.ts`)
 * that is not part of this model; it is `Env.isValidTimestamp`.
 */
module AddPaymentSchema {
  import opened Wrappers
  import opened Json
  import opened Joi
  import opened Bodies

  const Meta: Schema :=
    ObjectSchema([
      Key("gymId", StringSchema().Required()),
      Key("userId", StringSchema().Required()),
      Key("planId", StringSchema().Required())
    ]).Required().Unknown(false)

  const Data: Schema :=
    ObjectSchema([
      Key("date", TimestampSchema().Required()),
      Key("amount", NumberSchema().Greater(0).Required()),
      Key("addedBy", StringSchema().Required())
    ]).Required().Unknown(false)

  /** Not strict: `amount` may arrive as a string that Joi converts. */
  const AddPayment: Schema :=
    ObjectSchema([Key("meta", Meta), Key("data", Data)]).Unknown(false)

  const MetaKeys: set<string> := {"gymId", "userId", "planId"}
  const DataKeys: set<string> := {"date", "amount", "addedBy"}

  /** The number an `amount` stands for: a number, or a string Joi converts to one. */
  function AmountOf(env: Env, v: Value): Option<int>
  {
    if v.JNum? then Some(v.n)
    else if v.JStr? then env.numberFromString(v.s)
    else None
  }

  predicate IsPositiveAmount(env: Env, v: Value)
  {
    AmountOf(env, v).Some? && IsSafe(AmountOf(env, v).value) && AmountOf(env, v).value > 0
  }

  /** The three member coordinates, non-empty strings, and nothing else. */
  predicate IsMeta(v: Value)
  {
    v.JObj? && v.fields.Keys <= MetaKeys && forall k :: k in MetaKeys ==> HasText(v.fields, k)
  }

  /** A timestamp, a strictly positive amount and the recording actor, and nothing else. */
  predicate IsPaymentData(env: Env, v: Value)
  {
    v.JObj? && v.fields.Keys <= DataKeys &&
    "date" in v.fields && env.isValidTimestamp(v.fields["date"]) &&
    "amount" in v.fields && IsPositiveAmount(env, v.fields["amount"]) &&
    HasText(v.fields, "addedBy")
  }

  predicate IsAddPayment(env: Env, body: Value)
  {
    body.JObj? && body.fields.Keys <= {"meta", "data"} &&
    "meta" in body.fields && IsMeta(body.fields["meta"]) &&
    "data" in body.fields && IsPaymentData(env, body.fields["data"])
  }

  lemma MetaKeysAre()
    ensures Meta.kind.keys == [Key("gymId", StringSchema().Required()), Key("userId", StringSchema().Required()),
                               Key("planId", StringSchema().Required())]
    ensures KeyNames(Meta.kind.keys) == MetaKeys
    ensures forall a, b :: 0 <= a < b < |Meta.kind.keys| ==> Meta.kind.keys[a].name != Meta.kind.keys[b].name
  {
    var keys := Meta.kind.keys;
    assert keys[0].name == "gymId" && keys[1].name == "userId" && keys[2].name == "planId";
  }

  lemma DataKeysAre()
    ensures Data.kind.keys == [Key("date", TimestampSchema().Required()), Key("amount", NumberSchema().Greater(0).Required()),
                               Key("addedBy", StringSchema().Required())]
    ensures KeyNames(Data.kind.keys) == DataKeys
    ensures forall a, b :: 0 <= a < b < |Data.kind.keys| ==> Data.kind.keys[a].name != Data.kind.keys[b].name
  {
    var keys := Data.kind.keys;
    assert keys[0].name == "date" && keys[1].name == "amount" && keys[2].name == "addedBy";
  }

  /** Each key of `meta` on its own. */
  lemma MetaKeyRules(env: Env, f: map<string, Value>, path: seq<string>, m: map<Code, string>)
    ensures var keys := Meta.kind.keys;
      (KeyPasses(env, keys[0], f, path, true, m) <==> HasText(f, "gymId")) &&
      (KeyPasses(env, keys[1], f, path, true, m) <==> HasText(f, "userId")) &&
      (KeyPasses(env, keys[2], f, path, true, m) <==> HasText(f, "planId"))
  {
    var keys := Meta.kind.keys;
    StringPasses(env, keys[0].schema, Lookup(f, "gymId"), path + ["gymId"], true, m);
    StringPasses(env, keys[1].schema, Lookup(f, "userId"), path + ["userId"], true, m);
    StringPasses(env, keys[2].schema, Lookup(f, "planId"), path + ["planId"], true, m);
  }

  /** `meta` passes exactly when it is present and a valid set of coordinates. */
  lemma MetaPasses(env: Env, input: Option<Value>, path: seq<string>, m: map<Code, string>)
    ensures Validate(env, Meta, input, path, true, m).Ok? <==> input.Some? && IsMeta(input.value)
  {
    var keys := Meta.kind.keys;
    MetaKeysAre();
    if input.Some? {
      ObjectPasses(env, Meta, input.value, path, true, m);
      if input.value.JObj? {
        var f := input.value.fields;
        var mm := m + Meta.messages;
        MetaKeyRules(env, f, path, mm);
        ThreeKeysPass(env, keys, f, path, true, mm);
      }
    }
  }

  /** Each key of `data` on its own. */
  lemma DataKeyRules(env: Env, f: map<string, Value>, path: seq<string>, m: map<Code, string>)
    ensures var keys := Data.kind.keys;
      (KeyPasses(env, keys[0], f, path, true, m) <==> "date" in f && env.isValidTimestamp(f["date"])) &&
      (KeyPasses(env, keys[1], f, path, true, m) <==> "amount" in f && IsPositiveAmount(env, f["amount"])) &&
      (KeyPasses(env, keys[2], f, path, true, m) <==> HasText(f, "addedBy"))
  {
    var keys := Data.kind.keys;
    AnyPasses(env, keys[0].schema, Lookup(f, "date"), path + ["date"], true, m);
    NumberPasses(env, keys[1].schema, Lookup(f, "amount"), path + ["amount"], true, m);
    StringPasses(env, keys[2].schema, Lookup(f, "addedBy"), path + ["addedBy"], true, m);
  }

  /** `data` passes exactly when it is present and a valid payment. */
  lemma DataPasses(env: Env, input: Option<Value>, path: seq<string>, m: map<Code, string>)
    ensures Validate(env, Data, input, path, true, m).Ok? <==> input.Some? && IsPaymentData(env, input.value)
  {
    var keys := Data.kind.keys;
    DataKeysAre();
    if input.Some? {
      ObjectPasses(env, Data, input.value, path, true, m);
      if input.value.JObj? {
        var f := input.value.fields;
        var mm := m + Data.messages;
        DataKeyRules(env, f, path, mm);
        ThreeKeysPass(env, keys, f, path, true, mm);
      }
    }
  }

  /** `meta` and `data` on their own. */
  lemma TopKeys(env: Env, f: map<string, Value>)
    ensures var keys := AddPayment.kind.keys; var m := AddPayment.messages;
      (KeyPasses(env, keys[0], f, [], true, m) <==> "meta" in f && IsMeta(f["meta"])) &&
      (KeyPasses(env, keys[1], f, [], true, m) <==> "data" in f && IsPaymentData(env, f["data"]))
  {
    MetaPasses(env, Lookup(f, "meta"), [] + ["meta"], AddPayment.messages);
    DataPasses(env, Lookup(f, "data"), [] + ["data"], AddPayment.messages);
  }

  /**
   * The schema accepts exactly the bodies with valid `meta` and `data`; an
   * amount of 0 or below, a missing `date` or an extra key anywhere is refused.
   */
  lemma AddPaymentAccepts(env: Env, body: Value)
    ensures Accepts(env, AddPayment, body) <==> IsAddPayment(env, body)
  {
    var keys := AddPayment.kind.keys;
    assert KeyNames(keys) == {"meta", "data"} by {
      assert keys[0].name == "meta" && keys[1].name == "data";
    }
    AcceptsObject(env, AddPayment, body);
    if body.JObj? {
      var f := body.fields;
      TopKeys(env, f);
      TwoKeysPass(env, keys, f, [], true, AddPayment.messages);
    }
  }

  /** The validated `meta` is the `meta` that was sent. */
  lemma MetaValue(env: Env, v: Value, path: seq<string>, m: map<Code, string>)
    requires IsMeta(v)
    ensures Validate(env, Meta, Some(v), path, true, m) == Ok(Some(v))
  {
    MetaPasses(env, Some(v), path, m);
    MetaKeysAre();
    var keys := Meta.kind.keys;
    var f := v.fields;
    var mm := m + Meta.messages;
    ObjectValue(env, Meta, v, path, true, m);
    forall i | 0 <= i < |keys| && keys[i].name in f
      ensures Validate(env, keys[i].schema, Lookup(f, keys[i].name), path + [keys[i].name], true, mm) == Ok(Some(f[keys[i].name]))
    {
      StringPasses(env, keys[i].schema, Lookup(f, keys[i].name), path + [keys[i].name], true, mm);
      LeafKeepsValue(env, keys[i].schema, Lookup(f, keys[i].name), path + [keys[i].name], true, mm);
    }
    ObjectKeysValue(env, keys, f, path, true, mm, f);
  }

  /** The validated `data` is the `data` that was sent, with `amount` converted to the number it stands for. */
  lemma DataValue(env: Env, v: Value, path: seq<string>, m: map<Code, string>)
    requires IsPaymentData(env, v)
    ensures Validate(env, Data, Some(v), path, true, m) ==
      Ok(Some(JObj(v.fields["amount" := JNum(AmountOf(env, v.fields["amount"]).value)])))
  {
    DataPasses(env, Some(v), path, m);
    DataKeysAre();
    var keys := Data.kind.keys;
    var f := v.fields;
    var mm := m + Data.messages;
    var expected := f["amount" := JNum(AmountOf(env, f["amount"]).value)];
    ObjectValue(env, Data, v, path, true, m);
    forall i | 0 <= i < |keys| && keys[i].name in f
      ensures Validate(env, keys[i].schema, Lookup(f, keys[i].name), path + [keys[i].name], true, mm) == Ok(Some(expected[keys[i].name]))
    {
      DataKeyValue(env, f, path, mm, i);
    }
    ObjectKeysValue(env, keys, f, path, true, mm, expected);
  }

  /** The validated value of one key of an accepted `data`. */
  lemma DataKeyValue(env: Env, f: map<string, Value>, path: seq<string>, m: map<Code, string>, i: nat)
    requires IsPaymentData(env, JObj(f)) && i < 3
    ensures var k := Data.kind.keys[i];
      Validate(env, k.schema, Lookup(f, k.name), path + [k.name], true, m) ==
      Ok(Some(f["amount" := JNum(AmountOf(env, f["amount"]).value)][k.name]))
  {
    DataKeysAre();
    var k := Data.kind.keys[i];
    if i == 1 {
      NumberPasses(env, k.schema, Lookup(f, k.name), path + [k.name], true, m);
      NumberValue(env, k.schema, Lookup(f, k.name), path + [k.name], true, m);
    } else if i == 0 {
      AnyPasses(env, k.schema, Lookup(f, k.name), path + [k.name], true, m);
      LeafKeepsValue(env, k.schema, Lookup(f, k.name), path + [k.name], true, m);
    } else {
      StringPasses(env, k.schema, Lookup(f, k.name), path + [k.name], true, m);
      LeafKeepsValue(env, k.schema, Lookup(f, k.name), path + [k.name], true, m);
    }
  }

  /**
   * What the validator passes on for an accepted body: the body as sent,
   * except that `data.amount` is the number it stands for (`"500"` becomes 500).
   */
  lemma AddPaymentValue(env: Env, body: Value)
    requires IsAddPayment(env, body)
    ensures Check(env, AddPayment, body) ==
      Ok(JObj(body.fields["data" := JObj(body.fields["data"].fields["amount" :=
        JNum(AmountOf(env, body.fields["data"].fields["amount"]).value)])]))
  {
    AddPaymentAccepts(env, body);
    var keys := AddPayment.kind.keys;
    var f := body.fields;
    var mm := map[] + AddPayment.messages;
    var expected := f["data" := JObj(f["data"].fields["amount" := JNum(AmountOf(env, f["data"].fields["amount"]).value)])];
    ObjectValue(env, AddPayment, body, [], true, map[]);
    assert keys[0].name == "meta" && keys[1].name == "data";
    forall i | 0 <= i < |keys| && keys[i].name in f
      ensures Validate(env, keys[i].schema, Lookup(f, keys[i].name), [] + [keys[i].name], true, mm) == Ok(Some(expected[keys[i].name]))
    {
      if i == 0 {
        MetaValue(env, f["meta"], [] + ["meta"], mm);
      } else {
        DataValue(env, f["data"], [] + ["data"], mm);
      }
    }
    ObjectKeysValue(env, keys, f, [], true, mm, expected);
  }

  /** With Joi's conversion of `"500"` to 500, a string amount of `"500"` is handed on as the number 500. */
  lemma AddPaymentStringAmount(env: Env, body: Value)
    requires IsAddPayment(env, body)
    requires body.fields["data"].fields["amount"] == JStr("500")
    requires env.numberFromString("500") == Some(500)
    ensures Check(env, AddPayment, body).Ok?
    ensures Check(env, AddPayment, body).value.JObj? && "data" in Check(env, AddPayment, body).value.fields
    ensures var out := Check(env, AddPayment, body).value.fields["data"];
      out.JObj? && "amount" in out.fields && out.fields["amount"] == JNum(500)
  {
    AddPaymentValue(env, body);
  }
}
