/** `addMemberSchema`: the body of a request that adds a gym member together with the first plan payment. */
module AddMemberSchema {
  import opened Json
  import opened Joi
  import opened Bodies

  const AddMember: Schema :=
    ObjectSchema([
      Key("name", StringSchema().Required()),
      Key("email", StringSchema().Required()),
      Key("gender", StringSchema().Valid(["male", "female"]).Required()),
      Key("dob", StringSchema().Required()),
      Key("address", StringSchema().Required()),
      Key("phone", StringSchema().Required()),
      Key("trainingType", StringSchema().Valid(["general", "personal"]).Required()),
      Key("planId", StringSchema().Required()),
      Key("joinedAt", StringSchema().Required()),
      Key("paidAmount", NumberSchema().Required()),
      Key("notes", StringSchema()),
      Key("gym_id", StringSchema().Required()),
      Key("createdBy", StringSchema().Required())
    ]).Unknown(false).Strict()

  const MemberKeys: set<string> :=
    {"name", "email", "gender", "dob", "address", "phone", "trainingType", "planId",
     "joinedAt", "paidAmount", "notes", "gym_id", "createdBy"}

  /**
   * The rule for each field of a new member: `gender` and `trainingType` from
   * their two values, `paidAmount` any number (no sign or range rule beyond
   * JavaScript's safe integers), `notes` optional, and every other field a
   * required non-empty string with no format rule (`dob`, `joinedAt` and
   * `phone` included).
   */
  predicate MemberFieldOk(f: map<string, Value>, key: string)
  {
    if key == "gender" then HasOneOf(f, key, {"male", "female"})
    else if key == "trainingType" then HasOneOf(f, key, {"general", "personal"})
    else if key == "paidAmount" then HasSafeNumber(f, key)
    else if key == "notes" then key in f ==> IsText(f[key])
    else HasText(f, key)
  }

  predicate IsNewMember(body: Value)
  {
    body.JObj? &&
    body.fields.Keys <= MemberKeys &&
    forall k :: k in MemberKeys ==> MemberFieldOk(body.fields, k)
  }

  lemma AddMemberKeyNames()
    ensures |AddMember.kind.keys| == 13
    ensures KeyNames(AddMember.kind.keys) == MemberKeys
  {
    var keys := AddMember.kind.keys;
    assert keys[0].name == "name" && keys[1].name == "email" && keys[2].name == "gender";
    assert keys[3].name == "dob" && keys[4].name == "address" && keys[5].name == "phone";
    assert keys[6].name == "trainingType" && keys[7].name == "planId" && keys[8].name == "joinedAt";
    assert keys[9].name == "paidAmount" && keys[10].name == "notes" && keys[11].name == "gym_id";
    assert keys[12].name == "createdBy";
  }

  /** One listed key on its own. */
  lemma AddMemberKey(env: Env, f: map<string, Value>, i: nat)
    requires i < |AddMember.kind.keys|
    ensures var k := AddMember.kind.keys[i];
      KeyPasses(env, k, f, [], false, AddMember.messages) <==> MemberFieldOk(f, k.name)
  {
    if i == 2 || i == 6 {
      AddMemberEnumKey(env, f, i);
    } else if i == 9 {
      AddMemberNumberKey(env, f);
    } else {
      AddMemberStringKey(env, f, i);
    }
  }

  /** `gender` and `trainingType`: one of their two values. */
  lemma AddMemberEnumKey(env: Env, f: map<string, Value>, i: nat)
    requires i == 2 || i == 6
    ensures var k := AddMember.kind.keys[i];
      KeyPasses(env, k, f, [], false, AddMember.messages) <==> MemberFieldOk(f, k.name)
  {
    var k := AddMember.kind.keys[i];
    var input := Lookup(f, k.name);
    var values := if i == 2 then ["male", "female"] else ["general", "personal"];
    assert k.schema == StringSchema().Valid(values).Required();
    ValidValues(StringSchema(), values, if input.Some? then input.value else JNull);
    EnumPasses(env, k.schema, input, [] + [k.name], false, AddMember.messages);
  }

  /** `paidAmount`: any safe number. */
  lemma AddMemberNumberKey(env: Env, f: map<string, Value>)
    ensures var k := AddMember.kind.keys[9];
      KeyPasses(env, k, f, [], false, AddMember.messages) <==> MemberFieldOk(f, k.name)
  {
    var k := AddMember.kind.keys[9];
    assert k == Key("paidAmount", NumberSchema().Required());
    NumberPasses(env, k.schema, Lookup(f, k.name), [] + [k.name], false, AddMember.messages);
  }

  /** Every other key: a non-empty string, required except for `notes`. */
  lemma AddMemberStringKey(env: Env, f: map<string, Value>, i: nat)
    requires i < |AddMember.kind.keys| && i != 2 && i != 6 && i != 9
    ensures var k := AddMember.kind.keys[i];
      KeyPasses(env, k, f, [], false, AddMember.messages) <==> MemberFieldOk(f, k.name)
  {
    var k := AddMember.kind.keys[i];
    assert k.schema == StringSchema() || k.schema == StringSchema().Required();
    assert k.name !in {"gender", "trainingType", "paidAmount"};
    assert k.name == "notes" <==> k.schema == StringSchema();
    StringPasses(env, k.schema, Lookup(f, k.name), [] + [k.name], false, AddMember.messages);
  }

  /** Every listed key passes exactly when every field rule holds. */
  lemma AddMemberKeysPass(env: Env, f: map<string, Value>)
    ensures (forall i :: 0 <= i < |AddMember.kind.keys| ==> KeyPasses(env, AddMember.kind.keys[i], f, [], false, AddMember.messages)) <==>
      (forall k :: k in MemberKeys ==> MemberFieldOk(f, k))
  {
    var keys := AddMember.kind.keys;
    AddMemberKeyNames();
    forall i | 0 <= i < |keys|
      ensures KeyPasses(env, keys[i], f, [], false, AddMember.messages) <==> MemberFieldOk(f, keys[i].name)
    {
      AddMemberKey(env, f, i);
    }
    KeysMatchFields(env, keys, f, AddMember.messages);
  }

  /** Moving from the listed keys to the key names, for any listing of the member keys. */
  lemma KeysMatchFields(env: Env, keys: seq<Key>, f: map<string, Value>, m: map<Code, string>)
    requires KeyNames(keys) == MemberKeys
    requires forall i :: 0 <= i < |keys| ==> (KeyPasses(env, keys[i], f, [], false, m) <==> MemberFieldOk(f, keys[i].name))
    ensures (forall i :: 0 <= i < |keys| ==> KeyPasses(env, keys[i], f, [], false, m)) <==>
      (forall k :: k in MemberKeys ==> MemberFieldOk(f, k))
  {
    if forall k :: k in MemberKeys ==> MemberFieldOk(f, k) {
      forall i | 0 <= i < |keys| ensures MemberFieldOk(f, keys[i].name) {
        assert keys[i].name in KeyNames(keys);
      }
    }
    if forall i :: 0 <= i < |keys| ==> KeyPasses(env, keys[i], f, [], false, m) {
      forall k | k in MemberKeys ensures MemberFieldOk(f, k) {
        var i :| 0 <= i < |keys| && keys[i].name == k;
      }
    }
  }

  /** The schema accepts exactly the new-member bodies. */
  lemma AddMemberAccepts(env: Env, body: Value)
    ensures Accepts(env, AddMember, body) <==> IsNewMember(body)
  {
    AddMemberKeyNames();
    AcceptsObject(env, AddMember, body);
    if body.JObj? {
      AddMemberKeysPass(env, body.fields);
    }
  }

  /** Strict mode: an accepted body is passed on unchanged, and a numeric string for `paidAmount` is refused. */
  lemma AddMemberKeepsBody(env: Env, body: Value)
    ensures Accepts(env, AddMember, body) ==> Check(env, AddMember, body).value == body
    ensures body.JObj? && "paidAmount" in body.fields && body.fields["paidAmount"].JStr? ==> !Accepts(env, AddMember, body)
  {
    AddMemberAccepts(env, body);
  }
}
