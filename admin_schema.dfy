/** `createAdminSchema`: the body of a request that creates an admin account. */
module AdminSchema {
  import opened Json
  import opened Joi
  import opened Bodies

  const CreateAdmin: Schema :=
    ObjectSchema([
      Key("name", StringSchema().Required()),
      Key("email", StringSchema().Required()),
      Key("phone", StringSchema().Required()),
      Key("gender", StringSchema().Required()),
      Key("gym_id", StringSchema().Required()),
      Key("password", StringSchema().Required())
    ]).Unknown(false)

  const AdminKeys: set<string> := {"name", "email", "phone", "gender", "gym_id", "password"}

  /**
   * A valid admin body: the six fields, each a non-empty string of any
   * content (no e-mail or phone format, `gender` not restricted), nothing else.
   */
  predicate IsAdmin(body: Value)
  {
    body.JObj? &&
    body.fields.Keys <= AdminKeys &&
    forall k :: k in AdminKeys ==> HasText(body.fields, k)
  }

  /** Each listed key on its own. */
  lemma CreateAdminKeys(env: Env, f: map<string, Value>)
    ensures var keys := CreateAdmin.kind.keys;
      forall i :: 0 <= i < |keys| ==>
        (KeyPasses(env, keys[i], f, [], true, CreateAdmin.messages) <==> HasText(f, keys[i].name))
  {
    var keys := CreateAdmin.kind.keys;
    var m := CreateAdmin.messages;
    forall i | 0 <= i < |keys|
      ensures KeyPasses(env, keys[i], f, [], true, m) <==> HasText(f, keys[i].name)
    {
      StringPasses(env, keys[i].schema, Lookup(f, keys[i].name), [] + [keys[i].name], true, m);
    }
  }

  lemma CreateAdminKeyNames()
    ensures KeyNames(CreateAdmin.kind.keys) == AdminKeys
  {
    var keys := CreateAdmin.kind.keys;
    assert keys[0].name == "name" && keys[1].name == "email" && keys[2].name == "phone";
    assert keys[3].name == "gender" && keys[4].name == "gym_id" && keys[5].name == "password";
  }

  /** The schema accepts exactly the admin bodies. */
  lemma CreateAdminAccepts(env: Env, body: Value)
    ensures Accepts(env, CreateAdmin, body) <==> IsAdmin(body)
  {
    var keys := CreateAdmin.kind.keys;
    CreateAdminKeyNames();
    AcceptsObject(env, CreateAdmin, body);
    if body.JObj? {
      CreateAdminKeys(env, body.fields);
      if IsAdmin(body) {
        forall i | 0 <= i < |keys| ensures HasText(body.fields, keys[i].name) {
          assert keys[i].name in KeyNames(keys);
        }
      }
      if Accepts(env, CreateAdmin, body) {
        forall k | k in AdminKeys ensures HasText(body.fields, k) {
          var i :| 0 <= i < |keys| && keys[i].name == k;
        }
      }
    }
  }
}
