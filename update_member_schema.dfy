/** `updateMemberSchema`: the body of a request that changes some fields of a member; every field is optional. */
module UpdateMemberSchema {
  import opened Wrappers
  import opened Json
  import opened Joi
  import opened Bodies
  import Patterns

  const DobMessage := "Date of birth must be in ISO format (e.g., '2024-11-15T00:00:00.000Z')."

  const NameField: Schema :=
    StringSchema().Optional().Min(1).Max(100).Messages(map[
      StringBase := "Name must be a string.",
      StringMin := "Name must be at least 1 character long.",
      StringMax := "Name must not exceed 100 characters."])

  const EmailField: Schema :=
    StringSchema().Optional().Email().Messages(map[
      StringBase := "Email must be a string.",
      StringEmail := "Email must be a valid email address."])

  const PhoneField: Schema :=
    StringSchema().Optional().Pattern(TenDigits, None).Messages(map[
      StringBase := "Phone must be a string.",
      StringPatternBase := "Phone must be a valid 10-digit number."])

  const GenderField: Schema :=
    StringSchema().Optional().Valid(["male", "female"]).Messages(map[
      StringBase := "Gender must be a string.",
      AnyOnly := "Gender must be one of 'male', 'female'."])

  /** A named pattern: a mismatch is reported as `string.pattern.name`, not `string.pattern.base`. */
  const DobField: Schema :=
    StringSchema().Optional().Pattern(IsoDateTime, Some("ISO 8601 date format")).Messages(map[
      StringBase := "Date of birth must be a string.",
      StringPatternBase := DobMessage])

  const TrainingTypeField: Schema :=
    StringSchema().Optional().Valid(["general", "personal"]).Messages(map[
      StringBase := "Training type must be a string.",
      AnyOnly := "Training type must be one of 'general', 'personal'."])

  const AddressField: Schema :=
    StringSchema().Optional().Max(255).Messages(map[
      StringBase := "Address must be a string.",
      StringMax := "Address must not exceed 255 characters."])

  const NotesField: Schema :=
    StringSchema().Optional().Allow("").Max(500).Messages(map[
      StringBase := "Notes must be a string.",
      StringMax := "Notes must not exceed 500 characters."])

  /** `joinedAt` is commented out in the source and so is not a key of the schema. */
  const UpdateMember: Schema :=
    ObjectSchema([
      Key("name", NameField),
      Key("email", EmailField),
      Key("phone", PhoneField),
      Key("gender", GenderField),
      Key("dob", DobField),
      Key("trainingType", TrainingTypeField),
      Key("address", AddressField),
      Key("notes", NotesField)
    ]).Unknown(false).Strict()

  const UpdateKeys: set<string> :=
    {"name", "email", "phone", "gender", "dob", "trainingType", "address", "notes"}

  /** The rule for each field, when it is present. */
  predicate UpdateFieldOk(env: Env, f: map<string, Value>, key: string)
  {
    key in f ==>
      var v := f[key];
      if key == "name" then v.JStr? && 1 <= |v.s| <= 100
      else if key == "email" then IsText(v) && env.isEmail(v.s)
      else if key == "phone" then v.JStr? && Patterns.TenDigits(v.s)
      else if key == "gender" then v.JStr? && v.s in {"male", "female"}
      else if key == "dob" then v.JStr? && Patterns.IsoDateTime(v.s)
      else if key == "trainingType" then v.JStr? && v.s in {"general", "personal"}
      else if key == "address" then IsText(v) && |v.s| <= 255
      else if key == "notes" then v.JStr? && |v.s| <= 500
      else false
  }

  predicate IsMemberUpdate(env: Env, body: Value)
  {
    body.JObj? &&
    body.fields.Keys <= UpdateKeys &&
    forall k :: k in UpdateKeys ==> UpdateFieldOk(env, body.fields, k)
  }

  lemma UpdateMemberKeyNames(schema: Schema)
    requires schema == UpdateMember || schema == UpdateMemberIntended
    ensures |schema.kind.keys| == 8
    ensures KeyNames(schema.kind.keys) == UpdateKeys
  {
    var keys := schema.kind.keys;
    assert keys[0].name == "name" && keys[1].name == "email" && keys[2].name == "phone";
    assert keys[3].name == "gender" && keys[4].name == "dob" && keys[5].name == "trainingType";
    assert keys[6].name == "address" && keys[7].name == "notes";
  }

  /** The keys of the schema as written and of the corrected one; they differ only in `dob`'s messages. */
  lemma UpdateMemberKeysAre(schema: Schema)
    requires schema == UpdateMember || schema == UpdateMemberIntended
    ensures schema.kind.keys == [
      Key("name", NameField), Key("email", EmailField), Key("phone", PhoneField), Key("gender", GenderField),
      Key("dob", if schema == UpdateMember then DobField else DobFieldIntended),
      Key("trainingType", TrainingTypeField), Key("address", AddressField), Key("notes", NotesField)]
    ensures schema.strict && !schema.unknownAllowed && schema.allowed == [] && !schema.only
    ensures schema.messages == map[]
  {
  }

  /** One field on its own, whatever messages are in force. */
  lemma NamePasses(env: Env, f: map<string, Value>, m: map<Code, string>)
    ensures Validate(env, NameField, Lookup(f, "name"), [] + ["name"], false, m).Ok? <==> UpdateFieldOk(env, f, "name")
  {
    assert NameField.rules == [MinLength(1), MaxLength(100)] && NameField.allowed == [];
    assert NameField.presence == Presence.Optional;
    var input := Lookup(f, "name");
    StringPasses(env, NameField, input, [] + ["name"], false, m);
    if input.Some? {
      var v := input.value;
      TwoRulesPass(env, NameField.rules, v);
    }
  }

  lemma EmailPasses(env: Env, f: map<string, Value>, m: map<Code, string>)
    ensures Validate(env, EmailField, Lookup(f, "email"), [] + ["email"], false, m).Ok? <==> UpdateFieldOk(env, f, "email")
  {
    StringPasses(env, EmailField, Lookup(f, "email"), [] + ["email"], false, m);
  }

  lemma PhonePasses(env: Env, f: map<string, Value>, m: map<Code, string>)
    ensures Validate(env, PhoneField, Lookup(f, "phone"), [] + ["phone"], false, m).Ok? <==> UpdateFieldOk(env, f, "phone")
  {
    StringPasses(env, PhoneField, Lookup(f, "phone"), [] + ["phone"], false, m);
  }

  lemma GenderPasses(env: Env, f: map<string, Value>, m: map<Code, string>)
    ensures Validate(env, GenderField, Lookup(f, "gender"), [] + ["gender"], false, m).Ok? <==> UpdateFieldOk(env, f, "gender")
  {
    var input := Lookup(f, "gender");
    ValidValues(StringSchema().Optional(), ["male", "female"], if input.Some? then input.value else JNull);
    EnumPasses(env, GenderField, input, [] + ["gender"], false, m);
  }

  lemma DobPasses(env: Env, f: map<string, Value>, m: map<Code, string>)
    ensures Validate(env, DobField, Lookup(f, "dob"), [] + ["dob"], false, m).Ok? <==> UpdateFieldOk(env, f, "dob")
  {
    StringPasses(env, DobField, Lookup(f, "dob"), [] + ["dob"], false, m);
  }

  lemma DobIntendedPasses(env: Env, f: map<string, Value>, m: map<Code, string>)
    ensures Validate(env, DobFieldIntended, Lookup(f, "dob"), [] + ["dob"], false, m).Ok? <==> UpdateFieldOk(env, f, "dob")
  {
    StringPasses(env, DobFieldIntended, Lookup(f, "dob"), [] + ["dob"], false, m);
  }

  lemma TrainingTypePasses(env: Env, f: map<string, Value>, m: map<Code, string>)
    ensures Validate(env, TrainingTypeField, Lookup(f, "trainingType"), [] + ["trainingType"], false, m).Ok? <==> UpdateFieldOk(env, f, "trainingType")
  {
    var input := Lookup(f, "trainingType");
    ValidValues(StringSchema().Optional(), ["general", "personal"], if input.Some? then input.value else JNull);
    EnumPasses(env, TrainingTypeField, input, [] + ["trainingType"], false, m);
  }

  lemma AddressPasses(env: Env, f: map<string, Value>, m: map<Code, string>)
    ensures Validate(env, AddressField, Lookup(f, "address"), [] + ["address"], false, m).Ok? <==> UpdateFieldOk(env, f, "address")
  {
    StringPasses(env, AddressField, Lookup(f, "address"), [] + ["address"], false, m);
  }

  lemma NotesPasses(env: Env, f: map<string, Value>, m: map<Code, string>)
    ensures Validate(env, NotesField, Lookup(f, "notes"), [] + ["notes"], false, m).Ok? <==> UpdateFieldOk(env, f, "notes")
  {
    StringPasses(env, NotesField, Lookup(f, "notes"), [] + ["notes"], false, m);
  }

  /** One listed key on its own, in the schema as written and in the corrected one alike. */
  lemma UpdateMemberKey(env: Env, schema: Schema, f: map<string, Value>, i: nat)
    requires schema == UpdateMember || schema == UpdateMemberIntended
    requires i < |schema.kind.keys|
    ensures var k := schema.kind.keys[i];
      KeyPasses(env, k, f, [], false, schema.messages) <==> UpdateFieldOk(env, f, k.name)
  {
    UpdateMemberKeysAre(schema);
    var m := schema.messages;
    if i == 0 { NamePasses(env, f, m); }
    else if i == 1 { EmailPasses(env, f, m); }
    else if i == 2 { PhonePasses(env, f, m); }
    else if i == 3 { GenderPasses(env, f, m); }
    else if i == 4 { DobPasses(env, f, m); DobIntendedPasses(env, f, m); }
    else if i == 5 { TrainingTypePasses(env, f, m); }
    else if i == 6 { AddressPasses(env, f, m); }
    else { NotesPasses(env, f, m); }
  }

  /** Shared by the schema as written and the corrected one: they accept the same bodies. */
  lemma UpdateAccepts(env: Env, schema: Schema, body: Value)
    requires schema == UpdateMember || schema == UpdateMemberIntended
    ensures Accepts(env, schema, body) <==> IsMemberUpdate(env, body)
  {
    var keys := schema.kind.keys;
    UpdateMemberKeyNames(schema);
    AcceptsObject(env, schema, body);
    if body.JObj? {
      forall i | 0 <= i < |keys|
        ensures KeyPasses(env, keys[i], body.fields, [], false, schema.messages) <==> UpdateFieldOk(env, body.fields, keys[i].name)
      {
        UpdateMemberKey(env, schema, body.fields, i);
      }
      if IsMemberUpdate(env, body) {
        forall i | 0 <= i < |keys| ensures UpdateFieldOk(env, body.fields, keys[i].name) {
          assert keys[i].name in KeyNames(keys);
        }
      }
      if Accepts(env, schema, body) {
        forall k | k in UpdateKeys ensures UpdateFieldOk(env, body.fields, k) {
          var i :| 0 <= i < |keys| && keys[i].name == k;
        }
      }
    }
  }

  /** The schema accepts exactly the member updates; in particular the empty object. */
  lemma UpdateMemberAccepts(env: Env, body: Value)
    ensures Accepts(env, UpdateMember, body) <==> IsMemberUpdate(env, body)
    ensures Accepts(env, UpdateMember, JObj(map[]))
  {
    UpdateAccepts(env, UpdateMember, body);
    UpdateAccepts(env, UpdateMember, JObj(map[]));
  }

  /** Strict mode: what is accepted is passed on unchanged; `joinedAt`, no longer listed, is refused. */
  lemma UpdateMemberKeepsBody(env: Env, body: Value)
    ensures Accepts(env, UpdateMember, body) ==> Check(env, UpdateMember, body).value == body
    ensures body.JObj? && "joinedAt" in body.fields ==> !Accepts(env, UpdateMember, body)
  {
    UpdateMemberAccepts(env, body);
  }

  /** `""` for `name` is refused as `string.empty` before `min(1)` is tried, so the `string.min` message is never shown. */
  lemma NameMinNeverReported(env: Env, input: Option<Value>, path: seq<string>, convert: bool, m: map<Code, string>)
    ensures var r := Validate(env, NameField, input, path, convert, m);
      r.Err? ==> r.error.code != StringMin
    ensures Validate(env, NameField, Some(JStr("")), path, convert, m).Err?
    ensures Validate(env, NameField, Some(JStr("")), path, convert, m).error.code == StringEmpty
  {
    var r := Validate(env, NameField, input, path, convert, m);
    assert NameField.rules == [MinLength(1), MaxLength(100)];
    if r.Err? && input.Some? && input.value.JStr? && input.value.s != "" {
      assert RuleError(env, MinLength(1), input.value).None?;
      assert RulesError(env, NameField.rules, input.value) == RuleError(env, MaxLength(100), input.value);
    }
  }

  /** `valid(...)` is checked before the type, so a gender that is not a string is reported with the `any.only` message, never the `string.base` one. */
  lemma GenderTypeNeverReported(env: Env, input: Option<Value>, path: seq<string>, convert: bool, m: map<Code, string>)
    ensures var r := Validate(env, GenderField, input, path, convert, m);
      r.Err? ==> r.error == Error(path, AnyOnly, Some("Gender must be one of 'male', 'female'."))
    ensures var r := Validate(env, TrainingTypeField, input, path, convert, m);
      r.Err? ==> r.error == Error(path, AnyOnly, Some("Training type must be one of 'general', 'personal'."))
  {
  }

  // ----- The date-of-birth message ----------------------------------------

  /** As written: a malformed `dob` carries Joi's default message, not the schema's ISO-format message. */
  lemma DobMismatchMessage(env: Env, body: Value)
    requires body == JObj(map["dob" := JStr("15-11-2024")])
    ensures Check(env, UpdateMember, body) == Err(Error(["dob"], StringPatternName, None))
  {
    Patterns.IsoDateTimeShape("15-11-2024");
    DobFirstError(env, UpdateMember, body, "15-11-2024");
    DobError(env, DobField, "15-11-2024");
  }

  /** The schema with `dob`'s message keyed on the code a named pattern raises. */
  const DobFieldIntended: Schema :=
    StringSchema().Optional().Pattern(IsoDateTime, Some("ISO 8601 date format")).Messages(map[
      StringBase := "Date of birth must be a string.",
      StringPatternName := DobMessage])

  const UpdateMemberIntended: Schema :=
    UpdateMember.(kind := ObjectType(UpdateMember.kind.keys[4 := Key("dob", DobFieldIntended)]))

  /** Corrected: the same bodies are accepted, and a malformed `dob` now carries the ISO-format message. */
  lemma DobMismatchMessageIntended(env: Env, body: Value)
    requires body == JObj(map["dob" := JStr("15-11-2024")])
    ensures Check(env, UpdateMemberIntended, body) == Err(Error(["dob"], StringPatternName, Some(DobMessage)))
    ensures forall b :: Accepts(env, UpdateMemberIntended, b) <==> Accepts(env, UpdateMember, b)
  {
    Patterns.IsoDateTimeShape("15-11-2024");
    DobFirstError(env, UpdateMemberIntended, body, "15-11-2024");
    DobError(env, DobFieldIntended, "15-11-2024");
    forall b ensures Accepts(env, UpdateMemberIntended, b) <==> Accepts(env, UpdateMember, b) {
      UpdateAccepts(env, UpdateMember, b);
      UpdateAccepts(env, UpdateMemberIntended, b);
    }
  }

  /** A non-empty string that is not an ISO date-time fails `dob` with `string.pattern.name` and whatever message the field keys on that code. */
  lemma DobError(env: Env, field: Schema, s: string)
    requires field == DobField || field == DobFieldIntended
    requires s != "" && !Patterns.IsoDateTime(s)
    ensures Validate(env, field, Some(JStr(s)), ["dob"], false, map[]) ==
      Err(Error(["dob"], StringPatternName, if StringPatternName in field.messages then Some(field.messages[StringPatternName]) else None))
  {
    assert field.rules == [Matches(IsoDateTime, Some("ISO 8601 date format"))];
    assert RulesError(env, field.rules, JStr(s)) == Some(StringPatternName);
  }

  /** With only a `dob`, the four keys listed before it pass. */
  lemma KeysBeforeDobPass(env: Env, schema: Schema, f: map<string, Value>)
    requires schema == UpdateMember || schema == UpdateMemberIntended
    requires f.Keys == {"dob"}
    ensures forall i :: 0 <= i < 4 ==> KeyPasses(env, schema.kind.keys[i], f, [], false, schema.messages)
  {
    UpdateMemberKeysAre(schema);
    forall i | 0 <= i < 4 ensures KeyPasses(env, schema.kind.keys[i], f, [], false, schema.messages) {
      UpdateMemberKey(env, schema, f, i);
    }
  }

  /** With only a `dob` that is not an ISO date-time, the error is the one `dob` raises. */
  lemma DobFirstError(env: Env, schema: Schema, body: Value, dob: string)
    requires schema == UpdateMember || schema == UpdateMemberIntended
    requires body.JObj? && body.fields.Keys == {"dob"} && body.fields["dob"] == JStr(dob)
    requires !Patterns.IsoDateTime(dob)
    ensures Check(env, schema, body) ==
      Err(Validate(env, schema.kind.keys[4].schema, Some(JStr(dob)), ["dob"], false, map[]).error)
  {
    UpdateMemberKeysAre(schema);
    var f := body.fields;
    KeysBeforeDobPass(env, schema, f);
    UpdateMemberKey(env, schema, f, 4);
    assert Lookup(f, "dob") == Some(JStr(dob));
    assert [] + ["dob"] == ["dob"];
    ObjectFirstError(env, schema, body, 4);
  }
}
