# gym-monitor-api: request validators and the MIME-type helper

This project models two pure parts of the gym-monitor-api Cloud Functions
backend and proves properties about them:

- `getExtensionFromMimeType`, which takes the file extension of an uploaded
  profile image from its MIME type (`image/jpeg` gives `jpeg`). Module
  `FileExtension` models JavaScript's `split('/')` as `Split`, together with
  its inverse `Join`.
- The six Joi request-body schemas the admin API validates with:
  `createAdminSchema`, `createPlanSchema`, `addMemberSchema`,
  `updateMemberSchema`, `addPaymentSchema` (nested `meta` and `data`
  objects) and `deletePaymentSchema`.

The schemas are modelled as data. Module `Joi` is a small interpreter that
follows Joi 17's validation order for the rules these schemas use:

1. conversion;
2. presence (`required` / `optional`);
3. allowed values (`valid`, `allow`), which come before the type check;
4. the base type;
5. an object's listed keys, in schema order, then its unlisted keys;
6. the rules, in the order they were added.

Validation stops at the first error (`abortEarly`). The result is either the
validated value or that error, which carries its path, its Joi error code and
its custom message, if one is in force.

Each schema module writes its schema as a constant, in the same fluent style
as the source chain. Next to it is a hand-written predicate saying which
bodies are valid. A lemma proves that the schema accepts exactly those
bodies.

Two lemmas state the value the validator hands on:
- strict schemas return the body unchanged (`Joi.Check`);
- `addPaymentSchema` is not strict, so `data.amount` comes back converted to
  a number.

Three things the schemas rely on but whose code is not present are
parameters of type `Joi.Env`: Joi's `email()` check, Joi's conversion of a
numeric string to a number, and `isValidTimestamp`
(`functions/src/middleware/validator/schema/createMemberSchema.ts` is not
part of this model).

Modules: `Wrappers` (Option, Result), `Json` (request bodies), `Patterns`
(the two regular expressions), `FileExtension`, `Bodies` (field predicates
shared by the reference definitions), `Joi`, and one module per schema.

## Model

| member | source | states |
|---|---|---|
| FileExtension.Split | functions/src/utils/getFileExtension.ts:12 | `split('/')` always yields at least one piece; exactly one piece iff the string has no '/'; no piece contains '/' |
| FileExtension.JoinSplit | functions/src/utils/getFileExtension.ts:12 | joining the pieces with the separator gives back the original string |
| FileExtension.SplitJoin | functions/src/utils/getFileExtension.ts:12 | splitting a join of separator-free pieces gives back those pieces |
| FileExtension.ExtensionFromMimeType | functions/src/utils/getFileExtension.ts:7-20 | no '/' gives undefined; an extension returned is never empty and never contains '/' |
| FileExtension.ExtensionOfPieces | functions/src/utils/getFileExtension.ts:12-19 | for `a + "/" + b + c` with `a`, `b` slash-free and `c` empty or starting with '/', the result is `b`, or undefined when `b` is empty; the part before the first '/' and everything after the second piece are ignored |
| FileExtension.ExtensionIsSecondPiece | functions/src/utils/getFileExtension.ts:7-20 | no '/' gives undefined; any returned extension is non-empty, slash-free, and is exactly the piece between the first '/' and the next '/' or the end |
| FileExtension.ExtensionOfJpeg | functions/src/utils/getFileExtension.ts:4-5 | `"image/jpeg"` gives `"jpeg"`; `"jpeg"` gives undefined |
| FileExtension.ExtensionOfEmptyPiece | functions/src/utils/getFileExtension.ts:15-17 | `"image/"` and `"image//png"` give undefined |
| FileExtension.ExtensionIgnoresOuterPieces | functions/src/utils/getFileExtension.ts:12-13 | `"/png"` gives `"png"`; `"image/svg+xml/x"` gives `"svg+xml"` |
| Patterns.IsoDateTimeShape | functions/src/middleware/validator/schema/updateMemberSchema.ts:25-27 | the ISO pattern accepts exactly the 20- or 24-character strings with digits, `-`, `T`, `:`, optional `.ddd` and a final `Z` in the fixed positions; no digit range is checked |
| Patterns.IsoDateTimeExamples | functions/src/middleware/validator/schema/updateMemberSchema.ts:26-30 | the message's example `2024-11-15T00:00:00.000Z` and the impossible date `9999-99-99T99:99:99Z` match; a missing `Z`, a date alone, or two-digit milliseconds do not |
| Patterns.TenDigitsExamples | functions/src/middleware/validator/schema/updateMemberSchema.ts:16 | ten ASCII digits match; `+91…`, nine or eleven digits, or a space do not |
| Joi.Validate | functions/src/middleware/validator/schema/addPaymentSchema.ts:5-17 | a value that passes stays present or absent as given; every error's path extends the path of the value being validated |
| Joi.ValidateKeys | functions/src/middleware/validator/schema/addPaymentSchema.ts:6-16 | validating an object's keys keeps exactly its set of keys; any error lies below the object's path |
| Joi.RulesError | functions/src/middleware/validator/schema/updateMemberSchema.ts:5 | a value breaks none of the rules iff each rule on its own lets it through |
| Joi.KeysPass | functions/src/middleware/validator/schema/adminSchema.ts:12-19 | an object's listed keys pass together iff each listed key passes on its own |
| Joi.KeysFirstError | functions/src/middleware/validator/schema/deletePayment.ts:3-7 | the error reported for an object is the error of the first listed key that fails |
| Joi.NoConversionKeepsValue | functions/src/middleware/validator/schema/createPlanSchema.ts:15 | without conversion, a value that passes comes back unchanged, at any depth |
| Joi.Check | functions/src/middleware/validator/index.ts:11 | `schema.validate(body)` with Joi's defaults: an object schema without allowed values hands on an object, and a `strict()` schema hands on exactly the body it accepted |
| Joi.ObjectPasses | functions/src/middleware/validator/schema/addPaymentSchema.ts:6-10 | an object schema with `unknown(false)` passes a value iff it is an object, has only listed keys and every listed key passes, with the object's messages and strictness inherited |
| Joi.AcceptsObject | functions/src/middleware/validator/schema/adminSchema.ts:12-19 | the same at the top level of a request body |
| Joi.ObjectFirstError | functions/src/middleware/validator/schema/deletePayment.ts:3-12 | for an object body, the reported error is that of the first failing listed key, with the object's messages in force |
| Joi.KeysOutput | functions/src/middleware/validator/schema/addPaymentSchema.ts:5-17 | with distinct key names, the validated object holds each present key's validated value |
| Joi.ObjectKeysValue | functions/src/middleware/validator/schema/addPaymentSchema.ts:5-17 | with distinct key names and no unlisted key, the validated object is the map of the keys' validated values |
| Joi.StringPasses | functions/src/middleware/validator/schema/adminSchema.ts:13 | `Joi.string()` without `valid`: absent passes iff optional; present passes iff allowed, or a non-empty string breaking no rule |
| Joi.ValidValues | functions/src/middleware/validator/schema/addMemberSchema.ts:22 | `valid(...)` on a schema with no allowed values admits exactly the listed strings |
| Joi.EnumPasses | functions/src/middleware/validator/schema/addMemberSchema.ts:22 | `Joi.string().valid(...)`: a present value passes iff it is one of the listed values |
| Joi.NumberPasses | functions/src/middleware/validator/schema/createPlanSchema.ts:12 | `Joi.number()`: a present value passes iff, after conversion where allowed, it is a safe integer breaking no rule |
| Joi.AnyPasses | functions/src/middleware/validator/schema/addPaymentSchema.ts:13 | `Joi.custom(...)`: a present value passes iff the custom check holds |
| Joi.LeafKeepsValue | functions/src/middleware/validator/schema/addPaymentSchema.ts:13-15 | a string or custom schema hands back the value it was given |
| Joi.NumberValue | functions/src/middleware/validator/schema/addPaymentSchema.ts:14 | a number schema hands back the converted value |
| AdminSchema.CreateAdminAccepts | functions/src/middleware/validator/schema/adminSchema.ts:12-19 | a body is accepted iff its only keys are `name`, `email`, `phone`, `gender`, `gym_id`, `password`, all present as non-empty strings; `gender` has no enumeration, `email` and `phone` no format |
| AdminSchema.CreateAdminKeys | functions/src/middleware/validator/schema/adminSchema.ts:13-18 | each of the six keys passes iff it is a non-empty string |
| CreatePlanSchema.CreatePlanKeys | functions/src/middleware/validator/schema/createPlanSchema.ts:11-14 | `name` and `gym_id` pass iff non-empty strings; `price` and `months` pass iff safe numbers, of any sign |
| CreatePlanSchema.CreatePlanAccepts | functions/src/middleware/validator/schema/createPlanSchema.ts:10-15 | a body is accepted iff it has exactly those four valid fields and nothing else |
| CreatePlanSchema.CreatePlanKeepsBody | functions/src/middleware/validator/schema/createPlanSchema.ts:15 | strict: an accepted body is handed on unchanged, and a string `price` is refused |
| AddMemberSchema.AddMemberKey | functions/src/middleware/validator/schema/addMemberSchema.ts:20-32 | each listed key passes iff its field rule holds: `gender` and `trainingType` from two values, `paidAmount` any safe number, of any sign, `notes` optional, every other field a required non-empty string with no format |
| AddMemberSchema.AddMemberAccepts | functions/src/middleware/validator/schema/addMemberSchema.ts:19-33 | a body is accepted iff it has only the thirteen keys and every field rule holds |
| AddMemberSchema.AddMemberKeepsBody | functions/src/middleware/validator/schema/addMemberSchema.ts:33 | strict: an accepted body is handed on unchanged, and a string `paidAmount` is refused |
| UpdateMemberSchema.NamePasses | functions/src/middleware/validator/schema/updateMemberSchema.ts:5-9 | `name`, if present, is a string of 1 to 100 characters |
| UpdateMemberSchema.EmailPasses | functions/src/middleware/validator/schema/updateMemberSchema.ts:10-13 | `email`, if present, is a non-empty string passing the email check |
| UpdateMemberSchema.PhonePasses | functions/src/middleware/validator/schema/updateMemberSchema.ts:14-20 | `phone`, if present, is exactly ten ASCII digits |
| UpdateMemberSchema.GenderPasses | functions/src/middleware/validator/schema/updateMemberSchema.ts:21-24 | `gender`, if present, is `"male"` or `"female"` |
| UpdateMemberSchema.DobPasses | functions/src/middleware/validator/schema/updateMemberSchema.ts:25-31 | `dob`, if present, is a string of ISO date-time shape |
| UpdateMemberSchema.TrainingTypePasses | functions/src/middleware/validator/schema/updateMemberSchema.ts:36-39 | `trainingType`, if present, is `"general"` or `"personal"` |
| UpdateMemberSchema.AddressPasses | functions/src/middleware/validator/schema/updateMemberSchema.ts:40-43 | `address`, if present, is a non-empty string of at most 255 characters |
| UpdateMemberSchema.NotesPasses | functions/src/middleware/validator/schema/updateMemberSchema.ts:44-47 | `notes`, if present, is a string of at most 500 characters, `""` included |
| UpdateMemberSchema.UpdateMemberAccepts | functions/src/middleware/validator/schema/updateMemberSchema.ts:4-48 | a body is accepted iff it has only the eight listed keys, each present one valid; the empty object is accepted |
| UpdateMemberSchema.UpdateMemberKeepsBody | functions/src/middleware/validator/schema/updateMemberSchema.ts:32-35 | strict: an accepted body is handed on unchanged; `joinedAt`, commented out of the schema, is refused |
| UpdateMemberSchema.NameMinNeverReported | functions/src/middleware/validator/schema/updateMemberSchema.ts:5-7 | `""` for `name` fails with `string.empty` before `min(1)` runs, so the `string.min` message is never produced |
| UpdateMemberSchema.GenderTypeNeverReported | functions/src/middleware/validator/schema/updateMemberSchema.ts:21-24 | `valid` comes before the type check, so every `gender` or `trainingType` error is `any.only` with its custom message, never `string.base` |
| UpdateMemberSchema.DobError | functions/src/middleware/validator/schema/updateMemberSchema.ts:25-31 | a non-empty `dob` not of ISO shape fails with `string.pattern.name` and the message keyed on that code, if any |
| UpdateMemberSchema.DobMismatchMessage | functions/src/middleware/validator/schema/updateMemberSchema.ts:25-31 | as written: `{"dob": "15-11-2024"}` fails with `string.pattern.name` and no custom message |
| UpdateMemberSchema.DobMismatchMessageIntended | functions/src/middleware/validator/schema/updateMemberSchema.ts:25-31 | corrected (message keyed on `string.pattern.name`): the same body carries the ISO-format message, and both schemas accept exactly the same bodies |
| AddPaymentSchema.MetaPasses | functions/src/middleware/validator/schema/addPaymentSchema.ts:6-10 | `meta` passes iff present and an object with only `gymId`, `userId`, `planId`, each a non-empty string |
| AddPaymentSchema.MetaKeyRules | functions/src/middleware/validator/schema/addPaymentSchema.ts:7-9 | each of `gymId`, `userId`, `planId` passes iff it is a non-empty string |
| AddPaymentSchema.DataKeyRules | functions/src/middleware/validator/schema/addPaymentSchema.ts:13-15 | `date` passes iff present and `isValidTimestamp` holds; `amount` iff it is, or converts to, a safe number greater than 0; `addedBy` iff a non-empty string |
| AddPaymentSchema.DataPasses | functions/src/middleware/validator/schema/addPaymentSchema.ts:12-16 | `data` passes iff present and an object with only `date`, `amount`, `addedBy`, each valid |
| AddPaymentSchema.AddPaymentAccepts | functions/src/middleware/validator/schema/addPaymentSchema.ts:5-17 | a body is accepted iff its only keys are `meta` and `data`, both present and valid; an amount of 0 or below is refused |
| AddPaymentSchema.MetaValue | functions/src/middleware/validator/schema/addPaymentSchema.ts:6-10 | a valid `meta` comes back as sent |
| AddPaymentSchema.DataValue | functions/src/middleware/validator/schema/addPaymentSchema.ts:12-16 | a valid `data` comes back as sent, except that `amount` is the number it stands for |
| AddPaymentSchema.AddPaymentValue | functions/src/middleware/validator/schema/addPaymentSchema.ts:5-17 | not strict: an accepted body comes back as sent, except that `data.amount` is the number Joi's conversion gives for it |
| AddPaymentSchema.AddPaymentStringAmount | functions/src/middleware/validator/schema/addPaymentSchema.ts:14 | when Joi's conversion turns `"500"` into 500, a body with `"amount": "500"` is accepted and handed on with `amount` the number 500 |
| DeletePaymentSchema.DeletePaymentKey | functions/src/middleware/validator/schema/deletePayment.ts:4-11 | each id passes iff it is a non-empty string; otherwise the error is `any.required`, `string.base` or `string.empty`, with the object's custom message for that code |
| DeletePaymentSchema.DeletePaymentAccepts | functions/src/middleware/validator/schema/deletePayment.ts:3-8 | a body is accepted iff it has exactly the four ids as non-empty strings; other keys are refused, as Joi's default |
| DeletePaymentSchema.DeletePaymentFirstError | functions/src/middleware/validator/schema/deletePayment.ts:3-12 | the first failing id, in schema order, determines the error and its custom message |

## Left out

- The payment-ledger engine and the `createPlan` and `addMember` controllers. `adminController.ts` as shown holds only `createAdmin`, so this code is not part of this model.
- `updateProfileImage.ts`: a storage upload, a random token and URL building around the extension helper. These are foreign I/O calls.
- `dateTimeFns.ts`: a wrapper over date-fns and Firestore timestamps, whose code is not present.
- `adminController.ts` and `verifyAdmin.ts`: Firebase Auth and Firestore calls.
- `validator/index.ts`: Express glue. It answers 400 with the error, or copies the validated value onto the request and calls `next()`. The model stops at `Joi.Check`'s result.
- Numbers are integers. Joi's floating-point numbers, fractions, `Infinity` and `NaN` are not modelled. `number.unsafe` is modelled as "outside ±(2^53 − 1)".
- String lengths count Dafny characters. JavaScript counts UTF-16 code units, so the two differ outside the Basic Multilingual Plane.
- Joi's `email()` check, Joi's conversion of a numeric string to a number, and `isValidTimestamp` are parameters (`Joi.Env`). Their code is not present.
- Joi.LeafKeepsValue: assumes that `isValidTimestamp` hands back the value it checks, as a custom check that returns its input does. A custom check that rewrites the value is not modelled.
- AddPaymentSchema.AddPaymentValue: for that reason it states `data.date` is handed on exactly as sent.
- Joi's default error messages and the rendering of `{{#label}}` templates. An error carries only a custom message, unrendered, when one is in force.
- For an unlisted key, the error path is the object's path, not the path of the offending key.
- Only the first error is reported (`abortEarly`, Joi's default). Gathering all errors is not modelled.
- The top-level body is always a JSON value. A missing request body (`undefined`) is not modelled.
- Joi schema features these files do not use are not modelled.

## Findings

| source | as written | input that shows it | evidently intended | confidence | as-written member | corrected member |
|---|---|---|---|---|---|---|
| functions/src/middleware/validator/schema/updateMemberSchema.ts:25-31 | the `dob` pattern is given a name (`'ISO 8601 date format'`), so a mismatch raises `string.pattern.name`, and the custom message is keyed on `string.pattern.base` | body `{"dob": "15-11-2024"}` is refused with Joi's default message, not "Date of birth must be in ISO format …" | the ISO-format message is shown for a malformed `dob` | not executed; follows Joi 17's documented error codes | UpdateMemberSchema.DobMismatchMessage | UpdateMemberSchema.DobMismatchMessageIntended |
