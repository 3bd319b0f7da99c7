/** Plain statements about the fields of a request body, used to state what each schema accepts. */
module Bodies {
  import opened Json

  /** A non-empty string (Joi's `string()` refuses `""` unless it is explicitly allowed). */
  predicate IsText(v: Value)
  {
    v.JStr? && v.s != ""
  }

  /** A number inside JavaScript's safe-integer range. */
  predicate IsSafeNumber(v: Value)
  {
    v.JNum? && IsSafe(v.n)
  }

  predicate HasText(f: map<string, Value>, key: string)
  {
    key in f && IsText(f[key])
  }

  predicate HasSafeNumber(f: map<string, Value>, key: string)
  {
    key in f && IsSafeNumber(f[key])
  }

  /** Present and a string that is one of `values`. */
  predicate HasOneOf(f: map<string, Value>, key: string, values: set<string>)
  {
    key in f && f[key].JStr? && f[key].s in values
  }
}
