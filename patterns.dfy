/**
 * The two regular expressions of the member-update schema, written out as
 * predicates over character positions.
 */
module Patterns {

  /** `[0-9]` and, without the `u` flag, JavaScript's `\d`. */
  predicate IsDigit(c: char)
  {
    '0' <= c <= '9'
  }

  /** `/^[0-9]{10}$/`: exactly ten ASCII digits and nothing else. */
  predicate TenDigits(s: string)
  {
    |s| == 10 && forall i :: 0 <= i < |s| ==> IsDigit(s[i])
  }

  /** One position of a fixed-length shape: any digit, or one literal character. */
  datatype Sym = Digit | Lit(c: char)

  predicate SymMatches(sym: Sym, c: char)
  {
    match sym
    case Digit => IsDigit(c)
    case Lit(l) => c == l
  }

  /** `s` has exactly the length of `shape` and each character fits its position. */
  predicate Fits(s: string, shape: seq<Sym>)
  {
    |s| == |shape| && forall i :: 0 <= i < |s| ==> SymMatches(shape[i], s[i])
  }

  /** `\d{4}-\d{2}-\d{2}T\d{2}:\d{2}:\d{2}`, the part every ISO date-time shares. */
  const DateTime: seq<Sym> :=
    [Digit, Digit, Digit, Digit, Lit('-'), Digit, Digit, Lit('-'), Digit, Digit,
     Lit('T'), Digit, Digit, Lit(':'), Digit, Digit, Lit(':'), Digit, Digit]

  /** `(\.\d{3})`, the optional milliseconds. */
  const Millis: seq<Sym> := [Lit('.'), Digit, Digit, Digit]

  /** `/^\d{4}-\d{2}-\d{2}T\d{2}:\d{2}:\d{2}(\.\d{3})?Z$/` */
  predicate IsoDateTime(s: string)
  {
    Fits(s, DateTime + [Lit('Z')]) || Fits(s, DateTime + Millis + [Lit('Z')])
  }

  /** The positions the ISO pattern fixes: 20 or 24 characters ending in `Z`. */
  predicate IsoPositions(s: string)
  {
    (|s| == 20 || |s| == 24) && s[|s| - 1] == 'Z' &&
    s[4] == '-' && s[7] == '-' && s[10] == 'T' && s[13] == ':' && s[16] == ':' &&
    (forall i :: i in {0, 1, 2, 3, 5, 6, 8, 9, 11, 12, 14, 15, 17, 18} ==> IsDigit(s[i])) &&
    (|s| == 24 ==> s[19] == '.' && IsDigit(s[20]) && IsDigit(s[21]) && IsDigit(s[22]))
  }

  /** What the ISO pattern accepts, position by position. */
  lemma IsoDateTimeShape(s: string)
    ensures IsoDateTime(s) <==> IsoPositions(s)
  {
    if IsoPositions(s) {
      PositionsFit(s);
    }
    if IsoDateTime(s) {
      FitPositions(s);
    }
  }

  lemma PositionsFit(s: string)
    requires IsoPositions(s)
    ensures IsoDateTime(s)
  {
    if |s| == 20 {
      var shape := DateTime + [Lit('Z')];
      forall i | 0 <= i < |s| ensures SymMatches(shape[i], s[i]) {
        assert i in {0, 1, 2, 3, 5, 6, 8, 9, 11, 12, 14, 15, 17, 18} || i in {4, 7, 10, 13, 16, 19};
      }
      assert Fits(s, shape);
    } else {
      var shape := DateTime + Millis + [Lit('Z')];
      forall i | 0 <= i < |s| ensures SymMatches(shape[i], s[i]) {
        assert i in {0, 1, 2, 3, 5, 6, 8, 9, 11, 12, 14, 15, 17, 18} || i in {4, 7, 10, 13, 16, 19, 20, 21, 22, 23};
      }
      assert Fits(s, shape);
    }
  }

  lemma FitPositions(s: string)
    requires IsoDateTime(s)
    ensures IsoPositions(s)
  {
    var shape := if Fits(s, DateTime + [Lit('Z')]) then DateTime + [Lit('Z')] else DateTime + Millis + [Lit('Z')];
    assert Fits(s, shape);
    forall i | i in {0, 1, 2, 3, 5, 6, 8, 9, 11, 12, 14, 15, 17, 18} ensures IsDigit(s[i]) {
      assert SymMatches(shape[i], s[i]);
    }
    assert SymMatches(shape[4], s[4]) && SymMatches(shape[7], s[7]) && SymMatches(shape[10], s[10]);
    assert SymMatches(shape[13], s[13]) && SymMatches(shape[16], s[16]);
    assert SymMatches(shape[|s| - 1], s[|s| - 1]);
    if |s| == 24 {
      assert SymMatches(shape[19], s[19]) && SymMatches(shape[20], s[20]);
      assert SymMatches(shape[21], s[21]) && SymMatches(shape[22], s[22]);
    }
  }

  /** The example the schema's message gives is accepted, and so are digits no calendar has: the pattern checks shape only. */
  lemma IsoDateTimeExamples()
    ensures IsoDateTime("2024-11-15T00:00:00.000Z")
    ensures IsoDateTime("9999-99-99T99:99:99Z")
    ensures !IsoDateTime("2024-11-15T00:00:00.000")
    ensures !IsoDateTime("2024-11-15")
    ensures !IsoDateTime("2024-11-15T00:00:00.00Z")
  {
    IsoDateTimeShape("2024-11-15T00:00:00.000Z");
    IsoDateTimeShape("9999-99-99T99:99:99Z");
    IsoDateTimeShape("2024-11-15T00:00:00.000");
    IsoDateTimeShape("2024-11-15T00:00:00.00Z");
  }

  /** The phone pattern: ten characters, every one an ASCII digit; “+91…”, nine or eleven digits fail. */
  lemma TenDigitsExamples()
    ensures TenDigits("9876543210")
    ensures !TenDigits("+919876543210")
    ensures !TenDigits("987654321")
    ensures !TenDigits("98765432100")
    ensures !TenDigits("98765 4321")
  {
    assert "+919876543210"[0] == '+';
    assert "98765 4321"[5] == ' ';
  }
}
