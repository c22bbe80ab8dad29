/** Vocabulary shared by every table of the tutoring-centre back end: row ids,
    dates, money, optional request fields, the errors an operation reports, and
    the few string facts (PHP `trim`, SQL `LIKE '%x%'`, decimal text) that the
    models and controllers rely on. */
module Common {

  /** The auto-increment primary key of a row. */
  type Id = nat

  /** A calendar date (`date` column), as a day number. */
  type Date = nat

  /** A `decimal(10,2)` amount, in cents. */
  type Cents = int

  /** A request field: `None` is both "key absent" and "null", which is how
      PHP's `isset` and `??` treat them. */
  datatype Option<T> = None | Some(value: T) {
    /** PHP `$datos[k] ?? default`. */
    function GetOr(default: T): T {
      if Some? then value else default
    }
  }

  /** What an operation reports when it throws instead of returning. */
  datatype Error =
    | Invalid                 // the Laravel validator rejected the request data
    | NotFound                // "... no encontrada" on an unknown id
    | AlreadyExists           // an explicit duplicate check in the model
    | NotAbsent               // a license for an attendance that is not `ausente`
    | AlreadyLicensed         // the attendance already has a license
    | HasReprogrammings       // a license still referenced by reprogrammings
    | NotPending              // approve/reject of a license that is not `pendiente`
    | InvalidState            // `cambiarEstado` with a state outside activo/inactivo
    | AlreadyAssigned         // the tutor/schedule pair already exists
    | AssignmentNotFound      // deleting a tutor/schedule pair that does not exist
    | ConstraintViolation     // the database refuses the write (unique, foreign key, check)
    | MissingField            // an undefined array key PHP raises on, or a null for a NOT NULL column
    | UndefinedMethod         // PHP BadMethodCallException
    | GatewayFailed(message: string)
    | CodesExhausted          // the random draws given to the code generator all collided

  datatype Result<T> = Ok(value: T) | Err(error: Error)

  /** The characters PHP's `trim` strips by default. */
  predicate IsPhpSpace(c: char) {
    c == ' ' || c == '\t' || c == '\n' || c == '\r' || c == '\0' || c == '\U{000B}'
  }

  /** `trim($s) === ''`: Laravel's `required` rule refuses such strings. */
  predicate IsPhpBlank(s: string) {
    forall i :: 0 <= i < |s| ==> IsPhpSpace(s[i])
  }

  /** Laravel `required|string` on an optional string field. */
  predicate RequiredText(s: Option<string>) {
    s.Some? && !IsPhpBlank(s.value)
  }

  /** `sub` occurs in `s` at position `i`. */
  predicate OccursAt(s: string, sub: string, i: nat) {
    i + |sub| <= |s| && s[i..i + |sub|] == sub
  }

  /** SQL `s LIKE '%sub%'` for a `sub` without wildcards. */
  predicate Contains(s: string, sub: string) {
    exists i | 0 <= i <= |s| - |sub| :: OccursAt(s, sub, i)
  }

  /** The character of a decimal digit. */
  function DigitChar(d: nat): (c: char)
    requires d < 10
    ensures '0' <= c <= '9'
  {
    ('0' as int + d) as char
  }

  /** The value of a decimal digit character. */
  function DigitValue(c: char): (d: nat)
    requires '0' <= c <= '9'
    ensures d < 10 && DigitChar(d) == c
  {
    c as int - '0' as int
  }

  predicate IsDigit(c: char) {
    '0' <= c <= '9'
  }

  predicate AllDigits(s: string) {
    forall i :: 0 <= i < |s| ==> IsDigit(s[i])
  }

  /** The decimal text of a natural number, as PHP and JavaScript print it. */
  function NatText(n: nat): (s: string)
    ensures |s| > 0 && AllDigits(s)
    ensures (s[0] == '0') == (n == 0)
  {
    if n < 10 then [DigitChar(n)] else NatText(n / 10) + [DigitChar(n % 10)]
  }

  /** The value of a string of decimal digits. */
  function DigitsValue(s: string): nat
    requires AllDigits(s)
  {
    if s == [] then 0 else DigitsValue(s[..|s| - 1]) * 10 + DigitValue(s[|s| - 1])
  }

  /** Reading back the decimal text of `n` gives `n`. */
  lemma {:induction false} NatTextRoundTrip(n: nat)
    ensures DigitsValue(NatText(n)) == n
  {
    if n >= 10 {
      var s := NatText(n);
      assert s[..|s| - 1] == NatText(n / 10);
      NatTextRoundTrip(n / 10);
    }
  }

  /** The decimal text of an integer (string interpolation of an int). */
  function IntText(i: int): (s: string)
    ensures |s| > 0
    ensures (s[0] == '-') == (i < 0)
  {
    if i < 0 then "-" + NatText(-i) else NatText(i)
  }
}
