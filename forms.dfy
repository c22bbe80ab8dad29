/** The front end's form validation (`useFormValidation`): rules that map a
    field value to an error message or to nothing, a per-field check that
    records the first failing rule's message, a whole-form check, and the
    merge of the error messages the back end returns. */
module Forms {
  import opened Common

  /** A JavaScript value as a form field or a back-end error holds it.
      Numbers are integers. */
  datatype JsValue = Undefined | Null | Bool(b: bool) | Num(n: int) | Str(s: string) | Arr(items: seq<JsValue>)

  /** `!value` in JavaScript. */
  predicate Falsy(v: JsValue) {
    v == Undefined || v == Null || v == Bool(false) || v == Num(0) || v == Str("")
  }

  /** The characters JavaScript's `trim` strips and the regular-expression
      class `\s` matches. */
  predicate IsJsSpace(c: char) {
    || c == '\t' || c == '\n' || c == '\U{000B}' || c == '\U{000C}' || c == '\r' || c == ' '
    || c == '\U{00A0}' || c == '\U{1680}' || ('\U{2000}' <= c <= '\U{200A}')
    || c == '\U{2028}' || c == '\U{2029}' || c == '\U{202F}' || c == '\U{205F}'
    || c == '\U{3000}' || c == '\U{FEFF}'
  }

  /** `s.trim() === ''`. */
  predicate IsJsBlank(s: string) {
    forall i :: 0 <= i < |s| ==> IsJsSpace(s[i])
  }

  /** The text `String(v)` and `v.toString()` give for the values that reach
      the string rules. */
  function ToText(v: JsValue): string
    decreases v, 1
  {
    match v
    case Undefined => "undefined"
    case Null => "null"
    case Bool(b) => if b then "true" else "false"
    case Num(n) => IntText(n)
    case Str(s) => s
    case Arr(items) => Join(v, items)
  }

  /** `Array.prototype.join(',')`: `null` and `undefined` print as nothing. */
  function Join(whole: JsValue, items: seq<JsValue>): string
    requires whole.Arr? && items <= whole.items
    decreases whole, 0, |items|
  {
    if items == [] then ""
    else
      var last := items[|items| - 1];
      assert last in whole.items;
      var t := if last == Undefined || last == Null then "" else ToText(last);
      if |items| == 1 then t else Join(whole, items[..|items| - 1]) + "," + t
  }

  /** `.length`: UTF-16 code units, two for a character outside the basic
      plane. */
  function Utf16Length(s: string): (n: nat)
    ensures |s| <= n <= 2 * |s|
  {
    if s == [] then 0 else Utf16Length(s[..|s| - 1]) + (if s[|s| - 1] as int >= 0x10000 then 2 else 1)
  }

  /** `Number(s)` for a string: surrounding white space is ignored, the
      empty text is 0, an optionally signed run of decimal digits is its
      value, and anything else is `NaN` (`None`). */
  function TextNumber(s: string): Option<int> {
    var t := Trim(s);
    if t == [] then Some(0)
    else if t[0] == '-' && |t| > 1 && AllDigits(t[1..]) then Some(-(DigitsValue(t[1..]) as int))
    else if t[0] == '+' && |t| > 1 && AllDigits(t[1..]) then Some(DigitsValue(t[1..]))
    else if AllDigits(t) then Some(DigitsValue(t))
    else None
  }

  /** `s.trim()`. */
  function Trim(s: string): (t: string)
    ensures |t| <= |s|
    ensures t != [] ==> !IsJsSpace(t[0]) && !IsJsSpace(t[|t| - 1])
  {
    if s == [] then s
    else if IsJsSpace(s[0]) then Trim(s[1..])
    else if IsJsSpace(s[|s| - 1]) then Trim(s[..|s| - 1])
    else s
  }

  /** `Number(v)`; `None` is `NaN`. */
  function JsNumber(v: JsValue): Option<int> {
    match v
    case Undefined => None
    case Null => Some(0)
    case Bool(b) => Some(if b then 1 else 0)
    case Num(n) => Some(n)
    case Str(s) => TextNumber(s)
    case Arr(_) => TextNumber(ToText(v))
  }

  // ----- character classes of the rules' regular expressions -----

  predicate IsAccented(c: char) {
    c in {'á', 'é', 'í', 'ó', 'ú', 'Á', 'É', 'Í', 'Ó', 'Ú', 'ñ', 'Ñ'}
  }

  /** `[a-zA-ZáéíóúÁÉÍÓÚñÑ\s]`. */
  predicate IsLetterOrSpace(c: char) {
    ('a' <= c <= 'z') || ('A' <= c <= 'Z') || IsAccented(c) || IsJsSpace(c)
  }

  /** `[a-zA-ZáéíóúÁÉÍÓÚñÑ0-9\s]`. */
  predicate IsWordOrSpace(c: char) {
    IsLetterOrSpace(c) || IsDigit(c)
  }

  /** `[a-zA-Z0-9áéíóúÁÉÍÓÚñÑ]`: letters and digits without white space. */
  predicate IsLetterOrDigit(c: char) {
    ('a' <= c <= 'z') || ('A' <= c <= 'Z') || IsAccented(c) || IsDigit(c)
  }

  /** `^[class]+$`: a non-empty text made only of the class. */
  predicate OnlyWordOrSpace(s: string) {
    |s| > 0 && forall i :: 0 <= i < |s| ==> IsWordOrSpace(s[i])
  }

  predicate OnlyLetterOrSpace(s: string) {
    |s| > 0 && forall i :: 0 <= i < |s| ==> IsLetterOrSpace(s[i])
  }

  predicate OnlyLetterOrDigit(s: string) {
    |s| > 0 && forall i :: 0 <= i < |s| ==> IsLetterOrDigit(s[i])
  }

  /** `^\d+$`. */
  predicate OnlyDigits(s: string) {
    |s| > 0 && AllDigits(s)
  }

  /** `[^\s@]+`. */
  predicate EmailPart(s: string) {
    |s| > 0 && forall i :: 0 <= i < |s| ==> !IsJsSpace(s[i]) && s[i] != '@'
  }

  /** `^[^\s@]+@[^\s@]+\.[^\s@]+$`: a local part, one `@`, and a domain
      with a dot that is neither its first nor its last character. */
  predicate EmailShape(s: string) {
    exists at, dot | 0 < at < dot < |s| - 1 ::
      && s[at] == '@' && s[dot] == '.' && at + 1 < dot
      && EmailPart(s[..at]) && EmailPart(s[at + 1..dot]) && EmailPart(s[dot + 1..])
  }

  // ----- rules -----

  /** The rules of `rules`. `Custom` carries the predicate and the message
      template of `rules.custom`. */
  datatype Rule =
    | Required
    | StringRule
    | Integer
    | Numeric
    | MinLength(min: nat)
    | MaxLength(max: nat)
    | NoSpecialChars
    | OnlyLetters
    | OnlyNumbers
    | Alphanumeric
    | Email
    | Min(minValue: int)
    | Max(maxValue: int)
    | Custom(accepts: JsValue -> bool, template: string)

  /** `errorMessage.replace('{field}', fieldName)`: the first occurrence
      only. */
  function ReplaceField(template: string, field: string): (r: string)
    ensures !Contains(template, "{field}") ==> r == template
  {
    if |template| < 7 then template
    else if template[..7] == "{field}" then
      assert OccursAt(template, "{field}", 0);
      field + template[7..]
    else
      var rest := ReplaceField(template[1..], field);
      assert !Contains(template, "{field}") ==> !Contains(template[1..], "{field}") by {
        if Contains(template[1..], "{field}") {
          var i :| 0 <= i <= |template[1..]| - 7 && OccursAt(template[1..], "{field}", i);
          assert template[i + 1..i + 8] == template[1..][i..i + 7];
          assert OccursAt(template, "{field}", i + 1);
        }
      }
      [template[0]] + rest
  }

  /** "Falsy and not the number 0": the numeric rules skip such values. */
  predicate SkipsNumeric(v: JsValue) {
    Falsy(v) && v != Num(0)
  }

  /** A built-in rule's message: "El campo", the field's name, and what is
      wrong with it. */
  function Message(field: string, complaint: string): (m: string)
    ensures |m| == 9 + |field| + |complaint|
    ensures m[..9 + |field|] == "El campo " + field
  {
    "El campo " + field + complaint
  }

  /** What one rule returns for a value: a message, or nothing. Every rule
      but `required` lets an empty value through (the numeric ones still
      look at 0), and every built-in message opens with the field's name. */
  function Check(rule: Rule, v: JsValue, field: string): (r: Option<string>)
    ensures rule != Required && SkipsNumeric(v) ==> r.None?
    ensures rule.Required? ==> (r.None? <==> !Falsy(v) && !(v.Str? && IsJsBlank(v.s)))
    ensures r.Some? && !rule.Custom? ==> |r.value| >= 9 + |field| && r.value[..9 + |field|] == "El campo " + field
  {
    match rule
    case Required =>
      if Falsy(v) || (v.Str? && IsJsBlank(v.s)) then Some(Message(field, " es obligatorio")) else None
    case StringRule =>
      if !Falsy(v) && !v.Str? then Some(Message(field, " debe ser texto")) else None
    case Integer =>
      if !SkipsNumeric(v) && JsNumber(v).None? then Some(Message(field, " debe ser un número entero")) else None
    case Numeric =>
      if !SkipsNumeric(v) && JsNumber(v).None? then Some(Message(field, " debe ser un número")) else None
    case MinLength(min) =>
      if !Falsy(v) && Utf16Length(ToText(v)) < min
      then Some(Message(field, " debe tener al menos " + NatText(min) + " caracteres")) else None
    case MaxLength(max) =>
      if !Falsy(v) && Utf16Length(ToText(v)) > max
      then Some(Message(field, " no puede exceder " + NatText(max) + " caracteres")) else None
    case NoSpecialChars =>
      if !Falsy(v) && !OnlyWordOrSpace(ToText(v)) then Some(Message(field, " no debe contener caracteres especiales")) else None
    case OnlyLetters =>
      if !Falsy(v) && !OnlyLetterOrSpace(ToText(v)) then Some(Message(field, " solo debe contener letras")) else None
    case OnlyNumbers =>
      if !Falsy(v) && !OnlyDigits(ToText(v)) then Some(Message(field, " solo debe contener números")) else None
    case Alphanumeric =>
      // the class as written includes `\s`; see `AlphanumericDocumented`
      if !Falsy(v) && !OnlyWordOrSpace(ToText(v)) then Some(Message(field, " solo debe contener letras y números")) else None
    case Email =>
      if !Falsy(v) && !EmailShape(ToText(v)) then Some(Message(field, " debe ser un correo electrónico válido")) else None
    case Min(m) =>
      if !SkipsNumeric(v) && JsNumber(v).Some? && JsNumber(v).value < m
      then Some(Message(field, " debe ser mayor o igual a " + IntText(m))) else None
    case Max(m) =>
      if !SkipsNumeric(v) && JsNumber(v).Some? && JsNumber(v).value > m
      then Some(Message(field, " debe ser menor o igual a " + IntText(m))) else None
    case Custom(accepts, template) =>
      if !Falsy(v) && !accepts(v) then Some(ReplaceField(template, field)) else None
  }

  /** `rules.alphanumeric` as documented ("sin espacios"): letters and
      digits only. The rule set runs the class as written instead. */
  function AlphanumericDocumented(v: JsValue, field: string): Option<string> {
    if !Falsy(v) && !OnlyLetterOrDigit(ToText(v)) then Some("El campo " + field + " solo debe contener letras y números") else None
  }

  /** As written, `alphanumeric` accepts exactly what `noSpecialChars`
      accepts, spaces included. */
  lemma AlphanumericAsWrittenIsNoSpecialChars(v: JsValue, field: string)
    ensures Check(Alphanumeric, v, field).None? <==> Check(NoSpecialChars, v, field).None?
    ensures Check(Alphanumeric, Str("ab 12"), field).None?
  {
    assert OnlyWordOrSpace("ab 12") by {
      var s := "ab 12";
      assert IsWordOrSpace(s[0]) && IsWordOrSpace(s[1]) && IsWordOrSpace(s[2]) && IsWordOrSpace(s[3]) && IsWordOrSpace(s[4]);
    }
  }

  /** No white-space character is a letter or a digit. */
  lemma SpaceIsNoLetterOrDigit(c: char)
    ensures IsJsSpace(c) ==> !IsLetterOrDigit(c)
  {
  }

  /** The rule as documented refuses any white space and accepts letters
      and digits; whatever it accepts, the rule as written accepts too. */
  lemma AlphanumericRefusesSpaces(v: JsValue, field: string)
    ensures !Falsy(v) && (exists i :: 0 <= i < |ToText(v)| && IsJsSpace(ToText(v)[i])) ==> AlphanumericDocumented(v, field).Some?
    ensures AlphanumericDocumented(Str("ab 12"), field).Some?
    ensures AlphanumericDocumented(Str("ab12"), field).None?
    ensures AlphanumericDocumented(v, field).None? ==> Check(Alphanumeric, v, field).None?
  {
    if !Falsy(v) && (exists i :: 0 <= i < |ToText(v)| && IsJsSpace(ToText(v)[i])) {
      var i :| 0 <= i < |ToText(v)| && IsJsSpace(ToText(v)[i]);
      SpaceIsNoLetterOrDigit(ToText(v)[i]);
    }
    SpaceIsNoLetterOrDigit("ab 12"[2]);
    assert OnlyLetterOrDigit("ab12") by {
      var s := "ab12";
      assert IsLetterOrDigit(s[0]) && IsLetterOrDigit(s[1]) && IsLetterOrDigit(s[2]) && IsLetterOrDigit(s[3]);
    }
  }

  /** `required` fails exactly on falsy values and blank strings. */
  lemma RequiredFailsOnEmpty(v: JsValue, field: string)
    ensures Check(Required, v, field).Some? <==> Falsy(v) || (v.Str? && IsJsBlank(v.s))
    ensures Check(Required, Str(" \t"), field).Some? && Check(Required, Num(0), field).Some?
    ensures Check(Required, Str("a"), field).None?
  {
    assert !IsJsBlank("a") by { assert !IsJsSpace("a"[0]); }
  }

  /** `string` passes empty values and strings; `integer` and `numeric`
      pass empty values other than 0 and whatever `Number()` reads. */
  lemma TypeRulesAccept(v: JsValue, field: string)
    ensures Check(StringRule, v, field).None? <==> Falsy(v) || v.Str?
    ensures Check(Integer, v, field).None? <==> SkipsNumeric(v) || JsNumber(v).Some?
    ensures Check(Numeric, v, field).None? <==> SkipsNumeric(v) || JsNumber(v).Some?
  {
  }

  /** `noSpecialChars` passes letters, digits and white space, and
      `onlyLetters` letters and white space (empty values pass both). */
  lemma CharacterRulesAccept(v: JsValue, field: string)
    ensures Check(NoSpecialChars, v, field).None? <==> Falsy(v) || OnlyWordOrSpace(ToText(v))
    ensures Check(OnlyLetters, v, field).None? <==> Falsy(v) || OnlyLetterOrSpace(ToText(v))
  {
  }

  /** `min` and `max` pass empty values other than 0, values `Number()`
      cannot read, and numbers on the right side of the bound. */
  lemma RangeRulesAccept(v: JsValue, m: int, field: string)
    ensures Check(Min(m), v, field).None? <==> SkipsNumeric(v) || JsNumber(v).None? || JsNumber(v).value >= m
    ensures Check(Max(m), v, field).None? <==> SkipsNumeric(v) || JsNumber(v).None? || JsNumber(v).value <= m
  {
  }

  /** `custom` passes empty values and whatever its predicate accepts, and
      otherwise reports its template with the field's name put in. */
  lemma CustomRuleAccepts(v: JsValue, accepts: JsValue -> bool, template: string, field: string)
    ensures Check(Custom(accepts, template), v, field).None? <==> Falsy(v) || accepts(v)
    ensures Check(Custom(accepts, template), v, field).Some? ==>
              Check(Custom(accepts, template), v, field).value == ReplaceField(template, field)
  {
  }

  /** A text `Number()` cannot read fails `integer` but passes `min`: the
      range rules do not check that the value is a number. */
  lemma RangeRulesPassText(field: string)
    ensures Check(Integer, Str("abc"), field).Some?
    ensures Check(Min(1), Str("abc"), field).None?
  {
    var s := "abc";
    assert Trim(s) == s by {
      assert !IsJsSpace(s[0]) && !IsJsSpace(s[|s| - 1]);
    }
    assert !AllDigits(s) by {
      assert !IsDigit(s[0]);
    }
    assert TextNumber(s) == None;
  }

  /** `minLength` and `maxLength` pass on empty values and otherwise compare
      the length of the text. */
  lemma LengthRules(v: JsValue, n: nat, field: string)
    ensures Check(MinLength(n), v, field).None? <==> Falsy(v) || Utf16Length(ToText(v)) >= n
    ensures Check(MaxLength(n), v, field).None? <==> Falsy(v) || Utf16Length(ToText(v)) <= n
    ensures Check(MinLength(3), Str("ab"), field).Some? && Check(MaxLength(1), Str("ab"), field).Some?
  {
    assert Utf16Length("ab") == 2 by {
      assert "ab"[..1] == "a";
      assert "a"[..0] == "";
    }
  }

  /** `onlyNumbers` accepts exactly the empty text and the non-empty texts
      of decimal digits. */
  lemma OnlyNumbersAcceptsDigits(s: string, field: string)
    ensures Check(OnlyNumbers, Str(s), field).None? <==> s == "" || AllDigits(s)
  {
  }

  /** An address of the form local@domain.tld, none of whose parts has white
      space or `@`, is accepted by `email`. */
  lemma EmailAcceptsAddress(local: string, domain: string, tld: string, field: string)
    requires EmailPart(local) && EmailPart(domain) && EmailPart(tld)
    requires forall i :: 0 <= i < |domain| ==> domain[i] != '.'
    ensures Check(Email, Str(local + "@" + domain + "." + tld), field).None?
  {
    var s := local + "@" + domain + "." + tld;
    var at, dot := |local|, |local| + 1 + |domain|;
    assert s[..at] == local && s[at + 1..dot] == domain && s[dot + 1..] == tld;
    assert s[at] == '@' && s[dot] == '.';
  }

  /** Every text `email` accepts has one `@`, no white space, and a dot
      after the `@` that is followed by something. */
  lemma EmailAcceptedHasShape(s: string)
    requires EmailShape(s)
    ensures forall i :: 0 <= i < |s| ==> !IsJsSpace(s[i])
    ensures exists at :: 0 < at < |s| && s[at] == '@' && forall i :: 0 <= i < |s| && i != at ==> s[i] != '@'
    ensures exists at, dot :: 0 < at && at + 1 < dot < |s| - 1 && s[at] == '@' && s[dot] == '.'
  {
    var at, dot :| 0 < at < dot < |s| - 1 && s[at] == '@' && s[dot] == '.' && at + 1 < dot
                   && EmailPart(s[..at]) && EmailPart(s[at + 1..dot]) && EmailPart(s[dot + 1..]);
    forall i | 0 <= i < |s|
      ensures !IsJsSpace(s[i]) && (i != at && i != dot ==> s[i] != '@')
    {
      if i < at {
        assert s[i] == s[..at][i];
      } else if at < i < dot {
        assert s[i] == s[at + 1..dot][i - at - 1];
      } else if dot < i {
        assert s[i] == s[dot + 1..][i - dot - 1];
      }
    }
  }

  // ----- validateField -----

  /** A rule's answer counts as a failure only when it is a non-empty
      message (`if (error)`). */
  predicate Passes(o: Option<string>) {
    o.None? || o.value == ""
  }

  /** The message `validateField` records: that of the first rule that
      fails; later rules are not consulted. */
  function FirstError(rules: seq<Rule>, v: JsValue, field: string): (r: Option<string>)
    ensures r.None? <==> forall i | 0 <= i < |rules| :: Passes(Check(rules[i], v, field))
    ensures r.Some? ==> r.value != ""
    ensures r.Some? ==>
              exists i | 0 <= i < |rules| :: Check(rules[i], v, field) == r && forall j | 0 <= j < i :: Passes(Check(rules[j], v, field))
  {
    if rules == [] then None
    else if !Passes(Check(rules[0], v, field)) then Check(rules[0], v, field)
    else
      var r := FirstError(rules[1..], v, field);
      assert forall i | 0 <= i < |rules[1..]| :: rules[1..][i] == rules[i + 1];
      assert r.Some? ==> exists i | 0 <= i < |rules| :: Check(rules[i], v, field) == r && forall j | 0 <= j < i :: Passes(Check(rules[j], v, field)) by {
        if r.Some? {
          var i :| 0 <= i < |rules[1..]| && Check(rules[1..][i], v, field) == r
                   && forall j | 0 <= j < i :: Passes(Check(rules[1..][j], v, field));
          assert forall j | 0 <= j < i + 1 :: Passes(Check(rules[j], v, field)) by {
            forall j | 0 <= j < i + 1
              ensures Passes(Check(rules[j], v, field))
            {
              if j > 0 {
                assert rules[j] == rules[1..][j - 1];
              }
            }
          }
        }
      }
      r
  }

  /** The first failing rule decides: a list that starts with a failing
      rule reports that rule's message whatever follows. */
  lemma FirstFailureWins(rule: Rule, rest: seq<Rule>, v: JsValue, field: string)
    requires !Passes(Check(rule, v, field))
    ensures FirstError([rule] + rest, v, field) == Check(rule, v, field)
  {
  }

  /** When every rule before `i` passes and rule `i` fails, rule `i`'s
      message is the one reported. */
  lemma {:induction false} FirstErrorAt(rules: seq<Rule>, v: JsValue, field: string, i: nat)
    requires i < |rules| && !Passes(Check(rules[i], v, field))
    requires forall j | 0 <= j < i :: Passes(Check(rules[j], v, field))
    ensures FirstError(rules, v, field) == Check(rules[i], v, field)
  {
    if i > 0 {
      assert Passes(Check(rules[0], v, field));
      assert forall j | 0 <= j < i - 1 :: rules[1..][j] == rules[j + 1];
      FirstErrorAt(rules[1..], v, field, i - 1);
    }
  }

  /** The errors after `validateField`: the field's message on failure, and
      the field removed otherwise. */
  function FieldErrors(errors: map<string, JsValue>, field: string, v: JsValue, rules: seq<Rule>): map<string, JsValue> {
    var e := FirstError(rules, v, field);
    if e.Some? then errors[field := Str(e.value)] else errors - {field}
  }

  /** Reading a field of the form data: `undefined` when absent. */
  function FieldValue(data: map<string, JsValue>, field: string): JsValue {
    if field in data then data[field] else Undefined
  }

  /** The errors `validateForm` leaves, field by field in the order of the
      rules object, starting from none. */
  function FormErrors(data: map<string, JsValue>, entries: seq<(string, seq<Rule>)>): map<string, JsValue> {
    if entries == [] then map[]
    else
      var last := entries[|entries| - 1];
      FieldErrors(FormErrors(data, entries[..|entries| - 1]), last.0, FieldValue(data, last.0), last.1)
  }

  /** Every field validates. */
  predicate FormPasses(data: map<string, JsValue>, entries: seq<(string, seq<Rule>)>) {
    forall i | 0 <= i < |entries| :: FirstError(entries[i].1, FieldValue(data, entries[i].0), entries[i].0).None?
  }

  /** Field names appear once in a rules object. */
  predicate DistinctFields<T>(entries: seq<(string, T)>) {
    forall i, j | 0 <= i < j < |entries| :: entries[i].0 != entries[j].0
  }

  /** After `validateForm` only fields of the rules object have an error. */
  lemma {:induction false} FormErrorsOnlyNamedFields(data: map<string, JsValue>, entries: seq<(string, seq<Rule>)>)
    ensures forall f :: f in FormErrors(data, entries) ==> exists i | 0 <= i < |entries| :: entries[i].0 == f
  {
    if entries != [] {
      var n := |entries| - 1;
      var prefix := entries[..n];
      FormErrorsOnlyNamedFields(data, prefix);
      forall f | f in FormErrors(data, entries)
        ensures exists i | 0 <= i < |entries| :: entries[i].0 == f
      {
        if f != entries[n].0 {
          assert f in FormErrors(data, prefix);
          var i :| 0 <= i < |prefix| && prefix[i].0 == f;
          assert entries[i].0 == f;
        }
      }
    }
  }

  /** With distinct field names, after `validateForm` a field has an error
      exactly when one of its rules fails, and the error is the first
      failing rule's message. */
  lemma {:induction false} FormErrorsAreFirstFailures(data: map<string, JsValue>, entries: seq<(string, seq<Rule>)>, k: nat)
    requires DistinctFields(entries) && k < |entries|
    ensures var e := FirstError(entries[k].1, FieldValue(data, entries[k].0), entries[k].0);
            && (entries[k].0 in FormErrors(data, entries) <==> e.Some?)
            && (e.Some? ==> FormErrors(data, entries)[entries[k].0] == Str(e.value))
  {
    var n := |entries| - 1;
    if k < n {
      var prefix := entries[..n];
      assert forall i | 0 <= i < n :: prefix[i] == entries[i];
      FormErrorsAreFirstFailures(data, prefix, k);
      assert entries[k].0 != entries[n].0;
    }
  }

  /** Validating one more field of the rules object: the errors are that
      field's `validateField` on the errors so far. */
  lemma FormErrorsStep(data: map<string, JsValue>, entries: seq<(string, seq<Rule>)>, i: nat)
    requires i < |entries|
    ensures FormErrors(data, entries[..i + 1])
            == FieldErrors(FormErrors(data, entries[..i]), entries[i].0, FieldValue(data, entries[i].0), entries[i].1)
  {
    assert entries[..i + 1][..i] == entries[..i];
  }

  /** Validating one more field: the form passes iff it did and the field
      does. */
  lemma FormPassesStep(data: map<string, JsValue>, entries: seq<(string, seq<Rule>)>, i: nat)
    requires i < |entries|
    ensures FormPasses(data, entries[..i + 1])
            <==> FormPasses(data, entries[..i]) && FirstError(entries[i].1, FieldValue(data, entries[i].0), entries[i].0).None?
  {
    var longer := entries[..i + 1];
    assert forall j | 0 <= j < i :: longer[j] == entries[..i][j];
    assert longer[i] == entries[i];
  }

  /** The messages `setBackendErrors` stores: the first of an array (or
      `undefined` for an empty one), or the value itself. */
  function FirstMessage(v: JsValue): JsValue {
    if v.Arr? then (if |v.items| > 0 then v.items[0] else Undefined) else v
  }

  /** The errors after merging the back end's entries in order. */
  function MergeBackend(errors: map<string, JsValue>, entries: seq<(string, JsValue)>): map<string, JsValue> {
    if entries == [] then errors
    else
      var last := entries[|entries| - 1];
      MergeBackend(errors, entries[..|entries| - 1])[last.0 := FirstMessage(last.1)]
  }

  /** After `setBackendErrors` the fields with an error are the old ones
      and those the back end names. */
  lemma {:induction false} MergeBackendFields(errors: map<string, JsValue>, entries: seq<(string, JsValue)>)
    ensures forall f :: f in MergeBackend(errors, entries) <==> f in errors || exists i | 0 <= i < |entries| :: entries[i].0 == f
  {
    if entries != [] {
      var n := |entries| - 1;
      var prefix := entries[..n];
      MergeBackendFields(errors, prefix);
      assert forall i | 0 <= i < n :: prefix[i] == entries[i];
      forall f | f in errors || exists i | 0 <= i < |entries| :: entries[i].0 == f
        ensures f in MergeBackend(errors, entries)
      {
        if f != entries[n].0 && f !in errors {
          var i :| 0 <= i < |entries| && entries[i].0 == f;
          assert prefix[i].0 == f;
        }
      }
    }
  }

  /** A field the back end does not name keeps its error. */
  lemma {:induction false} MergeBackendKeeps(errors: map<string, JsValue>, entries: seq<(string, JsValue)>, f: string)
    requires f in errors && forall i | 0 <= i < |entries| :: entries[i].0 != f
    ensures f in MergeBackend(errors, entries) && MergeBackend(errors, entries)[f] == errors[f]
  {
    if entries != [] {
      var n := |entries| - 1;
      assert forall i | 0 <= i < n :: entries[..n][i] == entries[i];
      MergeBackendKeeps(errors, entries[..n], f);
    }
  }

  /** A field the back end names holds the first message of its last entry. */
  lemma {:induction false} MergeBackendStores(errors: map<string, JsValue>, entries: seq<(string, JsValue)>, k: nat)
    requires k < |entries| && forall j | k < j < |entries| :: entries[j].0 != entries[k].0
    ensures entries[k].0 in MergeBackend(errors, entries)
    ensures MergeBackend(errors, entries)[entries[k].0] == FirstMessage(entries[k].1)
  {
    var n := |entries| - 1;
    if k < n {
      var prefix := entries[..n];
      assert forall i | 0 <= i < n :: prefix[i] == entries[i];
      MergeBackendStores(errors, prefix, k);
    }
  }

  /** The state of one `useFormValidation()` instance. */
  class FormValidation {
    var errors: map<string, JsValue>
    var isValidating: bool

    constructor ()
      ensures errors == map[] && !isValidating
    {
      errors, isValidating := map[], false;
    }

    /** `validateField`: run the rules in order, stop at the first one that
        fails and record its message; otherwise clear the field's error. */
    method ValidateField(field: string, v: JsValue, rules: seq<Rule>) returns (ok: bool)
      modifies this
      ensures ok <==> FirstError(rules, v, field).None?
      ensures errors == FieldErrors(old(errors), field, v, rules)
      ensures isValidating == old(isValidating)
    {
      if |rules| == 0 {
        errors := errors - {field};
        return true;
      }
      var i := 0;
      while i < |rules|
        invariant 0 <= i <= |rules|
        invariant forall j | 0 <= j < i :: Passes(Check(rules[j], v, field))
        invariant errors == old(errors) && isValidating == old(isValidating)
      {
        var error := Check(rules[i], v, field);
        if !Passes(error) {
          FirstErrorAt(rules, v, field, i);
          errors := errors[field := Str(error.value)];
          return false;
        }
        i := i + 1;
      }
      errors := errors - {field};
      ok := true;
    }

    /** `validateForm`: clear every error, validate each field of the rules
        object in order, and report whether all passed. */
    method ValidateForm(data: map<string, JsValue>, entries: seq<(string, seq<Rule>)>) returns (isValid: bool)
      modifies this
      ensures isValid <==> FormPasses(data, entries)
      ensures errors == FormErrors(data, entries)
      ensures !isValidating
    {
      isValidating := true;
      errors := map[];
      isValid := true;
      var i := 0;
      while i < |entries|
        invariant 0 <= i <= |entries|
        invariant errors == FormErrors(data, entries[..i])
        invariant isValid <==> FormPasses(data, entries[..i])
      {
        var ok := ValidateField(entries[i].0, FieldValue(data, entries[i].0), entries[i].1);
        FormErrorsStep(data, entries, i);
        FormPassesStep(data, entries, i);
        if !ok {
          isValid := false;
        }
        i := i + 1;
      }
      assert entries[..i] == entries;
      isValidating := false;
    }

    /** `clearErrors`. */
    method ClearErrors()
      modifies this
      ensures errors == map[] && isValidating == old(isValidating)
    {
      errors := map[];
    }

    /** `clearFieldError`: only that field's error goes. */
    method ClearFieldError(field: string)
      modifies this
      ensures errors == old(errors) - {field} && isValidating == old(isValidating)
    {
      errors := errors - {field};
    }

    /** `setBackendErrors`: nothing for a missing object; otherwise each
        entry's first message, in order. */
    method SetBackendErrors(backend: Option<seq<(string, JsValue)>>)
      modifies this
      ensures backend.None? ==> errors == old(errors)
      ensures backend.Some? ==> errors == MergeBackend(old(errors), backend.value)
      ensures isValidating == old(isValidating)
    {
      if backend.None? {
        return;
      }
      var entries := backend.value;
      var i := 0;
      while i < |entries|
        invariant 0 <= i <= |entries|
        invariant errors == MergeBackend(old(errors), entries[..i])
        invariant isValidating == old(isValidating)
      {
        assert entries[..i + 1][..i] == entries[..i];
        errors := errors[entries[i].0 := FirstMessage(entries[i].1)];
        i := i + 1;
      }
      assert entries[..i] == entries;
    }
  }
}
