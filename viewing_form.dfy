/**
 * The viewing request form (`ViewingForm`): six text fields, the client-side validation that
 * fills an error map field by field, clearing a field's error as it is edited, and the reset
 * after a successful submission.
 */
module Form {
  import opened Wrappers
  import opened Text

  datatype Field = Name | Email | Phone | PreferredDate | PreferredTime | Message

  const AllFields: set<Field> := {Name, Email, Phone, PreferredDate, PreferredTime, Message}

  /** Every field holding the empty string: the initial state and the state after a successful submit. */
  const EmptyForm: map<Field, string> := map f | f in AllFields :: ""

  /** The empty form has exactly the six fields. */
  lemma EmptyFormFields()
    ensures EmptyForm.Keys == AllFields
  {
  }

  // ---- Field rules ----

  /** Required, then at least two characters once trimmed. */
  function NameError(name: string): (r: Option<string>)
    ensures r.None? <==> |Trim(name)| >= 2
    ensures r == Some("Name is required") <==> Trim(name) == ""
    ensures 0 < |Trim(name)| < 2 ==> r == Some("Name must be at least 2 characters")
  {
    if Trim(name) == "" then Some("Name is required")
    else if |Trim(name)| < 2 then Some("Name must be at least 2 characters")
    else None
  }

  /** A character of the class `[^\s@]`. */
  predicate NotSpaceOrAt(c: char) {
    !IsWhitespace(c) && c != '@'
  }

  /** A non-empty run of `[^\s@]`. */
  predicate Part(x: string) {
    |x| > 0 && forall k :: 0 <= k < |x| ==> NotSpaceOrAt(x[k])
  }

  ghost predicate IsEmailSplit(s: string, a: string, b: string, c: string) {
    s == a + "@" + b + "." + c
  }

  /** The email regex `^[^\s@]+@[^\s@]+\.[^\s@]+$`, read as a decomposition of the whole string. */
  ghost predicate EmailRegex(s: string) {
    exists a, b, c :: IsEmailSplit(s, a, b, c) && Part(a) && Part(b) && Part(c)
  }

  /**
   * The same shape by positions: one '@' at `i > 0`, a '.' at `j` with at least one character
   * between them and one after it, and no whitespace or other '@' anywhere.
   */
  predicate EmailShape(s: string) {
    exists i, j | 0 < i && i + 1 < j && j + 1 < |s| ::
      s[i] == '@' && s[j] == '.' && forall k | 0 <= k < |s| && k != i :: NotSpaceOrAt(s[k])
  }

  /** A positional match splits into the regex's three parts. */
  lemma EmailShapeGivesRegex(s: string)
    requires EmailShape(s)
    ensures EmailRegex(s)
  {
    var i, j :| 0 < i && i + 1 < j && j + 1 < |s| &&
      s[i] == '@' && s[j] == '.' && forall k | 0 <= k < |s| && k != i :: NotSpaceOrAt(s[k]);
    var a, b, c := s[..i], s[i + 1..j], s[j + 1..];
    assert Part(a) by {
      assert forall k :: 0 <= k < |a| ==> a[k] == s[k];
    }
    assert Part(b) by {
      assert forall k :: 0 <= k < |b| ==> b[k] == s[i + 1 + k];
    }
    assert Part(c) by {
      assert forall k :: 0 <= k < |c| ==> c[k] == s[j + 1 + k];
    }
    assert IsEmailSplit(s, a, b, c) by {
      assert s[..j] == a + "@" + b;
      assert s == s[..j] + "." + c;
    }
  }

  /** A regex match has its '@' and '.' at the positions the three parts fix. */
  lemma EmailRegexGivesShape(s: string)
    requires EmailRegex(s)
    ensures EmailShape(s)
  {
    var a, b, c :| IsEmailSplit(s, a, b, c) && Part(a) && Part(b) && Part(c);
    var i, j := |a|, |a| + 1 + |b|;
    assert s[i] == '@' && s[j] == '.';
    forall k | 0 <= k < |s| && k != i
      ensures NotSpaceOrAt(s[k])
    {
      if k < i {
        assert s[k] == a[k];
      } else if k < j {
        assert s[k] == b[k - i - 1];
      } else if k > j {
        assert s[k] == c[k - j - 1];
      }
    }
  }

  /** The positional reading and the regex accept the same strings. */
  lemma EmailShapeIsRegex(s: string)
    ensures EmailShape(s) <==> EmailRegex(s)
  {
    if EmailShape(s) {
      EmailShapeGivesRegex(s);
    }
    if EmailRegex(s) {
      EmailRegexGivesShape(s);
    }
  }

  /** An email that is blank once trimmed never has the regex's shape. */
  lemma BlankEmailHasNoShape(s: string)
    requires AllWhitespace(s)
    ensures !EmailShape(s)
  {
  }

  /** Required, then the email regex on the untrimmed value. */
  function EmailError(email: string): (r: Option<string>)
    ensures r.None? <==> EmailRegex(email)
    ensures r == Some("Email is required") <==> Trim(email) == ""
    ensures Trim(email) != "" && !EmailRegex(email) ==> r == Some("Please enter a valid email")
  {
    TrimEmptyIff(email);
    EmailShapeIsRegex(email);
    if Trim(email) == "" then (BlankEmailHasNoShape(email); Some("Email is required"))
    else if !EmailShape(email) then Some("Please enter a valid email")
    else None
  }

  /** A character of the class `[\d\s\-()]`. */
  predicate PhoneChar(c: char) {
    IsDigit(c) || IsWhitespace(c) || c == '-' || c == '(' || c == ')'
  }

  predicate AllPhoneChars(s: string) {
    forall k :: 0 <= k < |s| ==> PhoneChar(s[k])
  }

  /** The phone regex `^\+?[\d\s\-()]{10,}$`: an optional '+' and then ten or more class characters. */
  predicate PhoneRegex(s: string) {
    || (|s| >= 10 && AllPhoneChars(s))
    || (|s| >= 11 && s[0] == '+' && AllPhoneChars(s[1..]))
  }

  /** Required, then the phone regex on the untrimmed value (ten spaces match it but are blank). */
  function PhoneError(phone: string): (r: Option<string>)
    ensures r.None? <==> !AllWhitespace(phone) && PhoneRegex(phone)
    ensures r == Some("Phone is required") <==> AllWhitespace(phone)
    ensures !AllWhitespace(phone) && !PhoneRegex(phone) ==> r == Some("Please enter a valid phone number")
  {
    TrimEmptyIff(phone);
    if Trim(phone) == "" then Some("Phone is required")
    else if !PhoneRegex(phone) then Some("Please enter a valid phone number")
    else None
  }

  /**
   * Required, then not in the past. Whether the chosen date lies before today depends on the
   * clock and on date parsing, so it is the parameter `beforeToday`.
   */
  function DateError(date: string, beforeToday: bool): (r: Option<string>)
    ensures r.None? <==> date != "" && !beforeToday
    ensures r == Some("Preferred date is required") <==> date == ""
    ensures date != "" && beforeToday ==> r == Some("Please select a future date")
  {
    if date == "" then Some("Preferred date is required")
    else if beforeToday then Some("Please select a future date")
    else None
  }

  /** Which of the four rule outcomes belongs to field `f`; the time and the message have no rule. */
  function Outcome(f: Field, name: Option<string>, email: Option<string>, phone: Option<string>, date: Option<string>): Option<string> {
    match f
    case Name => name
    case Email => email
    case Phone => phone
    case PreferredDate => date
    case PreferredTime => None
    case Message => None
  }

  /** The rule of each field. */
  function FieldError(data: map<Field, string>, f: Field, beforeToday: bool): Option<string>
    requires AllFields <= data.Keys
  {
    Outcome(f, NameError(data[Name]), EmailError(data[Email]), PhoneError(data[Phone]), DateError(data[PreferredDate], beforeToday))
  }

  /** `errors[f] = message` when the rule of `f` produced one. */
  function WithError(errors: map<Field, string>, f: Field, e: Option<string>): map<Field, string> {
    if e.Some? then errors[f := e.value] else errors
  }

  /** The error map for given rule outcomes: one entry per failing field, with its message. */
  function ErrorsOf(name: Option<string>, email: Option<string>, phone: Option<string>, date: Option<string>): (e: map<Field, string>)
    ensures forall f :: f in e <==> Outcome(f, name, email, phone, date).Some?
    ensures forall f :: f in e ==> e[f] == Outcome(f, name, email, phone, date).value
  {
    map f | f in AllFields && Outcome(f, name, email, phone, date).Some? :: Outcome(f, name, email, phone, date).value
  }

  /** Filling the map outcome by outcome, in field order, gives the same map. */
  lemma ErrorsInFieldOrder(name: Option<string>, email: Option<string>, phone: Option<string>, date: Option<string>)
    ensures ErrorsOf(name, email, phone, date) ==
      WithError(WithError(WithError(WithError(map[], Name, name), Email, email), Phone, phone), PreferredDate, date)
  {
    var e := ErrorsOf(name, email, phone, date);
    assert PreferredTime !in e && Message !in e;
  }

  /** The error map `validate` builds from the form data. */
  function Errors(data: map<Field, string>, beforeToday: bool): (e: map<Field, string>)
    requires AllFields <= data.Keys
    ensures forall f :: f in e <==> FieldError(data, f, beforeToday).Some?
    ensures forall f :: f in e ==> e[f] == FieldError(data, f, beforeToday).value
  {
    ErrorsOf(NameError(data[Name]), EmailError(data[Email]), PhoneError(data[Phone]), DateError(data[PreferredDate], beforeToday))
  }

  /** `Object.keys(errors).length === 0` holds exactly for the empty map. */
  lemma NoKeysIffEmpty(errors: map<Field, string>)
    ensures |errors| == 0 <==> errors == map[]
  {
    if |errors| != 0 {
      var f :| f in errors.Keys;
    }
  }

  /** No error exactly when every outcome is a pass. */
  lemma ErrorsOfEmptyIff(name: Option<string>, email: Option<string>, phone: Option<string>, date: Option<string>)
    ensures ErrorsOf(name, email, phone, date) == map[] <==> name.None? && email.None? && phone.None? && date.None?
  {
    var e := ErrorsOf(name, email, phone, date);
    if e == map[] {
      assert Name !in e && Email !in e && Phone !in e && PreferredDate !in e;
    } else {
      var f :| f in e;
    }
  }

  /** `validate()` is true exactly when each of the four rules passes; time and message never fail. */
  lemma ValidIffAllRulesPass(data: map<Field, string>, beforeToday: bool)
    requires AllFields <= data.Keys
    ensures Errors(data, beforeToday) == map[] <==>
      && |Trim(data[Name])| >= 2
      && EmailRegex(data[Email])
      && !AllWhitespace(data[Phone]) && PhoneRegex(data[Phone])
      && data[PreferredDate] != "" && !beforeToday
    ensures PreferredTime !in Errors(data, beforeToday) && Message !in Errors(data, beforeToday)
  {
    ErrorsOfEmptyIff(NameError(data[Name]), EmailError(data[Email]), PhoneError(data[Phone]), DateError(data[PreferredDate], beforeToday));
  }

  // ---- The form component ----

  class ViewingForm {
    var formData: map<Field, string>
    var validationErrors: map<Field, string>

    ghost predicate Valid()
      reads this
    {
      formData.Keys == AllFields
    }

    constructor ()
      ensures formData == EmptyForm && validationErrors == map[]
      ensures Valid()
    {
      formData := EmptyForm;
      validationErrors := map[];
    }

    /**
     * `handleChange`: stores the value under its field, and clears that field's error (to '')
     * only when one is showing; every other field and error is left alone.
     */
    method HandleChange(field: Field, value: string)
      requires Valid()
      modifies this
      ensures formData == old(formData)[field := value]
      ensures validationErrors ==
        if field in old(validationErrors) && old(validationErrors)[field] != ""
        then old(validationErrors)[field := ""]
        else old(validationErrors)
      ensures Valid()
    {
      formData := formData[field := value];
      if field in validationErrors && validationErrors[field] != "" {
        validationErrors := validationErrors[field := ""];
      }
    }

    /** `validate()`: replaces the shown errors by the rules' errors and reports whether there are none. */
    method Validate(beforeToday: bool) returns (ok: bool)
      requires Valid()
      modifies this
      ensures formData == old(formData)
      ensures validationErrors == Errors(formData, beforeToday)
      ensures ok <==> validationErrors == map[]
    {
      var data := formData;
      var n, m := NameError(data[Name]), EmailError(data[Email]);
      var p, d := PhoneError(data[Phone]), DateError(data[PreferredDate], beforeToday);
      var errors: map<Field, string> := map[];
      errors := WithError(errors, Name, n);
      errors := WithError(errors, Email, m);
      errors := WithError(errors, Phone, p);
      errors := WithError(errors, PreferredDate, d);
      assert errors == Errors(data, beforeToday) by {
        ErrorsInFieldOrder(n, m, p, d);
      }
      NoKeysIffEmpty(errors);
      validationErrors := errors;
      ok := |errors| == 0;
    }

    /**
     * `handleSubmit`: a failed validation sends nothing; otherwise the form data is sent (the
     * result) and, unless the request throws, every field is reset to ''.
     */
    method Submit(beforeToday: bool, requestThrows: bool) returns (sent: Option<map<Field, string>>)
      requires Valid()
      modifies this
      ensures sent.Some? <==> Errors(old(formData), beforeToday) == map[]
      ensures sent.Some? ==> sent.value == old(formData)
      ensures formData == if sent.Some? && !requestThrows then EmptyForm else old(formData)
      ensures validationErrors == Errors(old(formData), beforeToday)
      ensures Valid()
    {
      var data := formData;
      var ok := Validate(beforeToday);
      if !ok {
        return None;
      }
      sent := Some(data);
      if !requestThrows {
        EmptyFormFields();
        formData := EmptyForm;
      }
    }
  }
}
