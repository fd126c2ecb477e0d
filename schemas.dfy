/**
 * The request body of a new viewing request (`ViewingRequestCreate`): the raw length bounds of
 * its text fields and the phone validator, which ignores separators and then wants an optional
 * '+' and 10 to 15 digits.
 */
module Schemas {
  import opened Wrappers
  import opened Text
  import Form

  // ---- Phone validation ----

  /** A character of the class `[\s\-\(\)\.]` that cleaning removes. */
  predicate Separator(c: char) {
    IsWhitespace(c) || c == '-' || c == '(' || c == ')' || c == '.'
  }

  /** `re.sub` of the separator class by "": the phone with every separator dropped, in order. */
  function Clean(v: string): (r: string)
    ensures |r| <= |v|
    ensures forall k :: 0 <= k < |r| ==> !Separator(r[k])
    ensures forall c :: c in r <==> c in v && !Separator(c)
  {
    if v == [] then []
    else if Separator(v[|v| - 1]) then Clean(v[..|v| - 1])
    else Clean(v[..|v| - 1]) + [v[|v| - 1]]
  }

  predicate AllDigits(s: string) {
    forall k :: 0 <= k < |s| ==> IsDigit(s[k])
  }

  /** The pattern `^\+?\d{10,15}$`. */
  predicate BackendPhonePattern(s: string) {
    || (10 <= |s| <= 15 && AllDigits(s))
    || (11 <= |s| <= 16 && s[0] == '+' && AllDigits(s[1..]))
  }

  const PhoneMessage := "Please enter a valid phone number (10\U{2013}15 digits)"

  /** `validate_phone`: the value itself when its cleaned form matches, otherwise the error. */
  function ValidatePhone(v: string): (r: Result<string, string>)
    ensures r.Success? <==> BackendPhonePattern(Clean(v))
    ensures r.Success? ==> r.value == v
    ensures r.Failure? ==> r.error == PhoneMessage
  {
    if BackendPhonePattern(Clean(v)) then Success(v) else Failure(PhoneMessage)
  }

  /** Number of decimal digits in `s`. */
  function DigitCount(s: string): nat {
    if s == [] then 0
    else DigitCount(s[..|s| - 1]) + (if IsDigit(s[|s| - 1]) then 1 else 0)
  }

  /** Cleaning distributes over concatenation. */
  lemma {:induction false} CleanAppend(a: string, b: string)
    ensures Clean(a + b) == Clean(a) + Clean(b)
    decreases |b|
  {
    if b != [] {
      var b' := b[..|b| - 1];
      assert (a + b)[..|a + b| - 1] == a + b';
      CleanAppend(a, b');
    } else {
      assert a + b == a;
    }
  }

  /** Cleaning a cleaned phone changes nothing. */
  lemma {:induction false} CleanIdempotent(v: string)
    ensures Clean(Clean(v)) == Clean(v)
    decreases |v|
  {
    if v != [] {
      CleanIdempotent(v[..|v| - 1]);
      if !Separator(v[|v| - 1]) {
        CleanAppend(Clean(v[..|v| - 1]), [v[|v| - 1]]);
      }
    }
  }

  /** Cleaning keeps every digit. */
  lemma {:induction false} CleanKeepsDigits(v: string)
    ensures DigitCount(Clean(v)) == DigitCount(v)
    decreases |v|
  {
    if v != [] {
      CleanKeepsDigits(v[..|v| - 1]);
      if !Separator(v[|v| - 1]) {
        var c := Clean(v[..|v| - 1]) + [v[|v| - 1]];
        assert c[..|c| - 1] == Clean(v[..|v| - 1]);
      }
    }
  }

  lemma {:induction false} AllDigitsCount(s: string)
    requires AllDigits(s)
    ensures DigitCount(s) == |s|
    decreases |s|
  {
    if s != [] {
      AllDigitsCount(s[..|s| - 1]);
    }
  }

  lemma {:induction false} DigitCountAppend(a: string, b: string)
    ensures DigitCount(a + b) == DigitCount(a) + DigitCount(b)
    decreases |b|
  {
    if b != [] {
      var b' := b[..|b| - 1];
      assert (a + b)[..|a + b| - 1] == a + b';
      DigitCountAppend(a, b');
    } else {
      assert a + b == a;
    }
  }

  /** An accepted phone holds between 10 and 15 digits, however it is punctuated. */
  lemma AcceptedDigitCount(v: string)
    requires ValidatePhone(v).Success?
    ensures 10 <= DigitCount(v) <= 15
  {
    var c := Clean(v);
    CleanKeepsDigits(v);
    if AllDigits(c) {
      AllDigitsCount(c);
    } else {
      assert c == [c[0]] + c[1..];
      DigitCountAppend([c[0]], c[1..]);
      AllDigitsCount(c[1..]);
      assert DigitCount([c[0]]) == 0 by {
        assert [c[0]][..0] == [];
      }
    }
  }

  /** Separators never decide acceptance: a phone passes exactly when its cleaned form does. */
  lemma SeparatorsIgnored(v: string)
    ensures ValidatePhone(v).Success? <==> ValidatePhone(Clean(v)).Success?
  {
    CleanIdempotent(v);
  }

  /** Cleaning a string made of the form's phone characters leaves only its digits. */
  lemma {:induction false} CleanFormPhoneChars(s: string)
    requires Form.AllPhoneChars(s)
    ensures AllDigits(Clean(s)) && |Clean(s)| == DigitCount(s)
    decreases |s|
  {
    if s != [] {
      var s' := s[..|s| - 1];
      assert Form.AllPhoneChars(s') by {
        assert forall k :: 0 <= k < |s'| ==> s'[k] == s[k];
      }
      CleanFormPhoneChars(s');
      assert Form.PhoneChar(s[|s| - 1]);
    }
  }

  /**
   * A phone that passes the form's pattern (an optional '+' and then digits, whitespace, '-',
   * '(' or ')') is accepted by the server exactly when it holds 10 to 15 digits.
   */
  lemma FormPhoneAcceptedIffDigits(v: string)
    requires Form.PhoneRegex(v)
    ensures ValidatePhone(v).Success? <==> 10 <= DigitCount(v) <= 15
  {
    if |v| >= 10 && Form.AllPhoneChars(v) {
      CleanFormPhoneChars(v);
      if v != [] && v[0] == '+' {
        assert Form.PhoneChar(v[0]);
      }
    } else {
      var rest := v[1..];
      assert v == [v[0]] + rest;
      CleanFormPhoneChars(rest);
      CleanAppend([v[0]], rest);
      assert Clean([v[0]]) == [v[0]] by {
        assert [v[0]][..0] == [];
      }
      DigitCountAppend([v[0]], rest);
      assert DigitCount([v[0]]) == 0 by {
        assert [v[0]][..0] == [];
      }
      var c := Clean(v);
      assert c == [v[0]] + Clean(rest);
      assert c[1..] == Clean(rest);
    }
  }

  /** Ten dashes pass the form's pattern but hold no digit, so the server refuses them. */
  lemma FormAndServerDisagreeOnDashes()
    ensures Form.PhoneRegex("----------") && ValidatePhone("----------").Failure?
  {
    var v := "----------";
    assert Form.AllPhoneChars(v);
    FormPhoneAcceptedIffDigits(v);
    DashesHaveNoDigits(v, |v|);
    assert v[..|v|] == v;
  }

  /** A run of dashes holds no digit. */
  lemma {:induction false} DashesHaveNoDigits(v: string, k: nat)
    requires k <= |v|
    requires forall i :: 0 <= i < |v| ==> v[i] == '-'
    ensures DigitCount(v[..k]) == 0
  {
    if k > 0 {
      assert v[..k][..k - 1] == v[..k - 1];
      DashesHaveNoDigits(v, k - 1);
    }
  }

  // ---- The request body ----

  /** The text fields of `ViewingRequestCreate`; the email and the date/time are carried as text. */
  datatype ViewingRequestCreate = ViewingRequestCreate(
    propertyId: int,
    name: string,
    email: string,
    phone: string,
    preferredDate: string,
    preferredTime: Option<string>,
    message: Option<string>)

  /** The ways the body can be refused, in field order. */
  datatype Issue = NameTooShort | NameTooLong | PhoneTooShort | PhoneTooLong | PhoneInvalid(msg: string) | MessageTooLong

  const NameMin := 2
  const NameMax := 100
  const PhoneMin := 10
  const PhoneMax := 30
  const MessageMax := 500

  /** The name's bounds: 2 to 100 characters, not trimmed. */
  function NameIssues(name: string): (r: seq<Issue>)
    ensures r == [] <==> NameMin <= |name| <= NameMax
    ensures |name| < NameMin ==> r == [NameTooShort]
    ensures |name| > NameMax ==> r == [NameTooLong]
    ensures |r| <= 1
  {
    if |name| < NameMin then [NameTooShort]
    else if |name| > NameMax then [NameTooLong]
    else []
  }

  /** The phone's bounds (10 to 30 characters) come first; only a phone within them reaches `validate_phone`. */
  function PhoneIssues(phone: string): (r: seq<Issue>)
    ensures r == [] <==> PhoneMin <= |phone| <= PhoneMax && ValidatePhone(phone).Success?
    ensures |phone| < PhoneMin ==> r == [PhoneTooShort]
    ensures |phone| > PhoneMax ==> r == [PhoneTooLong]
    ensures |r| <= 1
    ensures r == [PhoneInvalid(PhoneMessage)] <==> PhoneMin <= |phone| <= PhoneMax && ValidatePhone(phone).Failure?
  {
    if |phone| < PhoneMin then [PhoneTooShort]
    else if |phone| > PhoneMax then [PhoneTooLong]
    else
      match ValidatePhone(phone)
      case Success(_) => []
      case Failure(e) => [PhoneInvalid(e)]
  }

  /** An absent message is fine; a present one has at most 500 characters. */
  function MessageIssues(message: Option<string>): (r: seq<Issue>)
    ensures r == [] <==> message.None? || |message.value| <= MessageMax
    ensures r != [] ==> r == [MessageTooLong]
  {
    if message.Some? && |message.value| > MessageMax then [MessageTooLong] else []
  }

  /** Every issue of the body, field by field. */
  function Issues(req: ViewingRequestCreate): (r: seq<Issue>)
    ensures r == [] <==>
      && NameMin <= |req.name| <= NameMax
      && PhoneMin <= |req.phone| <= PhoneMax && ValidatePhone(req.phone).Success?
      && (req.message.None? || |req.message.value| <= MessageMax)
    ensures forall i :: i in r <==> i in NameIssues(req.name) || i in PhoneIssues(req.phone) || i in MessageIssues(req.message)
    ensures |r| <= 3
  {
    NameIssues(req.name) + PhoneIssues(req.phone) + MessageIssues(req.message)
  }

  /** The body as accepted (unchanged, the phone included), or every issue found. */
  function ValidateCreate(req: ViewingRequestCreate): (r: Result<ViewingRequestCreate, seq<Issue>>)
    ensures r.Success? <==> Issues(req) == []
    ensures r.Success? ==> r.value == req
    ensures r.Failure? ==> r.error == Issues(req) && |r.error| > 0
  {
    var issues := Issues(req);
    if issues == [] then Success(req) else Failure(issues)
  }

  /** A name the form accepts (two or more characters once trimmed) is long enough for the server. */
  lemma FormNameLongEnough(name: string)
    requires Form.NameError(name).None?
    ensures |name| >= NameMin
  {
  }
}
