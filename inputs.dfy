/** Normalisation of the seed attributes of a lookup, and the record that carries them. */
module Inputs {
  import opened Wrappers
  import opened Text

  /** Strip, then lower-case, with `None` for a missing or blank value (shared by email and username). */
  function StripLower(value: Option<string>): (r: Option<string>)
    ensures value.None? ==> r.None?
    ensures value.Some? ==> (r.None? <==> forall k :: 0 <= k < |value.value| ==> IsSpace(value.value[k]))
    ensures r.Some? ==> Trimmed(r.value) && IsLower(r.value)
    ensures value.Some? && r.Some? ==> r.value == Lower(Strip(value.value))
  {
    match value
    case None => None
    case Some(v) =>
      var s := Strip(v);
      LowerFacts(s);
      if s != [] then Some(Lower(s)) else None
  }

  /** `normalize_email`: trimmed and lower-cased, `None` when nothing is left. */
  function NormalizeEmail(value: Option<string>): (r: Option<string>)
    ensures value.None? ==> r.None?
    ensures value.Some? ==> (r.None? <==> forall k :: 0 <= k < |value.value| ==> IsSpace(value.value[k]))
    ensures r.Some? ==> Trimmed(r.value) && IsLower(r.value)
    ensures value.Some? && r.Some? ==> r.value == Lower(Strip(value.value))
  {
    StripLower(value)
  }

  /** `normalize_username`: the same rule as for email addresses. */
  function NormalizeUsername(value: Option<string>): (r: Option<string>)
    ensures value.None? ==> r.None?
    ensures value.Some? ==> (r.None? <==> forall k :: 0 <= k < |value.value| ==> IsSpace(value.value[k]))
    ensures r.Some? ==> Trimmed(r.value) && IsLower(r.value)
    ensures value.Some? && r.Some? ==> r.value == Lower(Strip(value.value))
  {
    StripLower(value)
  }

  /** `normalize_name`: the same words, joined by single spaces, case kept; `None` when there are no words. */
  function NormalizeName(value: Option<string>): (r: Option<string>)
    ensures value.None? ==> r.None?
    ensures value.Some? ==> (r.None? <==> Words(value.value) == [])
    ensures r.Some? ==> Words(r.value) == Words(value.value) && r.value == Join(Words(r.value), " ")
    ensures r.Some? ==> Trimmed(r.value)
  {
    match value
    case None => None
    case Some(v) =>
      var ws := Words(Strip(v));
      WordsStrip(v);
      WordsJoin(ws);
      JoinWordsTrimmed(ws);
      var joined := Join(ws, " ");
      if joined != [] then Some(joined) else None
  }

  /**
   * The part of `normalize_phone` outside the phone-number library: `None` stays `None`, a blank value
   * gives `None`, and otherwise `e164` (the library's parse, validity check and E.164 formatting, `None`
   * meaning "not a valid number") decides; an invalid number raises.
   */
  function NormalizePhone(value: Option<string>, e164: string -> Option<string>): (r: Result<Option<string>>)
    ensures value.None? ==> r == Success(None)
    ensures value.Some? && Strip(value.value) == [] ==> r == Success(None)
    ensures value.Some? && Strip(value.value) != [] && e164(Strip(value.value)).None? ==> r.Failure?
    ensures r.Success? && r.value.Some? ==> value.Some? && e164(Strip(value.value)) == r.value
    ensures value.Some? && Strip(value.value) != [] && e164(Strip(value.value)).Some? ==> r == Success(e164(Strip(value.value)))
  {
    match value
    case None => Success(None)
    case Some(v) =>
      var s := Strip(v);
      if s == [] then Success(None)
      else
        match e164(s)
        case None => Failure("Phone number is not valid E.164")
        case Some(p) => Success(Some(p))
  }

  /** Python truthiness of an optional string: present and non-empty. */
  predicate Truthy(v: Option<string>) {
    v.Some? && v.value != []
  }

  /** The four optional seed attributes of one lookup. */
  datatype LookupInputs = LookupInputs(username: Option<string>, email: Option<string>, phone: Option<string>, name: Option<string>)

  /** Every field is already in normal form: normalising it again changes nothing. */
  predicate IsNormalized(inputs: LookupInputs) {
    NormalizeUsername(inputs.username) == inputs.username
    && NormalizeEmail(inputs.email) == inputs.email
    && NormalizeName(inputs.name) == inputs.name
  }

  /** `LookupInputs.from_raw`: each field through its own normaliser; an invalid phone number raises. */
  function FromRaw(username: Option<string>, email: Option<string>, phone: Option<string>, name: Option<string>,
                   e164: string -> Option<string>): (r: Result<LookupInputs>)
    ensures r.Success? <==> NormalizePhone(phone, e164).Success?
    ensures r.Success? ==> (r.value.username == NormalizeUsername(username) && r.value.email == NormalizeEmail(email)
      && r.value.phone == NormalizePhone(phone, e164).value && r.value.name == NormalizeName(name))
  {
    match NormalizePhone(phone, e164)
    case Failure(e) => Failure(e)
    case Success(p) =>
      Success(LookupInputs(NormalizeUsername(username), NormalizeEmail(email), p, NormalizeName(name)))
  }

  /** Stripping and lower-casing a value already stripped and lower-cased changes nothing. */
  lemma StripLowerIdempotent(value: Option<string>)
    ensures StripLower(StripLower(value)) == StripLower(value)
  {
    if StripLower(value).Some? {
      var t := StripLower(value).value;
      StripTrimmed(t);
      LowerOfLower(t);
      assert StripLower(Some(t)) == Some(Lower(Strip(t)));
    }
  }

  /** Joining words by single spaces and normalising again gives the same name. */
  lemma NormalizeNameIdempotent(value: Option<string>)
    ensures NormalizeName(NormalizeName(value)) == NormalizeName(value)
  {
    if NormalizeName(value).Some? {
      var t := NormalizeName(value).value;
      var ws := Words(Strip(t));
      WordsStrip(t);
      assert ws == Words(t);
      assert Join(ws, " ") == t;
    }
  }

  /** Every field of `from_raw`'s result is in normal form, so nothing downstream re-normalises. */
  lemma FromRawIsNormalized(username: Option<string>, email: Option<string>, phone: Option<string>,
                            name: Option<string>, e164: string -> Option<string>)
    requires FromRaw(username, email, phone, name, e164).Success?
    ensures IsNormalized(FromRaw(username, email, phone, name, e164).value)
  {
    StripLowerIdempotent(username);
    StripLowerIdempotent(email);
    NormalizeNameIdempotent(name);
  }

  /** Example from the test suite: surrounding blanks and capitals are removed. */
  lemma NormalizeUsernameExample()
    ensures NormalizeUsername(Some("  Alice ")) == Some("alice")
  {
    var u := "  Alice ";
    assert !IsSpace('A') && !IsSpace('e');
    assert LeadingSpaces(u[2..]) == 0;
    assert LeadingSpaces(u) == 2;
    var rest := u[2..];
    assert rest == "Alice ";
    assert rest[..5] == "Alice";
    assert TrailingSpaces(rest[..5]) == 0;
    assert TrailingSpaces(rest) == 1;
    assert Strip(u) == "Alice";
    assert Lower("Alice") == "alice";
  }

  /** Example from the test suite: an address is lower-cased. */
  lemma NormalizeEmailExample()
    ensures NormalizeEmail(Some("Alice@Example.COM")) == Some("alice@example.com")
  {
    var e := "Alice@Example.COM";
    assert !IsSpace('A') && !IsSpace('M');
    StripTrimmed(e);
    var l := Lower(e);
    assert l[0] == 'a' && l[6] == 'e' && l[14] == 'c' && l[15] == 'o' && l[16] == 'm';
    assert l == "alice@example.com";
    assert NormalizeEmail(Some(e)) == Some(Lower(Strip(e)));
  }
}
