/**
 * The /pair entry point and the start of getPairingCode: a missing phone is refused,
 * the number is reduced to its digits, and a pairing code is requested only for an
 * unregistered account with at least eleven digits. The library's registered flag and
 * the code it returns are parameters.
 */
module Phone {
  import opened Wrappers
  import opened Digits

  const MinPhoneDigits: nat := 11
  const MissingPhoneError: string := "Provide Valid Phone Number"
  const InvalidPhoneError: string := "Enter Valid Phone Number"

  /** phone.replace(/[^0-9]/g, ''): every character outside 0-9 removed. */
  function StripNonDigits(s: string): (r: string)
    ensures AllDigits(r) && |r| <= |s|
  {
    if s == [] then [] else (if IsDigit(s[0]) then [s[0]] else []) + StripNonDigits(s[1..])
  }

  /** `phone ? phone.replace(...) : ''`: an absent or empty phone normalises to the empty string. */
  function NormalisePhone(phone: Option<string>): (r: string)
    ensures AllDigits(r)
    ensures PhoneMissing(phone) ==> r == ""
  {
    match phone
    case None => ""
    case Some(s) => StripNonDigits(s)
  }

  /** `!phone` for a query parameter: absent or the empty string. */
  predicate PhoneMissing(phone: Option<string>) {
    phone.None? || phone.value == ""
  }

  /** How a call of getPairingCode proceeds once the connection exists. */
  datatype PairingStart =
    | Rejected(error: string)         // the promise rejects; no event handler is subscribed
    | CodeRequested(number: string)   // a pairing code is requested for this number
    | AlreadyRegistered               // no code is requested and the promise stays pending

  /** The registered check and length check of getPairingCode. */
  function StartPairing(phone: Option<string>, registered: bool): (r: PairingStart)
    ensures r.CodeRequested? ==> AllDigits(r.number) && |r.number| >= MinPhoneDigits
  {
    if registered then AlreadyRegistered
    else
      var number := NormalisePhone(phone);
      if |number| < MinPhoneDigits then Rejected(InvalidPhoneError) else CodeRequested(number)
  }

  /** What the /pair handler answers. */
  datatype PairResponse =
    | ErrorJson(error: string)             // res.json({error})
    | CodeJson(code: string)               // res.json({code})
    | Unanswered(rejection: Option<string>) // no JSON is sent: the awaited promise rejected, or never settled

  /** The /pair handler, given the library's registered flag and the code it would return. */
  function PairEndpoint(phone: Option<string>, registered: bool, code: string): (r: PairResponse)
    ensures PhoneMissing(phone) <==> r == ErrorJson(MissingPhoneError)
  {
    if PhoneMissing(phone) then ErrorJson(MissingPhoneError)
    else
      match StartPairing(phone, registered)
      case Rejected(e) => Unanswered(Some(e))
      case CodeRequested(_) => CodeJson(code)
      case AlreadyRegistered => Unanswered(None)
  }

  /** Stripping distributes over concatenation. */
  lemma {:induction false} StripAppend(a: string, b: string)
    ensures StripNonDigits(a + b) == StripNonDigits(a) + StripNonDigits(b)
  {
    if a != [] {
      assert (a + b)[0] == a[0] && (a + b)[1..] == a[1..] + b;
      StripAppend(a[1..], b);
    } else {
      assert a + b == b;
    }
  }

  /** A single character is kept exactly when it is a digit. */
  lemma StripChar(c: char)
    ensures StripNonDigits([c]) == if IsDigit(c) then [c] else []
  {
    assert [c][1..] == [];
  }

  /** Together with StripAppend and StripChar: the result is the input's digits, in order. */
  lemma {:induction false} StripKeepsDigits(s: string)
    ensures StripNonDigits(s) == s <==> AllDigits(s)
  {
    if s != [] {
      StripKeepsDigits(s[1..]);
      if !IsDigit(s[0]) {
        assert |StripNonDigits(s)| < |s|;
      }
    }
  }

  lemma StripIdempotent(s: string)
    ensures StripNonDigits(StripNonDigits(s)) == StripNonDigits(s)
  {
    StripKeepsDigits(StripNonDigits(s));
  }

  /** The number of characters kept is the number of digits in the input. */
  function CountDigits(s: string): nat {
    if s == [] then 0 else (if IsDigit(s[0]) then 1 else 0) + CountDigits(s[1..])
  }

  lemma {:induction false} StripLength(s: string)
    ensures |StripNonDigits(s)| == CountDigits(s)
  {
    if s != [] {
      StripLength(s[1..]);
    }
  }

  /** Both directions of the length check, for an unregistered account. */
  lemma StartPairingUnregistered(phone: Option<string>)
    ensures StartPairing(phone, false).Rejected? <==> |NormalisePhone(phone)| < MinPhoneDigits
    ensures StartPairing(phone, false).CodeRequested? <==>
      StartPairing(phone, false) == CodeRequested(NormalisePhone(phone))
    ensures StartPairing(phone, false).Rejected? || StartPairing(phone, false).CodeRequested?
    ensures StartPairing(phone, false).Rejected? ==> StartPairing(phone, false).error == InvalidPhoneError
  {
  }

  /** An input with fewer than eleven digits, whatever else it contains, requests no code. */
  lemma FewDigitsRejected(s: string, code: string)
    requires CountDigits(s) < MinPhoneDigits
    ensures StartPairing(Some(s), false) == Rejected(InvalidPhoneError)
    ensures !PairEndpoint(Some(s), false, code).CodeJson?
  {
    StripLength(s);
  }

  /** The restarted flow is called without a phone: an unregistered account is always rejected. */
  lemma RestartWithoutPhone()
    ensures StartPairing(None, false) == Rejected(InvalidPhoneError)
    ensures StartPairing(None, true) == AlreadyRegistered
  {
  }

  /** A code is answered only if one was requested, with at least eleven digits. */
  lemma CodeOnlyForValidNumber(phone: Option<string>, registered: bool, code: string)
    ensures PairEndpoint(phone, registered, code).CodeJson? <==>
      !PhoneMissing(phone) && !registered && |NormalisePhone(phone)| >= MinPhoneDigits
  {
  }

  /** Example: too few digits. */
  lemma ShortNumberExample()
    ensures StartPairing(Some("123"), false) == Rejected(InvalidPhoneError)
  {
    StripKeepsDigits("123");
  }

  /** A number written with digits only, eleven or more of them, is requested unchanged. */
  lemma DigitsOnlyAccepted(s: string)
    requires AllDigits(s) && |s| >= MinPhoneDigits
    ensures StartPairing(Some(s), false) == CodeRequested(s)
  {
    StripKeepsDigits(s);
  }

  /** Punctuation between the digits is dropped and the digits are kept in order. */
  lemma PunctuationDropped(a: string, sep: string, b: string)
    requires AllDigits(a) && AllDigits(b)
    requires forall i :: 0 <= i < |sep| ==> !IsDigit(sep[i])
    ensures StripNonDigits(a + sep + b) == a + b
  {
    StripKeepsDigits(a);
    StripKeepsDigits(b);
    NoDigitsStripped(sep);
    JoinStripped(a, sep, b);
  }

  lemma JoinStripped(a: string, sep: string, b: string)
    requires StripNonDigits(a) == a && StripNonDigits(sep) == [] && StripNonDigits(b) == b
    ensures StripNonDigits(a + sep + b) == a + b
  {
    StripAppend(a + sep, b);
    StripAppend(a, sep);
  }

  lemma {:induction false} NoDigitsStripped(s: string)
    requires forall i :: 0 <= i < |s| ==> !IsDigit(s[i])
    ensures StripNonDigits(s) == ""
  {
    if s != [] {
      NoDigitsStripped(s[1..]);
    }
  }
}
