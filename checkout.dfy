/**
 * The checkout page: the three field checks (name, e-mail, address) on the
 * trimmed inputs, their accumulated inline errors, and what a successful
 * submission does to the stored cart and to the page.
 */
module Checkout {
  import opened Wrappers
  import opened CartLines
  import opened Storage
  import opened Text

  // ---------------------------------------------------------------------
  // E-mail pattern ^[^\s@]+@[^\s@]+\.[^\s@]+$
  // ---------------------------------------------------------------------

  /** A character of the class `[^\s@]`. */
  predicate PlainChar(c: char)
  {
    !IsWhitespace(c) && c != '@'
  }

  /** A (possibly empty) run of `[^\s@]`. */
  predicate PlainRun(s: string)
  {
    forall k :: 0 <= k < |s| ==> PlainChar(s[k])
  }

  /**
   * `emailRegex.test(s)`: the whole string is a non-empty plain run, an `@`,
   * a non-empty plain run, a `.` and a non-empty plain run. A plain run may
   * itself hold dots, so `dot` is any dot after the `@` with text on both sides.
   */
  predicate MatchesEmailPattern(s: string)
  {
    exists at, dot :: 0 < at < |s| && 0 < dot < |s| && at + 1 < dot && dot + 1 < |s|
      && s[at] == '@' && s[dot] == '.'
      && PlainRun(s[..at]) && PlainRun(s[at + 1..dot]) && PlainRun(s[dot + 1..])
  }

  predicate NoWhitespace(s: string)
  {
    forall k :: 0 <= k < |s| ==> !IsWhitespace(s[k])
  }

  /** The domain holds a `.` that is neither its first nor its last character. */
  predicate HasInnerDot(domain: string)
  {
    exists k :: 0 < k < |domain| - 1 && domain[k] == '.'
  }

  /** `s[at]` is the only `@` in `s`. */
  predicate OnlyAtSign(s: string, at: nat)
  {
    at < |s| && s[at] == '@' && forall k :: 0 <= k < |s| && k != at ==> s[k] != '@'
  }

  /**
   * The same language described field by field: no white space anywhere,
   * exactly one `@`, a non-empty part before it, and a domain after it
   * with an inner dot.
   */
  predicate WellFormedEmail(s: string)
  {
    NoWhitespace(s) && exists at :: 0 < at < |s| && OnlyAtSign(s, at) && HasInnerDot(s[at + 1..])
  }

  lemma PatternIsWellFormed(s: string, at: nat, dot: nat)
    requires 0 < at && at + 1 < dot && dot + 1 < |s|
    requires s[at] == '@' && s[dot] == '.'
    requires PlainRun(s[..at]) && PlainRun(s[at + 1..dot]) && PlainRun(s[dot + 1..])
    ensures WellFormedEmail(s)
  {
    forall k | 0 <= k < |s|
      ensures !IsWhitespace(s[k]) && (k != at ==> s[k] != '@')
    {
      if k < at {
        assert s[..at][k] == s[k];
      } else if at < k < dot {
        assert s[at + 1..dot][k - at - 1] == s[k];
      } else if dot < k {
        assert s[dot + 1..][k - dot - 1] == s[k];
      }
    }
    assert OnlyAtSign(s, at);
    var domain := s[at + 1..];
    assert domain[dot - at - 1] == '.';
    assert HasInnerDot(domain);
  }

  lemma WellFormedIsPattern(s: string, at: nat)
    requires NoWhitespace(s) && 0 < at < |s| && OnlyAtSign(s, at) && HasInnerDot(s[at + 1..])
    ensures MatchesEmailPattern(s)
  {
    var domain := s[at + 1..];
    var k :| 0 < k < |domain| - 1 && domain[k] == '.';
    var dot := at + 1 + k;
    assert s[dot] == '.';
    forall j | 0 <= j < |s| && j != at
      ensures PlainChar(s[j])
    {
    }
    PlainSlice(s, 0, at);
    PlainSlice(s, at + 1, dot);
    PlainSlice(s, dot + 1, |s|);
  }

  lemma PlainSlice(s: string, lo: nat, hi: nat)
    requires lo <= hi <= |s|
    requires forall j :: lo <= j < hi ==> PlainChar(s[j])
    ensures PlainRun(s[lo..hi])
  {
    forall k | 0 <= k < hi - lo
      ensures PlainChar(s[lo..hi][k])
    {
      assert s[lo..hi][k] == s[lo + k];
    }
  }

  /**
   * The regular expression accepts exactly the strings with one `@`, no
   * white space, a non-empty local part and a domain with an inner dot.
   */
  lemma EmailPatternIff(s: string)
    ensures MatchesEmailPattern(s) <==> WellFormedEmail(s)
  {
    if MatchesEmailPattern(s) {
      var at, dot :| 0 < at < |s| && 0 < dot < |s| && at + 1 < dot && dot + 1 < |s|
        && s[at] == '@' && s[dot] == '.'
        && PlainRun(s[..at]) && PlainRun(s[at + 1..dot]) && PlainRun(s[dot + 1..]);
      PatternIsWellFormed(s, at, dot);
    }
    if WellFormedEmail(s) {
      var at :| 0 < at < |s| && OnlyAtSign(s, at) && HasInnerDot(s[at + 1..]);
      WellFormedIsPattern(s, at);
    }
  }

  // ---------------------------------------------------------------------
  // Validation
  // ---------------------------------------------------------------------

  /** The inline errors, one per field, in the order the checks run. */
  datatype FieldError = NameTooShort | InvalidEmail | AddressTooShort

  function Message(e: FieldError): string
  {
    match e
    case NameTooShort => "Full name must be at least 2 characters."
    case InvalidEmail => "Please enter a valid email address."
    case AddressTooShort => "Address must be at least 5 characters."
  }

  /** Position of a field's check in the handler. */
  function CheckOrder(e: FieldError): nat
  {
    match e
    case NameTooShort => 0
    case InvalidEmail => 1
    case AddressTooShort => 2
  }

  /**
   * All three checks run on the trimmed values, whatever the earlier ones
   * found; the result lists exactly the failing fields, in the order name,
   * e-mail, address.
   */
  function Validate(name: string, email: string, address: string): seq<FieldError>
  {
    Failing(Utf16Length(Trim(name)) >= 2, MatchesEmailPattern(Trim(email)), Utf16Length(Trim(address)) >= 5)
  }

  /**
   * The reported errors are exactly the failing fields, in the order name,
   * e-mail, address; a submission is valid iff the trimmed name is at
   * least 2 UTF-16 code units long, the trimmed e-mail is well formed and
   * the trimmed address is at least 5 code units long.
   */
  lemma ValidateSpec(name: string, email: string, address: string)
    ensures var errors := Validate(name, email, address);
      && (NameTooShort in errors <==> Utf16Length(Trim(name)) < 2)
      && (InvalidEmail in errors <==> !WellFormedEmail(Trim(email)))
      && (AddressTooShort in errors <==> Utf16Length(Trim(address)) < 5)
      && (forall i, j :: 0 <= i < j < |errors| ==> CheckOrder(errors[i]) < CheckOrder(errors[j]))
      && (errors == [] <==>
            Utf16Length(Trim(name)) >= 2 && WellFormedEmail(Trim(email)) && Utf16Length(Trim(address)) >= 5)
  {
    EmailPatternIff(Trim(email));
  }

  /** The errors of the three checks, given which of them passed. */
  function Failing(nameOk: bool, emailOk: bool, addressOk: bool): seq<FieldError>
  {
    (if nameOk then [] else [NameTooShort])
    + (if emailOk then [] else [InvalidEmail])
    + (if addressOk then [] else [AddressTooShort])
  }

  /** White space around any field never changes the outcome of validation. */
  lemma ValidateIgnoresPadding(name: string, email: string, address: string, pre: string, post: string)
    requires AllWhitespace(pre) && AllWhitespace(post)
    ensures Validate(pre + name + post, email, address) == Validate(name, email, address)
    ensures Validate(name, pre + email + post, address) == Validate(name, email, address)
    ensures Validate(name, email, pre + address + post) == Validate(name, email, address)
  {
    TrimIgnoresPadding(pre, name, post);
    TrimIgnoresPadding(pre, email, post);
    TrimIgnoresPadding(pre, address, post);
  }

  /** Name "Jo" passes (length 2 is enough); e-mail "bad" and address "123" fail. */
  lemma JoBadScenario()
    ensures Validate("Jo", "bad", "123") == [InvalidEmail, AddressTooShort]
  {
    assert TrimStart("Jo") == "Jo" && TrimEnd("Jo") == "Jo";
    assert TrimStart("bad") == "bad" && TrimEnd("bad") == "bad";
    assert TrimStart("123") == "123" && TrimEnd("123") == "123";
    assert Utf16Length("Jo") == 2 by {
      assert "Jo"[..1] == "J";
      assert "J"[..0] == "";
    }
    assert forall k :: 0 <= k < |"bad"| ==> "bad"[k] != '@';
    assert !MatchesEmailPattern("bad");
  }

  /**
   * Characters above U+FFFF count twice: a one-character name such as
   * "\U{20BB7}" and a three-character address of house emoji are long
   * enough, and the whole submission passes.
   */
  lemma AstralLengthScenario()
    ensures |"\U{20BB7}"| == 1 && |"\U{1F3E0}\U{1F3E0}\U{1F3E0}"| == 3
    ensures Validate("\U{20BB7}", "a@b.co", "\U{1F3E0}\U{1F3E0}\U{1F3E0}") == []
  {
    var name, email, address := "\U{20BB7}", "a@b.co", "\U{1F3E0}\U{1F3E0}\U{1F3E0}";
    assert TrimStart(name) == name && TrimEnd(name) == name;
    assert TrimStart(email) == email && TrimEnd(email) == email;
    assert TrimStart(address) == address && TrimEnd(address) == address;
    assert Utf16Length(name) == 2 by {
      assert name[..0] == "";
    }
    assert Utf16Length(address) == 6 by {
      assert address[..2] == "\U{1F3E0}\U{1F3E0}";
      assert address[..2][..1] == "\U{1F3E0}";
      assert address[..2][..1][..0] == "";
    }
    assert email[..1] == "a" && email[2..3] == "b" && email[4..] == "co";
    assert PlainRun(email[..1]) && PlainRun(email[2..3]) && PlainRun(email[4..]);
    assert MatchesEmailPattern(email) by {
      assert email[1] == '@' && email[3] == '.';
    }
  }

  /** The three inline error texts are pairwise different, so each names its field. */
  lemma MessagesDistinct(a: FieldError, b: FieldError)
    ensures Message(a) == Message(b) <==> a == b
  {
  }

  /** The confirmation banner's text. */
  function Confirmation(name: string): (text: string)
    ensures |text| == |name| + 53
    ensures text[11..11 + |name|] == name
  {
    "Thank you, " + name + "! Your order has been placed successfully."
  }

  /**
   * The body of the submit handler's checks on the trimmed values: each
   * failing check appends its error and clears the `isValid` flag, and no
   * check is skipped.
   */
  method RunChecks(name: string, email: string, address: string)
    returns (errors: seq<FieldError>, isValid: bool)
    ensures errors == Failing(Utf16Length(name) >= 2, MatchesEmailPattern(email), Utf16Length(address) >= 5)
    ensures isValid <==> errors == []
  {
    isValid := true;
    errors := [];
    if Utf16Length(name) < 2 {
      errors := errors + [NameTooShort];
      isValid := false;
    }
    if !MatchesEmailPattern(email) {
      errors := errors + [InvalidEmail];
      isValid := false;
    }
    if Utf16Length(address) < 5 {
      errors := errors + [AddressTooShort];
      isValid := false;
    }
  }

  // ---------------------------------------------------------------------
  // The form
  // ---------------------------------------------------------------------

  /** The form's three input values, the inline errors shown and the confirmation banner. */
  class CheckoutForm {
    var name: string
    var email: string
    var address: string
    var errors: seq<FieldError>
    var confirmation: Option<string>

    /** The texts of the error paragraphs under the fields, in the order they were added. */
    function ErrorTexts(): (texts: seq<string>)
      reads this
      ensures |texts| == |errors|
      ensures forall i :: 0 <= i < |texts| ==> texts[i] == Message(errors[i])
    {
      seq(|errors|, i requires 0 <= i < |errors| reads this => Message(errors[i]))
    }

    constructor ()
      ensures name == "" && email == "" && address == ""
      ensures errors == [] && confirmation == None
    {
      name, email, address := "", "", "";
      errors := [];
      confirmation := None;
    }

    /**
     * The submit handler. Earlier errors are cleared first, so the errors
     * shown afterwards depend only on the current inputs. On failure the
     * cart, the inputs and the banner are left as they were; on success the
     * cart slot is removed, the banner thanks the trimmed name and the form
     * is reset.
     */
    method Submit(store: Store) returns (placed: bool)
      modifies this, store
      ensures errors == Validate(old(name), old(email), old(address))
      ensures placed <==> errors == []
      ensures !placed ==> store.slot == old(store.slot) && confirmation == old(confirmation)
      ensures !placed ==> name == old(name) && email == old(email) && address == old(address)
      ensures placed ==> store.slot == None
      ensures placed ==> confirmation == Some(Confirmation(Trim(old(name))))
      ensures placed ==> name == "" && email == "" && address == ""
    {
      var trimmedName := Trim(name);
      var errs, isValid := RunChecks(trimmedName, Trim(email), Trim(address));
      errors := errs;
      if !isValid {
        return false;
      }
      store.Clear();
      confirmation := Some(Confirmation(trimmedName));
      name, email, address := "", "", "";
      return true;
    }
  }
}
