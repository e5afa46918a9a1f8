/** The phone / country-code pair that AddClientModal, AboutClient and BillingForm share:
    the two zod rules (written out identically in each schema) and the split their
    PhoneInput `onChange` handlers perform (also written out identically three times). */
module PhoneFields {
  import opened Wrappers
  import opened Text
  import opened Zod

  const NoDialCode := "No dial code found"

  /** `phone` / `billing_phone`: 10 to 13 characters and a plausible mobile number. */
  const PhoneChecks := [
    MinLength(10, "Phone number must be at least 10 digits"),
    MaxLength(13, "Phone number cannot exceed 11 digits"),
    MobilePhone("Please enter a valid phone number")]

  /** `country_code`: 1 to 3 characters, digits only. */
  const CountryCodeChecks := [
    MinLength(1, "Country code is required"),
    MaxLength(3, "Country code cannot exceed 3 digits"),
    DigitsOnly("Country code must contain only numbers")]

  /** The result of one `onChange`: the values written to `country_code` and to the phone field. */
  datatype Split = Split(countryCode: string, phone: string)

  /** `countryData?.dialCode || "No dial code found"`: a missing or empty dial code falls back. */
  function CountryCodeFrom(dialCode: Option<string>): string {
    if dialCode.None? || dialCode.value == "" then NoDialCode else dialCode.value
  }

  /** `value.replace(`+${countryCode}`, "")`. */
  function SplitPhone(value: string, dialCode: Option<string>): Split {
    var code := CountryCodeFrom(dialCode);
    Split(code, RemoveFirst(value, "+" + code))
  }

  /** The phone rule accepts exactly the 10-13 character values the mobile predicate accepts. */
  lemma PhoneAcceptedIff(s: string, o: Oracles)
    ensures StringIssue(Some(s), PhoneChecks, o).None? <==> 10 <= |s| <= 13 && o.isMobilePhone(s)
  {
    assert Holds(PhoneChecks[0], s, o) && Holds(PhoneChecks[1], s, o) && Holds(PhoneChecks[2], s, o)
       <==> 10 <= |s| <= 13 && o.isMobilePhone(s);
  }

  /** The country-code rule accepts exactly the strings of one to three decimal digits. */
  lemma CountryCodeAcceptedIff(s: string, o: Oracles)
    ensures StringIssue(Some(s), CountryCodeChecks, o).None? <==> 1 <= |s| <= 3 && IsDigitString(s)
  {
    assert Holds(CountryCodeChecks[0], s, o) && Holds(CountryCodeChecks[1], s, o) && Holds(CountryCodeChecks[2], s, o)
       <==> 1 <= |s| <= 3 && IsDigitString(s);
  }

  /** A missing or empty dial code gives the fallback literal, which always fails the
      country-code rule, on its length first. */
  lemma FallbackRejected(value: string, dialCode: Option<string>, o: Oracles)
    requires dialCode.None? || dialCode.value == ""
    ensures var d := SplitPhone(value, dialCode);
            d.countryCode == NoDialCode &&
            StringIssue(Some(d.countryCode), CountryCodeChecks, o) == Some("Country code cannot exceed 3 digits")
  {
    assert Holds(CountryCodeChecks[0], NoDialCode, o) && !Holds(CountryCodeChecks[1], NoDialCode, o);
    assert FirstIssue(CountryCodeChecks[1..], NoDialCode, o) == Some("Country code cannot exceed 3 digits");
  }

  /** The derived country code passes its rule exactly when the dial code is 1-3 digits. */
  lemma DerivedCountryCodeAcceptedIff(value: string, dialCode: Option<string>, o: Oracles)
    ensures StringIssue(Some(SplitPhone(value, dialCode).countryCode), CountryCodeChecks, o).None?
            <==> dialCode.Some? && 1 <= |dialCode.value| <= 3 && IsDigitString(dialCode.value)
  {
    var code := SplitPhone(value, dialCode).countryCode;
    CountryCodeAcceptedIff(code, o);
    if dialCode.None? || dialCode.value == "" {
      assert code == NoDialCode && |code| == 18;
    }
  }

  /** A value that starts with `+` and the dial code loses exactly that prefix. */
  lemma SplitStripsLeadingDialCode(code: string, rest: string)
    requires code != ""
    ensures SplitPhone("+" + code + rest, Some(code)) == Split(code, rest)
  {
    var p := "+" + code;
    var s := p + rest;
    assert s[..|p|] == p && s[|p|..] == rest;
    RemoveFirstPrefix(s, p);
  }

  /** A value with no `+` in it is written to the phone field unchanged. */
  lemma SplitWithoutPlusKeepsValue(value: string, dialCode: Option<string>)
    requires '+' !in value
    ensures SplitPhone(value, dialCode).phone == value
  {
    var p := "+" + CountryCodeFrom(dialCode);
    forall j: nat ensures !OccursAt(value, p, j) {
      if j + |p| <= |value| {
        assert value[j] in value;
        assert value[j..j + |p|][0] == value[j] != p[0];
      }
    }
    RemoveFirstAbsent(value, p);
  }

  /** In general the phone value is the raw value with its first `+code` cut out, wherever that
      occurrence starts, and nothing else changes. */
  lemma SplitRemovesFirstOccurrence(value: string, dialCode: Option<string>, i: nat)
    requires OccursAt(value, "+" + CountryCodeFrom(dialCode), i)
    requires forall j: nat :: j < i ==> !OccursAt(value, "+" + CountryCodeFrom(dialCode), j)
    ensures var p := "+" + CountryCodeFrom(dialCode);
            SplitPhone(value, dialCode).phone == value[..i] + value[i + |p|..]
    ensures |SplitPhone(value, dialCode).phone| == |value| - 1 - |CountryCodeFrom(dialCode)|
  {
    RemoveFirstAt(value, "+" + CountryCodeFrom(dialCode), i);
  }

  /** The split is not a prefix strip: an occurrence of `+code` later in the value is
      removed too. */
  lemma SplitRemovesInnerOccurrence()
    ensures SplitPhone("0171+880", Some("880")).phone == "0171"
  {
    var s1, p1 := "0171+880", "+880";
    assert CountryCodeFrom(Some("880")) == "880";
    assert "+" + "880" == p1;
    assert OccursAt(s1, p1, 4);
    forall j: nat | j < 4 ensures !OccursAt(s1, p1, j) {
      assert s1[j] != '+';
      assert j + 4 <= |s1| ==> s1[j..j + 4][0] == s1[j];
    }
    RemoveFirstAt(s1, p1, 4);
    assert s1[..4] == "0171" && s1[8..] == "";
  }

  /** Only the first occurrence goes: a second `+code` stays in the phone value. */
  lemma SplitRemovesFirstOccurrenceOnly()
    ensures SplitPhone("+1555+1", Some("1")).phone == "555+1"
  {
    var s2 := "+1555+1";
    assert CountryCodeFrom(Some("1")) == "1";
    assert "+" + "1" == "+1";
    assert s2[..2] == "+1";
    RemoveFirstPrefix(s2, "+1");
    assert s2[2..] == "555+1";
  }
}
