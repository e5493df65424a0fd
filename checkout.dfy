/**
 * The checkout form: twelve text fields, the per-field validation rules, the
 * error map they fill, the input handler that edits one field, and the submit
 * decision.
 */
module Checkout {
  import opened Text
  import opened Effects

  datatype Field =
    | FirstName | LastName | Email | Phone | Address | City
    | ZipCode | Country | CardNumber | CardName | ExpiryDate | Cvv

  datatype FormData = FormData(
    firstName: string, lastName: string, email: string, phone: string,
    address: string, city: string, zipCode: string, country: string,
    cardNumber: string, cardName: string, expiryDate: string, cvv: string)

  /** `formData[name]`. */
  function Get(form: FormData, f: Field): string {
    match f
    case FirstName => form.firstName
    case LastName => form.lastName
    case Email => form.email
    case Phone => form.phone
    case Address => form.address
    case City => form.city
    case ZipCode => form.zipCode
    case Country => form.country
    case CardNumber => form.cardNumber
    case CardName => form.cardName
    case ExpiryDate => form.expiryDate
    case Cvv => form.cvv
  }

  /** `{ ...prev, [name]: value }`: the named field takes the value, every other field keeps its own. */
  function With(form: FormData, f: Field, value: string): (r: FormData)
    ensures Get(r, f) == value
    ensures forall g :: g != f ==> Get(r, g) == Get(form, g)
  {
    match f
    case FirstName => form.(firstName := value)
    case LastName => form.(lastName := value)
    case Email => form.(email := value)
    case Phone => form.(phone := value)
    case Address => form.(address := value)
    case City => form.(city := value)
    case ZipCode => form.(zipCode := value)
    case Country => form.(country := value)
    case CardNumber => form.(cardNumber := value)
    case CardName => form.(cardName := value)
    case ExpiryDate => form.(expiryDate := value)
    case Cvv => form.(cvv := value)
  }

  const EmptyForm: FormData := FormData("", "", "", "", "", "", "", "", "", "", "", "")

  /** `!s.trim()` is false. */
  predicate Filled(s: string) {
    Trim(s) != []
  }

  /** `/\S+@\S+\.\S+/.test(s)`: somewhere in `s`, non-space, `@`, a run of non-space, `.`, non-space. */
  predicate MatchesEmailPattern(s: string) {
    exists at, dot :: 0 <= at < dot < |s| && EmailMatchAt(s, at, dot)
  }

  /** The pattern matches with its `@` at index `at` and its `.` at index `dot`. */
  predicate EmailMatchAt(s: string, at: int, dot: int) {
    1 <= at && at + 2 <= dot && dot + 1 < |s|
    && s[at] == '@' && s[dot] == '.'
    && !IsWhitespace(s[at - 1]) && !IsWhitespace(s[dot + 1])
    && (forall k :: at < k < dot ==> !IsWhitespace(s[k]))
  }

  /** `/^\d{10,}$/.test(d)`. */
  predicate MatchesPhoneDigitsPattern(d: string) {
    |d| >= 10 && forall i :: 0 <= i < |d| ==> IsDigit(d[i])
  }

  /** `/^\d{2}\/\d{2}$/.test(s)`. */
  predicate MatchesExpiryPattern(s: string) {
    |s| == 5 && IsDigit(s[0]) && IsDigit(s[1]) && s[2] == '/' && IsDigit(s[3]) && IsDigit(s[4])
  }

  /** `/^\d{3,4}$/.test(s)`. */
  predicate MatchesCvvPattern(s: string) {
    (|s| == 3 || |s| == 4) && forall i :: 0 <= i < |s| ==> IsDigit(s[i])
  }

  /** `!s.trim() || !/\S+@\S+\.\S+/.test(s)` is false. */
  predicate EmailValid(s: string) {
    Filled(s) && MatchesEmailPattern(s)
  }

  /** `!s.trim() || !/^\d{10,}$/.test(s.replace(/\D/g, ''))` is false. */
  predicate PhoneValid(s: string) {
    Filled(s) && MatchesPhoneDigitsPattern(RemoveNonDigits(s))
  }

  /**
   * `!s.trim() || s.replace(/\s/g, '').length !== 16` is false; `length` counts
   * UTF-16 code units.
   */
  predicate CardNumberValid(s: string) {
    Filled(s) && Utf16Length(RemoveWhitespace(s)) == 16
  }

  /** `!s.trim() || !/^\d{2}\/\d{2}$/.test(s)` is false. */
  predicate ExpiryValid(s: string) {
    Filled(s) && MatchesExpiryPattern(s)
  }

  /** `!s.trim() || !/^\d{3,4}$/.test(s)` is false. */
  predicate CvvValid(s: string) {
    Filled(s) && MatchesCvvPattern(s)
  }

  /** The condition under which `validateForm` records no error for field `f`. */
  predicate FieldValid(f: Field, form: FormData) {
    match f
    case FirstName => Filled(form.firstName)
    case LastName => Filled(form.lastName)
    case Email => EmailValid(form.email)
    case Phone => PhoneValid(form.phone)
    case Address => Filled(form.address)
    case City => Filled(form.city)
    case ZipCode => Filled(form.zipCode)
    case Country => Filled(form.country)
    case CardNumber => CardNumberValid(form.cardNumber)
    case CardName => Filled(form.cardName)
    case ExpiryDate => ExpiryValid(form.expiryDate)
    case Cvv => CvvValid(form.cvv)
  }

  function Message(f: Field): string {
    match f
    case FirstName => "First name is required"
    case LastName => "Last name is required"
    case Email => "Valid email is required"
    case Phone => "Valid phone number is required"
    case Address => "Address is required"
    case City => "City is required"
    case ZipCode => "ZIP code is required"
    case Country => "Country is required"
    case CardNumber => "Valid 16-digit card number is required"
    case CardName => "Cardholder name is required"
    case ExpiryDate => "Expiry date (MM/YY) is required"
    case Cvv => "Valid CVV is required"
  }

  predicate IsRequiredTextField(f: Field) {
    f in {FirstName, LastName, Address, City, ZipCode, Country, CardName}
  }

  /** The seven plain fields fail exactly when they are blank. */
  lemma RequiredFieldValidIff(f: Field, form: FormData)
    requires IsRequiredTextField(f)
    ensures FieldValid(f, form) <==> HasNonWhitespace(Get(form, f))
  {
    TrimNonEmptyIff(Get(form, f));
  }

  lemma NonWhitespaceMember(s: string, c: char)
    requires c in s && !IsWhitespace(c)
    ensures HasNonWhitespace(s)
  {
    var i :| 0 <= i < |s| && s[i] == c;
  }

  /** The email rule is the unanchored pattern alone: a match is never blank. */
  lemma EmailValidIff(s: string)
    ensures EmailValid(s) <==> MatchesEmailPattern(s)
  {
    TrimNonEmptyIff(s);
    if MatchesEmailPattern(s) {
      var at, dot :| 0 <= at < dot < |s| && EmailMatchAt(s, at, dot);
      assert !IsWhitespace(s[at]);
    }
  }

  /** The phone rule counts digits: at least ten of them, whatever else the value holds. */
  lemma PhoneValidIff(s: string)
    ensures PhoneValid(s) <==> |RemoveNonDigits(s)| >= 10
  {
    var d := RemoveNonDigits(s);
    TrimNonEmptyIff(s);
    if |d| >= 10 {
      assert IsDigit(d[0]) && d[0] in d;
      assert d[0] in s && !IsWhitespace(d[0]);
      NonWhitespaceMember(s, d[0]);
      assert MatchesPhoneDigitsPattern(d);
    }
  }

  /**
   * The card number rule is a length check, in UTF-16 code units, after deleting
   * whitespace; any characters pass, and for characters of the Basic
   * Multilingual Plane it asks for exactly 16 of them.
   */
  lemma CardNumberValidIff(s: string)
    ensures CardNumberValid(s) <==> Utf16Length(RemoveWhitespace(s)) == 16
    ensures (forall i :: 0 <= i < |s| ==> s[i] < '\U{10000}') ==>
              (CardNumberValid(s) <==> |RemoveWhitespace(s)| == 16)
  {
    var r := RemoveWhitespace(s);
    TrimNonEmptyIff(s);
    if (forall i :: 0 <= i < |s| ==> s[i] < '\U{10000}') {
      forall i | 0 <= i < |r|
        ensures r[i] < '\U{10000}'
      {
        assert r[i] in s;
      }
    }
    if Utf16Length(r) == 16 {
      NonWhitespaceMember(s, r[0]);
    }
  }

  /** The expiry rule is the `MM/YY` shape alone; months such as `13` pass. */
  lemma ExpiryValidIff(s: string)
    ensures ExpiryValid(s) <==> MatchesExpiryPattern(s)
  {
    TrimNonEmptyIff(s);
    if MatchesExpiryPattern(s) {
      assert !IsWhitespace(s[2]);
    }
  }

  /** The CVV rule is three or four digits and nothing else. */
  lemma CvvValidIff(s: string)
    ensures CvvValid(s) <==> MatchesCvvPattern(s)
  {
    TrimNonEmptyIff(s);
    if MatchesCvvPattern(s) {
      assert !IsWhitespace(s[0]);
    }
  }

  /** Every field of the form. */
  const AllFields: set<Field> :=
    {FirstName, LastName, Email, Phone, Address, City, ZipCode, Country, CardNumber, CardName, ExpiryDate, Cvv}

  /**
   * The `newErrors` object `validateForm` builds: one entry per field whose
   * rule fails, holding that field's message, and no other entry.
   */
  function FormErrors(form: FormData): (r: map<Field, string>)
    ensures forall f :: f in r <==> !FieldValid(f, form)
    ensures forall f :: f in r ==> r[f] == Message(f)
  {
    EveryFieldListed();
    map f | f in AllFields && !FieldValid(f, form) :: Message(f)
  }

  lemma EveryFieldListed()
    ensures forall f: Field :: f in AllFields
  {
    forall f: Field
      ensures f in AllFields
    {
      match f
      case FirstName => case LastName => case Email => case Phone =>
      case Address => case City => case ZipCode => case Country =>
      case CardNumber => case CardName => case ExpiryDate => case Cvv =>
    }
  }

  /** `Object.keys(newErrors).length === 0` holds exactly when every rule passes. */
  lemma FormErrorsEmptyIff(form: FormData)
    ensures |FormErrors(form)| == 0 <==> forall f :: FieldValid(f, form)
  {
    if |FormErrors(form)| != 0 {
      var f :| f in FormErrors(form);
    }
  }

  /** The state of the checkout page: the form and the error map shown beside it. */
  class CheckoutForm {
    var formData: FormData
    var errors: map<Field, string>

    constructor ()
      ensures formData == EmptyForm && errors == map[]
    {
      formData := EmptyForm;
      errors := map[];
    }

    /**
     * `handleInputChange`: the named field takes the typed value; an error shown
     * for that field is replaced by the empty string (the key stays), and no
     * other error changes.
     */
    method HandleInputChange(name: Field, value: string)
      modifies this
      ensures formData == With(old(formData), name, value)
      ensures name in old(errors) && old(errors)[name] != "" ==> errors == old(errors)[name := ""]
      ensures !(name in old(errors) && old(errors)[name] != "") ==> errors == old(errors)
      ensures errors.Keys == old(errors.Keys)
      ensures forall g :: g != name && g in errors ==> errors[g] == old(errors)[g]
    {
      formData := With(formData, name, value);
      if name in errors && errors[name] != "" {
        errors := errors[name := ""];
      }
    }

    /**
     * `validateForm`: rebuilds the error map from scratch, one rule per field,
     * and reports whether it came out empty.
     */
    method ValidateForm() returns (ok: bool)
      modifies this
      ensures formData == old(formData)
      ensures errors == FormErrors(formData)
      ensures ok <==> forall f :: FieldValid(f, formData)
      ensures ok <==> errors == map[]
    {
      errors := FormErrors(formData);
      FormErrorsEmptyIff(formData);
      ok := |errors| == 0;
    }

    /**
     * `handleSubmit`: a valid form shows the success toast and then clears the
     * cart and returns home; an invalid one only shows the error toast.
     */
    method HandleSubmit() returns (effects: seq<Effect>)
      modifies this
      ensures formData == old(formData)
      ensures errors == FormErrors(formData)
      ensures ClearCart in effects <==> forall f :: FieldValid(f, formData)
      ensures (forall f :: FieldValid(f, formData)) ==>
                effects == [ShowToast("Order placed successfully! \U{1F389}", Success), ClearCart, Navigate("/")]
      ensures !(forall f :: FieldValid(f, formData)) ==>
                effects == [ShowToast("Please fix the errors in the form", Error)]
    {
      var ok := ValidateForm();
      if ok {
        effects := [ShowToast("Order placed successfully! \U{1F389}", Success), ClearCart, Navigate("/")];
      } else {
        effects := [ShowToast("Please fix the errors in the form", Error)];
      }
    }
  }
}
