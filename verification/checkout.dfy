/** The checkout page's own rules (src/app/checkout/page.tsx): the plan table
    the page prices from, and the client-side validation of the customer form,
    which differs from the server's checks. */
module Checkout {
  import opened Common
  import opened Strings
  import opened OrderModel
  import opened Validations
  import opened CreateRoute

  /** The `PLANS` table's prices; any other own key of the table is absent,
      and the page then renders "Invalid Plan". */
  function PlanPrice(planKey: string): (price: Option<int>)
    ensures price.Some? <==> planKey in {"monthly", "weekly", "trial"}
  {
    if planKey == "monthly" then Some(1950)
    else if planKey == "weekly" then Some(455)
    else if planKey == "trial" then Some(70)
    else None
  }

  /** Every plan the page offers is accepted by the create route, and when the
      page's price is sent the order costs what the route's own table says. */
  lemma PlanPricesAgreeWithServer(planKey: string)
    requires PlanPrice(planKey).Some?
    ensures ParsePackage(PackageForPlan(planKey)).Some?
    ensures PlanPrice(planKey).value == PackagePrice(ParsePackage(PackageForPlan(planKey)).value)
    ensures ChosenAmount(PlanPrice(planKey), ParsePackage(PackageForPlan(planKey)).value) == PlanPrice(planKey).value
  {
  }

  const NAME_REQUIRED: string := "Full name is required"
  const NAME_TOO_SHORT: string := "Name must be at least 2 characters"
  const PHONE_REQUIRED: string := "Phone number is required"
  const PHONE_INVALID: string := "Please enter a valid 10-digit phone number"
  const ADDRESS_REQUIRED: string := "Address is required"
  const ADDRESS_INCOMPLETE: string := "Please provide a complete address"
  const PINCODE_REQUIRED: string := "Pincode is required"
  const PINCODE_INVALID: string := "Please enter a valid 6-digit pincode"

  /** The message for one field, if any; "required" is checked first. */
  function NameError(fullName: string): Option<string>
  {
    if Trim(fullName) == "" then Some(NAME_REQUIRED)
    else if |Trim(fullName)| < 2 then Some(NAME_TOO_SHORT)
    else None
  }

  function PhoneError(phone: string): Option<string>
  {
    if Trim(phone) == "" then Some(PHONE_REQUIRED)
    else if |DigitsOnly(phone)| != 10 then Some(PHONE_INVALID)
    else None
  }

  function AddressError(address: string): Option<string>
  {
    if Trim(address) == "" then Some(ADDRESS_REQUIRED)
    else if |Trim(address)| < 10 then Some(ADDRESS_INCOMPLETE)
    else None
  }

  /** The format test runs on the pincode as typed, not trimmed. */
  function PincodeError(pincode: string): Option<string>
  {
    if Trim(pincode) == "" then Some(PINCODE_REQUIRED)
    else if !(|pincode| == 6 && AllDigits(pincode)) then Some(PINCODE_INVALID)
    else None
  }

  function Record(errors: map<string, string>, field: string, e: Option<string>): map<string, string>
  {
    if e.Some? then errors[field := e.value] else errors
  }

  /** What the form rules ask for, stated directly: a name of at least two
      characters once trimmed, a phone holding exactly ten digits, an address
      of at least ten characters once trimmed, and a pincode of exactly six
      digits as typed. */
  predicate FormAcceptable(fullName: string, phone: string, address: string, pincode: string)
  {
    |Trim(fullName)| >= 2 && |DigitsOnly(phone)| == 10 && |Trim(address)| >= 10
    && |pincode| == 6 && AllDigits(pincode)
  }

  /** A string holding a digit is not blank. */
  lemma DigitAtMeansNotBlank(s: string, i: int)
    requires 0 <= i < |s| && IsDigit(s[i])
    ensures Trim(s) != ""
  {
  }

  /** Some character of a string is a digit whenever its digits are not empty. */
  lemma {:induction false} SomeDigit(s: string) returns (i: int)
    requires DigitsOnly(s) != ""
    ensures 0 <= i < |s| && IsDigit(s[i])
    decreases |s|
  {
    if IsDigit(s[0]) {
      i := 0;
    } else {
      assert DigitsOnly(s) == DigitsOnly(s[1..]);
      var j := SomeDigit(s[1..]);
      i := j + 1;
    }
  }

  /** `validateForm`: the error record, keyed by field. Each field gets at most
      one message, "required" taking priority. */
  function ValidateForm(fullName: string, phone: string, address: string, pincode: string)
    : (errors: map<string, string>)
    ensures errors.Keys <= {"fullName", "phone", "address", "pincode"}
    ensures "fullName" in errors <==> |Trim(fullName)| < 2
    ensures "phone" in errors <==> Trim(phone) == "" || |DigitsOnly(phone)| != 10
    ensures "address" in errors <==> |Trim(address)| < 10
    ensures "pincode" in errors <==> Trim(pincode) == "" || !(|pincode| == 6 && AllDigits(pincode))
    ensures "fullName" in errors ==> errors["fullName"] == if Trim(fullName) == "" then NAME_REQUIRED else NAME_TOO_SHORT
    ensures "phone" in errors ==> errors["phone"] == if Trim(phone) == "" then PHONE_REQUIRED else PHONE_INVALID
    ensures "address" in errors ==> errors["address"] == if Trim(address) == "" then ADDRESS_REQUIRED else ADDRESS_INCOMPLETE
    ensures "pincode" in errors ==> errors["pincode"] == if Trim(pincode) == "" then PINCODE_REQUIRED else PINCODE_INVALID
  {
    Record(Record(Record(Record(map[], "fullName", NameError(fullName)),
                         "phone", PhoneError(phone)),
                  "address", AddressError(address)),
           "pincode", PincodeError(pincode))
  }

  /** A string whose digits are not empty is not blank. */
  lemma DigitsMeanNotBlank(s: string)
    requires DigitsOnly(s) != ""
    ensures Trim(s) != ""
  {
    var i := SomeDigit(s);
    DigitAtMeansNotBlank(s, i);
  }

  /** The form is valid (no message recorded) exactly when the rules stated
      directly hold. */
  lemma FormValidExactlyWhenAcceptable(fullName: string, phone: string, address: string, pincode: string)
    ensures ValidateForm(fullName, phone, address, pincode) == map[] <==>
              FormAcceptable(fullName, phone, address, pincode)
  {
    var e := ValidateForm(fullName, phone, address, pincode);
    if |DigitsOnly(phone)| == 10 {
      DigitsMeanNotBlank(phone);
    }
    if |pincode| == 6 && AllDigits(pincode) {
      DigitAtMeansNotBlank(pincode, 0);
    }
    if !FormAcceptable(fullName, phone, address, pincode) {
      assert "fullName" in e || "phone" in e || "address" in e || "pincode" in e;
    }
  }

  /** Every phone the server accepts also passes the page's phone rule. */
  lemma ServerPhoneSatisfiesClient(phone: string)
    requires ValidatePhone(phone)
    ensures PhoneError(phone).None?
  {
    PhoneAccepted(phone);
    DigitsMeanNotBlank(phone);
  }

  /** The page has no rule on the first digit: it lets through every ten-digit
      number starting 0 to 5, which the server refuses. */
  lemma ClientAcceptsPhoneServerRefuses(p: string)
    requires |p| == 10 && AllDigits(p) && !('6' <= p[0] <= '9')
    ensures PhoneError(p).None? && !ValidatePhone(p)
  {
    DigitsOnlyOfDigits(p);
    DigitAtMeansNotBlank(p, 0);
    RemoveSpacesOfDigitsAndSpaces(p);
  }

  /** A string of digits is its own digits. */
  lemma {:induction false} DigitsOnlyOfDigits(s: string)
    requires AllDigits(s)
    ensures DigitsOnly(s) == s
  {
    if s != [] {
      DigitsOnlyOfDigits(s[1..]);
    }
  }

  /** Every pincode the page accepts the server accepts too. */
  lemma ClientPincodeSatisfiesServer(pincode: string)
    requires PincodeError(pincode).None?
    ensures ValidatePincode(pincode)
  {
    RemoveSpacesOfDigitsAndSpaces(pincode);
    DigitsOnlyOfDigits(pincode);
  }
}
