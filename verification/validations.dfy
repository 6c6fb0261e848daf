/** The server-side input checks of src/lib/validations.ts: Indian mobile
    numbers, pincodes, the admin token and the spam threshold. */
module Validations {
  import opened Common
  import opened Strings

  /** `/^[6-9]\d{9}$/` tested on the phone with white space removed. */
  function ValidatePhone(phone: string): bool
  {
    var s := RemoveSpaces(phone);
    |s| == 10 && AllDigits(s) && '6' <= s[0] <= '9'
  }

  /** `/^\d{6}$/` tested on the pincode with white space removed. */
  function ValidatePincode(pincode: string): bool
  {
    var s := RemoveSpaces(pincode);
    |s| == 6 && AllDigits(s)
  }

  /** The characters of `s` are digits and white space only. */
  predicate DigitsAndSpaces(s: string)
  {
    forall i | 0 <= i < |s| :: IsDigit(s[i]) || IsSpace(s[i])
  }

  /** A phone is accepted exactly when it consists of digits and white space,
      holds ten digits, and the first digit is 6, 7, 8 or 9. */
  lemma PhoneAccepted(phone: string)
    ensures ValidatePhone(phone) <==>
      DigitsAndSpaces(phone) && |DigitsOnly(phone)| == 10 && '6' <= DigitsOnly(phone)[0] <= '9'
  {
    if DigitsAndSpaces(phone) {
      RemoveSpacesOfDigitsAndSpaces(phone);
    } else {
      var i :| 0 <= i < |phone| && !IsDigit(phone[i]) && !IsSpace(phone[i]);
      StrayCharacterSurvives(phone, i);
    }
  }

  /** A pincode is accepted exactly when it consists of digits and white space
      and holds six digits. */
  lemma PincodeAccepted(pincode: string)
    ensures ValidatePincode(pincode) <==> DigitsAndSpaces(pincode) && |DigitsOnly(pincode)| == 6
  {
    if DigitsAndSpaces(pincode) {
      RemoveSpacesOfDigitsAndSpaces(pincode);
    } else {
      var i :| 0 <= i < |pincode| && !IsDigit(pincode[i]) && !IsSpace(pincode[i]);
      StrayCharacterSurvives(pincode, i);
    }
  }

  /** `validateAdminToken`: a missing or empty token is refused, and a token is
      accepted only when it equals the configured ADMIN_TOKEN. */
  function ValidateAdminToken(token: Option<string>, configured: Option<string>): (ok: bool)
    ensures ok ==> configured.Some? && token == configured && configured.value != ""
    ensures configured.Some? && configured.value != "" && token == configured ==> ok
  {
    match token
    case None => false
    case Some(t) => t != "" && configured == Some(t)
  }

  /** The spam verdict of `checkSpamOrders` given the number of the customer's
      orders counted in the window. */
  predicate IsSpam(recentOrders: nat, maxOrdersInWindow: nat)
  {
    recentOrders >= maxOrdersInWindow
  }
}
