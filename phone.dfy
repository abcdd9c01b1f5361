/**
 * The bot's phone normaliser (`normalize_phone_number`): Kyrgyz numbers are
 * brought to the twelve-digit form 996XXXXXXXXX, anything else becomes "".
 */
module Phone {
  import opened Text

  /** The canonical form: twelve digits beginning with the country code 996. */
  predicate IsNormalized(p: string)
  {
    |p| == 12 && p[..3] == "996" && AllDigits(p)
  }

  /** The three digit shapes that the normaliser recognises. */
  predicate Recognised(d: string)
  {
    (|d| == 12 && d[..3] == "996") || (|d| == 10 && d[0] == '0') || |d| == 9
  }

  function NormalizePhoneNumber(phone: string): (r: string)
    ensures r == "" || IsNormalized(r)
    ensures r != "" <==> Recognised(Digits(phone))
    // the subscriber number is always the last nine digits typed
    ensures r != "" ==> r[3..] == Digits(phone)[|Digits(phone)| - 9..]
  {
    if phone == "" then ""
    else
      var digits := Digits(phone);
      if |digits| == 12 && digits[..3] == "996" then digits
      else if |digits| == 10 && digits[..1] == "0" then "996" + digits[1..]
      else if |digits| == 9 then "996" + digits
      else ""
  }

  /** A number already in canonical form is left alone, so normalising twice changes nothing. */
  lemma NormalizeIdempotent(phone: string)
    ensures NormalizePhoneNumber(NormalizePhoneNumber(phone)) == NormalizePhoneNumber(phone)
  {
    var r := NormalizePhoneNumber(phone);
    if r != "" {
      assert Digits(r) == r;
    }
  }

  /**
   * The local forms "0XXXXXXXXX", "XXXXXXXXX" and the international "996XXXXXXXXX"
   * of one subscriber normalise to the same number, whatever separators are typed.
   */
  lemma {:induction false} SameSubscriberSameNumber(sub: string, noise: string)
    requires |sub| == 9 && AllDigits(sub)
    requires forall i :: 0 <= i < |noise| ==> !IsDigit(noise[i])
    ensures NormalizePhoneNumber(sub) == "996" + sub
    ensures NormalizePhoneNumber("0" + sub) == "996" + sub
    ensures NormalizePhoneNumber("996" + sub) == "996" + sub
    ensures NormalizePhoneNumber(noise + "996" + sub) == "996" + sub
  {
    assert AllDigits("0" + sub);
    assert AllDigits("996" + sub);
    NoDigits(noise);
    DigitsAppend(noise, "996" + sub);
    assert noise + "996" + sub == noise + ("996" + sub);
  }

  lemma {:induction false} NoDigits(s: string)
    requires forall i :: 0 <= i < |s| ==> !IsDigit(s[i])
    ensures Digits(s) == ""
  {
    if s != [] {
      NoDigits(s[1..]);
    }
  }
}
