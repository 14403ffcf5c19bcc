/** The profile editing screen's phone handling
    (app/src/main/java/com/example/uinavegacion/ui/screen/ProfileEditScreen.kt):
    its own copy of the Chilean phone formatter, and the guard its
    "Guardar Cambios" button runs before writing the user row. */
module ProfileEdit {
  import opened Wrappers
  import opened Text
  import opened Validators
  import opened PhoneFormat

  /** `formatChileanPhoneNumber`, written out again in this screen; it
      agrees with the registration form's formatter on every input. */
  function FormatChileanPhoneNumber(input: string): (r: string)
    ensures r == FormatChileanPhone(input)
  {
    var digits := DigitsOf(input);
    if digits == [] then ""
    else if |digits| <= 2 then "+" + digits
    else if |digits| == 3 then "+" + digits[..2] + " " + [digits[2]]
    else if |digits| <= 11 then
      var countryCode := digits[..2];
      var mobilePrefix := [digits[2]];
      var remaining := digits[3..];
      if remaining == [] then "+" + countryCode + " " + mobilePrefix
      else if |remaining| <= 4 then "+" + countryCode + " " + mobilePrefix + " " + remaining
      else
        var first4 := remaining[..4];
        var last4 := Take(remaining[4..], 4);
        "+" + countryCode + " " + mobilePrefix + " " + first4 + " " + last4
    else
      var trimmed := Take(digits, 11);
      var countryCode := trimmed[..2];
      var mobilePrefix := [trimmed[2]];
      var first4 := trimmed[3..7];
      var last4 := trimmed[7..];
      "+" + countryCode + " " + mobilePrefix + " " + first4 + " " + last4
  }

  const FORMAT_ERROR := "Formato incorrecto"
  const NO_USER_ERROR := "Error: Usuario no identificado"

  /** The characters after "+56", spaces removed, trimmed. */
  function DigitsAfterCountryCode(phone: string): string
    requires |phone| >= 3
  {
    Trim(RemoveChar(phone[3..], ' '))
  }

  /** The save-time phone check: a blank phone is not checked; any other
      must start with "+56" and continue with nine digits, the first a 9. */
  function SavePhoneError(phone: string): (r: Option<string>)
    ensures r.Some? ==> r == Some(FORMAT_ERROR)
    ensures IsBlank(phone) ==> r.None?
    ensures !IsBlank(phone) && !StartsWith(phone, "+56") ==> r.Some?
  {
    if IsBlank(phone) then None
    else if !StartsWith(phone, "+56") then Some(FORMAT_ERROR)
    else
      var rest := DigitsAfterCountryCode(phone);
      if rest == [] || |rest| != 9 || !AllDigits(rest) || !StartsWith(rest, "9") then Some(FORMAT_ERROR)
      else None
  }

  /** What stops a save before anything is written: no signed-in user
      first, then the phone check. */
  function SaveError(userId: Option<int>, phone: string): (r: Option<string>)
    ensures userId.None? ==> r == Some(NO_USER_ERROR)
    ensures userId.Some? ==> r == SavePhoneError(phone)
  {
    if userId.None? then Some(NO_USER_ERROR) else SavePhoneError(phone)
  }

  lemma RemoveSpacesHead(c: char, rest: string)
    requires c != ' '
    ensures RemoveChar([' ', c] + rest, ' ') == [c] + RemoveChar(rest, ' ')
  {
    RemoveCharConcat([' ', c], rest, ' ');
    assert [' ', c][1..] == [c];
    assert RemoveChar([c], ' ') == [c] + RemoveChar([c][1..], ' ');
  }

  lemma LaidOutAfterCountryCode(r: string, d: string)
    requires AllDigits(d) && |d| >= 3
    requires |r| >= 5 && r[..5] == ['+', d[0], d[1], ' ', d[2]]
    requires DigitsAndSpaces(r[5..]) && DigitsOf(r[5..]) == Take(d, 11)[3..]
    ensures DigitsAfterCountryCode(r) == [d[2]] + Take(d, 11)[3..]
  {
    var rest := [d[2]] + Take(d, 11)[3..];
    assert r[3..] == [' ', d[2]] + r[5..];
    RemoveSpacesHead(d[2], r[5..]);
    RemoveSpacesKeepsDigits(r[5..]);
    assert AllDigits(rest);
    TrimAllDigits(rest);
  }

  lemma SavePhoneVerdict(r: string)
    requires !IsBlank(r) && |r| >= 3
    ensures SavePhoneError(r).None? <==> (StartsWith(r, "+56")
      && |DigitsAfterCountryCode(r)| == 9 && AllDigits(DigitsAfterCountryCode(r))
      && DigitsAfterCountryCode(r)[0] == '9')
  {
    if StartsWith(r, "+56") {
      var rest := DigitsAfterCountryCode(r);
      assert SavePhoneError(r).None? <==>
        !(rest == [] || |rest| != 9 || !AllDigits(rest) || !StartsWith(rest, "9"));
    }
  }

  lemma LaidOutCountryCode(r: string, d: string)
    requires |d| >= 3 && |r| >= 5 && r[..5] == ['+', d[0], d[1], ' ', d[2]]
    ensures StartsWith(r, "+56") <==> d[0] == '5' && d[1] == '6'
  {
    assert r[..3] == r[..5][..3] == ['+', d[0], d[1]];
  }

  lemma SaveVerdictOfRest(r: string, d: string)
    requires AllDigits(d) && |d| >= 3
    requires !IsBlank(r) && |r| >= 3 && DigitsAfterCountryCode(r) == [d[2]] + Take(d, 11)[3..]
    requires StartsWith(r, "+56") <==> d[0] == '5' && d[1] == '6'
    ensures SavePhoneError(r).None? <==> |d| >= 11 && d[..3] == "569"
  {
    SavePhoneVerdict(r);
    var rest := [d[2]] + Take(d, 11)[3..];
    assert AllDigits(rest);
  }

  /** The save check on a string laid out like a formatted number with at
      least three digits. */
  lemma SaveVerdict(r: string, d: string)
    requires AllDigits(d) && |d| >= 3
    requires |r| >= 5 && r[..5] == ['+', d[0], d[1], ' ', d[2]]
    requires DigitsAndSpaces(r[5..]) && DigitsOf(r[5..]) == Take(d, 11)[3..]
    ensures SavePhoneError(r).None? <==> |d| >= 11 && d[..3] == "569"
  {
    assert !IsBlank(r) by { assert !IsWhitespace(r[0]); }
    LaidOutCountryCode(r, d);
    LaidOutAfterCountryCode(r, d);
    SaveVerdictOfRest(r, d);
  }

  /** A formatted phone passes the save check exactly when it is empty, or
      its input had at least eleven digits beginning 5, 6, 9. */
  lemma FormattedPhoneAcceptedOnSave(input: string)
    ensures SavePhoneError(FormatChileanPhoneNumber(input)).None? <==>
      (DigitsOf(input) == [] || (|DigitsOf(input)| >= 11 && DigitsOf(input)[..3] == "569"))
  {
    var d := DigitsOf(input);
    var r := FormatChileanPhoneNumber(input);
    FormatLayout(input);
    if |d| >= 3 {
      FormatTail(input);
      SaveVerdict(r, d);
    } else if |d| == 2 {
      assert r == ['+', d[0], d[1]];
      assert !IsWhitespace(r[0]);
      if StartsWith(r, "+56") {
        assert DigitsAfterCountryCode(r) == [];
      }
    } else if |d| == 1 {
      assert !IsWhitespace(r[0]);
    }
  }

  /** On formatted values the save check and the registration validator
      agree, except that the save check lets an empty phone through. */
  lemma SaveCheckMatchesRegistration(input: string)
    ensures var r := FormatChileanPhoneNumber(input);
      SavePhoneError(r).None? <==> r == [] || ValidatePhoneDigitsOnly(r).None?
  {
    FormattedPhoneAcceptedOnSave(input);
    FormattedPhoneValid(input);
  }

  /** The screen state the save button reads and writes. */
  class ProfileEditForm {
    var userId: Option<int>
    var phone: string
    var isLoading: bool
    var photoSavedMessage: Option<string>

    constructor ()
      ensures userId.None? && phone == "" && !isLoading && photoSavedMessage.None?
    {
      userId := None;
      phone := "";
      isLoading := false;
      photoSavedMessage := None;
    }

    /** The phone field stores what the user typed, formatted. */
    method OnPhoneChange(newValue: string)
      modifies this
      ensures phone == FormatChileanPhoneNumber(newValue)
      ensures userId == old(userId) && isLoading == old(isLoading)
      ensures photoSavedMessage == old(photoSavedMessage)
    {
      phone := FormatChileanPhoneNumber(newValue);
    }

    /** The button's guard: either it reports why the profile cannot be
        saved, or it marks the form as loading and the write starts. */
    method Save() returns (started: bool)
      modifies this
      ensures userId == old(userId) && phone == old(phone)
      ensures started <==> SaveError(userId, phone).None?
      ensures !started ==> photoSavedMessage == SaveError(userId, phone) && isLoading == old(isLoading)
      ensures started ==> isLoading && photoSavedMessage == old(photoSavedMessage)
    {
      if userId.None? {
        photoSavedMessage := Some(NO_USER_ERROR);
        return false;
      }
      if !IsBlank(phone) {
        if !StartsWith(phone, "+56") {
          photoSavedMessage := Some(FORMAT_ERROR);
          return false;
        }
        var digitsAfterCountryCode := Trim(RemoveChar(phone[3..], ' '));
        if digitsAfterCountryCode == [] || |digitsAfterCountryCode| != 9
          || !AllDigits(digitsAfterCountryCode) || !StartsWith(digitsAfterCountryCode, "9")
        {
          photoSavedMessage := Some(FORMAT_ERROR);
          return false;
        }
      }
      isLoading := true;
      return true;
    }
  }
}
