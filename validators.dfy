/** Form field validators of the Android app
    (app/src/main/java/com/example/uinavegacion/domain/Validators.kt).
    Each returns the error message to show, or `None` when the field is
    accepted. */
module Validators {
  import opened Wrappers
  import opened Text

  /** The characters of `[A-Za-zÁÉÍÓÚÑáéíóúñ ]`. */
  predicate IsNameChar(c: char) {
    ('A' <= c <= 'Z') || ('a' <= c <= 'z') || c == ' '
    || c in "\U{00C1}\U{00C9}\U{00CD}\U{00D3}\U{00DA}\U{00D1}\U{00E1}\U{00E9}\U{00ED}\U{00F3}\U{00FA}\U{00F1}"
  }

  /** `validateLettersOnly`. */
  function ValidateLettersOnly(nombre: string): (r: Option<string>)
    ensures r.None? <==> !IsBlank(nombre) && forall i :: 0 <= i < |nombre| ==> IsNameChar(nombre[i])
    ensures IsBlank(nombre) ==> r == Some("El nombre es obligatorio")
    ensures !IsBlank(nombre) && r.Some? ==> r == Some("Solo letras y espacios")
  {
    if IsBlank(nombre) then Some("El nombre es obligatorio")
    else if !(|nombre| > 0 && forall i :: 0 <= i < |nombre| ==> IsNameChar(nombre[i])) then Some("Solo letras y espacios")
    else None
  }

  const PHONE_PREFIX: string := "+56 9"

  /** What `validatePhoneDigitsOnly` checks after the prefix: every "+56 9"
      deleted, then every space, then trimmed. */
  function DigitsAfterPrefix(phone: string): string {
    Trim(RemoveChar(DeleteAll(phone, PHONE_PREFIX), ' '))
  }

  /** `validatePhoneDigitsOnly`: a Chilean mobile number "+56 9" followed by
      eight digits, spaces anywhere. */
  function ValidatePhoneDigitsOnly(phone: string): (r: Option<string>)
    ensures r.None? <==> (StartsWith(phone, PHONE_PREFIX)
      && AllDigits(DigitsAfterPrefix(phone)) && |DigitsAfterPrefix(phone)| == 8)
    ensures IsBlank(phone) ==> r == Some("El teléfono es obligatorio")
    ensures !IsBlank(phone) && !StartsWith(phone, PHONE_PREFIX) ==> r == Some("Debe comenzar con +56 9")
    ensures StartsWith(phone, PHONE_PREFIX) && DigitsAfterPrefix(phone) == [] ==>
      r == Some("Ingrese el número después de +56 9")
    ensures (StartsWith(phone, PHONE_PREFIX) && DigitsAfterPrefix(phone) != []
      && !AllDigits(DigitsAfterPrefix(phone))) ==> r == Some("Solo números después del +56 9")
    ensures (StartsWith(phone, PHONE_PREFIX) && DigitsAfterPrefix(phone) != []
      && AllDigits(DigitsAfterPrefix(phone)) && |DigitsAfterPrefix(phone)| != 8) ==>
      r == Some("Debe tener 8 dígitos (ej: +56 9 1234 5678)")
  {
    if IsBlank(phone) then
      assert StartsWith(phone, PHONE_PREFIX) ==> !IsWhitespace(phone[0]);
      Some("El teléfono es obligatorio")
    else if !StartsWith(phone, PHONE_PREFIX) then Some("Debe comenzar con +56 9")
    else
      var digitsAfterPrefix := DigitsAfterPrefix(phone);
      if digitsAfterPrefix == [] then Some("Ingrese el número después de +56 9")
      else if !AllDigits(digitsAfterPrefix) then Some("Solo números después del +56 9")
      else if |digitsAfterPrefix| != 8 then Some("Debe tener 8 dígitos (ej: +56 9 1234 5678)")
      else None
  }

  predicate HasUpper(s: string) { exists i :: 0 <= i < |s| && IsUpperCase(s[i]) }
  predicate HasLower(s: string) { exists i :: 0 <= i < |s| && IsLowerCase(s[i]) }
  predicate HasDigit(s: string) { exists i :: 0 <= i < |s| && IsDigit(s[i]) }
  predicate HasLetterOrDigit(s: string) { exists i :: 0 <= i < |s| && IsLetterOrDigit(s[i]) }
  /** Some character that is neither a letter nor a digit: a symbol. */
  predicate HasSymbol(s: string) { exists i :: 0 <= i < |s| && !IsLetterOrDigit(s[i]) }
  predicate HasSpace(s: string) { ' ' in s }

  /** `validateStrongPassword` as written: the symbol test asks whether some
      character IS a letter or digit, which a digit already is. The length
      is `clave.length`, in UTF-16 units. */
  function ValidateStrongPasswordAsWritten(clave: string): (r: Option<string>)
    ensures r.None? <==> (!IsBlank(clave) && |Utf16Units(clave)| >= 8 && HasUpper(clave) && HasLower(clave)
      && HasDigit(clave) && !HasSpace(clave))
    ensures IsBlank(clave) ==> r == Some("La Contraseña es Obligatoria")
    ensures !IsBlank(clave) && |Utf16Units(clave)| < 8 ==> r == Some("Mínimo 8 caracteres")
    ensures !IsBlank(clave) && |Utf16Units(clave)| >= 8 && !HasUpper(clave) ==> r == Some("Debe incluir una Mayúscula")
    ensures (!IsBlank(clave) && |Utf16Units(clave)| >= 8 && HasUpper(clave) && !HasLower(clave)) ==>
      r == Some("Debe incluir una Minúscula")
    ensures (!IsBlank(clave) && |Utf16Units(clave)| >= 8 && HasUpper(clave) && HasLower(clave) && !HasDigit(clave)) ==>
      r == Some("Debe incluir un número")
    ensures (!IsBlank(clave) && |Utf16Units(clave)| >= 8 && HasUpper(clave) && HasLower(clave) && HasDigit(clave)
      && HasSpace(clave)) ==> r == Some("No debe contener espacios")
  {
    assert HasDigit(clave) ==> HasLetterOrDigit(clave) by {
      if HasDigit(clave) {
        var i :| 0 <= i < |clave| && IsDigit(clave[i]);
        assert IsLetterOrDigit(clave[i]);
      }
    }
    if IsBlank(clave) then Some("La Contraseña es Obligatoria")
    else if |Utf16Units(clave)| < 8 then Some("Mínimo 8 caracteres")
    else if !HasUpper(clave) then Some("Debe incluir una Mayúscula")
    else if !HasLower(clave) then Some("Debe incluir una Minúscula")
    else if !HasDigit(clave) then Some("Debe incluir un número")
    else if !HasLetterOrDigit(clave) then Some("Debe incluir un símbolo")
    else if HasSpace(clave) then Some("No debe contener espacios")
    else None
  }

  /** `validateStrongPassword` with the symbol test its message asks for:
      some character that is not a letter or digit. Checks in the source's
      order, first failure reported. */
  function ValidateStrongPassword(clave: string): (r: Option<string>)
    ensures r.None? <==> (!IsBlank(clave) && |Utf16Units(clave)| >= 8 && HasUpper(clave) && HasLower(clave)
      && HasDigit(clave) && HasSymbol(clave) && !HasSpace(clave))
    ensures IsBlank(clave) ==> r == Some("La Contraseña es Obligatoria")
    ensures !IsBlank(clave) && |Utf16Units(clave)| < 8 ==> r == Some("Mínimo 8 caracteres")
    ensures !IsBlank(clave) && |Utf16Units(clave)| >= 8 && !HasUpper(clave) ==> r == Some("Debe incluir una Mayúscula")
    ensures (!IsBlank(clave) && |Utf16Units(clave)| >= 8 && HasUpper(clave) && !HasLower(clave)) ==>
      r == Some("Debe incluir una Minúscula")
    ensures (!IsBlank(clave) && |Utf16Units(clave)| >= 8 && HasUpper(clave) && HasLower(clave) && !HasDigit(clave)) ==>
      r == Some("Debe incluir un número")
    ensures (!IsBlank(clave) && |Utf16Units(clave)| >= 8 && HasUpper(clave) && HasLower(clave) && HasDigit(clave)
      && !HasSymbol(clave)) ==> r == Some("Debe incluir un símbolo")
    ensures (!IsBlank(clave) && |Utf16Units(clave)| >= 8 && HasUpper(clave) && HasLower(clave) && HasDigit(clave)
      && HasSymbol(clave) && HasSpace(clave)) ==> r == Some("No debe contener espacios")
  {
    if IsBlank(clave) then Some("La Contraseña es Obligatoria")
    else if |Utf16Units(clave)| < 8 then Some("Mínimo 8 caracteres")
    else if !HasUpper(clave) then Some("Debe incluir una Mayúscula")
    else if !HasLower(clave) then Some("Debe incluir una Minúscula")
    else if !HasDigit(clave) then Some("Debe incluir un número")
    else if !HasSymbol(clave) then Some("Debe incluir un símbolo")
    else if HasSpace(clave) then Some("No debe contener espacios")
    else None
  }

  /** As written, the symbol message is never produced: it is reached only
      once a digit has been found, and a digit is a letter or digit. */
  lemma SymbolCheckNeverFires(clave: string)
    ensures ValidateStrongPasswordAsWritten(clave) != Some("Debe incluir un símbolo")
  {
    if HasDigit(clave) {
      var i :| 0 <= i < |clave| && IsDigit(clave[i]);
      assert IsLetterOrDigit(clave[i]);
    }
  }

  /** The character facts about "Abcdefg1" the validators look at. */
  lemma Abcdefg1Classes()
    ensures !IsBlank("Abcdefg1") && |Utf16Units("Abcdefg1")| == 8
    ensures HasUpper("Abcdefg1") && HasLower("Abcdefg1") && HasDigit("Abcdefg1")
    ensures !HasSymbol("Abcdefg1") && !HasSpace("Abcdefg1")
  {
    var p := "Abcdefg1";
    Utf16UnitsBmp(p);
    assert !IsWhitespace(p[0]) && IsUpperCase(p[0]) && IsLowerCase(p[1]) && IsDigit(p[7]);
    AllLettersOrDigits(p);
    assert !HasSpace(p);
  }

  lemma AllLettersOrDigits(p: string)
    requires p == "Abcdefg1"
    ensures forall i :: 0 <= i < |p| ==> IsLetterOrDigit(p[i])
  {
    assert IsUpperCase(p[0]) && IsDigit(p[7]);
    assert forall i :: 1 <= i < 7 ==> 'a' <= p[i] <= 'z';
  }

  /** "Abcdefg1" has no symbol, yet the validator as written accepts it;
      the intended validator asks for a symbol. */
  lemma PasswordWithoutSymbolAccepted()
    ensures ValidateStrongPasswordAsWritten("Abcdefg1") == None
    ensures ValidateStrongPassword("Abcdefg1") == Some("Debe incluir un símbolo")
    ensures !IsBlank("Abcdefg1") && !HasSymbol("Abcdefg1")
  {
    Abcdefg1Classes();
  }

  /** The length is counted in UTF-16 units: "Ab1" followed by three emoji
      is six characters but nine units long, and is accepted. */
  lemma SupplementaryCharactersCountTwice()
    ensures |"Ab1\U{1F600}\U{1F600}\U{1F600}"| == 6
    ensures ValidateStrongPasswordAsWritten("Ab1\U{1F600}\U{1F600}\U{1F600}") == None
  {
    var p := "Ab1\U{1F600}\U{1F600}\U{1F600}";
    var e := "\U{1F600}";
    Utf16UnitsBmp("Ab1");
    assert |Utf16Units(e)| == 2 by {
      assert e[1..] == [];
    }
    assert p == "Ab1" + (e + (e + e));
    Utf16UnitsConcat(e, e);
    Utf16UnitsConcat(e, e + e);
    Utf16UnitsConcat("Ab1", e + (e + e));
    assert !IsWhitespace(p[0]) && IsUpperCase(p[0]) && IsLowerCase(p[1]) && IsDigit(p[2]);
    assert IsLetterOrDigit(p[0]);
    assert !HasSpace(p);
  }

  /** `validateConfirm`. */
  function ValidateConfirm(clave: string, confirm: string): (r: Option<string>)
    ensures IsBlank(confirm) ==> r == Some("Debe confirmar su contraseña")
    ensures !IsBlank(confirm) ==> (r.None? <==> clave == confirm)
  {
    if IsBlank(confirm) then Some("Debe confirmar su contraseña")
    else if clave != confirm then Some("Las contraseñas no coinciden")
    else None
  }
}
