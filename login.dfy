/** The login form, frontend/src/components/demo-login.tsx: the same
    phone and password rules as registration, without a name field. */
module Login {
  import opened Wrappers
  import opened JsStrings
  import opened InputRules

  /** The `errors` state: one message per field, "" when the field is fine. */
  datatype LoginErrors = LoginErrors(phoneNumber: string, password: string)

  const NoErrors := LoginErrors("", "")

  /** The JSON body of the login request. */
  datatype LoginPayload = LoginPayload(phoneNumber: string, password: string)

  /** Both checks pass; there is no name check. */
  predicate InputsValid(phone: string, password: string) {
    ValidatePhoneNumber(phone) && ValidatePassword(password)
  }

  /** The errors `validateInputs` records, as for registration. */
  function FieldErrors(phone: string, password: string): (e: LoginErrors)
    ensures e.phoneNumber == "" <==> ValidatePhoneNumber(phone)
    ensures e.password == "" <==> ValidatePassword(password)
    ensures e == NoErrors <==> InputsValid(phone, password)
  {
    LoginErrors(
      if ValidatePhoneNumber(phone) then "" else PhoneMessage,
      if ValidatePassword(password) then "" else PasswordMessage)
  }

  /** The body of `validateInputs`: a fresh error record filled field by
      field, each failing check setting its message and clearing the flag. */
  method CollectErrors(phone: string, password: string) returns (newErrors: LoginErrors, isValid: bool)
    ensures newErrors == FieldErrors(phone, password)
    ensures isValid <==> InputsValid(phone, password)
  {
    newErrors := NoErrors;
    isValid := true;
    if !ValidatePhoneNumber(phone) {
      newErrors := newErrors.(phoneNumber := PhoneMessage);
      isValid := false;
    }
    if !ValidatePassword(password) {
      newErrors := newErrors.(password := PasswordMessage);
      isValid := false;
    }
  }

  /** What a request that passed validation carries: "+91" followed by
      the 10 digits entered, and a password of JavaScript length 8 or
      more. */
  lemma PayloadShape(phone: string, password: string)
    requires InputsValid(phone, password)
    ensures var p := LoginPayload(SubmittedPhone(phone), password);
      SentPhone(p.phoneNumber, phone) && Utf16Length(p.password) >= MinPasswordLength
  {
    SubmittedPhoneShape(phone);
  }

  class LoginForm {
    var phoneNumber: string
    var password: string
    var errors: LoginErrors

    /** The phone field only ever holds up to 10 digits. */
    ghost predicate Valid()
      reads this
    {
      SanitisedPhone(phoneNumber)
    }

    constructor ()
      ensures Valid()
      ensures phoneNumber == "" && password == "" && errors == NoErrors
    {
      phoneNumber, password := "", "";
      errors := NoErrors;
    }

    /** The password input's `onChange`. */
    method SetPassword(value: string)
      modifies this`password
      ensures password == value
    {
      password := value;
    }

    /** `handlePhoneNumberChange`: the digits of the input replace the
        field, and clear its error, only when there are at most 10 of them;
        otherwise nothing changes. */
    method HandlePhoneNumberChange(input: string)
      requires Valid()
      modifies this`phoneNumber, this`errors
      ensures Valid()
      ensures phoneNumber == PhoneAfterChange(old(phoneNumber), input)
      ensures |StripNonDigits(input)| <= MaxPhoneDigits ==> errors == old(errors).(phoneNumber := "")
      ensures |StripNonDigits(input)| > MaxPhoneDigits ==> errors == old(errors)
    {
      var value := StripNonDigits(input);
      if |value| <= MaxPhoneDigits {
        phoneNumber := value;
        if errors.phoneNumber != "" {
          errors := errors.(phoneNumber := "");
        }
      }
    }

    /** `validateInputs`: stores the error record and reports whether
        both checks passed. */
    method ValidateInputs() returns (isValid: bool)
      modifies this`errors
      ensures errors == FieldErrors(phoneNumber, password)
      ensures isValid <==> InputsValid(phoneNumber, password)
      ensures Valid() ==>
        (errors.phoneNumber == "" <==> |phoneNumber| == MaxPhoneDigits && '6' <= phoneNumber[0] <= '9')
    {
      var newErrors;
      newErrors, isValid := CollectErrors(phoneNumber, password);
      errors := newErrors;
      if Valid() {
        ValidSanitisedPhone(phoneNumber);
      }
    }

    /** `handleLogin`: no request when validation fails; otherwise the
        request body (the network call itself is not modelled). */
    method HandleLogin() returns (request: Option<LoginPayload>)
      modifies this`errors
      ensures errors == FieldErrors(phoneNumber, password)
      ensures request.Some? <==> InputsValid(phoneNumber, password)
      ensures request.Some? ==> request.value == LoginPayload(SubmittedPhone(phoneNumber), password)
    {
      var ok := ValidateInputs();
      if !ok {
        return None;
      }
      request := Some(LoginPayload(SubmittedPhone(phoneNumber), password));
    }
  }
}
