/** The registration form, frontend/src/components/demo-register.tsx:
    its fields, the per-field error messages set by `validateInputs`, the
    phone field's change handler and the request body `handleRegister`
    posts once validation passes. */
module Register {
  import opened Wrappers
  import opened JsStrings
  import opened InputRules

  const MinNameLength := 2
  const NameMessage := "Name must be at least 2 characters long"

  /** `validateName`: a JavaScript length of at least 2 once trimmed. */
  predicate ValidateName(name: string) {
    Utf16Length(Trim(name)) >= MinNameLength
  }

  /** The `errors` state: one message per field, "" when the field is fine. */
  datatype RegisterErrors = RegisterErrors(name: string, phoneNumber: string, password: string)

  const NoErrors := RegisterErrors("", "", "")

  /** The JSON body of the registration request. */
  datatype RegisterPayload = RegisterPayload(name: string, phoneNumber: string, password: string)

  /** All three checks pass. */
  predicate InputsValid(name: string, phone: string, password: string) {
    ValidateName(name) && ValidatePhoneNumber(phone) && ValidatePassword(password)
  }

  /** The errors `validateInputs` records: a field shows no message
      exactly when its check passes. */
  function FieldErrors(name: string, phone: string, password: string): (e: RegisterErrors)
    ensures e.name == "" <==> ValidateName(name)
    ensures e.phoneNumber == "" <==> ValidatePhoneNumber(phone)
    ensures e.password == "" <==> ValidatePassword(password)
  {
    RegisterErrors(
      if ValidateName(name) then "" else NameMessage,
      if ValidatePhoneNumber(phone) then "" else PhoneMessage,
      if ValidatePassword(password) then "" else PasswordMessage)
  }

  /** The form shows no message at all exactly when every check passes. */
  lemma NoErrorsIffValid(name: string, phone: string, password: string)
    ensures FieldErrors(name, phone, password) == NoErrors <==> InputsValid(name, phone, password)
  {
  }

  /** The body of `validateInputs`: a fresh error record filled field by
      field, each failing check setting its message and clearing the flag. */
  method CollectErrors(name: string, phone: string, password: string)
    returns (newErrors: RegisterErrors, isValid: bool)
    ensures newErrors == FieldErrors(name, phone, password)
    ensures isValid <==> InputsValid(name, phone, password)
  {
    newErrors := NoErrors;
    isValid := true;
    if !ValidateName(name) {
      newErrors := newErrors.(name := NameMessage);
      isValid := false;
    }
    if !ValidatePhoneNumber(phone) {
      newErrors := newErrors.(phoneNumber := PhoneMessage);
      isValid := false;
    }
    if !ValidatePassword(password) {
      newErrors := newErrors.(password := PasswordMessage);
      isValid := false;
    }
  }

  /** The body sent: the trimmed name, the number with "+91" in front, the
      password as typed. */
  function PayloadFor(name: string, phone: string, password: string): RegisterPayload {
    RegisterPayload(Trim(name), SubmittedPhone(phone), password)
  }

  /** A name as sent: a JavaScript length of at least 2, no outer
      whitespace. */
  predicate SentName(n: string) {
    |n| > 0 && Utf16Length(n) >= MinNameLength && !IsWhitespace(n[0]) && !IsWhitespace(n[|n| - 1])
  }

  /** What a request that passed validation carries: a trimmed name of
      JavaScript length 2 or more, "+91" followed by the 10 digits entered,
      and a password of JavaScript length 8 or more. */
  lemma PayloadShape(name: string, phone: string, password: string)
    requires InputsValid(name, phone, password)
    ensures var p := PayloadFor(name, phone, password);
      SentName(p.name) && SentPhone(p.phoneNumber, phone) && Utf16Length(p.password) >= MinPasswordLength
  {
    TrimmedNameShape(name);
    SubmittedPhoneShape(phone);
  }

  /** A valid name, trimmed, has a JavaScript length of 2 or more and no
      outer whitespace. */
  lemma TrimmedNameShape(name: string)
    requires ValidateName(name)
    ensures SentName(Trim(name))
  {
  }

  /** The length is JavaScript's: one character beyond U+FFFF is a long
      enough name. */
  lemma AstralNameValid()
    ensures ValidateName("\U{1F600}")
  {
    TrimNoOuterWhitespace("\U{1F600}");
  }

  /** A name of only spaces fails, however long it is. */
  lemma BlankNameInvalid(name: string)
    requires forall i :: 0 <= i < |name| ==> IsWhitespace(name[i])
    ensures !ValidateName(name)
  {
    TrimAllWhitespace(name);
  }

  class RegisterForm {
    var name: string
    var phoneNumber: string
    var password: string
    var errors: RegisterErrors

    /** The phone field only ever holds up to 10 digits. */
    ghost predicate Valid()
      reads this
    {
      SanitisedPhone(phoneNumber)
    }

    constructor ()
      ensures Valid()
      ensures name == "" && phoneNumber == "" && password == "" && errors == NoErrors
    {
      name, phoneNumber, password := "", "", "";
      errors := NoErrors;
    }

    /** The name input's `onChange`. */
    method SetName(value: string)
      modifies this`name
      ensures name == value
    {
      name := value;
    }

    /** The password input's `onChange`. */
    method SetPassword(value: string)
      modifies this`password
      ensures password == value
    {
      password := value;
    }

    /** `handlePhoneNumberChange`: the digits of the input replace the
        field, and clear its error, only when there are at most 10 of them;
        otherwise nothing changes. */
    method HandlePhoneNumberChange(input: string)
      requires Valid()
      modifies this`phoneNumber, this`errors
      ensures Valid()
      ensures phoneNumber == PhoneAfterChange(old(phoneNumber), input)
      ensures |StripNonDigits(input)| <= MaxPhoneDigits ==> errors == old(errors).(phoneNumber := "")
      ensures |StripNonDigits(input)| > MaxPhoneDigits ==> errors == old(errors)
    {
      var value := StripNonDigits(input);
      if |value| <= MaxPhoneDigits {
        phoneNumber := value;
        if errors.phoneNumber != "" {
          errors := errors.(phoneNumber := "");
        }
      }
    }

    /** `validateInputs`: stores the error record and reports whether
        every check passed. */
    method ValidateInputs() returns (isValid: bool)
      modifies this`errors
      ensures errors == FieldErrors(name, phoneNumber, password)
      ensures isValid <==> InputsValid(name, phoneNumber, password)
      ensures Valid() ==>
        (errors.phoneNumber == "" <==> |phoneNumber| == MaxPhoneDigits && '6' <= phoneNumber[0] <= '9')
    {
      var newErrors;
      newErrors, isValid := CollectErrors(name, phoneNumber, password);
      errors := newErrors;
      if Valid() {
        ValidSanitisedPhone(phoneNumber);
      }
    }

    /** `handleRegister`: no request when validation fails; otherwise the
        request body (the network call itself is not modelled). */
    method HandleRegister() returns (request: Option<RegisterPayload>)
      modifies this`errors
      ensures errors == FieldErrors(name, phoneNumber, password)
      ensures request.Some? <==> InputsValid(name, phoneNumber, password)
      ensures request.Some? ==> request.value == PayloadFor(name, phoneNumber, password)
    {
      var ok := ValidateInputs();
      if !ok {
        return None;
      }
      request := Some(PayloadFor(name, phoneNumber, password));
    }
  }
}
