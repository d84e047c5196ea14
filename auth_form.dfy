/** The demo authentication card, frontend/src/components/AuthForm.tsx: a
    three-state form (login, register, one-time-password entry) whose
    handlers switch the state and set a success message. */
module AuthFormModel {

  /** The `formType` state. */
  datatype FormType = Login | Register | Otp

  /** What the user can do: submit the login or register form, change the
      one-time-password input, or follow the footer link. */
  datatype Event = LoginSubmit | RegisterSubmit | OtpChange | FooterLink

  const OtpSentMessage := "OTP sent to your email"
  const RegisteredMessage := "Registration successful"

  /** Each form renders only its own controls, and the footer has a link
      only in the login and register states. */
  predicate Enabled(f: FormType, e: Event) {
    match e
    case LoginSubmit => f == Login
    case RegisterSubmit => f == Register
    case OtpChange => f == Otp
    case FooterLink => f != Otp
  }

  /** The state after an event. */
  function Next(f: FormType, e: Event): FormType
    requires Enabled(f, e)
  {
    match e
    case LoginSubmit => f
    case RegisterSubmit => Otp
    case OtpChange => Login
    case FooterLink => if f == Login then Register else Login
  }

  /** The card heading. */
  function Heading(f: FormType): string {
    if f == Login then "Login" else if f == Register then "Register" else "Verify OTP"
  }

  /** The one-time-password form is entered only by submitting the
      register form. */
  lemma OtpOnlyFromRegister(f: FormType, e: Event)
    requires Enabled(f, e) && Next(f, e) == Otp
    ensures f == Register && e == RegisterSubmit
  {
  }

  /** Logging in never changes the form; every other event does. */
  lemma OnlyLoginStays(f: FormType, e: Event)
    requires Enabled(f, e)
    ensures Next(f, e) == f <==> e == LoginSubmit
  {
  }

  /** The footer link swaps login and register, and following it twice
      comes back. */
  lemma FooterLinkSwaps(f: FormType)
    requires f != Otp
    ensures Next(f, FooterLink) != f && Next(f, FooterLink) != Otp
    ensures Next(Next(f, FooterLink), FooterLink) == f
  {
  }

  /** The three headings tell the states apart. */
  lemma HeadingsDistinct(f: FormType, g: FormType)
    ensures Heading(f) == Heading(g) <==> f == g
  {
  }

  /** A run of events in which every event is enabled when it happens,
      starting from `f`. */
  predicate EnabledRun(f: FormType, events: seq<Event>)
    decreases |events|
  {
    |events| == 0 || (Enabled(f, events[0]) && EnabledRun(Next(f, events[0]), events[1..]))
  }

  function RunFrom(f: FormType, events: seq<Event>): FormType
    requires EnabledRun(f, events)
    decreases |events|
  {
    if |events| == 0 then f else RunFrom(Next(f, events[0]), events[1..])
  }

  /** Every run that starts outside the one-time-password state and ends
      in it has a register submission as its last step. */
  lemma {:induction false} RunIntoOtp(f: FormType, events: seq<Event>)
    requires f != Otp && EnabledRun(f, events) && RunFrom(f, events) == Otp
    ensures |events| > 0 && events[|events| - 1] == RegisterSubmit
    decreases |events|
  {
    var g := Next(f, events[0]);
    if g == Otp {
      OtpOnlyFromRegister(f, events[0]);
      if |events| > 1 {
        assert events[1] == OtpChange;
        RunIntoOtp(Login, events[2..]);
        assert events[1..][1..] == events[2..];
      }
    } else {
      RunIntoOtp(g, events[1..]);
    }
  }

  class AuthForm {
    var formType: FormType
    var message: string
    var email: string
    var password: string
    var name: string
    var showPassword: bool

    constructor ()
      ensures formType == Login && message == ""
      ensures email == "" && password == "" && name == "" && !showPassword
    {
      formType, message := Login, "";
      email, password, name := "", "", "";
      showPassword := false;
    }

    /** `handleRegister`: the message announces the code and the form
        switches to code entry. */
    method HandleRegister()
      requires Enabled(formType, RegisterSubmit)
      modifies this`formType, this`message
      ensures formType == Next(old(formType), RegisterSubmit) == Otp
      ensures message == OtpSentMessage
    {
      message := OtpSentMessage;
      formType := Otp;
    }

    /** `handleLogin`: only a toast, so the state is unchanged. */
    method HandleLogin() returns (heading: string)
      requires Enabled(formType, LoginSubmit)
      ensures heading == Heading(formType) == "Login"
    {
      heading := Heading(formType);
    }

    /** `handleVerifyOTP`: any change of the code, whatever its value,
        completes registration and returns to the login form. */
    method HandleVerifyOtp(value: string)
      requires Enabled(formType, OtpChange)
      modifies this`formType, this`message
      ensures formType == Next(old(formType), OtpChange) == Login
      ensures message == RegisteredMessage
    {
      message := RegisteredMessage;
      formType := Login;
    }

    /** The footer's link button. */
    method ClickFooterLink()
      requires Enabled(formType, FooterLink)
      modifies this`formType
      ensures formType == Next(old(formType), FooterLink)
    {
      if formType == Login {
        formType := Register;
      } else {
        formType := Login;
      }
    }

    method SetEmail(value: string)
      modifies this`email
      ensures email == value
    {
      email := value;
    }

    method SetPassword(value: string)
      modifies this`password
      ensures password == value
    {
      password := value;
    }

    method SetName(value: string)
      modifies this`name
      ensures name == value
    {
      name := value;
    }

    /** The eye button next to the password field. */
    method TogglePasswordVisibility()
      modifies this`showPassword
      ensures showPassword == !old(showPassword)
    {
      showPassword := !showPassword;
    }
  }
}
