// The login and sign-up forms: which validation message wins, when the
// provider is called, and which message the form shows.
module AuthForms {
  import opened Seqs
  import opened MockData
  import opened AuthContext

  const FillAllFields: string := "Please fill in all fields"
  const PasswordsDiffer: string := "Passwords do not match"

  /** The login form's verdict on its inputs: `""` lets the submit through. */
  function LoginValidation(email: string, password: string): (msg: string)
    ensures msg == "" <==> email != "" && password != ""
    ensures msg == "" || msg == FillAllFields
  {
    if email == "" || password == "" then FillAllFields else ""
  }

  /** The sign-up form's verdict: an empty input is reported before a password mismatch. */
  function SignupValidation(name: string, email: string, phone: string, password: string,
                            confirmPassword: string): (msg: string)
    ensures msg == "" || msg == FillAllFields || msg == PasswordsDiffer
  {
    if name == "" || email == "" || phone == "" || password == "" || confirmPassword == "" then FillAllFields
    else if password != confirmPassword then PasswordsDiffer
    else ""
  }

  /** The alert box: the validation message if any, otherwise the provider's error if any. */
  function ShownMessage(validationError: string, error: Option<string>): (shown: Option<string>)
    ensures shown.None? <==> validationError == "" && (error.None? || error.value == "")
    ensures validationError != "" ==> shown == Some(validationError)
  {
    if validationError != "" then Some(validationError)
    else if error.Some? && error.value != "" then error
    else None
  }

  class LoginForm {
    const provider: AuthProvider
    var email: string
    var password: string
    var validationError: string
    /** The route `navigate` was last asked for, if any. */
    var navigatedTo: Option<string>

    constructor (provider: AuthProvider)
      ensures this.provider == provider && email == "" && password == "" && validationError == ""
      ensures navigatedTo.None?
    {
      this.provider := provider;
      email := "";
      password := "";
      validationError := "";
      navigatedTo := None;
    }

    /** Submitting the form; `storageThrows` is handed to the provider's storage write. While the
        provider is loading the submit button is disabled, so nothing happens. */
    method HandleSubmit(storageThrows: bool)
      modifies this, provider
      ensures old(provider.auth.isLoading) ==> unchanged(this) && provider.Current() == old(provider.Current())
      ensures email == old(email) && password == old(password)
      ensures !old(provider.auth.isLoading) ==> validationError == LoginValidation(email, password)
      ensures !old(provider.auth.isLoading) && validationError != "" ==>
                provider.Current() == old(provider.Current()) && navigatedTo == old(navigatedTo)
      ensures !old(provider.auth.isLoading) && validationError == "" ==>
                provider.Current() == LoginStep(old(provider.Current()), email, password, storageThrows) &&
                navigatedTo == Some("/")
    {
      if provider.auth.isLoading {
        return;
      }
      validationError := "";
      if email == "" || password == "" {
        validationError := "Please fill in all fields";
        return;
      }
      provider.Login(email, password, storageThrows);
      navigatedTo := Some("/");
    }

    function Message(): Option<string>
      reads this, provider
    {
      ShownMessage(validationError, provider.auth.error)
    }
  }

  class SignupForm {
    const provider: AuthProvider
    var name: string
    var email: string
    var phone: string
    var password: string
    var confirmPassword: string
    var validationError: string
    var navigatedTo: Option<string>

    constructor (provider: AuthProvider)
      ensures this.provider == provider && name == "" && email == "" && phone == "" && password == ""
      ensures confirmPassword == "" && validationError == "" && navigatedTo.None?
    {
      this.provider := provider;
      name, email, phone, password, confirmPassword := "", "", "", "", "";
      validationError := "";
      navigatedTo := None;
    }

    /** Submitting the form at time `now`; `storageThrows` is handed to the provider's storage write.
        While the provider is loading the submit button is disabled, so nothing happens. */
    method HandleSubmit(now: nat, storageThrows: bool)
      modifies this, provider
      ensures old(provider.auth.isLoading) ==> unchanged(this) && provider.Current() == old(provider.Current())
      ensures name == old(name) && email == old(email) && phone == old(phone)
      ensures password == old(password) && confirmPassword == old(confirmPassword)
      ensures !old(provider.auth.isLoading) ==>
                validationError == SignupValidation(name, email, phone, password, confirmPassword)
      ensures !old(provider.auth.isLoading) && validationError != "" ==>
                provider.Current() == old(provider.Current()) && navigatedTo == old(navigatedTo)
      ensures !old(provider.auth.isLoading) && validationError == "" ==>
                provider.Current() == RegisterStep(old(provider.Current()), name, email, phone, password, now, storageThrows) &&
                navigatedTo == Some("/")
    {
      if provider.auth.isLoading {
        return;
      }
      validationError := "";
      if name == "" || email == "" || phone == "" || password == "" || confirmPassword == "" {
        validationError := "Please fill in all fields";
        return;
      }
      if password != confirmPassword {
        validationError := "Passwords do not match";
        return;
      }
      provider.Register(name, email, phone, password, now, storageThrows);
      navigatedTo := Some("/");
    }

    function Message(): Option<string>
      reads this, provider
    {
      ShownMessage(validationError, provider.auth.error)
    }
  }

  // ----- lemmas -----

  /** Any empty input gives the fill-in message, whatever the passwords; with every input filled, a
      mismatch gives the mismatch message; and the submit goes through exactly when all are filled
      and the passwords agree. */
  lemma SignupPrecedence(name: string, email: string, phone: string, password: string, confirmPassword: string)
    ensures (name == "" || email == "" || phone == "" || password == "" || confirmPassword == "") ==>
              SignupValidation(name, email, phone, password, confirmPassword) == FillAllFields
    ensures (name != "" && email != "" && phone != "" && password != "" && confirmPassword != "" &&
             password != confirmPassword) ==>
              SignupValidation(name, email, phone, password, confirmPassword) == PasswordsDiffer
    ensures SignupValidation(name, email, phone, password, confirmPassword) == "" <==>
              name != "" && email != "" && phone != "" && password != "" && password == confirmPassword
  {
  }

  /** After a validated login submit with wrong credentials (which still navigates home), the form
      shows the provider's credentials message. */
  lemma WrongCredentialsMessage(s: Session, email: string, password: string)
    requires LoginValidation(email, password) == "" && GetUserByCredentials(email, password).None?
    ensures ShownMessage(LoginValidation(email, password), LoginStep(s, email, password, false).auth.error) ==
            Some("Invalid email or password")
  {
  }
}
