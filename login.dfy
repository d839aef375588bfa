/**
 * The log-in form of src/components/Auth/Login.tsx: an e-mail and a password, an
 * error record with one message per field, and a submit that only reports success
 * (the call into the authentication context is commented out in the source).
 */
module Login {
  import opened Wrappers
  import opened FormChecks

  /** `{ email: '', password: '' }`-shaped error record; "" means no error. */
  datatype LoginErrors = LoginErrors(email: string, password: string)

  /** A check's message, or "" when it passes. */
  function MessageOf(error: Option<string>): (m: string)
    ensures error.None? ==> m == ""
    ensures error.Some? ==> m == error.value
  {
    match error
    case None => ""
    case Some(text) => text
  }

  /** The email, password and errors state cells (`isLoading` is not modelled). */
  class LoginForm {
    var email: string
    var password: string
    var errors: LoginErrors

    constructor()
      ensures email == "" && password == "" && errors == LoginErrors("", "")
    {
      email := "";
      password := "";
      errors := LoginErrors("", "");
    }

    /**
     * `validateForm`: both messages are recomputed from scratch, and the form is
     * valid exactly when both are empty.
     */
    method ValidateForm() returns (isValid: bool)
      modifies this
      ensures email == old(email) && password == old(password)
      ensures errors == LoginErrors(MessageOf(EmailError(email)), MessageOf(PasswordError(password)))
      ensures isValid <==> errors.email == "" && errors.password == ""
    {
      var newErrors := LoginErrors("", "");
      isValid := true;
      if email == "" {
        newErrors := newErrors.(email := "Email is required");
        isValid := false;
      } else if !TestEmail(email) {
        newErrors := newErrors.(email := "Invalid email format");
        isValid := false;
      }
      if password == "" {
        newErrors := newErrors.(password := "Password is required");
        isValid := false;
      } else if Utf16Length(password) < 6 {
        newErrors := newErrors.(password := "Password must be at least 6 characters");
        isValid := false;
      }
      errors := newErrors;
    }

    /**
     * `handleSubmit`: whether `onLoginSuccess` is called. It is called exactly
     * when the form is valid and the callback was given.
     */
    method HandleSubmit(hasOnLoginSuccess: bool) returns (calledBack: bool)
      modifies this
      ensures email == old(email) && password == old(password)
      ensures errors == LoginErrors(MessageOf(EmailError(email)), MessageOf(PasswordError(password)))
      ensures calledBack <==> hasOnLoginSuccess && EmailPattern(email) && Utf16Length(password) >= 6
    {
      var isValid := ValidateForm();
      EmailErrorCases(email);
      PasswordErrorCases(password);
      if !isValid {
        return false;
      }
      calledBack := hasOnLoginSuccess;
    }
  }

  /** The form passes exactly when the address matches the pattern and the password has six code units. */
  lemma LoginValidIff(email: string, password: string)
    ensures MessageOf(EmailError(email)) == "" && MessageOf(PasswordError(password)) == "" <==>
      EmailPattern(email) && Utf16Length(password) >= 6
  {
    EmailErrorCases(email);
    PasswordErrorCases(password);
  }
}
