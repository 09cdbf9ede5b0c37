/** The log-in page: the schema on email and password, the error messages
    filed under their inputs, and the rewrite of the server's "Invalid login
    credentials" refusal. The email syntax check of the schema is the
    parameter `isEmail`. */
module Login {
  import opened Wrappers
  import Text
  import opened AuthForms

  const EmailInvalid := "Please enter a valid email"
  const PasswordTooShort := "Password must be at least 6 characters"
  const BadCredentials := "Invalid login credentials"
  const BadCredentialsText := "Invalid email or password. Please try again."

  /** The issues of the schema, in its order: the trimmed email's syntax
      check, then the password's length check. */
  function Issues(email: string, password: string, isEmail: string -> bool): seq<Issue> {
    (if !isEmail(Text.Trim(email)) then [Issue(["email"], EmailInvalid)] else [])
    + (if |password| < 6 then [Issue(["password"], PasswordTooShort)] else [])
  }

  /** The form is valid exactly when the trimmed email is an address and the
      password has at least 6 characters; each failing check is the message
      shown under its input. */
  lemma ValidExactly(email: string, password: string, isEmail: string -> bool)
    ensures Issues(email, password, isEmail) == [] <==> isEmail(Text.Trim(email)) && |password| >= 6
    ensures LastMessage(Issues(email, password, isEmail), "email") ==
      (if isEmail(Text.Trim(email)) then None else Some(EmailInvalid))
    ensures LastMessage(Issues(email, password, isEmail), "password") ==
      (if |password| >= 6 then None else Some(PasswordTooShort))
    ensures LastMessage(Issues(email, password, isEmail), "name").None?
  {
    var r := Issues(email, password, isEmail);
    if !isEmail(Text.Trim(email)) {
      assert LastOnField(r, "email", 0);
    }
    if |password| < 6 {
      assert LastOnField(r, "password", |r| - 1);
    }
  }

  /** The description shown when the server refuses: only the exact
      credentials message is rewritten. */
  function FailureText(message: string): (r: string)
    ensures message == BadCredentials ==> r == BadCredentialsText
    ensures message != BadCredentials ==> r == message
  {
    if message == BadCredentials then BadCredentialsText else message
  }

  class Page {
    var errors: FieldErrors
    var isLoading: bool

    constructor ()
      ensures errors == NoErrors && !isLoading
    {
      errors, isLoading := NoErrors, false;
    }

    /** `handleSubmit`. `signIn` is the server call with the raw email and
        password, giving the refusal message if there is one; `called` is
        whether it was made. */
    method Submit(email: string, password: string, from: Option<string>,
                  isEmail: string -> bool, signIn: (string, string) -> Option<string>)
      returns (called: bool, outcome: Outcome)
      modifies this
      ensures called <==> Issues(email, password, isEmail) == []
      ensures !called ==>
        var issues := Issues(email, password, isEmail);
        && outcome == Invalid
        && errors == FieldErrors(None, LastMessage(issues, "email"), LastMessage(issues, "password"))
        && isLoading == old(isLoading)
      ensures called ==>
        var refusal := signIn(email, password);
        && errors == NoErrors && !isLoading
        && outcome == (if refusal.Some? then Failed(FailureText(refusal.value)) else Navigated(Redirect(from)))
    {
      errors := NoErrors;
      var issues := Issues(email, password, isEmail);
      if issues != [] {
        errors := CollectErrors(issues, false);
        return false, Invalid;
      }
      isLoading := true;
      called := true;
      var refusal := signIn(email, password);
      isLoading := false;
      outcome := if refusal.Some? then Failed(FailureText(refusal.value)) else Navigated(Redirect(from));
    }
  }
}
