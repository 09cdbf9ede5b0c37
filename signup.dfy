/** The sign-up page: the schema on name, email and password, the error
    messages filed under their inputs, and the rewrite of the server's
    "already registered" refusal. The email syntax check of the schema is
    the parameter `isEmail`. */
module Signup {
  import opened Wrappers
  import Text
  import opened AuthForms

  const NameTooShort := "Name must be at least 2 characters"
  const NameTooLong := "Name is too long"
  const EmailInvalid := "Please enter a valid email"
  const EmailTooLong := "Email is too long"
  const PasswordTooShort := "Password must be at least 6 characters"
  const AlreadyRegistered := "This email is already registered. Try logging in instead."

  /** The issues of the schema, in its order: the trimmed name's two length
      checks, the trimmed email's syntax and length checks, the password's
      length check. Every check of a field runs, so a field can have two
      issues. */
  function Issues(name: string, email: string, password: string, isEmail: string -> bool): seq<Issue> {
    var n, m := Text.Trim(name), Text.Trim(email);
    (if |n| < 2 then [Issue(["name"], NameTooShort)] else [])
    + (if |n| > 100 then [Issue(["name"], NameTooLong)] else [])
    + (if !isEmail(m) then [Issue(["email"], EmailInvalid)] else [])
    + (if |m| > 255 then [Issue(["email"], EmailTooLong)] else [])
    + (if |password| < 6 then [Issue(["password"], PasswordTooShort)] else [])
  }

  /** The form is valid exactly when the trimmed name has 2 to 100
      characters, the trimmed email is an address of at most 255 characters
      and the password has at least 6. */
  lemma ValidExactly(name: string, email: string, password: string, isEmail: string -> bool)
    ensures Issues(name, email, password, isEmail) == [] <==>
      && 2 <= |Text.Trim(name)| <= 100
      && isEmail(Text.Trim(email)) && |Text.Trim(email)| <= 255
      && |password| >= 6
  {
  }

  /** An email that is both malformed and too long shows the length
      message: the later issue of a field wins. */
  lemma LongMalformedEmail(name: string, email: string, password: string, isEmail: string -> bool)
    requires !isEmail(Text.Trim(email)) && |Text.Trim(email)| > 255
    ensures LastMessage(Issues(name, email, password, isEmail), "email") == Some(EmailTooLong)
  {
    var r := Issues(name, email, password, isEmail);
    var n := Text.Trim(name);
    var before := (if |n| < 2 then [Issue(["name"], NameTooShort)] else [])
      + (if |n| > 100 then [Issue(["name"], NameTooLong)] else [])
      + [Issue(["email"], EmailInvalid)];
    var tail := if |password| < 6 then [Issue(["password"], PasswordTooShort)] else [];
    assert r == before + [Issue(["email"], EmailTooLong)] + tail;
    assert LastOnField(r, "email", |before|);
    LastMessageOf(r, "email", |before|);
  }

  /** The description shown when the server refuses. */
  function FailureText(message: string): (r: string)
    ensures Text.Contains(message, "already registered") ==> r == AlreadyRegistered
    ensures !Text.Contains(message, "already registered") ==> r == message
  {
    if Text.Contains(message, "already registered") then AlreadyRegistered else message
  }

  class Page {
    var errors: FieldErrors
    var isLoading: bool

    constructor ()
      ensures errors == NoErrors && !isLoading
    {
      errors, isLoading := NoErrors, false;
    }

    /** `handleSubmit`. `signUp` is the server call with the raw email,
        password and name, giving the refusal message if there is one;
        `called` is whether it was made. */
    method Submit(name: string, email: string, password: string, from: Option<string>,
                  isEmail: string -> bool, signUp: (string, string, string) -> Option<string>)
      returns (called: bool, outcome: Outcome)
      modifies this
      ensures called <==> Issues(name, email, password, isEmail) == []
      ensures !called ==>
        var issues := Issues(name, email, password, isEmail);
        && outcome == Invalid
        && errors == FieldErrors(LastMessage(issues, "name"), LastMessage(issues, "email"),
                                 LastMessage(issues, "password"))
        && isLoading == old(isLoading)
      ensures called ==>
        var refusal := signUp(email, password, name);
        && errors == NoErrors && !isLoading
        && outcome == (if refusal.Some? then Failed(FailureText(refusal.value)) else Navigated(Redirect(from)))
    {
      errors := NoErrors;
      var issues := Issues(name, email, password, isEmail);
      if issues != [] {
        errors := CollectErrors(issues, true);
        return false, Invalid;
      }
      isLoading := true;
      called := true;
      var refusal := signUp(email, password, name);
      isLoading := false;
      outcome := if refusal.Some? then Failed(FailureText(refusal.value)) else Navigated(Redirect(from));
    }
  }
}
