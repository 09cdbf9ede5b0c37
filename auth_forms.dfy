/** What the sign-up and log-in forms share: the validation issues of the
    schema, the loop that files each issue under its field (a later issue of
    a field replacing an earlier one), and the redirect target after a
    successful sign-in. */
module AuthForms {
  import opened Wrappers

  /** A validation issue: the path of the offending input and its message. */
  datatype Issue = Issue(path: seq<string>, message: string)

  /** The messages shown under the three inputs. */
  datatype FieldErrors = FieldErrors(name: Option<string>, email: Option<string>, password: Option<string>)

  const NoErrors := FieldErrors(None, None, None)

  /** What a submit ends in: the form was invalid and nothing was sent, the
      server refused with a message to show, or the user is sent on. */
  datatype Outcome = Invalid | Failed(description: string) | Navigated(to: string)

  /** `err.path[0] === field`. */
  predicate OnField(e: Issue, field: string) {
    |e.path| > 0 && e.path[0] == field
  }

  /** Issue `i` is the last one on `field`. */
  predicate LastOnField(issues: seq<Issue>, field: string, i: int) {
    && 0 <= i < |issues| && OnField(issues[i], field)
    && forall j :: i < j < |issues| ==> !OnField(issues[j], field)
  }

  /** The message of the last issue on `field`, if there is one. */
  function LastMessage(issues: seq<Issue>, field: string): (r: Option<string>)
    ensures r.None? <==> forall i :: 0 <= i < |issues| ==> !OnField(issues[i], field)
    ensures r.Some? ==> exists i :: LastOnField(issues, field, i) && issues[i].message == r.value
  {
    if issues == [] then None
    else
      var n := |issues| - 1;
      if OnField(issues[n], field) then Some(issues[n].message)
      else
        var r := LastMessage(issues[..n], field);
        assert forall i :: 0 <= i < n ==> issues[..n][i] == issues[i];
        assert forall i :: LastOnField(issues[..n], field, i) ==> LastOnField(issues, field, i) by {
          forall i | LastOnField(issues[..n], field, i) ensures LastOnField(issues, field, i) {
            assert forall j :: i < j < n ==> issues[..n][j] == issues[j];
          }
        }
        r
  }

  /** The message of the last issue on a field is the one reported. */
  lemma LastMessageOf(issues: seq<Issue>, field: string, i: int)
    requires LastOnField(issues, field, i)
    ensures LastMessage(issues, field) == Some(issues[i].message)
  {
    var r := LastMessage(issues, field);
    assert OnField(issues[i], field);
    var j :| LastOnField(issues, field, j) && issues[j].message == r.value;
    assert !(j < i) && !(i < j);
  }

  /** One more issue either reports its message on its field or leaves
      the field's last message as it was. */
  lemma LastMessageSnoc(issues: seq<Issue>, field: string, i: int)
    requires 0 <= i < |issues|
    ensures LastMessage(issues[..i + 1], field)
      == if OnField(issues[i], field) then Some(issues[i].message) else LastMessage(issues[..i], field)
  {
    assert issues[..i + 1][..i] == issues[..i];
    assert issues[..i + 1][i] == issues[i];
  }

  /** The error filing loop; the name input exists on the sign-up form
      only. */
  method CollectErrors(issues: seq<Issue>, withName: bool) returns (errors: FieldErrors)
    ensures errors.name == (if withName then LastMessage(issues, "name") else None)
    ensures errors.email == LastMessage(issues, "email")
    ensures errors.password == LastMessage(issues, "password")
  {
    errors := NoErrors;
    for i := 0 to |issues|
      invariant errors.name == (if withName then LastMessage(issues[..i], "name") else None)
      invariant errors.email == LastMessage(issues[..i], "email")
      invariant errors.password == LastMessage(issues[..i], "password")
    {
      var e := issues[i];
      LastMessageSnoc(issues, "name", i);
      LastMessageSnoc(issues, "email", i);
      LastMessageSnoc(issues, "password", i);
      if withName && OnField(e, "name") {
        errors := errors.(name := Some(e.message));
      }
      if OnField(e, "email") {
        errors := errors.(email := Some(e.message));
      }
      if OnField(e, "password") {
        errors := errors.(password := Some(e.message));
      }
    }
    assert issues[..|issues|] == issues;
  }

  /** `location.state?.from || "/"`. */
  function Redirect(from: Option<string>): (to: string)
    ensures from.Some? && from.value != "" ==> to == from.value
    ensures from.None? || from.value == "" ==> to == "/"
  {
    if from.Some? && from.value != "" then from.value else "/"
  }
}
