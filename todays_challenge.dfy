/** The `useTodaysChallenge` hook: on mount it reads today's challenge from
    the table and, when there is none, asks the generator for one;
    `regenerateChallenge` asks the generator again with optional filters.
    The state is the challenge, the loading flag and the error. */
module TodaysChallenge {
  import opened Wrappers
  import opened JsonValues

  /** The table lookup for a date: the row (absent when there is none) and
      whether the query reported an error, or an exception. */
  datatype Lookup = Lookup(row: Option<Json>, fetchError: bool) | LookupThrew

  /** A call of the generator function: an error, the returned data (absent
      for `null`), or an exception. */
  datatype Invoke = InvokeFailed | Returned(data: Option<Json>) | InvokeThrew

  const GenerateTodayFailed := "Failed to generate today's challenge"
  const FetchTodayFailed := "Failed to fetch today's challenge"
  const GenerateFailed := "Failed to generate challenge"

  /** The cached row counts only when it is there and not `null`. */
  predicate Hit(l: Lookup) {
    l.Lookup? && l.row.Some? && Truthy(l.row.value)
  }

  /** The error carried in a returned payload, when it is truthy. */
  predicate PayloadError(data: Option<Json>) {
    TruthyOpt(Prop(data, "error"))
  }

  /** The request body of `regenerateChallenge`: the filters that were given
      (an `undefined` property is dropped when the body is serialised). */
  function RegenerateBody(category: Option<string>, difficulty: Option<string>): (body: Json)
    ensures body.JObj?
    ensures "category" in body.fields <==> category.Some?
    ensures "difficulty" in body.fields <==> difficulty.Some?
    ensures category.Some? ==> body.fields["category"] == JStr(category.value)
    ensures difficulty.Some? ==> body.fields["difficulty"] == JStr(difficulty.value)
    ensures body.fields.Keys <= {"category", "difficulty"}
  {
    var m: map<string, Json> := if category.Some? then map["category" := JStr(category.value)] else map[];
    JObj(if difficulty.Some? then m["difficulty" := JStr(difficulty.value)] else m)
  }

  class State {
    var challenge: Option<Json>
    var loading: bool
    var error: Option<Json>

    constructor ()
      ensures challenge.None? && loading && error.None?
    {
      challenge, loading, error := None, true, None;
    }

    /** `fetchTodaysChallenge`. `lookup` is the table query by date and
        `invoke` the generator call; `sent` is the body the generator was
        called with, if it was called. A query error is only logged: the
        flow goes on to the generator. */
    method FetchToday(today: string, lookup: string -> Lookup, invoke: Json -> Invoke)
      returns (sent: Option<Json>)
      modifies this
      ensures !loading
      ensures Hit(lookup(today)) ==> sent.None? && challenge == lookup(today).row && error == old(error)
      ensures lookup(today).LookupThrew? ==>
        sent.None? && challenge == old(challenge) && error == Some(JStr(FetchTodayFailed))
      ensures lookup(today).Lookup? && !Hit(lookup(today)) ==> sent == Some(JObj(map[]))
      ensures sent.Some? ==> match invoke(sent.value)
        case InvokeFailed => challenge == old(challenge) && error == Some(JStr(GenerateTodayFailed))
        case InvokeThrew => challenge == old(challenge) && error == Some(JStr(FetchTodayFailed))
        case Returned(data) =>
          if PayloadError(data) then challenge == old(challenge) && error == Prop(data, "error")
          else challenge == data && error == old(error)
    {
      sent := None;
      var l := lookup(today);
      if l.LookupThrew? {
        error := Some(JStr(FetchTodayFailed));
        loading := false;
        return;
      }
      if l.row.Some? && Truthy(l.row.value) {
        challenge := l.row;
        loading := false;
        return;
      }
      sent := Some(JObj(map[]));
      var reply := invoke(sent.value);
      match reply {
        case InvokeFailed =>
          error := Some(JStr(GenerateTodayFailed));
        case InvokeThrew =>
          error := Some(JStr(FetchTodayFailed));
        case Returned(data) =>
          if PayloadError(data) {
            error := Prop(data, "error");
          } else {
            challenge := data;
          }
      }
      loading := false;
    }

    /** `regenerateChallenge`: the error is cleared and loading set before
        the call, and loading is cleared on every path. */
    method Regenerate(category: Option<string>, difficulty: Option<string>, invoke: Json -> Invoke)
      returns (sent: Json)
      modifies this
      ensures sent == RegenerateBody(category, difficulty)
      ensures !loading
      ensures match invoke(sent)
        case InvokeFailed => challenge == old(challenge) && error == Some(JStr(GenerateFailed))
        case InvokeThrew => challenge == old(challenge) && error == Some(JStr(GenerateFailed))
        case Returned(data) =>
          if PayloadError(data) then challenge == old(challenge) && error == Prop(data, "error")
          else challenge == data && error.None?
    {
      loading := true;
      error := None;
      sent := RegenerateBody(category, difficulty);
      var reply := invoke(sent);
      match reply {
        case InvokeFailed =>
          error := Some(JStr(GenerateFailed));
        case InvokeThrew =>
          error := Some(JStr(GenerateFailed));
        case Returned(data) =>
          if PayloadError(data) {
            error := Prop(data, "error");
          } else {
            challenge := data;
          }
      }
      loading := false;
    }
  }
}
