/** The `generate-challenge` edge function: answers a CORS preflight, reads
    the optional `category` and `difficulty`, asks the AI gateway for a daily
    challenge dated today, and returns the parsed challenge with its id, date
    and creation time overwritten. */
module GenerateChallenge {
  import opened Wrappers
  import opened JsonValues
  import opened AiResponse

  const MixedCategory := "Category: Mix of UI, UX, or Visual Design"
  const DefaultDifficulty := "Difficulty: Intermediate"

  /** The parts of the user prompt that vary: the date and the two filter
      lines. The rest of both prompts is fixed text. */
  datatype Prompt = Prompt(date: string, categoryLine: string, difficultyLine: string)

  /** The category line: the given category when it is truthy, otherwise the
      mixed-category request. */
  function CategoryLine(category: Option<Json>): (r: string)
    ensures !TruthyOpt(category) ==> r == MixedCategory
    ensures TruthyOpt(category) ==> r == "Category focus: " + JsString(category.value)
  {
    if TruthyOpt(category) then "Category focus: " + JsString(category.value) else MixedCategory
  }

  /** The difficulty line: the given difficulty when it is truthy, otherwise
      Intermediate. */
  function DifficultyLine(difficulty: Option<Json>): (r: string)
    ensures !TruthyOpt(difficulty) ==> r == DefaultDifficulty
    ensures TruthyOpt(difficulty) ==> r == "Difficulty level: " + JsString(difficulty.value)
  {
    if TruthyOpt(difficulty) then "Difficulty level: " + JsString(difficulty.value) else DefaultDifficulty
  }

  /** The prompt for a request body (destructured as `{ category, difficulty }`)
      on the given date. */
  function PromptFor(body: Json, today: string): (p: Prompt)
    ensures p.date == today
    ensures p.categoryLine == CategoryLine(Prop(Some(body), "category"))
    ensures p.difficultyLine == DifficultyLine(Prop(Some(body), "difficulty"))
  {
    Prompt(today, CategoryLine(Prop(Some(body), "category")), DifficultyLine(Prop(Some(body), "difficulty")))
  }

  /** A body without the two fields asks for a mixed-category challenge of
      intermediate difficulty. */
  lemma EmptyBodyUsesDefaults(today: string)
    ensures PromptFor(JObj(map[]), today) == Prompt(today, MixedCategory, DefaultDifficulty)
  {
  }

  /** The parsed challenge with `id`, `challenge_date` and `created_at` set,
      in that order. */
  function Stamped(fields: map<string, Json>, id: string, date: string, createdAt: string): (m: map<string, Json>)
    ensures m.Keys == fields.Keys + {"id", "challenge_date", "created_at"}
    ensures m["id"] == JStr(id) && m["challenge_date"] == JStr(date) && m["created_at"] == JStr(createdAt)
    ensures forall k :: k in fields && k !in {"id", "challenge_date", "created_at"} ==> m[k] == fields[k]
  {
    fields["id" := JStr(id)]["challenge_date" := JStr(date)]["created_at" := JStr(createdAt)]
  }

  /** One request. `apiKey` is the environment variable, `now` and
      `createdAt` the two clock readings, `uuid` the random id, `gateway` the
      AI gateway and `parse` is `JSON.parse`. `sent` is the prompt passed to
      the gateway, if it was called. */
  method Handle(req: Request, apiKey: Option<string>, now: string, uuid: string, createdAt: string,
                gateway: Prompt -> GatewayReply, parse: string -> Option<Json>)
    returns (resp: HttpResponse, sent: Option<Prompt>)
    ensures req.verb == "OPTIONS" ==> resp == Preflight
    ensures resp.status in {200, 402, 429, 500}
    ensures sent.Some? <==> Admitted(req) && HasKey(apiKey)
    ensures sent.Some? ==> sent.value == PromptFor(req.body.value, Today(now))
    ensures req.verb != "OPTIONS" && req.body.None? ==> resp == Crash(RequestBodyNotJson)
    ensures req.verb != "OPTIONS" && req.body == Some(JNull) ==> resp == Crash(RequestBodyNull)
    ensures Admitted(req) && !HasKey(apiKey) ==> resp == Error(500, MissingKey)
    ensures sent.Some? && gateway(sent.value).Unreachable? ==> resp == Crash(GatewayUnreachable)
    ensures sent.Some? && gateway(sent.value).Reply? && !IsOk(gateway(sent.value).status) ==>
      resp == GatewayFailure(gateway(sent.value).status)
    ensures sent.Some? && Usable(gateway(sent.value)) ==>
      var parsed := ParsedReply(gateway(sent.value).data.value, parse);
      && (parsed.None? ==> resp == Error(500, ParseFailure))
      && (parsed.Some? && parsed.value.JObj? ==>
            resp == Success(JObj(Stamped(parsed.value.fields, uuid, sent.value.date, createdAt))))
      && (parsed.Some? && parsed.value.JArr? ==> resp == Success(parsed.value))
      && (parsed == Some(JNull) ==> resp == Crash(StampOnNull))
      && (parsed.Some? && (parsed.value.JBool? || parsed.value.JNum? || parsed.value.JStr?) ==>
            resp == Crash(StampOnPrimitive))
    ensures resp.status == 200 && req.verb != "OPTIONS" ==> sent.Some? && resp.body.JsonBody?
    ensures resp.status == 200 && resp.body.JsonBody? && resp.body.value.JObj? && sent.Some? ==>
      "challenge_date" in resp.body.value.fields && resp.body.value.fields["challenge_date"] == JStr(sent.value.date)
  {
    sent := None;
    if req.verb == "OPTIONS" {
      return Preflight, sent;
    }
    if req.body.None? {
      return Crash(RequestBodyNotJson), sent;
    }
    var body := req.body.value;
    if body.JNull? {
      return Crash(RequestBodyNull), sent;
    }
    var category := Prop(Some(body), "category");
    var difficulty := Prop(Some(body), "difficulty");
    if !HasKey(apiKey) {
      return Error(500, MissingKey), sent;
    }
    var today := Today(now);
    var prompt := Prompt(today, CategoryLine(category), DifficultyLine(difficulty));
    sent := Some(prompt);
    var reply := gateway(prompt);
    var read := ReadReply(reply, parse);
    if read.Err? {
      return read.error, sent;
    }
    var challenge := read.value;
    var step := SetProperty(challenge, "id", JStr(uuid));
    if step.Err? {
      return Crash(step.error), sent;
    }
    challenge := SetProperty(step.value, "challenge_date", JStr(today)).value;
    challenge := SetProperty(challenge, "created_at", JStr(createdAt)).value;
    resp := Success(challenge);
  }
}
