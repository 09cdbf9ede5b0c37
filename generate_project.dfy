/** The `generate-project` edge function: answers a CORS preflight, fills in
    defaults for the four filters, asks the AI gateway for a portfolio
    project, and returns the parsed project with its id and creation time
    overwritten. */
module GenerateProject {
  import opened Wrappers
  import opened JsonValues
  import opened AiResponse

  /** The four filter values as they appear in the user prompt. */
  datatype Filters = Filters(skillLevel: string, projectType: string, platform: string, duration: string)

  const DefaultFilters := Filters("Intermediate", "Any", "Any", "Medium (1-2 weeks)")

  /** The filters of a request body (destructured as `{ skillLevel,
      projectType, platform, duration }`), each replaced by its default when
      falsy. */
  function FiltersFor(body: Json): (f: Filters)
    ensures f.skillLevel == OrDefault(Prop(Some(body), "skillLevel"), DefaultFilters.skillLevel)
    ensures f.projectType == OrDefault(Prop(Some(body), "projectType"), DefaultFilters.projectType)
    ensures f.platform == OrDefault(Prop(Some(body), "platform"), DefaultFilters.platform)
    ensures f.duration == OrDefault(Prop(Some(body), "duration"), DefaultFilters.duration)
  {
    Filters(
      OrDefault(Prop(Some(body), "skillLevel"), DefaultFilters.skillLevel),
      OrDefault(Prop(Some(body), "projectType"), DefaultFilters.projectType),
      OrDefault(Prop(Some(body), "platform"), DefaultFilters.platform),
      OrDefault(Prop(Some(body), "duration"), DefaultFilters.duration))
  }

  /** A body that is not an object, or whose properties are all falsy, gets
      all four defaults. */
  lemma {:induction false} FilterDefaults(body: Json)
    requires !body.JObj? || (forall k :: k in body.fields ==> !Truthy(body.fields[k]))
    ensures FiltersFor(body) == DefaultFilters
  {
    if body.JObj? {
      forall k | k in {"skillLevel", "projectType", "platform", "duration"}
        ensures !TruthyOpt(Prop(Some(body), k))
      {
        if k in body.fields {
          assert !Truthy(body.fields[k]);
        }
      }
    }
  }

  /** The parsed project with `id` and `created_at` set; no date is added. */
  function Stamped(fields: map<string, Json>, id: string, createdAt: string): (m: map<string, Json>)
    ensures m.Keys == fields.Keys + {"id", "created_at"}
    ensures m["id"] == JStr(id) && m["created_at"] == JStr(createdAt)
    ensures forall k :: k in fields && k != "id" && k != "created_at" ==> m[k] == fields[k]
    ensures "challenge_date" in m <==> "challenge_date" in fields
  {
    fields["id" := JStr(id)]["created_at" := JStr(createdAt)]
  }

  /** One request; the parameters are as for the challenge generator.
      `sent` holds the filters passed to the gateway, if it was called. */
  method Handle(req: Request, apiKey: Option<string>, uuid: string, createdAt: string,
                gateway: Filters -> GatewayReply, parse: string -> Option<Json>)
    returns (resp: HttpResponse, sent: Option<Filters>)
    ensures req.verb == "OPTIONS" ==> resp == Preflight
    ensures resp.status in {200, 402, 429, 500}
    ensures sent.Some? <==> Admitted(req) && HasKey(apiKey)
    ensures sent.Some? ==> sent.value == FiltersFor(req.body.value)
    ensures req.verb != "OPTIONS" && req.body.None? ==> resp == Crash(RequestBodyNotJson)
    ensures req.verb != "OPTIONS" && req.body == Some(JNull) ==> resp == Crash(RequestBodyNull)
    ensures Admitted(req) && !HasKey(apiKey) ==> resp == Error(500, MissingKey)
    ensures sent.Some? && gateway(sent.value).Unreachable? ==> resp == Crash(GatewayUnreachable)
    ensures sent.Some? && gateway(sent.value).Reply? && !IsOk(gateway(sent.value).status) ==>
      resp == GatewayFailure(gateway(sent.value).status)
    ensures sent.Some? && Usable(gateway(sent.value)) ==>
      var parsed := ParsedReply(gateway(sent.value).data.value, parse);
      && (parsed.None? ==> resp == Error(500, ParseFailure))
      && (parsed.Some? && parsed.value.JObj? ==> resp == Success(JObj(Stamped(parsed.value.fields, uuid, createdAt))))
      && (parsed.Some? && parsed.value.JArr? ==> resp == Success(parsed.value))
      && (parsed == Some(JNull) ==> resp == Crash(StampOnNull))
      && (parsed.Some? && (parsed.value.JBool? || parsed.value.JNum? || parsed.value.JStr?) ==>
            resp == Crash(StampOnPrimitive))
    ensures resp.status == 200 && req.verb != "OPTIONS" ==> sent.Some? && resp.body.JsonBody?
  {
    sent := None;
    if req.verb == "OPTIONS" {
      return Preflight, sent;
    }
    if req.body.None? {
      return Crash(RequestBodyNotJson), sent;
    }
    var body := req.body.value;
    if body.JNull? {
      return Crash(RequestBodyNull), sent;
    }
    var skillLevel := Prop(Some(body), "skillLevel");
    var projectType := Prop(Some(body), "projectType");
    var platform := Prop(Some(body), "platform");
    var duration := Prop(Some(body), "duration");
    if !HasKey(apiKey) {
      return Error(500, MissingKey), sent;
    }
    var filters := Filters(
      OrDefault(skillLevel, "Intermediate"), OrDefault(projectType, "Any"),
      OrDefault(platform, "Any"), OrDefault(duration, "Medium (1-2 weeks)"));
    sent := Some(filters);
    var reply := gateway(filters);
    var read := ReadReply(reply, parse);
    if read.Err? {
      return read.error, sent;
    }
    var step := SetProperty(read.value, "id", JStr(uuid));
    if step.Err? {
      return Crash(step.error), sent;
    }
    var project := SetProperty(step.value, "created_at", JStr(createdAt)).value;
    resp := Success(project);
  }
}
