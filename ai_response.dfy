/** What the two generator edge functions share: the CORS preflight, the
    responses they build, the mapping of a failed AI-gateway reply to an HTTP
    status, the path to the reply's message text, the extraction of the JSON
    text from a possibly fenced reply, and the stamping of metadata onto the
    parsed result. */
module AiResponse {
  import opened Wrappers
  import opened JsonValues
  import Text

  /** Errors the JavaScript runtime raises on its own; its message text is
      engine-specific, so the model names the cause only. */
  datatype Fault =
    | RequestBodyNotJson      // `await req.json()` rejects
    | RequestBodyNull         // destructuring `null`
    | GatewayUnreachable      // `fetch` rejects
    | GatewayBodyNotJson      // `await response.json()` rejects
    | GatewayDataNull         // `data.choices` on `null`
    | StampOnNull             // `x.id = ...` with `x === null`
    | StampOnPrimitive        // `x.id = ...` on a string, number or boolean (strict mode)

  datatype Body =
    | NoBody                  // `new Response(null, ...)`
    | JsonBody(value: Json)   // `JSON.stringify(value)`
    | FaultBody(fault: Fault) // `{ error: <the runtime's message> }`

  datatype HttpResponse = HttpResponse(status: nat, headers: map<string, string>, body: Body)

  /** An incoming request; `body` is `None` when it is not valid JSON. */
  datatype Request = Request(verb: string, body: Option<Json>)

  /** What `fetch` to the AI gateway produces: a status with a body that is
      valid JSON or not (`None`), or a rejected promise. */
  datatype GatewayReply = Reply(status: nat, data: Option<Json>) | Unreachable

  const CorsHeaders: map<string, string> := map[
    "Access-Control-Allow-Origin" := "*",
    "Access-Control-Allow-Headers" := "authorization, x-client-info, apikey, content-type"
  ]

  const JsonHeaders: map<string, string> := CorsHeaders["Content-Type" := "application/json"]

  const RateLimited := "Rate limit exceeded. Please try again later."
  const CreditsDepleted := "AI credits depleted. Please add credits to continue."
  const ParseFailure := "Failed to parse AI response as JSON"
  const MissingKey := "LOVABLE_API_KEY is not configured"
  const Fence := "```"

  /** The answer to a CORS preflight: no body, the CORS headers, status 200. */
  const Preflight := HttpResponse(200, CorsHeaders, NoBody)

  function Success(value: Json): HttpResponse {
    HttpResponse(200, JsonHeaders, JsonBody(value))
  }

  /** An `{ error: message }` answer with the given status. */
  function Error(status: nat, message: string): (r: HttpResponse)
    ensures r.status == status && r.headers == JsonHeaders
    ensures r.body.JsonBody? && r.body.value.JObj? && "error" in r.body.value.fields
    ensures r.body.value.fields["error"] == JStr(message)
  {
    HttpResponse(status, JsonHeaders, JsonBody(ErrorObject(message)))
  }

  /** The catch-all answer for an error the runtime raised. */
  function Crash(fault: Fault): HttpResponse {
    HttpResponse(500, JsonHeaders, FaultBody(fault))
  }

  /** `response.ok`. */
  predicate IsOk(status: nat) {
    200 <= status <= 299
  }

  /** `!LOVABLE_API_KEY`: the variable is unset or empty. */
  predicate HasKey(apiKey: Option<string>) {
    apiKey.Some? && apiKey.value != []
  }

  /** `new Date().toISOString().split('T')[0]`. */
  function Today(now: string): (r: string)
    ensures 'T' !in r
    ensures |r| <= |now| && r == now[..|r|]
  {
    var parts := Text.Split(now, 'T');
    Text.LastPartIsSuffix(parts, 'T');
    FirstPartIsPrefix(parts, 'T');
    parts[0]
  }

  lemma FirstPartIsPrefix(parts: seq<string>, sep: char)
    requires |parts| >= 1
    ensures |parts[0]| <= |Text.Join(parts, sep)|
    ensures parts[0] == Text.Join(parts, sep)[..|parts[0]|]
  {
  }

  /** The date of an ISO timestamp `<date>T<time>` is the `<date>` part. */
  lemma TodayOfTimestamp(date: string, time: string)
    requires 'T' !in date
    ensures Today(date + "T" + time) == date
  {
    Text.SplitFirst(date, 'T', time);
  }

  /** A gateway status that is not OK: 429 and 402 are passed on with their
      fixed messages, everything else becomes a 500 naming the status. */
  function GatewayFailure(status: nat): (r: HttpResponse)
    requires !IsOk(status)
    ensures status == 429 ==> r == Error(429, RateLimited)
    ensures status == 402 ==> r == Error(402, CreditsDepleted)
    ensures status != 429 && status != 402 ==> r == Error(500, "AI gateway error: " + Text.NatToString(status))
    ensures r.status in {402, 429, 500}
    ensures r.status == status || r.status == 500
  {
    if status == 429 then Error(429, RateLimited)
    else if status == 402 then Error(402, CreditsDepleted)
    else Error(500, "AI gateway error: " + Text.NatToString(status))
  }

  /** `data.choices?.[0]?.message?.content`; `data.choices` on `null` is an
      error, everything after it is optional chaining. */
  function MessageContent(data: Json): (r: Result<Option<Json>, Fault>)
    ensures r.Err? <==> data.JNull?
    ensures r.Ok? && r.value.Some? ==>
      && data.JObj? && "choices" in data.fields
      && var choices := data.fields["choices"];
         (choices.JArr? && |choices.items| > 0) || (choices.JObj? && "0" in choices.fields)
  {
    if data.JNull? then Err(GatewayDataNull)
    else Ok(Prop(Prop(First(Prop(Some(data), "choices")), "message"), "content"))
  }

  /** The content of the first choice is read whether `choices` is an array
      or an object keyed "0", as index 0 reads both. */
  lemma FirstChoiceContent(choice: Json, content: Json, asObject: bool)
    requires choice == JObj(map["message" := JObj(map["content" := content])])
    ensures var choices := if asObject then JObj(map["0" := choice]) else JArr([choice]);
      MessageContent(JObj(map["choices" := choices])) == Ok(Some(content))
  {
    var choices := if asObject then JObj(map["0" := choice]) else JArr([choice]);
    assert First(Some(choices)) == Some(choice);
  }

  /** The text captured by `/```(?:json)?\s*([\s\S]*?)```/`, or `None` when the
      pattern does not match. The opening fence is the first "```"; a "json"
      tag right after it is skipped; the capture runs to the next "```". The
      white space that `\s*` skips is not removed here, since the capture is
      trimmed afterwards anyway. */
  function FenceCapture(content: string): (r: Option<string>)
    ensures r.None? ==> forall o, c :: 0 <= o && o + 3 <= c && Text.OccursAt(content, Fence, o) ==> !Text.OccursAt(content, Fence, c)
  {
    match Text.IndexOfFrom(content, Fence, 0)
    case None => None
    case Some(open) =>
      var start := if Text.OccursAt(content, "json", open + 3) then open + 7 else open + 3;
      match Text.IndexOfFrom(content, Fence, start)
      case None =>
        NoFenceInTag(content, open + 3);
        None
      case Some(close) => Some(content[start..close])
  }

  /** `(content.match(fence) || [null, content])[1]?.trim() || content.trim()`:
      the trimmed capture when the fence matches and its capture is not
      blank, otherwise the whole content trimmed. */
  function ExtractJsonText(content: string): (r: string)
    ensures Text.Trimmed(r)
    ensures FenceCapture(content).Some? && Text.Trim(FenceCapture(content).value) != [] ==> r == Text.Trim(FenceCapture(content).value)
    ensures FenceCapture(content).None? || Text.Trim(FenceCapture(content).value) == [] ==> r == Text.Trim(content)
  {
    var capture := FenceCapture(content);
    if capture.Some? && Text.Trim(capture.value) != [] then Text.Trim(capture.value) else Text.Trim(content)
  }

  /** Without two fences the content is used whole, trimmed. */
  lemma UnfencedIsTrimmedContent(content: string)
    requires !Text.Contains(content, Fence)
    ensures ExtractJsonText(content) == Text.Trim(content)
  {
  }

  /** The fence pair the pattern matches in any reply: the first fence at
      `open`, `start` just after it (past a "json" tag exactly when one is
      there), and the first fence from `start` on at `close`. */
  predicate FirstFencePair(content: string, open: nat, start: nat, close: nat) {
    && start <= close
    && Text.OccursAt(content, Fence, open)
    && (forall k :: 0 <= k < open ==> !Text.OccursAt(content, Fence, k))
    && start == (if Text.OccursAt(content, "json", open + 3) then open + 7 else open + 3)
    && Text.OccursAt(content, Fence, close)
    && (forall k :: start <= k < close ==> !Text.OccursAt(content, Fence, k))
  }

  /** For every reply, backticks anywhere included, the capture is the text
      between the first fence (and its tag) and the next fence. */
  lemma {:induction false} CaptureOfFirstPair(content: string, open: nat, start: nat, close: nat)
    requires FirstFencePair(content, open, start, close)
    ensures FenceCapture(content) == Some(content[start..close])
  {
    FirstOccurrenceAt(content, Fence, 0, open);
    FirstOccurrenceAt(content, Fence, start, close);
  }

  /** Conversely, whatever the pattern captures comes from such a pair. */
  lemma {:induction false} CaptureHasFirstPair(content: string)
    requires FenceCapture(content).Some?
    ensures exists open: nat, start: nat, close: nat ::
      FirstFencePair(content, open, start, close) && FenceCapture(content).value == content[start..close]
  {
    var open := Text.IndexOfFrom(content, Fence, 0).value;
    var start := if Text.OccursAt(content, "json", open + 3) then open + 7 else open + 3;
    var close := Text.IndexOfFrom(content, Fence, start).value;
    assert FirstFencePair(content, open, start, close);
  }

  /** The layout the fence pattern looks for: no backtick before the fence
      at `open`; `start` just after it, past a "json" tag exactly when one
      is there; no backtick from `start` up to the fence at `close`. */
  predicate FencedAt(content: string, open: nat, start: nat, close: nat) {
    && open + 3 <= start <= close
    && Text.OccursAt(content, Fence, open)
    && Text.OccursAt(content, Fence, close)
    && start == (if Text.OccursAt(content, "json", open + 3) then open + 7 else open + 3)
    && (forall k :: 0 <= k < open ==> content[k] != '`')
    && (forall k :: start <= k < close ==> content[k] != '`')
  }

  /** For a reply with that layout the capture is exactly the text between
      the tag and the closing fence. */
  lemma {:induction false} CaptureAt(content: string, open: nat, start: nat, close: nat)
    requires FencedAt(content, open, start, close)
    ensures FenceCapture(content) == Some(content[start..close])
  {
    NextFenceAt(content, 0, open);
    NextFenceAt(content, start, close);
  }

  /** For such a reply the text handed to the parser is the trimmed capture
      when that is not blank. */
  lemma FencedBodyExtracted(content: string, open: nat, start: nat, close: nat)
    requires FencedAt(content, open, start, close)
    requires Text.Trim(content[start..close]) != []
    ensures ExtractJsonText(content) == Text.Trim(content[start..close])
  {
    CaptureAt(content, open, start, close);
  }

  /** A reply `pre ``` tag body ``` post` with a "json" tag or none, where
      neither `pre` nor `body` holds a backtick (and an untagged `body` does
      not itself start with "json"), has that layout around `body`. */
  lemma {:induction false} FencedReply(pre: string, tag: string, body: string, post: string)
    requires tag == "json" || tag == ""
    requires '`' !in pre && '`' !in body
    requires tag == "" ==> !Text.OccursAt(body, "json", 0)
    ensures var content := pre + Fence + tag + body + Fence + post;
      var start := |pre| + 3 + |tag|;
      && FencedAt(content, |pre|, start, start + |body|)
      && content[start..start + |body|] == body
  {
    var content := pre + Fence + tag + body + Fence + post;
    var open, start := |pre|, |pre| + 3 + |tag|;
    var close := start + |body|;
    assert content[open..open + 3] == Fence;
    forall k | 0 <= k < open ensures content[k] != '`' {
      assert content[k] == pre[k];
    }
    TagAt(pre, tag, body, post);
    forall k | start <= k < close ensures content[k] != '`' {
      assert content[k] == body[k - start];
    }
    assert content[close..close + 3] == Fence;
    assert content[start..close] == body;
  }

  /** Right after the opening fence a "json" tag is seen exactly when it is
      there. */
  lemma {:induction false} TagAt(pre: string, tag: string, body: string, post: string)
    requires tag == "json" || tag == ""
    requires '`' !in body
    requires tag == "" ==> !Text.OccursAt(body, "json", 0)
    ensures var content := pre + Fence + tag + body + Fence + post;
      && (Text.OccursAt(content, "json", |pre| + 3) <==> tag == "json")
      && (if Text.OccursAt(content, "json", |pre| + 3) then |pre| + 7 else |pre| + 3) == |pre| + 3 + |tag|
  {
    var content := pre + Fence + tag + body + Fence + post;
    var rest := tag + body + Fence + post;
    var p := |pre| + 3;
    assert content[p..] == rest;
    TagSkipped(tag, body, post);
    if |rest| >= 4 {
      assert content[p..p + 4] == rest[0..4];
    }
  }

  /** With no backtick in `s[lo..hi]` and a fence at `hi`, the first fence
      from `lo` on is at `hi`. */
  lemma {:induction false} NextFenceAt(s: string, lo: nat, hi: nat)
    requires lo <= hi && Text.OccursAt(s, Fence, hi)
    requires forall k :: lo <= k < hi ==> s[k] != '`'
    ensures Text.IndexOfFrom(s, Fence, lo) == Some(hi)
  {
    NoFenceWithoutBacktick(s, lo, hi);
    FirstOccurrenceAt(s, Fence, lo, hi);
  }

  /** After the opening fence, a "json" tag is recognised exactly when it is
      there. */
  lemma {:induction false} TagSkipped(tag: string, body: string, post: string)
    requires tag == "json" || tag == ""
    requires '`' !in body
    requires tag == "" ==> !Text.OccursAt(body, "json", 0)
    ensures Text.OccursAt(tag + body + Fence + post, "json", 0) <==> tag == "json"
  {
    var rest := tag + body + Fence + post;
    if tag == "json" {
      assert rest[..4] == tag;
    } else {
      assert rest == body + Fence + post;
      if |body| >= 4 {
        assert rest[..4] == body[..4];
      } else {
        assert rest[|body|] == '`';
        assert |rest| < 4 || rest[..4][|body|] == '`';
      }
    }
  }

  lemma {:induction false} FirstOccurrenceAt(s: string, pat: string, from: nat, j: nat)
    requires from <= j && Text.OccursAt(s, pat, j)
    requires forall k :: from <= k < j ==> !Text.OccursAt(s, pat, k)
    ensures Text.IndexOfFrom(s, pat, from) == Some(j)
  {
  }

  /** No fence starts where there is no backtick. */
  lemma {:induction false} NoFenceWithoutBacktick(s: string, lo: nat, hi: nat)
    requires lo <= hi <= |s|
    requires forall k :: lo <= k < hi ==> s[k] != '`'
    ensures forall k :: lo <= k < hi ==> !Text.OccursAt(s, Fence, k)
  {
    forall k | lo <= k < hi ensures !Text.OccursAt(s, Fence, k) {
      assert s[k] != '`';
    }
  }

  /** No fence starts inside a "json" tag. */
  lemma {:induction false} NoFenceInTag(s: string, p: nat)
    ensures Text.OccursAt(s, "json", p) ==> forall k :: p <= k < p + 4 ==> !Text.OccursAt(s, Fence, k)
  {
    if Text.OccursAt(s, "json", p) {
      forall k | p <= k < p + 4 ensures s[k] != '`' {
        assert s[k] == s[p..p + 4][k - p];
      }
      NoFenceWithoutBacktick(s, p, p + 4);
    }
  }

  /** The text handed to `JSON.parse`, or `None` when `content.match` throws
      because the content is missing or not a string. */
  function ParseCandidate(content: Option<Json>): (r: Option<string>)
    ensures r.Some? <==> content.Some? && content.value.JStr?
    ensures r.Some? ==> r.value == ExtractJsonText(content.value.s)
  {
    if content.Some? && content.value.JStr? then Some(ExtractJsonText(content.value.s)) else None
  }

  /** `x[key] = value` on a parsed result: objects get the property, arrays
      accept it but `JSON.stringify` drops it, `null` and primitives throw. */
  function SetProperty(x: Json, key: string, value: Json): (r: Result<Json, Fault>)
    ensures x.JObj? ==> r == Ok(JObj(x.fields[key := value]))
    ensures x.JArr? ==> r == Ok(x)
    ensures x.JNull? ==> r == Err(StampOnNull)
    ensures (x.JBool? || x.JNum? || x.JStr?) ==> r == Err(StampOnPrimitive)
  {
    match x
    case JObj(fields) => Ok(JObj(fields[key := value]))
    case JArr(_) => Ok(x)
    case JNull => Err(StampOnNull)
    case _ => Err(StampOnPrimitive)
  }

  /** A property set on an object is there afterwards and nothing else
      changes; a later assignment to another key keeps it. */
  lemma SetPropertyKeeps(x: Json, key: string, value: Json, key2: string, value2: Json)
    requires x.JObj? && key != key2
    ensures var y := SetProperty(SetProperty(x, key, value).value, key2, value2).value;
      y.JObj? && y.fields[key] == value && y.fields[key2] == value2
      && y.fields.Keys == x.fields.Keys + {key, key2}
      && forall k :: k in x.fields && k != key && k != key2 ==> y.fields[k] == x.fields[k]
  {
  }

  /** Past the body and key checks: the request was not a preflight and its
      body is JSON other than `null`. */
  predicate Admitted(req: Request) {
    req.verb != "OPTIONS" && req.body.Some? && !req.body.value.JNull?
  }

  /** The value `JSON.parse` produces from the reply's message text: `None`
      when the text is missing, is not a string or is not valid JSON. */
  function ParsedReply(data: Json, parse: string -> Option<Json>): (r: Option<Json>)
    requires !data.JNull?
    ensures var content := MessageContent(data).value;
      r.Some? ==> content.Some? && content.value.JStr? && r == parse(ExtractJsonText(content.value.s))
  {
    var text := ParseCandidate(MessageContent(data).value);
    if text.None? then None else parse(text.value)
  }

  /** A gateway reply that reached the parsing step: OK status, a JSON body
      other than `null`. */
  predicate Usable(reply: GatewayReply) {
    reply.Reply? && IsOk(reply.status) && reply.data.Some? && !reply.data.value.JNull?
  }

  /** From the gateway's reply to either the parsed result or the response
      that ends the request early. Both handlers run exactly these steps. */
  method ReadReply(reply: GatewayReply, parse: string -> Option<Json>) returns (r: Result<Json, HttpResponse>)
    ensures reply.Unreachable? ==> r == Err(Crash(GatewayUnreachable))
    ensures reply.Reply? && !IsOk(reply.status) ==> r == Err(GatewayFailure(reply.status))
    ensures reply.Reply? && IsOk(reply.status) && reply.data.None? ==> r == Err(Crash(GatewayBodyNotJson))
    ensures reply.Reply? && IsOk(reply.status) && reply.data == Some(JNull) ==> r == Err(Crash(GatewayDataNull))
    ensures Usable(reply) && ParsedReply(reply.data.value, parse).None? ==> r == Err(Error(500, ParseFailure))
    ensures Usable(reply) && ParsedReply(reply.data.value, parse).Some? ==> r == Ok(ParsedReply(reply.data.value, parse).value)
    ensures r.Err? ==> r.error.status in {402, 429, 500}
  {
    if reply.Unreachable? {
      return Err(Crash(GatewayUnreachable));
    }
    if !IsOk(reply.status) {
      return Err(GatewayFailure(reply.status));
    }
    if reply.data.None? {
      return Err(Crash(GatewayBodyNotJson));
    }
    var content := MessageContent(reply.data.value);
    if content.Err? {
      return Err(Crash(content.error));
    }
    var text := ParseCandidate(content.value);
    if text.None? {
      return Err(Error(500, ParseFailure));
    }
    var parsed := parse(text.value);
    if parsed.None? {
      return Err(Error(500, ParseFailure));
    }
    return Ok(parsed.value);
  }
}
