/** `converse_api_call_no_tool`: one call to the conversation endpoint, with the assistant
    prefill, the `<answer>` extraction and the bounded JSON repair loop. */
module Conversation {
  import opened Wrappers
  import opened Strings
  import opened JsonValue
  import AnswerExtractor

  datatype Role = User | Assistant

  /** One entry of `messages`: `{"role": ..., "content": [{"text": ...}]}`. */
  datatype Turn = Turn(role: Role, text: string)

  /** The arguments of one `converse` call; `system` is the text of its single system block.
      The sampling parameters are passed through untouched. */
  datatype Request = Request(
    modelId: string, messages: seq<Turn>,
    maxTokens: int, temperature: real, topP: real,
    system: string)

  /** The Python values `response_text` takes: `None`, a string, or a parsed JSON value.
      `PyJson` records that a parse succeeded: `PyJson(JNull)` and `PyJson(JString(s))` are
      the very values `None` and `s` in Python, kept apart here. */
  datatype PyValue = PyNone | PyStr(s: string) | PyJson(j: Json)

  /** The values `response_text` takes before any parse succeeds: a string or `None`. */
  type PyText = v: PyValue | !v.PyJson? witness PyNone

  const DefaultModelId: string := "anthropic.claude-3-haiku-20240307-v1:0"
  const DefaultTemperature: real := 0.0
  const DefaultTopP: real := 1.0
  const DefaultMaxTokens: int := 4096

  /** The repair loop's initial `counter`. */
  const MaxRepairs: nat := 3

  /** The fixed configuration of every repair request. */
  const FixMaxTokens: int := 4096
  const FixTemperature: real := 0.0
  const FixTopP: real := 0.8
  const FixSystemPrompt: string := "You are an expert at formatting JSON strings."

  /** The repair template, split around its `{json}` placeholder, whitespace included. */
  const FixPromptHead: string :=
    " \n                Your task is to fix the following JSON string in <erroneous_json> tag and format it into a valid JSON object. \n                <erroneous_json>"
  const FixPromptTail: string :=
    "</erroneous_json>\n                Skip the preamble, return only the JSON object and nothing else.\n                "

  /** A Python list of turns that the call may append to in place. */
  class History {
    var turns: seq<Turn>

    constructor (turns: seq<Turn>)
      ensures this.turns == turns
    {
      this.turns := turns;
    }

    method Append(t: Turn)
      modifies this
      ensures turns == old(turns) + [t]
    {
      turns := turns + [t];
    }
  }

  /** The remote conversation endpoint. Its answers are an oracle fixed up front: the reply
      to the `n`-th request it receives is `reply(n, request)`. `sent` logs every request. */
  class Client {
    const reply: (nat, Request) -> string
    var sent: seq<Request>

    constructor (reply: (nat, Request) -> string)
      ensures this.reply == reply && sent == []
    {
      this.reply := reply;
      sent := [];
    }

    /** `client.converse(...)`, reduced to the first content text of the reply. */
    method Converse(request: Request) returns (text: string)
      modifies this
      ensures sent == old(sent) + [request]
      ensures text == reply(|old(sent)|, request)
    {
      text := reply(|sent|, request);
      sent := sent + [request];
    }
  }

  /** The arguments of `converse_api_call_no_tool` that shape the main request. */
  datatype Call = Call(
    userInput: string, systemPrompt: string, prefill: string,
    modelId: string, temperature: real, topP: real, maxTokens: int)

  /** The outgoing message list: the history, then the user turn carrying the dumped input,
      then the prefill verbatim as an assistant turn when the prefill is not empty. */
  function Messages(history: seq<Turn>, userInput: string, prefill: string, lib: JsonLib): (m: seq<Turn>)
    ensures |m| == |history| + (if prefill == "" then 1 else 2)
    ensures m[..|history|] == history
    ensures m[|history|] == Turn(User, lib.dumps(userInput))
    ensures prefill != "" ==> m[|history| + 1] == Turn(Assistant, prefill)
  {
    history + [Turn(User, lib.dumps(userInput))] + (if prefill == "" then [] else [Turn(Assistant, prefill)])
  }

  function MainRequest(c: Call, lib: JsonLib, history: seq<Turn>): Request {
    Request(c.modelId, Messages(history, c.userInput, c.prefill, lib),
            c.maxTokens, c.temperature, c.topP, lib.dumps(c.systemPrompt))
  }

  /** The prefill joined to the reply and, when that holds `<answer>`, replaced by the
      content of the tag (`None` if it is never closed). */
  function PostProcess(prefill: string, text: string): PyText {
    var combined := prefill + text;
    if Contains(combined, "<answer>") then
      match AnswerExtractor.ExtractAnswer(combined)
      case Some(x) => PyStr(x)
      case None => PyNone
    else PyStr(combined)
  }

  /** `json.loads(response_text.replace("\n", ""))` inside its `try`: calling `replace` on
      `None` raises too, so a missing answer counts as a parse failure. */
  function TryLoads(v: PyText, lib: JsonLib): Option<Json> {
    match v
    case PyStr(s) => lib.loads(RemoveNewlines(s))
    case PyNone => None
  }

  /** `str(response_text)` as `format` renders it into the repair template. */
  function Str(v: PyText): string {
    match v
    case PyStr(s) => s
    case PyNone => "None"
  }

  /** The repair template with `response_text` in place of `{json}`. */
  function FixPrompt(v: PyText): string {
    FixPromptHead + Str(v) + FixPromptTail
  }

  /** A repair request: a fresh one-message conversation with the fixed configuration. */
  function RepairRequest(modelId: string, lib: JsonLib, v: PyText): Request {
    Request(modelId, [Turn(User, lib.dumps(FixPrompt(v)))],
            FixMaxTokens, FixTemperature, FixTopP, lib.dumps(FixSystemPrompt))
  }

  /** What the repair loop works from: the oracle, the index of the first repair call, the
      text that failed to parse, and the two requests the loop can send: the first one,
      embedding that text, and every later one, embedding `None` because each failed
      attempt sets `response_text` to `None`. */
  datatype RepairContext = RepairContext(
    reply: (nat, Request) -> string, base: nat, lib: JsonLib,
    first: PyText, opening: Request, later: Request)

  function RepairContextFor(reply: (nat, Request) -> string, base: nat,
                            modelId: string, lib: JsonLib, first: PyText): RepairContext {
    RepairContext(reply, base, lib, first, RepairRequest(modelId, lib, first), RepairRequest(modelId, lib, PyNone))
  }

  /** The text embedded by repair attempt `i`. */
  function Embedded(first: PyText, i: nat): PyText {
    if i == 0 then first else PyNone
  }

  function RepairAttempt(ctx: RepairContext, i: nat): Request {
    if i == 0 then ctx.opening else ctx.later
  }

  /** The parse of the reply to repair attempt `i`, line feeds removed. */
  function RepairParse(ctx: RepairContext, i: nat): Option<Json> {
    ctx.lib.loads(RemoveNewlines(ctx.reply(ctx.base + i, RepairAttempt(ctx, i))))
  }

  /** What one call returns and the requests it sends, in order. */
  datatype Outcome = Outcome(result: PyValue, requests: seq<Request>)

  /** How the repair loop ends: its value and the number of attempts it made. */
  datatype Repaired = Repaired(result: PyValue, attempts: nat)

  /** The repair loop from attempt `i` on: the first reply that parses ends the loop with
      that value, and after `MaxRepairs` failures it ends with `None`. */
  function Repair(ctx: RepairContext, i: nat): Repaired
    decreases MaxRepairs - i
  {
    if i >= MaxRepairs then Repaired(PyNone, i)
    else match RepairParse(ctx, i)
      case Some(j) => Repaired(PyJson(j), i + 1)
      case None => Repair(ctx, i + 1)
  }

  /** From attempt `i` on, the loop stops at the first attempt whose reply parses and yields
      that parse; when none parses it has made every attempt and yields `None`. */
  lemma {:induction false} RepairStopsAtFirstParse(ctx: RepairContext, i: nat)
    requires i <= MaxRepairs
    ensures var r := Repair(ctx, i);
      && i <= r.attempts <= MaxRepairs
      && (r.result.PyJson? || r.result == PyNone)
      && (r.result.PyJson? ==>
            i < r.attempts && RepairParse(ctx, r.attempts - 1) == Some(r.result.j)
            && forall k :: i <= k < r.attempts - 1 ==> RepairParse(ctx, k).None?)
      && (r.result == PyNone ==>
            r.attempts == MaxRepairs && forall k :: i <= k < MaxRepairs ==> RepairParse(ctx, k).None?)
    decreases MaxRepairs - i
  {
    if i < MaxRepairs && RepairParse(ctx, i).None? {
      RepairStopsAtFirstParse(ctx, i + 1);
    }
  }

  /** The first `n` repair requests, in the order they are sent. */
  function RepairRequests(ctx: RepairContext, n: nat): (rs: seq<Request>)
    ensures |rs| == n
    ensures forall i :: 0 <= i < n ==> rs[i] == RepairAttempt(ctx, i)
  {
    if n == 0 then [] else RepairRequests(ctx, n - 1) + [RepairAttempt(ctx, n - 1)]
  }

  /** The JSON check: the parse of the answer when it parses, otherwise the repair loop and
      the requests it sends. */
  function Checked(ctx: RepairContext): Outcome {
    match TryLoads(ctx.first, ctx.lib)
    case Some(j) => Outcome(PyJson(j), [])
    case None =>
      var r := Repair(ctx, 0);
      Outcome(r.result, RepairRequests(ctx, r.attempts))
  }

  /** One more attempt extends the log of repair requests by that attempt's request. */
  lemma {:induction false} SentNext(before: seq<Request>, ctx: RepairContext, k: nat)
    ensures before + RepairRequests(ctx, k) + [RepairAttempt(ctx, k)] == before + RepairRequests(ctx, k + 1)
  {
    assert RepairRequests(ctx, k + 1) == RepairRequests(ctx, k) + [RepairAttempt(ctx, k)];
  }

  /** The JSON check of the call: parse the answer and, when that fails, ask the model up to
      `MaxRepairs` times to fix it. */
  method CheckJson(client: Client, lib: JsonLib, modelId: string, first: PyText)
    returns (result: PyValue)
    modifies client
    ensures var out := Checked(RepairContextFor(client.reply, |old(client.sent)|, modelId, lib, first));
      result == out.result && client.sent == old(client.sent) + out.requests
  {
    var parsed := TryLoads(first, lib);
    if parsed.Some? {
      return PyJson(parsed.value);
    }
    ghost var ctx := RepairContextFor(client.reply, |client.sent|, modelId, lib, first);
    var responseText: PyValue := first;
    ghost var attempts: nat := 0;
    var fixed := false;
    var counter := MaxRepairs;
    while !fixed && counter > 0
      invariant counter <= MaxRepairs && attempts <= MaxRepairs
      invariant !fixed ==> attempts + counter == MaxRepairs && responseText == Embedded(ctx.first, attempts)
      invariant !fixed ==> Repair(ctx, 0) == Repair(ctx, attempts)
      invariant fixed ==> Repair(ctx, 0) == Repaired(responseText, attempts)
      invariant client.sent == old(client.sent) + RepairRequests(ctx, attempts)
      decreases if fixed then 0 else counter + 1
    {
      var fixPrompt := FixPrompt(responseText);
      var fixMessage := [Turn(User, lib.dumps(fixPrompt))];
      var fixRequest := Request(modelId, fixMessage, FixMaxTokens, FixTemperature, FixTopP, lib.dumps(FixSystemPrompt));
      assert fixRequest == RepairRequest(modelId, lib, Embedded(first, attempts));
      var fixResponseText := client.Converse(fixRequest);
      SentNext(old(client.sent), ctx, attempts);
      var fixParsed := lib.loads(RemoveNewlines(fixResponseText));
      assert fixParsed == RepairParse(ctx, attempts);
      if fixParsed.Some? {
        responseText := PyJson(fixParsed.value);
        fixed := true;
      } else {
        counter := counter - 1;
        responseText := PyNone;
      }
      attempts := attempts + 1;
    }
    result := responseText;
  }

  /** The whole call: it extends the conversation (in place when the caller passed a
      non-empty history), sends it with the caller's configuration, post-processes the
      reply, and runs the JSON check when asked. The result and every request sent are
      stated in terms of the oracle. */
  method ConverseApiCallNoTool(
    userInput: string, systemPrompt: string, client: Client, lib: JsonLib, history: History,
    prefill: string := "", modelId: string := DefaultModelId,
    temperature: real := DefaultTemperature, topP: real := DefaultTopP, maxTokens: int := DefaultMaxTokens,
    jsonCheck: bool := false, debug: bool := false)
    returns (result: PyValue)
    modifies client, history
    ensures var main := MainRequest(Call(userInput, systemPrompt, prefill, modelId, temperature, topP, maxTokens),
                                    lib, old(history.turns));
      var text := PostProcess(prefill, client.reply(|old(client.sent)|, main));
      if !jsonCheck then result == text && client.sent == old(client.sent) + [main]
      else
        var out := Checked(RepairContextFor(client.reply, |old(client.sent)| + 1, modelId, lib, text));
        result == out.result && client.sent == old(client.sent) + [main] + out.requests
    ensures 1 <= |client.sent| - |old(client.sent)| <= 1 + MaxRepairs
    ensures jsonCheck ==> result.PyJson? || result == PyNone
    ensures history.turns == if old(history.turns) == [] then [] else Messages(old(history.turns), userInput, prefill, lib)
  {
    ghost var call := Call(userInput, systemPrompt, prefill, modelId, temperature, topP, maxTokens);

    // A non-empty history is the very list appended to; an empty one is replaced by a fresh list.
    var message: History;
    if history.turns != [] {
      message := history;
    } else {
      message := new History([]);
    }
    message.Append(Turn(User, lib.dumps(userInput)));
    if prefill != "" {
      message.Append(Turn(Assistant, prefill));
    }
    assert message.turns == Messages(old(history.turns), userInput, prefill, lib);

    var request := Request(modelId, message.turns, maxTokens, temperature, topP, lib.dumps(systemPrompt));
    assert request == MainRequest(call, lib, old(history.turns));
    var replyText := client.Converse(request);

    var responseText: PyValue := PyStr(prefill + replyText);
    if Contains(prefill + replyText, "<answer>") {
      responseText := match AnswerExtractor.ExtractAnswer(prefill + replyText)
        case Some(x) => PyStr(x)
        case None => PyNone;
    }
    assert responseText == PostProcess(prefill, replyText);

    if jsonCheck {
      ghost var ctx := RepairContextFor(client.reply, |client.sent|, modelId, lib, responseText);
      assert ctx == RepairContextFor(client.reply, |old(client.sent)| + 1, modelId, lib, PostProcess(prefill, replyText));
      ghost var sent := client.sent;
      responseText := CheckJson(client, lib, modelId, responseText);
      assert client.sent == sent + Checked(ctx).requests;
      CheckedOutcome(ctx);
    }
    result := responseText;
  }

  /** With the JSON check on, the result is a parse or `None`. The check
      sends no request when the answer parses, and otherwise at least one and at most
      `MaxRepairs`. */
  lemma CheckedOutcome(ctx: RepairContext)
    ensures var out := Checked(ctx);
      && (out.result.PyJson? || out.result == PyNone)
      && |out.requests| <= MaxRepairs
      && (out.requests == [] <==> TryLoads(ctx.first, ctx.lib).Some?)
      && (TryLoads(ctx.first, ctx.lib).Some? ==> out.result == PyJson(TryLoads(ctx.first, ctx.lib).value))
  {
    RepairStopsAtFirstParse(ctx, 0);
  }

  /** An answer of `null` parses, so the call ends after its one request with JSON null,
      which Python returns as `None`: the same value the repair loop returns when every
      attempt has failed. */
  lemma ParsedNullEndsAtOnce(ctx: RepairContext)
    requires TryLoads(ctx.first, ctx.lib) == Some(JNull)
    ensures Checked(ctx) == Outcome(PyJson(JNull), [])
  {
  }

  /** The first repair request embeds the text that failed to parse; every later one embeds
      `None`, so it is the same whatever that text was. */
  lemma RepairRequestsEmbed(reply: (nat, Request) -> string, base: nat, modelId: string,
                            lib: JsonLib, first: PyText, n: nat, i: nat)
    requires i < n
    ensures var rs := RepairRequests(RepairContextFor(reply, base, modelId, lib, first), n);
      && rs[i].modelId == modelId
      && rs[i].messages == [Turn(User, lib.dumps(FixPromptHead + Str(Embedded(first, i)) + FixPromptTail))]
      && (i > 0 ==> rs[i] == RepairRequest(modelId, lib, PyNone))
  {
  }

  /** An answer wrapped in `<answer>` tags is extracted, whatever surrounds it. */
  lemma PostProcessWrapped(prefill: string, text: string, pre: string, x: string, post: string)
    requires prefill + text == pre + "<answer>" + x + "</answer>" + post
    requires !Contains(pre, "<answer>") && !Contains(x, "</answer>")
    ensures PostProcess(prefill, text) == PyStr(x)
  {
    var tag := AnswerExtractor.DefaultTag;
    var open, close := AnswerExtractor.OpenTag(tag), AnswerExtractor.CloseTag(tag);
    assert open == "<answer>" && close == "</answer>";
    assert prefill + text == pre + open + (x + close + post);
    AnswerExtractor.FirstOpenAfter(pre, tag, x + close + post);
    ContainsSpec(prefill + text, "<answer>");
    assert prefill + text == pre + open + x + close + post;
    AnswerExtractor.ExtractWrapped(pre, x, post, tag);
  }

  /** An `<answer>` tag that is never closed leaves no answer. */
  lemma PostProcessUnclosed(prefill: string, text: string)
    requires Contains(prefill + text, "<answer>") && !Contains(prefill + text, "</answer>")
    ensures PostProcess(prefill, text) == PyNone
  {
    var tag := AnswerExtractor.DefaultTag;
    assert AnswerExtractor.OpenTag(tag) == "<answer>" && AnswerExtractor.CloseTag(tag) == "</answer>";
    ContainsSpec(prefill + text, "</answer>");
    AnswerExtractor.ExtractMissingClose(prefill + text, tag);
  }
}
