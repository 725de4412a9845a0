/** The single agent's gating flow: the tool call is read out of the model's reply, an
    `Action` built from its arguments goes through the escalation gate, and the verdict
    decides between a refusal, a cancellation and running the tool. */
module Agent {
  import opened Text
  import opened Json
  import opened Models
  import opened Escalation

  const JsonFence: string := "```json"
  const Fence: string := "```"

  /** A `"```json"` fence is also a plain fence. */
  lemma JsonFenceIsFence(s: string, q: int)
    requires OccursAt(s, JsonFence, q)
    ensures OccursAt(s, Fence, q)
  {
    assert s[q..q + 3] == s[q..q + 7][..3];
  }

  /** The text `_extract_tool_call` hands to `json.loads`: the stripped reply, cut down to
      the inside of its first code fence when it has one. */
  function CleanPayload(response: string): string {
    var cleaned := Trim(response);
    if Contains(cleaned, JsonFence) then Trim(Split(Split(cleaned, JsonFence)[1], Fence)[0])
    else if Contains(cleaned, Fence) then Trim(Split(Split(cleaned, Fence)[1], Fence)[0])
    else cleaned
  }

  /** With a `"```json"` fence closed by a later `"```"`, the payload is the trimmed text
      between them, provided no second `"```json"` starts inside the closing fence. */
  lemma JsonFencedPayload(response: string, p: nat)
    requires Contains(Trim(response), JsonFence)
    requires var cleaned := Trim(response);
             var rest := cleaned[Find(cleaned, JsonFence).value + |JsonFence|..];
             && Find(rest, Fence) == Some(p)
             && forall q :: p < q < p + |Fence| ==> !OccursAt(rest, JsonFence, q)
    ensures var cleaned := Trim(response);
            var rest := cleaned[Find(cleaned, JsonFence).value + |JsonFence|..];
            CleanPayload(response) == Trim(rest[..p])
  {
    var cleaned := Trim(response);
    var rest := cleaned[Find(cleaned, JsonFence).value + |JsonFence|..];
    SplitNext(cleaned, JsonFence, Find(cleaned, JsonFence).value);
    FenceCut(rest, p);
  }

  /** The piece before the next `"```json"`, cut at its first `"```"`, ends at the first
      `"```"` of the whole text. */
  lemma FenceCut(rest: string, p: nat)
    requires Find(rest, Fence) == Some(p)
    requires forall q :: p < q < p + |Fence| ==> !OccursAt(rest, JsonFence, q)
    ensures Split(Split(rest, JsonFence)[0], Fence)[0] == rest[..p]
  {
    match Find(rest, JsonFence)
    case None =>
      assert Split(rest, JsonFence)[0] == rest;
    case Some(q) =>
      assert Split(rest, JsonFence)[0] == rest[..q];
      JsonFenceIsFence(rest, q);
      if q == p {
        BeforeFirstHasNone(rest, Fence);
      } else {
        assert p + |Fence| <= q;
        FindInPrefix(rest, Fence, q);
        assert rest[..q][..p] == rest[..p];
      }
  }

  /** With a `"```json"` fence and no `"```"` after it, the payload is all that follows. */
  lemma JsonFenceUnclosed(response: string)
    requires Contains(Trim(response), JsonFence)
    requires var cleaned := Trim(response);
             Find(cleaned[Find(cleaned, JsonFence).value + |JsonFence|..], Fence).None?
    ensures var cleaned := Trim(response);
            CleanPayload(response) == Trim(cleaned[Find(cleaned, JsonFence).value + |JsonFence|..])
  {
    var cleaned := Trim(response);
    var rest := cleaned[Find(cleaned, JsonFence).value + |JsonFence|..];
    SplitNext(cleaned, JsonFence, Find(cleaned, JsonFence).value);
    if Find(rest, JsonFence).Some? {
      JsonFenceIsFence(rest, Find(rest, JsonFence).value);
    }
  }

  /** With only plain fences, the payload is the trimmed text between the first and the
      second, or all that follows the first when there is no second. */
  lemma PlainFencedPayload(response: string)
    requires !Contains(Trim(response), JsonFence) && Contains(Trim(response), Fence)
    ensures var cleaned := Trim(response);
            var rest := cleaned[Find(cleaned, Fence).value + |Fence|..];
            && (Find(rest, Fence).None? ==> CleanPayload(response) == Trim(rest))
            && (Find(rest, Fence).Some? ==> CleanPayload(response) == Trim(rest[..Find(rest, Fence).value]))
  {
    var cleaned := Trim(response);
    var rest := cleaned[Find(cleaned, Fence).value + |Fence|..];
    SplitNext(cleaned, Fence, Find(cleaned, Fence).value);
    var piece := Split(rest, Fence)[0];
    PlainBranch(response, cleaned);
    if Find(rest, Fence).None? {
      assert piece == rest;
    } else {
      assert piece == rest[..Find(rest, Fence).value];
      BeforeFirstHasNone(rest, Fence);
      assert Split(piece, Fence)[0] == piece;
    }
  }

  /** The plain-fence branch of `CleanPayload`. */
  lemma PlainBranch(response: string, cleaned: string)
    requires cleaned == Trim(response) && !Contains(cleaned, JsonFence) && Contains(cleaned, Fence)
    ensures CleanPayload(response) == Trim(Split(Split(cleaned, Fence)[1], Fence)[0])
  {
  }

  /** Without any fence the payload is the stripped reply. */
  lemma UnfencedPayload(response: string)
    requires !Contains(Trim(response), Fence)
    ensures CleanPayload(response) == Trim(response)
  {
    if Contains(Trim(response), JsonFence) {
      JsonFenceIsFence(Trim(response), Find(Trim(response), JsonFence).value);
      ContainsIff(Trim(response), Fence, Find(Trim(response), JsonFence).value);
    }
  }

  /** When a closing fence of four backticks runs into a second `"```json"`, the payload
      keeps a backtick that "the text up to the next fence" would not: the reply
      `"```json x ````json"` gives `"x `"`, where the first `"```"` after the opening
      fence would give `"x"`. */
  lemma OverlappingFenceKeepsBacktick()
    ensures var mid := [' ', 'x', ' ', '`'];
            var reply := JsonFence + (mid + JsonFence);
            && CleanPayload(reply) == ['x', ' ', '`']
            && Find((mid + JsonFence), Fence) == Some(3)
            && Trim((mid + JsonFence)[..3]) == ['x']
  {
    var mid := [' ', 'x', ' ', '`'];
    OverlapPayload(mid, mid + JsonFence);
    TrimMid(mid);
    FirstFenceAt3(mid, mid + JsonFence);
    assert (mid + JsonFence)[..3] == [' ', 'x', ' '];
    TrimX();
  }

  // The lemmas from here to `TrimX` work out the concrete reply of
  // `OverlappingFenceKeepsBacktick`; only `JsonFencePiece` is of general use.

  /** The payload of that reply is the text between the two `"```json"` fences, trimmed. */
  lemma OverlapPayload(mid: string, rest: string)
    requires mid == [' ', 'x', ' ', '`'] && rest == mid + JsonFence
    ensures CleanPayload(JsonFence + rest) == Trim(mid)
  {
    var s := JsonFence + rest;
    ReplyShape(mid, rest);
    JsonFencePiece(s, 0, rest);
    RestPiece(mid, rest);
  }

  /** The reply is already trimmed and opens with its first `"```json"` fence. */
  lemma ReplyShape(mid: string, rest: string)
    requires mid == [' ', 'x', ' ', '`'] && rest == mid + JsonFence
    ensures var s := JsonFence + rest;
            Find(Trim(s), JsonFence) == Some(0) && Trim(s)[|JsonFence|..] == rest
  {
    var s := JsonFence + rest;
    ReplyIsTrimmed(mid, rest, s);
    FenceOpensReply(rest, s);
  }

  /** Stripping leaves the reply as it is: it starts and ends with a non-space. */
  lemma ReplyIsTrimmed(mid: string, rest: string, s: string)
    requires mid == [' ', 'x', ' ', '`'] && rest == mid + JsonFence && s == JsonFence + rest
    ensures Trim(s) == s
  {
    assert s[0] == '`' && s[|s| - 1] == 'n';
    TrimKeeps(s);
  }

  /** A text that starts with `"```json"` has its first such fence at 0. */
  lemma FenceOpensReply(rest: string, s: string)
    requires s == JsonFence + rest
    ensures Find(s, JsonFence) == Some(0) && s[|JsonFence|..] == rest
  {
    assert s[..|JsonFence|] == JsonFence;
    FindUnique(s, JsonFence, 0);
  }

  /** After the opening fence, the piece before the next `"```json"` is `mid`, which
      holds no `"```"`. */
  lemma RestPiece(mid: string, rest: string)
    requires mid == [' ', 'x', ' ', '`'] && rest == mid + JsonFence
    ensures Split(Split(rest, JsonFence)[0], Fence)[0] == mid
  {
    assert Split(rest, JsonFence)[0] == mid by {
      SecondJsonFenceAt4(mid, rest);
      assert rest[..4] == mid;
    }
    NoFenceInMid(mid);
  }

  /** With a `"```json"` fence at `i`, the payload is what lies before the next `"```json"`,
      cut at its first `"```"`. */
  lemma JsonFencePiece(response: string, i: nat, rest: string)
    requires Find(Trim(response), JsonFence) == Some(i)
    requires rest == Trim(response)[i + |JsonFence|..]
    ensures CleanPayload(response) == Trim(Split(Split(rest, JsonFence)[0], Fence)[0])
  {
    var cleaned := Trim(response);
    SplitNext(cleaned, JsonFence, i);
    assert Contains(cleaned, JsonFence);
  }

  /** A text with no space at either end is its own strip. */
  lemma TrimKeeps(s: string)
    requires |s| > 0 && !IsSpace(s[0]) && !IsSpace(s[|s| - 1])
    ensures Trim(s) == s
  {
  }

  /** The second `"```json"` starts right after `mid`, at 4. */
  lemma SecondJsonFenceAt4(mid: string, rest: string)
    requires mid == [' ', 'x', ' ', '`'] && rest == mid + JsonFence
    ensures Find(rest, JsonFence) == Some(4)
  {
    assert rest[4..11] == JsonFence;
    forall j | 0 <= j < 4 ensures !OccursAt(rest, JsonFence, j) {
      assert rest[j + 6] != 'n';
      assert rest[j..j + 7][6] == rest[j + 6];
    }
    FindUnique(rest, JsonFence, 4);
  }

  /** The first `"```"` after the opening fence starts at 3, on `mid`'s backtick. */
  lemma FirstFenceAt3(mid: string, rest: string)
    requires mid == [' ', 'x', ' ', '`'] && rest == mid + JsonFence
    ensures Find(rest, Fence) == Some(3)
  {
    assert rest[3..6] == Fence;
    forall j | 0 <= j < 3 ensures !OccursAt(rest, Fence, j) {
      assert rest[j..j + 3][0] == rest[j];
    }
    FindUnique(rest, Fence, 3);
  }

  /** `mid` has only one backtick, so no `"```"`. */
  lemma NoFenceInMid(mid: string)
    requires mid == [' ', 'x', ' ', '`']
    ensures Find(mid, Fence).None?
  {
    forall j | 0 <= j && j + 3 <= 4 ensures !OccursAt(mid, Fence, j) {
      assert mid[j..j + 3][0] == mid[j];
    }
    FindNoneInPrefix(mid, Fence, 4);
    assert mid[..4] == mid;
  }

  /** Stripping `mid` drops its leading space only. */
  lemma TrimMid(mid: string)
    requires mid == [' ', 'x', ' ', '`']
    ensures Trim(mid) == ['x', ' ', '`']
  {
    assert SpaceRunEnd(mid, 0) == 1 by { assert IsSpace(mid[0]) && !IsSpace(mid[1]); }
    assert TrimStart(mid) == mid[1..];
    assert SpaceRunStart(mid[1..], 3) == 3 by { assert !IsSpace(mid[1..][2]); }
    assert TrimEnd(mid[1..]) == mid[1..];
  }

  /** Stripping `" x "` gives `"x"`. */
  lemma TrimX()
    ensures Trim([' ', 'x', ' ']) == ['x']
  {
    var t := [' ', 'x', ' '];
    assert SpaceRunEnd(t, 0) == 1 by { assert IsSpace(t[0]) && !IsSpace(t[1]); }
    assert TrimStart(t) == t[1..];
    assert t[1..] == ['x', ' '];
    var u := ['x', ' '];
    assert SpaceRunStart(u, 2) == 1 by { assert IsSpace(u[1]) && !IsSpace(u[0]); }
    assert TrimEnd(u) == ['x'] by {
      assert u[..1] == ['x'];
    }
  }

  /** The tool call read out of a reply: a tool name, if any, and its arguments. */
  datatype ToolCall = ToolCall(name: Option<string>, args: map<string, Json>)

  const NoToolCall: ToolCall := ToolCall(None, map[])

  /** The argument dictionary `payload.get("args") or payload.get("input") or {}`,
      replaced by `{}` when it is not a dictionary. */
  function ArgsOf(d: map<string, Json>): map<string, Json> {
    var args := if Truthy(Get(d, "args")) then Get(d, "args")
                else if Truthy(Get(d, "input")) then Get(d, "input")
                else JObject(map[]);
    if args.JObject? then args.fields else map[]
  }

  /** `GeminiAgent._extract_tool_call`. `decode` is `json.loads` (`None` for a
      `JSONDecodeError`) and `render` is `str()` on numbers, lists and dictionaries. */
  function ExtractToolCall(response: string, decode: string -> Option<Json>, render: Json -> string): ToolCall {
    match decode(CleanPayload(response))
    case None => NoToolCall
    case Some(payload) =>
      if !payload.JObject? then NoToolCall
      else
        var d := payload.fields;
        var action := if Truthy(Get(d, "action")) then Get(d, "action") else Get(d, "tool");
        ToolCall(Some(PyStr(action, render)), ArgsOf(d))
  }

  /** A payload that does not decode, or decodes to anything but an object, gives no tool. */
  lemma NonObjectGivesNoTool(response: string, decode: string -> Option<Json>, render: Json -> string)
    requires decode(CleanPayload(response)).None? || !decode(CleanPayload(response)).value.JObject?
    ensures ExtractToolCall(response, decode, render) == ToolCall(None, map[])
  {
  }

  /** For an object: a truthy `"action"` names the tool, else whatever `"tool"` holds; an
      object with neither key yields the name `"None"`, which is truthy. */
  lemma ToolNameSelection(response: string, decode: string -> Option<Json>, render: Json -> string)
    requires decode(CleanPayload(response)).Some? && decode(CleanPayload(response)).value.JObject?
    ensures var d := decode(CleanPayload(response)).value.fields;
            var call := ExtractToolCall(response, decode, render);
            && call.name.Some?
            && ("action" in d && Truthy(d["action"]) ==> call.name.value == PyStr(d["action"], render))
            && (!("action" in d && Truthy(d["action"])) && "tool" in d ==> call.name.value == PyStr(d["tool"], render))
            && ("action" !in d && "tool" !in d ==> call.name.value == "None")
  {
  }

  /** `"args"` is preferred over `"input"`, falsy values are skipped, and anything but a
      dictionary becomes `{}`. */
  lemma ArgsSelection(d: map<string, Json>)
    ensures "args" in d && d["args"].JObject? && d["args"].fields != map[] ==> ArgsOf(d) == d["args"].fields
    ensures !("args" in d && Truthy(d["args"])) && "input" in d && d["input"].JObject? ==> ArgsOf(d) == d["input"].fields
    ensures "args" in d && Truthy(d["args"]) && !d["args"].JObject? ==> ArgsOf(d) == map[]
    ensures !("args" in d && Truthy(d["args"])) && !("input" in d && Truthy(d["input"])) ==> ArgsOf(d) == map[]
  {
  }

  /** How a run of the tool branch can raise instead of answering: pydantic refuses an
      argument of `Action` (`ValidationError`), or `check_action` compares a `None`
      amount with a threshold (`TypeError`). */
  datatype AgentError = InvalidField(field: string) | AmountIsNone

  datatype Built = BuiltAction(action: Action) | BuildFailed(error: AgentError)

  /** `str(e)` of whatever a tool or the final completion raised. */
  datatype ToolResult = Observation(text: string) | ToolFailed(error: string)

  /** The collaborators of the tool branch, all outside the model: `json.loads`, `str()` on
      the values that are not strings, pydantic's coercion of `amount` and `sensitive`
      (`None` when it refuses), `str()` of the argument dictionary, the tool table, and the
      model's completion of the final prompt. */
  datatype Env = Env(
    decode: string -> Option<Json>,
    render: Json -> string,
    toAmount: Json -> Option<real>,
    toFlag: Json -> Option<bool>,
    argsText: map<string, Json> -> string,
    tools: map<string, map<string, Json> -> ToolResult>,
    complete: string -> ToolResult)

  /** `Action(type=tool_name, description=..., amount=tool_args.get("amount", 0.0),
      sensitive=tool_args.get("sensitive", False))`, followed by the amount comparisons.
      `amount` is `Optional[float]`, so a null amount passes validation and fails only at the
      first comparison; `sensitive` is a plain `bool`, so a null flag fails validation. */
  function BuildAction(name: string, args: map<string, Json>, env: Env): Built {
    var description := "Uitvoeren van tool " + name + " met " + env.argsText(args);
    var amount: Option<real> :=
      if "amount" !in args then Some(0.0)
      else match args["amount"]
        case JNumber(x) => Some(x)
        case JNull => None
        case v => env.toAmount(v);
    var sensitive: Option<bool> :=
      if "sensitive" !in args then Some(false)
      else match args["sensitive"]
        case JBool(b) => Some(b)
        case JNull => None
        case v => env.toFlag(v);
    if "amount" in args && args["amount"].JNull? then
      if sensitive.None? then BuildFailed(InvalidField("sensitive")) else BuildFailed(AmountIsNone)
    else if amount.None? then BuildFailed(InvalidField("amount"))
    else if sensitive.None? then BuildFailed(InvalidField("sensitive"))
    else BuiltAction(Action(name, description, amount.value, sensitive.value))
  }

  /** Arguments without `amount` and `sensitive` give the record defaults: amount 0 and
      not sensitive. A numeric amount and a boolean flag are taken as they are. A null flag
      is refused by validation, whatever the collaborators do; a null amount is accepted and
      then fails the threshold comparison. */
  lemma BuildActionDefaults(name: string, args: map<string, Json>, env: Env)
    ensures "amount" !in args && "sensitive" !in args ==>
              BuildAction(name, args, env).BuiltAction?
              && BuildAction(name, args, env).action
                 == DefaultAction(name, "Uitvoeren van tool " + name + " met " + env.argsText(args))
    ensures "amount" in args && args["amount"].JNumber? && "sensitive" in args && args["sensitive"].JBool? ==>
              BuildAction(name, args, env).BuiltAction?
              && BuildAction(name, args, env).action.amount == args["amount"].x
              && BuildAction(name, args, env).action.sensitive == args["sensitive"].b
              && BuildAction(name, args, env).action.kind == name
    ensures "sensitive" in args && args["sensitive"].JNull?
            && ("amount" !in args || args["amount"].JNumber? || args["amount"].JNull?) ==>
              BuildAction(name, args, env) == BuildFailed(InvalidField("sensitive"))
    ensures "amount" in args && args["amount"].JNull? && ("sensitive" !in args || args["sensitive"].JBool?) ==>
              BuildAction(name, args, env) == BuildFailed(AmountIsNone)
  {
  }

  /** `GeminiAgent._confirm_action`: the console confirmation is simulated and always says yes. */
  function ConfirmAction(a: Action): (r: bool)
    ensures r
  {
    true
  }

  const BlockedText: string := "\U{274C} Actie geblokkeerd: Dit overschrijdt de veiligheidslimieten."
  const CancelledText: string := "\U{1F6AB} Actie geannuleerd door gebruiker."

  function NotFoundText(name: string): string {
    "Tool " + name + " niet gevonden."
  }

  function ToolErrorText(error: string): string {
    "Fout bij uitvoeren tool: " + error
  }

  /** The prompt for the final formatting turn. */
  function FinalPrompt(systemPrompt: string, message: string, name: string, observation: string): string {
    systemPrompt + "\n\nTask: " + message + "\nTool '" + name + "' output: " + observation
    + "\n\nFormat het resultaat voor de gebruiker, inclusief links."
  }

  /** Looking the tool up and running it; an exception in the tool or in the final
      completion gives the error text. */
  function Dispatch(systemPrompt: string, message: string, name: string, args: map<string, Json>, env: Env): string {
    if name !in env.tools then NotFoundText(name)
    else match env.tools[name](args)
      case ToolFailed(e) => ToolErrorText(e)
      case Observation(obs) =>
        match env.complete(FinalPrompt(systemPrompt, message, name, obs))
        case ToolFailed(e) => ToolErrorText(e)
        case Observation(text) => text
  }

  datatype Outcome = Answer(text: string) | Raised(error: AgentError)

  /** The part of `GeminiAgent.process` after the model replied with `reply`: no tool call
      returns the reply; otherwise the action is checked, and `Block` refuses, `Confirm`
      asks `confirm`, and the tool runs. */
  function ProcessReply(systemPrompt: string, message: string, reply: string, env: Env, confirm: Action -> bool): Outcome {
    var call := ExtractToolCall(reply, env.decode, env.render);
    if call.name.None? || call.name.value == "" then Answer(reply)
    else
      var name := call.name.value;
      match BuildAction(name, call.args, env)
      case BuildFailed(e) => Raised(e)
      case BuiltAction(a) =>
        var verdict := CheckAction(a);
        if verdict == Block then Answer(BlockedText)
        else if verdict == Confirm && !confirm(a) then Answer(CancelledText)
        else Answer(Dispatch(systemPrompt, message, name, call.args, env))
  }

  /** A reply without a tool call is returned unchanged. */
  lemma NoToolCallReturnsReply(systemPrompt: string, message: string, reply: string, env: Env, confirm: Action -> bool)
    requires ExtractToolCall(reply, env.decode, env.render).name.None?
    ensures ProcessReply(systemPrompt, message, reply, env, confirm) == Answer(reply)
  {
  }

  /** A blocked action is refused before any tool is looked up or run: the answer is the
      refusal whatever the tool table, the completion and the confirmation do. */
  lemma BlockRefusesBeforeDispatch(systemPrompt: string, message: string, reply: string,
                                   env: Env, tools: map<string, map<string, Json> -> ToolResult>,
                                   complete: string -> ToolResult, confirm: Action -> bool)
    requires var call := ExtractToolCall(reply, env.decode, env.render);
             && call.name.Some? && call.name.value != ""
             && BuildAction(call.name.value, call.args, env).BuiltAction?
             && CheckAction(BuildAction(call.name.value, call.args, env).action) == Block
    ensures ProcessReply(systemPrompt, message, reply, env, confirm) == Answer(BlockedText)
    ensures ProcessReply(systemPrompt, message, reply, env.(tools := tools, complete := complete), confirm)
         == Answer(BlockedText)
  {
    var call := ExtractToolCall(reply, env.decode, env.render);
    BuildActionIgnoresTools(call.name.value, call.args, env, env.(tools := tools, complete := complete));
  }

  /** Building the `Action` does not look at the tool table or the completion. */
  lemma BuildActionIgnoresTools(name: string, args: map<string, Json>, env: Env, env': Env)
    requires env'.argsText == env.argsText && env'.toAmount == env.toAmount && env'.toFlag == env.toFlag
    ensures BuildAction(name, args, env') == BuildAction(name, args, env)
  {
  }

  /** A declined confirmation cancels; with `_confirm_action` as written no action is ever
      cancelled, and everything short of `Block` reaches the tool. */
  lemma ConfirmFlow(systemPrompt: string, message: string, reply: string, env: Env, confirm: Action -> bool)
    requires var call := ExtractToolCall(reply, env.decode, env.render);
             && call.name.Some? && call.name.value != ""
             && BuildAction(call.name.value, call.args, env).BuiltAction?
    ensures var call := ExtractToolCall(reply, env.decode, env.render);
            var a := BuildAction(call.name.value, call.args, env).action;
            && (CheckAction(a) == Confirm && !confirm(a) ==>
                  ProcessReply(systemPrompt, message, reply, env, confirm) == Answer(CancelledText))
            && (CheckAction(a) != Block ==>
                  ProcessReply(systemPrompt, message, reply, env, ConfirmAction)
                  == Answer(Dispatch(systemPrompt, message, call.name.value, call.args, env)))
  {
  }

  /** Dispatch answers "Tool <name> niet gevonden." for an unknown tool, the error text
      for a tool or completion that raises, and the completion of the final prompt
      otherwise. */
  lemma DispatchResults(systemPrompt: string, message: string, name: string, args: map<string, Json>, env: Env)
    ensures name !in env.tools ==> Dispatch(systemPrompt, message, name, args, env) == NotFoundText(name)
    ensures name in env.tools && env.tools[name](args).ToolFailed? ==>
              Dispatch(systemPrompt, message, name, args, env) == "Fout bij uitvoeren tool: " + env.tools[name](args).error
    ensures name in env.tools && env.tools[name](args).Observation? ==>
              var c := env.complete(FinalPrompt(systemPrompt, message, name, env.tools[name](args).text));
              Dispatch(systemPrompt, message, name, args, env)
              == if c.Observation? then c.text else "Fout bij uitvoeren tool: " + c.error
  {
  }

  /** A small bank transfer asked for by the model is refused: the type is denylisted. */
  lemma SmallBankTransferRefused(systemPrompt: string, message: string, reply: string, env: Env)
    requires env.decode(CleanPayload(reply))
          == Some(JObject(map["action" := JString("BANK_TRANSFER"),
                              "args" := JObject(map["amount" := JNumber(100.0)])]))
    ensures ProcessReply(systemPrompt, message, reply, env, ConfirmAction) == Answer(BlockedText)
  {
    var d := map["action" := JString("BANK_TRANSFER"), "args" := JObject(map["amount" := JNumber(100.0)])];
    assert Get(d, "action") == JString("BANK_TRANSFER");
    assert ArgsOf(d) == map["amount" := JNumber(100.0)];
    var call := ExtractToolCall(reply, env.decode, env.render);
    assert call.name == Some("BANK_TRANSFER");
    assert "BANK_TRANSFER" in NeverTypes;
  }
}
