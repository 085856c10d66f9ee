/** The prompt, the request body and the tolerant reading of the answer of
    the generative-language endpoint (backend/app/services/gemini_client.rb).
    The HTTP exchange and `JSON.parse` are collaborators handed in as
    functions. */
module GeminiClient {
  import opened Wrappers
  import opened Text
  import opened Json

  /** The collaborators the client talks to: the HTTP POST (`None` when the
      request raises) and `JSON.parse` (`None` when it raises a parse error). */
  datatype ClientEnv = ClientEnv(send: Json -> Option<string>, parse: string -> Option<Json>)

  /** What `extract_suggestions` hands back: the value it returns, or the
      exception that escapes it. */
  datatype Extracted = Extracted(suggestions: Json) | Raised(error: ClientError)

  datatype ClientError =
    | TransportFailed   // the HTTP request itself raised
    | BodyNotJson       // `JSON.parse(response.body)` raised, outside the rescue
    | DigFailed         // `dig` met a value that cannot be dug into

  // ---------------------------------------------------------------------
  // The prompt
  // ---------------------------------------------------------------------

  const PromptHead: string :=
    "Given the following incident transcript, extract suggestions that are actionable, novel, and important for incident response.\n" +
    "\n" +
    "STRICT DEDUPLICATION RULES:\n" +
    "- DO NOT return any suggestion that is a duplicate, near-duplicate, rephrasing, or restatement of any previous suggestion, even if the wording is different.\n" +
    "- DO NOT split the same action into multiple suggestions. Only return the most concise, clear, and unique version of each action.\n" +
    "- If two suggestions are about the same action, only return the best, most specific one.\n" +
    "- If you are unsure if a suggestion is too similar to a previous one, DO NOT include it.\n" +
    "- If a suggestion is already covered by a previous suggestion, DO NOT include it.\n" +
    "- Only return suggestions that are truly unique and not covered by any previous suggestion.\n" +
    "\n"

  const PromptMiddle: string :=
    "\n" +
    "\n" +
    "Transcript:\n"

  const PromptTail: string :=
    "\n" +
    "\n" +
    "For each suggestion, return:\n" +
    "- type: One of \"action_item\", \"root_cause\", or \"trigger_event\". Only use \"metadata\" if there is truly no action, root cause, or trigger event.\n" +
    "- title: A concise, 1-3 word summary of the suggestion. This must NOT be a duplicate or near-duplicate of the description or referenced_message. Make it specific and meaningful.\n" +
    "- description: A short, user-facing, specific summary of the suggestion.\n" +
    "- referenced_message: The message text or index that supports the suggestion.\n" +
    "\n" +
    "**Good Example:**\n" +
    "[\n" +
    "  { \"type\": \"action_item\", \"title\": \"Rollback Playbook\", \"description\": \"Update the rollback playbook to reflect the new deployment pipeline.\", \"referenced_message\": \"Okay, found the rollback playbook. It's in Confluence, but it looks... really outdated.\" },\n" +
    "  { \"type\": \"root_cause\", \"title\": \"Database Spike\", \"description\": \"Postgres database CPU is at 100%, likely due to a new query pattern after deploy #341.\", \"referenced_message\": \"Whoa \U{E2}\U{20AC}\U{201D} 100% CPU on postgres.\" }\n" +
    "]\n" +
    "\n" +
    "**Bad Example:**\n" +
    "- { \"type\": \"metadata\", \"title\": \"Error Rate\", \"description\": \"Error rate on the web tier has spiked.\", \"referenced_message\": \"Error rate on the web tier has spiked.\" }\n" +
    "- { \"type\": \"metadata\", \"title\": \"Check the logs\", \"description\": \"Check the logs.\", \"referenced_message\": \"Users can't even load the homepage.\" }\n" +
    "\n" +
    "Only return a JSON array of objects as shown in the Good Example. Do NOT use Markdown code fences, do NOT return a string, and do NOT return an array of strings.\n" +
    "\n" +
    "Only return an empty array if there is truly nothing actionable, novel, or useful in the transcript.\n"

  const SectionOpen: string :=
    "\n        Previous suggestions (DO NOT repeat, rephrase, or restate any of these):\n        "

  const SectionClose: string := "\n      "

  /** `"#{x}"` of a value that may be nil. */
  function Interpolate(x: Option<string>): string {
    x.GetOr("")
  }

  /** The line `- "<s>"` for one previous description. */
  function Bullet(s: Option<string>): string {
    "- \"" + Interpolate(s) + "\""
  }

  function Bullets(prev: seq<Option<string>>): (r: seq<string>)
    ensures |r| == |prev|
    ensures forall i :: 0 <= i < |prev| ==> r[i] == Bullet(prev[i])
  {
    seq(|prev|, i requires 0 <= i < |prev| => Bullet(prev[i]))
  }

  /** `previous_suggestions.any?`: some element is not nil. */
  predicate AnyPresent(prev: seq<Option<string>>) {
    exists i :: 0 <= i < |prev| && prev[i].Some?
  }

  /** The previous-suggestions section: empty when `any?` is false, otherwise
      the heading and one bullet line per previous description. */
  function PreviousSection(prev: seq<Option<string>>): string {
    if AnyPresent(prev) then SectionOpen + Join(Bullets(prev), "\n") + SectionClose else ""
  }

  /** The line `<i+1>. <c>` for the context message at index `i`. */
  function NumberedLine(i: nat, c: Option<string>): string {
    NatToString(i + 1) + ". " + Interpolate(c)
  }

  function NumberedLines(context: seq<Option<string>>): (r: seq<string>)
    ensures |r| == |context|
    ensures forall i :: 0 <= i < |context| ==> r[i] == NumberedLine(i, context[i])
  {
    seq(|context|, i requires 0 <= i < |context| => NumberedLine(i, context[i]))
  }

  /** The whole prompt sent for a context window and previous descriptions. */
  function Prompt(context: seq<Option<string>>, prev: seq<Option<string>>): string {
    PromptHead + PreviousSection(prev) + PromptMiddle + Join(NumberedLines(context), "\n") + PromptTail
  }

  /** The request body `{contents: [{parts: [{text: prompt}]}]}`. */
  function RequestBody(prompt: string): Json {
    JObj([("contents", JArr([JObj([("parts", JArr([JObj([("text", JStr(prompt))])]))])]))])
  }

  /** Where the answer's text sits in the response. */
  const TextPath: seq<Key> :=
    [KStr("candidates"), KIdx(0), KStr("content"), KStr("parts"), KIdx(0), KStr("text")]

  /** A successful response carrying `text`. */
  function Envelope(text: Json): Json {
    JObj([("candidates", JArr([JObj([("content", JObj([("parts", JArr([JObj([("text", text)])]))]))])]))])
  }

  // ---------------------------------------------------------------------
  // Reading the answer
  // ---------------------------------------------------------------------

  /** `gsub(/```json|```/, '')`: one left-to-right scan that removes each
      occurrence, trying "```json" before "```" at every position. */
  function StripFences(s: string): string
    decreases |s|
  {
    if |s| == 0 then ""
    else if IsPrefix("```json", s) then StripFences(s[7..])
    else if IsPrefix("```", s) then StripFences(s[3..])
    else [s[0]] + StripFences(s[1..])
  }

  /** The text handed to `JSON.parse`: fences removed, then stripped. */
  function Clean(text: string): string {
    Strip(StripFences(text))
  }

  /** The `begin ... rescue` block applied to the text found in the response. */
  function ReadText(text: Json, parse: string -> Option<Json>): Json {
    match text
    case JStr(s) =>
      (match parse(Clean(s))
       case Some(v) => v
       case None => JArr([text]))
    case _ =>
      // nil or false: `JSON.parse(nil)` raises and the rescue returns [];
      // any other value has no `gsub`, and the rescue returns [text].
      if text.Truthy() then JArr([text]) else JArr([])
  }

  /** `extract_suggestions(context_window, previous_suggestions)`: the
      prompt built, then exchanged. */
  function ExtractSuggestions(context: seq<Option<string>>, prev: seq<Option<string>>, env: ClientEnv): Extracted {
    Exchange(Prompt(context, prev), env)
  }

  /** The request carrying `prompt` posted, and the answer read from the
      response. */
  function Exchange(prompt: string, env: ClientEnv): Extracted {
    match env.send(RequestBody(prompt))
    case None => Raised(TransportFailed)
    case Some(body) =>
      match env.parse(body)
      case None => Raised(BodyNotJson)
      case Some(json) =>
        match Dig(json, TextPath)
        case Err => Raised(DigFailed)
        case Ok(text) => Extracted(ReadText(text, env.parse))
  }

  // ---------------------------------------------------------------------
  // Properties
  // ---------------------------------------------------------------------

  /** The previous-suggestions section is empty exactly when no previous
      description is present (`any?` is false for an empty list and for a
      list of nils alike). */
  lemma SectionEmptyIff(prev: seq<Option<string>>)
    ensures PreviousSection(prev) == "" <==> !AnyPresent(prev)
  {
  }

  /** Each previous description appears as its own bullet line, in input
      order: bullet `i` follows the earlier bullets and precedes the later
      ones, one line break apart. */
  lemma SectionBulletAt(prev: seq<Option<string>>, i: nat)
    requires i < |prev| && AnyPresent(prev)
    ensures PreviousSection(prev) ==
      SectionOpen +
      ((if i == 0 then "" else Join(Bullets(prev)[..i], "\n") + "\n") +
       Bullet(prev[i]) +
       (if i + 1 == |prev| then "" else "\n" + Join(Bullets(prev)[i + 1..], "\n"))) +
      SectionClose
  {
    JoinAround(Bullets(prev), "\n", i);
  }

  lemma {:induction false} LeadingDigitsStop(d: string, rest: string)
    requires forall k :: 0 <= k < |d| ==> IsDigit(d[k])
    requires |rest| > 0 && !IsDigit(rest[0])
    ensures LeadingDigits(d + rest) == d
    decreases |d|
  {
    if |d| > 0 {
      assert (d + rest)[1..] == d[1..] + rest;
      LeadingDigitsStop(d[1..], rest);
    } else {
      assert d + rest == rest;
    }
  }

  /** Context message `i` appears as the line `<i+1>. <content>`, in context
      order, and the number in front of it reads back as `i + 1`. */
  lemma TranscriptLineAt(context: seq<Option<string>>, i: nat)
    requires i < |context|
    ensures Join(NumberedLines(context), "\n") ==
      (if i == 0 then "" else Join(NumberedLines(context)[..i], "\n") + "\n") +
      NumberedLine(i, context[i]) +
      (if i + 1 == |context| then "" else "\n" + Join(NumberedLines(context)[i + 1..], "\n"))
    ensures ParseDecimal(NumberedLine(i, context[i])) == Some(i + 1)
  {
    JoinAround(NumberedLines(context), "\n", i);
    var n := NatToString(i + 1);
    assert NumberedLine(i, context[i]) == n + (". " + Interpolate(context[i]));
    LeadingDigitsStop(n, ". " + Interpolate(context[i]));
    DigitsValueOfNatToString(i + 1);
  }

  /** The request body carries the prompt at `contents[0].parts[0].text`. */
  lemma RequestBodyCarriesPrompt(prompt: string)
    ensures Dig(RequestBody(prompt), [KStr("contents"), KIdx(0), KStr("parts"), KIdx(0), KStr("text")]) == Ok(JStr(prompt))
  {
    var path := [KStr("contents"), KIdx(0), KStr("parts"), KIdx(0), KStr("text")];
    var parts := JArr([JObj([("text", JStr(prompt))])]);
    var content := JObj([("parts", parts)]);
    assert Dig(JObj([("text", JStr(prompt))]), path[4..]) == Ok(JStr(prompt));
    assert Dig(parts, path[3..]) == Ok(JStr(prompt));
    assert Dig(content, path[2..]) == Ok(JStr(prompt));
    assert Dig(JArr([content]), path[1..]) == Ok(JStr(prompt));
  }

  /** `candidates[0].content.parts[0].text` of a successful response is its text. */
  lemma EnvelopeText(text: Json)
    ensures Dig(Envelope(text), TextPath) == Ok(text)
  {
    var leaf := JObj([("text", text)]);
    var parts := JArr([leaf]);
    var content := JObj([("parts", parts)]);
    var cand := JObj([("content", content)]);
    assert Dig(leaf, TextPath[5..]) == Ok(text);
    assert Dig(parts, TextPath[4..]) == Ok(text);
    assert Dig(content, TextPath[3..]) == Ok(text);
    assert Dig(cand, TextPath[2..]) == Ok(text);
    assert Dig(JArr([cand]), TextPath[1..]) == Ok(text);
  }

  lemma {:induction false} StripFencesTickFree(x: string, y: string)
    requires '`' !in x
    ensures StripFences(x + y) == x + StripFences(y)
    decreases |x|
  {
    if |x| > 0 {
      assert (x + y)[0] == x[0];
      assert (x + y)[1..] == x[1..] + y;
      StripFencesTickFree(x[1..], y);
    } else {
      assert x + y == y;
    }
  }

  lemma StripFencesOpening(rest: string)
    ensures StripFences("```json" + rest) == StripFences(rest)
  {
    var s := "```json" + rest;
    assert s[..7] == "```json";
    assert s[7..] == rest;
  }

  lemma StripFencesClosing()
    ensures StripFences("\n" + "```") == "\n"
  {
    assert StripFences("```") == "" by {
      assert "```"[..3] == "```";
      assert "```"[3..] == "";
    }
    StripFencesTickFree("\n", "```");
  }

  /** Wrapping tick-free text in a ```json fence does not change what is
      parsed: the fences go and `strip` removes the line breaks they leave. */
  lemma FenceRemoved(x: string)
    requires '`' !in x
    ensures Clean("```json" + "\n" + x + "\n" + "```") == Clean(x)
    ensures Clean(x) == Strip(x)
  {
    var fenced := "```json" + "\n" + x + "\n" + "```";
    assert fenced == "```json" + (("\n" + x) + ("\n" + "```"));
    StripFencesOpening(("\n" + x) + ("\n" + "```"));
    StripFencesTickFree("\n" + x, "\n" + "```");
    StripFencesClosing();
    assert StripFences(fenced) == "\n" + x + "\n";
    StripFencesTickFree(x, "");
    assert x + "" == x;
    assert AllSpace("\n");
    StripPadded("\n", x, "\n");
  }

  /** A fenced answer reads exactly as the same answer unfenced. */
  lemma FencedAnswerReadsAsPlain(x: string, parse: string -> Option<Json>)
    requires '`' !in x
    requires parse(Clean(x)).Some?
    ensures ReadText(JStr("```json" + "\n" + x + "\n" + "```"), parse) == ReadText(JStr(x), parse) == parse(Clean(x)).value
  {
    FenceRemoved(x);
  }

  /** A successful response whose text is `s`: the answer is the parsed
      cleaned text, returned unchanged, or the one-element array `[s]` when
      the cleaned text does not parse. */
  lemma ExtractFromText(prompt: string, env: ClientEnv, body: string, json: Json, s: string)
    requires env.send(RequestBody(prompt)) == Some(body)
    requires env.parse(body) == Some(json)
    requires Dig(json, TextPath) == Ok(JStr(s))
    ensures Exchange(prompt, env) == Extracted(match env.parse(Clean(s)) case Some(v) => v case None => JArr([JStr(s)]))
  {
  }

  /** No text at `candidates[0].content.parts[0].text` gives the empty result. */
  lemma ExtractWithoutText(prompt: string, env: ClientEnv, body: string, json: Json)
    requires env.send(RequestBody(prompt)) == Some(body)
    requires env.parse(body) == Some(json)
    requires Dig(json, TextPath) == Ok(JNull)
    ensures Exchange(prompt, env) == Extracted(JArr([]))
  {
  }

  /** A response body that is not JSON raises: its parse sits outside the rescue. */
  lemma ExtractBodyNotJson(prompt: string, env: ClientEnv, body: string)
    requires env.send(RequestBody(prompt)) == Some(body)
    requires env.parse(body) == None
    ensures Exchange(prompt, env) == Raised(BodyNotJson)
  {
  }
}
