/** The `POST /api/scenarios` handler, with the language-model call and
    `JSON.parse` taken as given: placeholders when no API key is configured,
    otherwise the parsed list numbered by position, and a 500 response with
    one of two messages when something throws. */
module ScenariosEndpoint {
  import opened Types
  import opened Text

  /** The request body after `request.json()`: not JSON (which throws), or
      JSON whose `userProfile` field is present or missing. */
  datatype Request = MalformedRequest | Request(userProfile: Option<UserProfile>)

  /** What the chat completion produced: the call threw (including a reply
      without a first choice), or the first choice's `content`, which may be
      null. */
  datatype Completion = CallFailed | Answered(content: Option<string>)

  /** An element of the parsed `scenarios` array: `null`, or any other value
      with or without a string `text` property. */
  datatype Item = NullItem | Item(text: Option<string>)

  /** The `scenarios` property of the parsed value: missing or falsy, an
      array, or some other truthy value (which has no `map`). */
  datatype Field = Absent | List(items: seq<Item>) | NotList

  /** What `JSON.parse` made of the content: a syntax error, `null`, or any
      other value together with its `scenarios` property. */
  datatype Parsed = ParseError | ParsedNull | ParsedValue(scenarios: Field)

  /** One scenario of the response; `text` is left out of the JSON when the
      item had none. */
  datatype Generated = Generated(id: string, text: Option<string>)

  datatype ResponseBody = ScenarioList(scenarios: seq<Generated>) | ErrorBody(error: string)

  datatype Response = Response(status: nat, body: ResponseBody)

  const PlaceholderCount: nat := 5
  const ParseFailureMessage: string := "Failed to parse scenarios"
  const GenerationFailureMessage: string := "Failed to generate scenarios"

  /** `getOpenAIClient()` returns a client only for a set, non-empty key. */
  function HasClient(apiKey: Option<string>): (b: bool)
    ensures apiKey.None? ==> !b
    ensures apiKey == Some("") ==> !b
    ensures apiKey.Some? && |apiKey.value| > 0 ==> b
  {
    apiKey.Some? && apiKey.value != ""
  }

  /** `scenario-${index + 1}` */
  function ScenarioId(i: nat): (r: string)
    ensures |r| > 9 && r[..9] == "scenario-" && r[9..] == Decimal(i + 1)
    ensures forall k :: 9 <= k < |r| ==> '0' <= r[k] <= '9'
  {
    "scenario-" + Decimal(i + 1)
  }

  /** Every scenario's id is given by its position in the list. */
  predicate PositionalIds(xs: seq<Generated>)
  {
    forall i :: 0 <= i < |xs| ==> xs[i].id == ScenarioId(i)
  }

  /** Positional ids never repeat. */
  lemma PositionalIdsDistinct(xs: seq<Generated>)
    requires PositionalIds(xs)
    ensures forall i, j :: 0 <= i < j < |xs| ==> xs[i].id != xs[j].id
  {
    forall i, j | 0 <= i < j < |xs|
      ensures xs[i].id != xs[j].id
    {
      if xs[i].id == xs[j].id {
        PrefixedDecimalInjective("scenario-", i + 1, j + 1);
      }
    }
  }

  const PlaceholderHead: string := "This is a placeholder scenario for "
  const PlaceholderTail: string := " education. Add your OpenAI API key to generate real scenarios."

  /** The placeholder template: its fixed opening and closing sentences
      around the role and the setting. */
  function PlaceholderText(p: UserProfile): (t: string)
    ensures |t| > |PlaceholderHead| + |PlaceholderTail|
    ensures t[..|PlaceholderHead|] == PlaceholderHead
    ensures t[|t| - |PlaceholderTail|..] == PlaceholderTail
  {
    PlaceholderHead + RoleName(p.role) + " in " + SettingName(p.educationalSetting) + PlaceholderTail
  }

  /** Every placeholder names the profile's role and educational setting. */
  lemma PlaceholderMentionsProfile(p: UserProfile)
    ensures Contains(PlaceholderText(p), RoleName(p.role))
    ensures Contains(PlaceholderText(p), SettingName(p.educationalSetting))
  {
    var a := PlaceholderHead;
    var b := " in " + SettingName(p.educationalSetting) + PlaceholderTail;
    assert PlaceholderText(p) == a + RoleName(p.role) + b;
    ContainsPart(a, RoleName(p.role), b);
    var c := a + RoleName(p.role) + " in ";
    var d := PlaceholderTail;
    assert PlaceholderText(p) == c + SettingName(p.educationalSetting) + d;
    ContainsPart(c, SettingName(p.educationalSetting), d);
  }

  /** `Array(5).fill(null).map(...)`: the placeholder list. */
  function Placeholders(p: UserProfile): (r: seq<Generated>)
    ensures |r| == PlaceholderCount
    ensures PositionalIds(r)
    ensures forall i :: 0 <= i < |r| ==> r[i].text == Some(PlaceholderText(p))
  {
    seq(PlaceholderCount, i requires 0 <= i < PlaceholderCount => Generated(ScenarioId(i), Some(PlaceholderText(p))))
  }

  /** `scenarios.map((scenario, index) => ({ id, text }))`: numbered by
      position, texts copied, nothing added or dropped. */
  function WithIds(items: seq<Item>): (r: seq<Generated>)
    requires forall i :: 0 <= i < |items| ==> items[i].Item?
    ensures |r| == |items|
    ensures PositionalIds(r)
    ensures forall i :: 0 <= i < |r| ==> r[i].text == items[i].text
  {
    seq(|items|, i requires 0 <= i < |items| => Generated(ScenarioId(i), items[i].text))
  }

  /** `JSON.parse(responseContent || '{"scenarios": []}')`: a null or empty
      content stands for the literal, which parses to a value whose
      `scenarios` is the empty array. */
  function ParseContent(content: Option<string>, parse: string -> Parsed): (r: Parsed)
    ensures content.None? || content == Some("") ==> r == ParsedValue(List([]))
    ensures content.Some? && |content.value| > 0 ==> r == parse(content.value)
  {
    if content.None? || content.value == "" then ParsedValue(List([])) else parse(content.value)
  }

  /** The parse of the content failed: what makes the inner `catch` answer. */
  predicate ParseFails(completion: Completion, parse: string -> Parsed)
  {
    completion.Answered? && ParseContent(completion.content, parse).ParseError?
  }

  /** The handler, given the configured key, the request, what the model
      answered and how its content parses. It answers 200 with a list of
      positionally numbered scenarios or 500 with one of two messages; the
      parse message exactly when the client exists, the profile is present
      and the content does not parse. */
  function Post(apiKey: Option<string>, request: Request, completion: Completion, parse: string -> Parsed)
    : (r: Response)
    ensures r.status == 200 <==> r.body.ScenarioList?
    ensures r.status == 500 <==> r.body.ErrorBody?
    ensures r.body.ScenarioList? ==> PositionalIds(r.body.scenarios)
    ensures r.body.ErrorBody? ==>
              r.body.error == ParseFailureMessage || r.body.error == GenerationFailureMessage
    ensures r.body == ErrorBody(ParseFailureMessage) <==>
              HasClient(apiKey) && request.Request? && request.userProfile.Some? && ParseFails(completion, parse)
    ensures request.MalformedRequest? || (request.Request? && request.userProfile.None?) ==>
              r == Response(500, ErrorBody(GenerationFailureMessage))
  {
    match request
    case MalformedRequest => Failure(GenerationFailureMessage)
    case Request(profile) =>
      if profile.None? then
        // reading `userProfile.role` (placeholder or prompt) throws
        Failure(GenerationFailureMessage)
      else if !HasClient(apiKey) then
        Response(200, ScenarioList(Placeholders(profile.value)))
      else match completion
        case CallFailed => Failure(GenerationFailureMessage)
        case Answered(content) =>
          match ParseContent(content, parse)
          case ParseError => Failure(ParseFailureMessage)
          case ParsedNull => Failure(GenerationFailureMessage)  // `null.scenarios` throws
          case ParsedValue(field) =>
            match field
            case Absent => Response(200, ScenarioList([]))
            case NotList => Failure(GenerationFailureMessage)  // no `map` to call
            case List(items) =>
              if exists i :: 0 <= i < |items| && items[i].NullItem? then
                Failure(GenerationFailureMessage)  // `null.text` throws
              else
                Response(200, ScenarioList(WithIds(items)))
  }

  function Failure(message: string): Response
  {
    Response(500, ErrorBody(message))
  }

  /** Without a key the answer is the five placeholders `scenario-1` …
      `scenario-5`, each naming the profile's role and setting. */
  lemma NoKeyGivesPlaceholders(apiKey: Option<string>, p: UserProfile, completion: Completion,
                               parse: string -> Parsed)
    requires !HasClient(apiKey)
    ensures Post(apiKey, Request(Some(p)), completion, parse) == Response(200, ScenarioList(Placeholders(p)))
    ensures seq(PlaceholderCount, i requires 0 <= i < PlaceholderCount => Placeholders(p)[i].id)
            == ["scenario-1", "scenario-2", "scenario-3", "scenario-4", "scenario-5"]
    ensures forall i :: 0 <= i < PlaceholderCount ==>
              Contains(Placeholders(p)[i].text.value, RoleName(p.role)) &&
              Contains(Placeholders(p)[i].text.value, SettingName(p.educationalSetting))
  {
    PlaceholderMentionsProfile(p);
    assert ScenarioId(0) == "scenario-1" && ScenarioId(1) == "scenario-2" && ScenarioId(2) == "scenario-3";
    assert ScenarioId(3) == "scenario-4" && ScenarioId(4) == "scenario-5";
  }

  /** With a client and a profile, everything that throws after the parse
      is caught by the outer handler: a failed call (or a reply without a
      first choice), content that parses to `null`, a `scenarios` value
      that is not an array, and an array holding `null`. Each answers 500
      with the generation-failure message. */
  lemma ThrownAfterParseFails(apiKey: Option<string>, p: UserProfile, completion: Completion,
                              parse: string -> Parsed)
    requires HasClient(apiKey)
    ensures completion.CallFailed? ==>
              Post(apiKey, Request(Some(p)), completion, parse) == Failure(GenerationFailureMessage)
    ensures completion.Answered? && ParseContent(completion.content, parse).ParsedNull? ==>
              Post(apiKey, Request(Some(p)), completion, parse) == Failure(GenerationFailureMessage)
    ensures completion.Answered? && ParseContent(completion.content, parse) == ParsedValue(NotList) ==>
              Post(apiKey, Request(Some(p)), completion, parse) == Failure(GenerationFailureMessage)
    ensures completion.Answered? && ParseContent(completion.content, parse).ParsedValue? &&
            ParseContent(completion.content, parse).scenarios.List? &&
            NullItem in ParseContent(completion.content, parse).scenarios.items ==>
              Post(apiKey, Request(Some(p)), completion, parse) == Failure(GenerationFailureMessage)
  {
    if completion.Answered? {
      var parsed := ParseContent(completion.content, parse);
      if parsed.ParsedValue? && parsed.scenarios.List? && NullItem in parsed.scenarios.items {
        var i :| 0 <= i < |parsed.scenarios.items| && parsed.scenarios.items[i] == NullItem;
      }
    }
  }

  /** A parsed array of items is returned whole: same length, ids by
      position, texts unchanged; there is no padding or truncation. */
  lemma ParsedListKept(apiKey: Option<string>, p: UserProfile, content: string, parse: string -> Parsed,
                       items: seq<Item>)
    requires HasClient(apiKey) && content != ""
    requires parse(content) == ParsedValue(List(items))
    requires forall i :: 0 <= i < |items| ==> items[i].Item?
    ensures var r := Post(apiKey, Request(Some(p)), Answered(Some(content)), parse);
      r.status == 200 && |r.body.scenarios| == |items| &&
      (forall i :: 0 <= i < |items| ==> r.body.scenarios[i] == Generated(ScenarioId(i), items[i].text))
  {
  }

  /** Null or empty content, or a value with no `scenarios`, gives an empty
      list. */
  lemma NoContentGivesEmptyList(apiKey: Option<string>, p: UserProfile, content: Option<string>,
                                parse: string -> Parsed)
    requires HasClient(apiKey)
    requires content.None? || content.value == "" || parse(content.value) == ParsedValue(Absent)
    ensures Post(apiKey, Request(Some(p)), Answered(content), parse) == Response(200, ScenarioList([]))
  {
    if content.Some? && content.value != "" {
      assert ParseContent(content, parse) == ParsedValue(Absent);
    } else {
      assert ParseContent(content, parse) == ParsedValue(List([]));
    }
  }
}
