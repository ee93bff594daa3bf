/**
 * The chat route: a canned assistant that answers the last message of a
 * conversation by keyword. The message is lower-cased and tested against
 * five keyword groups in a fixed order; the first group that occurs picks
 * the reply, and every reply embeds the municipality name.
 */
module ChatRoute {
  import opened Wrappers
  import opened Text
  import opened Json
  import opened Http

  const CHAT_FAILED := "Failed to process chat request"

  /** The reply topics, one per keyword group, and the default. */
  datatype Topic = Budget | Meetings | Community | Population | PublicSafety | General

  /** The keyword groups in the order they are tested. */
  const PRIORITY: seq<Topic> := [Budget, Meetings, Community, Population, PublicSafety]

  /** The keywords of a topic, as the lower-cased message is searched for them. */
  function Keywords(t: Topic): seq<string> {
    match t
    case Budget => ["budget", "spending"]
    case Meetings => ["meeting", "council"]
    case Community => ["community", "discussion", "forum"]
    case Population => ["population", "demographics"]
    case PublicSafety => ["public safety", "police", "fire"]
    case General => []
  }

  /** Some keyword of `t` occurs in `message`. */
  predicate Mentions(message: string, t: Topic) {
    exists k :: k in Keywords(t) && Contains(message, k)
  }

  /** The position of a topic in the testing order (the default comes last). */
  function Rank(t: Topic): (n: nat)
    ensures n <= |PRIORITY| && (n < |PRIORITY| ==> PRIORITY[n] == t) && (t == General <==> n == |PRIORITY|)
  {
    match t
    case Budget => 0
    case Meetings => 1
    case Community => 2
    case Population => 3
    case PublicSafety => 4
    case General => 5
  }

  /**
   * The chain of `includes` tests on the lower-cased message: the first
   * topic in testing order whose keywords occur, or the default.
   */
  function TopicOf(message: string): (t: Topic)
    ensures t != General ==> Mentions(message, t)
    ensures forall i :: 0 <= i < Rank(t) ==> !Mentions(message, PRIORITY[i])
  {
    if Contains(message, "budget") || Contains(message, "spending") then Budget
    else if Contains(message, "meeting") || Contains(message, "council") then Meetings
    else if Contains(message, "community") || Contains(message, "discussion") || Contains(message, "forum") then Community
    else if Contains(message, "population") || Contains(message, "demographics") then Population
    else if Contains(message, "public safety") || Contains(message, "police") || Contains(message, "fire") then PublicSafety
    else General
  }

  // The reply templates: the text before and after the municipality name.
  const BUDGET_BEFORE := "Based on the budget information for "
  const BUDGET_AFTER := ", I can see the current budget breakdown. The total budget is $15.2 million for the current fiscal year. The largest spending categories are Public Safety (32%), Education (28%), and Infrastructure (18%). This represents about $4,850 per resident. Would you like me to break down any specific category in more detail?"
  const MEETINGS_BEFORE := "I can help you find information about upcoming and past meetings in "
  const MEETINGS_AFTER := ". There are typically 2-3 council meetings per month, usually on the first and third Tuesday evenings. The next scheduled meeting is on March 19th at 7:00 PM, which will cover the quarterly budget review and infrastructure projects. Would you like me to provide more details about specific meetings or agenda items?"
  const COMMUNITY_BEFORE := "The community forum in "
  const COMMUNITY_AFTER := " is quite active! Recent discussions include concerns about road maintenance, proposals for a new community center, and updates on the local school district. The most popular thread has 45 upvotes and discusses traffic safety near the elementary school. Citizens are encouraged to participate in these discussions to help shape local policy decisions."
  const POPULATION_BEFORE := ""
  const POPULATION_AFTER := " has a population of approximately 12,450 residents. The community has been growing steadily over the past decade, with a mix of families, young professionals, and retirees. The median age is 38, and about 65% of residents own their homes. The town has a strong sense of community with active participation in local events and government."
  const PUBLIC_SAFETY_BEFORE := "Public safety is a top priority in "
  const PUBLIC_SAFETY_AFTER := ", with about 32% of the budget allocated to this area. This includes police services, fire protection, and emergency response. The town has its own police department with 18 officers and contracts with the county for fire services. Response times average 4-6 minutes for emergency calls. There's also an active neighborhood watch program that residents can join."
  const GENERAL_BEFORE := "I'm here to help you learn more about "
  const GENERAL_AFTER := "! I can provide information about budgets, meetings, community discussions, and general town information. What specific aspect would you like to know more about? You can ask about spending priorities, upcoming events, or how to get involved in local government."

  /** The reply for a topic, with the municipality name filled in. */
  function ReplyText(t: Topic, name: string): string {
    match t
    case Budget => BUDGET_BEFORE + name + BUDGET_AFTER
    case Meetings => MEETINGS_BEFORE + name + MEETINGS_AFTER
    case Community => COMMUNITY_BEFORE + name + COMMUNITY_AFTER
    case Population => POPULATION_BEFORE + name + POPULATION_AFTER
    case PublicSafety => PUBLIC_SAFETY_BEFORE + name + PUBLIC_SAFETY_AFTER
    case General => GENERAL_BEFORE + name + GENERAL_AFTER
  }

  /** `generateMockResponse`: the reply for the topic of the lower-cased message; it always names the municipality. */
  function GenerateMockResponse(userMessage: string, municipalityName: string): (r: string)
    ensures Contains(r, municipalityName)
  {
    var t := TopicOf(Lower(userMessage));
    match t
    case Budget => ContainsMiddle(BUDGET_BEFORE, municipalityName, BUDGET_AFTER); ReplyText(t, municipalityName)
    case Meetings => ContainsMiddle(MEETINGS_BEFORE, municipalityName, MEETINGS_AFTER); ReplyText(t, municipalityName)
    case Community => ContainsMiddle(COMMUNITY_BEFORE, municipalityName, COMMUNITY_AFTER); ReplyText(t, municipalityName)
    case Population => ContainsMiddle(POPULATION_BEFORE, municipalityName, POPULATION_AFTER); ReplyText(t, municipalityName)
    case PublicSafety => ContainsMiddle(PUBLIC_SAFETY_BEFORE, municipalityName, PUBLIC_SAFETY_AFTER); ReplyText(t, municipalityName)
    case General => ContainsMiddle(GENERAL_BEFORE, municipalityName, GENERAL_AFTER); ReplyText(t, municipalityName)
  }

  /** Letter case in the message makes no difference to the reply. */
  lemma CaseDoesNotMatter(userMessage: string, name: string)
    ensures GenerateMockResponse(Lower(userMessage), name) == GenerateMockResponse(userMessage, name)
  {
    LowerIdempotent(userMessage);
  }

  /** A message that mentions the budget or spending gets the budget reply, whatever else it mentions. */
  lemma BudgetAlwaysWins(userMessage: string, name: string)
    requires Mentions(Lower(userMessage), Budget)
    ensures GenerateMockResponse(userMessage, name) == ReplyText(Budget, name)
  {
  }

  /**
   * The public safety reply is chosen exactly when a public safety keyword
   * occurs and no keyword of an earlier group does.
   */
  lemma PublicSafetyOnlyAfterEveryOtherGroup(userMessage: string, name: string)
    ensures TopicOf(Lower(userMessage)) == PublicSafety <==>
      Mentions(Lower(userMessage), PublicSafety) && forall i :: 0 <= i < 4 ==> !Mentions(Lower(userMessage), PRIORITY[i])
  {
    var m := Lower(userMessage);
    if Mentions(m, PublicSafety) && forall i :: 0 <= i < 4 ==> !Mentions(m, PRIORITY[i]) {
      assert !Mentions(m, PRIORITY[0]) && !Mentions(m, PRIORITY[1]) && !Mentions(m, PRIORITY[2]) && !Mentions(m, PRIORITY[3]);
      var k :| k in Keywords(PublicSafety) && Contains(m, k);
    }
  }

  /** Without any keyword the default reply is given. */
  lemma NoKeywordGivesDefault(userMessage: string, name: string)
    requires forall t :: t in PRIORITY ==> !Mentions(Lower(userMessage), t)
    ensures GenerateMockResponse(userMessage, name) == ReplyText(General, name)
  {
    var m := Lower(userMessage);
    assert !Mentions(m, PRIORITY[0]) && !Mentions(m, PRIORITY[1]) && !Mentions(m, PRIORITY[2]);
    assert !Mentions(m, PRIORITY[3]) && !Mentions(m, PRIORITY[4]);
    assert forall k :: k in Keywords(Budget) ==> !Contains(m, k);
    assert forall k :: k in Keywords(Meetings) ==> !Contains(m, k);
    assert forall k :: k in Keywords(Community) ==> !Contains(m, k);
    assert forall k :: k in Keywords(Population) ==> !Contains(m, k);
    assert forall k :: k in Keywords(PublicSafety) ==> !Contains(m, k);
  }

  // ---------------------------------------------------------------------------
  // POST

  /** Token counts reported with every reply. */
  datatype Usage = Usage(promptTokens: nat, completionTokens: nat, totalTokens: nat)

  const MOCK_USAGE := Usage(100, 50, 150)

  datatype ChatAnswer = ChatAnswer(content: string, usage: Usage)

  /** `e.content` as a string: only an object with a string `content` has one (anything else throws on `toLowerCase`). */
  function ContentOf(e: Value): (r: Option<string>)
    ensures r.Some? <==> e.Obj? && Field(e.fields, "content").Str?
    ensures r.Some? ==> Field(e.fields, "content") == Str(r.value)
  {
    if e.Obj? then StringField(e.fields, "content") else None
  }

  /**
   * The property name `messages.length - 1` becomes when it indexes an
   * object: `length` is coerced to a number, and the difference is printed
   * as text, "NaN" when the coercion fails.
   */
  function LastKey(fields: map<string, Value>): (k: string)
    ensures ToNumber(Field(fields, "length")).None? ==> k == "NaN"
    ensures ToNumber(Field(fields, "length")).Some? ==> ParseInt(k) == Some(ToNumber(Field(fields, "length")).value - 1)
  {
    match ToNumber(Field(fields, "length"))
    case None => "NaN"
    case Some(n) => ParseShowInt(n - 1); ShowInt(n - 1)
  }

  /**
   * `messages[messages.length - 1].content` as a string. For an array that
   * is the content of its last element, and an empty array has none. An
   * object is read the same way through its own `length` property and the
   * key that `length - 1` prints as. Any other value (text, a number, a
   * boolean, `null`, `undefined`) has no such element with a `content`
   * property, so the read throws.
   */
  function LastContent(messages: Value): (r: Option<string>)
    ensures messages.Arr? ==>
      && (r.Some? <==> |messages.items| > 0 && ContentOf(messages.items[|messages.items| - 1]).Some?)
      && (r.Some? ==> Field(messages.items[|messages.items| - 1].fields, "content") == Str(r.value))
    ensures messages.Obj? ==>
      var e := Field(messages.fields, LastKey(messages.fields));
      && (r.Some? <==> e.Obj? && Field(e.fields, "content").Str?)
      && (r.Some? ==> Field(e.fields, "content") == Str(r.value))
    ensures !messages.Arr? && !messages.Obj? ==> r == None
  {
    match messages
    case Arr(items) => if |items| > 0 then ContentOf(items[|items| - 1]) else None
    case Obj(fields) => ContentOf(Field(fields, LastKey(fields)))
    case _ => None
  }

  /**
   * An object that looks like an array is read like one: with `length` 1
   * (as a number, the text "1" or `true`), its property "0" is the last
   * message; without a `length`, the property "NaN" is.
   */
  lemma ArrayLikeMessagesAreRead(c: string)
    ensures var last := Obj(map["content" := Str(c)]);
      && LastContent(Obj(map["length" := Num(1), "0" := last])) == Some(c)
      && LastContent(Obj(map["length" := Str("1"), "0" := last])) == Some(c)
      && LastContent(Obj(map["length" := Bool(true), "0" := last])) == Some(c)
      && LastContent(Obj(map["NaN" := last])) == Some(c)
  {
    TrimUnchanged("1");
    assert AllDigits("1");
    assert ShowInt(0) == "0";
  }

  /**
   * `POST`: the canned reply to the last message's content, for the
   * municipality name as a template literal renders it, with fixed token
   * counts; 500 when there is no last message content to read.
   */
  function Post(body: Body): (r: Reply<ChatAnswer>)
    ensures LastContent(Field(body, "messages")).None? ==> r == Failure(SERVER_ERROR, CHAT_FAILED)
    ensures LastContent(Field(body, "messages")).Some? ==>
      && r.status == OK && r.payload.Data?
      && r.payload.value.usage == MOCK_USAGE
      && Contains(r.payload.value.content, ToText(Field(body, "municipalityName")))
      && r.payload.value.content
         == ReplyText(TopicOf(Lower(LastContent(Field(body, "messages")).value)), ToText(Field(body, "municipalityName")))
  {
    match LastContent(Field(body, "messages"))
    case None => Failure(SERVER_ERROR, CHAT_FAILED)
    case Some(content) =>
      Success(OK, ChatAnswer(GenerateMockResponse(content, ToText(Field(body, "municipalityName"))), MOCK_USAGE))
  }

  /** Only the last message counts: the earlier ones can be anything. */
  lemma OnlyLastMessageCounts(body: Body, earlier: seq<Value>, other: seq<Value>, last: Value)
    ensures Post(body["messages" := Arr(earlier + [last])]) == Post(body["messages" := Arr(other + [last])])
  {
    var b1, b2 := body["messages" := Arr(earlier + [last])], body["messages" := Arr(other + [last])];
    assert Field(b1, "messages").items[|earlier|] == last;
    assert Field(b2, "messages").items[|other|] == last;
    assert Field(b1, "municipalityName") == Field(b2, "municipalityName");
  }

  /** An empty conversation is answered 500. */
  lemma EmptyConversationFails(body: Body)
    ensures Post(body["messages" := Arr([])]) == Failure(SERVER_ERROR, CHAT_FAILED)
  {
    assert Field(body["messages" := Arr([])], "messages") == Arr([]);
  }

  /** The system prompt in the body is ignored. */
  lemma SystemPromptIgnored(body: Body, prompt: Value)
    ensures Post(body["systemPrompt" := prompt]) == Post(body)
  {
    assert Field(body["systemPrompt" := prompt], "messages") == Field(body, "messages");
    assert Field(body["systemPrompt" := prompt], "municipalityName") == Field(body, "municipalityName");
  }
}
