/** The mock back end of `mockAPI.js`: the canned assistant replies picked
    by trigger words, the demo login and registration rules and the shape of
    a chat reply. The clock and `Math.random` are parameters; the simulated
    network delays are not modelled. */
module MockApi {
  import opened Wrappers
  import opened Text
  import opened Types

  /** The five canned replies. */
  datatype Canned = Greeting | Diagram | CodeSample | MarkdownGuide | MathSample

  function CannedText(c: Canned): string
  {
    match c
    case Greeting => "Hello! \U{1F44B} I'm your AI assistant. I can help you with various tasks including:\n\n- **Code examples** in multiple languages\n- **Mermaid diagrams** for visualizations\n- **Markdown formatting** for rich content\n- **Data analysis** and explanations\n\nWhat would you like to explore today?"
    case Diagram => "I'd be happy to create a Mermaid diagram for you! Here's an example:\n\n```mermaid\ngraph TD\n    A[Start] --> B{Decision}\n    B -->|Yes| C[Action 1]\n    B -->|No| D[Action 2]\n    C --> E[End]\n    D --> E\n```\n\nMermaid supports many diagram types:\n- Flowcharts\n- Sequence diagrams\n- Gantt charts\n- Class diagrams\n- And more!\n\nWhat kind of diagram would you like me to create?"
    case CodeSample => "Here's a React component example with modern hooks:\n\n```jsx\nimport { useState, useEffect } from 'react';\n\nfunction UserProfile({ userId }) {\n  const [user, setUser] = useState(null);\n  const [loading, setLoading] = useState(true);\n\n  useEffect(() => {\n    fetchUser(userId)\n      .then(setUser)\n      .finally(() => setLoading(false));\n  }, [userId]);\n\n  if (loading) return <div>Loading...</div>;\n  if (!user) return <div>User not found</div>;\n\n  return (\n    <div className=\"user-profile\">\n      <h2>{user.name}</h2>\n      <p>{user.email}</p>\n    </div>\n  );\n}\n```\n\nAnd here's a Python example:\n\n```python\nclass DataProcessor:\n    def __init__(self, data):\n        self.data = data\n    \n    def process(self):\n        return [\n            item.upper() \n            for item in self.data \n            if isinstance(item, str)\n        ]\n\n# Usage\nprocessor = DataProcessor(['hello', 'world', 123])\nresult = processor.process()\nprint(result)  # ['HELLO', 'WORLD']\n```\n\nWhat programming topic would you like to explore?"
    case MarkdownGuide => "# Markdown Formatting Guide\n\nI support **full Markdown** rendering! Here are some examples:\n\n## Text Styling\n- **Bold text**\n- *Italic text*\n- ~~Strikethrough~~\n- `Inline code`\n\n## Lists\n### Unordered:\n- Item 1\n- Item 2\n  - Nested item\n  - Another nested item\n\n### Ordered:\n1. First item\n2. Second item\n3. Third item\n\n## Tables\n| Feature | Supported | Notes |\n|---------|-----------|-------|\n| Headers | \U{2705} | H1-H6 |\n| Links | \U{2705} | [Example](https://example.com) |\n| Images | \U{2705} | ![Alt text](url) |\n| Code | \U{2705} | Syntax highlighting |\n\n## Blockquotes\n> This is a blockquote. It's great for highlighting important information or quotes from other sources.\n\n---\n\nTry sending me some Markdown and I'll render it beautifully!"
    case MathSample => "I can help with mathematical concepts! While LaTeX math rendering is coming soon, I can explain formulas using text and code:\n\n```python\n# Quadratic formula: x = (-b \U{B1} \U{221A}(b\U{B2}-4ac)) / 2a\nimport math\n\ndef quadratic_formula(a, b, c):\n    discriminant = b**2 - 4*a*c\n    if discriminant < 0:\n        return \"No real solutions\"\n    elif discriminant == 0:\n        return -b / (2*a)\n    else:\n        x1 = (-b + math.sqrt(discriminant)) / (2*a)\n        x2 = (-b - math.sqrt(discriminant)) / (2*a)\n        return x1, x2\n\n# Example: x\U{B2} - 5x + 6 = 0\nresult = quadratic_formula(1, -5, 6)\nprint(result)  # (3.0, 2.0)\n```\n\n**Common formulas:**\n- Area of circle: A = \U{3C0}r\U{B2}\n- Pythagorean theorem: a\U{B2} + b\U{B2} = c\U{B2}\n- Compound interest: A = P(1 + r/n)^(nt)\n\nWhat mathematical concept would you like to explore?"
  }

  /** A canned reply and the words that select it. */
  datatype ResponseGroup = ResponseGroup(triggers: seq<string>, response: Canned)

  /** The reply groups, in the order they are tried. */
  const Responses: seq<ResponseGroup> := [
    ResponseGroup(["hello", "hi", "hey"], Greeting),
    ResponseGroup(["mermaid", "diagram", "flowchart"], Diagram),
    ResponseGroup(["code", "programming", "javascript", "python", "react"], CodeSample),
    ResponseGroup(["markdown", "format", "styling"], MarkdownGuide),
    ResponseGroup(["math", "calculation", "formula"], MathSample)
  ]

  /** The fixed pieces of the three fall-back replies, which the quoted
      message is spliced between. */
  const InterestingText: string := "That's an interesting question! Let me think about that...\n\nI can help you with:\n- **Code examples** and programming concepts\n- **Mermaid diagrams** for visualizations\n- **Markdown formatting** and documentation\n- **Data analysis** and explanations\n\nCould you provide more details about what you'd like to explore?"
  const UnderstandIntro: string := "I understand you're asking about: *"
  const UnderstandTail: string := "*\n\nHere's my analysis:\n\n```mermaid\ngraph LR\n    A[Your Question] --> B[AI Processing]\n    B --> C[Knowledge Search]\n    C --> D[Response Generation]\n    D --> E[Formatted Output]\n```\n\nThis is a great topic! Would you like me to:\n1. Provide code examples\n2. Create a detailed explanation\n3. Show visual diagrams\n4. Give practical applications"
  const ExcellentIntro: string := "Excellent question about: **"
  const ExcellentMiddle: string := "**\n\n> This is exactly the kind of inquiry that showcases the power of AI-assisted conversations!\n\nLet me break this down:\n\n| Aspect | Details |\n|--------|----------|\n| Topic | "
  const ExcellentEnd: string := " |\n| Complexity | Moderate to Advanced |\n| Applications | Multiple domains |\n\nWould you like me to dive deeper into any specific aspect?"

  /** The fall-back reply at index `k`; the last two quote the message as
      the user wrote it. */
  function Fallback(k: nat, userMessage: string): string
    requires k < 3
  {
    match k
    case 0 => InterestingText
    case 1 => UnderstandIntro + userMessage + UnderstandTail
    case _ => ExcellentIntro + userMessage
                + ExcellentMiddle + userMessage + ExcellentEnd
  }

  /** The array of the three fall-back replies. */
  function DefaultResponses(userMessage: string): (r: seq<string>)
    ensures |r| == 3
    ensures forall k :: 0 <= k < 3 ==> r[k] == Fallback(k, userMessage)
  {
    seq(3, k requires 0 <= k < 3 => Fallback(k, userMessage))
  }

  /** The first fall-back reply is the same whatever was asked; the other
      two quote the message, and the second tells different messages
      apart. */
  lemma FallbacksQuoteMessage(userMessage: string, other: string)
    ensures DefaultResponses(userMessage)[0] == DefaultResponses(other)[0]
    ensures Contains(DefaultResponses(userMessage)[1], userMessage)
    ensures Contains(DefaultResponses(userMessage)[2], userMessage)
    ensures DefaultResponses(userMessage)[1] == DefaultResponses(other)[1] ==> userMessage == other
  {
    ContainsInfix(UnderstandIntro, userMessage, UnderstandTail);
    InfixInjective(UnderstandIntro, userMessage, other, UnderstandTail);
    QuotedTwice(ExcellentIntro, userMessage, ExcellentMiddle, ExcellentEnd);
  }

  /** A message spliced in twice is contained in the result. */
  lemma QuotedTwice(a: string, m: string, b: string, c: string)
    ensures Contains(a + m + b + m + c, m)
  {
    assert a + m + b + m + c == a + m + (b + m + c);
    ContainsInfix(a, m, b + m + c);
  }

  /** The same frame around two strings is the same string only when they
      are. */
  lemma InfixInjective(a: string, m: string, o: string, b: string)
    ensures a + m + b == a + o + b ==> m == o
  {
    if a + m + b == a + o + b {
      assert |m| == |o|;
      assert (a + m + b)[|a|..|a| + |m|] == m;
      assert (a + o + b)[|a|..|a| + |o|] == o;
    }
  }

  /** Some trigger of the group occurs in the (lower-cased) message. */
  predicate Triggered(g: ResponseGroup, msg: string)
  {
    exists k :: 0 <= k < |g.triggers| && Contains(msg, g.triggers[k])
  }

  /** The first group, in list order, with a trigger in the message. */
  function FirstTriggered(groups: seq<ResponseGroup>, msg: string): (r: Option<nat>)
    ensures r.Some? ==> r.value < |groups| && Triggered(groups[r.value], msg)
    ensures r.Some? ==> forall j :: 0 <= j < r.value ==> !Triggered(groups[j], msg)
    ensures r.None? <==> forall j :: 0 <= j < |groups| ==> !Triggered(groups[j], msg)
  {
    if groups == [] then None
    else if Triggered(groups[0], msg) then Some(0)
    else match FirstTriggered(groups[1..], msg)
      case None => None
      case Some(i) => Some(i + 1)
  }

  /** `Math.floor(random * 3)` for a `random` in [0, 1): the index of a
      fall-back reply. */
  function PickIndex(random: real): (i: nat)
    requires 0.0 <= random < 1.0
    ensures i < 3
  {
    (random * 3.0).Floor as nat
  }

  /** `Math.floor(random * 500) + 100` for a `random` in [0, 1). */
  function TokenCount(random: real): (n: nat)
    requires 0.0 <= random < 1.0
    ensures 100 <= n <= 599
  {
    (random * 500.0).Floor as nat + 100
  }

  /** `getAIResponse`: the reply of the first group with a trigger in the
      lower-cased message, and otherwise the fall-back reply that `random`
      (the value of `Math.random()`) picks. */
  method GetAIResponse(userMessage: string, random: real) returns (reply: string)
    requires 0.0 <= random < 1.0
    ensures FirstTriggered(Responses, ToLower(userMessage)).Some? ==>
              reply == CannedText(Responses[FirstTriggered(Responses, ToLower(userMessage)).value].response)
    ensures FirstTriggered(Responses, ToLower(userMessage)).None? ==>
              reply == Fallback(PickIndex(random), userMessage)
  {
    var userMsg := ToLower(userMessage);
    for i := 0 to |Responses|
      invariant forall j :: 0 <= j < i ==> !Triggered(Responses[j], userMsg)
    {
      var response := Responses[i];
      var matched := false;
      for k := 0 to |response.triggers|
        invariant matched <==> exists t :: 0 <= t < k && Contains(userMsg, response.triggers[t])
      {
        if Contains(userMsg, response.triggers[k]) {
          matched := true;
        }
      }
      if matched {
        NoEarlierGroup(Responses, userMsg, i);
        return CannedText(response.response);
      }
    }
    var defaults := DefaultResponses(userMessage);
    reply := defaults[PickIndex(random)];
  }

  /** A group that triggers after none of the earlier ones did is the one
      `FirstTriggered` finds. */
  lemma {:induction false} NoEarlierGroup(groups: seq<ResponseGroup>, msg: string, i: nat)
    requires i < |groups| && Triggered(groups[i], msg)
    requires forall j :: 0 <= j < i ==> !Triggered(groups[j], msg)
    ensures FirstTriggered(groups, msg) == Some(i)
  {
    if i > 0 {
      NoEarlierGroup(groups[1..], msg, i - 1);
    }
  }

  /** An earlier group wins over a later one: a greeting that asks for code
      gets the greeting. */
  lemma GreetingBeforeCode()
    ensures FirstTriggered(Responses, ToLower("hello, show me code")) == Some(0)
  {
    var msg := ToLower("hello, show me code");
    assert msg == "hello, show me code";
    assert StartsWith(msg, "hello");
    assert Contains(msg, Responses[0].triggers[0]);
    NoEarlierGroup(Responses, msg, 0);
  }

  /** Matching ignores case. */
  lemma ShoutedGreeting()
    ensures FirstTriggered(Responses, ToLower("HEY THERE")) == Some(0)
  {
    var msg := ToLower("HEY THERE");
    assert msg == "hey there";
    assert StartsWith(msg, "hey");
    assert Contains(msg, Responses[0].triggers[2]);
    NoEarlierGroup(Responses, msg, 0);
  }

  // ---------------------------------------------------------------- auth

  datatype AuthUser = AuthUser(id: string, email: string, name: string, createdAt: string)

  datatype AuthResponse = AuthResponse(user: AuthUser, token: string)

  const DemoEmail := "demo@example.com"
  const DemoPassword := "password123"
  const TokenPrefix := "mock-jwt-token-"

  /** The token issued at `nowMillis` (the value of `Date.now()`). */
  function Token(nowMillis: nat): (t: string)
    ensures StartsWith(t, TokenPrefix)
  {
    TokenPrefix + NatToString(nowMillis)
  }

  /** The time a token was issued at can be read back from it. */
  lemma TokenEncodesTime(nowMillis: nat)
    ensures ParseInt(Token(nowMillis)[|TokenPrefix|..]) == Some(nowMillis)
  {
    assert Token(nowMillis)[|TokenPrefix|..] == NatToString(nowMillis) == IntToString(nowMillis);
    ParseIntOfIntToString(nowMillis);
  }

  /** `login`: only the demo credentials are accepted. */
  function Login(email: string, password: string, nowMillis: nat, nowIso: string): (r: Result<AuthResponse, string>)
    ensures r.Ok? <==> email == DemoEmail && password == DemoPassword
    ensures r.Err? ==> r.error == "Invalid credentials"
    ensures r.Ok? ==> r.value.user.id == "1" && r.value.user.email == email && r.value.user.name == "Demo User"
    ensures r.Ok? ==> r.value.user.createdAt == nowIso && r.value.token == Token(nowMillis)
  {
    if email == DemoEmail && password == DemoPassword then
      Ok(AuthResponse(AuthUser("1", DemoEmail, "Demo User", nowIso), Token(nowMillis)))
    else
      Err("Invalid credentials")
  }

  /** `register`: every email but the demo one is accepted, with any
      password. The id and the token are both read from one clock value. */
  function Register(name: string, email: string, password: string, nowMillis: nat, nowIso: string): (r: Result<AuthResponse, string>)
    ensures r.Err? <==> email == DemoEmail
    ensures r.Err? ==> r.error == "Email already exists"
    ensures r.Ok? ==> r.value.user.email == email && r.value.user.name == name && r.value.user.createdAt == nowIso
    ensures r.Ok? ==> r.value.user.id == NatToString(nowMillis) && r.value.token == Token(nowMillis)
  {
    if email == DemoEmail then
      Err("Email already exists")
    else
      Ok(AuthResponse(AuthUser(NatToString(nowMillis), email, name, nowIso), Token(nowMillis)))
  }

  /** The password plays no part in registration. */
  lemma RegisterIgnoresPassword(name: string, email: string, p1: string, p2: string, nowMillis: nat, nowIso: string)
    ensures Register(name, email, p1, nowMillis, nowIso) == Register(name, email, p2, nowMillis, nowIso)
  {
  }

  /** The demo account cannot be registered again, and once it is the email,
      only its password logs in. */
  lemma DemoAccount(password: string, nowMillis: nat, nowIso: string)
    ensures Register("Demo User", DemoEmail, password, nowMillis, nowIso).Err?
    ensures Login(DemoEmail, password, nowMillis, nowIso).Ok? <==> password == DemoPassword
  {
  }

  // ---------------------------------------------------------------- chat

  /** `conversationId || '1'`: a missing or empty id falls back to "1". */
  function ConversationIdOr(conversationId: Option<string>): (r: string)
    ensures r != ""
    ensures conversationId.Some? && conversationId.value != "" ==> r == conversationId.value
    ensures conversationId.None? || conversationId.value == "" ==> r == "1"
  {
    if conversationId.Some? && conversationId.value != "" then conversationId.value else "1"
  }

  /** `sendMessage`: the assistant's reply to `message`, stamped with the
      clock values and with a token count that `tokenRandom` (a second
      `Math.random()`) picks from 100 to 599. */
  method SendMessage(message: string, conversationId: Option<string>, nowMillis: nat, nowIso: string,
                     replyRandom: real, tokenRandom: real) returns (m: Message)
    requires 0.0 <= replyRandom < 1.0 && 0.0 <= tokenRandom < 1.0
    ensures m.role == Assistant && m.id == NatToString(nowMillis) && m.timestamp == nowIso
    ensures m.conversationId == ConversationIdOr(conversationId)
    ensures FirstTriggered(Responses, ToLower(message)).Some? ==>
              m.content == CannedText(Responses[FirstTriggered(Responses, ToLower(message)).value].response)
    ensures FirstTriggered(Responses, ToLower(message)).None? ==>
              m.content == Fallback(PickIndex(replyRandom), message)
    ensures m.metadata.Some? && m.metadata.value.model == Some("gpt-3.5-turbo")
    ensures m.metadata.value.tokens.Some? && 100 <= m.metadata.value.tokens.value <= 599
    ensures m.metadata.value.cost.None?
  {
    var aiResponse := GetAIResponse(message, replyRandom);
    var tokens := TokenCount(tokenRandom);
    m := Message(NatToString(nowMillis), ConversationIdOr(conversationId), Assistant, aiResponse, nowIso,
                 Some(MessageMetadata(Some("gpt-3.5-turbo"), Some(tokens), None)));
  }
}
