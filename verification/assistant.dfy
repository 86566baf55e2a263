/** The chat assistant: canned replies chosen by keyword, the transcript with
    its typing indicator, and the prompts behind the reply buttons. */
module Assistant {
  import opened Text

  /** The canned assistant messages. Each has a fixed text and fixed buttons;
      the model keeps the buttons and names the text by its topic. */
  datatype Reply = Greeting | PortfolioReply | CarbonReply | DefiReply | SecurityReply | MarketReply | MenuReply

  datatype ButtonKind = Primary | Secondary | Warning

  datatype ActionButton = ActionButton(caption: string, action: string, kind: ButtonKind)

  function Buttons(r: Reply): seq<ActionButton> {
    match r
    case Greeting => [ActionButton("Check Portfolio", "portfolio", Primary),
                      ActionButton("Carbon Credits", "carbon", Secondary),
                      ActionButton("DeFi Opportunities", "defi", Secondary)]
    case PortfolioReply => [ActionButton("Stake Tokens", "stake", Primary),
                            ActionButton("View Details", "details", Secondary)]
    case CarbonReply => [ActionButton("Trade Credits", "trade", Primary),
                         ActionButton("Retire Credits", "retire", Warning),
                         ActionButton("Market Analysis", "market", Secondary)]
    case DefiReply => [ActionButton("Start Staking", "stake", Primary),
                       ActionButton("Join LP", "liquidity", Secondary),
                       ActionButton("Risk Analysis", "risk", Warning)]
    case SecurityReply => [ActionButton("Security Settings", "settings", Primary),
                           ActionButton("Learn More", "learn", Secondary)]
    case MarketReply => [ActionButton("View Charts", "charts", Primary),
                         ActionButton("Set Alerts", "alerts", Secondary)]
    case MenuReply => [ActionButton("Portfolio Review", "portfolio", Primary),
                       ActionButton("Security Check", "security", Secondary)]
  }

  /** Which reply buttons send a fixed prompt: every button of the greeting
      and of the menu does, while every button of the carbon, security and
      market replies falls back to "Execute " and its action key. */
  lemma ButtonsAndPrompts(r: Reply)
    ensures r in {Greeting, MenuReply} ==> forall b :: b in Buttons(r) ==> b.action in ActionMessages()
    ensures r in {CarbonReply, SecurityReply, MarketReply} ==>
      forall b :: b in Buttons(r) ==> b.action !in ActionMessages() && ActionPrompt(b.action)[..8] == "Execute "
  {
  }

  /** `generateAIResponse`: lower-case the text, then test the keyword groups
      in a fixed order; the first group with a keyword in the text decides. */
  function GenerateReply(input: string): Reply {
    var lower := ToLower(input);
    if Contains(lower, "portfolio") || Contains(lower, "balance") then PortfolioReply
    else if Contains(lower, "carbon") || Contains(lower, "credit") then CarbonReply
    else if Contains(lower, "defi") || Contains(lower, "stake") || Contains(lower, "yield") then DefiReply
    else if Contains(lower, "security") || Contains(lower, "safe") then SecurityReply
    else if Contains(lower, "price") || Contains(lower, "market") then MarketReply
    else MenuReply
  }

  // Reference definition of the dispatch: an ordered table of keyword groups.

  function Keywords(r: Reply): seq<string> {
    match r
    case PortfolioReply => ["portfolio", "balance"]
    case CarbonReply => ["carbon", "credit"]
    case DefiReply => ["defi", "stake", "yield"]
    case SecurityReply => ["security", "safe"]
    case MarketReply => ["price", "market"]
    case _ => []
  }

  const Precedence: seq<Reply> := [PortfolioReply, CarbonReply, DefiReply, SecurityReply, MarketReply]

  /** Some keyword of the list occurs in the text. */
  predicate MentionsAny(lower: string, keywords: seq<string>)
    decreases |keywords|
  {
    keywords != [] && (Contains(lower, keywords[0]) || MentionsAny(lower, keywords[1..]))
  }

  predicate Mentions(lower: string, r: Reply) {
    MentionsAny(lower, Keywords(r))
  }

  /** The first topic of `order` that the text mentions, or the menu. */
  function FirstMatch(order: seq<Reply>, lower: string): (r: Reply)
    ensures r == MenuReply || r in order
    decreases |order|
  {
    if order == [] then MenuReply
    else if Mentions(lower, order[0]) then order[0]
    else FirstMatch(order[1..], lower)
  }

  lemma {:induction false} FirstMatchAt(order: seq<Reply>, lower: string, i: int)
    requires 0 <= i < |order|
    requires forall a, b :: 0 <= a < b < |order| ==> order[a] != order[b]
    requires MenuReply !in order
    ensures FirstMatch(order, lower) == order[i] <==>
      Mentions(lower, order[i]) && forall j :: 0 <= j < i ==> !Mentions(lower, order[j])
    decreases |order|
  {
    if i > 0 {
      if !Mentions(lower, order[0]) {
        FirstMatchAt(order[1..], lower, i - 1);
        forall j | 0 <= j < i ensures !Mentions(lower, order[j]) <==> (j == 0 || !Mentions(lower, order[1..][j - 1])) {
        }
      }
    }
  }

  lemma {:induction false} FirstMatchNone(order: seq<Reply>, lower: string)
    requires MenuReply !in order
    ensures FirstMatch(order, lower) == MenuReply <==> forall j :: 0 <= j < |order| ==> !Mentions(lower, order[j])
    decreases |order|
  {
    if order != [] {
      FirstMatchNone(order[1..], lower);
      if !Mentions(lower, order[0]) {
        forall j | 0 <= j < |order| ensures !Mentions(lower, order[j]) <==> (j == 0 || !Mentions(lower, order[1..][j - 1])) {
        }
      }
    }
  }

  /** The if-chain is the ordered keyword table read first-match-wins. */
  lemma DispatchIsFirstMatch(input: string)
    ensures GenerateReply(input) == FirstMatch(Precedence, ToLower(input))
  {
    var lower := ToLower(input);
    assert Mentions(lower, PortfolioReply) <==> Contains(lower, "portfolio") || Contains(lower, "balance") by {
      assert Keywords(PortfolioReply)[1..][1..] == [];
    }
    assert Mentions(lower, CarbonReply) <==> Contains(lower, "carbon") || Contains(lower, "credit") by {
      assert Keywords(CarbonReply)[1..][1..] == [];
    }
    assert Mentions(lower, DefiReply) <==> Contains(lower, "defi") || Contains(lower, "stake") || Contains(lower, "yield") by {
      assert Keywords(DefiReply)[1..][1..][1..] == [];
    }
    assert Mentions(lower, SecurityReply) <==> Contains(lower, "security") || Contains(lower, "safe") by {
      assert Keywords(SecurityReply)[1..][1..] == [];
    }
    assert Mentions(lower, MarketReply) <==> Contains(lower, "price") || Contains(lower, "market") by {
      assert Keywords(MarketReply)[1..][1..] == [];
    }
    var p1 := Precedence[1..];
    var p2 := p1[1..];
    var p3 := p2[1..];
    var p4 := p3[1..];
    assert p1[0] == CarbonReply && p2[0] == DefiReply && p3[0] == SecurityReply && p4 == [MarketReply];
    assert FirstMatch(p4, lower) == if Mentions(lower, MarketReply) then MarketReply else MenuReply by {
      assert p4[1..] == [];
    }
  }

  /** Keyword precedence: topic number `i` of the table answers exactly when
      the lower-cased text mentions one of its keywords and none of the
      keywords of an earlier topic. */
  lemma FirstMatchWins(input: string, i: int)
    requires 0 <= i < |Precedence|
    ensures GenerateReply(input) == Precedence[i] <==>
      Mentions(ToLower(input), Precedence[i]) &&
      forall j :: 0 <= j < i ==> !Mentions(ToLower(input), Precedence[j])
  {
    DispatchIsFirstMatch(input);
    FirstMatchAt(Precedence, ToLower(input), i);
  }

  /** The menu answers exactly the texts that mention no keyword at all. */
  lemma MenuIffNoKeyword(input: string)
    ensures GenerateReply(input) == MenuReply <==>
      forall j :: 0 <= j < |Precedence| ==> !Mentions(ToLower(input), Precedence[j])
  {
    DispatchIsFirstMatch(input);
    FirstMatchNone(Precedence, ToLower(input));
  }

  /** The reply depends only on the lower-cased text. */
  lemma CaseInsensitive(input: string)
    ensures GenerateReply(ToLower(input)) == GenerateReply(input)
    ensures GenerateReply(ToUpper(input)) == GenerateReply(input)
  {
    LowerIdempotent(input);
    SameLowerSameReply(ToLower(input), input);
    SameLowerSameReply(ToUpper(input), input);
  }

  /** Texts that lower-case alike get the same reply. */
  lemma SameLowerSameReply(a: string, b: string)
    requires ToLower(a) == ToLower(b)
    ensures GenerateReply(a) == GenerateReply(b)
  {
  }

  /** "Carbon PRICE" mentions both the carbon and the market keywords; the
      carbon group comes first and wins. */
  lemma CarbonBeatsPrice(input: string)
    requires input == "Carbon PRICE"
    ensures Mentions(ToLower(input), CarbonReply) && Mentions(ToLower(input), MarketReply)
    ensures GenerateReply(input) == CarbonReply
  {
    LowerCarbonPrice(input);
    CarbonPriceMentions(ToLower(input));
  }

  lemma LowerCarbonPrice(input: string)
    requires input == "Carbon PRICE"
    ensures ToLower(input) == "carbon price"
  {
  }

  lemma CarbonPriceMentions(lower: string)
    requires lower == "carbon price"
    ensures Contains(lower, "carbon") && Contains(lower, "price")
    ensures !Contains(lower, "portfolio") && !Contains(lower, "balance")
  {
    assert OccursAt(lower, "carbon", 0);
    ContainsAt(lower, "carbon", 0);
    assert OccursAt(lower, "price", 7);
    ContainsAt(lower, "price", 7);
    AbsentCharBlocks(lower, "portfolio", 3);
    AbsentCharBlocks(lower, "balance", 2);
  }

  /** The prompts of the five known reply buttons. */
  function ActionMessages(): map<string, string> {
    map["portfolio" := "Show me my complete portfolio analysis",
        "carbon" := "Tell me about my carbon credits",
        "defi" := "What DeFi opportunities are available?",
        "stake" := "How can I stake my tokens safely?",
        "security" := "Review my wallet security"]
  }

  /** The first character of a prompt tells which action produced it. */
  function PromptHead(action: string): char {
    if action == "portfolio" then 'S'
    else if action == "carbon" then 'T'
    else if action == "defi" then 'W'
    else if action == "stake" then 'H'
    else if action == "security" then 'R'
    else 'E'
  }

  /** `handleActionClick`'s text: the fixed prompt of a known action, else
      "Execute " followed by the action key. Every prompt is non-blank, so
      a send would not ignore it, and its first character tells which
      action produced it. */
  function ActionPrompt(action: string): (r: string)
    ensures |r| > 0 && r[0] == PromptHead(action)
    ensures Trim(r) != []
    ensures action in ActionMessages() ==> r in ActionMessages().Values
    ensures action !in ActionMessages() ==> |r| >= 8 && r[..8] == "Execute " && r[8..] == action
  {
    if action in ActionMessages() then
      KnownPromptHead(action);
      NonBlankByHead(ActionMessages()[action]);
      ActionMessages()[action]
    else
      var r := "Execute " + action;
      NonBlankByHead(r);
      r
  }

  lemma KnownPromptHead(action: string)
    requires action in ActionMessages()
    ensures |ActionMessages()[action]| > 0 && ActionMessages()[action][0] == PromptHead(action)
  {
  }

  /** A text whose first character is visible is not blank. */
  lemma NonBlankByHead(r: string)
    requires |r| > 0 && !IsJsWhitespace(r[0])
    ensures Trim(r) != []
  {
    TrimEmptyIffBlank(r);
  }

  /** Different actions give different prompts. */
  lemma ActionPromptInjective(a: string, b: string)
    requires a != b
    ensures ActionPrompt(a) != ActionPrompt(b)
  {
    if PromptHead(a) == PromptHead(b) {
      assert a !in ActionMessages() && b !in ActionMessages();
    }
  }

  datatype Message = UserMessage(content: string) | AssistantMessage(reply: Reply)

  function UserTurns(ms: seq<Message>): nat
    decreases |ms|
  {
    if ms == [] then 0 else UserTurns(ms[..|ms| - 1]) + (if ms[|ms| - 1].UserMessage? then 1 else 0)
  }

  function AssistantTurns(ms: seq<Message>): nat
    decreases |ms|
  {
    if ms == [] then 0 else AssistantTurns(ms[..|ms| - 1]) + (if ms[|ms| - 1].AssistantMessage? then 1 else 0)
  }

  lemma TurnsAppend(ms: seq<Message>, m: Message)
    ensures UserTurns(ms + [m]) == UserTurns(ms) + (if m.UserMessage? then 1 else 0)
    ensures AssistantTurns(ms + [m]) == AssistantTurns(ms) + (if m.AssistantMessage? then 1 else 0)
  {
    assert (ms + [m])[..|ms|] == ms;
  }

  /** The chat window's state. `pending` holds, oldest first, the texts whose
      delayed reply has not been delivered yet; all delays are equal, so the
      replies arrive in the order the texts were sent. */
  class Chat {
    var messages: seq<Message>
    var inputValue: string
    var isTyping: bool
    var isMinimized: bool
    var pending: seq<string>

    /** The transcript opens with the greeting, and every sent text is either
        answered or still pending. */
    ghost predicate Valid()
      reads this
    {
      && |messages| >= 1
      && messages[0] == AssistantMessage(Greeting)
      && UserTurns(messages) + 1 == AssistantTurns(messages) + |pending|
    }

    constructor ()
      ensures Valid()
      ensures messages == [AssistantMessage(Greeting)]
      ensures inputValue == "" && !isTyping && !isMinimized && pending == []
    {
      messages := [AssistantMessage(Greeting)];
      inputValue := "";
      isTyping := false;
      isMinimized := false;
      pending := [];
      new;
      assert messages == [] + [AssistantMessage(Greeting)];
      TurnsAppend([], AssistantMessage(Greeting));
    }

    /** Typing into the input box. */
    method SetInput(value: string)
      modifies this`inputValue
      ensures inputValue == value
    {
      inputValue := value;
    }

    /** The send button is enabled for a non-blank input while no reply is
        being typed (the Enter key does not check the typing flag). */
    predicate SendButtonEnabled()
      reads this
      ensures SendButtonEnabled() <==> !AllWhitespace(inputValue) && !isTyping
    {
      TrimEmptyIffBlank(inputValue);
      Trim(inputValue) != [] && !isTyping
    }

    /** `handleSendMessage`: a blank input is ignored; otherwise the input is
        appended as a user turn, the box is cleared, the typing indicator
        shows, and a delayed reply to that text is scheduled. */
    method HandleSendMessage() returns (sent: bool)
      requires Valid()
      modifies this`messages, this`inputValue, this`isTyping, this`pending
      ensures Valid()
      ensures sent <==> Trim(old(inputValue)) != []
      ensures !sent ==> messages == old(messages) && inputValue == old(inputValue)
                        && isTyping == old(isTyping) && pending == old(pending)
      ensures sent ==> messages == old(messages) + [UserMessage(old(inputValue))]
                       && inputValue == "" && isTyping
                       && pending == old(pending) + [old(inputValue)]
    {
      if Trim(inputValue) == [] {
        return false;
      }
      TurnsAppend(messages, UserMessage(inputValue));
      messages := messages + [UserMessage(inputValue)];
      pending := pending + [inputValue];
      inputValue := "";
      isTyping := true;
      sent := true;
    }

    /** The delayed callback of the oldest pending send: appends the reply
        chosen for that text and hides the typing indicator. */
    method DeliverReply()
      requires Valid() && pending != []
      modifies this`messages, this`isTyping, this`pending
      ensures Valid()
      ensures messages == old(messages) + [AssistantMessage(GenerateReply(old(pending)[0]))]
      ensures !isTyping && pending == old(pending)[1..]
    {
      TurnsAppend(messages, AssistantMessage(GenerateReply(pending[0])));
      messages := messages + [AssistantMessage(GenerateReply(pending[0]))];
      pending := pending[1..];
      isTyping := false;
    }

    method ToggleMinimized()
      modifies this`isMinimized
      ensures isMinimized == !old(isMinimized)
    {
      isMinimized := !isMinimized;
    }
  }

  /** A client of the chat: one question and its answer leave the greeting,
      the question and the chosen reply, in that order. */
  method AskOnce(question: string) returns (c: Chat)
    requires Trim(question) != []
    ensures fresh(c) && c.Valid()
    ensures c.messages == [AssistantMessage(Greeting), UserMessage(question), AssistantMessage(GenerateReply(question))]
    ensures !c.isTyping && c.inputValue == ""
  {
    c := new Chat();
    c.SetInput(question);
    var sent := c.HandleSendMessage();
    c.DeliverReply();
  }
}
