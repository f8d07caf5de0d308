/** The floating help chat: a local keyword-driven assistant. A sent message is
    answered one timer tick later with a canned reply picked by the first rule
    whose keywords occur in the lower-cased message. */
module FloatingChatWidget {
  import opened Text
  import opened Collections

  // The replies, in rule order, then the fallback and the greeting.
  const Greeting :=
    "\U{1F44B} Hi! I'm your proposal assistant. I can help you with:\n\n"
    + "\U{2022} Writing better proposals\n"
    + "\U{2022} Understanding templates\n"
    + "\U{2022} Tips for winning jobs\n"
    + "\U{2022} Using the AI features\n\n"
    + "What would you like to know?"

  const TemplatesReply :=
    "\U{1F4DD} Templates help you write proposals faster! We have 10 "
    + "professional templates for different developer roles like "
    + "UI/UX Designer, Backend Developer, AI Developer, etc.\n\n"
    + "You can find them in the Templates section. Copy the "
    + "snippets and paste them into your proposals for "
    + "professional content that wins jobs!"
  const AiReply :=
    "\U{1F916} Our AI features help you:\n\n"
    + "\U{2022} Analyze job posts automatically\n"
    + "\U{2022} Generate professional proposals\n"
    + "\U{2022} Refine proposals with chat\n\n"
    + "Just paste a job post and let our AI create a tailored "
    + "proposal for you! Make sure you have your Google AI API key "
    + "set up in the .env file."
  const ProposalReply :=
    "\U{270D}\U{FE0F} For great proposals:\n\n"
    + "\U{2022} Start with job analysis (use our AI)\n"
    + "\U{2022} Use relevant templates\n"
    + "\U{2022} Customize for each client\n"
    + "\U{2022} Include clear milestones\n"
    + "\U{2022} Set competitive pricing\n"
    + "\U{2022} Share your portfolio\n\n"
    + "Our app helps with all of these steps!"
  const HelpReply :=
    "\U{1F680} Here's how to use the app:\n\n"
    + "1. **Analyze Jobs**: Paste job posts for AI analysis\n"
    + "2. **Generate Proposals**: Let AI create tailored proposals\n"
    + "3. **Use Templates**: Speed up with professional content\n"
    + "4. **Share**: Send proposals to clients\n"
    + "5. **Track**: Monitor your proposal status\n\n"
    + "What specific feature would you like help with?"
  const ShareReply :=
    "\U{1F517} Sharing proposals is easy!\n\n"
    + "\U{2022} Click the 'Share' button on any proposal\n"
    + "\U{2022} Get a public link instantly\n"
    + "\U{2022} Status automatically changes to 'Shared'\n"
    + "\U{2022} Client can view without signing up\n\n"
    + "Great for sending professional proposals that stand out!"
  const DefaultReply :=
    "\U{1F4A1} Thanks for your message! I can help you with:\n\n"
    + "\U{2022} Using templates effectively\n"
    + "\U{2022} AI proposal generation\n"
    + "\U{2022} Writing winning proposals\n"
    + "\U{2022} App features and tips\n\n"
    + "Could you be more specific about what you'd like to know?"

  /** What a reply is about: one per rule, and the fallback. */
  datatype Topic = TemplatesTopic | AiTopic | ProposalTopic | HelpTopic | ShareTopic | OtherTopic

  function ReplyText(t: Topic): string {
    match t
    case TemplatesTopic => TemplatesReply
    case AiTopic => AiReply
    case ProposalTopic => ProposalReply
    case HelpTopic => HelpReply
    case ShareTopic => ShareReply
    case OtherTopic => DefaultReply
  }

  /** The two keywords of each rule. */
  predicate Mentions(msg: string, a: string, b: string) {
    Contains(msg, a) || Contains(msg, b)
  }

  /** The rule that decides the reply to an already lower-cased message: the
      first, in source order, with a keyword in the message; otherwise the
      fallback. */
  function Decide(msg: string): (t: Topic)
    ensures Contains(msg, "template") ==> t == TemplatesTopic
    ensures t == OtherTopic <==>
      !Mentions(msg, "template", "templates") && !Mentions(msg, "ai", "generate")
      && !Mentions(msg, "proposal", "write") && !Mentions(msg, "help", "how")
      && !Mentions(msg, "share", "link")
  {
    if Mentions(msg, "template", "templates") then TemplatesTopic
    else if Mentions(msg, "ai", "generate") then AiTopic
    else if Mentions(msg, "proposal", "write") then ProposalTopic
    else if Mentions(msg, "help", "how") then HelpTopic
    else if Mentions(msg, "share", "link") then ShareTopic
    else OtherTopic
  }

  /** The message is lower-cased before the rules are tried, so the topic is
      the first rule of the table that matches the lower-cased message. */
  function TopicOf(userMessage: string): (t: Topic)
    ensures t == FirstMatch(Rules, Lower(userMessage))
  {
    TopicFollowsRules(Lower(userMessage));
    Decide(Lower(userMessage))
  }

  /** `generateBotResponse(userMessage)`. */
  function BotResponse(userMessage: string): string {
    ReplyText(TopicOf(userMessage))
  }

  /** The reply is one of six fixed texts, and it is the fallback when no
      rule matches. */
  lemma BotResponseIsCanned(userMessage: string)
    ensures var r := BotResponse(userMessage);
      r == TemplatesReply || r == AiReply || r == ProposalReply || r == HelpReply || r == ShareReply || r == DefaultReply
    ensures TopicOf(userMessage) == OtherTopic ==> BotResponse(userMessage) == DefaultReply
  {
  }

  /** An independent statement of the rules: a table of keyword pairs, scanned
      in order. */
  datatype Rule = Rule(first: string, second: string, topic: Topic)

  const Rules := [
    Rule("template", "templates", TemplatesTopic),
    Rule("ai", "generate", AiTopic),
    Rule("proposal", "write", ProposalTopic),
    Rule("help", "how", HelpTopic),
    Rule("share", "link", ShareTopic)]

  function FirstMatch(rules: seq<Rule>, msg: string): (t: Topic)
    ensures t == OtherTopic || exists i :: 0 <= i < |rules| && t == rules[i].topic
  {
    if rules == [] then OtherTopic
    else if Mentions(msg, rules[0].first, rules[0].second) then rules[0].topic
    else FirstMatch(rules[1..], msg)
  }

  /** The decision is the first matching rule of the table. */
  lemma TopicFollowsRules(msg: string)
    ensures Decide(msg) == FirstMatch(Rules, msg)
  {
    var r1, r2, r3, r4 := Rules[1..], Rules[2..], Rules[3..], Rules[4..];
    assert r1[1..] == r2 && r2[1..] == r3 && r3[1..] == r4 && r4[1..] == [];
    assert FirstMatch(r4, msg) == if Mentions(msg, "share", "link") then ShareTopic else OtherTopic;
    assert FirstMatch(r3, msg) == if Mentions(msg, "help", "how") then HelpTopic else FirstMatch(r4, msg);
    assert FirstMatch(r2, msg) == if Mentions(msg, "proposal", "write") then ProposalTopic else FirstMatch(r3, msg);
    assert FirstMatch(r1, msg) == if Mentions(msg, "ai", "generate") then AiTopic else FirstMatch(r2, msg);
  }

  /** Letter case does not matter. */
  lemma BotResponseIgnoresCase(userMessage: string)
    ensures TopicOf(Lower(userMessage)) == TopicOf(userMessage)
    ensures BotResponse(Lower(userMessage)) == BotResponse(userMessage)
  {
    LowerIdempotent(userMessage);
  }

  /** The second keyword of the first rule never decides anything: every
      message containing "templates" contains "template". */
  lemma TemplatesKeywordRedundant(msg: string)
    ensures Mentions(msg, "template", "templates") <==> Contains(msg, "template")
  {
    if Contains(msg, "templates") {
      assert "templates" == "template" + "s";
      ContainsLonger(msg, "template", "s");
    }
  }

  /** Keywords match inside words: "email" contains "ai", so it gets the reply
      about the AI features. */
  lemma EmailGetsAiReply()
    ensures TopicOf("email") == AiTopic && BotResponse("email") == AiReply
  {
    var msg := Lower("email");
    assert msg == "email";
    TooShortToContain(msg, "template");
    TooShortToContain(msg, "templates");
    assert OccursAt(msg, "ai", 2);
    ContainsAt(msg, "ai", 2);
  }

  /** Any message that mentions "ai" in any letter case, and not "template",
      gets the reply about the AI features. */
  lemma AiKeywordGetsAiReply(userMessage: string)
    ensures Contains(Lower(userMessage), "ai") && !Contains(Lower(userMessage), "template") ==>
      TopicOf(userMessage) == AiTopic && BotResponse(userMessage) == AiReply
  {
    TemplatesKeywordRedundant(Lower(userMessage));
  }

  /** One line of the chat window. */
  datatype ChatLine = ChatLine(id: string, text: string, isUser: bool, timestamp: string)

  predicate IsUserLine(l: ChatLine) {
    l.isUser
  }

  predicate IsBotLine(l: ChatLine) {
    !l.isUser
  }

  function GreetingLine(timestamp: string): ChatLine {
    ChatLine("1", Greeting, false, timestamp)
  }

  /** The chat invariant: the greeting comes first; every user line is
      non-blank; each user line is answered by one bot line or waits in
      `pending`. */
  predicate ValidChat(history: seq<ChatLine>, pending: seq<string>) {
    && |history| >= 1 && history[0] == GreetingLine(history[0].timestamp)
    && (forall i :: 0 <= i < |history| && history[i].isUser ==> !IsBlank(history[i].text))
    && (forall k :: 0 <= k < |pending| ==> !IsBlank(pending[k]))
    && CountWhere(history, IsUserLine) + 1 == CountWhere(history, IsBotLine) + |pending|
  }

  /** Sending a non-blank message keeps the invariant. */
  lemma SendKeepsValid(history: seq<ChatLine>, pending: seq<string>, line: ChatLine)
    requires ValidChat(history, pending) && line.isUser && !IsBlank(line.text)
    ensures ValidChat(history + [line], pending + [line.text])
  {
    var h, w := history + [line], pending + [line.text];
    assert h[0] == history[0];
    assert forall i :: 0 <= i < |history| ==> h[i] == history[i];
    assert forall k :: 0 <= k < |pending| ==> w[k] == pending[k];
    CountWhereAppend(history, IsUserLine, line);
    CountWhereAppend(history, IsBotLine, line);
  }

  /** Answering the oldest waiting message keeps the invariant. */
  lemma ReplyKeepsValid(history: seq<ChatLine>, pending: seq<string>, line: ChatLine)
    requires ValidChat(history, pending) && pending != [] && !line.isUser
    ensures ValidChat(history + [line], pending[1..])
  {
    var h := history + [line];
    assert h[0] == history[0];
    assert forall i :: 0 <= i < |history| ==> h[i] == history[i];
    CountWhereAppend(history, IsUserLine, line);
    CountWhereAppend(history, IsBotLine, line);
  }

  /** The widget's state. `pending` holds, oldest first, the messages whose
      one-second reply timer has not fired yet; each timer captured the message
      as it was when it was sent. */
  class FloatingChatState {
    var isOpen: bool
    var message: string
    var history: seq<ChatLine>
    var pending: seq<string>

    predicate Valid()
      reads this`history, this`pending
    {
      ValidChat(history, pending)
    }

    /** A closed window with the greeting, stamped `now`. */
    constructor(now: string)
      ensures Valid()
      ensures !isOpen && message == "" && history == [GreetingLine(now)] && pending == []
    {
      isOpen := false;
      message := "";
      history := [GreetingLine(now)];
      pending := [];
    }

    method SetMessage(m: string)
      modifies this`message
      ensures message == m
    {
      message := m;
    }

    /** The round button opens and closes the window. */
    method Toggle()
      modifies this`isOpen
      ensures isOpen == !old(isOpen)
    {
      isOpen := !isOpen;
    }

    /** The window's close button. */
    method Close()
      modifies this`isOpen
      ensures !isOpen
    {
      isOpen := false;
    }

    /** Sending: a blank message does nothing; otherwise the message is shown
        as a user line with id `clock` (the millisecond clock), its reply is
        scheduled and the input is cleared. */
    method Send(clock: nat, now: string)
      requires Valid()
      modifies this`history, this`pending, this`message
      ensures Valid()
      ensures IsBlank(old(message)) ==>
        history == old(history) && pending == old(pending) && message == old(message)
      ensures !IsBlank(old(message)) ==>
        && history == old(history) + [ChatLine(NatToString(clock), old(message), true, now)]
        && pending == old(pending) + [old(message)]
        && message == ""
    {
      if !IsBlank(message) {
        var line := ChatLine(NatToString(clock), message, true, now);
        SendKeepsValid(history, pending, line);
        history := history + [line];
        pending := pending + [message];
        message := "";
      }
    }

    /** The oldest reply timer fires: the reply to the message it captured is
        shown as a bot line with id `clock + 1`. With no timer waiting
        nothing happens. */
    method ReplyFires(clock: nat, now: string)
      requires Valid()
      modifies this`history, this`pending
      ensures Valid()
      ensures old(pending) == [] ==> history == old(history) && pending == []
      ensures old(pending) != [] ==>
        && history == old(history) + [ChatLine(NatToString(clock + 1), BotResponse(old(pending)[0]), false, now)]
        && pending == old(pending)[1..]
    {
      if pending != [] {
        var line := ChatLine(NatToString(clock + 1), BotResponse(pending[0]), false, now);
        ReplyKeepsValid(history, pending, line);
        history := history + [line];
        pending := pending[1..];
      }
    }
  }
}
