/** The AI gateway: the two validators that turn an untyped parsed answer into a
    fully populated record, the demo and default data, the extraction of the JSON
    region from the answer text, and the "never throws" control flow of the three
    operations. The text-generation model is an oracle (`Reply`) and `JSON.parse`
    a parameter from text to an optional value. */
module AiService {
  import opened Optional
  import opened Text
  import opened Json
  import opened Collections
  import opened Records
  import opened Codec

  // ---------------------------------------------------------------------------
  // Validated records

  /** What `validateAnalysis` returns: every field present with its declared
      outer type; the elements of the arrays are whatever the answer held. */
  datatype ValidatedAnalysis = ValidatedAnalysis(
    skills: seq<JValue>,
    scope: string,
    deliverables: seq<JValue>,
    budget: string,
    timezone: string,
    risks: seq<JValue>)

  /** What `validateProposal` returns: `pricing` is any truthy value, and the
      elements of `milestones` and `questions` are not checked. */
  datatype ValidatedProposal = ValidatedProposal(
    coverLetter: string,
    milestones: seq<JValue>,
    pricing: JValue,
    questions: seq<JValue>)

  const MaxSkills := 7
  const MaxDeliverables := 5
  const MaxRisks := 4
  const MaxMilestones := 4
  const MaxQuestions := 5

  const DefaultSkills := [JStr("Web Development")]
  const DefaultScope := "Project development work"
  const DefaultDeliverables := [JStr("Completed project")]
  const NotSpecified := "Not specified"
  const DefaultRisks := [JStr("Timeline constraints")]
  const DefaultCoverLetter := "Dear Client,\n\nI'm excited to work on your project..."

  const DefaultMilestones: seq<Milestone> := [
    Milestone("Project Setup & Planning", "3-5 days",
      ["Project architecture", "Development environment", "Timeline confirmation"]),
    Milestone("Core Development", "7-10 days",
      ["Main functionality", "UI implementation", "Initial testing"]),
    Milestone("Final Testing & Delivery", "2-3 days",
      ["Bug fixes", "Performance optimization", "Documentation"])
  ]

  const DefaultPricing: Pricing := Pricing(
    Tier("$2,500", ["Core functionality", "Basic UI", "1 revision round"]),
    Tier("$3,500", ["Full functionality", "Responsive design", "3 revision rounds", "Basic documentation"]),
    Tier("$5,000", ["Everything in Standard", "Advanced features", "Unlimited revisions", "Full documentation", "3 months support"]))

  const DefaultQuestions: seq<string> := [
    "What's your preferred communication method and frequency?",
    "Are there any specific design preferences or brand guidelines?",
    "Do you have any existing systems this needs to integrate with?",
    "What's the expected user volume for this application?",
    "Are there any compliance or security requirements to consider?"
  ]

  /** The cardinality bounds the validators guarantee. */
  predicate AnalysisWithinBounds(a: ValidatedAnalysis) {
    |a.skills| <= MaxSkills && |a.deliverables| <= MaxDeliverables && |a.risks| <= MaxRisks
  }

  predicate ProposalWithinBounds(p: ValidatedProposal) {
    |p.milestones| <= MaxMilestones && |p.questions| <= MaxQuestions && Truthy(p.pricing)
  }

  /** How an array field is normalised: an array keeps its first `max` elements
      (all of them when it has fewer), anything else becomes `default`. */
  predicate NormalisedArray(found: JValue, out: seq<JValue>, max: nat, default: seq<JValue>) {
    && (found.JArr? ==> |out| <= max && |out| <= |found.items| && out == found.items[..|out|]
                        && (|out| < max ==> out == found.items))
    && (!found.JArr? ==> out == default)
  }

  /** How a string field is normalised: a string is kept, anything else becomes `default`. */
  predicate NormalisedString(found: JValue, out: string, default: string) {
    (found.JStr? ==> out == found.s) && (!found.JStr? ==> out == default)
  }

  function ArrayOr(v: JValue, max: nat, default: seq<JValue>): (r: seq<JValue>)
    ensures NormalisedArray(v, r, max, default)
  {
    if IsArray(v) then Take(v.items, max) else default
  }

  function StringOr(v: JValue, default: string): (r: string)
    ensures NormalisedString(v, r, default)
  {
    if IsString(v) then v.s else default
  }

  /** Each field of `a` is the normalised field of the same name in `data`. */
  predicate AnalysisNormalised(data: JValue, a: ValidatedAnalysis) {
    && NormalisedArray(Lookup(data, "skills"), a.skills, MaxSkills, DefaultSkills)
    && NormalisedString(Lookup(data, "scope"), a.scope, DefaultScope)
    && NormalisedArray(Lookup(data, "deliverables"), a.deliverables, MaxDeliverables, DefaultDeliverables)
    && NormalisedString(Lookup(data, "budget"), a.budget, NotSpecified)
    && NormalisedString(Lookup(data, "timezone"), a.timezone, NotSpecified)
    && NormalisedArray(Lookup(data, "risks"), a.risks, MaxRisks, DefaultRisks)
  }

  /** Each field of `p` is the normalised field of the same name in `data`;
      `pricing` is kept whenever it is truthy. */
  predicate ProposalNormalised(data: JValue, p: ValidatedProposal) {
    && NormalisedString(Lookup(data, "coverLetter"), p.coverLetter, DefaultCoverLetter)
    && NormalisedArray(Lookup(data, "milestones"), p.milestones, MaxMilestones, MilestonesJson(DefaultMilestones))
    && (Truthy(Lookup(data, "pricing")) ==> p.pricing == Lookup(data, "pricing"))
    && (!Truthy(Lookup(data, "pricing")) ==> p.pricing == PricingJson(DefaultPricing))
    && NormalisedArray(Lookup(data, "questions"), p.questions, MaxQuestions, Strs(DefaultQuestions))
  }

  // ---------------------------------------------------------------------------
  // Validators

  /** `validateAnalysis(data)`: reading a field of `null` or `undefined` throws;
      otherwise every field is normalised on its own. */
  function ValidateAnalysis(data: JValue): (r: Result<ValidatedAnalysis>)
    ensures r.Thrown? <==> IsNullish(data)
    ensures r.Ok? ==> AnalysisWithinBounds(r.value)
    ensures r.Ok? ==> AnalysisNormalised(data, r.value)
  {
    if IsNullish(data) then Thrown(TypeError)
    else Ok(ValidatedAnalysis(
      ArrayOr(Lookup(data, "skills"), MaxSkills, DefaultSkills),
      StringOr(Lookup(data, "scope"), DefaultScope),
      ArrayOr(Lookup(data, "deliverables"), MaxDeliverables, DefaultDeliverables),
      StringOr(Lookup(data, "budget"), NotSpecified),
      StringOr(Lookup(data, "timezone"), NotSpecified),
      ArrayOr(Lookup(data, "risks"), MaxRisks, DefaultRisks)))
  }

  /** `validateProposal(data)`: `pricing` is passed through whenever it is truthy,
      whatever its structure, and replaced by the default pricing only when falsy. */
  function ValidateProposal(data: JValue): (r: Result<ValidatedProposal>)
    ensures r.Thrown? <==> IsNullish(data)
    ensures r.Ok? ==> ProposalWithinBounds(r.value)
    ensures r.Ok? ==> ProposalNormalised(data, r.value)
  {
    if IsNullish(data) then Thrown(TypeError)
    else
      var pricing := Lookup(data, "pricing");
      Ok(ValidatedProposal(
        StringOr(Lookup(data, "coverLetter"), DefaultCoverLetter),
        ArrayOr(Lookup(data, "milestones"), MaxMilestones, MilestonesJson(DefaultMilestones)),
        if Truthy(pricing) then pricing else PricingJson(DefaultPricing),
        ArrayOr(Lookup(data, "questions"), MaxQuestions, Strs(DefaultQuestions))))
  }

  /** A validated analysis written back as a JSON object. */
  function AnalysisObject(a: ValidatedAnalysis): JValue {
    JObj(map[
      "skills" := JArr(a.skills), "scope" := JStr(a.scope), "deliverables" := JArr(a.deliverables),
      "budget" := JStr(a.budget), "timezone" := JStr(a.timezone), "risks" := JArr(a.risks)])
  }

  /** A validated proposal written back as a JSON object. */
  function ProposalObject(p: ValidatedProposal): JValue {
    JObj(map[
      "coverLetter" := JStr(p.coverLetter), "milestones" := JArr(p.milestones),
      "pricing" := p.pricing, "questions" := JArr(p.questions)])
  }

  /** Validation leaves an analysis unchanged exactly when it is within the bounds. */
  lemma AnalysisFixedPoint(a: ValidatedAnalysis)
    ensures ValidateAnalysis(AnalysisObject(a)) == Ok(a) <==> AnalysisWithinBounds(a)
  {
    var r := ValidateAnalysis(AnalysisObject(a));
    assert r.Ok?;
    if AnalysisWithinBounds(a) {
      assert r.value.skills == a.skills;
      assert r.value.deliverables == a.deliverables;
      assert r.value.risks == a.risks;
    }
  }

  /** Validation leaves a proposal unchanged exactly when it is within the bounds. */
  lemma ProposalFixedPoint(p: ValidatedProposal)
    ensures ValidateProposal(ProposalObject(p)) == Ok(p) <==> ProposalWithinBounds(p)
  {
    var obj := ProposalObject(p);
    assert Lookup(obj, "coverLetter") == JStr(p.coverLetter);
    assert Lookup(obj, "milestones") == JArr(p.milestones);
    assert Lookup(obj, "pricing") == p.pricing;
    assert Lookup(obj, "questions") == JArr(p.questions);
    var r := ValidateProposal(obj);
    if ProposalWithinBounds(p) {
      assert r.value == p;
    }
  }

  /** `validateAnalysis` is idempotent: validating a validated analysis again
      returns it unchanged. */
  lemma AnalysisIdempotent(data: JValue)
    requires ValidateAnalysis(data).Ok?
    ensures ValidateAnalysis(AnalysisObject(ValidateAnalysis(data).value)) == ValidateAnalysis(data)
  {
    AnalysisFixedPoint(ValidateAnalysis(data).value);
  }

  /** `validateProposal` is idempotent. */
  lemma ProposalIdempotent(data: JValue)
    requires ValidateProposal(data).Ok?
    ensures ValidateProposal(ProposalObject(ValidateProposal(data).value)) == ValidateProposal(data)
  {
    ProposalFixedPoint(ValidateProposal(data).value);
  }

  // ---------------------------------------------------------------------------
  // Typed records and their validated form

  function LoosenAnalysis(a: JobAnalysis): ValidatedAnalysis {
    ValidatedAnalysis(Strs(a.skills), a.scope, Strs(a.deliverables), a.budget, a.timezone, Strs(a.risks))
  }

  /** A typed proposal in the form the gateway returns it. */
  function LoosenProposal(p: ProposalData): ValidatedProposal {
    ValidatedProposal(p.coverLetter, MilestonesJson(p.milestones), PricingJson(p.pricing), Strs(p.questions))
  }

  /** A validated proposal read as a typed one, when its elements have the
      declared shapes. */
  function TightenProposal(v: ValidatedProposal): Option<ProposalData> {
    match (AsMilestones(v.milestones), AsPricing(v.pricing), AsStrs(v.questions))
    case (Some(ms), Some(p), Some(qs)) => Some(ProposalData(v.coverLetter, ms, p, qs))
    case _ => None
  }

  /** Reading back a typed proposal gives it unchanged. */
  lemma ProposalRoundTrip(p: ProposalData)
    ensures TightenProposal(LoosenProposal(p)) == Some(p)
  {
    MilestonesRoundTrip(p.milestones);
    PricingRoundTrip(p.pricing);
    StrsRoundTrip(p.questions);
  }

  // ---------------------------------------------------------------------------
  // Demo data

  const DemoAnalysis: JobAnalysis := JobAnalysis(
    ["React", "Node.js", "TypeScript", "API Integration", "UI/UX Design"],
    "Medium complexity project requiring full-stack development",
    ["Responsive web application", "REST API backend", "User authentication system",
     "Admin dashboard", "Documentation and testing"],
    "$3,000 - $5,000",
    "EST (UTC-5)",
    ["Tight deadline may require overtime", "Third-party API dependencies unclear",
     "Design requirements need clarification"])

  /** The demo analysis has 5 skills, 5 deliverables and 3 risks, so it is within
      the validator's bounds and validating it changes nothing. */
  lemma DemoAnalysisShape()
    ensures |DemoAnalysis.skills| == 5 && |DemoAnalysis.deliverables| == 5 && |DemoAnalysis.risks| == 3
    ensures AnalysisWithinBounds(LoosenAnalysis(DemoAnalysis))
    ensures ValidateAnalysis(AnalysisObject(LoosenAnalysis(DemoAnalysis))) == Ok(LoosenAnalysis(DemoAnalysis))
  {
    AnalysisFixedPoint(LoosenAnalysis(DemoAnalysis));
  }

  const CoverOpening := "Dear Client,\n\nI'm excited about your "
  const CoverMiddle :=
    "I can deliver exactly what you're looking for.\n\n"
    + "My approach includes thorough planning, regular "
    + "communication, and high-quality deliverables. I've "
    + "successfully completed similar projects and understand the "
    + "importance of meeting deadlines while maintaining code "
    + "quality.\n\n"
    + "I'm available in your timezone ("
  const CoverClosing :=
    ") and can start immediately. Let's discuss how we can bring "
    + "your vision to life.\n\n"
    + "Best regards,\n"
    + "Your Name"

  /** The demo cover letter: it opens with the lower-cased scope and the first
      three skills joined by ", ", and closes with the timezone and the
      signature "Your Name". */
  function DemoCoverLetter(a: JobAnalysis): (r: string)
    ensures StartsWith(r, CoverOpening + Lower(a.scope) + " project. With my expertise in "
                          + Join(Take(a.skills, 3), ", ") + ", ")
    ensures EndsWith(r, a.timezone + CoverClosing)
  {
    var head := CoverOpening + Lower(a.scope) + " project. With my expertise in " + Join(Take(a.skills, 3), ", ") + ", ";
    var tail := a.timezone + CoverClosing;
    ConcatEnds(head, CoverMiddle, tail);
    head + CoverMiddle + tail
  }

  /** `getDemoProposal(analysis)`: the demo cover letter with the default
      milestones, pricing and questions. It has three milestones and five
      questions, so it is within the validator's bounds and validating it
      changes nothing. */
  function DemoProposal(a: JobAnalysis): (r: ProposalData)
    ensures |r.milestones| == 3 && |r.questions| == 5
    ensures ProposalWithinBounds(LoosenProposal(r))
    ensures ValidateProposal(ProposalObject(LoosenProposal(r))) == Ok(LoosenProposal(r))
  {
    var r := ProposalData(DemoCoverLetter(a), DefaultMilestones, DefaultPricing, DefaultQuestions);
    assert |DefaultMilestones| == 3 && |DefaultQuestions| == 5;
    ProposalFixedPoint(LoosenProposal(r));
    r
  }

  /** An answer object with none of the expected fields validates to the
      defaults, and those are within the bounds. */
  lemma EmptyAnswerGetsDefaults()
    ensures ValidateAnalysis(JObj(map[]))
      == Ok(ValidatedAnalysis(DefaultSkills, DefaultScope, DefaultDeliverables, NotSpecified, NotSpecified, DefaultRisks))
    ensures ValidateProposal(JObj(map[]))
      == Ok(ValidatedProposal(DefaultCoverLetter, MilestonesJson(DefaultMilestones), PricingJson(DefaultPricing), Strs(DefaultQuestions)))
    ensures AnalysisWithinBounds(ValidateAnalysis(JObj(map[])).value)
    ensures ProposalWithinBounds(ValidateProposal(JObj(map[])).value)
  {
    assert |DefaultMilestones| == 3 && |DefaultQuestions| == 5;
  }

  /** The demo proposal depends on the analysis only through the lower-cased
      scope, the first three skills and the timezone. */
  lemma DemoProposalDependsOnThreePieces(a: JobAnalysis, b: JobAnalysis)
    requires Lower(a.scope) == Lower(b.scope) && Take(a.skills, 3) == Take(b.skills, 3) && a.timezone == b.timezone
    ensures DemoProposal(a) == DemoProposal(b)
  {
  }

  // ---------------------------------------------------------------------------
  // The JSON region of an answer

  /** Positions `i < j` holding an opening and a closing brace. */
  predicate BraceSpan(text: string, i: int, j: int) {
    0 <= i < j < |text| && text[i] == '{' && text[j] == '}'
  }

  /** What the greedy pattern `/\{[\s\S]*\}/` matches: the text from the first
      `{` to the last `}`, when the first `{` comes before the last `}`. This is
      not brace matching: `{a} {b}` matches as a whole. */
  function JsonRegion(text: string): (r: Option<string>)
    ensures r.Some? <==> exists i, j :: BraceSpan(text, i, j)
    ensures r.Some? ==> exists i, j :: BraceSpan(text, i, j) && r.value == text[i..j + 1]
                                     && '{' !in text[..i] && '}' !in text[j + 1..]
  {
    var first := IndexOf(text, '{');
    var last := LastIndexOf(text, '}');
    BraceSpansWithinExtremes(text);
    if first.Some? && last.Some? && first.value < last.value then
      assert BraceSpan(text, first.value, last.value);
      Some(text[first.value..last.value + 1])
    else
      None
  }

  /** Every brace span lies between the first `{` and the last `}`. */
  lemma BraceSpansWithinExtremes(text: string)
    ensures forall i, j :: BraceSpan(text, i, j) ==>
      && IndexOf(text, '{').Some? && IndexOf(text, '{').value <= i
      && LastIndexOf(text, '}').Some? && j <= LastIndexOf(text, '}').value
  {
    forall i, j | BraceSpan(text, i, j)
      ensures IndexOf(text, '{').Some? && IndexOf(text, '{').value <= i
      ensures LastIndexOf(text, '}').Some? && j <= LastIndexOf(text, '}').value
    {
      assert '{' in text && '}' in text;
    }
  }

  /** An answer with two separate objects matches as one region. */
  lemma JsonRegionIsGreedy()
    ensures JsonRegion("{a} {b}") == Some("{a} {b}")
  {
    var t := "{a} {b}";
    assert t[0] == '{' && t[6] == '}';
    assert BraceSpan(t, 0, 6);
    var r := JsonRegion(t);
    var i, j :| BraceSpan(t, i, j) && r.value == t[i..j + 1] && '{' !in t[..i] && '}' !in t[j + 1..];
    assert t[0..7] == t;
  }

  // ---------------------------------------------------------------------------
  // The gateway operations

  /** The model's answer: its text, or a failure of the call. */
  datatype Reply = Answered(text: string) | Failed

  const InvalidFormat := "Invalid AI response format"

  /** The configured credential: the environment value, or 'demo-key' when it
      is missing or empty. */
  function ApiKey(env: Option<string>): (key: string)
    ensures key != ""
    ensures env.Some? && env.value != "" ==> key == env.value
    ensures env.None? || env.value == "" ==> key == "demo-key"
    ensures IsDemoKey(key) <==> env.None? || env.value == "" || env.value == "demo-key"
  {
    if env.Some? && env.value != "" then env.value else "demo-key"
  }

  /** No usable credential: the gateway answers from demo data without calling out. */
  predicate IsDemoKey(key: string) {
    key == "" || key == "demo-key"
  }

  /** The part of every try block up to `JSON.parse`: take the answer's text,
      extract its JSON region (throwing 'Invalid AI response format' when there is
      none) and parse it. */
  function ParseReply(reply: Reply, parse: string -> Option<JValue>): (r: Result<JValue>)
    ensures reply.Failed? ==> r.Thrown?
    ensures reply.Answered? && JsonRegion(reply.text).None? ==> r == Thrown(InvalidFormat)
    ensures r.Ok? <==> reply.Answered? && JsonRegion(reply.text).Some? && parse(JsonRegion(reply.text).value).Some?
    ensures r.Ok? ==> r.value == parse(JsonRegion(reply.text).value).value
  {
    match reply
    case Failed => Thrown("request failed")
    case Answered(text) =>
      match JsonRegion(text)
      case None => Thrown(InvalidFormat)
      case Some(region) =>
        match parse(region)
        case None => Thrown("SyntaxError")
        case Some(v) => Ok(v)
  }

  /** The validated analysis in a parsed answer, or `fallback` when the
      answer or its validation threw. */
  function AnalysisOr(answer: Result<JValue>, fallback: ValidatedAnalysis): (r: ValidatedAnalysis)
    ensures answer.Ok? && ValidateAnalysis(answer.value).Ok? ==> r == ValidateAnalysis(answer.value).value
    ensures answer.Thrown? || ValidateAnalysis(answer.value).Thrown? ==> r == fallback
    ensures AnalysisWithinBounds(fallback) ==> AnalysisWithinBounds(r)
  {
    match answer
    case Thrown(_) => fallback
    case Ok(v) =>
      match ValidateAnalysis(v)
      case Ok(a) => a
      case Thrown(_) => fallback
  }

  /** The validated proposal in a parsed answer, or `fallback`. */
  function ProposalOr(answer: Result<JValue>, fallback: ValidatedProposal): (r: ValidatedProposal)
    ensures answer.Ok? && ValidateProposal(answer.value).Ok? ==> r == ValidateProposal(answer.value).value
    ensures answer.Thrown? || ValidateProposal(answer.value).Thrown? ==> r == fallback
    ensures ProposalWithinBounds(fallback) ==> ProposalWithinBounds(r)
  {
    match answer
    case Thrown(_) => fallback
    case Ok(v) =>
      match ValidateProposal(v)
      case Ok(p) => p
      case Thrown(_) => fallback
  }

  /** `analyzeJobPost`: never throws. Without a credential, or when anything in
      the try block throws, it returns the demo analysis; otherwise the validated
      answer. Either way the result is within the validator's bounds. */
  function AnalyzeJobPost(key: string, reply: Reply, parse: string -> Option<JValue>): (r: ValidatedAnalysis)
    ensures AnalysisWithinBounds(r)
    ensures IsDemoKey(key) ==> r == LoosenAnalysis(DemoAnalysis)
    ensures !IsDemoKey(key) ==> r == AnalysisOr(ParseReply(reply, parse), LoosenAnalysis(DemoAnalysis))
  {
    DemoAnalysisShape();
    if IsDemoKey(key) then LoosenAnalysis(DemoAnalysis)
    else AnalysisOr(ParseReply(reply, parse), LoosenAnalysis(DemoAnalysis))
  }

  /** `generateProposal`: never throws; without a credential or on any failure
      it returns the demo proposal for the analysis; the result is always within
      the validator's bounds. */
  function GenerateProposal(analysis: JobAnalysis, key: string, reply: Reply, parse: string -> Option<JValue>)
    : (r: ValidatedProposal)
    ensures ProposalWithinBounds(r)
    ensures IsDemoKey(key) ==> r == LoosenProposal(DemoProposal(analysis))
    ensures !IsDemoKey(key) ==> r == ProposalOr(ParseReply(reply, parse), LoosenProposal(DemoProposal(analysis)))
  {
    if IsDemoKey(key) then LoosenProposal(DemoProposal(analysis))
    else ProposalOr(ParseReply(reply, parse), LoosenProposal(DemoProposal(analysis)))
  }

  /** What `refineProposal` returns. The reply is whatever truthy value the answer
      held under `aiResponse`, or a fixed message. */
  datatype Refinement = Refinement(updatedProposal: ValidatedProposal, aiResponse: JValue)

  const NoKeyReply :=
    "I understand you'd like to refine the proposal. In the full "
    + "version with AI integration, I would analyze your request "
    + "and update the proposal accordingly. For now, please edit "
    + "the sections manually."
  const TroubleReply :=
    "I'm having trouble processing your request right now. "
    + "Please try editing the proposal manually."
  const UpdatedReply := "I've updated your proposal based on your request."

  /** The rest of the refine try block once the answer is parsed: validating
      `parsed.updatedProposal` throws when it is missing or null, and a falsy
      `aiResponse` becomes the fixed "updated" message. */
  function RefineParsed(parsed: JValue): (r: Result<Refinement>)
    ensures r.Ok? ==> Truthy(r.value.aiResponse)
    ensures r.Thrown? <==> IsNullish(parsed) || IsNullish(Lookup(parsed, "updatedProposal"))
    ensures r.Ok? ==> ValidateProposal(Lookup(parsed, "updatedProposal")) == Ok(r.value.updatedProposal)
    ensures r.Ok? && Truthy(Lookup(parsed, "aiResponse")) ==> r.value.aiResponse == Lookup(parsed, "aiResponse")
    ensures r.Ok? && !Truthy(Lookup(parsed, "aiResponse")) ==> r.value.aiResponse == JStr(UpdatedReply)
  {
    match Get(parsed, "updatedProposal")
    case Thrown(e) => Thrown(e)
    case Ok(u) =>
      match ValidateProposal(u)
      case Thrown(e) => Thrown(e)
      case Ok(p) =>
        var ai := Lookup(parsed, "aiResponse");
        Ok(Refinement(p, if Truthy(ai) then ai else JStr(UpdatedReply)))
  }

  /** The current proposal handed back unchanged, with a fixed message. */
  function Unrefined(current: ProposalData, message: string): (r: Refinement)
    ensures TightenProposal(r.updatedProposal) == Some(current)
    ensures r.aiResponse == JStr(message)
  {
    ProposalRoundTrip(current);
    Refinement(LoosenProposal(current), JStr(message))
  }

  /** The try block of `refineProposal`: any throw, from the call, the region
      extraction, the parse or the validation, gives the current proposal back
      with the trouble message. */
  function RefineAnswer(current: ProposalData, reply: Reply, parse: string -> Option<JValue>): (r: Refinement)
    ensures Truthy(r.aiResponse)
    ensures ParseReply(reply, parse).Thrown? ==> r == Unrefined(current, TroubleReply)
    ensures ParseReply(reply, parse).Ok? && RefineParsed(ParseReply(reply, parse).value).Thrown? ==>
      r == Unrefined(current, TroubleReply)
    ensures ParseReply(reply, parse).Ok? && RefineParsed(ParseReply(reply, parse).value).Ok? ==>
      r == RefineParsed(ParseReply(reply, parse).value).value
  {
    match ParseReply(reply, parse)
    case Thrown(_) => Unrefined(current, TroubleReply)
    case Ok(v) =>
      match RefineParsed(v)
      case Ok(refined) => refined
      case Thrown(_) => Unrefined(current, TroubleReply)
  }

  /** `refineProposal`: never throws and never alters the current proposal on
      failure. Without a credential it returns the proposal with the no-key
      message, and the reply is always truthy. */
  function RefineProposal(current: ProposalData, key: string, reply: Reply, parse: string -> Option<JValue>)
    : (r: Refinement)
    ensures Truthy(r.aiResponse)
    ensures IsDemoKey(key) ==> r == Unrefined(current, NoKeyReply)
    ensures !IsDemoKey(key) ==> r == RefineAnswer(current, reply, parse)
  {
    if IsDemoKey(key) then Unrefined(current, NoKeyReply)
    else RefineAnswer(current, reply, parse)
  }

  /** Failure is non-destructive: whenever the gateway falls back, the proposal
      it returns reads back as exactly the current one. */
  lemma RefineFailureKeepsProposal(current: ProposalData, key: string, reply: Reply, parse: string -> Option<JValue>)
    requires IsDemoKey(key) || ParseReply(reply, parse).Thrown? || RefineParsed(ParseReply(reply, parse).value).Thrown?
    ensures TightenProposal(RefineProposal(current, key, reply, parse).updatedProposal) == Some(current)
  {
  }

  /** An answer without `updatedProposal` is a failure: validating `undefined`
      throws, and the current proposal comes back with the trouble message. */
  lemma RefineWithoutUpdatedProposal(current: ProposalData, key: string, reply: Reply, parse: string -> Option<JValue>)
    requires !IsDemoKey(key) && ParseReply(reply, parse).Ok?
    requires Lookup(ParseReply(reply, parse).value, "updatedProposal") == JAbsent
    ensures RefineProposal(current, key, reply, parse) == Unrefined(current, TroubleReply)
  {
  }
}
