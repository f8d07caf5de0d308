/** The records the application passes around and keeps in the browser store,
    with the field types their declarations give them. The validated forms that
    come back from the AI provider, whose elements are not checked, are in
    AiService. */
module Records {
  import opened Optional
  import opened Json

  /** One proposal milestone. */
  datatype Milestone = Milestone(title: string, duration: string, deliverables: seq<string>)

  /** One pricing tier. */
  datatype Tier = Tier(price: string, features: seq<string>)

  datatype Pricing = Pricing(basic: Tier, standard: Tier, premium: Tier)

  /** The generated part of a proposal (`ProposalData`). */
  datatype ProposalData = ProposalData(
    coverLetter: string,
    milestones: seq<Milestone>,
    pricing: Pricing,
    questions: seq<string>)

  /** The structured reading of a job post (`JobAnalysis`). */
  datatype JobAnalysis = JobAnalysis(
    skills: seq<string>,
    scope: string,
    deliverables: seq<string>,
    budget: string,
    timezone: string,
    risks: seq<string>)

  datatype Role = User | Assistant

  /** One line of a proposal's refinement chat. The assistant's line holds
      whatever value the AI gateway returned as its reply. */
  datatype ChatEntry = ChatEntry(role: Role, message: JValue)

  const StatusDraft := "draft"
  const StatusShared := "shared"

  /** A saved proposal. A missing `chatHistory` reads as the empty history, which
      is how every reader treats it; `status` is kept as the string the store
      holds. */
  datatype Proposal = Proposal(
    id: string,
    jobTitle: string,
    body: ProposalData,
    status: string,
    publicSlug: Option<string>,
    chatHistory: seq<ChatEntry>,
    createdAt: string,
    updatedAt: Option<string>)

  function ProposalId(p: Proposal): string {
    p.id
  }

  /** The 'currentProposal' blob: a generated proposal not yet saved in the
      list, with the `id` and `jobTitle` it may carry. */
  datatype Draft = Draft(id: Option<string>, jobTitle: Option<string>, body: ProposalData)

  datatype Template = Template(
    id: string,
    name: string,
    coverSnippet: string,
    milestoneSnippet: string,
    createdAt: string,
    updatedAt: Option<string>)

  function TemplateId(t: Template): string {
    t.id
  }

  datatype PortfolioItem = PortfolioItem(
    id: string,
    title: string,
    techStack: string,
    resultSnippet: string,
    link: string,
    createdAt: string,
    updatedAt: Option<string>)

  function PortfolioItemId(item: PortfolioItem): string {
    item.id
  }
}
