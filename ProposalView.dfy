/** The proposal page: loading a proposal by its route id (or the unsaved
    generated one), inline editing of the title and the cover letter, the
    plain-text copy, sharing under a public slug, and the refinement chat. */
module ProposalViewPage {
  import opened Optional
  import opened Text
  import opened Json
  import opened Collections
  import opened Records
  import opened Storage
  import opened AiService

  /** The two sections that can be edited inline. */
  datatype Section = CoverLetterSection | JobTitleSection

  const DefaultJobTitle := "Full Stack Web Application Development"
  const FallbackId := "1"

  /** The stored proposal with the route's id, when there is a route id. */
  function Found(proposals: seq<Proposal>, routeId: Option<string>): (r: Option<Proposal>)
    ensures r.Some? <==> routeId.Some? && HasKey(proposals, ProposalId, routeId.value)
    ensures r.Some? ==> r.value.id == routeId.value && r.value in proposals
    ensures r.Some? ==> exists i :: 0 <= i < |proposals| && proposals[i] == r.value
                                    && forall j :: 0 <= j < i ==> proposals[j].id != routeId.value
  {
    if routeId.Some? then FindByKey(proposals, ProposalId, routeId.value) else None
  }

  /** The unsaved generated proposal shown as a draft: the blob's own `id` and
      `jobTitle` win over the route id (or "1") and the default title, because
      the blob is spread after them; status and creation time are always set. */
  function FromDraft(d: Draft, routeId: Option<string>, now: string): (p: Proposal)
    ensures p.status == StatusDraft && p.createdAt == now && p.body == d.body
    ensures p.publicSlug == None && p.chatHistory == [] && p.updatedAt == None
    ensures d.id.Some? ==> p.id == d.id.value
    ensures d.id.None? && routeId.Some? && routeId.value != "" ==> p.id == routeId.value
    ensures d.id.None? && (routeId.None? || routeId.value == "") ==> p.id == FallbackId
    ensures d.jobTitle.Some? ==> p.jobTitle == d.jobTitle.value
    ensures d.jobTitle.None? ==> p.jobTitle == DefaultJobTitle
  {
    var routeDefault := if routeId.Some? && routeId.value != "" then routeId.value else FallbackId;
    Proposal(d.id.GetOr(routeDefault), d.jobTitle.GetOr(DefaultJobTitle), d.body, StatusDraft, None, [], now, None)
  }

  /** A saved inline edit: only the edited section changes. */
  function ApplyEdit(p: Proposal, section: Section, value: string): (r: Proposal)
    ensures section == CoverLetterSection ==> r.body.coverLetter == value && r.jobTitle == p.jobTitle
    ensures section == JobTitleSection ==> r.jobTitle == value && r.body.coverLetter == p.body.coverLetter
    ensures r.body.milestones == p.body.milestones && r.body.pricing == p.body.pricing
    ensures r.body.questions == p.body.questions
    ensures r.id == p.id && r.status == p.status && r.publicSlug == p.publicSlug
    ensures r.chatHistory == p.chatHistory && r.createdAt == p.createdAt && r.updatedAt == p.updatedAt
  {
    match section
    case CoverLetterSection => p.(body := p.body.(coverLetter := value))
    case JobTitleSection => p.(jobTitle := value)
  }

  // ---------------------------------------------------------------------------
  // The plain-text copy

  /** The numbered lines: line `i` is the number `i + 1`, a dot and a space,
      and then exactly the question. */
  function Numbered(qs: seq<string>): (r: seq<string>)
    ensures |r| == |qs|
    ensures forall i :: 0 <= i < |qs| ==>
      StartsWith(r[i], NatToString(i + 1) + ". ") && EndsWith(r[i], qs[i])
      && |r[i]| == |NatToString(i + 1)| + 2 + |qs[i]|
  {
    var r := seq(|qs|, i requires 0 <= i < |qs| => NatToString(i + 1) + ". " + qs[i]);
    assert forall i :: 0 <= i < |qs| ==>
      r[i][..|NatToString(i + 1)| + 2] == NatToString(i + 1) + ". "
      && r[i][|r[i]| - |qs[i]|..] == qs[i];
    r
  }

  /** No two numbered lines are equal, even for equal questions. */
  lemma NumberedDistinct(qs: seq<string>, i: nat, j: nat)
    requires i < j < |qs|
    ensures Numbered(qs)[i] != Numbered(qs)[j]
  {
    NumberedPrefixesDiffer(i + 1, j + 1, Numbered(qs)[i], Numbered(qs)[j]);
  }

  /** One milestone's block in the copy, numbered from 1. */
  function MilestoneEntry(i: nat, m: Milestone): string {
    "\n" + NatToString(i + 1) + ". " + m.title + " (" + m.duration + ")\nDeliverables: "
      + Join(m.deliverables, ", ") + "\n"
  }

  /** One block per milestone, in order: each opens on a new line with its
      number and title, and closes with a line break. */
  function MilestoneEntries(ms: seq<Milestone>): (r: seq<string>)
    ensures |r| == |ms|
    ensures forall i :: 0 <= i < |ms| ==>
      |r[i]| > 0 && r[i][0] == '\n' && r[i][|r[i]| - 1] == '\n'
      && StartsWith(r[i][1..], NatToString(i + 1) + ". " + ms[i].title)
  {
    var r := seq(|ms|, i requires 0 <= i < |ms| => MilestoneEntry(i, ms[i]));
    assert forall i :: 0 <= i < |ms| ==>
      r[i][1..][..|NatToString(i + 1) + ". " + ms[i].title|] == NatToString(i + 1) + ". " + ms[i].title;
    r
  }

  /** No two milestone blocks are equal, even for equal milestones. */
  lemma MilestoneEntriesDistinct(ms: seq<Milestone>, i: nat, j: nat)
    requires i < j < |ms|
    ensures MilestoneEntries(ms)[i] != MilestoneEntries(ms)[j]
  {
    var r := MilestoneEntries(ms);
    var di, dj := NatToString(i + 1) + ". ", NatToString(j + 1) + ". ";
    assert StartsWith(r[i][1..], di) by {
      assert r[i][1..][..|di|] == r[i][1..][..|di + ms[i].title|][..|di|];
    }
    assert StartsWith(r[j][1..], dj) by {
      assert r[j][1..][..|dj|] == r[j][1..][..|dj + ms[j].title|][..|dj|];
    }
    NumberedPrefixesDiffer(i + 1, j + 1, r[i][1..], r[j][1..]);
  }

  function TierLines(heading: string, t: Tier): string {
    heading + ": " + t.price + "\nFeatures: " + Join(t.features, ", ")
  }

  /** The title and the cover letter, as the copy opens. */
  function CopyHead(p: Proposal): string {
    p.jobTitle + "\n\nCOVER LETTER:\n" + p.body.coverLetter
  }

  /** The milestones and pricing sections and the questions heading. */
  function CopySections(p: Proposal): string {
    "\n\nMILESTONES:\n" + Join(MilestoneEntries(p.body.milestones), "")
      + "\n\nPRICING:\n" + TierLines("Basic", p.body.pricing.basic)
      + "\n\n" + TierLines("Standard", p.body.pricing.standard)
      + "\n\n" + TierLines("Premium", p.body.pricing.premium)
      + "\n\nQUESTIONS:\n"
  }

  /** The copied text before trimming, without the template literal's leading
      line break and trailing indentation. */
  function CopyBody(p: Proposal): string {
    CopyHead(p) + CopySections(p) + Join(Numbered(p.body.questions), "\n")
  }

  /** `handleCopyProposal`'s text: the template trimmed. */
  function ProposalText(p: Proposal): (r: string)
    ensures r == [] || (!IsWhitespace(r[0]) && !IsWhitespace(r[|r| - 1]))
  {
    Trim("\n" + CopyBody(p) + "\n    ")
  }

  /** The untrimmed copy opens with the title and ends with the last numbered
      question. */
  lemma CopyBodyEnds(p: Proposal)
    requires |p.body.questions| > 0
    ensures StartsWith(CopyBody(p), CopyHead(p))
    ensures EndsWith(CopyBody(p), Numbered(p.body.questions)[|p.body.questions| - 1])
  {
    var numbered := Numbered(p.body.questions);
    var questions := Join(numbered, "\n");
    ConcatEnds(CopyHead(p), CopySections(p), questions);
    JoinEndsWithLast(numbered, "\n");
    EndsWithTransitive(CopyBody(p), questions, numbered[|numbered| - 1]);
  }

  /** Trimming removes exactly the template's leading line break and trailing
      indentation when the title starts and the last question ends with a
      visible character: the copy then opens with the title and the cover
      letter and closes with the last numbered question. */
  lemma ProposalTextExact(p: Proposal)
    requires p.jobTitle != [] && !IsWhitespace(p.jobTitle[0])
    requires |p.body.questions| > 0
    requires var q := p.body.questions[|p.body.questions| - 1]; q != [] && !IsWhitespace(q[|q| - 1])
    ensures ProposalText(p) == CopyBody(p)
    ensures StartsWith(ProposalText(p), CopyHead(p))
    ensures EndsWith(ProposalText(p),
                     NatToString(|p.body.questions|) + ". " + p.body.questions[|p.body.questions| - 1])
  {
    var qs := p.body.questions;
    var body := CopyBody(p);
    var q := qs[|qs| - 1];
    var last := Numbered(qs)[|qs| - 1];
    assert last == NatToString(|qs|) + ". " + q;
    assert last[|last| - 1] == q[|q| - 1];
    CopyBodyEnds(p);
    assert body[0] == CopyHead(p)[0] == p.jobTitle[0];
    assert body[|body| - 1] == last[|last| - 1];
    TrimTemplate(body);
  }

  /** Trimming the copy template around a body that neither starts nor ends
      with white space gives back the body. */
  lemma TrimTemplate(body: string)
    requires body != [] && !IsWhitespace(body[0]) && !IsWhitespace(body[|body| - 1])
    ensures Trim("\n" + body + "\n    ") == body
  {
    var tail := "\n    ";
    assert forall i :: 0 <= i < |tail| ==> IsWhitespace(tail[i]);
    TrimStartSkipsBlankPrefix("\n", body + tail);
    assert "\n" + body + tail == "\n" + (body + tail);
    TrimEndDropsBlankSuffix(body, tail);
  }

  /** With no line break inside any question, the questions section splits back
      into one numbered line per question, in order. */
  lemma QuestionLines(qs: seq<string>)
    requires |qs| >= 1
    requires forall i :: 0 <= i < |qs| ==> '\n' !in qs[i]
    ensures Split(Join(Numbered(qs), "\n"), '\n') == Numbered(qs)
  {
    var n := Numbered(qs);
    forall i | 0 <= i < |n|
      ensures '\n' !in n[i]
    {
      var d := NatToString(i + 1);
      assert n[i] == d + ". " + qs[i];
      assert forall k :: 0 <= k < |d| ==> d[k] != '\n';
    }
    SplitJoin(n, '\n');
  }

  // ---------------------------------------------------------------------------
  // Sharing

  /** The share slug: the proposal's own when it has a non-empty one, otherwise
      the freshly drawn one. */
  function ShareSlug(p: Proposal, drawn: string): (slug: string)
    ensures p.publicSlug.Some? && p.publicSlug.value != "" ==> slug == p.publicSlug.value
    ensures p.publicSlug.None? || p.publicSlug.value == "" ==> slug == drawn
  {
    if p.publicSlug.Some? && p.publicSlug.value != "" then p.publicSlug.value else drawn
  }

  /** The shared version: slug recorded, status 'shared', `updatedAt` stamped;
      everything else kept. */
  function SharedProposal(p: Proposal, slug: string, now: string): (r: Proposal)
    ensures r.publicSlug == Some(slug) && r.status == StatusShared && r.updatedAt == Some(now)
    ensures r.id == p.id && r.jobTitle == p.jobTitle && r.body == p.body
    ensures r.chatHistory == p.chatHistory && r.createdAt == p.createdAt
  {
    p.(publicSlug := Some(slug), status := StatusShared, updatedAt := Some(now))
  }

  /** Sharing again reuses the slug of the first share, whatever is drawn. */
  lemma ShareSlugStable(p: Proposal, drawn1: string, drawn2: string, now: string)
    requires ShareSlug(p, drawn1) != ""
    ensures ShareSlug(SharedProposal(p, ShareSlug(p, drawn1), now), drawn2) == ShareSlug(p, drawn1)
  {
  }

  /** `findIndex` then assignment: only the first stored proposal with the id is
      replaced; nothing is added when there is none. */
  function ReplaceFirst(ps: seq<Proposal>, id: string, y: Proposal): (r: seq<Proposal>)
    ensures |r| == |ps|
    ensures !HasKey(ps, ProposalId, id) ==> r == ps
    ensures HasKey(ps, ProposalId, id) ==>
      var i := FindKey(ps, ProposalId, id).value;
      r[i] == y && forall j :: 0 <= j < |ps| && j != i ==> r[j] == ps[j]
  {
    match FindKey(ps, ProposalId, id)
    case Some(i) => ps[i := y]
    case None => ps
  }

  // ---------------------------------------------------------------------------
  // The refinement chat

  /** The proposal after one chat exchange: the sections the gateway returned
      (when they read back with the declared shapes) and the two new chat lines
      appended; the identity, status, slug and dates are kept. */
  function ChatStep(p: Proposal, message: string, r: Refinement): (next: Proposal)
    ensures next.id == p.id && next.jobTitle == p.jobTitle && next.status == p.status
    ensures next.publicSlug == p.publicSlug && next.createdAt == p.createdAt && next.updatedAt == p.updatedAt
    ensures next.chatHistory == p.chatHistory + [ChatEntry(User, JStr(message)), ChatEntry(Assistant, r.aiResponse)]
    ensures TightenProposal(r.updatedProposal).Some? ==> next.body == TightenProposal(r.updatedProposal).value
    ensures TightenProposal(r.updatedProposal).None? ==> next.body == p.body
  {
    var body := TightenProposal(r.updatedProposal).GetOr(p.body);
    p.(body := body, chatHistory := p.chatHistory + [ChatEntry(User, JStr(message)), ChatEntry(Assistant, r.aiResponse)])
  }

  /** A failed refinement leaves every section of the proposal as it was and
      only appends the exchange. */
  lemma ChatFailureKeepsBody(p: Proposal, message: string, key: string, reply: Reply, parse: string -> Option<JValue>)
    requires IsDemoKey(key) || ParseReply(reply, parse).Thrown? || RefineParsed(ParseReply(reply, parse).value).Thrown?
    ensures ChatStep(p, message, RefineProposal(p.body, key, reply, parse)).body == p.body
  {
    RefineFailureKeepsProposal(p.body, key, reply, parse);
  }

  class ProposalViewPageState {
    const store: Store
    var proposal: Option<Proposal>
    var editing: Option<Section>
    var editValue: string
    var showChatBox: bool
    var chatMessage: string

    constructor(store: Store)
      ensures this.store == store
      ensures proposal == None && editing == None && editValue == "" && !showChatBox && chatMessage == ""
    {
      this.store := store;
      proposal := None;
      editing := None;
      editValue := "";
      showChatBox := false;
      chatMessage := "";
    }

    /** The effect on the route id: the stored proposal with that id; failing
        that the unsaved generated one as a draft; failing both, the page keeps
        what it showed. */
    method Load(routeId: Option<string>, now: string)
      modifies this`proposal
      ensures Found(store.proposals, routeId).Some? ==> proposal == Found(store.proposals, routeId)
      ensures Found(store.proposals, routeId).None? && store.currentProposal.Some? ==>
        proposal == Some(FromDraft(store.currentProposal.value, routeId, now))
      ensures Found(store.proposals, routeId).None? && store.currentProposal.None? ==> proposal == old(proposal)
    {
      var found := Found(store.proposals, routeId);
      if found.Some? {
        proposal := found;
      } else if store.currentProposal.Some? {
        proposal := Some(FromDraft(store.currentProposal.value, routeId, now));
      }
    }

    /** `handleEdit`. */
    method StartEdit(section: Section, value: string)
      modifies this`editing, this`editValue
      ensures editing == Some(section) && editValue == value
    {
      editing := Some(section);
      editValue := value;
    }

    /** Typing in the inline editor or the chat box. */
    method SetEditValue(value: string)
      modifies this`editValue
      ensures editValue == value
    {
      editValue := value;
    }

    method SetChatMessage(message: string)
      modifies this`chatMessage
      ensures chatMessage == message
    {
      chatMessage := message;
    }

    method ToggleChatBox()
      modifies this`showChatBox
      ensures showChatBox == !old(showChatBox)
    {
      showChatBox := !showChatBox;
    }

    /** `handleSaveEdit`: with no proposal or no open editor nothing happens;
        otherwise the edit is applied and upserted into the stored list (saving
        a draft for the first time), and the editor closes. The stored list then
        holds the edited proposal under its id, so reloading shows the edit. */
    method SaveEdit()
      modifies this`proposal, this`editing, this`editValue, store`proposals
      ensures old(proposal).None? || old(editing).None? ==>
        proposal == old(proposal) && editing == old(editing) && editValue == old(editValue)
        && store.proposals == old(store.proposals)
      ensures old(proposal).Some? && old(editing).Some? ==>
        var updated := ApplyEdit(old(proposal).value, old(editing).value, old(editValue));
        && proposal == Some(updated)
        && store.proposals == UpsertKey(old(store.proposals), ProposalId, updated.id, updated)
        && Found(store.proposals, Some(updated.id)) == Some(updated)
        && editing == None && editValue == ""
    {
      if proposal.None? || editing.None? {
        return;
      }
      var updated := ApplyEdit(proposal.value, editing.value, editValue);
      proposal := Some(updated);
      store.proposals := UpsertKey(store.proposals, ProposalId, updated.id, updated);
      UpsertThenFind(old(store.proposals), ProposalId, updated);
      editing := None;
      editValue := "";
    }

    /** `handleCancelEdit`. */
    method CancelEdit()
      modifies this`editing, this`editValue
      ensures editing == None && editValue == ""
    {
      editing := None;
      editValue := "";
    }

    /** `handleShare`: the proposal is marked shared under its slug, its snapshot
        is stored under that slug in the public map, and the first stored
        proposal with its id, if any, is replaced by it. The share URL and
        clipboard are not modelled. */
    method Share(drawn: string, now: string)
      modifies this`proposal, store`publicProposals, store`proposals
      ensures old(proposal).None? ==>
        proposal == old(proposal) && store.publicProposals == old(store.publicProposals)
        && store.proposals == old(store.proposals)
      ensures old(proposal).Some? ==>
        var slug := ShareSlug(old(proposal).value, drawn);
        var shared := SharedProposal(old(proposal).value, slug, now);
        && proposal == Some(shared)
        && store.publicProposals == old(store.publicProposals)[slug := shared]
        && store.proposals == ReplaceFirst(old(store.proposals), shared.id, shared)
    {
      if proposal.None? {
        return;
      }
      var slug := ShareSlug(proposal.value, drawn);
      var shared := SharedProposal(proposal.value, slug, now);
      proposal := Some(shared);
      store.publicProposals := store.publicProposals[slug := shared];
      store.proposals := ReplaceFirst(store.proposals, shared.id, shared);
    }

    /** `handleChatMessage`: a blank message or a missing proposal does nothing.
        Otherwise the gateway refines the proposal (it never throws), the
        exchange is appended, the stored proposals with the id are replaced (an
        unsaved draft is not added) and the message box is cleared. */
    method Chat(key: string, reply: Reply, parse: string -> Option<JValue>)
      modifies this`proposal, this`chatMessage, store`proposals
      ensures IsBlank(old(chatMessage)) || old(proposal).None? ==>
        proposal == old(proposal) && chatMessage == old(chatMessage) && store.proposals == old(store.proposals)
      ensures !IsBlank(old(chatMessage)) && old(proposal).Some? ==>
        var p := old(proposal).value;
        var next := ChatStep(p, old(chatMessage), RefineProposal(p.body, key, reply, parse));
        && proposal == Some(next)
        && store.proposals == ReplaceKey(old(store.proposals), ProposalId, p.id, next)
        && chatMessage == ""
    {
      if IsBlank(chatMessage) || proposal.None? {
        return;
      }
      var p := proposal.value;
      var refined := RefineProposal(p.body, key, reply, parse);
      var next := ChatStep(p, chatMessage, refined);
      proposal := Some(next);
      store.proposals := ReplaceKey(store.proposals, ProposalId, p.id, next);
      chatMessage := "";
    }
  }
}
