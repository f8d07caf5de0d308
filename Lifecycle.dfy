/** Journeys across pages that share one browser store: what one page writes,
    another page reads back. */
module Lifecycle {
  import opened Optional
  import opened Collections
  import opened Records
  import opened Storage
  import opened ProposalViewPage
  import opened ProposalsListPage
  import opened PublicProposalPage
  import opened JobAnalyzerPage

  /** Sharing a proposal and then opening its link shows the shared proposal,
      with the freelancer details added. */
  method ShareThenVisit(view: ProposalViewPageState, visitor: PublicProposalPageState, drawn: string, now: string)
    returns (slug: string)
    requires view.store == visitor.store && view.proposal.Some?
    modifies view, visitor, view.store
    ensures slug == ShareSlug(old(view.proposal.value), drawn)
    ensures view.proposal == Some(SharedProposal(old(view.proposal.value), slug, now))
    ensures visitor.proposal == Some(PublicView(view.proposal.value, FreelancerName, FreelancerBio))
    ensures visitor.Screen() == Showing(PublicView(view.proposal.value, FreelancerName, FreelancerBio))
  {
    slug := ShareSlug(view.proposal.value, drawn);
    view.Share(drawn, now);
    visitor.Load(Some(slug));
  }

  /** Sharing twice keeps the link: the second share reuses the first slug
      and the link then shows the latest state. */
  method ShareTwice(view: ProposalViewPageState, drawn1: string, drawn2: string, now1: string, now2: string)
    returns (slug1: string, slug2: string)
    requires view.proposal.Some? && ShareSlug(view.proposal.value, drawn1) != ""
    modifies view, view.store
    ensures slug1 == slug2
    ensures view.proposal.Some? && slug2 in view.store.publicProposals && view.store.publicProposals[slug2] == view.proposal.value
  {
    slug1 := ShareSlug(view.proposal.value, drawn1);
    ShareSlugStable(view.proposal.value, drawn1, drawn2, now1);
    view.Share(drawn1, now1);
    slug2 := ShareSlug(view.proposal.value, drawn2);
    view.Share(drawn2, now2);
  }

  /** Deleting a proposal from the list does not break its public link. */
  method DeleteKeepsPublicLink(list: ProposalsListPageState, visitor: PublicProposalPageState, id: string, slug: string)
    requires list.store == visitor.store && slug in list.store.publicProposals
    modifies list, visitor, list.store
    ensures !HasKey(list.store.proposals, ProposalId, id)
    ensures visitor.proposal == Some(PublicView(old(list.store.publicProposals[slug]), FreelancerName, FreelancerBio))
  {
    list.Delete(id, true);
    visitor.Load(Some(slug));
  }

  /** A proposal generated by the analyzer opens in the proposal view as a
      draft for the route's id, with the mock content. */
  method GenerateThenOpen(analyzer: JobAnalyzerPageState, view: ProposalViewPageState, routeId: Option<string>, now: string)
    requires analyzer.store == view.store && analyzer.analysis.Some?
    requires Found(view.store.proposals, routeId).None?
    modifies analyzer, view, view.store
    ensures view.proposal == Some(FromDraft(Draft(None, None, MockProposal(old(analyzer.analysis.value))), routeId, now))
    ensures view.proposal.value.status == StatusDraft && view.proposal.value.jobTitle == DefaultJobTitle
  {
    analyzer.GenerateProposal();
    view.Load(routeId, now);
  }

  /** A saved edit is what the page shows when the proposal is opened again. */
  method EditThenReopen(view: ProposalViewPageState, now: string)
    requires view.proposal.Some? && view.editing.Some?
    modifies view, view.store
    ensures view.proposal.Some? && view.proposal.value.id == old(view.proposal.value.id)
    ensures view.proposal == Some(ApplyEdit(old(view.proposal.value), old(view.editing.value), old(view.editValue)))
  {
    view.SaveEdit();
    var id := view.proposal.value.id;
    view.Load(Some(id), now);
  }
}
