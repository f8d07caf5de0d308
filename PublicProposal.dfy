/** The public page behind a share link: the snapshot stored under the link's
    slug, shown with fixed freelancer details, or a not-found card. */
module PublicProposalPage {
  import opened Optional
  import opened Records
  import opened Storage

  const FreelancerName := "Alex Johnson"
  const FreelancerBio :=
    "Full-stack developer with 5+ years of experience building "
    + "scalable web applications. Specialized in React, Node.js, "
    + "and cloud technologies."

  /** A snapshot with the freelancer details the page adds. */
  datatype PublicView = PublicView(snapshot: Proposal, freelancerName: string, freelancerBio: string)

  /** What the page renders. */
  datatype Screen = Loading | NotFound | Showing(view: PublicView)

  /** The snapshot under the route's slug; a missing slug looks up the empty key. */
  function Lookup(publicProposals: map<string, Proposal>, slug: Option<string>): (r: Option<PublicView>)
    ensures r.Some? <==> slug.GetOr("") in publicProposals
    ensures r.Some? ==> r.value == PublicView(publicProposals[slug.GetOr("")], FreelancerName, FreelancerBio)
  {
    var key := slug.GetOr("");
    if key in publicProposals then Some(PublicView(publicProposals[key], FreelancerName, FreelancerBio)) else None
  }

  class PublicProposalPageState {
    const store: Store
    var proposal: Option<PublicView>
    var loading: bool

    constructor(store: Store)
      ensures this.store == store && proposal == None && loading
    {
      this.store := store;
      proposal := None;
      loading := true;
    }

    /** The effect on the slug: the snapshot under the slug is shown when there
        is one; otherwise the page keeps what it had (nothing on first load).
        Loading ends either way. */
    method Load(slug: Option<string>)
      modifies this`proposal, this`loading
      ensures Lookup(store.publicProposals, slug).Some? ==> proposal == Lookup(store.publicProposals, slug)
      ensures Lookup(store.publicProposals, slug).None? ==> proposal == old(proposal)
      ensures !loading
    {
      var found := Lookup(store.publicProposals, slug);
      if found.Some? {
        proposal := found;
      }
      loading := false;
    }

    /** The spinner while loading, the not-found card without a proposal, the
        proposal otherwise. */
    function Screen(): (s: Screen)
      reads this
      ensures s.Loading? <==> loading
      ensures s.NotFound? <==> !loading && proposal.None?
      ensures s.Showing? ==> proposal == Some(s.view)
    {
      if loading then Loading else if proposal.None? then NotFound else Showing(proposal.value)
    }
  }
}
