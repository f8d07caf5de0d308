/** The browser's `localStorage` as the application uses it: five keys, each
    holding the JSON text of one collection. The model keeps the decoded
    collections; a key that was never written reads as the empty collection,
    which is what every reader's `|| '[]'` / `|| '{}'` fallback gives. */
module Storage {
  import opened Optional
  import opened Records

  class Store {
    /** 'proposals' */
    var proposals: seq<Proposal>
    /** 'templates' */
    var templates: seq<Template>
    /** 'portfolioItems' */
    var portfolioItems: seq<PortfolioItem>
    /** 'publicProposals': public snapshots by share slug */
    var publicProposals: map<string, Proposal>
    /** 'currentProposal': the last generated, not yet saved proposal */
    var currentProposal: Option<Draft>

    /** A browser profile in which nothing has been stored yet. */
    constructor()
      ensures proposals == [] && templates == [] && portfolioItems == []
      ensures publicProposals == map[] && currentProposal == None
    {
      proposals := [];
      templates := [];
      portfolioItems := [];
      publicProposals := map[];
      currentProposal := None;
    }
  }
}
