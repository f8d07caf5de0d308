/** The proposals list page: the stored proposals with their status counts,
    status badge colours and a delete action. */
module ProposalsListPage {
  import opened Optional
  import opened Collections
  import opened Records
  import opened Storage

  predicate IsShared(p: Proposal) {
    p.status == StatusShared
  }

  predicate IsDraft(p: Proposal) {
    p.status == StatusDraft
  }

  /** The "Shared" counter: the proposals whose status is 'shared'. */
  function SharedCount(ps: seq<Proposal>): (n: nat)
    ensures n <= |ps|
    ensures n == 0 <==> forall i :: 0 <= i < |ps| ==> !IsShared(ps[i])
  {
    CountZeroIff(ps, IsShared);
    CountWhere(ps, IsShared)
  }

  /** The "Drafts" counter: the proposals whose status is 'draft'. */
  function DraftCount(ps: seq<Proposal>): (n: nat)
    ensures n <= |ps|
    ensures n == 0 <==> forall i :: 0 <= i < |ps| ==> !IsDraft(ps[i])
  {
    CountZeroIff(ps, IsDraft);
    CountWhere(ps, IsDraft)
  }

  /** A count is zero exactly when nothing is selected. */
  lemma {:induction false} CountZeroIff<T>(xs: seq<T>, keep: T -> bool)
    ensures CountWhere(xs, keep) == 0 <==> forall i :: 0 <= i < |xs| ==> !keep(xs[i])
  {
    if xs != [] {
      CountZeroIff(xs[1..], keep);
      assert forall i :: 1 <= i < |xs| ==> xs[i] == xs[1..][i - 1];
    }
  }

  /** When every stored status is 'draft' or 'shared', the two counters add up to
      the total; a proposal with any other status is counted by neither. */
  lemma CountsAddUp(ps: seq<Proposal>)
    requires forall i :: 0 <= i < |ps| ==> IsDraft(ps[i]) || IsShared(ps[i])
    ensures SharedCount(ps) + DraftCount(ps) == |ps|
  {
    CountPartition(ps, IsShared, IsDraft);
  }

  const SharedColor := "bg-green-100/70 text-green-700 border-green-200/50"
  const DraftColor := "bg-yellow-100/70 text-yellow-700 border-yellow-200/50"

  /** `getStatusColor`: green for 'shared'; every other status, not only 'draft',
      gets the yellow draft colours. */
  function StatusColor(status: string): (c: string)
    ensures c == SharedColor <==> status == StatusShared
    ensures c == DraftColor <==> status != StatusShared
  {
    if status == StatusShared then SharedColor else DraftColor
  }

  /** The "Updated" cell: the update time when there is a non-empty one, a dash
      otherwise. */
  datatype DateCell = DateOf(iso: string) | Dash

  function UpdatedCell(p: Proposal): (c: DateCell)
    ensures c.Dash? <==> p.updatedAt.None? || p.updatedAt.value == ""
    ensures c.DateOf? ==> c.iso == p.updatedAt.value
  {
    match p.updatedAt
    case Some(t) => if t != "" then DateOf(t) else Dash
    case None => Dash
  }

  class ProposalsListPageState {
    const store: Store
    var proposals: seq<Proposal>

    constructor(store: Store)
      ensures this.store == store && proposals == []
    {
      this.store := store;
      proposals := [];
    }

    /** The mount effect: the stored list as it is. */
    method Load()
      modifies this`proposals
      ensures proposals == store.proposals
    {
      proposals := store.proposals;
    }

    /** `handleDeleteProposal`: after confirmation, the proposals with the id are
        removed from the list on screen and the result is stored. Public
        snapshots are not touched, so a shared link keeps working. */
    method Delete(id: string, confirmed: bool)
      modifies this`proposals, store`proposals
      ensures !confirmed ==> proposals == old(proposals) && store.proposals == old(store.proposals)
      ensures confirmed ==> proposals == RemoveKey(old(proposals), ProposalId, id) && store.proposals == proposals
      ensures store.publicProposals == old(store.publicProposals)
    {
      if confirmed {
        var updated := RemoveKey(proposals, ProposalId, id);
        proposals := updated;
        store.proposals := updated;
      }
    }
  }
}
