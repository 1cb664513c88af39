/** The vote history of a user profile: a page of votes fetched for the
    checked addresses, sorted by proposal index, for Gov1 or OpenGov
    referenda, with the delegation figures of a vote fetched on demand. */
module VotesHistory {
  import opened Wrappers

  /** `EGovType`: which referendum kind the list shows. */
  datatype Gov = Gov1 | OpenGov

  /** `EHeading`: the table's column headings. */
  datatype Heading = VoteHeading | ProposalHeading | StatusHeading | ActionsHeading

  /** One vote of the list (`IVotesData`), restricted to what the logic reads
      and writes. Absent optional fields are `None`. */
  datatype Vote = Vote(
    proposalId: int,
    decision: Option<string>,
    voter: string,
    isDelegatedVote: bool,
    delegateCapital: Option<string>,
    delegatorsCount: Option<int>)

  /** A page of votes as the vote-history endpoint answers it. */
  datatype VotePage = VotePage(votes: seq<Vote>, totalCount: int)

  /** The delegation endpoint's answer: `count` delegators with `voteCapital`. */
  datatype Delegation = Delegation(count: int, voteCapital: string)

  /** The requests the list sends, with the parameters they carry. */
  datatype Request =
    | VotesRequest(orderBy: seq<string>, page: int, queryType: string, voterAddresses: seq<string>)
    | DelegationRequest(postId: int, decision: string, queryType: string, voter: string)

  /** `getOrderBy`: a one-element ordering, descending by proposal index
      unless ascending order is asked for. */
  function OrderBy(sortByPostIndex: bool): (r: seq<string>)
    ensures |r| == 1
    ensures r[0] == "proposalIndex_ASC" <==> sortByPostIndex
    ensures r[0] == "proposalIndex_DESC" <==> !sortByPostIndex
  {
    [if !sortByPostIndex then "proposalIndex_DESC" else "proposalIndex_ASC"]
  }

  /** The two orders are distinct requests. */
  lemma OrderByInjective(a: bool, b: bool)
    ensures OrderBy(a) == OrderBy(b) <==> a == b
  {
    if OrderBy(a) == OrderBy(b) {
      assert OrderBy(a)[0] == OrderBy(b)[0];
    }
  }

  /** The sort flag after `handleSortingClick(heading)`: the status and vote
      columns do not sort, any other heading flips the order. */
  function ToggledSort(heading: Heading, sortByPostIndex: bool): (r: bool)
    ensures heading == StatusHeading || heading == VoteHeading ==> r == sortByPostIndex
    ensures heading == ProposalHeading || heading == ActionsHeading ==> r == !sortByPostIndex
  {
    if heading == StatusHeading || heading == VoteHeading then sortByPostIndex else !sortByPostIndex
  }

  /** Two clicks on the same heading restore the order. */
  lemma ToggleTwice(heading: Heading, sortByPostIndex: bool)
    ensures ToggledSort(heading, ToggledSort(heading, sortByPostIndex)) == sortByPostIndex
  {
  }

  /** The referendum type sent with both queries. */
  function QueryType(gov: Gov): (r: string)
    ensures r == "ReferendumV2" <==> gov == OpenGov
    ensures r == "Referendum" <==> gov == Gov1
  {
    assert |"ReferendumV2"| != |"Referendum"|;
    match gov
    case OpenGov => "ReferendumV2"
    case Gov1 => "Referendum"
  }

  /** `filteredVote?.decision || 'yes'`. */
  function DecisionOrYes(decision: Option<string>): (r: string)
    ensures r != ""
    ensures Present(decision) ==> r == decision.value
    ensures !Present(decision) ==> r == "yes"
  {
    if Present(decision) then decision.value else "yes"
  }

  /** JavaScript truthiness of an optional number. */
  predicate CountTruthy(o: Option<int>) {
    o.Some? && o.value != 0
  }

  /** Whether `handleDelegatesAndCapital` asks for a vote's delegation: not
      when the vote already has both figures, nor when it is itself delegated. */
  predicate NeedsDelegationFetch(v: Vote) {
    !((CountTruthy(v.delegatorsCount) && Present(v.delegateCapital)) || v.isDelegatedVote)
  }

  /** A vote with the fetched delegation figures spread over it. */
  function WithFigures(v: Vote, d: Delegation): (r: Vote)
    ensures r.delegateCapital == Some(d.voteCapital) && r.delegatorsCount == Some(d.count)
    ensures r.proposalId == v.proposalId && r.decision == v.decision && r.voter == v.voter
    ensures r.isDelegatedVote == v.isDelegatedVote
  {
    v.(delegateCapital := Some(d.voteCapital), delegatorsCount := Some(d.count))
  }

  /** `votesData.map((vote, idx) => index === idx ? { ...vote, … } : vote)`,
      walked from the front with the index shifted at each step. */
  function WithDelegation(votes: seq<Vote>, index: int, d: Delegation): (r: seq<Vote>)
    ensures |r| == |votes|
    ensures forall i :: 0 <= i < |votes| && i != index ==> r[i] == votes[i]
    ensures 0 <= index < |votes| ==> r[index] == WithFigures(votes[index], d)
  {
    if votes == [] then []
    else [if index == 0 then WithFigures(votes[0], d) else votes[0]] + WithDelegation(votes[1..], index - 1, d)
  }

  /** An index outside the list changes nothing. */
  lemma WithDelegationOutside(votes: seq<Vote>, index: int, d: Delegation)
    requires index < 0 || index >= |votes|
    ensures WithDelegation(votes, index, d) == votes
  {
    var r := WithDelegation(votes, index, d);
    assert forall i :: 0 <= i < |votes| ==> r[i] == votes[i];
  }

  /** Once non-zero figures are stored, the vote needs no further fetch. */
  lemma WithDelegationSettles(votes: seq<Vote>, index: int, d: Delegation)
    requires 0 <= index < |votes|
    ensures d.count != 0 && d.voteCapital != "" ==> !NeedsDelegationFetch(WithDelegation(votes, index, d)[index])
    ensures d.count == 0 && !votes[index].isDelegatedVote ==> NeedsDelegationFetch(WithDelegation(votes, index, d)[index])
  {
  }

  /** Storing the same figures twice is storing them once. */
  lemma WithDelegationIdempotent(votes: seq<Vote>, index: int, d: Delegation)
    ensures WithDelegation(WithDelegation(votes, index, d), index, d) == WithDelegation(votes, index, d)
  {
    var once := WithDelegation(votes, index, d);
    var twice := WithDelegation(once, index, d);
    assert forall i :: 0 <= i < |votes| ==> twice[i] == once[i];
  }

  /** The list's state (`useState` hooks) and its handlers. Network answers are
      parameters; every request sent is appended to `requests`. */
  class VotesHistoryState {
    const addresses: seq<string>
    /** `null` while nothing is loaded or a load failed */
    var votesData: Option<seq<Vote>>
    var loading: bool
    var totalCount: int
    var page: int
    var delegatorsLoading: bool
    var sortByPostIndex: bool
    var checkedAddressList: seq<string>
    var openVoteDataModal: bool
    var expandViewVote: Option<Vote>
    var selectedGov: Gov
    var requests: seq<Request>

    /** The initial state: OpenGov on networks that support it, every address checked. */
    constructor (addresses: seq<string>, openGovSupported: bool)
      ensures this.addresses == addresses && checkedAddressList == addresses
      ensures selectedGov == (if openGovSupported then OpenGov else Gov1)
      ensures votesData == None && !loading && totalCount == 0 && page == 1
      ensures !delegatorsLoading && !sortByPostIndex && !openVoteDataModal && expandViewVote == None
      ensures requests == []
    {
      this.addresses := addresses;
      checkedAddressList := addresses;
      selectedGov := if openGovSupported then OpenGov else Gov1;
      votesData := None;
      loading := false;
      totalCount := 0;
      page := 1;
      delegatorsLoading := false;
      sortByPostIndex := false;
      openVoteDataModal := false;
      expandViewVote := None;
      requests := [];
    }

    /** `handleVoteHistoryData`: clear the list, ask for the page in the
        current order, kind and addresses, keep the answer when there is one
        (the list stays empty otherwise) and stop loading. */
    method HandleVoteHistoryData(answer: Option<VotePage>) returns (req: Request)
      modifies this`votesData, this`loading, this`totalCount, this`requests
      ensures req == VotesRequest(OrderBy(sortByPostIndex), page, QueryType(selectedGov), checkedAddressList)
      ensures requests == old(requests) + [req]
      ensures answer.Some? ==> votesData == Some(answer.value.votes) && totalCount == answer.value.totalCount
      ensures answer.None? ==> votesData == None && totalCount == old(totalCount)
      ensures !loading
    {
      votesData := None;
      loading := true;
      req := VotesRequest(OrderBy(sortByPostIndex), page, QueryType(selectedGov), checkedAddressList);
      requests := requests + [req];
      if answer.Some? {
        votesData := Some(answer.value.votes);
        totalCount := answer.value.totalCount;
      }
      loading := false;
    }

    /** The effect run when the page, the addresses, the order, the checked
        addresses or the kind change: with no address the list is empty and
        nothing is fetched. */
    method LoadVotes(answer: Option<VotePage>) returns (req: Option<Request>)
      modifies this`votesData, this`loading, this`totalCount, this`requests
      ensures |addresses| == 0 ==>
                req == None && votesData == Some([]) && requests == old(requests)
                && loading == old(loading) && totalCount == old(totalCount)
      ensures |addresses| > 0 ==>
                && req == Some(VotesRequest(OrderBy(sortByPostIndex), page, QueryType(selectedGov), checkedAddressList))
                && requests == old(requests) + [req.value]
                && !loading
                && (answer.Some? ==> votesData == Some(answer.value.votes) && totalCount == answer.value.totalCount)
                && (answer.None? ==> votesData == None && totalCount == old(totalCount))
    {
      if |addresses| == 0 {
        votesData := Some([]);
        return None;
      }
      var r := HandleVoteHistoryData(answer);
      req := Some(r);
    }

    /** `handleDelegatesAndCapital(index, vote)`: unless the vote needs no
        fetch, ask for its delegation; on an answer store the figures in the
        list at `index` and in the expanded vote. */
    method HandleDelegatesAndCapital(index: int, vote: Vote, answer: Option<Delegation>)
      returns (req: Option<Request>)
      modifies this`delegatorsLoading, this`votesData, this`expandViewVote, this`requests
      ensures !NeedsDelegationFetch(vote) ==> req == None && unchanged(this)
      ensures NeedsDelegationFetch(vote) ==>
                && req == Some(DelegationRequest(vote.proposalId, DecisionOrYes(vote.decision),
                                                 QueryType(selectedGov), vote.voter))
                && requests == old(requests) + [req.value]
                && !delegatorsLoading
                && (answer.Some? ==>
                      && votesData == (if old(votesData).Some?
                                       then Some(WithDelegation(old(votesData).value, index, answer.value))
                                       else None)
                      && expandViewVote == Some(WithFigures(vote, answer.value)))
                && (answer.None? ==> votesData == old(votesData) && expandViewVote == old(expandViewVote))
    {
      if !NeedsDelegationFetch(vote) {
        return None;
      }
      delegatorsLoading := true;
      var r := DelegationRequest(vote.proposalId, DecisionOrYes(vote.decision), QueryType(selectedGov), vote.voter);
      requests := requests + [r];
      req := Some(r);
      if answer.Some? {
        var d := answer.value;
        if votesData.Some? {
          votesData := Some(WithDelegation(votesData.value, index, d));
        }
        expandViewVote := Some(WithFigures(vote, d));
      }
      delegatorsLoading := false;
    }

    /** `handleExpand`: open the vote's modal on it and fetch its delegation. */
    method HandleExpand(index: int, vote: Vote, answer: Option<Delegation>) returns (req: Option<Request>)
      modifies this`openVoteDataModal, this`delegatorsLoading, this`votesData, this`expandViewVote, this`requests
      ensures openVoteDataModal
      ensures !NeedsDelegationFetch(vote) ==>
                req == None && expandViewVote == Some(vote) && votesData == old(votesData)
                && requests == old(requests) && delegatorsLoading == old(delegatorsLoading)
      ensures NeedsDelegationFetch(vote) ==>
                && req == Some(DelegationRequest(vote.proposalId, DecisionOrYes(vote.decision),
                                                 QueryType(selectedGov), vote.voter))
                && requests == old(requests) + [req.value]
                && !delegatorsLoading
                && (answer.Some? ==>
                      && votesData == (if old(votesData).Some?
                                       then Some(WithDelegation(old(votesData).value, index, answer.value))
                                       else None)
                      && expandViewVote == Some(WithFigures(vote, answer.value)))
                && (answer.None? ==> votesData == old(votesData) && expandViewVote == Some(vote))
    {
      openVoteDataModal := true;
      expandViewVote := Some(vote);
      req := HandleDelegatesAndCapital(index, vote, answer);
    }

    /** `handleSortingClick`. */
    method HandleSortingClick(heading: Heading)
      modifies this`sortByPostIndex
      ensures sortByPostIndex == ToggledSort(heading, old(sortByPostIndex))
    {
      if heading == StatusHeading || heading == VoteHeading {
        return;
      }
      sortByPostIndex := !sortByPostIndex;
    }

    /** The kind selector's two entries. */
    method SelectGov(gov: Gov)
      modifies this`selectedGov
      ensures selectedGov == gov
    {
      selectedGov := gov;
    }

    /** The address checkboxes report the checked list. */
    method SetCheckedAddressList(list: seq<string>)
      modifies this`checkedAddressList
      ensures checkedAddressList == list
    {
      checkedAddressList := list;
    }
  }
}
