/**
 * `GovernanceManager`: proposal queries, proposal creation, voting and
 * execution, each one RPC call through the `Rpc` oracle.
 */
module Governance {
  import opened Options
  import opened JsonValue
  import opened Exceptions
  import opened Types
  import opened Client

  /** `get_proposals` (limit 10 unless given): the limit is sent only when positive; the list alias is returned as received. */
  function GetProposals(rpc: Rpc, limit: int): (r: Outcome<Json>)
    ensures limit > 0 ==>
              r == rpc(Call("governance_getProposals", JArray([JObject(map["limit" := JInt(limit)])]), Unannotated))
    ensures limit <= 0 ==> r == rpc(Call("governance_getProposals", JArray([EmptyObject]), Unannotated))
  {
    var params := if limit > 0 then map["limit" := JInt(limit)] else map[];
    rpc(Call("governance_getProposals", JArray([JObject(params)]), Unannotated))
  }

  /** Every limit that is not positive asks for the same thing. */
  lemma NonPositiveLimitsAgree(rpc: Rpc, l1: int, l2: int)
    requires l1 <= 0 && l2 <= 0
    ensures GetProposals(rpc, l1) == GetProposals(rpc, l2)
  {
  }

  /** `get_proposal`: an empty id fails before any RPC. */
  function GetProposal(rpc: Rpc, proposalId: string): (r: Outcome<Json>)
    ensures proposalId == "" ==> r == Err(Chert(ValidationError("proposal_id", "Proposal ID cannot be empty")))
    ensures proposalId != "" ==>
              r == rpc(Call("governance_getProposal", JArray([JString(proposalId)]), Model(ProposalModel)))
  {
    if proposalId == "" then Err(Chert(ValidationError("proposal_id", "Proposal ID cannot be empty")))
    else rpc(Call("governance_getProposal", JArray([JString(proposalId)]), Model(ProposalModel)))
  }

  /** The params dict of `create_proposal`. */
  function ProposalParams(title: string, description: string, proposerAddress: string, fee: string): Json
  {
    JObject(map["title" := JString(title), "description" := JString(description),
                "proposer" := JString(proposerAddress), "fee" := JString(fee)])
  }

  /**
   * `create_proposal`: title and description are required; the result's
   * "proposal_id" is returned, a GovernanceError raised when it is missing.
   */
  function CreateProposal(rpc: Rpc, title: string, description: string, proposerAddress: string, fee: string)
    : (r: Outcome<Json>)
    ensures title == "" || description == "" ==>
              r == Err(Chert(ValidationError("proposal", "Title and description are required")))
    ensures title != "" && description != "" ==>
              ReturnsKey(r, rpc(Call("governance_createProposal",
                                     JArray([ProposalParams(title, description, proposerAddress, fee)]), NoShape)),
                         "proposal_id", GovernanceError("Invalid proposal creation response"))
  {
    if title == "" || description == "" then
      Err(Chert(ValidationError("proposal", "Title and description are required")))
    else
      ExpectKey(rpc(Call("governance_createProposal",
                         JArray([ProposalParams(title, description, proposerAddress, fee)]), NoShape)),
                "proposal_id", GovernanceError("Invalid proposal creation response"))
  }

  /** `vote`: the VoteRequest's dict is sent; the voter's address takes no part in the call. */
  function Vote(rpc: Rpc, proposalId: string, voterAddress: string, option: VoteOption, fee: string)
    : (r: Outcome<Json>)
    ensures ReturnsKey(r, rpc(Call("governance_vote", JArray([VoteRequest(proposalId, option, fee).ToJson()]), NoShape)),
                       "tx_hash", GovernanceError("Invalid vote response"))
  {
    ExpectKey(rpc(Call("governance_vote", JArray([VoteRequest(proposalId, option, fee).ToJson()]), NoShape)),
              "tx_hash", GovernanceError("Invalid vote response"))
  }

  /** Two voters casting the same vote send the same request. */
  lemma VoterNotSent(rpc: Rpc, proposalId: string, v1: string, v2: string, option: VoteOption, fee: string)
    ensures Vote(rpc, proposalId, v1, option, fee) == Vote(rpc, proposalId, v2, option, fee)
  {
  }

  /** `get_proposal_votes` and `get_voter_votes`. */
  function GetProposalVotes(rpc: Rpc, proposalId: string): (r: Outcome<Json>)
    ensures r == rpc(Call("governance_getProposalVotes", JArray([JString(proposalId)]), Model(VoteTallyModel)))
  {
    rpc(Call("governance_getProposalVotes", JArray([JString(proposalId)]), Model(VoteTallyModel)))
  }

  function GetVoterVotes(rpc: Rpc, voterAddress: string): (r: Outcome<Json>)
    ensures r == rpc(Call("governance_getVoterVotes", JArray([JString(voterAddress)]), NoShape))
  {
    rpc(Call("governance_getVoterVotes", JArray([JString(voterAddress)]), NoShape))
  }

  /** `execute_proposal`: the result's "tx_hash", or a GovernanceError when it is missing. */
  function ExecuteProposal(rpc: Rpc, proposalId: string, executorAddress: string, fee: string): (r: Outcome<Json>)
    ensures ReturnsKey(r, rpc(Call("governance_executeProposal",
                                   JArray([JObject(map["proposal_id" := JString(proposalId),
                                                       "executor" := JString(executorAddress),
                                                       "fee" := JString(fee)])]), NoShape)),
                       "tx_hash", GovernanceError("Invalid proposal execution response"))
  {
    var params := map["proposal_id" := JString(proposalId), "executor" := JString(executorAddress), "fee" := JString(fee)];
    ExpectKey(rpc(Call("governance_executeProposal", JArray([JObject(params)]), NoShape)),
              "tx_hash", GovernanceError("Invalid proposal execution response"))
  }
}
