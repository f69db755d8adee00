/**
 * `StakingManager`: validator queries, delegation, undelegation and reward
 * claims, each one RPC call through the `Rpc` oracle.
 */
module Staking {
  import opened Options
  import opened JsonValue
  import opened Exceptions
  import opened Types
  import opened Client

  /** `get_validators`: no params; the list alias is returned as received. */
  function GetValidators(rpc: Rpc): (r: Outcome<Json>)
    ensures r == rpc(Call("getValidators", JNull, Unannotated))
  {
    rpc(Call("getValidators", JNull, Unannotated))
  }

  /** `get_validator`: an empty address fails before any RPC. */
  function GetValidator(rpc: Rpc, address: string): (r: Outcome<Json>)
    ensures address == "" ==> r == Err(Chert(ValidationError("address", "Address cannot be empty")))
    ensures address != "" ==> r == rpc(Call("getValidator", JArray([JString(address)]), Model(ValidatorModel)))
  {
    if address == "" then Err(Chert(ValidationError("address", "Address cannot be empty")))
    else rpc(Call("getValidator", JArray([JString(address)]), Model(ValidatorModel)))
  }

  /** `delegate`: the DelegationRequest's dict is sent; the delegator's address takes no part in the call. */
  function Delegate(rpc: Rpc, delegatorAddress: string, validatorAddress: string, amount: string, fee: string)
    : (r: Outcome<Json>)
    ensures ReturnsKey(r, rpc(Call("staking_delegate",
                                   JArray([DelegationRequest(validatorAddress, amount, fee).ToJson()]), NoShape)),
                       "tx_hash", StakingError("Invalid delegation response"))
  {
    ExpectKey(rpc(Call("staking_delegate", JArray([DelegationRequest(validatorAddress, amount, fee).ToJson()]), NoShape)),
              "tx_hash", StakingError("Invalid delegation response"))
  }

  /** Two delegators delegating the same amount to the same validator send the same request. */
  lemma DelegatorNotSent(rpc: Rpc, d1: string, d2: string, validatorAddress: string, amount: string, fee: string)
    ensures Delegate(rpc, d1, validatorAddress, amount, fee) == Delegate(rpc, d2, validatorAddress, amount, fee)
  {
  }

  /** `undelegate`: delegator, validator, amount and fee are sent; the result's "tx_hash" is returned. */
  function Undelegate(rpc: Rpc, delegatorAddress: string, validatorAddress: string, amount: string, fee: string)
    : (r: Outcome<Json>)
    ensures ReturnsKey(r, rpc(Call("staking_undelegate",
                                   JArray([JObject(map["delegator" := JString(delegatorAddress),
                                                       "validator" := JString(validatorAddress),
                                                       "amount" := JString(amount),
                                                       "fee" := JString(fee)])]), NoShape)),
                       "tx_hash", StakingError("Invalid undelegation response"))
  {
    var params := map["delegator" := JString(delegatorAddress), "validator" := JString(validatorAddress),
                      "amount" := JString(amount), "fee" := JString(fee)];
    ExpectKey(rpc(Call("staking_undelegate", JArray([JObject(params)]), NoShape)),
              "tx_hash", StakingError("Invalid undelegation response"))
  }

  /** `get_delegations` (a list alias, returned as received) and `get_staking_rewards`. */
  function GetDelegations(rpc: Rpc, delegatorAddress: string): (r: Outcome<Json>)
    ensures r == rpc(Call("getDelegations", JArray([JString(delegatorAddress)]), Unannotated))
  {
    rpc(Call("getDelegations", JArray([JString(delegatorAddress)]), Unannotated))
  }

  function GetStakingRewards(rpc: Rpc, delegatorAddress: string): (r: Outcome<Json>)
    ensures r == rpc(Call("getStakingRewards", JArray([JString(delegatorAddress)]), Model(StakingRewardsModel)))
  {
    rpc(Call("getStakingRewards", JArray([JString(delegatorAddress)]), Model(StakingRewardsModel)))
  }

  /** `claim_rewards`: delegator, validator and fee are sent; the result's "tx_hash" is returned. */
  function ClaimRewards(rpc: Rpc, delegatorAddress: string, validatorAddress: string, fee: string): (r: Outcome<Json>)
    ensures ReturnsKey(r, rpc(Call("staking_claimRewards",
                                   JArray([JObject(map["delegator" := JString(delegatorAddress),
                                                       "validator" := JString(validatorAddress),
                                                       "fee" := JString(fee)])]), NoShape)),
                       "tx_hash", StakingError("Invalid claim rewards response"))
  {
    var params := map["delegator" := JString(delegatorAddress), "validator" := JString(validatorAddress),
                      "fee" := JString(fee)];
    ExpectKey(rpc(Call("staking_claimRewards", JArray([JObject(params)]), NoShape)),
              "tx_hash", StakingError("Invalid claim rewards response"))
  }
}
