/**
 * The flow node instance repository as an object over its two tables.  The
 * write operations change the tables in place and end with the read
 * `queryByInstanceId` makes; the reads are the functions of the `Queries`
 * module applied to the current tables.
 */
module Repository {
  import opened Wrappers
  import opened Json
  import opened Rows
  import opened Tables
  import opened Conversion
  import opened Queries
  import opened Writes

  class FlowNodeInstanceRepository {
    /** `JSON.stringify` and `JSON.parse`. */
    const codec: Codec
    /** The flow node instance table, in insertion order. */
    var instances: seq<InstanceRow>
    /** The process token table, in insertion order. */
    var tokens: seq<TokenRow>

    constructor (codec: Codec, instances: seq<InstanceRow>, tokens: seq<TokenRow>)
      ensures this.codec == codec && this.instances == instances && this.tokens == tokens
    {
      this.codec := codec;
      this.instances := instances;
      this.tokens := tokens;
    }

    /**
     * Inserts a running instance built from the flow node and the token,
     * appends the token as an `onEnter` token, and reads the instance back.
     * `now` is the creation time the table assigns to the new row.
     */
    method PersistOnEnter(flowNode: FlowNode, flowNodeInstanceId: string, processToken: ProcessToken,
                          previousFlowNodeInstanceId: Option<string>, now: nat)
      returns (r: Result<FlowNodeInstance, Failure>)
      modifies this
      ensures instances == old(instances) + [EnteredRow(codec, flowNode, flowNodeInstanceId, processToken, previousFlowNodeInstanceId, now)]
      ensures tokens == old(tokens) + [NewTokenRow(codec, processToken, OnEnter)]
      ensures r == QueryByInstanceId(codec, instances, tokens, flowNodeInstanceId)
    {
      var created := EnteredRow(codec, flowNode, flowNodeInstanceId, processToken, previousFlowNodeInstanceId, now);
      instances := instances + [created];
      CreateProcessTokenForFlowNodeInstance(flowNodeInstanceId, processToken, OnEnter);
      r := QueryByInstanceId(codec, instances, tokens, flowNodeInstanceId);
    }

    /** Finishes the instance with an `onExit` token. */
    method PersistOnExit(flowNode: FlowNode, flowNodeInstanceId: string, processToken: ProcessToken)
      returns (r: Result<FlowNodeInstance, Failure>)
      modifies this
      ensures StateChanged(codec, old(instances), old(tokens), instances, tokens, r,
                           flowNode.id, flowNodeInstanceId, processToken, Finished, OnExit, None)
    {
      r := PersistOnStateChange(flowNode.id, flowNodeInstanceId, processToken, Finished, OnExit, None);
    }

    /**
     * Puts the instance in the error state with an `onExit` token and stores
     * the error's text, which `error` carries.
     */
    method PersistOnError(flowNode: FlowNode, flowNodeInstanceId: string, processToken: ProcessToken, error: Option<string>)
      returns (r: Result<FlowNodeInstance, Failure>)
      modifies this
      ensures StateChanged(codec, old(instances), old(tokens), instances, tokens, r,
                           flowNode.id, flowNodeInstanceId, processToken, Error, OnExit, error)
    {
      r := PersistOnStateChange(flowNode.id, flowNodeInstanceId, processToken, Error, OnExit, error);
    }

    /** Terminates the instance with an `onExit` token. */
    method PersistOnTerminate(flowNode: FlowNode, flowNodeInstanceId: string, processToken: ProcessToken)
      returns (r: Result<FlowNodeInstance, Failure>)
      modifies this
      ensures StateChanged(codec, old(instances), old(tokens), instances, tokens, r,
                           flowNode.id, flowNodeInstanceId, processToken, Terminated, OnExit, None)
    {
      r := PersistOnStateChange(flowNode.id, flowNodeInstanceId, processToken, Terminated, OnExit, None);
    }

    /** Suspends the instance with an `onSuspend` token. */
    method Suspend(flowNodeId: string, flowNodeInstanceId: string, processToken: ProcessToken)
      returns (r: Result<FlowNodeInstance, Failure>)
      modifies this
      ensures StateChanged(codec, old(instances), old(tokens), instances, tokens, r,
                           flowNodeId, flowNodeInstanceId, processToken, Suspended, OnSuspend, None)
    {
      r := PersistOnStateChange(flowNodeId, flowNodeInstanceId, processToken, Suspended, OnSuspend, None);
    }

    /** Sets the instance running again with an `onResume` token. */
    method Resume(flowNodeId: string, flowNodeInstanceId: string, processToken: ProcessToken)
      returns (r: Result<FlowNodeInstance, Failure>)
      modifies this
      ensures StateChanged(codec, old(instances), old(tokens), instances, tokens, r,
                           flowNodeId, flowNodeInstanceId, processToken, Running, OnResume, None)
    {
      r := PersistOnStateChange(flowNodeId, flowNodeInstanceId, processToken, Running, OnResume, None);
    }

    /**
     * Finds the first row matching both ids; without one it fails and
     * changes nothing.  Otherwise it sets the row's state, and its error when
     * one is given, saves the row, appends a token and reads the instance
     * back.  The prior state is not checked.
     */
    method PersistOnStateChange(flowNodeId: string, flowNodeInstanceId: string, token: ProcessToken,
                                newState: FlowNodeInstanceState, tokenType: ProcessTokenType, error: Option<string>)
      returns (r: Result<FlowNodeInstance, Failure>)
      modifies this
      ensures StateChanged(codec, old(instances), old(tokens), instances, tokens, r,
                           flowNodeId, flowNodeInstanceId, token, newState, tokenType, error)
    {
      var matching := MatchIndex(instances, flowNodeId, flowNodeInstanceId);
      if matching.None? {
        return Err(StateChangeError(StateChangeMessage(flowNodeInstanceId)));
      }
      var k := matching.value;
      var row := instances[k];
      row := row.(state := newState);
      if error.Some? {
        row := row.(error := error);
      }
      instances := instances[k := row];
      CreateProcessTokenForFlowNodeInstance(flowNodeInstanceId, token, tokenType);
      r := QueryByInstanceId(codec, instances, tokens, flowNodeInstanceId);
    }

    /**
     * Appends a token row of the given type.  The row is owned by the
     * token's own `flowNodeInstanceId`; the id passed in is not used.
     */
    method CreateProcessTokenForFlowNodeInstance(flowNodeInstanceId: string, token: ProcessToken, tokenType: ProcessTokenType)
      modifies this
      ensures tokens == old(tokens) + [NewTokenRow(codec, token, tokenType)]
      ensures instances == old(instances)
    {
      tokens := tokens + [NewTokenRow(codec, token, tokenType)];
    }

    /**
     * Removes the instances `queryByProcessModel` lists, and every token and
     * instance row carrying one of their ids; tokens go first.
     */
    method DeleteByProcessModelId(processModelId: string)
      modifies this
      ensures tokens == DestroyTokens(old(tokens), RemovedIds(codec, old(instances), old(tokens), processModelId))
      ensures instances == DestroyInstances(old(instances), RemovedIds(codec, old(instances), old(tokens), processModelId))
      ensures QueryByProcessModel(codec, instances, tokens, processModelId) == []
    {
      var flowNodeInstancesToRemove := QueryByProcessModel(codec, instances, tokens, processModelId);
      var flowNodeInstanceIdsToRemove := IdsOf(flowNodeInstancesToRemove);
      DeleteLeavesNoProcessModelInstance(codec, instances, tokens, processModelId);
      tokens := DestroyTokens(tokens, flowNodeInstanceIdsToRemove);
      instances := DestroyInstances(instances, flowNodeInstanceIdsToRemove);
    }

    /**
     * The tokens of the instances of one process instance that have tokens,
     * instance by instance in the query's order (newest first, ties in either
     * order) and token by token within each, every one carrying that process
     * instance's id.
     */
    method QueryProcessTokensByProcessInstanceId(processInstanceId: string) returns (processTokens: seq<ProcessToken>)
      ensures TokensListedNewestFirst(codec, processTokens, Collect(instances, tokens, ProcessTokensOptions(processInstanceId)))
      ensures forall t :: t in processTokens ==> t.processInstanceId == processInstanceId
    {
      var results := FindAll(instances, tokens, ProcessTokensOptions(processInstanceId));
      processTokens := ConvertResultTokens(codec, results);
      assert forall j :: j in results ==> j.row.processInstanceId == processInstanceId;
      ProcessTokensOfScope(codec, results, processInstanceId);
      assert multiset(results) == multiset(Collect(instances, tokens, ProcessTokensOptions(processInstanceId)))
          && IsNewestFirst(results) && processTokens == ProcessTokensOf(codec, results);
    }
  }

  /**
   * The two nested `forEach` loops of the token query: every token of every
   * result, converted with its owner, pushed in order.
   */
  method ConvertResultTokens(codec: Codec, results: seq<Joined>) returns (processTokens: seq<ProcessToken>)
    ensures processTokens == ProcessTokensOf(codec, results)
  {
    processTokens := [];
    var i := 0;
    while i < |results|
      invariant 0 <= i <= |results|
      invariant processTokens == ProcessTokensOf(codec, results[..i])
    {
      var flowNodeInstance := results[i];
      var instanceProcessTokens := flowNodeInstance.tokens;
      var k := 0;
      while k < |instanceProcessTokens|
        invariant 0 <= k <= |instanceProcessTokens|
        invariant processTokens == ProcessTokensOf(codec, results[..i])
                                   + ConvertTokens(codec, instanceProcessTokens[..k], flowNodeInstance.row)
      {
        assert instanceProcessTokens[..k + 1] == instanceProcessTokens[..k] + [instanceProcessTokens[k]];
        ConvertTokensAppend(codec, instanceProcessTokens[..k], instanceProcessTokens[k], flowNodeInstance.row);
        processTokens := processTokens + [ConvertProcessToken(codec, instanceProcessTokens[k], flowNodeInstance.row)];
        k := k + 1;
      }
      assert instanceProcessTokens[..k] == instanceProcessTokens;
      assert results[..i + 1] == results[..i] + [flowNodeInstance];
      ProcessTokensOfAppend(codec, results[..i], flowNodeInstance);
      i := i + 1;
    }
    assert results[..i] == results;
  }
}
