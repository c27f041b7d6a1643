/**
 * The write side of the repository on values: the rows `persistOnEnter` and
 * `_createProcessTokenForFlowNodeInstance` insert, the change
 * `_persistOnStateChange` makes to the matched row, the ids
 * `deleteByProcessModelId` removes, and what a later read sees after each.
 */
module Writes {
  import opened Wrappers
  import opened Json
  import opened Rows
  import opened Tables
  import opened Conversion
  import opened Queries

  /** The instance row `persistOnEnter` creates; `now` is the creation time the table assigns. */
  function EnteredRow(codec: Codec, flowNode: FlowNode, flowNodeInstanceId: string, token: ProcessToken,
                      previousFlowNodeInstanceId: Option<string>, now: nat): (r: InstanceRow)
    ensures r.flowNodeInstanceId == flowNodeInstanceId && r.previousFlowNodeInstanceId == previousFlowNodeInstanceId
    ensures r.flowNodeId == flowNode.id && r.flowNodeType == flowNode.bpmnType && r.eventType == flowNode.eventType
    ensures r.correlationId == token.correlationId && r.processModelId == token.processModelId
    ensures r.processInstanceId == token.processInstanceId && r.parentProcessInstanceId == token.caller
    ensures r.identity == Some(codec.stringify(token.identity))
    ensures r.state == Running && r.error == None && r.createdAt == now
  {
    InstanceRow(
      flowNodeInstanceId := flowNodeInstanceId,
      flowNodeId := flowNode.id,
      flowNodeType := flowNode.bpmnType,
      eventType := flowNode.eventType,
      correlationId := token.correlationId,
      processModelId := token.processModelId,
      processInstanceId := token.processInstanceId,
      identity := Some(codec.stringify(token.identity)),
      parentProcessInstanceId := token.caller,
      state := Running,
      error := None,
      previousFlowNodeInstanceId := previousFlowNodeInstanceId,
      createdAt := now)
  }

  /**
   * The token row `_createProcessTokenForFlowNodeInstance` creates.  Its owner
   * is the token's own `flowNodeInstanceId`, not the id the caller passes.
   */
  function NewTokenRow(codec: Codec, token: ProcessToken, tokenType: ProcessTokenType): (t: TokenRow)
    ensures t.flowNodeInstanceId == token.flowNodeInstanceId && t.tokenType == tokenType
    ensures t.payload == Some(codec.stringify(token.payload)) && t.createdAt == token.createdAt
    ensures t.processInstanceId.None? && t.correlationId.None? && t.processModelId.None?
  {
    TokenRow(
      flowNodeInstanceId := token.flowNodeInstanceId,
      tokenType := tokenType,
      payload := Some(codec.stringify(token.payload)),
      createdAt := token.createdAt,
      processInstanceId := None,
      correlationId := None,
      processModelId := None)
  }

  /** With a lossless codec, a stored token's payload reads back as the payload it was given. */
  lemma NewTokenRowReadsBack(codec: Codec, token: ProcessToken, tokenType: ProcessTokenType, owner: InstanceRow)
    requires Lossless(codec)
    ensures ConvertProcessToken(codec, NewTokenRow(codec, token, tokenType), owner).payload == token.payload
  {
    assert codec.parse(codec.stringify(token.payload)) == token.payload && codec.stringify(token.payload) != "";
  }

  /** The `findOne` of a state change: both ids must match, no tokens are joined. */
  function StateChangeLookup(flowNodeId: string, flowNodeInstanceId: string): FindOptions {
    FindOptions(
      Where(flowNodeId := Some(flowNodeId), flowNodeInstanceId := Some(flowNodeInstanceId), correlationId := None, processModelId := None, processInstanceId := None, state := AnyState),
      NoTokens, TableOrder)
  }

  /** The position of the row a state change updates: the first that matches both ids. */
  function MatchIndex(instances: seq<InstanceRow>, flowNodeId: string, flowNodeInstanceId: string): (k: Option<nat>)
    ensures k.Some? ==> && k.value < |instances|
                        && instances[k.value].flowNodeId == flowNodeId
                        && instances[k.value].flowNodeInstanceId == flowNodeInstanceId
    ensures k.Some? ==> forall i :: 0 <= i < k.value
                          ==> !(instances[i].flowNodeId == flowNodeId && instances[i].flowNodeInstanceId == flowNodeInstanceId)
    ensures k.None? ==> forall x :: x in instances
                          ==> !(x.flowNodeId == flowNodeId && x.flowNodeInstanceId == flowNodeInstanceId)
  {
    var k := FindIndex(instances, [], StateChangeLookup(flowNodeId, flowNodeInstanceId));
    assert k.None? ==> forall i :: 0 <= i < |instances| ==> !Qualifies([], StateChangeLookup(flowNodeId, flowNodeInstanceId), instances[i]);
    k
  }

  /** The matched row after a state change: the new state, and the error text when one is given. */
  function ChangedRow(row: InstanceRow, newState: FlowNodeInstanceState, error: Option<string>): (r: InstanceRow)
    ensures r.state == newState
    ensures error.Some? ==> r.error == error
    ensures error.None? ==> r.error == row.error
    ensures r.(state := row.state, error := row.error) == row
  {
    row.(state := newState, error := if error.Some? then error else row.error)
  }

  function StateChangeMessage(flowNodeInstanceId: string): string {
    "flow node with instance id '" + flowNodeInstanceId + "' not found!"
  }

  /**
   * `_persistOnStateChange` took the tables from `instances`, `tokens` to
   * `instances'`, `tokens'` and returned `r`.  Without a matching row it
   * fails and changes nothing; otherwise it updates the first matching row,
   * appends one token row, and returns what `queryByInstanceId` then reads.
   */
  predicate StateChanged(codec: Codec, instances: seq<InstanceRow>, tokens: seq<TokenRow>,
                         instances': seq<InstanceRow>, tokens': seq<TokenRow>, r: Result<FlowNodeInstance, Failure>,
                         flowNodeId: string, flowNodeInstanceId: string, token: ProcessToken,
                         newState: FlowNodeInstanceState, tokenType: ProcessTokenType, error: Option<string>) {
    match MatchIndex(instances, flowNodeId, flowNodeInstanceId)
    case None =>
      && instances' == instances && tokens' == tokens
      && r == Err(StateChangeError(StateChangeMessage(flowNodeInstanceId)))
    case Some(k) =>
      && instances' == instances[k := ChangedRow(instances[k], newState, error)]
      && tokens' == tokens + [NewTokenRow(codec, token, tokenType)]
      && r == QueryByInstanceId(codec, instances', tokens', flowNodeInstanceId)
  }

  /** No two instance rows share an id. */
  predicate UniqueIds(instances: seq<InstanceRow>) {
    forall i, j :: 0 <= i < |instances| && 0 <= j < |instances| && instances[i].flowNodeInstanceId == instances[j].flowNodeInstanceId
      ==> i == j
  }

  // persistOnEnter

  /**
   * Entering a fresh instance with a token of its own reads back as a running
   * instance built from the flow node and the token, whose only token is the
   * given one as an `onEnter` token.
   */
  lemma EnterReadsBack(codec: Codec, instances: seq<InstanceRow>, tokens: seq<TokenRow>, flowNode: FlowNode,
                       flowNodeInstanceId: string, token: ProcessToken, previousFlowNodeInstanceId: Option<string>, now: nat)
    requires Lossless(codec)
    requires forall x :: x in instances ==> x.flowNodeInstanceId != flowNodeInstanceId
    requires forall t :: t in tokens ==> t.flowNodeInstanceId != flowNodeInstanceId
    requires token.flowNodeInstanceId == flowNodeInstanceId
    ensures QueryByInstanceId(codec, instances + [EnteredRow(codec, flowNode, flowNodeInstanceId, token, previousFlowNodeInstanceId, now)],
                              tokens + [NewTokenRow(codec, token, OnEnter)], flowNodeInstanceId)
         == Ok(FlowNodeInstance(
              id := flowNodeInstanceId,
              flowNodeId := flowNode.id,
              flowNodeType := flowNode.bpmnType,
              eventType := flowNode.eventType,
              correlationId := token.correlationId,
              processModelId := token.processModelId,
              processInstanceId := token.processInstanceId,
              state := Running,
              error := None,
              previousFlowNodeInstanceId := previousFlowNodeInstanceId,
              tokens := [token.(tokenType := OnEnter)]))
  {
    var row := EnteredRow(codec, flowNode, flowNodeInstanceId, token, previousFlowNodeInstanceId, now);
    var added := NewTokenRow(codec, token, OnEnter);
    ReadNewRow(codec, instances, tokens, row, added);
    assert ConvertProcessToken(codec, added, row) == token.(tokenType := OnEnter);
    assert ConvertTokens(codec, [added], row) == [token.(tokenType := OnEnter)];
  }

  /** A new row with a fresh id and one token of its own is read back with exactly that token. */
  lemma ReadNewRow(codec: Codec, instances: seq<InstanceRow>, tokens: seq<TokenRow>, row: InstanceRow, added: TokenRow)
    requires forall x :: x in instances ==> x.flowNodeInstanceId != row.flowNodeInstanceId
    requires forall t :: t in tokens ==> t.flowNodeInstanceId != row.flowNodeInstanceId
    requires added.flowNodeInstanceId == row.flowNodeInstanceId
    ensures QueryByInstanceId(codec, instances + [row], tokens + [added], row.flowNodeInstanceId)
         == Ok(ConvertFlowNodeInstance(codec, Joined(row, [added])))
  {
    var id := row.flowNodeInstanceId;
    TokensOfAppend(tokens, added, id, AnyToken);
    TokensOfNoMatch(tokens, id, AnyToken);
    assert TokensOf(tokens + [added], id, AnyToken) == [added];
    var rows := instances + [row];
    assert rows[|instances|] == row;
    assert forall i :: 0 <= i < |instances| ==> rows[i] in instances;
    QueryByInstanceIdReadsFirst(codec, rows, tokens + [added], id, |instances|);
  }

  // _persistOnStateChange

  /**
   * A state change throws its own error exactly when no row matches both
   * ids, and then neither table changes.
   */
  lemma StateChangeFailsWithoutMatch(codec: Codec, instances: seq<InstanceRow>, tokens: seq<TokenRow>,
                                     instances': seq<InstanceRow>, tokens': seq<TokenRow>, r: Result<FlowNodeInstance, Failure>,
                                     flowNodeId: string, flowNodeInstanceId: string, token: ProcessToken,
                                     newState: FlowNodeInstanceState, tokenType: ProcessTokenType, error: Option<string>)
    requires StateChanged(codec, instances, tokens, instances', tokens', r, flowNodeId, flowNodeInstanceId, token, newState, tokenType, error)
    ensures r.Err? && r.error.StateChangeError?
        <==> forall x :: x in instances ==> !(x.flowNodeId == flowNodeId && x.flowNodeInstanceId == flowNodeInstanceId)
    ensures r.Err? && r.error.StateChangeError? ==> instances' == instances && tokens' == tokens
  {
    match MatchIndex(instances, flowNodeId, flowNodeInstanceId)
    case None =>
    case Some(k) => assert instances[k] in instances;
  }

  /** A state change keeps both ids of the row it changes, so the same row matches next time. */
  lemma MatchIndexAfterChange(instances: seq<InstanceRow>, flowNodeId: string, flowNodeInstanceId: string,
                              newState: FlowNodeInstanceState, error: Option<string>, k: nat)
    requires MatchIndex(instances, flowNodeId, flowNodeInstanceId) == Some(k)
    ensures MatchIndex(instances[k := ChangedRow(instances[k], newState, error)], flowNodeId, flowNodeInstanceId) == Some(k)
  {
    var changed := instances[k := ChangedRow(instances[k], newState, error)];
    assert changed[k] in changed;
  }

  /** The tables after a successful state change. */
  lemma StateChangedAt(codec: Codec, instances: seq<InstanceRow>, tokens: seq<TokenRow>,
                       instances': seq<InstanceRow>, tokens': seq<TokenRow>, r: Result<FlowNodeInstance, Failure>,
                       flowNodeId: string, flowNodeInstanceId: string, token: ProcessToken,
                       newState: FlowNodeInstanceState, tokenType: ProcessTokenType, error: Option<string>, k: nat)
    requires StateChanged(codec, instances, tokens, instances', tokens', r, flowNodeId, flowNodeInstanceId, token, newState, tokenType, error)
    requires MatchIndex(instances, flowNodeId, flowNodeInstanceId) == Some(k)
    ensures k < |instances| && instances' == instances[k := ChangedRow(instances[k], newState, error)]
    ensures tokens' == tokens + [NewTokenRow(codec, token, tokenType)]
  {
  }

  /**
   * A successful state change gives the first matching row the new state,
   * whatever its old state was, overwrites its error only when one is
   * given, leaves every other row and column alone, and appends exactly one
   * token row.
   */
  lemma StateChangeUpdatesOneRow(codec: Codec, instances: seq<InstanceRow>, tokens: seq<TokenRow>,
                                 instances': seq<InstanceRow>, tokens': seq<TokenRow>, r: Result<FlowNodeInstance, Failure>,
                                 flowNodeId: string, flowNodeInstanceId: string, token: ProcessToken,
                                 newState: FlowNodeInstanceState, tokenType: ProcessTokenType, error: Option<string>, k: nat)
    requires StateChanged(codec, instances, tokens, instances', tokens', r, flowNodeId, flowNodeInstanceId, token, newState, tokenType, error)
    requires MatchIndex(instances, flowNodeId, flowNodeInstanceId) == Some(k)
    ensures |instances'| == |instances| && instances'[k].state == newState
    ensures instances'[k].error == (if error.Some? then error else instances[k].error)
    ensures instances'[k].(state := instances[k].state, error := instances[k].error) == instances[k]
    ensures forall i :: 0 <= i < |instances| && i != k ==> instances'[i] == instances[i]
    ensures |tokens'| == |tokens| + 1 && tokens'[..|tokens|] == tokens
    ensures tokens'[|tokens|] == NewTokenRow(codec, token, tokenType)
  {
  }

  /**
   * With unique ids and a token owned by the changed instance, the read
   * that ends a state change sees the changed row with its earlier tokens
   * followed by the new one.
   */
  lemma StateChangeResult(codec: Codec, instances: seq<InstanceRow>, tokens: seq<TokenRow>,
                          instances': seq<InstanceRow>, tokens': seq<TokenRow>, r: Result<FlowNodeInstance, Failure>,
                          flowNodeId: string, flowNodeInstanceId: string, token: ProcessToken,
                          newState: FlowNodeInstanceState, tokenType: ProcessTokenType, error: Option<string>, k: nat)
    requires UniqueIds(instances)
    requires StateChanged(codec, instances, tokens, instances', tokens', r, flowNodeId, flowNodeInstanceId, token, newState, tokenType, error)
    requires MatchIndex(instances, flowNodeId, flowNodeInstanceId) == Some(k)
    requires token.flowNodeInstanceId == flowNodeInstanceId
    ensures r == Ok(ConvertFlowNodeInstance(codec, Joined(ChangedRow(instances[k], newState, error),
                      OwnTokens(tokens, instances[k]) + [NewTokenRow(codec, token, tokenType)])))
  {
    var row' := ChangedRow(instances[k], newState, error);
    var added := NewTokenRow(codec, token, tokenType);
    StateChangedAt(codec, instances, tokens, instances', tokens', r, flowNodeId, flowNodeInstanceId, token, newState, tokenType, error, k);
    TokensOfAppend(tokens, added, flowNodeInstanceId, AnyToken);
    assert forall i :: 0 <= i < k ==> instances'[i].flowNodeInstanceId != flowNodeInstanceId;
    QueryByInstanceIdReadsFirst(codec, instances', tokens', flowNodeInstanceId, k);
  }

  /**
   * With unique ids, a lossless codec and a token owned by the changed
   * instance, the state change reads back as that instance in its new
   * state, with its earlier history followed by the given token.
   */
  lemma StateChangeReadsBack(codec: Codec, instances: seq<InstanceRow>, tokens: seq<TokenRow>,
                             instances': seq<InstanceRow>, tokens': seq<TokenRow>, r: Result<FlowNodeInstance, Failure>,
                             flowNodeId: string, flowNodeInstanceId: string, token: ProcessToken,
                             newState: FlowNodeInstanceState, tokenType: ProcessTokenType, error: Option<string>, k: nat)
    requires Lossless(codec) && UniqueIds(instances)
    requires StateChanged(codec, instances, tokens, instances', tokens', r, flowNodeId, flowNodeInstanceId, token, newState, tokenType, error)
    requires MatchIndex(instances, flowNodeId, flowNodeInstanceId) == Some(k)
    requires token.flowNodeInstanceId == flowNodeInstanceId
    ensures r.Ok? && |r.value.tokens| == |OwnTokens(tokens, instances[k])| + 1
    ensures r.value.id == flowNodeInstanceId && r.value.flowNodeId == flowNodeId && r.value.state == newState
    ensures r.value.error == (if error.Some? then error else instances[k].error)
    ensures r.value.tokens[..|r.value.tokens| - 1] == ConvertTokens(codec, OwnTokens(tokens, instances[k]), instances[k])
    ensures var last := r.value.tokens[|r.value.tokens| - 1];
            && last.flowNodeInstanceId == flowNodeInstanceId && last.tokenType == tokenType
            && last.payload == token.payload && last.createdAt == token.createdAt
  {
    StateChangeResult(codec, instances, tokens, instances', tokens', r, flowNodeId, flowNodeInstanceId, token, newState, tokenType, error, k);
    var row := instances[k];
    var row' := ChangedRow(row, newState, error);
    var history := OwnTokens(tokens, row);
    var last := ConvertProcessToken(codec, NewTokenRow(codec, token, tokenType), row');
    var ts := ConvertTokens(codec, history + [NewTokenRow(codec, token, tokenType)], row');
    assert ts == ConvertTokens(codec, history, row') + [last];
    ConvertTokensIgnoresOwnerState(codec, history, row', row);
    assert ts[..|ts| - 1] == ConvertTokens(codec, history, row);
  }

  /**
   * The token row is owned by the token's own id: when that names another
   * instance and the changed one had no tokens, the row is still changed but
   * the read that follows finds nothing.
   */
  lemma StateChangeWithForeignToken(codec: Codec, instances: seq<InstanceRow>, tokens: seq<TokenRow>,
                                    instances': seq<InstanceRow>, tokens': seq<TokenRow>, r: Result<FlowNodeInstance, Failure>,
                                    flowNodeId: string, flowNodeInstanceId: string, token: ProcessToken,
                                    newState: FlowNodeInstanceState, tokenType: ProcessTokenType, error: Option<string>, k: nat)
    requires StateChanged(codec, instances, tokens, instances', tokens', r, flowNodeId, flowNodeInstanceId, token, newState, tokenType, error)
    requires MatchIndex(instances, flowNodeId, flowNodeInstanceId) == Some(k)
    requires token.flowNodeInstanceId != flowNodeInstanceId && OwnTokens(tokens, instances[k]) == []
    ensures instances'[k].state == newState
    ensures r == Err(NotFoundError(NotFoundMessage("flowNodeInstanceId", flowNodeInstanceId)))
  {
    TokensOfAppend(tokens, NewTokenRow(codec, token, tokenType), flowNodeInstanceId, AnyToken);
  }

  /** The read of any other instance, not named by the token either, is the same before and after. */
  lemma StateChangeKeepsOtherHistories(codec: Codec, instances: seq<InstanceRow>, tokens: seq<TokenRow>,
                                       instances': seq<InstanceRow>, tokens': seq<TokenRow>, r: Result<FlowNodeInstance, Failure>,
                                       flowNodeId: string, flowNodeInstanceId: string, token: ProcessToken,
                                       newState: FlowNodeInstanceState, tokenType: ProcessTokenType, error: Option<string>,
                                       other: string)
    requires StateChanged(codec, instances, tokens, instances', tokens', r, flowNodeId, flowNodeInstanceId, token, newState, tokenType, error)
    requires other != flowNodeInstanceId && token.flowNodeInstanceId != other
    ensures QueryByInstanceId(codec, instances', tokens', other) == QueryByInstanceId(codec, instances, tokens, other)
  {
    match MatchIndex(instances, flowNodeId, flowNodeInstanceId)
    case None =>
    case Some(k) =>
      TokensOfAppend(tokens, NewTokenRow(codec, token, tokenType), other, AnyToken);
      QueryByInstanceIdFrame(codec, instances, tokens, instances', tokens', other);
  }

  /**
   * Suspending and then resuming the same instance without an error leaves
   * its row running, whatever its state was before, and appends an
   * `onSuspend` and an `onResume` token row.
   */
  lemma SuspendThenResume(codec: Codec, instances: seq<InstanceRow>, tokens: seq<TokenRow>,
                          instances1: seq<InstanceRow>, tokens1: seq<TokenRow>, r1: Result<FlowNodeInstance, Failure>,
                          instances2: seq<InstanceRow>, tokens2: seq<TokenRow>, r2: Result<FlowNodeInstance, Failure>,
                          flowNodeId: string, flowNodeInstanceId: string, suspendToken: ProcessToken, resumeToken: ProcessToken, k: nat)
    requires StateChanged(codec, instances, tokens, instances1, tokens1, r1, flowNodeId, flowNodeInstanceId, suspendToken, Suspended, OnSuspend, None)
    requires StateChanged(codec, instances1, tokens1, instances2, tokens2, r2, flowNodeId, flowNodeInstanceId, resumeToken, Running, OnResume, None)
    requires MatchIndex(instances, flowNodeId, flowNodeInstanceId) == Some(k)
    ensures instances2 == instances[k := instances[k].(state := Running)]
    ensures tokens2 == tokens + [NewTokenRow(codec, suspendToken, OnSuspend), NewTokenRow(codec, resumeToken, OnResume)]
  {
    StateChangedAt(codec, instances, tokens, instances1, tokens1, r1, flowNodeId, flowNodeInstanceId, suspendToken, Suspended, OnSuspend, None, k);
    MatchIndexAfterChange(instances, flowNodeId, flowNodeInstanceId, Suspended, None, k);
    StateChangedAt(codec, instances1, tokens1, instances2, tokens2, r2, flowNodeId, flowNodeInstanceId, resumeToken, Running, OnResume, None, k);
    var suspended := ChangedRow(instances[k], Suspended, None);
    ChangedTwice(instances[k], Suspended, Running);
    UpdateTwice(instances, k, suspended, ChangedRow(suspended, Running, None));
  }

  /** Two changes without an error leave only the second state. */
  lemma ChangedTwice(row: InstanceRow, first: FlowNodeInstanceState, second: FlowNodeInstanceState)
    ensures ChangedRow(ChangedRow(row, first, None), second, None) == row.(state := second)
  {
  }

  /** Updating one position twice keeps the second value. */
  lemma UpdateTwice(instances: seq<InstanceRow>, k: nat, a: InstanceRow, b: InstanceRow)
    requires k < |instances|
    ensures instances[k := a][k := b] == instances[k := b]
  {
  }

  // deleteByProcessModelId

  /** The ids of listed instances. */
  function IdsOf(xs: seq<FlowNodeInstance>): (ids: set<string>)
    ensures forall x :: x in xs ==> x.id in ids
    ensures forall id :: id in ids ==> exists x :: x in xs && x.id == id
  {
    set x | x in xs :: x.id
  }

  /** The ids `deleteByProcessModelId` removes: those `queryByProcessModel` lists. */
  function RemovedIds(codec: Codec, instances: seq<InstanceRow>, tokens: seq<TokenRow>, processModelId: string): set<string> {
    IdsOf(QueryByProcessModel(codec, instances, tokens, processModelId))
  }

  /**
   * The removed ids are exactly those of the process model's instances that
   * have at least one token.
   */
  lemma RemovedIdsAreTokenBearingInstances(codec: Codec, instances: seq<InstanceRow>, tokens: seq<TokenRow>, processModelId: string, id: string)
    ensures id in RemovedIds(codec, instances, tokens, processModelId)
        <==> exists x :: x in instances && x.flowNodeInstanceId == id && x.processModelId == processModelId && OwnTokens(tokens, x) != []
  {
    var listed := QueryByProcessModel(codec, instances, tokens, processModelId);
    var options := ByProcessModelOptions(processModelId);
    if id in IdsOf(listed) {
      var z :| z in listed && z.id == id;
      ListFromRows(codec, instances, tokens, options, z);
      var j: Joined :| j.row in instances && Found(tokens, options, j) && z == ConvertFlowNodeInstance(codec, j);
      assert j.row.flowNodeInstanceId == id && j.row.processModelId == processModelId && OwnTokens(tokens, j.row) != [];
    }
    if x :| x in instances && x.flowNodeInstanceId == id && x.processModelId == processModelId && OwnTokens(tokens, x) != [] {
      QueryByProcessModelListsAll(codec, instances, tokens, processModelId, x);
    }
  }

  /** After the deletion, `queryByProcessModel` lists nothing. */
  lemma DeleteLeavesNoProcessModelInstance(codec: Codec, instances: seq<InstanceRow>, tokens: seq<TokenRow>, processModelId: string)
    ensures var ids := RemovedIds(codec, instances, tokens, processModelId);
            QueryByProcessModel(codec, DestroyInstances(instances, ids), DestroyTokens(tokens, ids), processModelId) == []
  {
    var ids := RemovedIds(codec, instances, tokens, processModelId);
    var instances' := DestroyInstances(instances, ids);
    var tokens' := DestroyTokens(tokens, ids);
    var options := ByProcessModelOptions(processModelId);
    forall x | x in instances' ensures !Qualifies(tokens', options, x) {
      if x.processModelId == processModelId {
        assert OwnTokens(tokens, x) == [] by {
          if OwnTokens(tokens, x) != [] {
            QueryByProcessModelListsAll(codec, instances, tokens, processModelId, x);
          }
        }
        TokensOfNoMatch(tokens', x.flowNodeInstanceId, AnyToken);
      }
    }
    CollectNone(instances', tokens', options);
    var r := QueryByProcessModel(codec, instances', tokens', processModelId);
    var listing :| multiset(listing) == multiset([]) && IsNewestFirst(listing) && r == ConvertAll(codec, listing);
    assert |listing| == |multiset(listing)|;
  }

  /** An instance none of whose rows sharing its id belongs to the process model is kept, with its tokens. */
  lemma DeletionKeepsOtherProcessModels(codec: Codec, instances: seq<InstanceRow>, tokens: seq<TokenRow>, processModelId: string, x: InstanceRow)
    requires x in instances
    requires forall y :: y in instances && y.flowNodeInstanceId == x.flowNodeInstanceId ==> y.processModelId != processModelId
    ensures var ids := RemovedIds(codec, instances, tokens, processModelId);
            && x in DestroyInstances(instances, ids)
            && forall t :: t in tokens && t.flowNodeInstanceId == x.flowNodeInstanceId ==> t in DestroyTokens(tokens, ids)
  {
    forall z | z in QueryByProcessModel(codec, instances, tokens, processModelId) ensures z.id != x.flowNodeInstanceId {
      ListFromRows(codec, instances, tokens, ByProcessModelOptions(processModelId), z);
    }
  }

  /** Every instance `queryByProcessModel` lists has tokens in the token table. */
  lemma ListedByProcessModelHasTokens(codec: Codec, instances: seq<InstanceRow>, tokens: seq<TokenRow>, processModelId: string, z: FlowNodeInstance)
    requires z in QueryByProcessModel(codec, instances, tokens, processModelId)
    ensures TokensOf(tokens, z.id, AnyToken) != []
  {
    var options := ByProcessModelOptions(processModelId);
    ListFromRows(codec, instances, tokens, options, z);
    var j: Joined :| j.row in instances && Found(tokens, options, j) && z == ConvertFlowNodeInstance(codec, j);
  }

  /** An instance without tokens is not listed by `queryByProcessModel`, so the deletion keeps it. */
  lemma DeletionKeepsInstancesWithoutTokens(codec: Codec, instances: seq<InstanceRow>, tokens: seq<TokenRow>, processModelId: string, x: InstanceRow)
    requires x in instances && OwnTokens(tokens, x) == []
    ensures x in DestroyInstances(instances, RemovedIds(codec, instances, tokens, processModelId))
  {
    forall z | z in QueryByProcessModel(codec, instances, tokens, processModelId) ensures z.id != x.flowNodeInstanceId {
      ListedByProcessModelHasTokens(codec, instances, tokens, processModelId, z);
    }
  }
}
