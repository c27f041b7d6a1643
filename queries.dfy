/**
 * The read operations of the flow node instance repository, as functions of
 * the two tables.  Each one is a `findAll` or `findOne` with the options the
 * repository passes, followed by the conversion to runtime objects.
 */
module Queries {
  import opened Wrappers
  import opened Json
  import opened Rows
  import opened Tables
  import opened Conversion

  const ActiveStates: set<FlowNodeInstanceState> := {Suspended, Running}

  /**
   * `r` lists the runtime forms of `matches` in some order that puts newer
   * instances first; the order among instances created at the same time is
   * left open, as the database leaves it.
   */
  ghost predicate ListedNewestFirst(codec: Codec, r: seq<FlowNodeInstance>, matches: seq<Joined>) {
    exists listing :: multiset(listing) == multiset(matches) && IsNewestFirst(listing) && r == ConvertAll(codec, listing)
  }

  /** The instance's tokens, as `include` attaches them. */
  function OwnTokens(tokens: seq<TokenRow>, row: InstanceRow): seq<TokenRow> {
    TokensOf(tokens, row.flowNodeInstanceId, AnyToken)
  }

  function NotFoundMessage(what: string, id: string): string {
    "FlowNodeInstance with " + what + " \"" + id + "\" does not exist."
  }

  /**
   * `findAll(options)` followed by the conversion: every result passes the
   * `where`, has tokens when the `include` is required, and a call without
   * `order` lists the qualifying rows in table order, while an ordered call
   * lists them newest first.
   */
  function List(codec: Codec, instances: seq<InstanceRow>, tokens: seq<TokenRow>, options: FindOptions)
    : (r: seq<FlowNodeInstance>)
    ensures options.where.flowNodeId.Some? ==> forall i :: 0 <= i < |r| ==> r[i].flowNodeId == options.where.flowNodeId.value
    ensures options.where.flowNodeInstanceId.Some? ==> forall i :: 0 <= i < |r| ==> r[i].id == options.where.flowNodeInstanceId.value
    ensures options.where.correlationId.Some? ==> forall i :: 0 <= i < |r| ==> r[i].correlationId == options.where.correlationId.value
    ensures options.where.processModelId.Some? ==> forall i :: 0 <= i < |r| ==> r[i].processModelId == options.where.processModelId.value
    ensures options.where.processInstanceId.Some? ==> forall i :: 0 <= i < |r| ==> r[i].processInstanceId == options.where.processInstanceId.value
    ensures options.where.state.StateIs? ==> forall i :: 0 <= i < |r| ==> r[i].state == options.where.state.only
    ensures options.where.state.StateIn? ==> forall i :: 0 <= i < |r| ==> r[i].state in options.where.state.among
    ensures options.join.Tokens? && options.join.required ==> forall i :: 0 <= i < |r| ==> r[i].tokens != []
    ensures options.order == TableOrder ==> r == ConvertAll(codec, Collect(instances, tokens, options))
    ensures options.order == NewestFirst ==> ListedNewestFirst(codec, r, Collect(instances, tokens, options))
  {
    var found := FindAll(instances, tokens, options);
    var r := ConvertAll(codec, found);
    assert forall i :: 0 <= i < |found| ==> Found(tokens, options, found[i]) by {
      forall i | 0 <= i < |found| ensures Found(tokens, options, found[i]) {
        assert found[i] in found;
      }
    }
    assert options.order == NewestFirst
      ==> multiset(found) == multiset(Collect(instances, tokens, options)) && IsNewestFirst(found) && r == ConvertAll(codec, found);
    r
  }

  /** Every qualifying row is listed, joined with the tokens the `include` attaches to it. */
  lemma ListIncludes(codec: Codec, instances: seq<InstanceRow>, tokens: seq<TokenRow>, options: FindOptions, x: InstanceRow)
    requires x in instances && Qualifies(tokens, options, x)
    ensures ConvertFlowNodeInstance(codec, Joined(x, Attached(tokens, x, options.join))) in List(codec, instances, tokens, options)
  {
    var j := Joined(x, Attached(tokens, x, options.join));
    assert Found(tokens, options, j);
    assert j in FindAll(instances, tokens, options);
  }

  /** Every listed instance is the runtime form of a qualifying row with its attached tokens. */
  lemma ListFromRows(codec: Codec, instances: seq<InstanceRow>, tokens: seq<TokenRow>, options: FindOptions, x: FlowNodeInstance)
    requires x in List(codec, instances, tokens, options)
    ensures exists j: Joined :: j.row in instances && Found(tokens, options, j) && x == ConvertFlowNodeInstance(codec, j)
  {
    var found := FindAll(instances, tokens, options);
    var i :| 0 <= i < |found| && ConvertAll(codec, found)[i] == x;
    assert found[i] in found;
  }

  // querySpecificFlowNode

  function SpecificFlowNodeOptions(correlationId: string, processModelId: string, flowNodeId: string): FindOptions {
    FindOptions(
      Where(flowNodeId := Some(flowNodeId), flowNodeInstanceId := None, correlationId := Some(correlationId), processModelId := Some(processModelId), processInstanceId := None, state := AnyState),
      Tokens(TokenWhere(None, None, None), true), TableOrder)
  }

  function QuerySpecificFlowNode(codec: Codec, instances: seq<InstanceRow>, tokens: seq<TokenRow>,
                                 correlationId: string, processModelId: string, flowNodeId: string)
    : (r: Result<FlowNodeInstance, Failure>)
    ensures r.Ok? ==> && r.value.correlationId == correlationId && r.value.processModelId == processModelId
                      && r.value.flowNodeId == flowNodeId && r.value.tokens != []
    ensures r.Ok? <==> exists x :: x in instances && x.correlationId == correlationId && x.processModelId == processModelId
                                   && x.flowNodeId == flowNodeId && OwnTokens(tokens, x) != []
    ensures r.Ok? ==> exists x :: && x in instances && x.correlationId == correlationId && x.processModelId == processModelId
                                  && x.flowNodeId == flowNodeId && r.value == ConvertFlowNodeInstance(codec, Joined(x, OwnTokens(tokens, x)))
    ensures r.Err? ==> r.error == NotFoundError(NotFoundMessage("flowNodeId", flowNodeId))
  {
    match FindOne(instances, tokens, SpecificFlowNodeOptions(correlationId, processModelId, flowNodeId))
    case None => Err(NotFoundError(NotFoundMessage("flowNodeId", flowNodeId)))
    case Some(j) => Ok(ConvertFlowNodeInstance(codec, j))
  }

  /**
   * When row `k` is the first with the three columns that has a token, the
   * query reads that row with all its tokens.
   */
  lemma QuerySpecificFlowNodeReadsFirst(codec: Codec, instances: seq<InstanceRow>, tokens: seq<TokenRow>,
                                        correlationId: string, processModelId: string, flowNodeId: string, k: nat)
    requires k < |instances|
    requires && instances[k].correlationId == correlationId && instances[k].processModelId == processModelId
             && instances[k].flowNodeId == flowNodeId && OwnTokens(tokens, instances[k]) != []
    requires forall i :: 0 <= i < k ==> !(&& instances[i].correlationId == correlationId && instances[i].processModelId == processModelId
                                          && instances[i].flowNodeId == flowNodeId && OwnTokens(tokens, instances[i]) != [])
    ensures QuerySpecificFlowNode(codec, instances, tokens, correlationId, processModelId, flowNodeId)
         == Ok(ConvertFlowNodeInstance(codec, Joined(instances[k], OwnTokens(tokens, instances[k]))))
  {
    var options := SpecificFlowNodeOptions(correlationId, processModelId, flowNodeId);
    assert FindIndex(instances, tokens, options) == Some(k) by {
      assert Qualifies(tokens, options, instances[k]);
    }
  }

  // queryByFlowNodeId

  function ByFlowNodeIdOptions(flowNodeId: string): FindOptions {
    FindOptions(Where(flowNodeId := Some(flowNodeId), flowNodeInstanceId := None, correlationId := None, processModelId := None, processInstanceId := None, state := AnyState), Tokens(TokenWhere(None, None, None), false), NewestFirst)
  }

  function QueryByFlowNodeId(codec: Codec, instances: seq<InstanceRow>, tokens: seq<TokenRow>, flowNodeId: string)
    : (r: seq<FlowNodeInstance>)
    ensures forall i :: 0 <= i < |r| ==> r[i].flowNodeId == flowNodeId
    ensures ListedNewestFirst(codec, r, Collect(instances, tokens, ByFlowNodeIdOptions(flowNodeId)))
  {
    List(codec, instances, tokens, ByFlowNodeIdOptions(flowNodeId))
  }

  /** A left join: an instance of the flow node is listed even when it has no tokens. */
  lemma QueryByFlowNodeIdListsAll(codec: Codec, instances: seq<InstanceRow>, tokens: seq<TokenRow>, flowNodeId: string, x: InstanceRow)
    requires x in instances && x.flowNodeId == flowNodeId
    ensures ConvertFlowNodeInstance(codec, Joined(x, OwnTokens(tokens, x))) in QueryByFlowNodeId(codec, instances, tokens, flowNodeId)
  {
    ListIncludes(codec, instances, tokens, ByFlowNodeIdOptions(flowNodeId), x);
  }

  // queryByInstanceId

  function ByInstanceIdOptions(flowNodeInstanceId: string): FindOptions {
    FindOptions(Where(flowNodeId := None, flowNodeInstanceId := Some(flowNodeInstanceId), correlationId := None, processModelId := None, processInstanceId := None, state := AnyState), Tokens(TokenWhere(None, None, None), true), TableOrder)
  }

  function QueryByInstanceId(codec: Codec, instances: seq<InstanceRow>, tokens: seq<TokenRow>, flowNodeInstanceId: string)
    : (r: Result<FlowNodeInstance, Failure>)
    ensures r.Ok? ==> r.value.id == flowNodeInstanceId && r.value.tokens != []
    ensures r.Err? ==> r.error == NotFoundError(NotFoundMessage("flowNodeInstanceId", flowNodeInstanceId))
  {
    match FindOne(instances, tokens, ByInstanceIdOptions(flowNodeInstanceId))
    case None => Err(NotFoundError(NotFoundMessage("flowNodeInstanceId", flowNodeInstanceId)))
    case Some(j) => Ok(ConvertFlowNodeInstance(codec, j))
  }

  /** Without a row of that id, or without a token it owns (the inner join), the query fails. */
  lemma QueryByInstanceIdNotFound(codec: Codec, instances: seq<InstanceRow>, tokens: seq<TokenRow>, flowNodeInstanceId: string)
    requires (forall x :: x in instances ==> x.flowNodeInstanceId != flowNodeInstanceId)
          || TokensOf(tokens, flowNodeInstanceId, AnyToken) == []
    ensures QueryByInstanceId(codec, instances, tokens, flowNodeInstanceId)
         == Err(NotFoundError(NotFoundMessage("flowNodeInstanceId", flowNodeInstanceId)))
  {
    var options := ByInstanceIdOptions(flowNodeInstanceId);
    match FindOne(instances, tokens, options)
    case None =>
    case Some(j) => assert Qualifies(tokens, options, j.row);
  }

  /** When row `k` is the first with the id and the id owns tokens, the query reads that row with them. */
  lemma QueryByInstanceIdReadsFirst(codec: Codec, instances: seq<InstanceRow>, tokens: seq<TokenRow>, flowNodeInstanceId: string, k: nat)
    requires k < |instances| && instances[k].flowNodeInstanceId == flowNodeInstanceId
    requires forall i :: 0 <= i < k ==> instances[i].flowNodeInstanceId != flowNodeInstanceId
    requires TokensOf(tokens, flowNodeInstanceId, AnyToken) != []
    ensures QueryByInstanceId(codec, instances, tokens, flowNodeInstanceId)
         == Ok(ConvertFlowNodeInstance(codec, Joined(instances[k], TokensOf(tokens, flowNodeInstanceId, AnyToken))))
  {
    var found := FindIndex(instances, tokens, ByInstanceIdOptions(flowNodeInstanceId));
    assert found == Some(k) by {
      assert Qualifies(tokens, ByInstanceIdOptions(flowNodeInstanceId), instances[k]);
    }
    assert FindOne(instances, tokens, ByInstanceIdOptions(flowNodeInstanceId))
        == Some(Joined(instances[k], TokensOf(tokens, flowNodeInstanceId, AnyToken)));
  }

  /** The query reads only the rows with the id and the tokens it owns. */
  lemma QueryByInstanceIdFrame(codec: Codec, instances: seq<InstanceRow>, tokens: seq<TokenRow>,
                               instances': seq<InstanceRow>, tokens': seq<TokenRow>, flowNodeInstanceId: string)
    requires |instances'| == |instances|
    requires forall i :: 0 <= i < |instances| && (instances[i].flowNodeInstanceId == flowNodeInstanceId || instances'[i].flowNodeInstanceId == flowNodeInstanceId)
               ==> instances'[i] == instances[i]
    requires TokensOf(tokens', flowNodeInstanceId, AnyToken) == TokensOf(tokens, flowNodeInstanceId, AnyToken)
    ensures QueryByInstanceId(codec, instances', tokens', flowNodeInstanceId) == QueryByInstanceId(codec, instances, tokens, flowNodeInstanceId)
  {
    FindIndexAgree(instances, tokens, instances', tokens', ByInstanceIdOptions(flowNodeInstanceId));
  }

  // queryActive

  function ActiveOptions(): FindOptions {
    FindOptions(
      Where(flowNodeId := None, flowNodeInstanceId := None, correlationId := None, processModelId := None, processInstanceId := None, state := StateIn(ActiveStates)),
      Tokens(TokenWhere(None, None, None), false), TableOrder)
  }

  function QueryActive(codec: Codec, instances: seq<InstanceRow>, tokens: seq<TokenRow>)
    : (r: seq<FlowNodeInstance>)
    ensures forall i :: 0 <= i < |r| ==> r[i].state in ActiveStates
    ensures r == ConvertAll(codec, Collect(instances, tokens, ActiveOptions()))
  {
    List(codec, instances, tokens, ActiveOptions())
  }

  /** A left join: an active instance is listed even when it has no tokens. */
  lemma QueryActiveListsAll(codec: Codec, instances: seq<InstanceRow>, tokens: seq<TokenRow>, x: InstanceRow)
    requires x in instances && x.state in ActiveStates
    ensures ConvertFlowNodeInstance(codec, Joined(x, OwnTokens(tokens, x))) in QueryActive(codec, instances, tokens)
  {
    ListIncludes(codec, instances, tokens, ActiveOptions(), x);
  }

  // queryActiveByProcessInstance

  function ActiveByProcessInstanceOptions(processInstanceId: string): FindOptions {
    FindOptions(
      Where(flowNodeId := None, flowNodeInstanceId := None, correlationId := None, processModelId := None, processInstanceId := None, state := StateIn(ActiveStates)),
      Tokens(TokenWhere(correlationId := None, processModelId := None, processInstanceId := Some(processInstanceId)), true), TableOrder)
  }

  function QueryActiveByProcessInstance(codec: Codec, instances: seq<InstanceRow>, tokens: seq<TokenRow>, processInstanceId: string)
    : (r: seq<FlowNodeInstance>)
    ensures forall i :: 0 <= i < |r| ==> r[i].state in ActiveStates && r[i].tokens != []
    ensures r == ConvertAll(codec, Collect(instances, tokens, ActiveByProcessInstanceOptions(processInstanceId)))
  {
    List(codec, instances, tokens, ActiveByProcessInstanceOptions(processInstanceId))
  }

  /** The filter is on the token rows: an active instance is listed, with its tokens of the process instance, when it has one. */
  lemma QueryActiveByProcessInstanceListsAll(codec: Codec, instances: seq<InstanceRow>, tokens: seq<TokenRow>, processInstanceId: string, x: InstanceRow)
    requires x in instances && x.state in ActiveStates && TokensOf(tokens, x.flowNodeInstanceId, TokenWhere(correlationId := None, processModelId := None, processInstanceId := Some(processInstanceId))) != []
    ensures ConvertFlowNodeInstance(codec, Joined(x, TokensOf(tokens, x.flowNodeInstanceId, TokenWhere(correlationId := None, processModelId := None, processInstanceId := Some(processInstanceId))))) in QueryActiveByProcessInstance(codec, instances, tokens, processInstanceId)
  {
    ListIncludes(codec, instances, tokens, ActiveByProcessInstanceOptions(processInstanceId), x);
  }

  // queryActiveByCorrelationAndProcessModel

  function ActiveByCorrelationAndProcessModelOptions(correlationId: string, processModelId: string): FindOptions {
    FindOptions(
      Where(flowNodeId := None, flowNodeInstanceId := None, correlationId := None, processModelId := None, processInstanceId := None, state := StateIn(ActiveStates)),
      Tokens(TokenWhere(correlationId := Some(correlationId), processModelId := Some(processModelId), processInstanceId := None), true), TableOrder)
  }

  function QueryActiveByCorrelationAndProcessModel(codec: Codec, instances: seq<InstanceRow>, tokens: seq<TokenRow>, correlationId: string, processModelId: string)
    : (r: seq<FlowNodeInstance>)
    ensures forall i :: 0 <= i < |r| ==> r[i].state in ActiveStates && r[i].tokens != []
    ensures r == ConvertAll(codec, Collect(instances, tokens, ActiveByCorrelationAndProcessModelOptions(correlationId, processModelId)))
  {
    List(codec, instances, tokens, ActiveByCorrelationAndProcessModelOptions(correlationId, processModelId))
  }

  /** The filter is on the token rows: an active instance is listed, with its tokens of the correlation and process model, when it has one. */
  lemma QueryActiveByCorrelationAndProcessModelListsAll(codec: Codec, instances: seq<InstanceRow>, tokens: seq<TokenRow>, correlationId: string, processModelId: string, x: InstanceRow)
    requires x in instances && x.state in ActiveStates && TokensOf(tokens, x.flowNodeInstanceId, TokenWhere(correlationId := Some(correlationId), processModelId := Some(processModelId), processInstanceId := None)) != []
    ensures ConvertFlowNodeInstance(codec, Joined(x, TokensOf(tokens, x.flowNodeInstanceId, TokenWhere(correlationId := Some(correlationId), processModelId := Some(processModelId), processInstanceId := None)))) in QueryActiveByCorrelationAndProcessModel(codec, instances, tokens, correlationId, processModelId)
  {
    ListIncludes(codec, instances, tokens, ActiveByCorrelationAndProcessModelOptions(correlationId, processModelId), x);
  }

  // queryByState

  function ByStateOptions(state: FlowNodeInstanceState): FindOptions {
    FindOptions(
      Where(flowNodeId := None, flowNodeInstanceId := None, correlationId := None, processModelId := None, processInstanceId := None, state := StateIs(state)),
      Tokens(TokenWhere(None, None, None), true), NewestFirst)
  }

  function QueryByState(codec: Codec, instances: seq<InstanceRow>, tokens: seq<TokenRow>, state: FlowNodeInstanceState)
    : (r: seq<FlowNodeInstance>)
    ensures forall i :: 0 <= i < |r| ==> r[i].state == state && r[i].tokens != []
    ensures ListedNewestFirst(codec, r, Collect(instances, tokens, ByStateOptions(state)))
  {
    List(codec, instances, tokens, ByStateOptions(state))
  }

  /** Every instance in the state that has a token is listed. */
  lemma QueryByStateListsAll(codec: Codec, instances: seq<InstanceRow>, tokens: seq<TokenRow>, state: FlowNodeInstanceState, x: InstanceRow)
    requires x in instances && x.state == state && OwnTokens(tokens, x) != []
    ensures ConvertFlowNodeInstance(codec, Joined(x, OwnTokens(tokens, x))) in QueryByState(codec, instances, tokens, state)
  {
    ListIncludes(codec, instances, tokens, ByStateOptions(state), x);
  }

  // queryByCorrelation

  function ByCorrelationOptions(correlationId: string): FindOptions {
    FindOptions(
      Where(flowNodeId := None, flowNodeInstanceId := None, correlationId := Some(correlationId), processModelId := None, processInstanceId := None, state := AnyState),
      Tokens(TokenWhere(None, None, None), true), NewestFirst)
  }

  function QueryByCorrelation(codec: Codec, instances: seq<InstanceRow>, tokens: seq<TokenRow>, correlationId: string)
    : (r: seq<FlowNodeInstance>)
    ensures forall i :: 0 <= i < |r| ==> r[i].correlationId == correlationId && r[i].tokens != []
    ensures ListedNewestFirst(codec, r, Collect(instances, tokens, ByCorrelationOptions(correlationId)))
  {
    List(codec, instances, tokens, ByCorrelationOptions(correlationId))
  }

  /** Every instance of the correlation that has a token is listed. */
  lemma QueryByCorrelationListsAll(codec: Codec, instances: seq<InstanceRow>, tokens: seq<TokenRow>, correlationId: string, x: InstanceRow)
    requires x in instances && x.correlationId == correlationId && OwnTokens(tokens, x) != []
    ensures ConvertFlowNodeInstance(codec, Joined(x, OwnTokens(tokens, x))) in QueryByCorrelation(codec, instances, tokens, correlationId)
  {
    ListIncludes(codec, instances, tokens, ByCorrelationOptions(correlationId), x);
  }

  // queryByProcessModel

  function ByProcessModelOptions(processModelId: string): FindOptions {
    FindOptions(
      Where(flowNodeId := None, flowNodeInstanceId := None, correlationId := None, processModelId := Some(processModelId), processInstanceId := None, state := AnyState),
      Tokens(TokenWhere(None, None, None), true), NewestFirst)
  }

  function QueryByProcessModel(codec: Codec, instances: seq<InstanceRow>, tokens: seq<TokenRow>, processModelId: string)
    : (r: seq<FlowNodeInstance>)
    ensures forall i :: 0 <= i < |r| ==> r[i].processModelId == processModelId && r[i].tokens != []
    ensures ListedNewestFirst(codec, r, Collect(instances, tokens, ByProcessModelOptions(processModelId)))
  {
    List(codec, instances, tokens, ByProcessModelOptions(processModelId))
  }

  /** Every instance of the process model that has a token is listed. */
  lemma QueryByProcessModelListsAll(codec: Codec, instances: seq<InstanceRow>, tokens: seq<TokenRow>, processModelId: string, x: InstanceRow)
    requires x in instances && x.processModelId == processModelId && OwnTokens(tokens, x) != []
    ensures ConvertFlowNodeInstance(codec, Joined(x, OwnTokens(tokens, x))) in QueryByProcessModel(codec, instances, tokens, processModelId)
  {
    ListIncludes(codec, instances, tokens, ByProcessModelOptions(processModelId), x);
  }

  // queryByCorrelationAndProcessModel

  function ByCorrelationAndProcessModelOptions(correlationId: string, processModelId: string): FindOptions {
    FindOptions(
      Where(flowNodeId := None, flowNodeInstanceId := None, correlationId := Some(correlationId), processModelId := Some(processModelId), processInstanceId := None, state := AnyState),
      Tokens(TokenWhere(None, None, None), true), TableOrder)
  }

  function QueryByCorrelationAndProcessModel(codec: Codec, instances: seq<InstanceRow>, tokens: seq<TokenRow>, correlationId: string, processModelId: string)
    : (r: seq<FlowNodeInstance>)
    ensures forall i :: 0 <= i < |r| ==> r[i].correlationId == correlationId && r[i].processModelId == processModelId && r[i].tokens != []
    ensures r == ConvertAll(codec, Collect(instances, tokens, ByCorrelationAndProcessModelOptions(correlationId, processModelId)))
  {
    List(codec, instances, tokens, ByCorrelationAndProcessModelOptions(correlationId, processModelId))
  }

  /** Every instance of the correlation and process model that has a token is listed. */
  lemma QueryByCorrelationAndProcessModelListsAll(codec: Codec, instances: seq<InstanceRow>, tokens: seq<TokenRow>, correlationId: string, processModelId: string, x: InstanceRow)
    requires x in instances && x.correlationId == correlationId && x.processModelId == processModelId && OwnTokens(tokens, x) != []
    ensures ConvertFlowNodeInstance(codec, Joined(x, OwnTokens(tokens, x))) in QueryByCorrelationAndProcessModel(codec, instances, tokens, correlationId, processModelId)
  {
    ListIncludes(codec, instances, tokens, ByCorrelationAndProcessModelOptions(correlationId, processModelId), x);
  }

  // querySuspendedByCorrelation

  function SuspendedByCorrelationOptions(correlationId: string): FindOptions {
    FindOptions(
      Where(flowNodeId := None, flowNodeInstanceId := None, correlationId := Some(correlationId), processModelId := None, processInstanceId := None, state := StateIs(Suspended)),
      Tokens(TokenWhere(None, None, None), true), NewestFirst)
  }

  function QuerySuspendedByCorrelation(codec: Codec, instances: seq<InstanceRow>, tokens: seq<TokenRow>, correlationId: string)
    : (r: seq<FlowNodeInstance>)
    ensures forall i :: 0 <= i < |r| ==> r[i].correlationId == correlationId && r[i].state == Suspended && r[i].tokens != []
    ensures ListedNewestFirst(codec, r, Collect(instances, tokens, SuspendedByCorrelationOptions(correlationId)))
  {
    List(codec, instances, tokens, SuspendedByCorrelationOptions(correlationId))
  }

  /** Every suspended instance of the correlation that has a token is listed. */
  lemma QuerySuspendedByCorrelationListsAll(codec: Codec, instances: seq<InstanceRow>, tokens: seq<TokenRow>, correlationId: string, x: InstanceRow)
    requires x in instances && x.correlationId == correlationId && x.state == Suspended && OwnTokens(tokens, x) != []
    ensures ConvertFlowNodeInstance(codec, Joined(x, OwnTokens(tokens, x))) in QuerySuspendedByCorrelation(codec, instances, tokens, correlationId)
  {
    ListIncludes(codec, instances, tokens, SuspendedByCorrelationOptions(correlationId), x);
  }

  // querySuspendedByProcessModel

  function SuspendedByProcessModelOptions(processModelId: string): FindOptions {
    FindOptions(
      Where(flowNodeId := None, flowNodeInstanceId := None, correlationId := None, processModelId := Some(processModelId), processInstanceId := None, state := StateIs(Suspended)),
      Tokens(TokenWhere(None, None, None), true), NewestFirst)
  }

  function QuerySuspendedByProcessModel(codec: Codec, instances: seq<InstanceRow>, tokens: seq<TokenRow>, processModelId: string)
    : (r: seq<FlowNodeInstance>)
    ensures forall i :: 0 <= i < |r| ==> r[i].processModelId == processModelId && r[i].state == Suspended && r[i].tokens != []
    ensures ListedNewestFirst(codec, r, Collect(instances, tokens, SuspendedByProcessModelOptions(processModelId)))
  {
    List(codec, instances, tokens, SuspendedByProcessModelOptions(processModelId))
  }

  /** Every suspended instance of the process model that has a token is listed. */
  lemma QuerySuspendedByProcessModelListsAll(codec: Codec, instances: seq<InstanceRow>, tokens: seq<TokenRow>, processModelId: string, x: InstanceRow)
    requires x in instances && x.processModelId == processModelId && x.state == Suspended && OwnTokens(tokens, x) != []
    ensures ConvertFlowNodeInstance(codec, Joined(x, OwnTokens(tokens, x))) in QuerySuspendedByProcessModel(codec, instances, tokens, processModelId)
  {
    ListIncludes(codec, instances, tokens, SuspendedByProcessModelOptions(processModelId), x);
  }

  // queryProcessTokensByProcessInstanceId

  function ProcessTokensOptions(processInstanceId: string): FindOptions {
    FindOptions(Where(flowNodeId := None, flowNodeInstanceId := None, correlationId := None, processModelId := None, processInstanceId := Some(processInstanceId), state := AnyState), Tokens(TokenWhere(None, None, None), true), NewestFirst)
  }

  /** The tokens of `js` converted and concatenated: instance by instance, and token by token within each. */
  function ProcessTokensOf(codec: Codec, js: seq<Joined>): seq<ProcessToken>
    decreases |js|
  {
    if js == [] then []
    else
      var last := js[|js| - 1];
      ProcessTokensOf(codec, js[..|js| - 1]) + ConvertTokens(codec, last.tokens, last.row)
  }

  /**
   * `ts` is the token list of the instances `matches` in some newest-first
   * order; instances created at the same time may come in either order.
   */
  ghost predicate TokensListedNewestFirst(codec: Codec, ts: seq<ProcessToken>, matches: seq<Joined>) {
    exists listing :: multiset(listing) == multiset(matches) && IsNewestFirst(listing) && ts == ProcessTokensOf(codec, listing)
  }

  lemma ProcessTokensOfAppend(codec: Codec, js: seq<Joined>, j: Joined)
    ensures ProcessTokensOf(codec, js + [j]) == ProcessTokensOf(codec, js) + ConvertTokens(codec, j.tokens, j.row)
  {
    assert (js + [j])[..|js|] == js;
  }

  /** Every token listed for instances of one process instance carries that process instance's id. */
  lemma {:induction false} ProcessTokensOfScope(codec: Codec, js: seq<Joined>, processInstanceId: string)
    requires forall j :: j in js ==> j.row.processInstanceId == processInstanceId
    ensures forall t :: t in ProcessTokensOf(codec, js) ==> t.processInstanceId == processInstanceId
    decreases |js|
  {
    if js != [] {
      var last := js[|js| - 1];
      assert last in js;
      assert forall j :: j in js[..|js| - 1] ==> j in js;
      ProcessTokensOfScope(codec, js[..|js| - 1], processInstanceId);
      var ts := ConvertTokens(codec, last.tokens, last.row);
      assert forall t :: t in ts ==> t.processInstanceId == processInstanceId;
    }
  }

  /**
   * A token filter on the process instance, correlation or process model
   * column matches only token rows that carry such a column; a store whose
   * tokens carry none lists no instance for either scoped active query.
   */
  lemma ScopedActiveQueriesNeedScopedTokens(codec: Codec, instances: seq<InstanceRow>, tokens: seq<TokenRow>,
                                            processInstanceId: string, correlationId: string, processModelId: string)
    requires forall t :: t in tokens ==> t.processInstanceId.None? && t.correlationId.None?
    ensures QueryActiveByProcessInstance(codec, instances, tokens, processInstanceId) == []
    ensures QueryActiveByCorrelationAndProcessModel(codec, instances, tokens, correlationId, processModelId) == []
  {
    var a := ActiveByProcessInstanceOptions(processInstanceId);
    var b := ActiveByCorrelationAndProcessModelOptions(correlationId, processModelId);
    forall x | x in instances ensures !Qualifies(tokens, a, x) && !Qualifies(tokens, b, x) {
      TokensOfNoMatch(tokens, x.flowNodeInstanceId, a.join.where);
      TokensOfNoMatch(tokens, x.flowNodeInstanceId, b.join.where);
    }
    CollectNone(instances, tokens, a);
    CollectNone(instances, tokens, b);
  }
}
