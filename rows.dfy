/**
 * The records of the flow node instance store: the rows of its two tables,
 * the runtime objects the repository hands to its callers, and the flow
 * node definition it reads from.
 */
module Rows {
  import opened Wrappers
  import opened Json

  datatype FlowNodeInstanceState = Running | Suspended | Finished | Error | Terminated

  datatype ProcessTokenType = OnEnter | OnExit | OnSuspend | OnResume

  /** A row of the flow node instance table. Text columns that may be null are options. */
  datatype InstanceRow = InstanceRow(
    flowNodeInstanceId: string,
    flowNodeId: string,
    flowNodeType: string,
    eventType: Option<string>,
    correlationId: string,
    processModelId: string,
    processInstanceId: string,
    identity: Option<string>,
    parentProcessInstanceId: Option<string>,
    state: FlowNodeInstanceState,
    error: Option<string>,
    previousFlowNodeInstanceId: Option<string>,
    createdAt: nat)

  /**
   * A row of the process token table.  `flowNodeInstanceId` names the owning
   * instance.  The last three columns are read by the token filters of two
   * queries but are never written by the repository, so a row it inserts
   * leaves them null.
   */
  datatype TokenRow = TokenRow(
    flowNodeInstanceId: string,
    tokenType: ProcessTokenType,
    payload: Option<string>,
    createdAt: nat,
    processInstanceId: Option<string>,
    correlationId: Option<string>,
    processModelId: Option<string>)

  /** The parts of a flow node definition the repository reads. */
  datatype FlowNode = FlowNode(id: string, bpmnType: string, eventType: Option<string>)

  /** A process token as callers pass it in and get it back. */
  datatype ProcessToken = ProcessToken(
    flowNodeInstanceId: string,
    createdAt: nat,
    tokenType: ProcessTokenType,
    payload: Document,
    processInstanceId: string,
    processModelId: string,
    correlationId: string,
    identity: Document,
    caller: Option<string>)

  /** A flow node instance as callers get it back, with its tokens. */
  datatype FlowNodeInstance = FlowNodeInstance(
    id: string,
    flowNodeId: string,
    flowNodeType: string,
    eventType: Option<string>,
    correlationId: string,
    processModelId: string,
    processInstanceId: string,
    state: FlowNodeInstanceState,
    error: Option<string>,
    previousFlowNodeInstanceId: Option<string>,
    tokens: seq<ProcessToken>)

  /** `NotFoundError` from a query, or the plain `Error` a state change throws. */
  datatype Failure = NotFoundError(message: string) | StateChangeError(message: string)
}
