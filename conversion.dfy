/**
 * The mapping from stored rows to the runtime objects the repository
 * returns.  A token takes its process instance, process model, correlation,
 * identity and caller from the instance it was joined with; a text column
 * that is null or empty reads as the document `{}`.
 */
module Conversion {
  import opened Wrappers
  import opened Json
  import opened Rows
  import opened Tables

  /** A text column is truthy when it is present and not the empty string. */
  predicate Truthy(column: Option<string>) {
    column.Some? && column.value != ""
  }

  /** Reads a stored document: parses a truthy column, and gives `{}` otherwise. */
  function ReadDocument(codec: Codec, column: Option<string>): (d: Document)
    ensures !Truthy(column) ==> d == EmptyObject
  {
    if Truthy(column) then codec.parse(column.value) else EmptyObject
  }

  /** The runtime form of token row `row`, joined with its owner. */
  function ConvertProcessToken(codec: Codec, row: TokenRow, owner: InstanceRow): (t: ProcessToken)
    ensures t.flowNodeInstanceId == row.flowNodeInstanceId
    ensures t.createdAt == row.createdAt && t.tokenType == row.tokenType
    ensures t.payload == ReadDocument(codec, row.payload)
    ensures t.processInstanceId == owner.processInstanceId
    ensures t.processModelId == owner.processModelId
    ensures t.correlationId == owner.correlationId
    ensures t.identity == ReadDocument(codec, owner.identity)
    ensures t.caller == owner.parentProcessInstanceId
  {
    ProcessToken(
      flowNodeInstanceId := row.flowNodeInstanceId,
      createdAt := row.createdAt,
      tokenType := row.tokenType,
      payload := ReadDocument(codec, row.payload),
      processInstanceId := owner.processInstanceId,
      processModelId := owner.processModelId,
      correlationId := owner.correlationId,
      identity := ReadDocument(codec, owner.identity),
      caller := owner.parentProcessInstanceId)
  }

  /** The tokens of one joined instance, converted one by one in the same order. */
  function ConvertTokens(codec: Codec, rows: seq<TokenRow>, owner: InstanceRow): (ts: seq<ProcessToken>)
    ensures |ts| == |rows|
    ensures forall i :: 0 <= i < |rows| ==> ts[i] == ConvertProcessToken(codec, rows[i], owner)
  {
    seq(|rows|, i requires 0 <= i < |rows| => ConvertProcessToken(codec, rows[i], owner))
  }

  lemma ConvertTokensAppend(codec: Codec, rows: seq<TokenRow>, row: TokenRow, owner: InstanceRow)
    ensures ConvertTokens(codec, rows + [row], owner) == ConvertTokens(codec, rows, owner) + [ConvertProcessToken(codec, row, owner)]
  {
    var left := ConvertTokens(codec, rows + [row], owner);
    var right := ConvertTokens(codec, rows, owner) + [ConvertProcessToken(codec, row, owner)];
    assert forall i :: 0 <= i < |rows| ==> (rows + [row])[i] == rows[i];
    assert |left| == |right|;
    forall i | 0 <= i < |left| ensures left[i] == right[i] {
      if i < |rows| {
        assert (rows + [row])[i] == rows[i];
      }
    }
  }

  /** The runtime form of an instance row with the tokens joined to it. */
  function ConvertFlowNodeInstance(codec: Codec, j: Joined): (x: FlowNodeInstance)
    ensures x.id == j.row.flowNodeInstanceId
    ensures x.flowNodeId == j.row.flowNodeId && x.flowNodeType == j.row.flowNodeType
    ensures x.eventType == j.row.eventType
    ensures x.correlationId == j.row.correlationId && x.processModelId == j.row.processModelId
    ensures x.processInstanceId == j.row.processInstanceId
    ensures x.state == j.row.state && x.error == j.row.error
    ensures x.previousFlowNodeInstanceId == j.row.previousFlowNodeInstanceId
    ensures x.tokens == ConvertTokens(codec, j.tokens, j.row)
  {
    FlowNodeInstance(
      id := j.row.flowNodeInstanceId,
      flowNodeId := j.row.flowNodeId,
      flowNodeType := j.row.flowNodeType,
      eventType := j.row.eventType,
      correlationId := j.row.correlationId,
      processModelId := j.row.processModelId,
      processInstanceId := j.row.processInstanceId,
      state := j.row.state,
      error := j.row.error,
      previousFlowNodeInstanceId := j.row.previousFlowNodeInstanceId,
      tokens := ConvertTokens(codec, j.tokens, j.row))
  }

  /** `results.map(convert)`. */
  function ConvertAll(codec: Codec, js: seq<Joined>): (xs: seq<FlowNodeInstance>)
    ensures |xs| == |js|
    ensures forall i :: 0 <= i < |js| ==> xs[i] == ConvertFlowNodeInstance(codec, js[i])
    ensures forall j :: j in js ==> ConvertFlowNodeInstance(codec, j) in xs
  {
    var xs := seq(|js|, i requires 0 <= i < |js| => ConvertFlowNodeInstance(codec, js[i]));
    assert forall i :: 0 <= i < |js| ==> xs[i] == ConvertFlowNodeInstance(codec, js[i]);
    xs
  }

  /** Every converted token of a joined instance names that instance as its owner. */
  lemma JoinedTokensNameTheirOwner(codec: Codec, tokens: seq<TokenRow>, row: InstanceRow, w: TokenWhere)
    ensures forall t :: t in ConvertFlowNodeInstance(codec, Joined(row, TokensOf(tokens, row.flowNodeInstanceId, w))).tokens
               ==> t.flowNodeInstanceId == row.flowNodeInstanceId
  {
    var rows := TokensOf(tokens, row.flowNodeInstanceId, w);
    var ts := ConvertTokens(codec, rows, row);
    forall t | t in ts ensures t.flowNodeInstanceId == row.flowNodeInstanceId {
      var i :| 0 <= i < |ts| && ts[i] == t;
      assert rows[i] in rows;
    }
  }

  /**
   * Two owner rows that agree on the columns a token copies convert the same
   * token rows to the same tokens; an owner's state and error do not matter.
   */
  lemma ConvertTokensIgnoresOwnerState(codec: Codec, rows: seq<TokenRow>, a: InstanceRow, b: InstanceRow)
    requires a.processInstanceId == b.processInstanceId && a.processModelId == b.processModelId
    requires a.correlationId == b.correlationId && a.identity == b.identity
    requires a.parentProcessInstanceId == b.parentProcessInstanceId
    ensures ConvertTokens(codec, rows, a) == ConvertTokens(codec, rows, b)
  {
  }
}
