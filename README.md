# Flow node instance repository

This project models the Sequelize-backed flow node instance repository of a
BPMN process engine. The repository keeps two tables:

- the flow node instance table, one row per instance of a flow node (a BPMN element);
- the process token table, in which each row belongs to one instance through its `flowNodeInstanceId`.

**Writes.** A write does one of three things:

- It inserts an instance (`persistOnEnter`).
- It moves an instance to a new state (`persistOnExit`, `persistOnError`, `persistOnTerminate`, `suspend`, `resume`, all through `_persistOnStateChange`).
- It removes the instances of a process model (`deleteByProcessModelId`).

Every state-changing write appends one token row and ends by reading the instance back.

**Reads.** The reads are `findAll` and `findOne` calls. Each one filters on the instance columns, joins the tokens (left or inner join), and sorts by creation time when asked. The joined rows are then converted to runtime objects. A token takes its process instance, process model, correlation, identity and caller from the instance it was joined with.

**Modules:**

- `Json`: JSON documents and `JSON.stringify`/`JSON.parse`. The two functions are a `Codec` given as a parameter. `Lossless` is the round-trip property that some lemmas assume.
- `Rows`: the stored rows, the runtime objects and the error kinds.
- `Tables`: the query semantics the repository relies on.
  - `where` objects, including `state` by equality or `$in`.
  - `include` with its own `where` and `required`.
  - `order: [['createdAt', 'DESC']]`.
  - `findAll`, `findOne` and `destroy` with `$in`.
- `Conversion`: the two `_convert*` helpers.
- `Queries`: every `query*` operation, as a function of the two tables.
- `Writes`: the rows the writes create, the specification of a state change, and the lemmas about the writes.
- `Repository`: the repository as a class. Its two table fields are updated in place by the write methods. The two nested `forEach` loops of `queryProcessTokensByProcessInstanceId` are a method with loop invariants.

**Behaviour of the code that a caller might not expect:**

- `_persistOnStateChange` does not check the instance's current state. A finished or terminated instance can still be suspended, resumed or finished again. No conflict error is raised. `StateChangeUpdatesOneRow` and `SuspendThenResume` state this.
- The token row is owned by the token's own `flowNodeInstanceId`, not by the id passed alongside it. `StateChangeWithForeignToken` shows the consequence.
- Every `include` with `required: true` is an inner join. Instances without tokens are not listed, and `queryByInstanceId` reports them as not found.
- `deleteByProcessModelId` removes the rows whose id is one that `queryByProcessModel` lists, and those are the ids of the model's instances with at least one token (`RemovedIdsAreTokenBearingInstances`). An instance of the model that has no token survives the deletion (`DeletionKeepsInstancesWithoutTokens`). The `$in` destroy also removes any row of another process model that shares a listed id, with its tokens.
- The tokens the repository writes carry none of the process instance, correlation or process model columns. So the two scoped active queries, whose `include` filters on those columns, find nothing for such tokens (`ScopedActiveQueriesNeedScopedTokens`).

## Model

| member | source | states |
|---|---|---|
| Tables.TokensOf | src/flow_node_instance_repository.ts:95-98 | the tokens an `include` attaches to an instance are exactly the token rows with its id that pass the include's `where` |
| Tables.TokensOfAppend | src/flow_node_instance_repository.ts:492-504 | appending a token row adds it to the end of its owner's tokens when it passes the filter, and changes no other instance's tokens |
| Tables.TokensOfNoMatch | src/flow_node_instance_repository.ts:155-164 | when no token row passes the filter for an id, that id has no attached tokens |
| Tables.Collect | src/flow_node_instance_repository.ts:133-142 | the joined rows of an unordered `findAll` are exactly the rows that pass the `where` and the join, each with its attached tokens |
| Tables.CollectNone | src/flow_node_instance_repository.ts:150-165 | when no row qualifies, `findAll` returns nothing |
| Tables.InsertNewestFirst | src/flow_node_instance_repository.ts:99-101 | inserting one result keeps every other result and adds exactly that one |
| Tables.InsertKeepsNewestFirst | src/flow_node_instance_repository.ts:99-101 | inserting into a list sorted by `createdAt` descending keeps it sorted |
| Tables.SortNewestFirst | src/flow_node_instance_repository.ts:99-101 | `order: [['createdAt', 'DESC']]` gives a permutation of the results with non-increasing creation times |
| Tables.FindAll | src/flow_node_instance_repository.ts:91-102 | `findAll` returns exactly the qualifying joined rows, newest first when ordered |
| Tables.FindIndex | src/flow_node_instance_repository.ts:110-119 | the row `findOne` picks qualifies and no earlier row does; with no such row, none qualifies |
| Tables.FindIndexAgree | src/flow_node_instance_repository.ts:110-119 | two tables whose rows qualify at the same positions give the same `findOne` row |
| Tables.FindOne | src/flow_node_instance_repository.ts:110-124 | `findOne` returns a qualifying row with its tokens, or nothing when no row qualifies |
| Tables.FindOneIsFirstOfFindAll | src/flow_node_instance_repository.ts:110-119 | an unordered `findOne` is the first result of the same `findAll` |
| Tables.DestroyInstances | src/flow_node_instance_repository.ts:363-369 | `destroy` with `flowNodeInstanceId: {$in: ids}` keeps exactly the instance rows whose id is not in `ids` |
| Tables.DestroyTokens | src/flow_node_instance_repository.ts:371-379 | the same for token rows |
| Conversion.ReadDocument | src/flow_node_instance_repository.ts:535 | a null or empty column reads as `{}` |
| Conversion.ConvertProcessToken | src/flow_node_instance_repository.ts:529-544 | a runtime token takes its instance id, time and type from its row, and its process instance, process model, correlation, identity and caller from the owning instance |
| Conversion.ConvertTokens | src/flow_node_instance_repository.ts:520-522 | an instance's tokens are converted one by one, in the same order |
| Conversion.ConvertTokensAppend | src/flow_node_instance_repository.ts:520-522 | converting one more token row appends exactly its conversion |
| Conversion.ConvertFlowNodeInstance | src/flow_node_instance_repository.ts:506-527 | each runtime column comes from the same-named row column; the tokens are the converted joined tokens |
| Conversion.ConvertAll | src/flow_node_instance_repository.ts:104 | `results.map(convert)` keeps length and order |
| Conversion.JoinedTokensNameTheirOwner | src/flow_node_instance_repository.ts:520-533 | every token of a converted instance names that instance |
| Conversion.ConvertTokensIgnoresOwnerState | src/flow_node_instance_repository.ts:537-541 | a token's conversion does not depend on its owner's state or error |
| Queries.SpecificFlowNodeOptions | src/flow_node_instance_repository.ts:67-78 | the options object: `where` on correlation, process model and flow node; required `include`; no order |
| Queries.ByFlowNodeIdOptions | src/flow_node_instance_repository.ts:91-102 | the options object: `where` on the flow node; left-join `include`; newest first |
| Queries.ByInstanceIdOptions | src/flow_node_instance_repository.ts:110-119 | the options object: `where` on the instance id; required `include`; no order |
| Queries.ActiveOptions | src/flow_node_instance_repository.ts:132-142 | the options object: `state` `$in` suspended and running; left-join `include`; no order |
| Queries.ActiveByProcessInstanceOptions | src/flow_node_instance_repository.ts:151-165 | the options object: `state` `$in` suspended and running; required `include` filtered on the process instance; no order |
| Queries.ActiveByCorrelationAndProcessModelOptions | src/flow_node_instance_repository.ts:175-190 | the options object: `state` `$in` suspended and running; required `include` filtered on correlation and process model; no order |
| Queries.ByStateOptions | src/flow_node_instance_repository.ts:200-212 | the options object: `state` equal to the given one; required `include`; newest first |
| Queries.ByCorrelationOptions | src/flow_node_instance_repository.ts:220-232 | the options object: `where` on the correlation; required `include`; newest first |
| Queries.ByProcessModelOptions | src/flow_node_instance_repository.ts:241-253 | the options object: `where` on the process model; required `include`; newest first |
| Queries.ByCorrelationAndProcessModelOptions | src/flow_node_instance_repository.ts:262-272 | the options object: `where` on correlation and process model; required `include`; no order |
| Queries.SuspendedByCorrelationOptions | src/flow_node_instance_repository.ts:282-295 | the options object: `where` on the correlation and `state` suspended; required `include`; newest first |
| Queries.SuspendedByProcessModelOptions | src/flow_node_instance_repository.ts:304-317 | the options object: `where` on the process model and `state` suspended; required `include`; newest first |
| Queries.ProcessTokensOptions | src/flow_node_instance_repository.ts:326-338 | the options object: `where` on the process instance; required `include`; newest first |
| Queries.List | src/flow_node_instance_repository.ts:91-104 | every listed instance passes the `where` and has tokens when the join is required; an unordered call lists the qualifying rows in table order, an ordered one lists them newest first |
| Queries.ListIncludes | src/flow_node_instance_repository.ts:91-104 | every qualifying row is listed with its attached tokens |
| Queries.ListFromRows | src/flow_node_instance_repository.ts:91-104 | every listed instance comes from a qualifying row |
| Queries.QuerySpecificFlowNode | src/flow_node_instance_repository.ts:66-88 | success exactly when some instance with that correlation, process model and flow node has a token, and then the value is such an instance converted with all its tokens; otherwise the NotFound error naming the flow node |
| Queries.QuerySpecificFlowNodeReadsFirst | src/flow_node_instance_repository.ts:66-88 | when a row is the first with the three columns that has a token, the query returns that row converted with all its tokens |
| Queries.QueryByFlowNodeId | src/flow_node_instance_repository.ts:90-107 | only instances of the flow node, newest first |
| Queries.QueryByFlowNodeIdListsAll | src/flow_node_instance_repository.ts:90-107 | a left join: every instance of the flow node is listed, with or without tokens |
| Queries.QueryByInstanceId | src/flow_node_instance_repository.ts:109-128 | a result has the asked id and at least one token; otherwise the NotFound error naming the id |
| Queries.QueryByInstanceIdNotFound | src/flow_node_instance_repository.ts:109-124 | no row with the id, or no token for it, gives the NotFound error |
| Queries.QueryByInstanceIdReadsFirst | src/flow_node_instance_repository.ts:109-128 | the first row with the id is read, joined with all its tokens |
| Queries.QueryByInstanceIdFrame | src/flow_node_instance_repository.ts:109-128 | the read depends only on the rows with that id and their tokens |
| Queries.QueryActive | src/flow_node_instance_repository.ts:130-147 | every listed instance is suspended or running; the qualifying rows are listed in table order |
| Queries.QueryActiveListsAll | src/flow_node_instance_repository.ts:130-147 | every running or suspended instance is listed |
| Queries.QueryActiveByProcessInstance | src/flow_node_instance_repository.ts:149-170 | every listed instance is running or suspended and has at least one token; the qualifying rows are listed in table order |
| Queries.QueryActiveByProcessInstanceListsAll | src/flow_node_instance_repository.ts:149-170 | every running or suspended instance with a token of that scope is listed |
| Queries.QueryActiveByCorrelationAndProcessModel | src/flow_node_instance_repository.ts:172-196 | every listed instance is running or suspended and has at least one token; the qualifying rows are listed in table order |
| Queries.QueryActiveByCorrelationAndProcessModelListsAll | src/flow_node_instance_repository.ts:172-196 | every running or suspended instance with a token of that scope is listed |
| Queries.QueryByState | src/flow_node_instance_repository.ts:198-216 | only instances in that state that have tokens, newest first |
| Queries.QueryByStateListsAll | src/flow_node_instance_repository.ts:198-216 | every instance in that state that has a token is listed |
| Queries.QueryByCorrelation | src/flow_node_instance_repository.ts:218-237 | only instances of the correlation that have tokens, newest first |
| Queries.QueryByCorrelationListsAll | src/flow_node_instance_repository.ts:218-237 | every instance of the correlation that has a token is listed |
| Queries.QueryByProcessModel | src/flow_node_instance_repository.ts:239-258 | only instances of the process model that have tokens, newest first |
| Queries.QueryByProcessModelListsAll | src/flow_node_instance_repository.ts:239-258 | every instance of the process model that has a token is listed |
| Queries.QueryByCorrelationAndProcessModel | src/flow_node_instance_repository.ts:260-278 | only instances of both that have tokens, in table order |
| Queries.QueryByCorrelationAndProcessModelListsAll | src/flow_node_instance_repository.ts:260-278 | every instance of both that has a token is listed |
| Queries.QuerySuspendedByCorrelation | src/flow_node_instance_repository.ts:280-300 | only suspended instances of the correlation that have tokens, newest first |
| Queries.QuerySuspendedByCorrelationListsAll | src/flow_node_instance_repository.ts:280-300 | every suspended instance of the correlation that has a token is listed |
| Queries.QuerySuspendedByProcessModel | src/flow_node_instance_repository.ts:302-322 | only suspended instances of the process model that have tokens, newest first |
| Queries.QuerySuspendedByProcessModelListsAll | src/flow_node_instance_repository.ts:302-322 | every suspended instance of the process model that has a token is listed |
| Queries.ProcessTokensOf | src/flow_node_instance_repository.ts:340-351 | the tokens of the results converted with their owners, result by result and token by token |
| Queries.TokensListedNewestFirst | src/flow_node_instance_repository.ts:324-354 | a token list is the tokens of some newest-first ordering of the matching instances |
| Queries.ProcessTokensOfAppend | src/flow_node_instance_repository.ts:342-351 | one more result appends exactly its converted tokens |
| Queries.ProcessTokensOfScope | src/flow_node_instance_repository.ts:324-354 | every token listed for a process instance carries that process instance's id |
| Queries.ScopedActiveQueriesNeedScopedTokens | src/flow_node_instance_repository.ts:149-196 | when no token row carries a process instance or correlation column, both scoped active queries list nothing |
| Writes.EnteredRow | src/flow_node_instance_repository.ts:388-402 | the row `persistOnEnter` creates takes the flow node's id, type and event type, the token's correlation, process model, process instance and caller, the stringified identity, the previous instance id, and is running without error |
| Writes.NewTokenRow | src/flow_node_instance_repository.ts:492-504 | the token row is owned by the token's own instance id and carries the given type, the token's time and its stringified payload, and no scope columns |
| Writes.NewTokenRowReadsBack | src/flow_node_instance_repository.ts:496-501 | with a lossless codec, a stored token's payload reads back as the token's payload |
| Writes.StateChangeLookup | src/flow_node_instance_repository.ts:466-471 | the options object of the state change's `findOne`: both ids, no `include` |
| Writes.MatchIndex | src/flow_node_instance_repository.ts:466-475 | the row a state change updates is the first with both the flow node id and the instance id; without one, no row has both |
| Writes.EnterReadsBack | src/flow_node_instance_repository.ts:383-406 | with a lossless codec, a fresh id and a token of that id, `persistOnEnter` reads back a running instance without error, with every column from the flow node and the token, and with the token as its only, `onEnter`, token |
| Writes.ReadNewRow | src/flow_node_instance_repository.ts:401-405 | an appended row with a fresh id and its one token reads back as that row with that token |
| Writes.ChangedRow | src/flow_node_instance_repository.ts:477-481 | the matched row gets the new state, the error only when one is given, and keeps every other column |
| Writes.StateChanged | src/flow_node_instance_repository.ts:459-490 | the specification of a state change: without a match the error and no change; otherwise the first match changed, one token row appended, and the result `queryByInstanceId` reads |
| Writes.StateChangeFailsWithoutMatch | src/flow_node_instance_repository.ts:466-475 | a state change fails with the "not found" error exactly when no row matches both ids, and then changes nothing |
| Writes.MatchIndexAfterChange | src/flow_node_instance_repository.ts:466-485 | after a state change the same row still matches first |
| Writes.StateChangeUpdatesOneRow | src/flow_node_instance_repository.ts:477-487 | the new state is set whatever the old one was, the error is overwritten only when given, no other row or column changes, and exactly one token row is appended |
| Writes.StateChangeResult | src/flow_node_instance_repository.ts:487-489 | with unique ids and a token of that id, the result is the changed row joined with its old tokens plus the new one |
| Writes.StateChangeReadsBack | src/flow_node_instance_repository.ts:459-490 | with a lossless codec, the result is the instance in its new state, its earlier history unchanged, and the given token last with the transition's token type |
| Writes.StateChangeWithForeignToken | src/flow_node_instance_repository.ts:492-504 | a token naming another instance still changes the row, but the read that follows fails with NotFound when the instance had no tokens |
| Writes.StateChangeKeepsOtherHistories | src/flow_node_instance_repository.ts:459-490 | the read of any other instance, not named by the token either, is the same before and after |
| Writes.SuspendThenResume | src/flow_node_instance_repository.ts:439-457 | suspend then resume leaves the row running with its other columns unchanged, and appends an `onSuspend` and an `onResume` token row |
| Writes.IdsOf | src/flow_node_instance_repository.ts:359-361 | the ids of the listed instances, and no others |
| Writes.RemovedIds | src/flow_node_instance_repository.ts:358-361 | the ids `deleteByProcessModelId` removes: those of the instances `queryByProcessModel` lists |
| Writes.RemovedIdsAreTokenBearingInstances | src/flow_node_instance_repository.ts:356-381 | an id is removed exactly when some instance of the process model has that id and at least one token |
| Writes.DeleteLeavesNoProcessModelInstance | src/flow_node_instance_repository.ts:356-381 | after the deletion `queryByProcessModel` lists nothing |
| Writes.DeletionKeepsOtherProcessModels | src/flow_node_instance_repository.ts:356-381 | an instance whose id no row of the process model shares is kept, with all its tokens |
| Writes.ListedByProcessModelHasTokens | src/flow_node_instance_repository.ts:239-258 | every instance `queryByProcessModel` lists has a token |
| Writes.DeletionKeepsInstancesWithoutTokens | src/flow_node_instance_repository.ts:356-381 | an instance without tokens survives the deletion, even when it belongs to the process model |
| Repository.FlowNodeInstanceRepository.constructor | src/flow_node_instance_repository.ts:25-33 | a repository over the given two tables, with the given codec |
| Repository.FlowNodeInstanceRepository.PersistOnEnter | src/flow_node_instance_repository.ts:383-406 | appends the running instance row and an `onEnter` token row, then returns `queryByInstanceId` |
| Repository.FlowNodeInstanceRepository.PersistOnExit | src/flow_node_instance_repository.ts:408-416 | a state change to finished with an `onExit` token |
| Repository.FlowNodeInstanceRepository.PersistOnError | src/flow_node_instance_repository.ts:418-427 | a state change to error with an `onExit` token, storing the error text |
| Repository.FlowNodeInstanceRepository.PersistOnTerminate | src/flow_node_instance_repository.ts:429-437 | a state change to terminated with an `onExit` token |
| Repository.FlowNodeInstanceRepository.Suspend | src/flow_node_instance_repository.ts:439-447 | a state change to suspended with an `onSuspend` token |
| Repository.FlowNodeInstanceRepository.Resume | src/flow_node_instance_repository.ts:449-457 | a state change to running with an `onResume` token |
| Repository.FlowNodeInstanceRepository.PersistOnStateChange | src/flow_node_instance_repository.ts:459-490 | without a match: the "not found" error and no change; otherwise the first match gets the new state (and the error when given), one token row is appended, and the result is `queryByInstanceId` |
| Repository.FlowNodeInstanceRepository.CreateProcessTokenForFlowNodeInstance | src/flow_node_instance_repository.ts:492-504 | appends exactly one token row, owned by the token's own id, with its time, the type and its stringified payload |
| Repository.FlowNodeInstanceRepository.DeleteByProcessModelId | src/flow_node_instance_repository.ts:356-381 | removes exactly the token and instance rows carrying an id `queryByProcessModel` listed; afterwards that query lists nothing |
| Repository.FlowNodeInstanceRepository.QueryProcessTokensByProcessInstanceId | src/flow_node_instance_repository.ts:324-354 | the tokens of the instances of the process instance that have tokens, in some newest-first order of those instances and token by token within each, each carrying the process instance's id |
| Repository.ConvertResultTokens | src/flow_node_instance_repository.ts:340-351 | the two nested loops push every token of every result, converted with its owner, in order |

## Left out

- Connection set-up and tear-down (`initialize`, `dispose`), the dependency-injection module, logging and `async`: they are I/O or plumbing.
- `JSON.stringify` and `JSON.parse` are not implemented. They are a `Codec` parameter, and the read-back lemmas assume the round trip (`Lossless`).
- Dates: `createdAt` is a natural number. The time of a new instance row is the parameter `now`. `updatedAt` is not modelled.
- The foreign-key column name that the model loader gives the association is not modelled. Tokens join their instance on `flowNodeInstanceId`.
- The `ProcessTokenType[...]` lookup in `_convertProcessTokenToRuntimeObject` reads the stored type back unchanged.
- `persistOnError` stores `error.toString()`. The model takes that text as given (`Option<string>`, `None` for no error).
- `persistOnEnter` writes `eventType` and `previousFlowNodeInstanceId` unchanged, so absent values stay absent (`Option`).
- Schema constraints (`allowNull: false` on the token table's scope columns) are not enforced. The model stores what the repository writes, and the repository writes none of them.
- Queries.QueryByFlowNodeId, Queries.QueryByState and the other ordered queries promise only some newest-first order. The order among instances created at the same time is left open, as the database leaves it.
- A `findAll` without `order` has no order the database guarantees. The model fixes table order for those queries (`queryActive`, the two scoped active queries, `queryByCorrelationAndProcessModel`).
- Concurrency between callers is left out: there are no transactions and no interleaving between the reads and writes of one operation.
- Storage calls are assumed to succeed. In the code, `save()` can succeed and the token `create` that follows can then fail, leaving the changed row without its token (lines 483-485 of `src/flow_node_instance_repository.ts`). The same holds between the two `destroy` calls of `deleteByProcessModelId`. The model has no such partial outcome.
- The order of joined tokens: no `include` has its own `order`, so the database leaves the order of an instance's tokens open. The model attaches them in table order. So these claims rest on table order: that the given token comes last in `StateChangeReadsBack`, the token list in `EnterReadsBack`, and the order within each instance in `ConvertResultTokens` and `QueryProcessTokensByProcessInstanceId`.
