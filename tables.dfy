/**
 * What the repository relies on from the table library: `where` filters on
 * instance rows, `include` of the owned process tokens (an inner join when
 * `required`, a left join otherwise), `order` by creation time, and the
 * `findAll`, `findOne` and `destroy` calls.  Both tables are sequences in
 * insertion order; a token belongs to the instances whose
 * `flowNodeInstanceId` equals its own.
 */
module Tables {
  import opened Wrappers
  import opened Rows

  /** The `state` entry of a `where` object: absent, one state, or `$in` a list of states. */
  datatype StateFilter = AnyState | StateIs(only: FlowNodeInstanceState) | StateIn(among: set<FlowNodeInstanceState>)

  /** A `where` object over instance rows: every present field must match. */
  datatype Where = Where(
    flowNodeId: Option<string>,
    flowNodeInstanceId: Option<string>,
    correlationId: Option<string>,
    processModelId: Option<string>,
    processInstanceId: Option<string>,
    state: StateFilter)

  const AnyInstance: Where := Where(None, None, None, None, None, AnyState)

  predicate Matches(w: Where, row: InstanceRow) {
    && (w.flowNodeId.Some? ==> row.flowNodeId == w.flowNodeId.value)
    && (w.flowNodeInstanceId.Some? ==> row.flowNodeInstanceId == w.flowNodeInstanceId.value)
    && (w.correlationId.Some? ==> row.correlationId == w.correlationId.value)
    && (w.processModelId.Some? ==> row.processModelId == w.processModelId.value)
    && (w.processInstanceId.Some? ==> row.processInstanceId == w.processInstanceId.value)
    && (w.state.StateIs? ==> row.state == w.state.only)
    && (w.state.StateIn? ==> row.state in w.state.among)
  }

  /** A `where` object inside an `include`, over token rows; a null column matches no value. */
  datatype TokenWhere = TokenWhere(
    correlationId: Option<string>,
    processModelId: Option<string>,
    processInstanceId: Option<string>)

  const AnyToken: TokenWhere := TokenWhere(None, None, None)

  predicate TokenMatches(w: TokenWhere, t: TokenRow) {
    && (w.correlationId.Some? ==> t.correlationId == w.correlationId)
    && (w.processModelId.Some? ==> t.processModelId == w.processModelId)
    && (w.processInstanceId.Some? ==> t.processInstanceId == w.processInstanceId)
  }

  datatype Include = NoTokens | Tokens(where: TokenWhere, required: bool)

  datatype Order = TableOrder | NewestFirst

  datatype FindOptions = FindOptions(where: Where, join: Include, order: Order)

  /** An instance row together with the token rows the `include` attached to it. */
  datatype Joined = Joined(row: InstanceRow, tokens: seq<TokenRow>)

  /** The tokens owned by `id` that satisfy `w`, in table order. */
  function TokensOf(tokens: seq<TokenRow>, id: string, w: TokenWhere): (r: seq<TokenRow>)
    ensures forall t :: t in r <==> t in tokens && t.flowNodeInstanceId == id && TokenMatches(w, t)
    ensures |r| <= |tokens|
    decreases |tokens|
  {
    if tokens == [] then []
    else
      var last := tokens[|tokens| - 1];
      assert tokens == tokens[..|tokens| - 1] + [last];
      TokensOf(tokens[..|tokens| - 1], id, w)
        + (if last.flowNodeInstanceId == id && TokenMatches(w, last) then [last] else [])
  }

  lemma TokensOfAppend(tokens: seq<TokenRow>, t: TokenRow, id: string, w: TokenWhere)
    ensures TokensOf(tokens + [t], id, w)
         == TokensOf(tokens, id, w) + (if t.flowNodeInstanceId == id && TokenMatches(w, t) then [t] else [])
  {
    assert (tokens + [t])[..|tokens|] == tokens;
  }

  /** When no token row is owned by `id` and passes `w`, nothing is attached. */
  lemma {:induction false} TokensOfNoMatch(tokens: seq<TokenRow>, id: string, w: TokenWhere)
    requires forall t :: t in tokens ==> !(t.flowNodeInstanceId == id && TokenMatches(w, t))
    ensures TokensOf(tokens, id, w) == []
    decreases |tokens|
  {
    if tokens != [] {
      var front := tokens[..|tokens| - 1];
      assert forall t :: t in front ==> t in tokens;
      assert tokens[|tokens| - 1] in tokens;
      TokensOfNoMatch(front, id, w);
    }
  }

  /** The tokens an `include` attaches to `row`. */
  function Attached(tokens: seq<TokenRow>, row: InstanceRow, join: Include): seq<TokenRow> {
    match join
    case NoTokens => []
    case Tokens(w, _) => TokensOf(tokens, row.flowNodeInstanceId, w)
  }

  /** `row` passes the `where`, and, for a required `include`, has at least one attached token. */
  predicate Qualifies(tokens: seq<TokenRow>, options: FindOptions, row: InstanceRow) {
    && Matches(options.where, row)
    && (options.join.Tokens? && options.join.required ==> Attached(tokens, row, options.join) != [])
  }

  /** `j` is one entry of a result: a qualifying row with exactly its attached tokens. */
  predicate Found(tokens: seq<TokenRow>, options: FindOptions, j: Joined) {
    Qualifies(tokens, options, j.row) && j.tokens == Attached(tokens, j.row, options.join)
  }

  /** The qualifying rows of `rows`, joined with their tokens, in table order. */
  function Collect(rows: seq<InstanceRow>, tokens: seq<TokenRow>, options: FindOptions): (r: seq<Joined>)
    ensures forall j :: j in r <==> j.row in rows && Found(tokens, options, j)
    ensures |r| <= |rows|
  {
    if rows == [] then []
    else
      assert rows == [rows[0]] + rows[1..];
      (if Qualifies(tokens, options, rows[0]) then [Joined(rows[0], Attached(tokens, rows[0], options.join))] else [])
        + Collect(rows[1..], tokens, options)
  }

  /** When no row qualifies, nothing is collected. */
  lemma {:induction false} CollectNone(rows: seq<InstanceRow>, tokens: seq<TokenRow>, options: FindOptions)
    requires forall x :: x in rows ==> !Qualifies(tokens, options, x)
    ensures Collect(rows, tokens, options) == []
  {
    if rows != [] {
      assert rows[0] in rows;
      assert forall x :: x in rows[1..] ==> x in rows;
      CollectNone(rows[1..], tokens, options);
    }
  }

  /** Creation times never increase along `js`. */
  predicate IsNewestFirst(js: seq<Joined>) {
    forall i, k :: 0 <= i < k < |js| ==> js[i].row.createdAt >= js[k].row.createdAt
  }

  /** Puts `j` in front of the first entry that is not newer than it. */
  function InsertNewestFirst(j: Joined, js: seq<Joined>): (r: seq<Joined>)
    ensures multiset(r) == multiset(js) + multiset{j}
    ensures |r| == |js| + 1
    ensures r[0] == j || (js != [] && r[0] == js[0])
  {
    if js == [] || js[0].row.createdAt <= j.row.createdAt then
      [j] + js
    else
      assert js == [js[0]] + js[1..];
      [js[0]] + InsertNewestFirst(j, js[1..])
  }

  lemma {:induction false} InsertKeepsNewestFirst(j: Joined, js: seq<Joined>)
    requires IsNewestFirst(js)
    ensures IsNewestFirst(InsertNewestFirst(j, js))
  {
    if js != [] && js[0].row.createdAt > j.row.createdAt {
      var tail := js[1..];
      assert IsNewestFirst(tail) by {
        forall i, k | 0 <= i < k < |tail| ensures tail[i].row.createdAt >= tail[k].row.createdAt {
          assert tail[i] == js[i + 1] && tail[k] == js[k + 1];
        }
      }
      InsertKeepsNewestFirst(j, tail);
      var rest := InsertNewestFirst(j, tail);
      assert rest[0].row.createdAt <= js[0].row.createdAt;
      var r := [js[0]] + rest;
      forall i, k | 0 <= i < k < |r| ensures r[i].row.createdAt >= r[k].row.createdAt {
        if i > 0 {
          assert r[i] == rest[i - 1] && r[k] == rest[k - 1];
        } else {
          assert r[k] == rest[k - 1];
          if k > 1 {
            assert rest[0].row.createdAt >= rest[k - 1].row.createdAt;
          }
        }
      }
    }
  }

  /** A stable sort on creation time, newest first; rows of equal time keep their table order. */
  function SortNewestFirst(js: seq<Joined>): (r: seq<Joined>)
    ensures IsNewestFirst(r)
    ensures multiset(r) == multiset(js)
  {
    if js == [] then []
    else
      assert js == [js[0]] + js[1..];
      InsertKeepsNewestFirst(js[0], SortNewestFirst(js[1..]));
      InsertNewestFirst(js[0], SortNewestFirst(js[1..]))
  }

  lemma SameElements(a: seq<Joined>, b: seq<Joined>)
    requires multiset(a) == multiset(b)
    ensures forall x :: x in a <==> x in b
  {
    forall x ensures x in a <==> x in b {
      assert x in a <==> x in multiset(a);
      assert x in b <==> x in multiset(b);
    }
  }

  /** `findAll(options)`. */
  function FindAll(rows: seq<InstanceRow>, tokens: seq<TokenRow>, options: FindOptions): (r: seq<Joined>)
    ensures forall j :: j in r <==> j.row in rows && Found(tokens, options, j)
    ensures multiset(r) == multiset(Collect(rows, tokens, options))
    ensures options.order == NewestFirst ==> IsNewestFirst(r)
  {
    var c := Collect(rows, tokens, options);
    if options.order == NewestFirst then
      SameElements(SortNewestFirst(c), c);
      SortNewestFirst(c)
    else
      c
  }

  /** The position of the first qualifying row, if any. */
  function FindIndex(rows: seq<InstanceRow>, tokens: seq<TokenRow>, options: FindOptions): (k: Option<nat>)
    ensures k.Some? ==> k.value < |rows| && Qualifies(tokens, options, rows[k.value])
    ensures k.Some? ==> forall i :: 0 <= i < k.value ==> !Qualifies(tokens, options, rows[i])
    ensures k.None? ==> forall i :: 0 <= i < |rows| ==> !Qualifies(tokens, options, rows[i])
  {
    if rows == [] then None
    else if Qualifies(tokens, options, rows[0]) then Some(0)
    else
      match FindIndex(rows[1..], tokens, options)
      case None => None
      case Some(k) => Some(k + 1)
  }

  /** Row by row agreement on which rows qualify gives the same first index. */
  lemma {:induction false} FindIndexAgree(rows: seq<InstanceRow>, tokens: seq<TokenRow>,
                                          rows': seq<InstanceRow>, tokens': seq<TokenRow>, options: FindOptions)
    requires |rows| == |rows'|
    requires forall i :: 0 <= i < |rows| ==> (Qualifies(tokens, options, rows[i]) <==> Qualifies(tokens', options, rows'[i]))
    ensures FindIndex(rows, tokens, options) == FindIndex(rows', tokens', options)
  {
    if rows != [] && !Qualifies(tokens, options, rows[0]) {
      FindIndexAgree(rows[1..], tokens, rows'[1..], tokens', options);
    }
  }

  /** `findOne(options)`: the first qualifying row in table order, with its tokens. */
  function FindOne(rows: seq<InstanceRow>, tokens: seq<TokenRow>, options: FindOptions): (r: Option<Joined>)
    ensures r.Some? ==> r.value.row in rows && Found(tokens, options, r.value)
    ensures r.None? ==> forall x :: x in rows ==> !Qualifies(tokens, options, x)
  {
    match FindIndex(rows, tokens, options)
    case None => None
    case Some(k) => Some(Joined(rows[k], Attached(tokens, rows[k], options.join)))
  }

  /** `findOne` is `findAll` limited to one result. */
  lemma {:induction false} FindOneIsFirstOfFindAll(rows: seq<InstanceRow>, tokens: seq<TokenRow>, options: FindOptions)
    requires options.order == TableOrder
    ensures FindOne(rows, tokens, options)
         == (var all := FindAll(rows, tokens, options); if all == [] then None else Some(all[0]))
  {
    if rows != [] && !Qualifies(tokens, options, rows[0]) {
      FindOneIsFirstOfFindAll(rows[1..], tokens, options);
      match FindIndex(rows[1..], tokens, options)
      case None =>
      case Some(k) => assert rows[k + 1] == rows[1..][k];
    }
  }

  /** `destroy` of the instance rows whose id is in `ids`. */
  function DestroyInstances(rows: seq<InstanceRow>, ids: set<string>): (r: seq<InstanceRow>)
    ensures forall x :: x in r <==> x in rows && x.flowNodeInstanceId !in ids
    ensures |r| <= |rows|
  {
    if rows == [] then []
    else
      assert rows == [rows[0]] + rows[1..];
      (if rows[0].flowNodeInstanceId in ids then [] else [rows[0]]) + DestroyInstances(rows[1..], ids)
  }

  /** `destroy` of the token rows owned by an id in `ids`. */
  function DestroyTokens(tokens: seq<TokenRow>, ids: set<string>): (r: seq<TokenRow>)
    ensures forall t :: t in r <==> t in tokens && t.flowNodeInstanceId !in ids
    ensures |r| <= |tokens|
  {
    if tokens == [] then []
    else
      assert tokens == [tokens[0]] + tokens[1..];
      (if tokens[0].flowNodeInstanceId in ids then [] else [tokens[0]]) + DestroyTokens(tokens[1..], ids)
  }
}
