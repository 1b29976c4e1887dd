/**
  The Supabase tools. The client's query builder is modelled by the list of
  calls made on it, in order (a plan); what the database answers for a plan
  is a parameter of each handler. The environment the client factory reads
  is an input too.
*/
module Supabase {
  import opened Wrappers
  import opened Json
  import opened Outcomes
  import opened SearchParams
  import Text

  /** A JavaScript number as the builder receives it, `NaN` included. */
  datatype Num = Finite(value: real) | NaN

  /** One call on the query builder. */
  datatype Op =
    | From(table: string)
    | Select(columns: string)
    | Filter(operator: string, column: string, operand: Json)
    | Order(column: string, ascending: bool)
    | Range(first: Num, last: Num)

  /** What awaiting a built query gives: rows or `null`, an error or none, and the exact count. */
  datatype Response = Response(data: Option<seq<Json>>, error: Option<Thrown>, count: Json)

  /** Running a plan against the database. */
  type Database = seq<Op> -> Outcome<Response>

  /** `SUPABASE_URL` and `SUPABASE_ANON_KEY`, each possibly unset. */
  datatype Env = Env(url: Option<string>, key: Option<string>)

  /** `getSupabaseClient` succeeds only when both variables are set and non-empty. */
  predicate Configured(env: Env) {
    env.url.Some? && env.url.value != "" && env.key.Some? && env.key.value != ""
  }

  const EnvError := "SUPABASE_URL and SUPABASE_ANON_KEY environment variables must be set"

  function Add(a: Num, b: Num): Num {
    if a.Finite? && b.Finite? then Finite(a.value + b.value) else NaN
  }

  function ToNum(n: Option<int>): Num {
    match n
    case None => NaN
    case Some(i) => Finite(i as real)
  }

  // ---------------------------------------------------------------------------
  // supabase_execute_query: the query string

  /** `query.split('?')[0]`. */
  function Table(query: string): string {
    Text.Split(query, '?')[0]
  }

  /** The other pieces of `query.split('?')`, joined again with `?`. */
  function QueryString(query: string): string {
    Text.Join(Text.Split(query, '?')[1..], "?")
  }

  /** The table is the text before the first `?`, the parameters everything after it. */
  lemma TableAndQueryString(query: string)
    ensures '?' !in Table(query)
    ensures '?' !in query ==> Table(query) == query && QueryString(query) == ""
    ensures '?' in query ==> query == Table(query) + "?" + QueryString(query)
  {
    Text.SplitHeadTail(query, '?');
  }

  /** The operators the filter pattern recognises, in its alternation order. */
  const Operators: seq<string> := ["eq", "neq", "gt", "gte", "lt", "lte", "like", "ilike", "in", "is"]

  function OperatorFrom(value: string, k: nat): (r: Option<string>)
    requires k <= |Operators|
    ensures r.Some? ==> r.value in Operators && Text.StartsWith(value, r.value + ".")
    ensures r.None? ==> forall j :: k <= j < |Operators| ==> !Text.StartsWith(value, Operators[j] + ".")
    decreases |Operators| - k
  {
    if k == |Operators| then None
    else if Text.StartsWith(value, Operators[k] + ".") then Some(Operators[k])
    else OperatorFrom(value, k + 1)
  }

  /** The operator the pattern `^(eq|...|is)\.` captures, if it matches. */
  function MatchOperator(value: string): (r: Option<string>)
    ensures r.Some? ==> r.value in Operators && Text.StartsWith(value, r.value + ".")
    ensures r.None? <==> forall op :: op in Operators ==> !Text.StartsWith(value, op + ".")
  {
    OperatorFrom(value, 0)
  }

  /** `(.*)`: the text up to the first line terminator. */
  function ToLineEnd(s: string): (r: string)
    ensures |r| <= |s| && r == s[..|r|]
    ensures forall i :: 0 <= i < |r| ==> !Text.IsLineTerminator(r[i])
    ensures |r| < |s| ==> Text.IsLineTerminator(s[|r|])
    decreases |s|
  {
    if |s| == 0 || Text.IsLineTerminator(s[0]) then "" else [s[0]] + ToLineEnd(s[1..])
  }

  /** The filter one parameter gives: `op.rest` is `op` on `rest`; anything else is `eq` on the whole value. */
  function FilterOf(p: Param): Op {
    match MatchOperator(p.value)
    case Some(op) => Filter(op, p.name, JStr(ToLineEnd(p.value[|op| + 1..])))
    case None => Filter("eq", p.name, JStr(p.value))
  }

  predicate IsReserved(name: string) {
    name == "select" || name == "order" || name == "limit" || name == "offset"
  }

  /** The filters of the `params.forEach` loop, one per unreserved parameter, in order. */
  function FilterOps(ps: seq<Param>): seq<Op>
    decreases |ps|
  {
    if |ps| == 0 then []
    else
      var p := ps[|ps| - 1];
      FilterOps(ps[..|ps| - 1]) + (if IsReserved(p.name) then [] else [FilterOf(p)])
  }

  function SelectColumns(ps: seq<Param>): string {
    match GetParam(ps, "select")
    case Some(v) => if v != "" then v else "*"
    case None => "*"
  }

  /** `order=column.direction`: ascending unless the direction is exactly `desc`. */
  function OrderOf(v: string): Op {
    var pieces := Text.Split(v, '.');
    Order(pieces[0], !(|pieces| >= 2 && pieces[1] == "desc"))
  }

  function OrderOps(ps: seq<Param>): seq<Op> {
    match GetParam(ps, "order")
    case Some(v) => if v != "" then [OrderOf(v)] else []
    case None => []
  }

  /** `param || fallback`: a missing or empty parameter gives the fallback. */
  function OrElse(v: Option<string>, fallback: string): string {
    match v
    case Some(s) => if s != "" then s else fallback
    case None => fallback
  }

  predicate NonEmpty(v: Option<string>) {
    v.Some? && v.value != ""
  }

  /** `parseInt(param || fallback)`; the fallbacks `'0'` and `'100'` read as 0 and 100 (`DefaultsParse`). */
  function ParseOr(v: Option<string>, fallback: real): Num {
    if NonEmpty(v) then ToNum(Text.ParseInt(v.value)) else Finite(fallback)
  }

  /** `range(start, start + parseInt(limit || '100') - 1)`, only when `limit` or `offset` is non-empty. */
  function RangeOps(ps: seq<Param>): seq<Op> {
    RangeOf(GetParam(ps, "limit"), GetParam(ps, "offset"))
  }

  /** The range call for the `limit` and `offset` parameters as found. */
  function RangeOf(limit: Option<string>, offset: Option<string>): seq<Op> {
    if NonEmpty(limit) || NonEmpty(offset) then
      var start := ParseOr(offset, 0.0);
      [Range(start, Add(Add(start, ParseOr(limit, 100.0)), Finite(-1.0)))]
    else []
  }

  /** The calls made on the builder for a table and its parameters. */
  function PlanOf(table: string, ps: seq<Param>): seq<Op> {
    [From(table), Select(SelectColumns(ps))] + FilterOps(ps) + OrderOps(ps) + RangeOps(ps)
  }

  /** The calls `supabase_execute_query` makes on the builder for `query`. */
  function ExecuteQueryPlan(query: string): seq<Op> {
    PlanOf(Table(query), Parse(QueryString(query)))
  }

  /** The handler's plan building, one builder call after another. */
  method BuildExecuteQuery(query: string) returns (plan: seq<Op>)
    ensures plan == ExecuteQueryPlan(query)
  {
    var params := Parse(QueryString(query));
    plan := BuildPlan(Table(query), params);
  }

  method BuildPlan(table: string, params: seq<Param>) returns (plan: seq<Op>)
    ensures plan == PlanOf(table, params)
  {
    plan := [From(table), Select(SelectColumns(params))];
    var base := plan;
    var i := 0;
    while i < |params|
      invariant 0 <= i <= |params|
      invariant plan == base + FilterOps(params[..i])
    {
      var p := params[i];
      assert params[..i + 1][..i] == params[..i];
      if !IsReserved(p.name) {
        plan := plan + [FilterOf(p)];
      }
      i := i + 1;
    }
    assert params[..|params|] == params;
    assert plan == [From(table), Select(SelectColumns(params))] + FilterOps(params);
    var order := GetParam(params, "order");
    if order.Some? && order.value != "" {
      plan := plan + [OrderOf(order.value)];
    }
    assert plan == [From(table), Select(SelectColumns(params))] + FilterOps(params) + OrderOps(params);
    var limit := GetParam(params, "limit");
    var offset := GetParam(params, "offset");
    if NonEmpty(limit) || NonEmpty(offset) {
      var start := ParseOr(offset, 0.0);
      var end := Add(Add(start, ParseOr(limit, 100.0)), Finite(-1.0));
      plan := plan + [Range(start, end)];
    }
  }

  // ---------------------------------------------------------------------------
  // properties of the query-string plan

  /** The alternatives of the pattern cannot both match: no `op.` is a prefix of another. */
  lemma DottedPrefixFree(a: string, b: string)
    requires '.' !in a && '.' !in b
    requires Text.StartsWith(b + ".", a + ".")
    ensures a == b
  {
    var s := b + ".";
    assert s[|a|] == (a + ".")[|a|] == '.';
    assert |a| == |b|;
    assert a == (a + ".")[..|a|] == s[..|a|] == b;
  }

  lemma PrefixOfPrefix(v: string, a: string, b: string)
    requires Text.StartsWith(v, a) && Text.StartsWith(v, b) && |a| <= |b|
    ensures Text.StartsWith(b, a)
  {
    assert b[..|a|] == v[..|b|][..|a|] == v[..|a|];
  }

  /** Whichever operator matches is the only one that does. */
  lemma MatchOperatorUnique(value: string, op: string)
    requires op in Operators && Text.StartsWith(value, op + ".")
    ensures MatchOperator(value) == Some(op)
  {
    var o := MatchOperator(value).value;
    assert '.' !in o && '.' !in op;
    if |o| <= |op| {
      PrefixOfPrefix(value, o + ".", op + ".");
      DottedPrefixFree(o, op);
    } else {
      PrefixOfPrefix(value, op + ".", o + ".");
      DottedPrefixFree(op, o);
    }
  }

  /** `key=op.rest` filters with `op` on `rest`, which ends at a line terminator. */
  lemma FilterOfOperator(name: string, op: string, rest: string, tail: string)
    requires op in Operators
    requires forall i :: 0 <= i < |rest| ==> !Text.IsLineTerminator(rest[i])
    requires tail == [] || Text.IsLineTerminator(tail[0])
    ensures FilterOf(Param(name, op + "." + rest + tail)) == Filter(op, name, JStr(rest))
  {
    var v := op + "." + rest + tail;
    DotSplit(op, rest, tail);
    MatchOperatorUnique(v, op);
    ToLineEndStops(rest, tail);
    FilterOfMatched(Param(name, v), op);
  }

  lemma DotSplit(op: string, rest: string, tail: string)
    ensures var v := op + "." + rest + tail;
      v[..|op + "."|] == op + "." && v[|op| + 1..] == rest + tail
  {
  }

  lemma FilterOfMatched(p: Param, op: string)
    requires MatchOperator(p.value) == Some(op)
    ensures |op| + 1 <= |p.value|
    ensures FilterOf(p) == Filter(op, p.name, JStr(ToLineEnd(p.value[|op| + 1..])))
  {
  }

  lemma {:induction false} ToLineEndStops(rest: string, tail: string)
    requires forall i :: 0 <= i < |rest| ==> !Text.IsLineTerminator(rest[i])
    requires tail == [] || Text.IsLineTerminator(tail[0])
    ensures ToLineEnd(rest + tail) == rest
    decreases |rest|
  {
    if |rest| == 0 {
      assert rest + tail == tail;
    } else {
      assert (rest + tail)[0] == rest[0];
      assert (rest + tail)[1..] == rest[1..] + tail;
      ToLineEndStops(rest[1..], tail);
      assert [rest[0]] + rest[1..] == rest;
    }
  }

  /** A value without a `.` is an equality filter on the whole value. */
  lemma FilterOfNoDot(name: string, value: string)
    requires '.' !in value
    ensures FilterOf(Param(name, value)) == Filter("eq", name, JStr(value))
  {
    forall op | op in Operators ensures !Text.StartsWith(value, op + ".") {
      assert (op + ".")[|op|] == '.';
    }
  }

  /** Filters are produced parameter by parameter. */
  lemma {:induction false} FilterOpsAppend(a: seq<Param>, b: seq<Param>)
    ensures FilterOps(a + b) == FilterOps(a) + FilterOps(b)
    decreases |b|
  {
    if |b| == 0 {
      assert a + b == a;
    } else {
      var b' := b[..|b| - 1];
      assert (a + b)[..|a + b| - 1] == a + b';
      assert (a + b)[|a + b| - 1] == b[|b| - 1];
      FilterOpsAppend(a, b');
    }
  }

  /** One unreserved parameter gives exactly one filter, a reserved one none. */
  lemma FilterOpsOne(p: Param)
    ensures FilterOps([p]) == if IsReserved(p.name) then [] else [FilterOf(p)]
  {
    assert [p][..0] == [];
  }

  /** Without reserved names there is one filter per parameter, in the same order. */
  lemma {:induction false} FilterOpsEach(ps: seq<Param>)
    requires forall i :: 0 <= i < |ps| ==> !IsReserved(ps[i].name)
    ensures |FilterOps(ps)| == |ps|
    ensures forall i :: 0 <= i < |ps| ==> FilterOps(ps)[i] == FilterOf(ps[i])
    decreases |ps|
  {
    if |ps| > 0 {
      FilterOpsEach(ps[..|ps| - 1]);
    }
  }

  /** `order=c` or `order=c.d`: ordering on `c`, descending only for `d == "desc"`. */
  lemma OrderDirection(c: string, d: string)
    requires '.' !in c && '.' !in d
    ensures OrderOf(c) == Order(c, true)
    ensures OrderOf(c + "." + d) == Order(c, d != "desc")
  {
    Text.SplitNoSep(c, '.');
    Text.SplitAtSep(c, '.', d);
    Text.SplitNoSep(d, '.');
  }

  /** The literal fallbacks read as the numbers `ParseOr` uses. */
  lemma DefaultsParse(v: Option<string>)
    ensures ToNum(Text.ParseInt(OrElse(v, "0"))) == ParseOr(v, 0.0)
    ensures ToNum(Text.ParseInt(OrElse(v, "100"))) == ParseOr(v, 100.0)
  {
    Text.ParseIntZero();
    DefaultParses(v, "0", 0.0);
    Text.ParseIntHundred();
    DefaultParses(v, "100", 100.0);
  }

  lemma DefaultParses(v: Option<string>, fallback: string, n: real)
    requires ToNum(Text.ParseInt(fallback)) == Finite(n)
    ensures ToNum(Text.ParseInt(OrElse(v, fallback))) == ParseOr(v, n)
  {
  }

  /** A range appears exactly when `limit` or `offset` is non-empty. */
  lemma RangePresence(ps: seq<Param>)
    ensures |RangeOps(ps)| <= 1
    ensures RangeOps(ps) != [] <==> NonEmpty(GetParam(ps, "limit")) || NonEmpty(GetParam(ps, "offset"))
  {
  }

  /**
    The range is [offset, offset + limit - 1] of the numbers `parseInt` reads,
    with 0 and 100 for a missing or empty parameter.
  */
  lemma RangeBounds(ps: seq<Param>, limit: int, offset: int)
    requires NonEmpty(GetParam(ps, "limit")) || NonEmpty(GetParam(ps, "offset"))
    requires ParseOr(GetParam(ps, "limit"), 100.0) == Finite(limit as real)
    requires ParseOr(GetParam(ps, "offset"), 0.0) == Finite(offset as real)
    ensures RangeOps(ps) == [Range(Finite(offset as real), Finite((offset + limit - 1) as real))]
  {
    RangeOfBounds(GetParam(ps, "limit"), GetParam(ps, "offset"), limit, offset);
  }

  lemma RangeOfBounds(limitParam: Option<string>, offsetParam: Option<string>, limit: int, offset: int)
    requires NonEmpty(limitParam) || NonEmpty(offsetParam)
    requires ParseOr(limitParam, 100.0) == Finite(limit as real)
    requires ParseOr(offsetParam, 0.0) == Finite(offset as real)
    ensures RangeOf(limitParam, offsetParam) == [Range(Finite(offset as real), Finite((offset + limit - 1) as real))]
  {
    SpanBounds(ParseOr(offsetParam, 0.0), ParseOr(limitParam, 100.0), offset, limit);
  }

  lemma SpanBounds(start: Num, span: Num, offset: int, limit: int)
    requires start == Finite(offset as real) && span == Finite(limit as real)
    ensures Add(Add(start, span), Finite(-1.0)) == Finite((offset + limit - 1) as real)
  {
  }

  /** An `offset` that is not a number makes both ends `NaN`; a bad `limit` only the end. */
  lemma RangeNaN(ps: seq<Param>)
    requires NonEmpty(GetParam(ps, "limit")) || NonEmpty(GetParam(ps, "offset"))
    ensures ParseOr(GetParam(ps, "offset"), 0.0) == NaN ==> RangeOps(ps) == [Range(NaN, NaN)]
    ensures ParseOr(GetParam(ps, "limit"), 100.0) == NaN ==> RangeOps(ps)[0].last == NaN
  {
  }

  /** Rendered numbers are read back: `limit=10` spans ten rows. */
  lemma RangeDigits(ps: seq<Param>, limit: nat, offset: nat)
    requires GetParam(ps, "limit") == Some(Text.Decimal(limit))
    requires GetParam(ps, "offset") == Some(Text.Decimal(offset))
    ensures RangeOps(ps) == [Range(Finite(offset as real), Finite((offset + limit - 1) as real))]
  {
    ParseDecimal(limit);
    ParseDecimal(offset);
    RangeBounds(ps, limit, offset);
  }

  lemma ParseDecimal(n: nat)
    ensures Text.ParseInt(Text.Decimal(n)) == Some(n as int)
  {
    ParseDecimalAt(Text.Decimal(n), n);
  }

  lemma ParseDecimalAt(d: string, n: nat)
    requires d == Text.Decimal(n)
    ensures Text.ParseInt(d) == Some(n as int)
  {
    Text.ParseIntDecimal("", n, "");
    assert "" + d + "" == d;
  }

  /** A query built from a table name and plain parameters is read back into those parts. */
  lemma ExecuteQueryOf(table: string, ps: seq<Param>)
    requires '?' !in table
    requires forall i :: 0 <= i < |ps| ==> Plain(ps[i])
    requires |ps| == 0 || !Text.StartsWith(ps[0].name, "?")
    ensures Table(table + "?" + Serialize(ps)) == table
    ensures Parse(QueryString(table + "?" + Serialize(ps))) == ps
    ensures ExecuteQueryPlan(table + "?" + Serialize(ps)) == PlanOf(table, ps)
  {
    QueryParts(table, Serialize(ps));
    ParseSerialize(ps);
  }

  lemma QueryParts(table: string, qs: string)
    requires '?' !in table
    ensures Table(table + "?" + qs) == table && QueryString(table + "?" + qs) == qs
  {
    var q := table + "?" + qs;
    Text.SplitAtSep(table, '?', qs);
    Text.JoinSplit(qs, '?');
    assert Text.Split(q, '?')[1..] == Text.Split(qs, '?');
  }

  // ---------------------------------------------------------------------------
  // supabase_read_table: structured arguments

  /** The destructured arguments of `supabase_read_table`; absent ones are `None`. */
  datatype ReadTableArgs = ReadTableArgs(
    tableName: string,
    select: Option<string>,
    filter: Option<Json>,
    limit: Option<real>,
    offset: Option<real>,
    orderBy: Option<string>,
    ascending: Option<bool>)

  /**
    The callable properties of the query builder that `from(...).select(...)`
    returns (postgrest-js as the supabase-js 2 client bundles it): its filter
    and transform methods, the builder's own methods, and the methods every
    object inherits. Every other property name, an index such as `0`
    included, is not a function.
  */
  predicate BuilderMethod(name: string) {
    name == "eq" || name == "neq" || name == "gt" || name == "gte" || name == "lt"
    || name == "lte" || name == "like" || name == "likeAllOf" || name == "likeAnyOf"
    || name == "ilike" || name == "ilikeAllOf" || name == "ilikeAnyOf" || name == "is"
    || name == "in" || name == "contains" || name == "containedBy" || name == "rangeGt"
    || name == "rangeGte" || name == "rangeLt" || name == "rangeLte" || name == "rangeAdjacent"
    || name == "overlaps" || name == "textSearch" || name == "match" || name == "not"
    || name == "or" || name == "filter" || name == "select" || name == "order"
    || name == "limit" || name == "range" || name == "abortSignal" || name == "single"
    || name == "maybeSingle" || name == "csv" || name == "geojson" || name == "explain"
    || name == "rollback" || name == "returns" || name == "throwOnError" || name == "then"
    || name == "constructor" || name == "hasOwnProperty" || name == "isPrototypeOf"
    || name == "propertyIsEnumerable" || name == "toLocaleString" || name == "toString"
    || name == "valueOf" || name == "__defineGetter__" || name == "__defineSetter__"
    || name == "__lookupGetter__" || name == "__lookupSetter__"
  }

  /** The `TypeError` of `query[operator](key, operand)` when `query[operator]` is no function. */
  const NotAFunction := ErrorValue("query[operator] is not a function")

  /** The ten operators `execute_query` recognises are all builder methods. */
  lemma OperatorsAreMethods()
    ensures forall op :: op in Operators ==> BuilderMethod(op)
  {
  }

  /** Two stretches of builder calls in order: a throw in the first ends the run. */
  function Then(x: Outcome<seq<Op>>, y: Outcome<seq<Op>>): (r: Outcome<seq<Op>>)
    ensures r.Returned? <==> x.Returned? && y.Returned?
    ensures r.Returned? ==> r.value == x.value + y.value
    ensures x.Threw? ==> r == x
    ensures x.Returned? && y.Threw? ==> r == y
  {
    match x
    case Threw(_) => x
    case Returned(p) =>
      match y
      case Threw(_) => y
      case Returned(q) => Returned(p + q)
  }

  lemma ThenAssoc(x: Outcome<seq<Op>>, y: Outcome<seq<Op>>, z: Outcome<seq<Op>>)
    ensures Then(Then(x, y), z) == Then(x, Then(y, z))
  {
    if x.Returned? && y.Returned? && z.Returned? {
      assert x.value + y.value + z.value == x.value + (y.value + z.value);
    }
  }

  /** `f` of each entry, in entry order; the first entry whose `f` throws ends the run. */
  function Expand(es: seq<Field>, f: Field -> Outcome<seq<Op>>): Outcome<seq<Op>>
    decreases |es|
  {
    if |es| == 0 then Returned([]) else Then(Expand(es[..|es| - 1], f), f(es[|es| - 1]))
  }

  /** `query[operator](column, operand)` for one entry of an operator object. */
  function OperatorCall(column: string, e: Field): Outcome<seq<Op>> {
    if BuilderMethod(e.key) then Returned([Filter(e.key, column, e.value)]) else Threw(NotAFunction)
  }

  function CallOn(column: string): Field -> Outcome<seq<Op>> {
    e => OperatorCall(column, e)
  }

  /** `{ gt: 5, lt: 10 }` under `column`: one call per entry, the entry's key naming the method. */
  function OperatorOps(column: string, es: seq<Field>): Outcome<seq<Op>> {
    Expand(es, CallOn(column))
  }

  /**
    The operators of an entry are called in entry order, one filter each on
    `column`; the run fails, with the `TypeError`, exactly when some key is
    not a builder method.
  */
  lemma {:induction false} OperatorOpsEach(column: string, es: seq<Field>)
    ensures OperatorOps(column, es).Returned? <==> forall i :: 0 <= i < |es| ==> BuilderMethod(es[i].key)
    ensures OperatorOps(column, es).Returned? ==>
      && |OperatorOps(column, es).value| == |es|
      && forall i :: 0 <= i < |es| ==> OperatorOps(column, es).value[i] == Filter(es[i].key, column, es[i].value)
    ensures OperatorOps(column, es).Threw? ==> OperatorOps(column, es).thrown == NotAFunction
    decreases |es|
  {
    if |es| > 0 {
      var init := es[..|es| - 1];
      var last := es[|es| - 1];
      OperatorOpsEach(column, init);
      assert forall i :: 0 <= i < |init| ==> init[i] == es[i];
      var x, y := OperatorOps(column, init), OperatorCall(column, last);
      assert OperatorOps(column, es) == Then(x, y);
      if x.Returned? && y.Returned? {
        var v := OperatorOps(column, es).value;
        assert v == x.value + [Filter(last.key, column, last.value)];
        assert forall i :: 0 <= i < |init| ==> v[i] == x.value[i];
      }
    }
  }

  /** One entry of `filter`: an object or an array calls its keys as methods, anything else is an equality. */
  function EntryOps(e: Field): Outcome<seq<Op>> {
    if IsObjectLike(e.value) then OperatorOps(e.key, Entries(e.value))
    else Returned([Filter("eq", e.key, e.value)])
  }

  /** An entry whose calls all exist: a scalar value, or an object whose keys are all builder methods. */
  predicate Callable(e: Field) {
    !IsObjectLike(e.value) || forall j :: 0 <= j < |Entries(e.value)| ==> BuilderMethod(Entries(e.value)[j].key)
  }

  /** The filters of the entries of `filter`, one entry after another. */
  function FilterPlan(es: seq<Field>): Outcome<seq<Op>> {
    Expand(es, EntryOps)
  }

  function ReadFilterOps(filter: Option<Json>): Outcome<seq<Op>> {
    if filter.Some? && Truthy(filter.value) then FilterPlan(Entries(filter.value)) else Returned([])
  }

  function ReadOrderOps(args: ReadTableArgs): seq<Op> {
    if NonEmpty(args.orderBy) then [Order(args.orderBy.value, args.ascending.GetOr(true))] else []
  }

  /** `range(offset, offset + limit - 1)` with the defaults 100 and 0. */
  function ReadRange(args: ReadTableArgs): Op {
    var limit := args.limit.GetOr(100.0);
    var offset := args.offset.GetOr(0.0);
    Range(Finite(offset), Finite(offset + limit - 1.0))
  }

  function ReadHead(args: ReadTableArgs): seq<Op> {
    [From(args.tableName), Select(OrElse(args.select, "*"))]
  }

  /** The calls `supabase_read_table` makes on the builder, or the `TypeError` that stops them. */
  function ReadTablePlan(args: ReadTableArgs): Outcome<seq<Op>> {
    match ReadFilterOps(args.filter)
    case Threw(t) => Threw(t)
    case Returned(filters) => Returned(ReadHead(args) + filters + ReadOrderOps(args) + [ReadRange(args)])
  }

  /** The handler's plan building, with its two nested `forEach` loops. */
  method BuildReadTable(args: ReadTableArgs) returns (plan: Outcome<seq<Op>>)
    ensures plan == ReadTablePlan(args)
  {
    var head := [From(args.tableName), Select(OrElse(args.select, "*"))];
    plan := AddFilters(head, args.filter);
    if plan.Threw? {
      return;
    }
    var calls := plan.value;
    if NonEmpty(args.orderBy) {
      calls := calls + [Order(args.orderBy.value, args.ascending.GetOr(true))];
    }
    assert calls == head + ReadFilterOps(args.filter).value + ReadOrderOps(args);
    var limit := if args.limit.Some? then args.limit.value else 100.0;
    var offset := if args.offset.Some? then args.offset.value else 0.0;
    var range := Range(Finite(offset), Finite(offset + limit - 1.0));
    assert range == ReadRange(args);
    plan := Returned(calls + [range]);
  }

  /** The `if (filter)` block: a truthy `filter` has its entries expanded. */
  method AddFilters(plan: seq<Op>, filter: Option<Json>) returns (r: Outcome<seq<Op>>)
    ensures r == Then(Returned(plan), ReadFilterOps(filter))
  {
    if filter.Some? && Truthy(filter.value) {
      r := AddEntries(plan, Entries(filter.value));
    } else {
      r := Returned(plan);
      assert plan + [] == plan;
    }
  }

  /** The outer `Object.entries(filter).forEach`; a throw in one entry ends it. */
  method AddEntries(plan: seq<Op>, entries: seq<Field>) returns (r: Outcome<seq<Op>>)
    ensures r == Then(Returned(plan), FilterPlan(entries))
  {
    var calls := plan;
    var i := 0;
    assert plan + [] == plan;
    while i < |entries|
      invariant 0 <= i <= |entries|
      invariant Then(Returned(plan), FilterPlan(entries[..i])) == Returned(calls)
    {
      assert entries[..i + 1][..i] == entries[..i];
      ThenAssoc(Returned(plan), FilterPlan(entries[..i]), EntryOps(entries[i]));
      var step := AddEntryFilters(calls, entries[i]);
      if step.Threw? {
        ExpandStops(entries, i + 1, EntryOps);
        return step;
      }
      calls := step.value;
      i := i + 1;
    }
    assert entries[..|entries|] == entries;
    r := Returned(calls);
  }

  /** The body of the outer `forEach` for one entry of `filter`. */
  method AddEntryFilters(plan: seq<Op>, e: Field) returns (r: Outcome<seq<Op>>)
    ensures r == Then(Returned(plan), EntryOps(e))
  {
    if IsObjectLike(e.value) {
      var operators := Entries(e.value);
      var calls := plan;
      var j := 0;
      assert plan + [] == plan;
      while j < |operators|
        invariant 0 <= j <= |operators|
        invariant Then(Returned(plan), OperatorOps(e.key, operators[..j])) == Returned(calls)
      {
        assert operators[..j + 1][..j] == operators[..j];
        ThenAssoc(Returned(plan), OperatorOps(e.key, operators[..j]), OperatorCall(e.key, operators[j]));
        if !BuilderMethod(operators[j].key) {
          ExpandStops(operators, j + 1, CallOn(e.key));
          return Threw(NotAFunction);
        }
        calls := calls + [Filter(operators[j].key, e.key, operators[j].value)];
        j := j + 1;
      }
      assert operators[..|operators|] == operators;
      r := Returned(calls);
    } else {
      r := Returned(plan + [Filter("eq", e.key, e.value)]);
    }
  }

  // ---------------------------------------------------------------------------
  // properties of the structured plan

  /** A throw among the first `k` entries is the outcome of the whole run. */
  lemma ExpandStops(es: seq<Field>, k: nat, f: Field -> Outcome<seq<Op>>)
    requires k <= |es| && Expand(es[..k], f).Threw?
    ensures Expand(es, f) == Expand(es[..k], f)
  {
    assert es == es[..k] + es[k..];
    ExpandAppend(es[..k], es[k..], f);
  }

  lemma {:induction false} ExpandAppend(a: seq<Field>, b: seq<Field>, f: Field -> Outcome<seq<Op>>)
    ensures Expand(a + b, f) == Then(Expand(a, f), Expand(b, f))
    decreases |b|
  {
    if |b| == 0 {
      assert a + b == a;
      if Expand(a, f).Returned? {
        assert Expand(a, f).value + [] == Expand(a, f).value;
      }
    } else {
      var b' := b[..|b| - 1];
      DropLast(a, b);
      ExpandAppend(a, b', f);
      ThenAssoc(Expand(a, f), Expand(b', f), f(b[|b| - 1]));
    }
  }

  lemma DropLast<T>(a: seq<T>, b: seq<T>)
    requires |b| > 0
    ensures (a + b)[..|a + b| - 1] == a + b[..|b| - 1]
    ensures (a + b)[|a + b| - 1] == b[|b| - 1]
  {
  }

  /**
    The run succeeds exactly when every entry's `f` does, and then it is their
    calls in entry order; otherwise it fails with the error of the first entry
    that throws.
  */
  lemma {:induction false} ExpandFirstThrow(es: seq<Field>, f: Field -> Outcome<seq<Op>>)
    ensures Expand(es, f).Returned? <==> forall i :: 0 <= i < |es| ==> f(es[i]).Returned?
    ensures Expand(es, f).Threw? ==>
      exists i :: 0 <= i < |es| && f(es[i]) == Expand(es, f) && (forall j :: 0 <= j < i ==> f(es[j]).Returned?)
    decreases |es|
  {
    if |es| > 0 {
      var init := es[..|es| - 1];
      ExpandFirstThrow(init, f);
      assert forall i :: 0 <= i < |init| ==> init[i] == es[i];
      if Expand(init, f).Threw? {
        var i :| 0 <= i < |init| && f(init[i]) == Expand(init, f) && forall j :: 0 <= j < i ==> f(init[j]).Returned?;
        assert f(es[i]) == Expand(es, f);
      } else if f(es[|es| - 1]).Threw? {
        assert f(es[|es| - 1]) == Expand(es, f);
      }
    }
  }

  /** Entries of `filter` are expanded one after another; a throw in `a` leaves `b` unvisited. */
  lemma FilterPlanAppend(a: seq<Field>, b: seq<Field>)
    ensures FilterPlan(a + b) == Then(FilterPlan(a), FilterPlan(b))
  {
    ExpandAppend(a, b, EntryOps);
  }

  /**
    The filters are built exactly when every entry is callable, and the
    only error on the way is the `TypeError`.
  */
  lemma FilterPlanCallable(es: seq<Field>)
    ensures FilterPlan(es).Returned? <==> forall i :: 0 <= i < |es| ==> Callable(es[i])
    ensures FilterPlan(es).Threw? ==> FilterPlan(es).thrown == NotAFunction
  {
    ExpandFirstThrow(es, EntryOps);
    forall i | 0 <= i < |es| ensures EntryOps(es[i]).Returned? <==> Callable(es[i]) {
      if IsObjectLike(es[i].value) {
        OperatorOpsEach(es[i].key, Entries(es[i].value));
      }
    }
    if FilterPlan(es).Threw? {
      var i :| 0 <= i < |es| && EntryOps(es[i]) == FilterPlan(es);
      OperatorOpsEach(es[i].key, Entries(es[i].value));
    }
  }

  /**
    A `filter` entry `{ column: { op: v, ... } }` calls each `op` on the
    column, and fails with the `TypeError` when some `op` is not a builder
    method; a scalar gives one `eq` filter.
  */
  lemma FilterEntry(column: string, value: Json)
    ensures IsObjectLike(value) ==>
      (FilterPlan([Field(column, value)]).Returned? <==>
         forall i :: 0 <= i < |Entries(value)| ==> BuilderMethod(Entries(value)[i].key))
    ensures IsObjectLike(value) && FilterPlan([Field(column, value)]).Returned? ==>
      && |FilterPlan([Field(column, value)]).value| == |Entries(value)|
      && forall i :: 0 <= i < |Entries(value)| ==>
           FilterPlan([Field(column, value)]).value[i] == Filter(Entries(value)[i].key, column, Entries(value)[i].value)
    ensures IsObjectLike(value) && FilterPlan([Field(column, value)]).Threw? ==>
      FilterPlan([Field(column, value)]) == Threw(NotAFunction)
    ensures !IsObjectLike(value) ==> FilterPlan([Field(column, value)]) == Returned([Filter("eq", column, value)])
  {
    var e := Field(column, value);
    ExpandOne(e, EntryOps);
    if IsObjectLike(value) {
      OperatorOpsEach(column, Entries(value));
    }
  }

  lemma ExpandOne(e: Field, f: Field -> Outcome<seq<Op>>)
    ensures Expand([e], f) == f(e)
  {
    assert [e][..0] == [];
    if f(e).Returned? {
      assert [] + f(e).value == f(e).value;
    }
  }

  /** An index is no method name, so a non-empty array value always fails and an empty one adds nothing. */
  lemma ArrayValue(column: string, items: seq<Json>)
    ensures |items| > 0 ==> FilterPlan([Field(column, JArr(items))]) == Threw(NotAFunction)
    ensures |items| == 0 ==> FilterPlan([Field(column, JArr(items))]) == Returned([])
  {
    var v := JArr(items);
    var es := Entries(v);
    ExpandOne(Field(column, v), EntryOps);
    OperatorOpsEach(column, es);
    if |items| > 0 {
      IndexNotMethod();
      assert es[0].key == IndexKey(0);
    } else {
      assert es == [];
    }
  }

  lemma IndexNotMethod()
    ensures !BuilderMethod(IndexKey(0))
  {
    assert IndexKey(0) == "0";
  }

  /** A misspelt operator, such as `{ age: { greater: 5 } }`, fails. */
  lemma MisspeltOperator(column: string, operand: Json)
    ensures FilterPlan([Field(column, JObj([Field("greater", operand)]))]) == Threw(NotAFunction)
  {
    var v := JObj([Field("greater", operand)]);
    assert !BuilderMethod("greater");
    FilterEntry(column, v);
  }

  /**
    The plan starts with the table and the columns and ends with a range
    spanning `limit` rows; it is built exactly when the filter expansion
    succeeds, and otherwise the `TypeError` stops it.
  */
  lemma ReadTablePlanShape(args: ReadTableArgs)
    ensures ReadTablePlan(args).Returned? <==> ReadFilterOps(args.filter).Returned?
    ensures ReadTablePlan(args).Threw? ==> ReadTablePlan(args) == Threw(NotAFunction)
    ensures ReadTablePlan(args).Returned? ==> var plan := ReadTablePlan(args).value;
      && |plan| >= 3
      && plan[0] == From(args.tableName)
      && plan[1] == Select(if NonEmpty(args.select) then args.select.value else "*")
      && plan[|plan| - 1] == ReadRange(args)
    ensures var r := ReadRange(args);
      && r.first == Finite(args.offset.GetOr(0.0))
      && r.last.Finite? && r.last.value - r.first.value + 1.0 == args.limit.GetOr(100.0)
  {
    if args.filter.Some? && Truthy(args.filter.value) {
      FilterPlanCallable(Entries(args.filter.value));
    }
  }

  /** A falsy `filter` (absent, null, false, 0 or empty) adds no filter; ordering needs a non-empty `orderBy`. */
  lemma ReadTableOptionalSteps(args: ReadTableArgs)
    ensures args.filter.None? || !Truthy(args.filter.value) ==> ReadFilterOps(args.filter) == Returned([])
    ensures |ReadOrderOps(args)| <= 1
    ensures ReadOrderOps(args) != [] <==> NonEmpty(args.orderBy)
    ensures ReadOrderOps(args) != [] && args.ascending.None? ==> ReadOrderOps(args)[0].ascending
  {
  }

  // ---------------------------------------------------------------------------
  // the fixed plans of the catalogue tools

  const ListTablesPlan: seq<Op> := [
    From("information_schema.tables"),
    Select("table_name, table_type"),
    Filter("eq", "table_schema", JStr("public")),
    Order("table_name", true)]

  function TableSchemaPlan(tableName: string): seq<Op> {
    [From("information_schema.columns"),
     Select("column_name, data_type, is_nullable, column_default"),
     Filter("eq", "table_schema", JStr("public")),
     Filter("eq", "table_name", JStr(tableName)),
     Order("ordinal_position", true)]
  }

  // ---------------------------------------------------------------------------
  // results

  /** `row.key` for a row that is not `null`: a property of a row object; `None` for `undefined`. */
  function Prop(row: Json, key: string): Option<Json> {
    if row.JObj? then Get(row.fields, key) else None
  }

  /** `data?.length || 0`. */
  function RowCount(data: Option<seq<Json>>): nat {
    match data
    case None => 0
    case Some(rows) => |rows|
  }

  function DataValue(data: Option<seq<Json>>): Json {
    match data
    case None => JNull
    case Some(rows) => JArr(rows)
  }

  function ReadResult(resp: Response): Json {
    JObj([Field("success", JBool(true)), Field("data", DataValue(resp.data)),
          Field("count", JNum(RowCount(resp.data) as real)), Field("totalCount", resp.count)])
  }

  function ExecuteResult(resp: Response): Json {
    JObj([Field("success", JBool(true)), Field("data", DataValue(resp.data)),
          Field("count", JNum(RowCount(resp.data) as real))])
  }

  function TableEntry(row: Json): Json {
    JObj(OptionalField("name", Prop(row, "table_name")) + OptionalField("type", Prop(row, "table_type")))
  }

  function ColumnEntry(row: Json): Json {
    JObj(OptionalField("name", Prop(row, "column_name")) + OptionalField("type", Prop(row, "data_type"))
      + [Field("nullable", JBool(Prop(row, "is_nullable") == Some(JStr("YES"))))]
      + OptionalField("default", Prop(row, "column_default")))
  }

  /** Whether some returned row is `null`: projecting it reads a property of `null`. */
  predicate HasNullRow(data: Option<seq<Json>>) {
    data.Some? && JNull in data.value
  }

  /**
    `data?.map(f) || []` with a projection `f` whose first read is `key`: the
    first `null` row throws, and otherwise every row is projected.
  */
  function ProjectRows(data: Option<seq<Json>>, key: string, f: Json -> Json): (r: Outcome<seq<Json>>)
    ensures r.Threw? <==> HasNullRow(data)
    ensures r.Threw? ==> r.thrown == NullRead(key)
    ensures r.Returned? ==> r.value == MapRows(data, f)
  {
    if HasNullRow(data) then Threw(NullRead(key)) else Returned(MapRows(data, f))
  }

  /** `data?.map(f) || []`. */
  function MapRows(data: Option<seq<Json>>, f: Json -> Json): (r: seq<Json>)
    ensures |r| == RowCount(data)
    ensures data.Some? ==> forall i :: 0 <= i < |r| ==> r[i] == f(data.value[i])
  {
    match data
    case None => []
    case Some(rows) => seq(|rows|, i requires 0 <= i < |rows| => f(rows[i]))
  }

  function TablesResult(resp: Response): Json {
    JObj([Field("success", JBool(true)), Field("tables", JArr(MapRows(resp.data, TableEntry)))])
  }

  /** The `list_tables` result; a `null` row throws at `table.table_name`. */
  function TablesOutcome(resp: Response): Outcome<Json> {
    match ProjectRows(resp.data, "table_name", TableEntry)
    case Threw(t) => Threw(t)
    case Returned(_) => Returned(TablesResult(resp))
  }

  function SchemaResult(tableName: string, resp: Response): Json {
    JObj([Field("success", JBool(true)), Field("tableName", JStr(tableName)),
          Field("columns", JArr(MapRows(resp.data, ColumnEntry)))])
  }

  /** The `get_table_schema` result; a `null` row throws at `col.column_name`. */
  function SchemaOutcome(tableName: string, resp: Response): Outcome<Json> {
    match ProjectRows(resp.data, "column_name", ColumnEntry)
    case Threw(t) => Threw(t)
    case Returned(_) => Returned(SchemaResult(tableName, resp))
  }

  // ---------------------------------------------------------------------------
  // the handlers

  /** Awaiting the query: a rejection or a returned `error` is thrown, otherwise the rows are projected. */
  function Settle(o: Outcome<Response>, project: Response -> Json): Outcome<Json> {
    match o
    case Threw(t) => Threw(t)
    case Returned(resp) =>
      if resp.error.Some? then Threw(resp.error.value) else Returned(project(resp))
  }

  /** A builder call that is no function throws before the query is awaited; the database is not asked. */
  function ReadTable(env: Env, args: ReadTableArgs, db: Database): Outcome<Json> {
    if !Configured(env) then Threw(ErrorValue(EnvError))
    else
      var settled := match ReadTablePlan(args)
        case Threw(t) => Threw(t)
        case Returned(plan) => Settle(db(plan), ReadResult);
      Guarded("Failed to read from Supabase", settled)
  }

  function ExecuteQuery(env: Env, query: string, db: Database): Outcome<Json> {
    if !Configured(env) then Threw(ErrorValue(EnvError))
    else Guarded("Failed to execute Supabase query", Settle(db(ExecuteQueryPlan(query)), ExecuteResult))
  }

  const ListTablesError := "Unable to list tables. Ensure the Supabase role has appropriate permissions."

  /** A returned `error` is replaced by a fixed message before the catch block prefixes it. */
  function ListTables(env: Env, db: Database): Outcome<Json> {
    if !Configured(env) then Threw(ErrorValue(EnvError))
    else
      var settled := match db(ListTablesPlan)
        case Threw(t) => Threw(t)
        case Returned(resp) =>
          if resp.error.Some? then Threw(ErrorValue(ListTablesError)) else TablesOutcome(resp);
      Guarded("Failed to list Supabase tables", settled)
  }

  function GetTableSchema(env: Env, tableName: string, db: Database): Outcome<Json> {
    if !Configured(env) then Threw(ErrorValue(EnvError))
    else
      var settled := match db(TableSchemaPlan(tableName))
        case Threw(t) => Threw(t)
        case Returned(resp) =>
          if resp.error.Some? then Threw(resp.error.value) else SchemaOutcome(tableName, resp);
      Guarded("Failed to get table schema", settled)
  }

  // ---------------------------------------------------------------------------
  // properties of the handlers

  /**
    A missing variable fails before the `try`: the message is not prefixed
    and the database is never asked.
  */
  lemma UnconfiguredFails(env: Env, args: ReadTableArgs, query: string, tableName: string, db: Database)
    requires !Configured(env)
    ensures ReadTable(env, args, db) == Threw(ErrorValue(EnvError))
    ensures ExecuteQuery(env, query, db) == Threw(ErrorValue(EnvError))
    ensures ListTables(env, db) == Threw(ErrorValue(EnvError))
    ensures GetTableSchema(env, tableName, db) == Threw(ErrorValue(EnvError))
  {
  }

  /** Every failure of `supabase_read_table` after the client exists carries its prefix. */
  lemma ReadTableFailurePrefixed(env: Env, args: ReadTableArgs, db: Database)
    requires Configured(env)
    ensures ReadTable(env, args, db).Threw? ==>
      Text.StartsWith(ReadTable(env, args, db).thrown.message, "Failed to read from Supabase: ")
  {
  }

  /**
    Reading a table succeeds exactly when every filter call exists and the
    query settles without an error, and then gives the rows; a call that is
    no function fails with the prefixed `TypeError`, whatever the database holds.
  */
  lemma ReadTableSucceedIff(env: Env, args: ReadTableArgs, db: Database)
    requires Configured(env)
    ensures ReadTable(env, args, db).Returned? <==>
      && ReadTablePlan(args).Returned?
      && db(ReadTablePlan(args).value).Returned?
      && db(ReadTablePlan(args).value).value.error.None?
    ensures ReadTable(env, args, db).Returned? ==>
      ReadTable(env, args, db).value == ReadResult(db(ReadTablePlan(args).value).value)
    ensures ReadTablePlan(args).Threw? ==>
      ReadTable(env, args, db) == Threw(Rethrow("Failed to read from Supabase", NotAFunction))
  {
    ReadTablePlanShape(args);
  }

  /** Every failure of `supabase_execute_query` after the client exists carries its prefix. */
  lemma ExecuteQueryFailurePrefixed(env: Env, query: string, db: Database)
    requires Configured(env)
    ensures ExecuteQuery(env, query, db).Threw? ==>
      Text.StartsWith(ExecuteQuery(env, query, db).thrown.message, "Failed to execute Supabase query: ")
  {
  }

  /** Every failure of `supabase_list_tables` after the client exists carries its prefix. */
  lemma ListTablesFailurePrefixed(env: Env, db: Database)
    requires Configured(env)
    ensures ListTables(env, db).Threw? ==>
      Text.StartsWith(ListTables(env, db).thrown.message, "Failed to list Supabase tables: ")
  {
  }

  /** Every failure of `supabase_get_table_schema` after the client exists carries its prefix. */
  lemma TableSchemaFailurePrefixed(env: Env, tableName: string, db: Database)
    requires Configured(env)
    ensures GetTableSchema(env, tableName, db).Threw? ==>
      Text.StartsWith(GetTableSchema(env, tableName, db).thrown.message, "Failed to get table schema: ")
  {
  }

  /** A database error while listing tables always yields the same message, whatever the error was. */
  lemma ListTablesErrorFixed(env: Env, db: Database)
    requires Configured(env)
    requires db(ListTablesPlan).Returned? && db(ListTablesPlan).value.error.Some?
    ensures ListTables(env, db)
      == Threw(ErrorValue("Failed to list Supabase tables: " + ListTablesError))
  {
  }

  /**
    Listing tables succeeds exactly when the query settles without an error
    and with no `null` row, and then its value is the projection of the rows;
    a `null` row fails with the prefixed `TypeError`.
  */
  lemma ListTablesSucceedIff(env: Env, db: Database)
    requires Configured(env)
    ensures ListTables(env, db).Returned? <==>
      db(ListTablesPlan).Returned? && db(ListTablesPlan).value.error.None? && !HasNullRow(db(ListTablesPlan).value.data)
    ensures ListTables(env, db).Returned? ==> ListTables(env, db).value == TablesResult(db(ListTablesPlan).value)
    ensures db(ListTablesPlan).Returned? && db(ListTablesPlan).value.error.None? && HasNullRow(db(ListTablesPlan).value.data) ==>
      ListTables(env, db) == Threw(Rethrow("Failed to list Supabase tables", NullRead("table_name")))
  {
  }

  /** The same for the column listing of `supabase_get_table_schema`. */
  lemma TableSchemaSucceedIff(env: Env, tableName: string, db: Database)
    requires Configured(env)
    ensures var o := db(TableSchemaPlan(tableName));
      GetTableSchema(env, tableName, db).Returned? <==>
        o.Returned? && o.value.error.None? && !HasNullRow(o.value.data)
    ensures GetTableSchema(env, tableName, db).Returned? ==>
      GetTableSchema(env, tableName, db).value == SchemaResult(tableName, db(TableSchemaPlan(tableName)).value)
    ensures var o := db(TableSchemaPlan(tableName));
      o.Returned? && o.value.error.None? && HasNullRow(o.value.data) ==>
        GetTableSchema(env, tableName, db) == Threw(Rethrow("Failed to get table schema", NullRead("column_name")))
  {
  }

  /** `count` is the number of returned rows, 0 for `null` data. */
  lemma CountIsRowCount(resp: Response)
    ensures Get(ReadResult(resp).fields, "count") == Some(JNum((if resp.data.Some? then |resp.data.value| else 0) as real))
    ensures Get(ReadResult(resp).fields, "totalCount") == Some(resp.count)
  {
    var fs := ReadResult(resp).fields;
    GetFirstAt(fs, 2);
    GetFirstAt(fs, 3);
  }

  /** The same count for `supabase_execute_query`. */
  lemma ExecuteCountIsRowCount(resp: Response)
    ensures Get(ExecuteResult(resp).fields, "count") == Some(JNum((if resp.data.Some? then |resp.data.value| else 0) as real))
  {
    GetFirstAt(ExecuteResult(resp).fields, 2);
  }

  /** One table entry per row, none for `null` data. */
  lemma TablesPerRow(resp: Response)
    ensures var tables := Get(TablesResult(resp).fields, "tables");
      && tables.Some? && tables.value.JArr?
      && |tables.value.items| == (if resp.data.Some? then |resp.data.value| else 0)
  {
  }

  /** A column is nullable exactly when `is_nullable` is the string `YES`. */
  lemma NullableIffYes(row: Json)
    ensures Get(ColumnEntry(row).fields, "nullable") == Some(JBool(true))
      <==> Prop(row, "is_nullable") == Some(JStr("YES"))
    ensures Get(ColumnEntry(row).fields, "nullable").Some?
  {
    var head := OptionalField("name", Prop(row, "column_name")) + OptionalField("type", Prop(row, "data_type"));
    var fs := ColumnEntry(row).fields;
    var v := JBool(Prop(row, "is_nullable") == Some(JStr("YES")));
    assert fs == head + [Field("nullable", v)] + OptionalField("default", Prop(row, "column_default"));
    assert forall i :: 0 <= i < |head| ==> head[i].key != "nullable";
    assert fs[|head|] == Field("nullable", v);
    GetFirstAt(fs, |head|);
  }
}
