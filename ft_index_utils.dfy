/** The query side: issuing a text-search predicate's pattern query with
    bounded retry, and rewriting the predicate into equality filters. */
module FTIndexUtils {
  import opened Wrappers
  import opened Adapter

  datatype TextSearchKind = TSFuzzy | TSPrefix | TSRegexp | TSWildcard

  /** The argument of a text-search predicate: the property `from.prop` and
      the pattern to search for. */
  datatype TextSearchArgument = TextSearchArgument(from: string, prop: string, val: string)

  /** The expression kinds the rewrite reads or builds; `OtherExpr` stands for
      every other kind. */
  datatype Expr =
    | TextSearchExpr(kind: TextSearchKind, arg: TextSearchArgument)
    | TagProperty(tag: string, prop: string)
    | EdgeProperty(edge: string, prop: string)
    | Constant(value: string)
    | RelEQ(left: Expr, right: Expr)
    | LogicalOr(operands: seq<Expr>)
    | OtherExpr

  /** The adapter's four pattern operations. */
  datatype SearchOp = Fuzzy | Prefix | Regexp | Wildcard

  /** One adapter call: the operation, the index and the pattern. */
  datatype Query = Query(op: SearchOp, index: string, pattern: string)

  /** What the adapter answers to attempt number `n` (from 0) of a query. */
  type SearchOracle = (Query, nat) -> Result<ESQueryResult, Status>

  predicate NeedTextSearch(expr: Expr)
  {
    match expr
    case TextSearchExpr(_, _) => true
    case _ => false
  }

  /** The adapter operation each text-search kind is sent to. */
  function OperationFor(kind: TextSearchKind): SearchOp
  {
    match kind
    case TSFuzzy => Fuzzy
    case TSPrefix => Prefix
    case TSRegexp => Regexp
    case TSWildcard => Wildcard
  }

  /** Different kinds go to different operations. */
  lemma OperationForInjective(k1: TextSearchKind, k2: TextSearchKind)
    ensures OperationFor(k1) == OperationFor(k2) ==> k1 == k2
  {
  }

  /** The adapter call `textSearch` repeats, if the expression has one. */
  function TextSearchQuery(expr: Expr, index: string): (q: Option<Query>)
    ensures q.Some? <==> NeedTextSearch(expr)
    ensures q.Some? ==> q.value == Query(OperationFor(expr.kind), index, expr.arg.val)
  {
    match expr
    case TextSearchExpr(kind, arg) => Some(Query(OperationFor(kind), index, arg.val))
    case _ => None
  }

  /** The number of attempts: the configured retry count, and at least one. */
  function RetryBudget(retryTimes: nat): (n: nat)
    ensures n >= 1
    ensures retryTimes > 0 ==> n == retryTimes
  {
    if retryTimes > 0 then retryTimes else 1
  }

  /** The outcome of attempts `attempt`, `attempt + 1`, ... up to `budget`:
      the first success, or the last failure. */
  function Retried(q: Query, search: SearchOracle, attempt: nat, budget: nat): Result<ESQueryResult, Status>
    requires attempt < budget
    decreases budget - attempt
  {
    var r := search(q, attempt);
    if r.Success? || attempt + 1 == budget then r else Retried(q, search, attempt + 1, budget)
  }

  /** The outcome of `textSearch`. */
  function TextSearchOutcome(expr: Expr, index: string, search: SearchOracle, retryTimes: nat)
    : (r: Result<ESQueryResult, Status>)
    ensures r.Success? ==> NeedTextSearch(expr)
  {
    match TextSearchQuery(expr, index)
    case None => Failure(SemanticError("text search expression error"))
    case Some(q) => Retried(q, search, 0, RetryBudget(retryTimes))
  }

  /** When attempt `k` is the first to succeed within the budget, its result
      is the outcome. */
  lemma {:induction false} RetriedFirstSuccess(q: Query, search: SearchOracle, from: nat, k: nat, budget: nat)
    requires from <= k < budget
    requires forall j :: from <= j < k ==> search(q, j).Failure?
    requires search(q, k).Success?
    ensures Retried(q, search, from, budget) == search(q, k)
    decreases k - from
  {
    if from < k {
      RetriedFirstSuccess(q, search, from + 1, k, budget);
    }
  }

  /** When every attempt fails, the outcome is the last attempt's failure. */
  lemma {:induction false} RetriedAllFail(q: Query, search: SearchOracle, from: nat, budget: nat)
    requires from < budget
    requires forall j :: from <= j < budget ==> search(q, j).Failure?
    ensures Retried(q, search, from, budget) == search(q, budget - 1)
    decreases budget - from
  {
    if from + 1 < budget {
      RetriedAllFail(q, search, from + 1, budget);
    }
  }

  /** `needTextSearch` decides whether the adapter is consulted at all: with
      an adapter that always answers, the search succeeds exactly for the
      expressions it accepts, and every other expression gets the semantic
      error without a call. */
  lemma NeedTextSearchDecidesOutcome(expr: Expr, index: string, found: ESQueryResult, retryTimes: nat)
    ensures NeedTextSearch(expr) <==>
      TextSearchOutcome(expr, index, (q, n) => Success(found), retryTimes) == Success(found)
    ensures !NeedTextSearch(expr) ==>
      TextSearchOutcome(expr, index, (q, n) => Success(found), retryTimes) == Failure(SemanticError("text search expression error"))
  {
    if NeedTextSearch(expr) {
      var q := TextSearchQuery(expr, index).value;
      RetriedFirstSuccess(q, (q, n) => Success(found), 0, 0, RetryBudget(retryTimes));
    }
  }

  /** A non-text-search expression fails with a semantic error, and a
      text-search one never does unless the adapter itself says so. */
  lemma TextSearchRejectsOtherKinds(expr: Expr, index: string, search: SearchOracle, retryTimes: nat)
    ensures !NeedTextSearch(expr) ==>
      TextSearchOutcome(expr, index, search, retryTimes) == Failure(SemanticError("text search expression error"))
    ensures NeedTextSearch(expr) ==>
      var q := TextSearchQuery(expr, index).value;
      exists j :: 0 <= j < RetryBudget(retryTimes) && TextSearchOutcome(expr, index, search, retryTimes) == search(q, j)
  {
    if NeedTextSearch(expr) {
      var q := TextSearchQuery(expr, index).value;
      var budget := RetryBudget(retryTimes);
      var k := 0;
      while k < budget && search(q, k).Failure?
        invariant k <= budget
        invariant forall j :: 0 <= j < k ==> search(q, j).Failure?
      {
        k := k + 1;
      }
      if k < budget {
        RetriedFirstSuccess(q, search, 0, k, budget);
      } else {
        RetriedAllFail(q, search, 0, budget);
      }
    }
  }

  /** Runs the text-search predicate's query against the adapter, at most
      `RetryBudget(retryTimes)` times, stopping at the first success.
      `attempts` counts the adapter calls. */
  method TextSearch(expr: Expr, index: string, search: SearchOracle, retryTimes: nat)
    returns (r: Result<ESQueryResult, Status>, ghost attempts: nat)
    ensures r == TextSearchOutcome(expr, index, search, retryTimes)
    ensures !NeedTextSearch(expr) ==> attempts == 0
    ensures NeedTextSearch(expr) ==>
      var q := TextSearchQuery(expr, index).value;
      && 1 <= attempts <= RetryBudget(retryTimes)
      && (forall j :: 0 <= j < attempts - 1 ==> search(q, j).Failure?)
      && r == search(q, attempts - 1)
      && (attempts < RetryBudget(retryTimes) ==> r.Success?)
  {
    var query := TextSearchQuery(expr, index);
    if query.None? {
      return Failure(SemanticError("text search expression error")), 0;
    }
    var q := query.value;
    var budget := RetryBudget(retryTimes);
    var retryCnt := budget;
    var attempt: nat := 0;
    // Overwritten by the first attempt.
    r := Failure(Error(""));
    while retryCnt > 0
      invariant attempt + retryCnt == budget
      invariant forall j :: 0 <= j < attempt ==> search(q, j).Failure?
      invariant attempt > 0 ==> r == search(q, attempt - 1)
      invariant attempt < budget ==> Retried(q, search, attempt, budget) == Retried(q, search, 0, budget)
      invariant attempt == budget ==> r == Retried(q, search, 0, budget)
      decreases retryCnt
    {
      retryCnt := retryCnt - 1;
      r := search(q, attempt);
      attempt := attempt + 1;
      if r.Success? {
        break;
      }
    }
    attempts := attempt;
  }

  /** The property the predicate names: an edge property in an edge context,
      a tag property otherwise, from the same `from` and `prop`. */
  function PropertyOf(isEdge: bool, arg: TextSearchArgument): (p: Expr)
  {
    if isEdge then EdgeProperty(arg.from, arg.prop) else TagProperty(arg.from, arg.prop)
  }

  /** The replacement filter for the matches `items`: none when there are
      none, a bare equality for one, else the OR of one equality per match. */
  function EqualityFilter(prop: Expr, items: seq<Item>): (f: Option<Expr>)
  {
    if |items| == 0 then None
    else if |items| == 1 then Some(RelEQ(prop, Constant(items[0].text)))
    else Some(LogicalOr(seq(|items|, i requires 0 <= i < |items| => RelEQ(prop, Constant(items[i].text)))))
  }

  /** Whether filter `e` keeps a row in which property `prop` has value `v`
      (for the equality and disjunction shapes the rewrite builds). */
  predicate Accepts(e: Expr, prop: Expr, v: string)
    decreases e
  {
    match e
    case RelEQ(left, right) => left == prop && right == Constant(v)
    case LogicalOr(operands) => exists k :: 0 <= k < |operands| && Accepts(operands[k], prop, v)
    case _ => false
  }

  /** The rewritten filter keeps exactly the rows whose property value is one
      of the matched texts; with no match there is no filter (nothing matches). */
  lemma EqualityFilterAcceptsMatches(prop: Expr, items: seq<Item>, v: string)
    ensures EqualityFilter(prop, items).None? <==> |items| == 0
    ensures EqualityFilter(prop, items).Some? ==>
      (Accepts(EqualityFilter(prop, items).value, prop, v) <==> exists i :: 0 <= i < |items| && items[i].text == v)
  {
    if |items| > 1 {
      var ops := EqualityFilter(prop, items).value.operands;
      if exists i :: 0 <= i < |items| && items[i].text == v {
        var i :| 0 <= i < |items| && items[i].text == v;
        assert Accepts(ops[i], prop, v);
      }
    }
  }

  /** `rewriteTSFilter`: a search failure is passed on; otherwise the matches
      become the equality filter over the predicate's property. */
  method RewriteTSFilter(isEdge: bool, expr: Expr, index: string, search: SearchOracle, retryTimes: nat)
    returns (r: Result<Option<Expr>, Status>)
    ensures var outcome := TextSearchOutcome(expr, index, search, retryTimes);
      && (outcome.Failure? ==> r == Failure(outcome.error))
      && (outcome.Success? ==> r == Success(EqualityFilter(PropertyOf(isEdge, expr.arg), outcome.value.items)))
  {
    ghost var attempts;
    var vRet;
    vRet, attempts := TextSearch(expr, index, search, retryTimes);
    if vRet.Failure? {
      return Failure(vRet.error);
    }
    var items := vRet.value.items;
    if |items| == 0 {
      return Success(None);
    }
    var tsArg := expr.arg;
    var propExpr := if isEdge then EdgeProperty(tsArg.from, tsArg.prop) else TagProperty(tsArg.from, tsArg.prop);
    var rels: seq<Expr> := [];
    var i := 0;
    while i < |items|
      invariant 0 <= i <= |items|
      invariant |rels| == i
      invariant forall j :: 0 <= j < i ==> rels[j] == RelEQ(propExpr, Constant(items[j].text))
    {
      rels := rels + [RelEQ(propExpr, Constant(items[i].text))];
      i := i + 1;
    }
    if |rels| == 1 {
      return Success(Some(rels[0]));
    }
    assert rels == seq(|items|, j requires 0 <= j < |items| => RelEQ(propExpr, Constant(items[j].text)));
    return Success(Some(LogicalOr(rels)));
  }

  /** One entry of the service-client list held by the meta service. */
  datatype ServiceClient = ServiceClient(host: string, connType: Option<string>, user: Option<string>, pwd: Option<string>)

  /** `clients` describes the endpoints `tcs`, one per entry in order, with
      protocol "http" and empty user and password where none is given. */
  predicate DescribesEndpoints(clients: seq<ESClient>, tcs: seq<ServiceClient>)
  {
    && |clients| == |tcs|
    && forall i :: 0 <= i < |tcs| ==>
      && clients[i].protocol == (if tcs[i].connType.Some? then tcs[i].connType.value else "http")
      && clients[i].address == tcs[i].host
      && clients[i].user == (if tcs[i].user.Some? then tcs[i].user.value else "")
      && clients[i].password == (if tcs[i].pwd.Some? then tcs[i].pwd.value else "")
  }

  /** The loop of `getESAdapter` that builds one client per entry. */
  method BuildClients(tcs: seq<ServiceClient>) returns (clients: seq<ESClient>)
    ensures DescribesEndpoints(clients, tcs)
  {
    clients := [];
    var i := 0;
    while i < |tcs|
      invariant 0 <= i <= |tcs|
      invariant DescribesEndpoints(clients, tcs[..i])
    {
      var c := tcs[i];
      var protocol := c.connType.GetOr("http");
      var user := c.user.GetOr("");
      var password := c.pwd.GetOr("");
      clients := clients + [ESClient(protocol, c.host, user, password)];
      i := i + 1;
    }
    assert tcs[..i] == tcs;
  }

  /** `getESAdapter`: fails when the client list cannot be read or is empty,
      and otherwise builds an adapter over one client per entry. */
  method GetESAdapter(tcs: Result<seq<ServiceClient>, Status>) returns (r: Result<ESAdapter, Status>)
    ensures tcs.Failure? ==> r == Failure(tcs.error)
    ensures tcs.Success? && tcs.value == [] ==> r == Failure(SemanticError("No text search client found"))
    ensures tcs.Success? && tcs.value != [] ==>
      r.Success? && fresh(r.value) && DescribesEndpoints(r.value.clients, tcs.value)
  {
    if tcs.Failure? {
      return Failure(tcs.error);
    }
    if tcs.value == [] {
      return Failure(SemanticError("No text search client found"));
    }
    var clients := BuildClients(tcs.value);
    var adapter := new ESAdapter(clients);
    return Success(adapter);
  }
}
