/**
 * `DynamoDBLogHandler.query_log` (src/models.py:171-216): the scan
 * parameters it builds from its optional filters. The scan itself is not
 * part of this model.
 */
module LogStore {
  import opened Wrappers
  import opened PyStrings

  /** A value bound to an expression placeholder: a timestamp or a user id. */
  datatype Value = Num(n: int) | Text(s: string)

  /** The `query_params` dictionary passed to `scan_log`. */
  datatype QueryParams = QueryParams(
    filterExpression: string,
    attributeNames: map<string, string>,
    attributeValues: map<string, Value>,
    limit: int)

  const FromClause := "#ts >= :from_ts"
  const ToClause := "#ts <= :to_ts"
  const UserClause := "user_id = :user_id"
  const DefaultLimit := 100

  /** A clause's place in the fixed order from, to, user. */
  function Rank(clause: string): int {
    if clause == FromClause then 0 else if clause == ToClause then 1 else 2
  }

  /** The clauses `query_log` collects, one per filter that is not `None`, in the order from, to, user. */
  function Clauses(from: Option<int>, to: Option<int>, user: Option<string>): seq<string> {
    (if from.Some? then [FromClause] else [])
    + (if to.Some? then [ToClause] else [])
    + (if user.Some? then [UserClause] else [])
  }

  /**
   * A clause is present exactly when its argument is not `None`; nothing
   * else appears; and present clauses keep the order from, to, user, each
   * at most once.
   */
  lemma ClausesPresentInOrder(from: Option<int>, to: Option<int>, user: Option<string>)
    ensures var cs := Clauses(from, to, user);
      && (FromClause in cs <==> from.Some?)
      && (ToClause in cs <==> to.Some?)
      && (UserClause in cs <==> user.Some?)
      && (forall c :: c in cs ==> c == FromClause || c == ToClause || c == UserClause)
      && (forall i, j :: 0 <= i < j < |cs| ==> Rank(cs[i]) < Rank(cs[j]))
  {
  }

  /**
   * `query_log`'s parameter building: the filter expression joins the
   * present clauses with `" AND "` (empty when no filter is given), the
   * attribute values hold exactly the present placeholders bound to their
   * arguments, `#ts` always names `timestamp`, and the limit is passed on.
   */
  method QueryLogParams(from: Option<int>, to: Option<int>, user: Option<string>, limit: int := DefaultLimit)
    returns (p: QueryParams)
    ensures p.filterExpression == Join(" AND ", Clauses(from, to, user))
    ensures from.None? && to.None? && user.None? ==> p.filterExpression == ""
    ensures p.attributeNames == map["#ts" := "timestamp"]
    ensures p.attributeValues.Keys
         == (if from.Some? then {":from_ts"} else {})
          + (if to.Some? then {":to_ts"} else {})
          + (if user.Some? then {":user_id"} else {})
    ensures from.Some? ==> p.attributeValues[":from_ts"] == Num(from.value)
    ensures to.Some? ==> p.attributeValues[":to_ts"] == Num(to.value)
    ensures user.Some? ==> p.attributeValues[":user_id"] == Text(user.value)
    ensures p.limit == limit
  {
    var filterExpression: seq<string> := [];
    var values: map<string, Value> := map[];
    if from.Some? {
      filterExpression := filterExpression + [FromClause];
      values := values[":from_ts" := Num(from.value)];
    }
    assert filterExpression == Clauses(from, None, None);
    if to.Some? {
      filterExpression := filterExpression + [ToClause];
      values := values[":to_ts" := Num(to.value)];
    }
    assert filterExpression == Clauses(from, to, None);
    if user.Some? {
      filterExpression := filterExpression + [UserClause];
      values := values[":user_id" := Text(user.value)];
    }
    assert filterExpression == Clauses(from, to, user);
    p := QueryParams(Join(" AND ", filterExpression), map["#ts" := "timestamp"], values, limit);
  }

  /** With every filter given, the expression is the three clauses in order, separated by `" AND "`. */
  lemma AllFiltersExpression(from: int, to: int, user: string)
    ensures Join(" AND ", Clauses(Some(from), Some(to), Some(user)))
         == FromClause + " AND " + ToClause + " AND " + UserClause
  {
    var cs := Clauses(Some(from), Some(to), Some(user));
    assert cs == [FromClause, ToClause, UserClause];
    assert cs[1..] == [ToClause, UserClause];
    assert cs[1..][1..] == [UserClause];
    assert Join(" AND ", cs[1..]) == ToClause + " AND " + UserClause;
  }
}
