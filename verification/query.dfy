/** The SQL text and argument list that `dAPIReadHandler` assembles for a
    list read. The query helpers whose bodies are elsewhere in the
    repository (field list, join, filters, group-by, order, limit, offset and
    the schema's list modifier) are inputs: a fragment of SQL text, or a
    fragment plus the arguments bound to its `?` placeholders. */
module Query {
  import opened Base
  import Text

  /** A SQL condition and the arguments for its placeholders, in order. */
  datatype Fragment = Fragment(sql: string, args: seq<Value>)

  /** What the query helpers return for one list request. */
  datatype ListQuery = ListQuery(
    fields: string,        // getQueryFields; "" means no explicit projection
    join: string,          // getQueryJoin
    filter: Fragment,      // getFilters
    groupBy: string,       // getQueryGroupBy
    order: string,         // getQueryOrder
    limit: string,         // getQueryLimit
    offset: string)        // getQueryOffset

  /** The statement handed to the database driver. */
  datatype Statement = Statement(sql: string, args: seq<Value>)

  /** The placeholder count of a fragment matches its argument count. */
  predicate Balanced(f: Fragment)
  {
    Text.Count(f.sql, '?') == |f.args|
  }

  /** Go's map index: a missing key reads as the zero value "". */
  function Lookup(params: map<string, string>, key: string): string
  {
    if key in params then params[key] else ""
  }

  /** `DISTINCT` is requested exactly when the `$distinct` parameter is
      present and equal to "1"; an absent parameter never requests it. */
  function DistinctRequested(params: map<string, string>): (d: bool)
    ensures d <==> "$distinct" in params && params["$distinct"] == "1"
    ensures "$distinct" !in params ==> !d
  {
    Lookup(params, "$distinct") == "1"
  }

  const FieldsToken: string := "{FIELDS}"
  const TableToken: string := "{TABLE_NAME}"

  /** The statement skeleton before substitution. */
  function Template(distinct: bool): string
  {
    if distinct then "SELECT DISTINCT {FIELDS} FROM {TABLE_NAME}"
    else "SELECT {FIELDS} FROM {TABLE_NAME}"
  }

  /** The text before the field list. */
  function SelectKeyword(distinct: bool): string
  {
    if distinct then "SELECT DISTINCT " else "SELECT "
  }

  /** The projection: the helper's field list, or `*` when it gave none. */
  function FieldList(fields: string): (fl: string)
    ensures fl != ""
    ensures fields != "" ==> fl == fields
    ensures fields == "" ==> fl == "*"
  {
    if fields != "" then fields else "*"
  }

  /** The skeleton with `{TABLE_NAME}` replaced first and `{FIELDS}` second,
      both with `strings.Replace(…, -1)`. The result is the select keyword,
      the projection, ` FROM ` and the table name; because the table is
      substituted first, a table name that itself contains `{FIELDS}` has
      that token replaced too. */
  function SelectHeader(distinct: bool, table: string, fields: string): (h: string)
    ensures h == SelectKeyword(distinct) + FieldList(fields) + " FROM "
                 + Text.ReplaceAll(table, FieldsToken, FieldList(fields))
  {
    TemplatePieces(distinct);
    SubstituteBoth(SelectKeyword(distinct), table, FieldList(fields));
    var withTable := Text.ReplaceAll(Template(distinct), TableToken, table);
    Text.ReplaceAll(withTable, FieldsToken, FieldList(fields))
  }

  /** Both substitutions on a skeleton whose keyword holds no `{`. */
  lemma SubstituteBoth(kw: string, table: string, fl: string)
    requires '{' !in kw
    ensures Text.ReplaceAll(Text.ReplaceAll(kw + (Middle + TableToken), TableToken, table), FieldsToken, fl)
            == kw + fl + " FROM " + Text.ReplaceAll(table, FieldsToken, fl)
  {
    Text.ReplaceSkip(kw, Middle + TableToken, TableToken, table);
    TableStep(table);
    MiddleSplit(table);
    FieldsStep(kw, table, fl);
  }

  /** The skeleton is the keyword, the field token, ` FROM ` and the table token. */
  lemma TemplatePieces(distinct: bool)
    ensures Template(distinct) == SelectKeyword(distinct) + (Middle + TableToken)
  {
    if distinct {
      DistinctTemplatePieces();
    } else {
      PlainTemplatePieces();
    }
  }

  lemma PlainTemplatePieces()
    ensures "SELECT {FIELDS} FROM {TABLE_NAME}" == "SELECT " + ("{FIELDS} FROM " + "{TABLE_NAME}")
  {
  }

  lemma DistinctTemplatePieces()
    ensures "SELECT DISTINCT {FIELDS} FROM {TABLE_NAME}" == "SELECT DISTINCT " + ("{FIELDS} FROM " + "{TABLE_NAME}")
  {
  }

  lemma MiddleSplit(table: string)
    ensures Middle + table == FieldsToken + (" FROM " + table)
  {
  }

  /** The text between the keyword and the table token. */
  const Middle: string := "{FIELDS} FROM "

  /** Only the trailing token of `{FIELDS} FROM {TABLE_NAME}` matches the
      table token. */
  lemma TableStep(table: string)
    ensures Text.ReplaceAll(Middle + TableToken, TableToken, table) == Middle + table
  {
    var s := Middle + TableToken;
    assert s[1] != TableToken[1];
    assert s[1..] == Middle[1..] + TableToken;
    Text.ReplaceSkip(Middle[1..], TableToken, TableToken, table);
    TableTokenAlone(table);
    Regroup(Middle, table);
  }

  lemma TableTokenAlone(table: string)
    ensures Text.ReplaceAll(TableToken, TableToken, table) == table
  {
    assert TableToken == TableToken + "";
    Text.ReplaceHead(TableToken, table, "");
  }

  lemma Regroup(m: string, t: string)
    requires m != []
    ensures [m[0]] + (m[1..] + t) == m + t
  {
  }

  /** Substituting the projection: the token right after the keyword. */
  lemma FieldsStep(kw: string, table: string, fl: string)
    requires '{' !in kw
    ensures Text.ReplaceAll(kw + (FieldsToken + (" FROM " + table)), FieldsToken, fl)
            == kw + fl + " FROM " + Text.ReplaceAll(table, FieldsToken, fl)
  {
    Text.ReplaceSkip(kw, FieldsToken + (" FROM " + table), FieldsToken, fl);
    Text.ReplaceHead(FieldsToken, fl, " FROM " + table);
    Text.ReplaceSkip(" FROM ", table, FieldsToken, fl);
  }

  /** For a table name without the `{FIELDS}` token (every identifier) the
      header reads `SELECT [DISTINCT] <fields or *> FROM <table>`. */
  lemma HeaderOfPlainTable(distinct: bool, table: string, fields: string)
    requires !Text.Occurs(table, FieldsToken)
    ensures SelectHeader(distinct, table, fields)
            == SelectKeyword(distinct) + FieldList(fields) + " FROM " + table
  {
    Text.ReplaceAbsent(table, FieldsToken, FieldList(fields));
  }

  /** The statement starts with `SELECT DISTINCT ` when the request sets
      `$distinct` to "1"; otherwise it does not, unless the projection
      itself begins with the word DISTINCT. */
  lemma HeaderDistinct(params: map<string, string>, table: string, fields: string)
    ensures var h := SelectHeader(DistinctRequested(params), table, fields);
            && (DistinctRequested(params) ==> |h| >= 16 && h[..16] == "SELECT DISTINCT ")
            && (!DistinctRequested(params) && !(|fields| >= 8 && fields[..8] == "DISTINCT") ==>
                  !(|h| >= 16 && h[..16] == "SELECT DISTINCT "))
  {
    var distinct := DistinctRequested(params);
    var fl := FieldList(fields);
    var rest := Text.ReplaceAll(table, FieldsToken, fl);
    if distinct {
      DistinctPrefix(fl + " FROM " + rest);
    } else if !(|fields| >= 8 && fields[..8] == "DISTINCT") {
      PlainHeaderNotDistinct(fl, rest);
    }
  }

  lemma DistinctPrefix(rest: string)
    ensures var h := "SELECT DISTINCT " + rest; |h| >= 16 && h[..16] == "SELECT DISTINCT "
  {
  }

  lemma PlainHeaderNotDistinct(fl: string, rest: string)
    requires fl != [] && !(|fl| >= 8 && fl[..8] == "DISTINCT")
    ensures var h := "SELECT " + fl + " FROM " + rest;
            !(|h| >= 16 && h[..16] == "SELECT DISTINCT ")
  {
    var h := "SELECT " + fl + " FROM " + rest;
    var d := "SELECT DISTINCT ";
    if |h| >= 16 {
      if |fl| >= 8 {
        assert h[..16][7..15] == fl[..8];
        assert d[7..15] == "DISTINCT";
      } else {
        var n := |fl|;
        assert h[..16][8 + n] == 'F';
        assert d[8 + n] != 'F';
      }
    }
  }

  /** Applying the schema's list modifier (`lm`, its answer for the session
      user) to the request's filters. */
  function ApplyListModifier(filter: Fragment, lm: Option<Fragment>): (r: Fragment)
    // no modifier, or one with an empty condition: filters unchanged
    ensures lm.None? || lm.value.sql == "" ==> r == filter
    // otherwise the modifier's arguments follow the filter arguments
    ensures lm.Some? && lm.value.sql != "" ==> r.args == filter.args + lm.value.args
    // and its condition is conjoined, or stands alone
    ensures lm.Some? && lm.value.sql != "" && filter.sql == "" ==> r.sql == lm.value.sql
    ensures lm.Some? && lm.value.sql != "" && filter.sql != "" ==>
              r.sql == filter.sql + " AND " + lm.value.sql
    // the result is empty exactly when both conditions are
    ensures r.sql == "" <==> filter.sql == "" && (lm.None? || lm.value.sql == "")
    // placeholders still line up with arguments
    ensures Balanced(filter) && (lm.Some? ==> Balanced(lm.value)) ==> Balanced(r)
  {
    if lm.None? || lm.value.sql == "" then filter
    else
      var q := if filter.sql != "" then filter.sql + " AND " else filter.sql;
      Text.CountConcat(filter.sql, " AND ", '?');
      Text.CountConcat(q, lm.value.sql, '?');
      Fragment(q + lm.value.sql, filter.args + lm.value.args)
  }

  /** The optional clauses, in the order the handler appends them. */
  datatype Keyword = Where | GroupBy | OrderBy | Limit | Offset

  function Rank(k: Keyword): nat
  {
    match k
    case Where => 0
    case GroupBy => 1
    case OrderBy => 2
    case Limit => 3
    case Offset => 4
  }

  /** The text that introduces a clause. */
  function KeywordText(k: Keyword): string
  {
    match k
    case Where => " WHERE "
    case GroupBy => " GROUP BY "
    case OrderBy => " ORDER BY "
    case Limit => " LIMIT "
    case Offset => " OFFSET "
  }

  /** The fragments the clauses are made of. */
  datatype Tail = Tail(where: string, groupBy: string, order: string, limit: string, offset: string)

  function FragmentOf(t: Tail, k: Keyword): string
  {
    match k
    case Where => t.where
    case GroupBy => t.groupBy
    case OrderBy => t.order
    case Limit => t.limit
    case Offset => t.offset
  }

  datatype Clause = Clause(kw: Keyword, body: string)

  /** Every clause in `cs` ranks above `r`. */
  predicate Above(r: nat, cs: seq<Clause>)
  {
    forall i :: 0 <= i < |cs| ==> r < Rank(cs[i].kw)
  }

  /** Keywords strictly increase along the list, so each appears at most once. */
  predicate Ordered(cs: seq<Clause>)
  {
    forall i, j :: 0 <= i < j < |cs| ==> Rank(cs[i].kw) < Rank(cs[j].kw)
  }

  /** Every keyword with its fragment, in order, whether empty or not. */
  function Candidates(t: Tail): (cs: seq<Clause>)
    ensures |cs| == 5 && Ordered(cs)
    ensures forall k: Keyword :: cs[Rank(k)] == Clause(k, FragmentOf(t, k))
  {
    [Clause(Where, t.where), Clause(GroupBy, t.groupBy), Clause(OrderBy, t.order),
     Clause(Limit, t.limit), Clause(Offset, t.offset)]
  }

  /** The clauses whose fragment is not empty, in their original order. */
  function NonEmpty(cs: seq<Clause>): seq<Clause>
  {
    if cs == [] then []
    else if cs[0].body != "" then [cs[0]] + NonEmpty(cs[1..])
    else NonEmpty(cs[1..])
  }

  lemma {:induction false} NonEmptyMembers(cs: seq<Clause>)
    ensures forall c :: c in NonEmpty(cs) <==> c in cs && c.body != ""
  {
    if cs != [] {
      NonEmptyMembers(cs[1..]);
      assert forall c :: c in cs <==> c == cs[0] || c in cs[1..];
    }
  }

  lemma {:induction false} NonEmptyAbove(r: nat, cs: seq<Clause>)
    requires Above(r, cs)
    ensures Above(r, NonEmpty(cs))
  {
    if cs != [] {
      NonEmptyAbove(r, cs[1..]);
    }
  }

  lemma {:induction false} NonEmptyOrdered(cs: seq<Clause>)
    requires Ordered(cs)
    ensures Ordered(NonEmpty(cs))
  {
    if cs != [] {
      NonEmptyOrdered(cs[1..]);
      if cs[0].body != "" {
        var rest := NonEmpty(cs[1..]);
        NonEmptyAbove(Rank(cs[0].kw), cs[1..]);
        var r := [cs[0]] + rest;
        forall i, j | 0 <= i < j < |r| ensures Rank(r[i].kw) < Rank(r[j].kw) {
          assert r[j] == rest[j - 1];
        }
      }
    }
  }

  /** The clauses a list statement carries. */
  function Clauses(t: Tail): (cs: seq<Clause>)
    // no keyword is followed by an empty fragment, and each clause carries
    // the fragment of its own keyword
    ensures forall i :: 0 <= i < |cs| ==> cs[i].body != "" && cs[i].body == FragmentOf(t, cs[i].kw)
    // keywords appear in the fixed order, each at most once
    ensures Ordered(cs)
    // a keyword appears exactly when its fragment is non-empty
    ensures forall k: Keyword :: Clause(k, FragmentOf(t, k)) in cs <==> FragmentOf(t, k) != ""
  {
    var all := Candidates(t);
    NonEmptyMembers(all);
    NonEmptyOrdered(all);
    var cs := NonEmpty(all);
    assert forall i :: 0 <= i < |cs| ==> cs[i] in all;
    cs
  }

  /** The SQL text of one clause. */
  function ClauseText(c: Clause): string
  {
    KeywordText(c.kw) + c.body
  }

  /** `sql` with the text of each clause appended in turn. */
  function Render(sql: string, cs: seq<Clause>): string
    decreases |cs|
  {
    if cs == [] then sql else Render(sql + ClauseText(cs[0]), cs[1..])
  }

  /** The join, preceded by a space, if there is one. */
  /** The join clause as appended after the header: nothing when there is
      no join, otherwise the join text behind a single separating space. */
  function JoinText(join: string): (j: string)
    ensures j == "" <==> join == ""
    ensures j != "" ==> j[0] == ' ' && j[1..] == join
  {
    if join != "" then " " + join else ""
  }

  /** `if fragment != "" { SQL += " KEYWORD " + fragment }` */
  function Append(sql: string, c: Clause): (r: string)
    ensures sql <= r
    ensures r == sql <==> c.body == ""
    ensures c.body != "" ==> r[|sql|..] == KeywordText(c.kw) + c.body
  {
    if c.body != "" then sql + ClauseText(c) else sql
  }

  /** The list-read statement, built in the handler's order: header, join,
      then WHERE, GROUP BY, ORDER BY, LIMIT and OFFSET, each only when its
      fragment is non-empty. */
  function ListSQL(distinct: bool, table: string, q: ListQuery, lm: Option<Fragment>): (st: Statement)
    // the header and the optional join come first
    ensures SelectHeader(distinct, table, q.fields) + JoinText(q.join) <= st.sql
    // with no clause fragment, nothing follows them
    ensures TailOf(q, lm) == Tail("", "", "", "", "") ==>
              st.sql == SelectHeader(distinct, table, q.fields) + JoinText(q.join)
    // the arguments are the filter's, followed by the list modifier's
    ensures st.args == ApplyListModifier(q.filter, lm).args
  {
    var sql0 := SelectHeader(distinct, table, q.fields);
    var sql1 := if q.join != "" then sql0 + (" " + q.join) else sql0;
    var filter := ApplyListModifier(q.filter, lm);
    var sql2 := Append(sql1, Clause(Where, filter.sql));
    var sql3 := Append(sql2, Clause(GroupBy, q.groupBy));
    var sql4 := Append(sql3, Clause(OrderBy, q.order));
    var sql5 := Append(sql4, Clause(Limit, q.limit));
    var sql6 := Append(sql5, Clause(Offset, q.offset));
    Statement(sql6, filter.args)
  }

  /** The fragments of the optional clauses of a list request. */
  function TailOf(q: ListQuery, lm: Option<Fragment>): Tail
  {
    Tail(ApplyListModifier(q.filter, lm).sql, q.groupBy, q.order, q.limit, q.offset)
  }

  /** Appending each candidate to `sql` in turn, empty ones adding nothing. */
  function AppendAll(sql: string, cs: seq<Clause>): string
    decreases |cs|
  {
    if cs == [] then sql else AppendAll(Append(sql, cs[0]), cs[1..])
  }

  /** Appending candidates one by one yields exactly the non-empty
      clauses appended. */
  lemma {:induction false} AppendAllRenders(sql: string, cs: seq<Clause>)
    ensures AppendAll(sql, cs) == Render(sql, NonEmpty(cs))
    decreases |cs|
  {
    if cs != [] {
      AppendAllRenders(Append(sql, cs[0]), cs[1..]);
      if cs[0].body != "" {
        assert ([cs[0]] + NonEmpty(cs[1..]))[1..] == NonEmpty(cs[1..]);
      }
    }
  }

  lemma AppendAllFive(sql: string, a: Clause, b: Clause, c: Clause, d: Clause, e: Clause)
    ensures AppendAll(sql, [a, b, c, d, e]) == Append(Append(Append(Append(Append(sql, a), b), c), d), e)
  {
    var s1 := Append(sql, a);
    var s2 := Append(s1, b);
    var s3 := Append(s2, c);
    var s4 := Append(s3, d);
    var s5 := Append(s4, e);
    assert AppendAll(s5, []) == s5;
    assert AppendAll(s4, [e]) == s5;
    assert AppendAll(s3, [d, e]) == s5 by { assert [d, e][1..] == [e]; }
    assert AppendAll(s2, [c, d, e]) == s5 by { assert [c, d, e][1..] == [d, e]; }
    assert AppendAll(s1, [b, c, d, e]) == s5 by { assert [b, c, d, e][1..] == [c, d, e]; }
    assert [a, b, c, d, e][1..] == [b, c, d, e];
  }

  /** The handler's five conditional appends are AppendAll over the
      candidate clauses. */
  lemma ListSQLAppends(distinct: bool, table: string, q: ListQuery, lm: Option<Fragment>)
    ensures ListSQL(distinct, table, q, lm).sql
            == AppendAll(SelectHeader(distinct, table, q.fields) + JoinText(q.join), Candidates(TailOf(q, lm)))
  {
    var t := TailOf(q, lm);
    var sql0 := SelectHeader(distinct, table, q.fields);
    assert sql0 + "" == sql0;
    AppendAllFive(sql0 + JoinText(q.join), Clause(Where, t.where), Clause(GroupBy, t.groupBy),
                  Clause(OrderBy, t.order), Clause(Limit, t.limit), Clause(Offset, t.offset));
  }

  /** The statement is the header and the optional join followed by exactly
      the non-empty clauses, in the fixed order; its arguments are the merged
      filter arguments. */
  lemma ListSQLStructure(distinct: bool, table: string, q: ListQuery, lm: Option<Fragment>)
    ensures var st := ListSQL(distinct, table, q, lm);
            && st.args == ApplyListModifier(q.filter, lm).args
            && st.sql == Render(SelectHeader(distinct, table, q.fields) + JoinText(q.join), Clauses(TailOf(q, lm)))
  {
    ListSQLAppends(distinct, table, q, lm);
    AppendAllRenders(SelectHeader(distinct, table, q.fields) + JoinText(q.join), Candidates(TailOf(q, lm)));
  }

  /** No clause keyword contains a placeholder. */
  lemma KeywordsHaveNoPlaceholder(k: Keyword)
    ensures '?' !in KeywordText(k)
  {
  }

  /** Placeholders in the clause bodies. */
  function BodyPlaceholders(cs: seq<Clause>): nat
  {
    if cs == [] then 0 else Text.Count(cs[0].body, '?') + BodyPlaceholders(cs[1..])
  }

  /** Appending clauses adds exactly their bodies' placeholders. */
  lemma {:induction false} RenderPlaceholders(sql: string, cs: seq<Clause>)
    ensures Text.Count(Render(sql, cs), '?') == Text.Count(sql, '?') + BodyPlaceholders(cs)
    decreases |cs|
  {
    if cs != [] {
      RenderPlaceholders(sql + ClauseText(cs[0]), cs[1..]);
      KeywordsHaveNoPlaceholder(cs[0].kw);
      Text.CountConcat(KeywordText(cs[0].kw), cs[0].body, '?');
      Text.CountConcat(sql, ClauseText(cs[0]), '?');
    }
  }

  /** Dropping empty clauses drops no placeholder. */
  lemma {:induction false} NonEmptyPlaceholders(cs: seq<Clause>)
    ensures BodyPlaceholders(NonEmpty(cs)) == BodyPlaceholders(cs)
  {
    if cs != [] {
      NonEmptyPlaceholders(cs[1..]);
      if cs[0].body != "" {
        assert ([cs[0]] + NonEmpty(cs[1..]))[1..] == NonEmpty(cs[1..]);
      }
    }
  }

  lemma CandidatePlaceholders(t: Tail)
    ensures BodyPlaceholders(Candidates(t))
            == Text.Count(t.where, '?') + Text.Count(t.groupBy, '?') + Text.Count(t.order, '?')
               + Text.Count(t.limit, '?') + Text.Count(t.offset, '?')
  {
    PlaceholdersFive(Clause(Where, t.where), Clause(GroupBy, t.groupBy),
                     Clause(OrderBy, t.order), Clause(Limit, t.limit), Clause(Offset, t.offset));
  }

  lemma PlaceholdersFive(a: Clause, b: Clause, c: Clause, d: Clause, e: Clause)
    ensures BodyPlaceholders([a, b, c, d, e])
            == Text.Count(a.body, '?') + Text.Count(b.body, '?') + Text.Count(c.body, '?')
               + Text.Count(d.body, '?') + Text.Count(e.body, '?')
  {
    var ce := Text.Count(e.body, '?');
    var cd := Text.Count(d.body, '?');
    var cc := Text.Count(c.body, '?');
    var cb := Text.Count(b.body, '?');
    assert BodyPlaceholders([e]) == ce by { assert [e][1..] == []; }
    assert BodyPlaceholders([d, e]) == cd + ce by { assert [d, e][1..] == [e]; }
    assert BodyPlaceholders([c, d, e]) == cc + cd + ce by { assert [c, d, e][1..] == [d, e]; }
    assert BodyPlaceholders([b, c, d, e]) == cb + cc + cd + ce by { assert [b, c, d, e][1..] == [c, d, e]; }
    assert [a, b, c, d, e][1..] == [b, c, d, e];
  }

  /** Injection safety counted in placeholders: when the identifiers the
      helpers produce carry no `?` and every fragment's placeholders match
      its arguments, the finished statement has exactly one `?` per bound
      argument. */
  lemma ListSQLBalanced(distinct: bool, table: string, q: ListQuery, lm: Option<Fragment>)
    requires '?' !in table && '?' !in q.fields && '?' !in q.join
    requires '?' !in q.groupBy && '?' !in q.order && '?' !in q.limit && '?' !in q.offset
    requires Balanced(q.filter) && (lm.Some? ==> Balanced(lm.value))
    ensures var st := ListSQL(distinct, table, q, lm);
            Text.Count(st.sql, '?') == |st.args|
  {
    var filter := ApplyListModifier(q.filter, lm);
    var pre := SelectHeader(distinct, table, q.fields) + JoinText(q.join);
    ListSQLStructure(distinct, table, q, lm);
    HeaderHasNoPlaceholder(distinct, table, q.fields);
    Text.CountConcat(" ", q.join, '?');
    Text.CountConcat(SelectHeader(distinct, table, q.fields), JoinText(q.join), '?');
    var t := TailOf(q, lm);
    RenderPlaceholders(pre, Clauses(t));
    NonEmptyPlaceholders(Candidates(t));
    CandidatePlaceholders(t);
  }

  /** The header carries no placeholder when neither the table nor the
      projection does. */
  lemma HeaderHasNoPlaceholder(distinct: bool, table: string, fields: string)
    requires '?' !in table && '?' !in fields
    ensures Text.Count(SelectHeader(distinct, table, fields), '?') == 0
  {
    var fl := FieldList(fields);
    Text.ReplaceKeepsOut(table, FieldsToken, fl, '?');
    KeywordHasNoPlaceholder(distinct);
    var from := " FROM ";
    assert '?' !in from;
    assert '?' !in SelectKeyword(distinct) + fl + from + Text.ReplaceAll(table, FieldsToken, fl);
  }

  lemma KeywordHasNoPlaceholder(distinct: bool)
    ensures '?' !in SelectKeyword(distinct)
  {
  }

  /** A plain table, no projection, no join and no other clauses: the
      request's filter and the list modifier's condition are conjoined under
      one WHERE, and the arguments follow in the same order. */
  lemma ScopedFilter(table: string, filter: Fragment, scope: Fragment)
    requires !Text.Occurs(table, FieldsToken)
    requires filter.sql != "" && scope.sql != ""
    ensures ListSQL(false, table, ListQuery("", "", filter, "", "", "", ""), Some(scope))
            == Statement("SELECT * FROM " + table + " WHERE " + filter.sql + " AND " + scope.sql,
                         filter.args + scope.args)
  {
    var h := SelectHeader(false, table, "");
    PlainStarHeader(false, table, "");
    var where := filter.sql + " AND " + scope.sql;
    assert ApplyListModifier(filter, Some(scope)).sql == where;
    var sql2 := Append(h, Clause(Where, where));
    assert sql2 == h + (" WHERE " + where);
    assert Append(sql2, Clause(GroupBy, "")) == sql2;
    assert Append(sql2, Clause(OrderBy, "")) == sql2;
    assert Append(sql2, Clause(Limit, "")) == sql2;
    assert Append(sql2, Clause(Offset, "")) == sql2;
    assert ListSQL(false, table, ListQuery("", "", filter, "", "", "", ""), Some(scope)).sql == sql2;
  }

  lemma PlainStarHeader(distinct: bool, table: string, fields: string)
    requires !distinct && fields == "" && !Text.Occurs(table, FieldsToken)
    ensures SelectHeader(distinct, table, fields) == "SELECT * FROM " + table
  {
    HeaderOfPlainTable(distinct, table, fields);
    assert SelectKeyword(distinct) + FieldList(fields) == "SELECT *";
  }
}
