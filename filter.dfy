/** The two query builders that assemble SQL text and its bound parameters
    from optional request fields: GET /api/Filter over `papers` and
    GET /api/Profile/fetchpdf over `user_uploads`. User input only ever
    travels in the parameter list; the SQL text is built from fixed pieces,
    one `?` per parameter. */
module Filter {
  import opened Common

  /** A bound parameter: one value, or a list that fills an `IN (?)`. */
  datatype Param = Scalar(value: string) | List(values: seq<string>)

  datatype SqlQuery = SqlQuery(sql: string, params: seq<Param>)

  datatype FilterError = NoFilterParameters

  /** The optional query-string fields the filter route reads. */
  datatype FilterQuery = FilterQuery(
    departmentName: Option<string>,
    educationLevelug: Option<string>,
    educationLevelpg: Option<string>,
    fromDate: Option<string>,
    toDate: Option<string>,
    departmentYear: Option<string>,
    sem: Option<string>,
    midSem: Option<string>)

  /** The driver's positional placeholder. */
  const Placeholder := "?"

  const FilterBase := "SELECT * FROM papers WHERE 1=1"
  const DepartmentSql := " AND departmentName = " + Placeholder
  const LevelsSql := " AND educationLevel IN (" + Placeholder + ")"
  const FromYearSql := " AND years >= " + Placeholder
  const ToYearSql := " AND years < " + Placeholder
  const DepartmentYearSql := " AND departmentYear = " + Placeholder

  const UserFileBase := "SELECT * FROM user_uploads WHERE user_id = " + Placeholder
  const PaperNameSql := " AND papername = " + Placeholder
  const PaperLinkSql := " AND paperlink = " + Placeholder

  /** The kinds of condition the two routes add: the filter's, in the order
      it adds them, then the two optional filters of the owner's uploads. */
  datatype ClauseKind =
    | ByDepartment
    | ByLevels
    | FromYear
    | ToYear
    | ByDepartmentYear
    | TermGroup(sem: bool, midSem: bool)
    | ByPaperName
    | ByPaperLink

  /** One condition and the parameter it binds, if any. */
  datatype Clause = Clause(kind: ClauseKind, param: Option<Param>)

  /** Position of a kind in the fixed order the routes add conditions in. */
  function Rank(k: ClauseKind): nat
  {
    match k
    case ByDepartment => 0
    case ByLevels => 1
    case FromYear => 2
    case ToYear => 3
    case ByDepartmentYear => 4
    case TermGroup(_, _) => 5
    case ByPaperName => 6
    case ByPaperLink => 7
  }

  /** `conditions.join(" OR ")` of the term group. */
  function TermConditions(sem: bool, midSem: bool): string
  {
    if sem && midSem then "sem = true OR midSem = true"
    else if sem then "sem = true"
    else if midSem then "midSem = true"
    else ""
  }

  /** SQL text a condition appends. */
  function SqlOf(k: ClauseKind): string
  {
    match k
    case ByDepartment => DepartmentSql
    case ByLevels => LevelsSql
    case FromYear => FromYearSql
    case ToYear => ToYearSql
    case ByDepartmentYear => DepartmentYearSql
    case TermGroup(s, m) => " AND (" + TermConditions(s, m) + ")"
    case ByPaperName => PaperNameSql
    case ByPaperLink => PaperLinkSql
  }

  /** The parameters a condition binds. */
  function Bound(c: Clause): seq<Param>
  {
    if c.param.Some? then [c.param.value] else []
  }

  /** A condition binds a parameter exactly when its text has a placeholder. */
  predicate WellFormed(c: Clause)
  {
    c.param.Some? <==> !c.kind.TermGroup?
  }

  ghost predicate AllWellFormed(cs: seq<Clause>)
  {
    forall i :: 0 <= i < |cs| ==> WellFormed(cs[i])
  }

  function Render(cs: seq<Clause>): string
  {
    if cs == [] then "" else SqlOf(cs[0].kind) + Render(cs[1..])
  }

  function ParamsOf(cs: seq<Clause>): seq<Param>
  {
    if cs == [] then [] else Bound(cs[0]) + ParamsOf(cs[1..])
  }

  function Kinds(cs: seq<Clause>): set<ClauseKind>
  {
    set i | 0 <= i < |cs| :: cs[i].kind
  }

  lemma {:induction false} RenderAppend(cs: seq<Clause>, c: Clause)
    ensures Render(cs + [c]) == Render(cs) + SqlOf(c.kind)
    ensures ParamsOf(cs + [c]) == ParamsOf(cs) + Bound(c)
  {
    if cs != [] {
      assert (cs + [c])[1..] == cs[1..] + [c];
      RenderAppend(cs[1..], c);
      ConcatAssoc(SqlOf(cs[0].kind), Render(cs[1..]), SqlOf(c.kind));
      ConcatAssoc(Bound(cs[0]), ParamsOf(cs[1..]), Bound(c));
    } else {
      assert [c][1..] == [];
    }
  }

  lemma {:induction false} ParamsConcat(a: seq<Clause>, b: seq<Clause>)
    ensures ParamsOf(a + b) == ParamsOf(a) + ParamsOf(b)
  {
    if a != [] {
      assert (a + b)[1..] == a[1..] + b;
      ParamsConcat(a[1..], b);
      ConcatAssoc(Bound(a[0]), ParamsOf(a[1..]), ParamsOf(b));
    } else {
      assert a + b == b;
    }
  }

  lemma KindsConcat(a: seq<Clause>, b: seq<Clause>)
    ensures Kinds(a + b) == Kinds(a) + Kinds(b)
  {
    forall k | k in Kinds(a + b) ensures k in Kinds(a) + Kinds(b) {
      var i :| 0 <= i < |a + b| && (a + b)[i].kind == k;
      if i >= |a| {
        assert b[i - |a|].kind == k;
      }
    }
    forall k | k in Kinds(a) + Kinds(b) ensures k in Kinds(a + b) {
      if k in Kinds(a) {
        var i :| 0 <= i < |a| && a[i].kind == k;
        assert (a + b)[i].kind == k;
      } else {
        var i :| 0 <= i < |b| && b[i].kind == k;
        assert (a + b)[|a| + i].kind == k;
      }
    }
  }

  /** Education levels asked for, "ug" before "pg". */
  function Levels(q: FilterQuery): seq<string>
  {
    (if q.educationLevelug == Some("ug") then ["ug"] else []) +
    (if q.educationLevelpg == Some("pg") then ["pg"] else [])
  }

  function WhenTruthy(o: Option<string>, k: ClauseKind): seq<Clause>
  {
    if Truthy(o) then [Clause(k, Some(Scalar(o.value)))] else []
  }

  function LevelsClause(q: FilterQuery): seq<Clause>
  {
    if Levels(q) != [] then [Clause(ByLevels, Some(List(Levels(q))))] else []
  }

  function TermClause(q: FilterQuery): seq<Clause>
  {
    var sem := q.sem == Some("true");
    var midSem := q.midSem == Some("true");
    if sem || midSem then [Clause(TermGroup(sem, midSem), None)] else []
  }

  /** The conditions GET /api/Filter adds before the term group. */
  function ValuedClauses(q: FilterQuery): seq<Clause>
  {
    WhenTruthy(q.departmentName, ByDepartment) +
    LevelsClause(q) +
    WhenTruthy(q.fromDate, FromYear) +
    WhenTruthy(q.toDate, ToYear) +
    WhenTruthy(q.departmentYear, ByDepartmentYear)
  }

  /** The conditions GET /api/Filter adds for a query, in the order it adds them. */
  function FilterClauses(q: FilterQuery): seq<Clause>
  {
    ValuedClauses(q) + TermClause(q)
  }

  ghost predicate Increasing(cs: seq<Clause>)
  {
    forall i, j :: 0 <= i < j < |cs| ==> Rank(cs[i].kind) < Rank(cs[j].kind)
  }

  ghost predicate RankedBelow(cs: seq<Clause>, r: nat)
  {
    forall i :: 0 <= i < |cs| ==> Rank(cs[i].kind) < r
  }

  /** At most one well-formed condition, of rank `r`. */
  predicate Piece(p: seq<Clause>, r: nat)
  {
    |p| <= 1 && (|p| == 1 ==> Rank(p[0].kind) == r && WellFormed(p[0]))
  }

  lemma AppendPiece(cs: seq<Clause>, p: seq<Clause>, r: nat)
    requires Increasing(cs) && RankedBelow(cs, r) && AllWellFormed(cs) && Piece(p, r)
    ensures Increasing(cs + p) && RankedBelow(cs + p, r + 1) && AllWellFormed(cs + p)
  {
    if p == [] {
      assert cs + p == cs;
    } else {
      var all := cs + p;
      assert forall i :: 0 <= i < |cs| ==> all[i] == cs[i];
      assert all[|cs|] == p[0];
    }
  }

  lemma PieceWhenTruthy(o: Option<string>, k: ClauseKind)
    requires !k.TermGroup?
    ensures Piece(WhenTruthy(o, k), Rank(k))
  {
  }

  lemma PieceLevels(q: FilterQuery)
    ensures Piece(LevelsClause(q), 1)
  {
  }

  lemma PieceTerm(q: FilterQuery)
    ensures Piece(TermClause(q), 5)
  {
  }

  lemma OrderedPieces(d: seq<Clause>, l: seq<Clause>, f: seq<Clause>, t: seq<Clause>, y: seq<Clause>, g: seq<Clause>)
    requires Piece(d, 0) && Piece(l, 1) && Piece(f, 2) && Piece(t, 3) && Piece(y, 4) && Piece(g, 5)
    ensures Increasing(d + l + f + t + y + g) && AllWellFormed(d + l + f + t + y + g)
    ensures RankedBelow(d + l + f + t + y, 5)
  {
    assert Increasing(d) && RankedBelow(d, 1) && AllWellFormed(d);
    AppendPiece(d, l, 1);
    AppendPiece(d + l, f, 2);
    AppendPiece(d + l + f, t, 3);
    AppendPiece(d + l + f + t, y, 4);
    AppendPiece(d + l + f + t + y, g, 5);
  }

  /** Conditions are added in the fixed order department, levels, from,
      to, department year, term group, each kind at most once; every one but
      the term group binds exactly one parameter. */
  lemma FilterClausesOrdered(q: FilterQuery)
    ensures Increasing(FilterClauses(q)) && AllWellFormed(FilterClauses(q))
    ensures RankedBelow(ValuedClauses(q), Rank(TermGroup(false, false)))
  {
    var d := WhenTruthy(q.departmentName, ByDepartment);
    var l := LevelsClause(q);
    var f := WhenTruthy(q.fromDate, FromYear);
    var t := WhenTruthy(q.toDate, ToYear);
    var y := WhenTruthy(q.departmentYear, ByDepartmentYear);
    var g := TermClause(q);
    PieceWhenTruthy(q.departmentName, ByDepartment);
    PieceLevels(q);
    PieceWhenTruthy(q.fromDate, FromYear);
    PieceWhenTruthy(q.toDate, ToYear);
    PieceWhenTruthy(q.departmentYear, ByDepartmentYear);
    PieceTerm(q);
    OrderedPieces(d, l, f, t, y, g);
    assert ValuedClauses(q) == d + l + f + t + y;
  }

  lemma KindsOfPieces(d: seq<Clause>, l: seq<Clause>, f: seq<Clause>, t: seq<Clause>, y: seq<Clause>, g: seq<Clause>)
    ensures Kinds(d + l + f + t + y + g) == Kinds(d) + Kinds(l) + Kinds(f) + Kinds(t) + Kinds(y) + Kinds(g)
  {
    KindsConcat(d, l);
    KindsConcat(d + l, f);
    KindsConcat(d + l + f, t);
    KindsConcat(d + l + f + t, y);
    KindsConcat(d + l + f + t + y, g);
  }

  lemma InWhenTruthy(o: Option<string>, c: ClauseKind, k: ClauseKind)
    ensures k in Kinds(WhenTruthy(o, c)) <==> Truthy(o) && k == c
  {
    if Truthy(o) {
      assert WhenTruthy(o, c)[0].kind == c;
    }
  }

  lemma InLevels(q: FilterQuery, k: ClauseKind)
    ensures k in Kinds(LevelsClause(q)) <==>
      k == ByLevels && (q.educationLevelug == Some("ug") || q.educationLevelpg == Some("pg"))
  {
    if Levels(q) != [] {
      assert LevelsClause(q)[0].kind == ByLevels;
    }
  }

  lemma InTerm(q: FilterQuery, k: ClauseKind)
    ensures var sem, midSem := q.sem == Some("true"), q.midSem == Some("true");
      k in Kinds(TermClause(q)) <==> (sem || midSem) && k == TermGroup(sem, midSem)
  {
    if TermClause(q) != [] {
      assert TermClause(q)[0].kind == TermGroup(q.sem == Some("true"), q.midSem == Some("true"));
    }
  }

  /** Whether the filter query asks for a condition of kind `k`: a valued
      field that is truthy, a level that is "ug" or "pg", or the term group
      with exactly the flags whose field is the string "true". */
  predicate Asks(q: FilterQuery, k: ClauseKind)
  {
    match k
    case ByDepartment => Truthy(q.departmentName)
    case ByLevels => q.educationLevelug == Some("ug") || q.educationLevelpg == Some("pg")
    case FromYear => Truthy(q.fromDate)
    case ToYear => Truthy(q.toDate)
    case ByDepartmentYear => Truthy(q.departmentYear)
    case TermGroup(sem, midSem) =>
      (sem || midSem) && sem == (q.sem == Some("true")) && midSem == (q.midSem == Some("true"))
    case ByPaperName => false
    case ByPaperLink => false
  }

  /** A condition is present exactly when the query asks for it. */
  lemma FilterClausesPresence(q: FilterQuery, k: ClauseKind)
    ensures k in Kinds(FilterClauses(q)) <==> Asks(q, k)
  {
    var d := WhenTruthy(q.departmentName, ByDepartment);
    var l := LevelsClause(q);
    var f := WhenTruthy(q.fromDate, FromYear);
    var t := WhenTruthy(q.toDate, ToYear);
    var y := WhenTruthy(q.departmentYear, ByDepartmentYear);
    var g := TermClause(q);
    KindsOfPieces(d, l, f, t, y, g);
    InWhenTruthy(q.departmentName, ByDepartment, k);
    InLevels(q, k);
    InWhenTruthy(q.fromDate, FromYear, k);
    InWhenTruthy(q.toDate, ToYear, k);
    InWhenTruthy(q.departmentYear, ByDepartmentYear, k);
    InTerm(q, k);
  }

  /** The levels condition, when present, binds the list Levels(q), which is
      ["ug"], ["pg"] or ["ug", "pg"]. */
  lemma FilterLevels(q: FilterQuery)
    ensures ByLevels in Kinds(FilterClauses(q)) ==>
      Clause(ByLevels, Some(List(Levels(q)))) in FilterClauses(q) && Levels(q) in [["ug"], ["pg"], ["ug", "pg"]]
  {
    FilterClausesPresence(q, ByLevels);
    var levels := Levels(q);
    var ug, pg := q.educationLevelug == Some("ug"), q.educationLevelpg == Some("pg");
    if ug || pg {
      var d := WhenTruthy(q.departmentName, ByDepartment);
      var cs := FilterClauses(q);
      assert cs[|d|] == Clause(ByLevels, Some(List(levels)));
    }
    if ug && pg {
      assert levels == ["ug", "pg"];
    } else if ug {
      assert levels == ["ug"];
    } else if pg {
      assert levels == ["pg"];
    }
  }

  /** The term group is added at most once, last, without a parameter, and
      exactly when `sem` or `midSem` is the string "true". */
  lemma FilterTermGroup(q: FilterQuery)
    ensures var cs := FilterClauses(q);
      var sem := q.sem == Some("true");
      var midSem := q.midSem == Some("true");
      if sem || midSem then
        |cs| > 0 && cs[|cs| - 1] == Clause(TermGroup(sem, midSem), None) &&
        forall i :: 0 <= i < |cs| - 1 ==> !cs[i].kind.TermGroup?
      else
        forall i :: 0 <= i < |cs| ==> !cs[i].kind.TermGroup?
  {
    FilterClausesOrdered(q);
    var v, cs := ValuedClauses(q), FilterClauses(q);
    assert forall i :: 0 <= i < |v| ==> cs[i] == v[i];
  }

  /** The route binds no parameter exactly when none of the five valued
      filters is usable. */
  lemma FilterNoParameters(q: FilterQuery)
    ensures ParamsOf(FilterClauses(q)) == [] <==>
      !Truthy(q.departmentName) && Levels(q) == [] && !Truthy(q.fromDate) &&
      !Truthy(q.toDate) && !Truthy(q.departmentYear)
  {
    var d := WhenTruthy(q.departmentName, ByDepartment);
    var l := LevelsClause(q);
    var f := WhenTruthy(q.fromDate, FromYear);
    var t := WhenTruthy(q.toDate, ToYear);
    var y := WhenTruthy(q.departmentYear, ByDepartmentYear);
    ParamsConcat(d, l);
    ParamsConcat(d + l, f);
    ParamsConcat(d + l + f, t);
    ParamsConcat(d + l + f + t, y);
    ParamsConcat(ValuedClauses(q), TermClause(q));
  }

  /** The parameter a valued filter binds: its value, when truthy. */
  function Given(o: Option<string>): seq<Param>
  {
    if Truthy(o) then [Scalar(o.value)] else []
  }

  lemma ParamsWhenTruthy(o: Option<string>, k: ClauseKind)
    ensures ParamsOf(WhenTruthy(o, k)) == Given(o)
  {
  }

  lemma ParamsLevels(q: FilterQuery)
    ensures ParamsOf(LevelsClause(q)) == if Levels(q) != [] then [List(Levels(q))] else []
  {
  }

  lemma ParamsTerm(q: FilterQuery)
    ensures ParamsOf(TermClause(q)) == []
  {
  }

  lemma ParamsOfPieces(d: seq<Clause>, l: seq<Clause>, f: seq<Clause>, t: seq<Clause>, y: seq<Clause>, g: seq<Clause>)
    ensures ParamsOf(d + l + f + t + y + g) ==
      ParamsOf(d) + ParamsOf(l) + ParamsOf(f) + ParamsOf(t) + ParamsOf(y) + ParamsOf(g)
  {
    ParamsConcat(d, l);
    ParamsConcat(d + l, f);
    ParamsConcat(d + l + f, t);
    ParamsConcat(d + l + f + t, y);
    ParamsConcat(d + l + f + t + y, g);
  }

  /** The parameters of a filter query, in order: the department, the list of
      levels, the from year, the to year and the department year, each only
      when asked for; the term group binds none. */
  lemma FilterParams(q: FilterQuery)
    ensures ParamsOf(FilterClauses(q)) ==
      Given(q.departmentName) + (if Levels(q) != [] then [List(Levels(q))] else []) +
      Given(q.fromDate) + Given(q.toDate) + Given(q.departmentYear)
  {
    var d := WhenTruthy(q.departmentName, ByDepartment);
    var l := LevelsClause(q);
    var f := WhenTruthy(q.fromDate, FromYear);
    var t := WhenTruthy(q.toDate, ToYear);
    var y := WhenTruthy(q.departmentYear, ByDepartmentYear);
    var g := TermClause(q);
    ParamsOfPieces(d, l, f, t, y, g);
    ParamsWhenTruthy(q.departmentName, ByDepartment);
    ParamsLevels(q);
    ParamsWhenTruthy(q.fromDate, FromYear);
    ParamsWhenTruthy(q.toDate, ToYear);
    ParamsWhenTruthy(q.departmentYear, ByDepartmentYear);
    ParamsTerm(q);
    var v := ParamsOf(d) + ParamsOf(l) + ParamsOf(f) + ParamsOf(t) + ParamsOf(y);
    assert v + [] == v;
  }

  /** A truthy `sem` or `midSem` other than "true" (such as "false") passes
      the "no filter" guard without adding any condition: with no valued
      filter the route queries the whole catalogue. */
  lemma FilterUnconstrained(q: FilterQuery)
    requires !Truthy(q.departmentName) && Levels(q) == [] && !Truthy(q.fromDate)
    requires !Truthy(q.toDate) && !Truthy(q.departmentYear)
    requires Truthy(q.sem) || Truthy(q.midSem)
    requires q.sem != Some("true") && q.midSem != Some("true")
    ensures !(ParamsOf(FilterClauses(q)) == [] && !Truthy(q.sem) && !Truthy(q.midSem))
    ensures FilterClauses(q) == [] && FilterBase + Render(FilterClauses(q)) == FilterBase
  {
    assert FilterBase + "" == FilterBase;
  }

  /** A placeholder after a placeholder-free prefix, and before a
      placeholder-free suffix, is the only one. */
  lemma PlaceholderAtEnd(prefix: string)
    requires forall i :: 0 <= i < |prefix| ==> prefix[i] != '?'
    ensures Occurrences('?', prefix + Placeholder) == 1
  {
    OccurrencesConcat('?', prefix, Placeholder);
  }

  lemma PlaceholderInside(prefix: string, suffix: string)
    requires forall i :: 0 <= i < |prefix| ==> prefix[i] != '?'
    requires forall i :: 0 <= i < |suffix| ==> suffix[i] != '?'
    ensures Occurrences('?', prefix + Placeholder + suffix) == 1
  {
    PlaceholderAtEnd(prefix);
    OccurrencesConcat('?', prefix + Placeholder, suffix);
  }

  lemma DepartmentSqlPlaceholder()
    ensures Occurrences('?', DepartmentSql) == 1
  {
    PlaceholderAtEnd(" AND departmentName = ");
  }

  lemma LevelsSqlPlaceholder()
    ensures Occurrences('?', LevelsSql) == 1
  {
    PlaceholderInside(" AND educationLevel IN (", ")");
  }

  lemma FromYearSqlPlaceholder()
    ensures Occurrences('?', FromYearSql) == 1
  {
    PlaceholderAtEnd(" AND years >= ");
  }

  lemma ToYearSqlPlaceholder()
    ensures Occurrences('?', ToYearSql) == 1
  {
    PlaceholderAtEnd(" AND years < ");
  }

  lemma DepartmentYearSqlPlaceholder()
    ensures Occurrences('?', DepartmentYearSql) == 1
  {
    PlaceholderAtEnd(" AND departmentYear = ");
  }

  lemma PaperNameSqlPlaceholder()
    ensures Occurrences('?', PaperNameSql) == 1
  {
    PlaceholderAtEnd(" AND papername = ");
  }

  lemma PaperLinkSqlPlaceholder()
    ensures Occurrences('?', PaperLinkSql) == 1
  {
    PlaceholderAtEnd(" AND paperlink = ");
  }

  lemma UserFileBasePlaceholder()
    ensures Occurrences('?', UserFileBase) == 1
  {
    PlaceholderAtEnd("SELECT * FROM user_uploads WHERE user_id = ");
  }

  lemma FilterBasePlaceholders()
    ensures Occurrences('?', FilterBase) == 0
  {
    assert forall i :: 0 <= i < |FilterBase| ==> FilterBase[i] != '?';
  }

  lemma TermGroupPlaceholders(sem: bool, midSem: bool)
    ensures Occurrences('?', SqlOf(TermGroup(sem, midSem))) == 0
  {
    var text := " AND (" + TermConditions(sem, midSem) + ")";
    assert forall i :: 0 <= i < |text| ==> text[i] != '?';
  }

  /** Every condition's text holds one `?`, except the term group's. */
  lemma SqlOfPlaceholders(k: ClauseKind)
    ensures Occurrences('?', SqlOf(k)) == if k.TermGroup? then 0 else 1
  {
    match k
    case ByDepartment => DepartmentSqlPlaceholder();
    case ByLevels => LevelsSqlPlaceholder();
    case FromYear => FromYearSqlPlaceholder();
    case ToYear => ToYearSqlPlaceholder();
    case ByDepartmentYear => DepartmentYearSqlPlaceholder();
    case TermGroup(sem, midSem) => TermGroupPlaceholders(sem, midSem);
    case ByPaperName => PaperNameSqlPlaceholder();
    case ByPaperLink => PaperLinkSqlPlaceholder();
  }

  /** Rendered well-formed conditions carry one `?` per bound parameter. */
  lemma {:induction false} RenderPlaceholders(cs: seq<Clause>)
    requires AllWellFormed(cs)
    ensures Occurrences('?', Render(cs)) == |ParamsOf(cs)|
  {
    if cs != [] {
      var head, tail := SqlOf(cs[0].kind), Render(cs[1..]);
      assert Render(cs) == head + tail;
      assert WellFormed(cs[0]);
      SqlOfPlaceholders(cs[0].kind);
      OccurrencesConcat('?', head, tail);
      assert AllWellFormed(cs[1..]) by {
        forall i | 0 <= i < |cs[1..]| ensures WellFormed(cs[1..][i]) {
          assert cs[1..][i] == cs[i + 1];
        }
      }
      RenderPlaceholders(cs[1..]);
    }
  }

  /** Appending well-formed conditions to a text adds one `?` per bound
      parameter. */
  lemma PlaceholdersAfter(base: string, n: nat, cs: seq<Clause>)
    requires Occurrences('?', base) == n
    requires AllWellFormed(cs)
    ensures Occurrences('?', base + Render(cs)) == n + |ParamsOf(cs)|
  {
    RenderPlaceholders(cs);
    OccurrencesConcat('?', base, Render(cs));
  }

  /** The text and parameters of a filter query are consistent: one `?` per
      bound parameter, so the driver binds every value it is given. */
  lemma FilterPlaceholders(q: FilterQuery)
    ensures Occurrences('?', FilterBase + Render(FilterClauses(q))) == |ParamsOf(FilterClauses(q))|
  {
    FilterClausesOrdered(q);
    FilterBasePlaceholders();
    PlaceholdersAfter(FilterBase, 0, FilterClauses(q));
  }

  /** `query` and `params` are what a route holds after adding `cs` to
      the text `base` and the parameters `first`. */
  ghost predicate Built(base: string, first: seq<Param>, query: string, params: seq<Param>, cs: seq<Clause>)
  {
    query == base + Render(cs) && params == first + ParamsOf(cs)
  }

  lemma Extend(base: string, first: seq<Param>, query: string, params: seq<Param>, cs: seq<Clause>, c: Clause)
    requires Built(base, first, query, params, cs)
    ensures Built(base, first, query + SqlOf(c.kind), params + Bound(c), cs + [c])
  {
    RenderAppend(cs, c);
    ConcatAssoc(base, Render(cs), SqlOf(c.kind));
    ConcatAssoc(first, ParamsOf(cs), Bound(c));
  }

  /** Adding no condition leaves the text and parameters as they were. */
  lemma ExtendNothing(base: string, first: seq<Param>, query: string, params: seq<Param>, cs: seq<Clause>)
    requires Built(base, first, query, params, cs)
    ensures Built(base, first, query, params, cs + [])
  {
    assert cs + [] == cs;
  }

  /** One valued condition: added, with its parameter, when `o` is truthy. */
  method AddCondition(ghost base: string, ghost first: seq<Param>, query: string, params: seq<Param>,
                      ghost cs: seq<Clause>, o: Option<string>, k: ClauseKind)
    returns (query': string, params': seq<Param>)
    requires Built(base, first, query, params, cs)
    ensures Built(base, first, query', params', cs + WhenTruthy(o, k))
  {
    query', params' := query, params;
    if Truthy(o) {
      Extend(base, first, query, params, cs, Clause(k, Some(Scalar(o.value))));
      query' := query + SqlOf(k);
      params' := params + [Scalar(o.value)];
    } else {
      ExtendNothing(base, first, query, params, cs);
    }
  }

  /** The education levels the query asks for, pushed in the route's order. */
  method CollectLevels(q: FilterQuery) returns (levels: seq<string>)
    ensures levels == Levels(q)
  {
    levels := [];
    if q.educationLevelug == Some("ug") {
      levels := levels + ["ug"];
    }
    if q.educationLevelpg == Some("pg") {
      levels := levels + ["pg"];
    }
  }

  method AddLevels(ghost base: string, query: string, params: seq<Param>, ghost cs: seq<Clause>,
                   q: FilterQuery) returns (query': string, params': seq<Param>)
    requires Built(base, [], query, params, cs)
    ensures Built(base, [], query', params', cs + LevelsClause(q))
  {
    query', params' := query, params;
    if q.educationLevelug == Some("ug") || q.educationLevelpg == Some("pg") {
      var levels := CollectLevels(q);
      if |levels| > 0 {
        Extend(base, [], query, params, cs, Clause(ByLevels, Some(List(levels))));
        query' := query + LevelsSql;
        params' := params + [List(levels)];
        return;
      }
    }
    assert Levels(q) == [];
    ExtendNothing(base, [], query, params, cs);
  }

  method AddTermGroup(ghost base: string, query: string, params: seq<Param>, ghost cs: seq<Clause>,
                      q: FilterQuery) returns (query': string)
    requires Built(base, [], query, params, cs)
    ensures Built(base, [], query', params, cs + TermClause(q))
  {
    query' := query;
    if q.sem == Some("true") || q.midSem == Some("true") {
      var sem, midSem := false, false;
      if q.sem == Some("true") {
        sem := true;
      }
      if q.midSem == Some("true") {
        midSem := true;
      }
      if sem || midSem {
        Extend(base, [], query, params, cs, Clause(TermGroup(sem, midSem), None));
        var text := " AND (" + TermConditions(sem, midSem) + ")";
        query' := query + text;
        assert params + [] == params;
        return;
      }
    }
    ExtendNothing(base, [], query, params, cs);
  }

  /** GET /api/Filter: the query text and parameters, or the "no filter"
      error when no parameter is bound and neither `sem` nor `midSem` is
      truthy. */
  method BuildFilterQuery(q: FilterQuery) returns (r: Result<SqlQuery, FilterError>)
    ensures r.Failure? <==> ParamsOf(FilterClauses(q)) == [] && !Truthy(q.sem) && !Truthy(q.midSem)
    ensures r.Success? ==>
      r.value.sql == FilterBase + Render(FilterClauses(q)) && r.value.params == ParamsOf(FilterClauses(q))
    ensures r.Success? ==> Occurrences('?', r.value.sql) == |r.value.params|
  {
    var query := FilterBase;
    var params: seq<Param> := [];
    ghost var cs: seq<Clause> := [];
    query, params := AddCondition(FilterBase, [], query, params, cs, q.departmentName, ByDepartment);
    cs := WhenTruthy(q.departmentName, ByDepartment);
    assert [] + cs == cs;
    query, params := AddLevels(FilterBase, query, params, cs, q);
    cs := cs + LevelsClause(q);
    query, params := AddCondition(FilterBase, [], query, params, cs, q.fromDate, FromYear);
    cs := cs + WhenTruthy(q.fromDate, FromYear);
    query, params := AddCondition(FilterBase, [], query, params, cs, q.toDate, ToYear);
    cs := cs + WhenTruthy(q.toDate, ToYear);
    query, params := AddCondition(FilterBase, [], query, params, cs, q.departmentYear, ByDepartmentYear);
    cs := cs + WhenTruthy(q.departmentYear, ByDepartmentYear);
    query := AddTermGroup(FilterBase, query, params, cs, q);
    cs := cs + TermClause(q);
    assert cs == FilterClauses(q);

    if |params| == 0 && !Truthy(q.sem) && !Truthy(q.midSem) {
      return Failure(NoFilterParameters);
    }
    FilterPlaceholders(q);
    return Success(SqlQuery(query, params));
  }

  /** The optional conditions GET /api/Profile/fetchpdf adds after the
      owner filter, in the order it adds them. */
  function UserFileClauses(papername: Option<string>, paperlink: Option<string>): seq<Clause>
  {
    WhenTruthy(papername, ByPaperName) + WhenTruthy(paperlink, ByPaperLink)
  }

  /** The owner's id comes first, then the paper name and the link, each
      only when given. */
  lemma UserFileParams(papername: Option<string>, paperlink: Option<string>)
    ensures ParamsOf(UserFileClauses(papername, paperlink)) == Given(papername) + Given(paperlink)
  {
    ParamsConcat(WhenTruthy(papername, ByPaperName), WhenTruthy(paperlink, ByPaperLink));
    ParamsWhenTruthy(papername, ByPaperName);
    ParamsWhenTruthy(paperlink, ByPaperLink);
  }

  /** The text of the owner query holds one `?` per bound parameter. */
  lemma UserFilePlaceholders(papername: Option<string>, paperlink: Option<string>)
    ensures Occurrences('?', UserFileBase + Render(UserFileClauses(papername, paperlink))) ==
      1 + |ParamsOf(UserFileClauses(papername, paperlink))|
  {
    var cs := UserFileClauses(papername, paperlink);
    assert AllWellFormed(cs);
    UserFileBasePlaceholder();
    PlaceholdersAfter(UserFileBase, 1, cs);
  }

  /** GET /api/Profile/fetchpdf: always filters by owner, then optionally by
      paper name and by link, in that order. */
  method BuildUserFileQuery(userid: string, papername: Option<string>, paperlink: Option<string>) returns (r: SqlQuery)
    ensures r.sql == UserFileBase + Render(UserFileClauses(papername, paperlink))
    ensures r.params == [Scalar(userid)] + ParamsOf(UserFileClauses(papername, paperlink))
    ensures Occurrences('?', r.sql) == |r.params|
  {
    var query := UserFileBase;
    var params := [Scalar(userid)];
    ghost var cs: seq<Clause> := [];
    assert Built(UserFileBase, [Scalar(userid)], query, params, cs) by {
      assert query + "" == query;
      assert params + [] == params;
    }
    query, params := AddCondition(UserFileBase, [Scalar(userid)], query, params, cs, papername, ByPaperName);
    cs := WhenTruthy(papername, ByPaperName);
    assert [] + cs == cs;
    query, params := AddCondition(UserFileBase, [Scalar(userid)], query, params, cs, paperlink, ByPaperLink);
    cs := cs + WhenTruthy(paperlink, ByPaperLink);
    UserFilePlaceholders(papername, paperlink);
    r := SqlQuery(query, params);
  }
}
