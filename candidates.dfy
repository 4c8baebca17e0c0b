/**
 * `tools.fetchCandidates`: untrusted tool arguments are normalised with
 * defaults (never rejected), the skills are checked against a closed
 * vocabulary, each skill is quoted, and a SQL text with a fixed cap of four
 * rows is handed to the database. A database failure becomes the indicator
 * `{success: false}` instead of an exception.
 */
module Candidates {

  import opened Wrappers
  import opened Text

  // ---------------------------------------------------------------- defaults

  const DefaultJobType: bool := true
  const DefaultBudget: int := 10000000
  const TopK: nat := 4

  /** A skill name of the default list: it holds no comma, so it is one token. */
  type SkillName = s: string | ',' !in s

  /**
   * The closed skill vocabulary, in the order the source lists it (written
   * in eight parts so that each part's names are checked on their own).
   */
  const KnownSkills: seq<SkillName> :=
    SkillsPart1 + SkillsPart2 + SkillsPart3 + SkillsPart4 + SkillsPart5 + SkillsPart6 + SkillsPart7 + SkillsPart8

  const SkillsPart1: seq<SkillName> := ["speech generation", "audio generation", "web scraping", "adobe", "aws", "azure"]
  const SkillsPart2: seq<SkillName> := ["bootstrap", "c", "c++", "c#", "computer vision", "docker"]
  const SkillsPart3: seq<SkillName> := ["django", "excel", "express.js", "figma", "flutter", "gcp"]
  const SkillsPart4: seq<SkillName> := ["go", "graphql", "html/css", "java", "javascript", "kotlin"]
  const SkillsPart5: seq<SkillName> := ["large language models", "laravel", "nlp", "next.js", "node.js", "nosql"]
  const SkillsPart6: seq<SkillName> := ["php", "powerpoint", "python", "react", "react native", "redux"]
  const SkillsPart7: seq<SkillName> := ["ruby", "ruby on rails", "r", "rust", "sql", "spring"]
  const SkillsPart8: seq<SkillName> := ["swift", "swift ui", "svelte", "typescript", "vue.js", "kubernetes"]

  // ---------------------------------------------------------------- arguments

  /**
   * The parsed tool arguments. `jobType` and `skills` are `Some` exactly when
   * the argument is a JavaScript string; `budget` is the value of
   * `Number(budget)`, `None` standing for NaN.
   */
  datatype ToolArgs = ToolArgs(jobType: Option<string>, budget: Option<int>, skills: Option<string>)

  /** The validated values; `skills` holds the quoted literals. */
  datatype ValidatedArgs = ValidatedArgs(jobType: bool, budget: int, skills: seq<string>)

  /** A string job type means full time exactly when it reads "full time" up to case. */
  function ValidatedJobType(jobType: Option<string>): (r: bool)
    ensures jobType.None? ==> r == DefaultJobType
    ensures jobType.Some? ==> (r <==> SameIgnoringCase(jobType.value, "full time"))
  {
    match jobType
    case None => DefaultJobType
    case Some(s) =>
      ToLowerEqualIff(s, "full time");
      ToLower(s) == "full time"
  }

  /** A zero or NaN budget (JavaScript falsy) falls back to the default. */
  function ValidatedBudget(budget: Option<int>): (r: int)
    ensures r != 0
    ensures budget.Some? && budget.value != 0 ==> r == budget.value
    ensures budget.None? || budget.value == 0 ==> r == DefaultBudget
  {
    if budget.Some? && budget.value != 0 then budget.value else DefaultBudget
  }

  /**
   * `skillSet.has(s)` for `skillSet = new Set(known)`. The validation below
   * takes the default skill list `known` as a parameter; FetchCandidates
   * passes KnownSkills.
   */
  predicate IsKnownSkill(s: string, known: seq<string>) { s in (set x | x in known) }

  /** `tokens.some((s) => skillSet.has(s))`. */
  function AnyKnown(tokens: seq<string>, known: seq<string>): (r: bool)
    ensures r <==> exists i :: 0 <= i < |tokens| && IsKnownSkill(tokens[i], known)
    decreases |tokens|
  {
    if |tokens| == 0 then false
    else if IsKnownSkill(tokens[0], known) then true
    else
      var r := AnyKnown(tokens[1..], known);
      assert forall i :: 1 <= i < |tokens| ==> tokens[i] == tokens[1..][i - 1];
      r
  }

  /** The comma-separated tokens of a skills string, lower-cased and not trimmed. */
  function SkillTokens(skills: string): seq<string>
  {
    Split(ToLower(skills), ',')
  }

  /**
   * The skill list before quoting: the user's tokens, all of them, when one
   * is known; otherwise the whole default list.
   */
  function SelectedSkills(skills: Option<string>, known: seq<string>): (r: seq<string>)
    requires |known| >= 1
    ensures |r| >= 1
    ensures skills.None? ==> r == known
    ensures skills.Some? && AnyKnown(SkillTokens(skills.value), known) ==> r == SkillTokens(skills.value)
    ensures skills.Some? && !AnyKnown(SkillTokens(skills.value), known) ==> r == known
  {
    match skills
    case None => known
    case Some(s) =>
      var tokens := SkillTokens(s);
      if AnyKnown(tokens, known) then tokens else known
  }

  /** The selected list always names at least one skill of the default list. */
  lemma SelectedSkillsHaveKnown(skills: Option<string>, known: seq<string>)
    requires |known| >= 1
    ensures AnyKnown(SelectedSkills(skills, known), known)
  {
    assert IsKnownSkill(known[0], known);
  }

  /** `'${skill}'`: the skill between single quotes, with nothing escaped. */
  function Quote(s: string): (r: string)
    ensures |r| == |s| + 2 && r[0] == '\'' && r[|r| - 1] == '\'' && r[1..|r| - 1] == s
  {
    "'" + s + "'"
  }

  /** `skills.map((skill) => `'${skill}'`)`. */
  function QuoteAll(ss: seq<string>): (r: seq<string>)
    ensures |r| == |ss|
    ensures forall i :: 0 <= i < |ss| ==> r[i] == Quote(ss[i])
    decreases |ss|
  {
    if |ss| == 0 then [] else [Quote(ss[0])] + QuoteAll(ss[1..])
  }

  predicate IsLiteral(s: string) { |s| >= 2 && s[0] == '\'' && s[|s| - 1] == '\'' }

  /** The text between the quotes of a literal. */
  function Unquote(s: string): string
    requires IsLiteral(s)
  {
    s[1..|s| - 1]
  }

  /**
   * The validated arguments of one tool call: the budget is never zero, and
   * the skill list is a non-empty list of quoted literals one of which
   * quotes a known skill.
   */
  function Validate(args: ToolArgs, known: seq<string>): (v: ValidatedArgs)
    requires |known| >= 1
    ensures v.jobType == ValidatedJobType(args.jobType)
    ensures v.budget == ValidatedBudget(args.budget) && v.budget != 0
    ensures v.skills == QuoteAll(SelectedSkills(args.skills, known)) && |v.skills| >= 1
    ensures forall i :: 0 <= i < |v.skills| ==> IsLiteral(v.skills[i])
    ensures exists i :: 0 <= i < |v.skills| && IsKnownSkill(Unquote(v.skills[i]), known)
  {
    var selected := SelectedSkills(args.skills, known);
    SelectedSkillsHaveKnown(args.skills, known);
    QuotedKnownSkill(selected, known);
    ValidatedArgs(ValidatedJobType(args.jobType), ValidatedBudget(args.budget), QuoteAll(selected))
  }

  lemma QuotedKnownSkill(ss: seq<string>, known: seq<string>)
    requires AnyKnown(ss, known)
    ensures exists i :: 0 <= i < |ss| && IsKnownSkill(Unquote(QuoteAll(ss)[i]), known)
  {
    var k :| 0 <= k < |ss| && IsKnownSkill(ss[k], known);
    assert Unquote(QuoteAll(ss)[k]) == ss[k];
  }

  // ---------------------------------------------------------------- the query

  /** The query `fetchCandidates` sends, as the values it interpolates. */
  datatype SqlQuery = SqlQuery(fullTime: bool, maxFullTimeSalary: int, skillLiterals: seq<string>, limit: nat)

  const SelectText: string := "SELECT DISTINCT mu.* from MercorUsers AS mu LEFT JOIN MercorUserSkills AS mus ON mu.userId = mus.userId LEFT JOIN Skills s ON mus.skillId = mus.skillId WHERE mu.fullTime="
  const SalaryText: string := " AND (mu.fullTimeSalary IS NULL OR CAST(mu.fullTimeSalary AS SIGNED) <= "
  const SkillText: string := ") AND s.skillName IN ("
  const LimitText: string := ") LIMIT "
  const EndText: string := ";"

  /** How a JavaScript boolean is written by a template literal. */
  function BoolToString(b: bool): string { if b then "true" else "false" }

  /**
   * The filter always uses the full-time column: the job type, the
   * full-time salary bound and the skill list, capped at TopK rows.
   */
  function BuildQuery(v: ValidatedArgs): (q: SqlQuery)
    ensures q.limit == TopK
    ensures q.fullTime == v.jobType && q.maxFullTimeSalary == v.budget && q.skillLiterals == v.skills
  {
    SqlQuery(v.jobType, v.budget, v.skills, TopK)
  }

  /** The SQL text of a query. */
  function Render(q: SqlQuery): string
  {
    SelectText + BoolToString(q.fullTime) + SalaryText + IntToString(q.maxFullTimeSalary)
    + SkillText + Join(q.skillLiterals, ",") + LimitText + NatToString(q.limit) + EndText
  }

  function QueryText(v: ValidatedArgs): string
  {
    Render(BuildQuery(v))
  }

  // ---------------------------------------------------------------- reading a query back

  function DropPrefix(p: string, t: string): Option<string>
  {
    if p <= t then Some(t[|p|..]) else None
  }

  function ReadBool(t: string): Option<(bool, string)>
  {
    if "true" <= t then Some((true, t[4..]))
    else if "false" <= t then Some((false, t[5..]))
    else None
  }

  function DropSuffix(p: string, t: string): Option<string>
  {
    if |p| <= |t| && t[|t| - |p|..] == p then Some(t[..|t| - |p|]) else None
  }

  /** The fixed tail of every query text. */
  function CapText(): string
  {
    LimitText + NatToString(TopK) + EndText
  }

  /**
   * Reads back the values a query text interpolates. The skill list is the
   * text between the skill clause and the fixed tail, cut at its commas.
   */
  function ParseQuery(t: string): Option<SqlQuery>
  {
    var t1 :- DropPrefix(SelectText, t);
    var fullTime :- ReadBool(t1);
    var t2 :- DropPrefix(SalaryText, fullTime.1);
    var salary :- ReadInt(t2);
    var t3 :- DropPrefix(SkillText, salary.1);
    var list :- DropSuffix(CapText(), t3);
    var literals := Split(list, ',');
    if forall i :: 0 <= i < |literals| ==> IsLiteral(literals[i])
    then Some(SqlQuery(fullTime.0, salary.0, literals, TopK))
    else None
  }

  // ---------------------------------------------------------------- what the query carries

  lemma DropPrefixOf(p: string, u: string)
    ensures DropPrefix(p, p + u) == Some(u)
  {
    assert (p + u)[..|p|] == p;
    assert (p + u)[|p|..] == u;
  }

  lemma DropSuffixOf(p: string, u: string)
    ensures DropSuffix(p, u + p) == Some(u)
  {
    assert (u + p)[|u|..] == p;
    assert (u + p)[..|u|] == u;
  }

  lemma ReadBoolOf(b: bool, u: string)
    ensures ReadBool(BoolToString(b) + u) == Some((b, u))
  {
    var t := BoolToString(b) + u;
    if b {
      assert t[..4] == "true";
      assert t[4..] == u;
    } else {
      assert t[0] == 'f';
      assert !("true" <= t);
      assert t[..5] == "false";
      assert t[5..] == u;
    }
  }

  /** A non-empty list of quoted literals none of which holds a comma. */
  predicate CommaFreeLiterals(ls: seq<string>)
  {
    |ls| >= 1 && forall i :: 0 <= i < |ls| ==> IsLiteral(ls[i]) && ',' !in ls[i]
  }

  lemma RegroupQuery(a: string, b: string, c: string, d: string, e: string, f: string, g: string, h: string, k: string)
    ensures a + b + c + d + e + f + g + h + k == a + (b + (c + (d + (e + (f + (g + h + k))))))
  {
  }

  /**
   * Reading a rendered query back gives the query: the text carries the job
   * type, the salary bound, every skill literal in order, and the cap.
   */
  lemma ParseRender(q: SqlQuery)
    requires q.limit == TopK && CommaFreeLiterals(q.skillLiterals)
    ensures ParseQuery(Render(q)) == Some(q)
  {
    var b, i, j := BoolToString(q.fullTime), IntToString(q.maxFullTimeSalary), Join(q.skillLiterals, ",");
    var t3 := j + CapText();
    var t2 := SkillText + t3;
    var t1 := SalaryText + (i + t2);
    RegroupQuery(SelectText, b, SalaryText, i, SkillText, j, LimitText, NatToString(TopK), EndText);
    assert Render(q) == SelectText + (b + t1);
    DropPrefixOf(SelectText, b + t1);
    assert DropPrefix(SelectText, Render(q)) == Some(b + t1);
    ReadBoolOf(q.fullTime, t1);
    DropPrefixOf(SalaryText, i + t2);
    ReadIntToString(q.maxFullTimeSalary, t2);
    DropPrefixOf(SkillText, t3);
    DropSuffixOf(CapText(), j);
    SplitJoin(q.skillLiterals, ',');
  }

  lemma QuoteCommaFree(x: string)
    requires ',' !in x
    ensures IsLiteral(Quote(x)) && ',' !in Quote(x)
  {
    var r := Quote(x);
    forall j | 0 <= j < |r| ensures r[j] != ',' {
      if 0 < j < |r| - 1 {
        assert r[j] == x[j - 1];
      }
    }
  }

  lemma QuoteAllCommaFree(ss: seq<string>)
    requires |ss| >= 1 && forall i :: 0 <= i < |ss| ==> ',' !in ss[i]
    ensures CommaFreeLiterals(QuoteAll(ss))
  {
    var qs := QuoteAll(ss);
    forall i | 0 <= i < |qs| ensures IsLiteral(qs[i]) && ',' !in qs[i] {
      assert qs[i] == Quote(ss[i]);
      QuoteCommaFree(ss[i]);
    }
  }

  /**
   * Whatever the arguments, the query text carries exactly the validated
   * values: the job type, the budget as the full-time salary bound, the
   * selected skills each quoted and in order, and the cap of TopK rows.
   */
  lemma QueryCarriesValidatedArgs(args: ToolArgs, known: seq<string>)
    requires |known| >= 1 && forall i :: 0 <= i < |known| ==> ',' !in known[i]
    ensures var v := Validate(args, known);
      ParseQuery(QueryText(v)) == Some(SqlQuery(v.jobType, v.budget, v.skills, TopK))
  {
    var selected := SelectedSkills(args.skills, known);
    if args.skills.Some? && selected == SkillTokens(args.skills.value) {
      SplitOmitsSeparator(ToLower(args.skills.value), ',');
    }
    QuoteAllCommaFree(selected);
    ParseRender(BuildQuery(Validate(args, known)));
  }

  lemma RegroupTail(x: string, l: string, n: string, e: string)
    ensures x + l + n + e == x + (l + n + e)
  {
  }

  /** Every query text ends with the fixed cap of TopK rows. */
  lemma QueryEndsWithCap(v: ValidatedArgs)
    ensures CapText() == ") LIMIT 4;"
    ensures DropSuffix(") LIMIT 4;", QueryText(v)).Some?
  {
    var q := BuildQuery(v);
    var head := SelectText + BoolToString(q.fullTime) + SalaryText + IntToString(q.maxFullTimeSalary)
      + SkillText + Join(q.skillLiterals, ",");
    RegroupTail(head, LimitText, NatToString(TopK), EndText);
    DropSuffixOf(CapText(), head);
  }

  // ---------------------------------------------------------------- the tool

  /** An opaque row of the candidate table. */
  datatype Row = Row(columns: map<string, string>)

  /** What the database does with a query text: rows, or an error. */
  datatype DbOutcome = Rows(rows: seq<Row>) | DbFailure

  /**
   * The value a tool resolves to: the rows or `{success: false}` from
   * `fetchCandidates`, or the `undefined` of a tool whose body is empty.
   */
  datatype ToolResult = CandidateRows(rows: seq<Row>) | FailureIndicator | NoValue

  /**
   * `tools.fetchCandidates(data)`: the rows of the validated query come back
   * unchanged, and a database error becomes the failure indicator.
   */
  function FetchCandidates(args: ToolArgs, runQuery: string -> DbOutcome): (r: ToolResult)
    ensures r.FailureIndicator? <==> runQuery(QueryText(Validate(args, KnownSkills))).DbFailure?
    ensures r.CandidateRows? <==> runQuery(QueryText(Validate(args, KnownSkills))).Rows?
    ensures r.CandidateRows? ==> r.rows == runQuery(QueryText(Validate(args, KnownSkills))).rows
  {
    match runQuery(QueryText(Validate(args, KnownSkills)))
    case Rows(rows) => CandidateRows(rows)
    case DbFailure => FailureIndicator
  }

  /**
   * The text `fetchCandidates` hands to the database carries exactly the
   * validated values: the job type, the budget as the full-time salary
   * bound, the selected skills quoted and in order, and the cap.
   */
  lemma FetchCandidatesQuery(args: ToolArgs)
    ensures ParseQuery(QueryText(Validate(args, KnownSkills)))
         == Some(SqlQuery(ValidatedJobType(args.jobType), ValidatedBudget(args.budget),
                          QuoteAll(SelectedSkills(args.skills, KnownSkills)), TopK))
  {
    QueryCarriesValidatedArgs(args, KnownSkills);
  }

  lemma FullTimeExample()
    ensures ValidatedJobType(Some("Full Time"))
  {
    var s := "Full Time";
    assert SameIgnoringCase(s, "full time") by {
      assert |s| == 9;
      forall i | 0 <= i < 9 ensures LowerChar(s[i]) == LowerChar("full time"[i]) {
        if i == 0 { assert s[0] == 'F'; } else if i == 5 { assert s[5] == 'T'; }
      }
    }
  }

  /** Two lower-case, comma-free skills joined by a comma split into those two. */
  lemma TwoSkillTokens(a: string, b: string)
    requires NoUpper(a) && NoUpper(b) && ',' !in a && ',' !in b
    ensures SkillTokens(a + "," + b) == [a, b]
  {
    ToLowerKeepsLowercase(a + "," + b);
    SplitAfterToken(a, b, ',');
    SplitWithoutSeparator(b, ',');
  }

  lemma PythonReactTokens()
    ensures SkillTokens("python,react") == ["python", "react"]
  {
    assert "python,react" == "python" + "," + "react";
    TwoSkillTokens("python", "react");
  }

  lemma PythonIsKnown()
    ensures IsKnownSkill("python", KnownSkills)
  {
    assert SkillsPart6[2] == "python";
    assert KnownSkills[32] == SkillsPart6[2];
  }

  lemma PythonReactExample()
    ensures SelectedSkills(Some("python,react"), KnownSkills) == ["python", "react"]
  {
    PythonReactTokens();
    PythonIsKnown();
    assert AnyKnown(["python", "react"], KnownSkills);
  }

  /**
   * The worked example: "Full Time", 50000 and "python,react" give a
   * full-time filter, a salary bound of 50000 and the two quoted skills.
   */
  lemma FullTimePythonReactExample()
    ensures Validate(ToolArgs(Some("Full Time"), Some(50000), Some("python,react")), KnownSkills)
         == ValidatedArgs(true, 50000, ["'python'", "'react'"])
  {
    var args := ToolArgs(Some("Full Time"), Some(50000), Some("python,react"));
    FullTimeExample();
    PythonReactExample();
    QuotePythonReact();
    var v := Validate(args, KnownSkills);
    assert v.skills == QuoteAll(["python", "react"]);
  }

  lemma QuotePythonReact()
    ensures QuoteAll(["python", "react"]) == ["'python'", "'react'"]
  {
    var q := QuoteAll(["python", "react"]);
    assert q[0] == "'" + "python" + "'" == "'python'";
    assert q[1] == "'" + "react" + "'" == "'react'";
  }
}
