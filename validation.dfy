/**
 * The part of zod's behaviour the schemas rely on: a string field is checked for presence,
 * optionally trimmed, then every check runs and each failing one adds an issue in declaration
 * order; a number field is checked for presence and non-negativity. An object schema reports the
 * issues of all its fields. `FirstIssueAt` is react-hook-form's view of the result: the first
 * issue recorded for each field.
 */
module Validation {
  import opened Wrappers
  import opened Strings

  datatype IssueCode = InvalidType | TooSmall(minimum: nat) | InvalidEmail | NumberTooSmall | Custom

  datatype Issue = Issue(path: string, code: IssueCode, message: string)

  /** zod's default texts. */
  const RequiredMessage := "Required"
  const NonNegativeMessage := "Number must be greater than or equal to 0"

  function TooSmallMessage(n: nat): string
  {
    "String must contain at least " + DecimalString(n) + " character(s)"
  }

  datatype Check = MinLength(minimum: nat, message: string) | Email(message: string)

  /** `z.string({required_error})`, then `.trim()` when `trim`, then the checks in order. */
  datatype StringSchema = StringSchema(trim: bool, requiredMessage: string, checks: seq<Check>)

  /** `.min(n)` with zod's default message. */
  function Min(n: nat): Check
  {
    MinLength(n, TooSmallMessage(n))
  }

  /** `.min` compares JavaScript `length`, i.e. UTF-16 code units. */
  predicate Passes(c: Check, s: string, isEmail: string -> bool)
  {
    match c
    case MinLength(n, _) => Utf16Length(s) >= n
    case Email(_) => isEmail(s)
  }

  predicate AllPass(checks: seq<Check>, s: string, isEmail: string -> bool)
  {
    forall i :: 0 <= i < |checks| ==> Passes(checks[i], s, isEmail)
  }

  lemma AllPassOne(c: Check, s: string, isEmail: string -> bool)
    ensures AllPass([c], s, isEmail) <==> Passes(c, s, isEmail)
  {
    assert [c][0] == c;
  }

  lemma AllPassPair(c: Check, d: Check, s: string, isEmail: string -> bool)
    ensures AllPass([c, d], s, isEmail) <==> Passes(c, s, isEmail) && Passes(d, s, isEmail)
  {
    assert [c, d][0] == c && [c, d][1] == d;
  }

  function IssueFor(path: string, c: Check): Issue
  {
    match c
    case MinLength(n, m) => Issue(path, TooSmall(n), m)
    case Email(m) => Issue(path, InvalidEmail, m)
  }

  /** One issue per failing check, in the order the checks are declared. */
  function FailedChecks(path: string, checks: seq<Check>, s: string, isEmail: string -> bool): (issues: seq<Issue>)
    ensures issues == [] <==> AllPass(checks, s, isEmail)
    ensures |issues| <= |checks|
    ensures forall i :: 0 <= i < |issues| ==> issues[i].path == path
    ensures checks != [] && !Passes(checks[0], s, isEmail) ==> issues[0] == IssueFor(path, checks[0])
  {
    if checks == [] then []
    else
      (if Passes(checks[0], s, isEmail) then [] else [IssueFor(path, checks[0])])
      + FailedChecks(path, checks[1..], s, isEmail)
  }

  /** Every failing check contributes its issue, and every issue comes from a failing check. */
  lemma {:induction false} FailedChecksExact(path: string, checks: seq<Check>, s: string, isEmail: string -> bool)
    ensures var issues := FailedChecks(path, checks, s, isEmail);
            && (forall k :: 0 <= k < |checks| && !Passes(checks[k], s, isEmail) ==> IssueFor(path, checks[k]) in issues)
            && (forall i :: 0 <= i < |issues| ==>
                  exists k :: 0 <= k < |checks| && !Passes(checks[k], s, isEmail) && issues[i] == IssueFor(path, checks[k]))
  {
    if checks != [] {
      FailedChecksExact(path, checks[1..], s, isEmail);
      assert forall k :: 1 <= k < |checks| ==> checks[k] == checks[1..][k - 1];
    }
  }

  /** The value the checks see and the parse returns. */
  function Prepare(schema: StringSchema, s: string): string
  {
    if schema.trim then Trim(s) else s
  }

  /** Parses one string field; `None` stands for a missing value. */
  function ParseString(path: string, schema: StringSchema, v: Option<string>, isEmail: string -> bool)
    : (r: Result<string, seq<Issue>>)
    ensures r.Success? <==> v.Some? && AllPass(schema.checks, Prepare(schema, v.value), isEmail)
    ensures r.Success? ==> r.value == Prepare(schema, v.value)
    ensures r.Failure? ==> r.error != [] && forall i :: 0 <= i < |r.error| ==> r.error[i].path == path
    ensures v.None? ==> r == Failure([Issue(path, InvalidType, schema.requiredMessage)])
  {
    match v
    case None => Failure([Issue(path, InvalidType, schema.requiredMessage)])
    case Some(s) =>
      var t := Prepare(schema, s);
      var issues := FailedChecks(path, schema.checks, t, isEmail);
      if issues == [] then Success(t) else Failure(issues)
  }

  /** `z.number().nonnegative()`, followed by `.optional()` when `optional`. */
  function ParseNonNegative(path: string, optional: bool, v: Option<real>): (r: Result<Option<real>, seq<Issue>>)
    ensures r.Success? <==> (v.None? ==> optional) && (v.Some? ==> v.value >= 0.0)
    ensures r.Success? ==> r.value == v
    ensures r.Failure? ==> r.error != [] && forall i :: 0 <= i < |r.error| ==> r.error[i].path == path
  {
    match v
    case None => if optional then Success(None) else Failure([Issue(path, InvalidType, RequiredMessage)])
    case Some(x) => if x >= 0.0 then Success(v) else Failure([Issue(path, NumberTooSmall, NonNegativeMessage)])
  }

  function IssuesOf<T>(r: Result<T, seq<Issue>>): seq<Issue>
  {
    if r.Failure? then r.error else []
  }

  /** react-hook-form's `errors[path]`: the first issue whose path is `path`. */
  function FirstIssueAt(issues: seq<Issue>, path: string): (r: Option<Issue>)
    ensures r.None? <==> forall i :: 0 <= i < |issues| ==> issues[i].path != path
    ensures r.Some? ==> exists k :: 0 <= k < |issues| && issues[k] == r.value && r.value.path == path
                                    && forall j :: 0 <= j < k ==> issues[j].path != path
  {
    if issues == [] then None
    else if issues[0].path == path then Some(issues[0])
    else
      var r := FirstIssueAt(issues[1..], path);
      assert r.Some? ==> exists k :: 0 <= k < |issues[1..]| && issues[1..][k] == r.value && r.value.path == path
                                     && forall j :: 0 <= j < k ==> issues[1..][j].path != path;
      r
  }

  /** Issues about other fields do not change a field's first issue. */
  lemma {:induction false} FirstIssueAtConcat(a: seq<Issue>, b: seq<Issue>, path: string)
    ensures FirstIssueAt(a + b, path) == if FirstIssueAt(a, path).Some? then FirstIssueAt(a, path) else FirstIssueAt(b, path)
  {
    if a != [] {
      assert (a + b)[1..] == a[1..] + b;
      FirstIssueAtConcat(a[1..], b, path);
    } else {
      assert a + b == b;
    }
  }

  /** The field paths an issue list names: the keys of zod's `error.format()`. */
  function Paths(issues: seq<Issue>): (ps: set<string>)
    ensures forall i :: 0 <= i < |issues| ==> issues[i].path in ps
    ensures forall p :: p in ps ==> exists i :: 0 <= i < |issues| && issues[i].path == p
  {
    if issues == [] then {}
    else
      var rest := Paths(issues[1..]);
      assert forall p :: p in rest ==> exists i :: 0 <= i < |issues| && issues[i].path == p by {
        forall p | p in rest ensures exists i :: 0 <= i < |issues| && issues[i].path == p {
          var k :| 0 <= k < |issues[1..]| && issues[1..][k].path == p;
          assert issues[k + 1].path == p;
        }
      }
      {issues[0].path} + rest
  }

  /** The paths of two issue lists together are the paths of each. */
  lemma {:induction false} PathsConcat(a: seq<Issue>, b: seq<Issue>)
    ensures Paths(a + b) == Paths(a) + Paths(b)
  {
    if a == [] {
      assert a + b == b;
    } else {
      assert (a + b)[1..] == a[1..] + b;
      PathsConcat(a[1..], b);
    }
  }

  /** The path a field contributes to a schema's failing fields: none when its rule holds. */
  function Named(ok: bool, path: string): set<string>
  {
    if ok then {} else {path}
  }

  /** A non-empty list of issues all about one field names just that field. */
  lemma PathsOfOneField(issues: seq<Issue>, path: string)
    requires issues != [] && forall i :: 0 <= i < |issues| ==> issues[i].path == path
    ensures Paths(issues) == {path}
  {
  }

  /** A failed field parse names exactly its own path; a successful one names nothing. */
  lemma PathsOfParse<T>(r: Result<T, seq<Issue>>, path: string)
    requires r.Failure? ==> r.error != [] && forall i :: 0 <= i < |r.error| ==> r.error[i].path == path
    ensures Paths(IssuesOf(r)) == if r.Success? then {} else {path}
  {
    if r.Failure? {
      PathsOfOneField(r.error, path);
    }
  }
}
