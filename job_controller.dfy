/**
 * The job-record store: body validation, the "at most two rows with status Emprego Atual" cap,
 * and the index/create/update/delete handlers over the `jobs` table.
 * The table is a sequence of rows in insertion order; `lastId` is SQLite's autoincrement counter.
 */
module JobController {
  import opened Wrappers
  import opened Strings
  import opened Validation
  import opened Errors
  import opened Http
  import ErrorHandling

  const CurrentJob := "Emprego Atual"
  const MaxCurrentJobs := 2

  const CreateCapMessage := "Você só pode ter no máximo duas vagas com o status 'Emprego Atual'"
  const UpdateCapMessage := "Ops! Você só pode ter no máximo duas vagas com o status 'Emprego Atual'."
  const NotFoundMessage := "Job not found"
  const InvalidIdMessage := "Id must be a number"
  const CreatedMessage := "Job created successfully"
  const UpdatedMessage := "Job updated successfully"
  const DeletedMessage := "Job deleted successfully"

  /** The request body as received; `None` is a missing field. */
  datatype RawJobBody = RawJobBody(
    company_name: Option<string>,
    position: Option<string>,
    seniority_level: Option<string>,
    payment_currency: Option<string>,
    initial_salary: Option<real>,
    current_salary: Option<real>,
    vacancy_modality: Option<string>,
    work_regime: Option<string>,
    place: Option<string>,
    status: Option<string>)

  /** The ten fields a parsed body carries and a row stores. */
  datatype JobBody = JobBody(
    company_name: string,
    position: string,
    seniority_level: string,
    payment_currency: string,
    initial_salary: real,
    current_salary: real,
    vacancy_modality: string,
    work_regime: string,
    place: string,
    status: string)

  /** A row of the `jobs` table; timestamps are instants of the server clock. */
  datatype JobRecord = JobRecord(id: int, body: JobBody, created_at: int, updated_at: int)

  // ---------------------------------------------------------------- body schema

  /** `z.string().trim().min(n)`. */
  function TrimmedMin(n: nat): StringSchema
  {
    StringSchema(true, RequiredMessage, [Min(n)])
  }

  /** The body schema has no email check. */
  function NoEmailCheck(s: string): bool
  {
    true
  }

  /** The field is present and at least `n` UTF-16 units long once trimmed. */
  predicate TrimmedAtLeast(v: Option<string>, n: nat)
  {
    v.Some? && Utf16Length(Trim(v.value)) >= n
  }

  predicate PresentNonNegative(v: Option<real>)
  {
    v.Some? && v.value >= 0.0
  }

  /** What the body schema accepts, field by field. */
  predicate AcceptsJobBody(raw: RawJobBody)
  {
    && TrimmedAtLeast(raw.company_name, 4)
    && TrimmedAtLeast(raw.position, 8)
    && TrimmedAtLeast(raw.seniority_level, 5)
    && TrimmedAtLeast(raw.payment_currency, 4)
    && PresentNonNegative(raw.initial_salary)
    && PresentNonNegative(raw.current_salary)
    && TrimmedAtLeast(raw.vacancy_modality, 6)
    && TrimmedAtLeast(raw.work_regime, 2)
    && TrimmedAtLeast(raw.place, 4)
    && TrimmedAtLeast(raw.status, 7)
  }

  /** The fields whose rule the body breaks, by their paths. */
  function FailingFields(raw: RawJobBody): set<string>
  {
    Named(TrimmedAtLeast(raw.company_name, 4), "company_name")
    + Named(TrimmedAtLeast(raw.position, 8), "position")
    + Named(TrimmedAtLeast(raw.seniority_level, 5), "seniority_level")
    + Named(TrimmedAtLeast(raw.payment_currency, 4), "payment_currency")
    + Named(PresentNonNegative(raw.initial_salary), "initial_salary")
    + Named(PresentNonNegative(raw.current_salary), "current_salary")
    + Named(TrimmedAtLeast(raw.vacancy_modality, 6), "vacancy_modality")
    + Named(TrimmedAtLeast(raw.work_regime, 2), "work_regime")
    + Named(TrimmedAtLeast(raw.place, 4), "place")
    + Named(TrimmedAtLeast(raw.status, 7), "status")
  }

  /** No field fails exactly when the schema accepts the body. */
  lemma NoFailingFields(raw: RawJobBody)
    ensures FailingFields(raw) == {} <==> AcceptsJobBody(raw)
  {
    if !TrimmedAtLeast(raw.company_name, 4) {
      assert "company_name" in FailingFields(raw);
    } else if !TrimmedAtLeast(raw.position, 8) {
      assert "position" in FailingFields(raw);
    } else if !TrimmedAtLeast(raw.seniority_level, 5) {
      assert "seniority_level" in FailingFields(raw);
    } else if !TrimmedAtLeast(raw.payment_currency, 4) {
      assert "payment_currency" in FailingFields(raw);
    } else if !PresentNonNegative(raw.initial_salary) {
      assert "initial_salary" in FailingFields(raw);
    } else if !PresentNonNegative(raw.current_salary) {
      assert "current_salary" in FailingFields(raw);
    } else if !TrimmedAtLeast(raw.vacancy_modality, 6) {
      assert "vacancy_modality" in FailingFields(raw);
    } else if !TrimmedAtLeast(raw.work_regime, 2) {
      assert "work_regime" in FailingFields(raw);
    } else if !TrimmedAtLeast(raw.place, 4) {
      assert "place" in FailingFields(raw);
    } else if !TrimmedAtLeast(raw.status, 7) {
      assert "status" in FailingFields(raw);
    }
  }

  /** One `z.string().trim().min(n)` field of the body. */
  function ParseTrimmedField(path: string, n: nat, v: Option<string>): (r: Result<string, seq<Issue>>)
    ensures r.Success? <==> TrimmedAtLeast(v, n)
    ensures r.Success? ==> r.value == Trim(v.value)
    ensures IssuesOf(r) == [] <==> r.Success?
    ensures Paths(IssuesOf(r)) == Named(TrimmedAtLeast(v, n), path)
  {
    var r := ParseString(path, TrimmedMin(n), v, NoEmailCheck);
    assert v.Some? ==> (AllPass([Min(n)], Trim(v.value), NoEmailCheck) <==> Utf16Length(Trim(v.value)) >= n);
    PathsOfParse(r, path);
    r
  }

  /** One `z.number().nonnegative()` field of the body. */
  function ParseSalaryField(path: string, v: Option<real>): (r: Result<Option<real>, seq<Issue>>)
    ensures r.Success? <==> PresentNonNegative(v)
    ensures r.Success? ==> r.value == v
    ensures IssuesOf(r) == [] <==> r.Success?
    ensures Paths(IssuesOf(r)) == Named(PresentNonNegative(v), path)
  {
    var r := ParseNonNegative(path, false, v);
    PathsOfParse(r, path);
    r
  }

  /** The body with every string field trimmed. */
  function TrimmedBody(raw: RawJobBody): JobBody
    requires AcceptsJobBody(raw)
  {
    JobBody(
      Trim(raw.company_name.value), Trim(raw.position.value), Trim(raw.seniority_level.value),
      Trim(raw.payment_currency.value), raw.initial_salary.value, raw.current_salary.value,
      Trim(raw.vacancy_modality.value), Trim(raw.work_regime.value), Trim(raw.place.value),
      Trim(raw.status.value))
  }

  /** The paths of ten issue lists run together are the union of their paths. */
  lemma PathsOfTen(
    p1: seq<Issue>, p2: seq<Issue>, p3: seq<Issue>, p4: seq<Issue>, p5: seq<Issue>,
    p6: seq<Issue>, p7: seq<Issue>, p8: seq<Issue>, p9: seq<Issue>, p10: seq<Issue>)
    ensures Paths(p1 + p2 + p3 + p4 + p5 + p6 + p7 + p8 + p9 + p10)
         == Paths(p1) + Paths(p2) + Paths(p3) + Paths(p4) + Paths(p5)
            + Paths(p6) + Paths(p7) + Paths(p8) + Paths(p9) + Paths(p10)
  {
    PathsConcat(p1, p2);
    PathsConcat(p1 + p2, p3);
    PathsConcat(p1 + p2 + p3, p4);
    PathsConcat(p1 + p2 + p3 + p4, p5);
    PathsConcat(p1 + p2 + p3 + p4 + p5, p6);
    PathsConcat(p1 + p2 + p3 + p4 + p5 + p6, p7);
    PathsConcat(p1 + p2 + p3 + p4 + p5 + p6 + p7, p8);
    PathsConcat(p1 + p2 + p3 + p4 + p5 + p6 + p7 + p8, p9);
    PathsConcat(p1 + p2 + p3 + p4 + p5 + p6 + p7 + p8 + p9, p10);
  }

  /** Every issue `bodySchema` finds, field by field in schema order. */
  function BodyIssues(raw: RawJobBody): (issues: seq<Issue>)
    ensures Paths(issues) == FailingFields(raw)
    ensures issues == [] <==> AcceptsJobBody(raw)
  {
    var p1 := IssuesOf(ParseTrimmedField("company_name", 4, raw.company_name));
    var p2 := IssuesOf(ParseTrimmedField("position", 8, raw.position));
    var p3 := IssuesOf(ParseTrimmedField("seniority_level", 5, raw.seniority_level));
    var p4 := IssuesOf(ParseTrimmedField("payment_currency", 4, raw.payment_currency));
    var p5 := IssuesOf(ParseSalaryField("initial_salary", raw.initial_salary));
    var p6 := IssuesOf(ParseSalaryField("current_salary", raw.current_salary));
    var p7 := IssuesOf(ParseTrimmedField("vacancy_modality", 6, raw.vacancy_modality));
    var p8 := IssuesOf(ParseTrimmedField("work_regime", 2, raw.work_regime));
    var p9 := IssuesOf(ParseTrimmedField("place", 4, raw.place));
    var p10 := IssuesOf(ParseTrimmedField("status", 7, raw.status));
    PathsOfTen(p1, p2, p3, p4, p5, p6, p7, p8, p9, p10);
    NoFailingFields(raw);
    p1 + p2 + p3 + p4 + p5 + p6 + p7 + p8 + p9 + p10
  }

  /** `bodySchema.parse(request.body)`: the trimmed body, or every issue found, field by field. */
  function ValidateJobBody(raw: RawJobBody): (r: Result<JobBody, seq<Issue>>)
    ensures r.Success? <==> AcceptsJobBody(raw)
    ensures r.Success? ==> r.value == TrimmedBody(raw)
    ensures r.Failure? ==> r.error != [] && Paths(r.error) == FailingFields(raw)
  {
    var issues := BodyIssues(raw);
    if issues == [] then Success(TrimmedBody(raw)) else Failure(issues)
  }

  /** The issue zod reports when `Number(request.params.id)` is NaN. */
  const InvalidIdIssue := Issue("", Custom, InvalidIdMessage)

  /**
   * What the client receives when a job body is refused: the error middleware answers the
   * `ZodError` with 400 and "Validation error", and the issues name exactly the failing fields.
   */
  lemma RejectedBodyAnswer(raw: RawJobBody)
    requires !AcceptsJobBody(raw)
    ensures var answer := ErrorHandling.Handle(ZodError(ValidateJobBody(raw).error));
            && answer.status == StatusBadRequest
            && answer.body == ErrorHandling.ValidationFailure(ErrorHandling.ValidationErrorMessage, answer.body.issues)
            && answer.body.issues != [] && Paths(answer.body.issues) == FailingFields(raw)
  {
  }

  // ---------------------------------------------------------------- table queries

  predicate IsCurrentJob(j: JobRecord)
  {
    j.body.status == CurrentJob
  }

  /** `count(*) where status = 'Emprego Atual'`. */
  function CountCurrent(rows: seq<JobRecord>): (n: nat)
    ensures n <= |rows|
  {
    if rows == [] then 0 else (if IsCurrentJob(rows[0]) then 1 else 0) + CountCurrent(rows[1..])
  }

  /** The positions of the table that hold an "Emprego Atual" row. */
  ghost function CurrentPositions(rows: seq<JobRecord>): set<nat>
  {
    set i: nat | i < |rows| && IsCurrentJob(rows[i])
  }

  /** Appending a row adds its position exactly when it is an "Emprego Atual" row. */
  lemma PositionsSnoc(prefix: seq<JobRecord>, x: JobRecord)
    ensures CurrentPositions(prefix + [x]) == CurrentPositions(prefix) + (if IsCurrentJob(x) then {|prefix|} else {})
  {
    var rows := prefix + [x];
    forall i: nat | i < |prefix| ensures rows[i] == prefix[i] {}
    assert rows[|prefix|] == x;
  }

  /** The count is the number of positions holding an "Emprego Atual" row. */
  lemma {:induction false} CountCurrentCountsPositions(rows: seq<JobRecord>)
    ensures CountCurrent(rows) == |CurrentPositions(rows)|
    decreases |rows|
  {
    if rows != [] {
      var last := |rows| - 1;
      var prefix := rows[..last];
      assert rows == prefix + [rows[last]];
      CountConcat(prefix, [rows[last]]);
      CountCurrentCountsPositions(prefix);
      PositionsSnoc(prefix, rows[last]);
    }
  }

  /** Submitting `body` would exceed the cap given the rows it is counted against. */
  predicate CapReached(rows: seq<JobRecord>, body: JobBody)
  {
    body.status == CurrentJob && CountCurrent(rows) >= MaxCurrentJobs
  }

  /** Ids are pairwise distinct (the primary key). */
  ghost predicate IdsUnique(rows: seq<JobRecord>)
  {
    forall i, j :: 0 <= i < j < |rows| ==> rows[i].id != rows[j].id
  }

  /** `select ... where { id } .first()`. */
  function FindJob(rows: seq<JobRecord>, id: int): (r: Option<JobRecord>)
    ensures r.None? <==> forall i :: 0 <= i < |rows| ==> rows[i].id != id
    ensures r.Some? ==> r.value in rows && r.value.id == id
  {
    if rows == [] then None else if rows[0].id == id then Some(rows[0]) else FindJob(rows[1..], id)
  }

  /** `delete().where({ id })`, also the rows `andWhereNot({ id })` counts over. */
  function RemoveJob(rows: seq<JobRecord>, id: int): (r: seq<JobRecord>)
    ensures |r| <= |rows|
    ensures forall j :: j in r <==> j in rows && j.id != id
  {
    if rows == [] then []
    else (if rows[0].id == id then [] else [rows[0]]) + RemoveJob(rows[1..], id)
  }

  /** The row after `update({...body, updated_at: now})`: id and created_at are kept. */
  function UpdateRecord(j: JobRecord, body: JobBody, now: int): JobRecord
  {
    j.(body := body, updated_at := now)
  }

  /** `update(...).where({ id })`. */
  function ReplaceJob(rows: seq<JobRecord>, id: int, body: JobBody, now: int): (r: seq<JobRecord>)
    ensures |r| == |rows|
    ensures forall i :: 0 <= i < |rows| ==> r[i].id == rows[i].id && r[i].created_at == rows[i].created_at
    ensures forall i :: 0 <= i < |rows| && rows[i].id != id ==> r[i] == rows[i]
    ensures forall i :: 0 <= i < |rows| && rows[i].id == id ==> r[i].body == body && r[i].updated_at == now
  {
    if rows == [] then []
    else [if rows[0].id == id then UpdateRecord(rows[0], body, now) else rows[0]]
         + ReplaceJob(rows[1..], id, body, now)
  }

  // ---------------------------------------------------------------- table lemmas

  /** The tail of a table with distinct ids has distinct ids, none equal to the head's. */
  lemma UniqueTail(rows: seq<JobRecord>)
    requires rows != [] && IdsUnique(rows)
    ensures IdsUnique(rows[1..])
    ensures forall i :: 0 <= i < |rows[1..]| ==> rows[1..][i].id != rows[0].id
  {
    forall i | 0 <= i < |rows[1..]| ensures rows[1..][i].id != rows[0].id {
      assert rows[1..][i] == rows[i + 1];
    }
    forall i, j | 0 <= i < j < |rows[1..]| ensures rows[1..][i].id != rows[1..][j].id {
      assert rows[1..][i] == rows[i + 1] && rows[1..][j] == rows[j + 1];
    }
  }

  lemma {:induction false} CountConcat(a: seq<JobRecord>, b: seq<JobRecord>)
    ensures CountCurrent(a + b) == CountCurrent(a) + CountCurrent(b)
  {
    if a == [] {
      assert a + b == b;
    } else {
      assert (a + b)[1..] == a[1..] + b;
      CountConcat(a[1..], b);
    }
  }

  lemma CountCons(x: JobRecord, rest: seq<JobRecord>)
    ensures CountCurrent([x] + rest) == (if IsCurrentJob(x) then 1 else 0) + CountCurrent(rest)
  {
    assert ([x] + rest)[1..] == rest;
  }

  /** Counting without the row `j` with that id, then adding `j` back, gives the full count. */
  lemma {:induction false} CountRemove(rows: seq<JobRecord>, id: int, j: JobRecord)
    requires IdsUnique(rows)
    requires FindJob(rows, id) == Some(j)
    ensures CountCurrent(rows) == CountCurrent(RemoveJob(rows, id)) + (if IsCurrentJob(j) then 1 else 0)
  {
    UniqueTail(rows);
    var rest := RemoveJob(rows[1..], id);
    if rows[0].id == id {
      assert rows[0] == j;
      RemoveAbsent(rows[1..], id);
      assert RemoveJob(rows, id) == rest;
    } else {
      CountRemove(rows[1..], id, j);
      assert RemoveJob(rows, id) == [rows[0]] + rest;
      CountCons(rows[0], rest);
    }
  }

  /** Removing an id no row has changes nothing. */
  lemma {:induction false} RemoveAbsent(rows: seq<JobRecord>, id: int)
    requires forall i :: 0 <= i < |rows| ==> rows[i].id != id
    ensures RemoveJob(rows, id) == rows
  {
    if rows != [] {
      RemoveAbsent(rows[1..], id);
      assert rows == [rows[0]] + rows[1..];
    }
  }

  /** After an update, the count is the count of the other rows plus the new status. */
  lemma {:induction false} CountReplace(rows: seq<JobRecord>, id: int, body: JobBody, now: int)
    requires IdsUnique(rows)
    requires FindJob(rows, id).Some?
    ensures CountCurrent(ReplaceJob(rows, id, body, now))
         == CountCurrent(RemoveJob(rows, id)) + (if body.status == CurrentJob then 1 else 0)
  {
    UniqueTail(rows);
    var removed := RemoveJob(rows[1..], id);
    var replaced := ReplaceJob(rows[1..], id, body, now);
    if rows[0].id == id {
      ReplaceAbsent(rows[1..], id, body, now);
      RemoveAbsent(rows[1..], id);
      assert RemoveJob(rows, id) == removed;
      assert ReplaceJob(rows, id, body, now) == [UpdateRecord(rows[0], body, now)] + replaced;
      CountCons(UpdateRecord(rows[0], body, now), replaced);
    } else {
      CountReplace(rows[1..], id, body, now);
      assert RemoveJob(rows, id) == [rows[0]] + removed;
      CountCons(rows[0], removed);
      assert ReplaceJob(rows, id, body, now) == [rows[0]] + replaced;
      CountCons(rows[0], replaced);
    }
  }

  lemma {:induction false} ReplaceAbsent(rows: seq<JobRecord>, id: int, body: JobBody, now: int)
    requires forall i :: 0 <= i < |rows| ==> rows[i].id != id
    ensures ReplaceJob(rows, id, body, now) == rows
  {
    if rows != [] {
      ReplaceAbsent(rows[1..], id, body, now);
      assert rows == [rows[0]] + rows[1..];
    }
  }

  /** Putting a row with a new id in front keeps the ids distinct. */
  lemma ConsKeepsIdsUnique(x: JobRecord, rest: seq<JobRecord>)
    requires IdsUnique(rest)
    requires forall j :: j in rest ==> j.id != x.id
    ensures IdsUnique([x] + rest)
  {
    var r := [x] + rest;
    forall a, b | 0 <= a < b < |r| ensures r[a].id != r[b].id {
      assert r[b] == rest[b - 1];
      if a > 0 { assert r[a] == rest[a - 1]; }
    }
  }

  /** Removing rows keeps the remaining ids distinct. */
  lemma {:induction false} RemoveKeepsIdsUnique(rows: seq<JobRecord>, id: int)
    requires IdsUnique(rows)
    ensures IdsUnique(RemoveJob(rows, id))
  {
    if rows != [] {
      UniqueTail(rows);
      RemoveKeepsIdsUnique(rows[1..], id);
      var rest := RemoveJob(rows[1..], id);
      if rows[0].id != id {
        assert RemoveJob(rows, id) == [rows[0]] + rest;
        forall j | j in rest ensures j.id != rows[0].id {
          assert j in rows[1..];
        }
        ConsKeepsIdsUnique(rows[0], rest);
      } else {
        assert RemoveJob(rows, id) == rest;
      }
    }
  }

  /** Delete removes exactly the one row with that id. */
  lemma {:induction false} RemoveExactlyOne(rows: seq<JobRecord>, id: int, j: JobRecord)
    requires IdsUnique(rows)
    requires FindJob(rows, id) == Some(j)
    ensures multiset(RemoveJob(rows, id)) == multiset(rows) - multiset{j}
    ensures |RemoveJob(rows, id)| == |rows| - 1
  {
    assert rows == [rows[0]] + rows[1..];
    UniqueTail(rows);
    if rows[0].id == id {
      RemoveAbsent(rows[1..], id);
    } else {
      RemoveExactlyOne(rows[1..], id, j);
    }
  }

  /** The table read as a map from id: appending a row with a new id only adds that id. */
  lemma {:induction false} FindAfterAppend(rows: seq<JobRecord>, r: JobRecord, k: int)
    ensures FindJob(rows + [r], k)
         == if FindJob(rows, k).Some? then FindJob(rows, k) else if r.id == k then Some(r) else None
  {
    if rows == [] {
      assert rows + [r] == [r];
    } else {
      assert (rows + [r])[1..] == rows[1..] + [r];
      FindAfterAppend(rows[1..], r, k);
    }
  }

  /** After delete, the id is gone and every other id finds what it found before. */
  lemma {:induction false} FindAfterRemove(rows: seq<JobRecord>, id: int, k: int)
    ensures FindJob(RemoveJob(rows, id), k) == if k == id then None else FindJob(rows, k)
  {
    if rows != [] {
      FindAfterRemove(rows[1..], id, k);
      var rest := RemoveJob(rows[1..], id);
      if rows[0].id != id {
        assert RemoveJob(rows, id) == [rows[0]] + rest;
        assert ([rows[0]] + rest)[1..] == rest;
      } else {
        assert RemoveJob(rows, id) == rest;
      }
    }
  }

  /** After update, the id finds the updated row and every other id finds what it found before. */
  lemma {:induction false} FindAfterReplace(rows: seq<JobRecord>, id: int, body: JobBody, now: int, k: int)
    ensures FindJob(ReplaceJob(rows, id, body, now), k)
         == if k != id then FindJob(rows, k)
            else match FindJob(rows, id) {
              case None => None
              case Some(j) => Some(UpdateRecord(j, body, now))
            }
  {
    if rows != [] {
      FindAfterReplace(rows[1..], id, body, now, k);
      var rest := ReplaceJob(rows[1..], id, body, now);
      var head := if rows[0].id == id then UpdateRecord(rows[0], body, now) else rows[0];
      assert ReplaceJob(rows, id, body, now) == [head] + rest;
      assert ([head] + rest)[1..] == rest;
    }
  }

  // ---------------------------------------------------------------- index query

  /** `whereLike("company_name", "%pattern%")`, as a plain substring test. */
  function FilterByCompany(rows: seq<JobRecord>, pattern: string): (r: seq<JobRecord>)
    ensures |r| <= |rows|
    ensures forall j :: j in r <==> j in rows && Contains(j.body.company_name, pattern)
    ensures forall j :: multiset(r)[j] == if Contains(j.body.company_name, pattern) then multiset(rows)[j] else 0
  {
    if rows == [] then []
    else
      assert rows == [rows[0]] + rows[1..];
      (if Contains(rows[0].body.company_name, pattern) then [rows[0]] else [])
      + FilterByCompany(rows[1..], pattern)
  }

  /** `company_name ?? ""` selects every row. */
  lemma {:induction false} FilterEmptyPatternKeepsAll(rows: seq<JobRecord>)
    ensures FilterByCompany(rows, "") == rows
  {
    if rows != [] {
      ContainsEmpty(rows[0].body.company_name);
      FilterEmptyPatternKeepsAll(rows[1..]);
      assert rows == [rows[0]] + rows[1..];
    }
  }

  /** `orderBy("created_at", "desc")`. */
  ghost predicate SortedByCreatedDesc(s: seq<JobRecord>)
  {
    forall i, j :: 0 <= i < j < |s| ==> s[i].created_at >= s[j].created_at
  }

  function InsertByCreatedDesc(x: JobRecord, s: seq<JobRecord>): (r: seq<JobRecord>)
    requires SortedByCreatedDesc(s)
    ensures SortedByCreatedDesc(r)
    ensures multiset(r) == multiset(s) + multiset{x}
    ensures |r| == |s| + 1
    ensures r != [] && (r[0] == x || (s != [] && r[0] == s[0]))
  {
    if s == [] || x.created_at >= s[0].created_at then
      [x] + s
    else
      var rest := InsertByCreatedDesc(x, s[1..]);
      assert s == [s[0]] + s[1..];
      [s[0]] + rest
  }

  function SortByCreatedDesc(s: seq<JobRecord>): (r: seq<JobRecord>)
    ensures SortedByCreatedDesc(r)
    ensures multiset(r) == multiset(s)
  {
    if s == [] then []
    else
      assert s == [s[0]] + s[1..];
      InsertByCreatedDesc(s[0], SortByCreatedDesc(s[1..]))
  }

  function Pattern(companyName: Option<string>): string
  {
    if companyName.Some? then companyName.value else ""
  }

  /** The rows `index` answers with. */
  function IndexQuery(rows: seq<JobRecord>, companyName: Option<string>): (r: seq<JobRecord>)
    ensures SortedByCreatedDesc(r)
    ensures multiset(r) == multiset(FilterByCompany(rows, Pattern(companyName)))
  {
    SortByCreatedDesc(FilterByCompany(rows, Pattern(companyName)))
  }

  /** Without a filter, the index lists every row, newest first. */
  lemma IndexWithoutFilterListsAll(rows: seq<JobRecord>)
    ensures multiset(IndexQuery(rows, None)) == multiset(rows)
    ensures SortedByCreatedDesc(IndexQuery(rows, None))
  {
    FilterEmptyPatternKeepsAll(rows);
  }

  /** A deleted row is absent from every later listing. */
  lemma DeletedJobNotListed(rows: seq<JobRecord>, id: int, companyName: Option<string>)
    ensures forall j :: j in IndexQuery(RemoveJob(rows, id), companyName) ==> j.id != id
  {
    forall j | j in IndexQuery(RemoveJob(rows, id), companyName) ensures j.id != id {
      assert j in multiset(IndexQuery(RemoveJob(rows, id), companyName));
      assert j in FilterByCompany(RemoveJob(rows, id), Pattern(companyName));
    }
  }

  // ---------------------------------------------------------------- the table and its handlers

  class JobTable {
    var rows: seq<JobRecord>
    var lastId: nat

    /** Primary-key invariant: distinct ids, all issued by the autoincrement counter. */
    ghost predicate Valid()
      reads this
    {
      IdsUnique(rows) && forall i :: 0 <= i < |rows| ==> 0 < rows[i].id <= lastId
    }

    /** The business rule: at most two rows hold the status Emprego Atual. */
    ghost predicate WithinCap()
      reads this
    {
      CountCurrent(rows) <= MaxCurrentJobs
    }

    constructor (initial: seq<JobRecord>, counter: nat)
      requires IdsUnique(initial)
      requires forall i :: 0 <= i < |initial| ==> 0 < initial[i].id <= counter
      ensures Valid() && rows == initial && lastId == counter
    {
      rows := initial;
      lastId := counter;
    }

    /** GET /jobs?company_name=... */
    method Index(companyName: Option<string>) returns (reply: Reply<seq<JobRecord>>)
      ensures reply.status == StatusOk
      ensures SortedByCreatedDesc(reply.body)
      ensures multiset(reply.body) == multiset(FilterByCompany(rows, Pattern(companyName)))
    {
      reply := Reply(StatusOk, IndexQuery(rows, companyName));
    }

    /** `insert(body)`: a new row under the next autoincrement id, both timestamps `now`. */
    method InsertRow(body: JobBody, now: int)
      requires Valid()
      modifies this
      ensures Valid()
      ensures lastId == old(lastId) + 1
      ensures rows == old(rows) + [JobRecord(lastId, body, now, now)]
      ensures old(WithinCap()) && !CapReached(old(rows), body) ==> WithinCap()
    {
      lastId := lastId + 1;
      var job := JobRecord(lastId, body, now, now);
      CountConcat(rows, [job]);
      rows := rows + [job];
    }

    /** `update({...body, updated_at: now}).where({ id })` on an existing id. */
    method UpdateRow(id: int, body: JobBody, now: int)
      requires Valid()
      requires FindJob(rows, id).Some?
      modifies this
      ensures Valid() && lastId == old(lastId)
      ensures rows == ReplaceJob(old(rows), id, body, now)
      ensures old(WithinCap()) && !CapReached(RemoveJob(old(rows), id), body) ==> WithinCap()
    {
      CountReplace(rows, id, body, now);
      CountRemove(rows, id, FindJob(rows, id).value);
      rows := ReplaceJob(rows, id, body, now);
    }

    /** `delete().where({ id })`. */
    method DeleteRow(id: int)
      requires Valid()
      modifies this
      ensures Valid() && lastId == old(lastId)
      ensures rows == RemoveJob(old(rows), id)
      ensures old(WithinCap()) ==> WithinCap()
    {
      if FindJob(rows, id).Some? {
        CountRemove(rows, id, FindJob(rows, id).value);
      } else {
        RemoveAbsent(rows, id);
      }
      RemoveKeepsIdsUnique(rows, id);
      rows := RemoveJob(rows, id);
    }

    /** POST /jobs */
    method Create(raw: RawJobBody, now: int) returns (res: Result<Reply<MessageBody>, Error>)
      requires Valid()
      modifies this
      ensures Valid()
      ensures ValidateJobBody(raw).Failure? ==>
        res == Failure(ZodError(ValidateJobBody(raw).error)) && rows == old(rows) && lastId == old(lastId)
      ensures ValidateJobBody(raw).Success? && CapReached(old(rows), ValidateJobBody(raw).value) ==>
        res == Failure(AppError(CreateCapMessage, 400)) && rows == old(rows) && lastId == old(lastId)
      ensures res.Success? <==> ValidateJobBody(raw).Success? && !CapReached(old(rows), ValidateJobBody(raw).value)
      ensures res.Success? ==>
        && res.value == Reply(StatusCreated, MessageBody(CreatedMessage))
        && lastId == old(lastId) + 1
        && rows == old(rows) + [JobRecord(lastId, ValidateJobBody(raw).value, now, now)]
      ensures old(WithinCap()) ==> WithinCap()
    {
      var parsed := ValidateJobBody(raw);
      if parsed.Failure? {
        return Failure(ZodError(parsed.error));
      }
      var body := parsed.value;
      if body.status == CurrentJob {
        var count := CountCurrent(rows);
        if count >= MaxCurrentJobs {
          return Failure(NewAppError(CreateCapMessage, 400));
        }
      }
      InsertRow(body, now);
      res := Success(Reply(StatusCreated, MessageBody(CreatedMessage)));
    }

    /** PUT /jobs/:id; `id` is `Number(request.params.id)`, `None` when that is NaN. */
    method Update(id: Option<int>, raw: RawJobBody, now: int) returns (res: Result<Reply<MessageBody>, Error>)
      requires Valid()
      modifies this
      ensures Valid() && lastId == old(lastId)
      ensures id.None? ==> res == Failure(ZodError([InvalidIdIssue])) && rows == old(rows)
      ensures id.Some? && ValidateJobBody(raw).Failure? ==>
        res == Failure(ZodError(ValidateJobBody(raw).error)) && rows == old(rows)
      ensures id.Some? && ValidateJobBody(raw).Success? && FindJob(old(rows), id.value).None? ==>
        res == Failure(AppError(NotFoundMessage, 404)) && rows == old(rows)
      ensures id.Some? && ValidateJobBody(raw).Success? && FindJob(old(rows), id.value).Some?
              && CapReached(RemoveJob(old(rows), id.value), ValidateJobBody(raw).value) ==>
        res == Failure(AppError(UpdateCapMessage, 400)) && rows == old(rows)
      ensures res.Success? <==>
        id.Some? && ValidateJobBody(raw).Success? && FindJob(old(rows), id.value).Some?
        && !CapReached(RemoveJob(old(rows), id.value), ValidateJobBody(raw).value)
      ensures res.Success? ==>
        && res.value == Reply(StatusOk, MessageBody(UpdatedMessage))
        && rows == ReplaceJob(old(rows), id.value, ValidateJobBody(raw).value, now)
      ensures old(WithinCap()) ==> WithinCap()
    {
      if id.None? {
        return Failure(ZodError([InvalidIdIssue]));
      }
      var key := id.value;
      var parsed := ValidateJobBody(raw);
      if parsed.Failure? {
        return Failure(ZodError(parsed.error));
      }
      var body := parsed.value;
      var job := FindJob(rows, key);
      if job.None? {
        return Failure(NewAppError(NotFoundMessage, 404));
      }
      if body.status == CurrentJob {
        var count := CountCurrent(RemoveJob(rows, key));
        if count >= MaxCurrentJobs {
          return Failure(NewAppError(UpdateCapMessage, 400));
        }
      }
      UpdateRow(key, body, now);
      res := Success(Reply(StatusOk, MessageBody(UpdatedMessage)));
    }

    /** DELETE /jobs/:id */
    method Delete(id: Option<int>) returns (res: Result<Reply<MessageBody>, Error>)
      requires Valid()
      modifies this
      ensures Valid() && lastId == old(lastId)
      ensures id.None? ==> res == Failure(ZodError([InvalidIdIssue])) && rows == old(rows)
      ensures id.Some? && FindJob(old(rows), id.value).None? ==>
        res == Failure(AppError(NotFoundMessage, 404)) && rows == old(rows)
      ensures res.Success? <==> id.Some? && FindJob(old(rows), id.value).Some?
      ensures res.Success? ==>
        && res.value == Reply(StatusOk, MessageBody(DeletedMessage))
        && rows == RemoveJob(old(rows), id.value)
      ensures old(WithinCap()) ==> WithinCap()
    {
      if id.None? {
        return Failure(ZodError([InvalidIdIssue]));
      }
      var key := id.value;
      var job := FindJob(rows, key);
      if job.None? {
        return Failure(NewAppError(NotFoundMessage, 404));
      }
      DeleteRow(key);
      res := Success(Reply(StatusOk, MessageBody(DeletedMessage)));
    }
  }

  /**
   * Two creates with status Emprego Atual succeed on an empty table; a third is refused
   * with the cap error and adds no row.
   */
  method CapScenario(raw: RawJobBody, now: int) returns (first: bool, second: bool, third: Result<Reply<MessageBody>, Error>, rowCount: nat)
    requires AcceptsJobBody(raw) && Trim(raw.status.value) == CurrentJob
    ensures first && second
    ensures third == Failure(AppError(CreateCapMessage, 400))
    ensures rowCount == 2
  {
    var table := new JobTable([], 0);
    var r1 := table.Create(raw, now);
    var r2 := table.Create(raw, now + 1);
    assert CountCurrent(table.rows) == 2;
    third := table.Create(raw, now + 2);
    first, second := r1.Success?, r2.Success?;
    rowCount := |table.rows|;
  }
}
