/**
 * The job-application form of the web client: its zod schema, the option lists its radio groups
 * and state picker offer, its default values, and the submit handler that either hands the parsed
 * values to `onAdd` or shows one warning for the first failing field.
 */
module JobForm {
  import opened Wrappers
  import opened Strings
  import opened Validation
  import opened CurrencyUtils
  import JobController

  const CompanyNameMessage := "Ops! O nome da empresa deve ter no mínimo 4 caracteres."
  const PositionMessage := "Ops! Por favor, selecione um cargo para continuar."
  const SeniorityLevelMessage := "Ops! Por favor, selecione um nível para continuar."
  const PaymentCurrencyMessage := "Ops! Por favor, selecione uma moeda para continuar."
  const VacancyModalityMessage := "Ops! Por favor, selecione uma modalidade para continuar."
  const WorkRegimeMessage := "Ops! Por favor, selecione um regime de trabalho para continuar."
  const PlaceMessage := "Ops! Por favor, selecione um estado para continuar."

  /** The values the form holds; a salary is `None` when it is `undefined`. */
  datatype JobFormValues = JobFormValues(
    id: Option<int>,
    company_name: string,
    position: string,
    seniority_level: string,
    payment_currency: string,
    initial_salary: Option<real>,
    current_salary: Option<real>,
    vacancy_modality: string,
    work_regime: string,
    place: string,
    status: string)

  // ---------------------------------------------------------------- option lists

  const Positions := ["Front-end", "Back-end", "FullStack"]
  const SeniorityLevels := ["Júnior", "Pleno", "Sênior"]
  const PaymentCurrencies := ["Real", "Dólar", "Euro"]
  const VacancyModalities := ["Remota", "Híbrida", "Presencial"]
  const WorkRegimes := ["CLT", "PJ"]
  const BrazilianStates := [
    "Acre", "Alagoas", "Amapá", "Amazonas", "Bahia", "Ceará", "Distrito Federal",
    "Espírito Santo", "Goiás", "Maranhão", "Mato Grosso", "Mato Grosso do Sul",
    "Minas Gerais", "Pará", "Paraíba", "Pernambuco", "Piauí", "Rio de Janeiro",
    "Rio Grande do Norte", "Rio Grande do Sul", "Rondônia", "Roraima", "Santa Catarina",
    "São Paulo", "Sergipe", "Tocantins"]

  /** The values of a new form; `status` is not an input of the form and keeps "Enviada". */
  const DefaultValues := JobFormValues(None, "", "", "", "", Some(0.0), Some(0.0), "", "", "", "Enviada")

  // ---------------------------------------------------------------- schema

  /** `z.string().min(n)`, preceded by `.trim()` when `trim`. */
  predicate FieldOk(s: string, trim: bool, n: nat)
  {
    Utf16Length(if trim then Trim(s) else s) >= n
  }

  /** `z.number().nonnegative().optional()`. */
  predicate SalaryOk(v: Option<real>)
  {
    v.Some? ==> v.value >= 0.0
  }

  /** What `jobFormSchema` accepts. Only the company name and the status are trimmed. */
  predicate AcceptsJobForm(v: JobFormValues)
  {
    && FieldOk(v.company_name, true, 4)
    && FieldOk(v.position, false, 8)
    && FieldOk(v.seniority_level, false, 5)
    && FieldOk(v.payment_currency, false, 4)
    && SalaryOk(v.initial_salary)
    && SalaryOk(v.current_salary)
    && FieldOk(v.vacancy_modality, false, 6)
    && FieldOk(v.work_regime, false, 2)
    && FieldOk(v.place, false, 4)
    && FieldOk(v.status, true, 7)
  }

  /** One string field of the schema: at most one issue, with the field's own message. */
  function ParseFormField(path: string, s: string, trim: bool, n: nat, message: string): (r: Result<string, seq<Issue>>)
    ensures r.Success? <==> FieldOk(s, trim, n)
    ensures r.Success? ==> r.value == if trim then Trim(s) else s
    ensures r.Failure? ==> r.error == [Issue(path, TooSmall(n), message)]
  {
    var r := ParseString(path, StringSchema(trim, RequiredMessage, [MinLength(n, message)]), Some(s), JobController.NoEmailCheck);
    assert AllPass([MinLength(n, message)], if trim then Trim(s) else s, JobController.NoEmailCheck) <==> FieldOk(s, trim, n);
    r
  }

  /** react-hook-form's `errors[field].message` for a field parsed on its own. */
  function FirstMessage<T>(r: Result<T, seq<Issue>>): (m: Option<string>)
    ensures m.Some? <==> r.Failure? && r.error != []
    ensures m.Some? ==> m.value == r.error[0].message
  {
    if r.Failure? && r.error != [] then Some(r.error[0].message) else None
  }

  /** `FieldErrors<Job>`: the message recorded for each field, if any. */
  datatype JobFormErrors = JobFormErrors(
    company_name: Option<string>,
    position: Option<string>,
    seniority_level: Option<string>,
    payment_currency: Option<string>,
    initial_salary: Option<string>,
    current_salary: Option<string>,
    vacancy_modality: Option<string>,
    work_regime: Option<string>,
    place: Option<string>,
    status: Option<string>)

  const NoErrors := JobFormErrors(None, None, None, None, None, None, None, None, None, None)

  /** The errors the resolver records: a field has one exactly when its rule fails, with its message. */
  function FormErrors(v: JobFormValues): (e: JobFormErrors)
    ensures e.company_name == if FieldOk(v.company_name, true, 4) then None else Some(CompanyNameMessage)
    ensures e.position == if FieldOk(v.position, false, 8) then None else Some(PositionMessage)
    ensures e.seniority_level == if FieldOk(v.seniority_level, false, 5) then None else Some(SeniorityLevelMessage)
    ensures e.payment_currency == if FieldOk(v.payment_currency, false, 4) then None else Some(PaymentCurrencyMessage)
    ensures e.initial_salary == if SalaryOk(v.initial_salary) then None else Some(NonNegativeMessage)
    ensures e.current_salary == if SalaryOk(v.current_salary) then None else Some(NonNegativeMessage)
    ensures e.vacancy_modality == if FieldOk(v.vacancy_modality, false, 6) then None else Some(VacancyModalityMessage)
    ensures e.work_regime == if FieldOk(v.work_regime, false, 2) then None else Some(WorkRegimeMessage)
    ensures e.place == if FieldOk(v.place, false, 4) then None else Some(PlaceMessage)
    ensures e.status == if FieldOk(v.status, true, 7) then None else Some(TooSmallMessage(7))
  {
    var companyName := ParseFormField("company_name", v.company_name, true, 4, CompanyNameMessage);
    var position := ParseFormField("position", v.position, false, 8, PositionMessage);
    var seniorityLevel := ParseFormField("seniority_level", v.seniority_level, false, 5, SeniorityLevelMessage);
    var paymentCurrency := ParseFormField("payment_currency", v.payment_currency, false, 4, PaymentCurrencyMessage);
    var initialSalary := ParseNonNegative("initial_salary", true, v.initial_salary);
    var currentSalary := ParseNonNegative("current_salary", true, v.current_salary);
    var vacancyModality := ParseFormField("vacancy_modality", v.vacancy_modality, false, 6, VacancyModalityMessage);
    var workRegime := ParseFormField("work_regime", v.work_regime, false, 2, WorkRegimeMessage);
    var place := ParseFormField("place", v.place, false, 4, PlaceMessage);
    var status := ParseFormField("status", v.status, true, 7, TooSmallMessage(7));
    JobFormErrors(
      FirstMessage(companyName), FirstMessage(position), FirstMessage(seniorityLevel),
      FirstMessage(paymentCurrency), FirstMessage(initialSalary), FirstMessage(currentSalary),
      FirstMessage(vacancyModality), FirstMessage(workRegime), FirstMessage(place), FirstMessage(status))
  }

  /** The values the resolver hands to the submit handler: the two trimmed fields trimmed. */
  function Parsed(v: JobFormValues): JobFormValues
  {
    v.(company_name := Trim(v.company_name), status := Trim(v.status))
  }

  /** `zodResolver(jobFormSchema)`: the parsed values, or the errors of every field. */
  function ValidateJobForm(v: JobFormValues): (r: Result<JobFormValues, JobFormErrors>)
    ensures r.Success? <==> AcceptsJobForm(v)
    ensures r.Success? ==> r.value == Parsed(v)
    ensures r.Failure? ==> r.error == FormErrors(v) && r.error != NoErrors
  {
    var errors := FormErrors(v);
    if errors == NoErrors then Success(Parsed(v)) else Failure(errors)
  }

  // ---------------------------------------------------------------- warnings

  /** The errors `showErrorAlerts` looks at, in the order it looks. */
  function Warnable(e: JobFormErrors): seq<Option<string>>
  {
    [e.company_name, e.position, e.seniority_level, e.vacancy_modality, e.work_regime, e.place]
  }

  /** `showErrorAlerts`: the message of the first error among the six it looks at, if any. */
  function ShowErrorAlerts(e: JobFormErrors): (warning: Option<string>)
    ensures warning.None? <==> forall i :: 0 <= i < |Warnable(e)| ==> Warnable(e)[i].None?
    ensures warning.Some? ==> exists k :: 0 <= k < |Warnable(e)| && Warnable(e)[k] == warning
                                          && forall j :: 0 <= j < k ==> Warnable(e)[j].None?
  {
    var ws := Warnable(e);
    assert ws[0] == e.company_name && ws[1] == e.position && ws[2] == e.seniority_level;
    assert ws[3] == e.vacancy_modality && ws[4] == e.work_regime && ws[5] == e.place;
    if e.company_name.Some? then Some(e.company_name.value)
    else if e.position.Some? then Some(e.position.value)
    else if e.seniority_level.Some? then Some(e.seniority_level.value)
    else if e.vacancy_modality.Some? then Some(e.vacancy_modality.value)
    else if e.work_regime.Some? then Some(e.work_regime.value)
    else if e.place.Some? then Some(e.place.value)
    else None
  }

  /** Errors on the currency, the salaries and the status never produce a warning of their own. */
  lemma UnwarnedFieldsIgnored(e: JobFormErrors, currency: Option<string>, initial: Option<string>,
                              current: Option<string>, status: Option<string>)
    ensures ShowErrorAlerts(e.(payment_currency := currency, initial_salary := initial,
                               current_salary := current, status := status)) == ShowErrorAlerts(e)
  {
  }

  /** The warning is the message of the first failing field among the six that are looked at. */
  lemma WarningForFirstFailingField(v: JobFormValues)
    ensures var w := ShowErrorAlerts(FormErrors(v));
      && (!FieldOk(v.company_name, true, 4) ==> w == Some(CompanyNameMessage))
      && (FieldOk(v.company_name, true, 4) && !FieldOk(v.position, false, 8) ==> w == Some(PositionMessage))
      && ((FieldOk(v.company_name, true, 4) && FieldOk(v.position, false, 8)
           && !FieldOk(v.seniority_level, false, 5)) ==> w == Some(SeniorityLevelMessage))
      && ((FieldOk(v.company_name, true, 4) && FieldOk(v.position, false, 8) && FieldOk(v.seniority_level, false, 5)
           && !FieldOk(v.vacancy_modality, false, 6)) ==> w == Some(VacancyModalityMessage))
      && ((FieldOk(v.company_name, true, 4) && FieldOk(v.position, false, 8) && FieldOk(v.seniority_level, false, 5)
           && FieldOk(v.vacancy_modality, false, 6) && !FieldOk(v.work_regime, false, 2)) ==> w == Some(WorkRegimeMessage))
      && ((FieldOk(v.company_name, true, 4) && FieldOk(v.position, false, 8) && FieldOk(v.seniority_level, false, 5)
           && FieldOk(v.vacancy_modality, false, 6) && FieldOk(v.work_regime, false, 2)
           && !FieldOk(v.place, false, 4)) ==> w == Some(PlaceMessage))
      && ((FieldOk(v.company_name, true, 4) && FieldOk(v.position, false, 8) && FieldOk(v.seniority_level, false, 5)
           && FieldOk(v.vacancy_modality, false, 6) && FieldOk(v.work_regime, false, 2)
           && FieldOk(v.place, false, 4)) ==> w.None?)
  {
  }

  // ---------------------------------------------------------------- submit

  /** What submitting does: `onAdd` with the parsed values, or the warning (one toast at most). */
  datatype SubmitOutcome = Added(job: JobFormValues) | Warned(warning: Option<string>)

  /** `handleSubmit(onSubmit, showErrorAlerts)`. */
  function Submit(v: JobFormValues): (o: SubmitOutcome)
    ensures o.Added? <==> AcceptsJobForm(v)
    ensures o.Added? ==> o.job == Parsed(v)
    ensures o.Warned? ==> o.warning == ShowErrorAlerts(FormErrors(v))
  {
    match ValidateJobForm(v)
    case Success(data) => Added(data)
    case Failure(errors) => Warned(ShowErrorAlerts(errors))
  }

  /** A three-letter company name is refused with the company message, whatever else is filled in. */
  lemma ShortCompanyNameScenario(v: JobFormValues)
    requires v.company_name == "ABC"
    ensures Submit(v) == Warned(Some(CompanyNameMessage))
  {
    assert !FieldOk(v.company_name, true, 4) by { assert Trim("ABC") == "ABC"; }
    WarningForFirstFailingField(v);
  }

  /** A valid company name with no position selected is refused with the position message. */
  lemma MissingPositionScenario(v: JobFormValues)
    requires v.company_name == "Empresa Teste" && v.position == ""
    ensures Submit(v) == Warned(Some(PositionMessage))
  {
    assert FieldOk(v.company_name, true, 4) by { assert Trim("Empresa Teste") == "Empresa Teste"; }
    assert !FieldOk(v.position, false, 8);
    WarningForFirstFailingField(v);
  }

  /** The default status passes its rule while every empty default string fails its own. */
  lemma DefaultValuesChecks()
    ensures FieldOk(DefaultValues.status, true, 7)
    ensures !FieldOk(DefaultValues.company_name, true, 4) && !FieldOk(DefaultValues.position, false, 8)
    ensures !FieldOk(DefaultValues.seniority_level, false, 5) && !FieldOk(DefaultValues.payment_currency, false, 4)
    ensures !FieldOk(DefaultValues.vacancy_modality, false, 6) && !FieldOk(DefaultValues.work_regime, false, 2)
    ensures !FieldOk(DefaultValues.place, false, 4)
    ensures SalaryOk(DefaultValues.initial_salary) && SalaryOk(DefaultValues.current_salary)
  {
    assert Trim("Enviada") == "Enviada";
    assert Trim("") == "";
  }

  /** Submitting the untouched form warns about the company name and adds nothing. */
  lemma UntouchedFormWarned(v: JobFormValues)
    requires v.company_name == DefaultValues.company_name
    ensures Submit(v) == Warned(Some(CompanyNameMessage))
  {
    assert !FieldOk(v.company_name, true, 4) by { assert Trim("") == ""; }
    WarningForFirstFailingField(v);
  }

  /** Every option the form offers meets its field's minimum. */
  lemma OptionsMeetMinimums()
    ensures forall s :: s in Positions ==> FieldOk(s, false, 8)
    ensures forall s :: s in SeniorityLevels ==> FieldOk(s, false, 5)
    ensures forall s :: s in PaymentCurrencies ==> FieldOk(s, false, 4)
    ensures forall s :: s in VacancyModalities ==> FieldOk(s, false, 6)
    ensures forall s :: s in WorkRegimes ==> FieldOk(s, false, 2)
    ensures forall s :: s in BrazilianStates ==> FieldOk(s, false, 4)
  {
  }

  /** Every currency the form offers has a symbol to show beside the salaries. */
  lemma FormCurrenciesHaveSymbols()
    ensures forall c :: c in PaymentCurrencies ==> GetCurrencySymbol(c) != ""
  {
  }

  /** A Latin letter, accented or not; no whitespace character is one. */
  predicate IsLetter(c: char)
  {
    ('A' <= c <= 'Z') || ('a' <= c <= 'z') || ('\U{00C0}' <= c <= '\U{00FF}')
  }

  /** Every option begins and ends with a letter. */
  predicate LetterEnds(options: seq<string>)
  {
    forall i :: 0 <= i < |options| ==> options[i] != [] && IsLetter(options[i][0]) && IsLetter(options[i][|options[i]| - 1])
  }

  /** Options that begin and end with a letter are their own trimmed form. */
  lemma TrimKeepsOptions(options: seq<string>)
    requires LetterEnds(options)
    ensures forall s :: s in options ==> Trim(s) == s
  {
    forall s | s in options
      ensures Trim(s) == s
    {
      var i :| 0 <= i < |options| && options[i] == s;
      TrimClean(s);
    }
  }

  /** Every option the form offers begins and ends with a letter. */
  lemma OptionsHaveLetterEnds()
    ensures LetterEnds(Positions) && LetterEnds(SeniorityLevels) && LetterEnds(PaymentCurrencies)
    ensures LetterEnds(VacancyModalities) && LetterEnds(WorkRegimes) && LetterEnds(BrazilianStates)
  {
  }

  /** The request body for submitted values: every field as the form holds it. */
  function RequestBody(job: JobFormValues): JobController.RawJobBody
  {
    JobController.RawJobBody(
      Some(job.company_name), Some(job.position), Some(job.seniority_level), Some(job.payment_currency),
      job.initial_salary, job.current_salary, Some(job.vacancy_modality), Some(job.work_regime),
      Some(job.place), Some(job.status))
  }

  /**
   * Values the form accepts, with every choice taken from the offered options and both salaries
   * set, pass the server's body schema, and the server stores them unchanged.
   */
  lemma AcceptedChoicesPassServer(v: JobFormValues)
    requires AcceptsJobForm(v)
    requires v.position in Positions && v.seniority_level in SeniorityLevels
    requires v.payment_currency in PaymentCurrencies && v.vacancy_modality in VacancyModalities
    requires v.work_regime in WorkRegimes && v.place in BrazilianStates
    requires v.initial_salary.Some? && v.current_salary.Some?
    ensures JobController.AcceptsJobBody(RequestBody(Parsed(v)))
    ensures var b := JobController.TrimmedBody(RequestBody(Parsed(v)));
            && b.company_name == Parsed(v).company_name && b.position == v.position
            && b.seniority_level == v.seniority_level && b.payment_currency == v.payment_currency
            && b.initial_salary == v.initial_salary.value && b.current_salary == v.current_salary.value
            && b.vacancy_modality == v.vacancy_modality && b.work_regime == v.work_regime
            && b.place == v.place && b.status == Parsed(v).status
  {
    OptionsHaveLetterEnds();
    TrimKeepsOptions(Positions);
    TrimKeepsOptions(SeniorityLevels);
    TrimKeepsOptions(PaymentCurrencies);
    TrimKeepsOptions(VacancyModalities);
    TrimKeepsOptions(WorkRegimes);
    TrimKeepsOptions(BrazilianStates);
    TrimIdempotent(v.company_name);
    TrimIdempotent(v.status);
  }
}
