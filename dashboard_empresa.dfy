/** The company dashboard: the company's jobs with their application counts, the total
    and active-job figures, the status badges and the guarded "new job" action. */
module DashboardEmpresa {
  import opened Common

  /** A job row as selected, with its embedded `candidaturas(count)` aggregate. */
  datatype JobRow = JobRow(id: string, titulo: string, localidade: string, status: string, candidaturas: seq<nat>)

  /** A job as the dashboard keeps it. */
  datatype Job = Job(id: string, titulo: string, localidade: string, status: string, candidaturasCount: nat)

  datatype Company = Company(id: string, razaoSocial: string, cnpj: string, porte: string,
                             responsavel: string, cargoResponsavel: string)

  /** The "new job" dialog's fields. */
  datatype NewJobForm = NewJobForm(titulo: string, descricao: string, requisitos: string, salario: string,
                                   localidade: string, tipoContrato: string, recursosAcessibilidade: seq<string>)

  /** The row inserted for a new job. */
  datatype JobInsert = JobInsert(empresaId: string, titulo: string, descricao: string, requisitos: string,
                                 salario: string, localidade: string, tipoContrato: string,
                                 recursosAcessibilidade: seq<string>)

  const Active: string := "ativa"

  /** A fresh dialog: every field empty, and an accessible workplace as the one resource. */
  const EmptyJobForm: NewJobForm := NewJobForm("", "", "", "", "", "", ["Ambiente Acessível"])

  function ProcessJob(row: JobRow): (job: Job)
    ensures job.id == row.id && job.titulo == row.titulo && job.localidade == row.localidade
    ensures job.status == row.status
    ensures job.candidaturasCount == FirstCount(row.candidaturas)
  {
    Job(row.id, row.titulo, row.localidade, row.status, FirstCount(row.candidaturas))
  }

  /** `vagasData.map(...)`: one job per row, in the same order. */
  function ProcessJobs(rows: seq<JobRow>): (jobs: seq<Job>)
    ensures |jobs| == |rows|
    ensures forall i :: 0 <= i < |rows| ==> jobs[i] == ProcessJob(rows[i])
    decreases |rows|
  {
    if rows == [] then [] else [ProcessJob(rows[0])] + ProcessJobs(rows[1..])
  }

  /** The sum of the jobs' application counts (the `reduce` from 0). */
  function TotalApplications(jobs: seq<Job>): (total: nat)
    ensures jobs == [] ==> total == 0
    ensures forall i :: 0 <= i < |jobs| ==> jobs[i].candidaturasCount <= total
    decreases |jobs|
  {
    if jobs == [] then 0 else jobs[0].candidaturasCount + TotalApplications(jobs[1..])
  }

  /** The total splits over a concatenation of job lists. */
  lemma {:induction false} TotalApplicationsAppend(a: seq<Job>, b: seq<Job>)
    ensures TotalApplications(a + b) == TotalApplications(a) + TotalApplications(b)
    decreases |a|
  {
    if a == [] {
      assert a + b == b;
    } else {
      assert (a + b)[1..] == a[1..] + b;
      TotalApplicationsAppend(a[1..], b);
    }
  }

  /** `vagas.filter(v => v.status === 'ativa').length`. */
  function ActiveCount(jobs: seq<Job>): (n: nat)
    ensures n <= |jobs|
    ensures n == |jobs| <==> forall i :: 0 <= i < |jobs| ==> jobs[i].status == Active
    ensures n == 0 <==> forall i :: 0 <= i < |jobs| ==> jobs[i].status != Active
  {
    var statuses := seq(|jobs|, i requires 0 <= i < |jobs| => jobs[i].status);
    assert forall i :: 0 <= i < |jobs| ==> statuses[i] == jobs[i].status;
    StatusCount(statuses, Active)
  }

  /** A job's status badge: "Ativa" in green exactly for the status `ativa`, else "Inativa" in gray. */
  function StatusBadge(status: string): (b: Badge)
    ensures b.text == "Ativa" <==> status == Active
    ensures b.text == "Inativa" <==> status != Active
    ensures b.color == GreenBadge <==> status == Active
    ensures b.color == GrayBadge <==> status != Active
  {
    if status == Active then Badge("Ativa", GreenBadge) else Badge("Inativa", GrayBadge)
  }

  /** What pressing "Publicar Vaga" decides before talking to the backend. */
  datatype NewJobDecision =
    | CompanyMissing   // "Dados da empresa não encontrados"
    | FieldsMissing    // "Preencha ao menos título e descrição da vaga"
    | Insert(row: JobInsert)

  /** `handleNovaVaga`'s guards: a company first, then a title and a description; only then an
      insert carrying the dialog's fields, accessibility resources included. */
  function NewJobRequest(empresa: Option<Company>, form: NewJobForm): (d: NewJobDecision)
    ensures d == CompanyMissing <==> empresa.None?
    ensures d == FieldsMissing <==> empresa.Some? && (form.titulo == "" || form.descricao == "")
    ensures d.Insert? <==> empresa.Some? && form.titulo != "" && form.descricao != ""
    ensures d.Insert? ==>
      d.row == JobInsert(empresa.value.id, form.titulo, form.descricao, form.requisitos, form.salario,
                         form.localidade, form.tipoContrato, form.recursosAcessibilidade)
  {
    if empresa.None? then CompanyMissing
    else if form.titulo == "" || form.descricao == "" then FieldsMissing
    else Insert(JobInsert(empresa.value.id, form.titulo, form.descricao, form.requisitos, form.salario,
                          form.localidade, form.tipoContrato, form.recursosAcessibilidade))
  }

  /** With the dialog as it opens, the inserted job would list the accessible workplace. */
  lemma DefaultResourcesReachInsert(empresa: Company, titulo: string, descricao: string)
    requires titulo != "" && descricao != ""
    ensures NewJobRequest(Some(empresa), EmptyJobForm.(titulo := titulo, descricao := descricao))
            .row.recursosAcessibilidade == ["Ambiente Acessível"]
  {
  }

  datatype Screen = LoadingScreen | CompleteRegistration | Dashboard

  /** The page shown: the loading text, the complete-your-registration prompt without a company,
      or the dashboard. */
  function ScreenFor(loading: bool, empresa: Option<Company>): (s: Screen)
    ensures s == LoadingScreen <==> loading
    ensures s == CompleteRegistration <==> !loading && empresa.None?
    ensures s == Dashboard <==> !loading && empresa.Some?
  {
    if loading then LoadingScreen else if empresa.None? then CompleteRegistration else Dashboard
  }

  class CompanyDashboard {
    var vagas: seq<Job>
    var empresa: Option<Company>
    var totalCandidaturas: nat
    var loading: bool
    var dialogOpen: bool
    var novaVaga: NewJobForm

    /** The total shown always matches the jobs shown. */
    ghost predicate Valid()
      reads this
    {
      totalCandidaturas == TotalApplications(vagas)
    }

    constructor ()
      ensures Valid()
      ensures vagas == [] && empresa == None && totalCandidaturas == 0 && loading && !dialogOpen
      ensures novaVaga == EmptyJobForm
    {
      vagas, empresa, totalCandidaturas, loading := [], None, 0, true;
      dialogOpen, novaVaga := false, EmptyJobForm;
    }

    /** The load effect. Without a user it returns at once. A company lookup with no rows
        (`PGRST116`) leaves the company unset; any other failure, including a job query that
        fails or returns nothing, is caught; success replaces the jobs and their total. */
    method FetchDados(user: Option<User>, company: Response<Company>, jobs: Response<seq<JobRow>>)
      requires Valid()
      modifies this
      ensures Valid()
      ensures dialogOpen == old(dialogOpen) && novaVaga == old(novaVaga)
      ensures user.None? ==>
        vagas == old(vagas) && empresa == old(empresa) && loading == old(loading)
      ensures user.Some? ==> !loading
      ensures user.Some? && company.error.Some? ==> empresa == old(empresa) && vagas == old(vagas)
      ensures user.Some? && company.error.None? ==> empresa == company.data
      ensures user.Some? && company.error.None? && company.data.Some? && jobs.error.None? && jobs.data.Some? ==>
        vagas == ProcessJobs(jobs.data.value) && totalCandidaturas == TotalApplications(vagas)
      ensures !(user.Some? && company.error.None? && company.data.Some? && jobs.error.None? && jobs.data.Some?) ==>
        vagas == old(vagas)
    {
      if user.None? {
        return;
      }
      if company.error.Some? {
        loading := false;
        return;
      }
      empresa := company.data;
      if company.data.None? || jobs.error.Some? || jobs.data.None? {
        loading := false;
        return;
      }
      var processed := ProcessJobs(jobs.data.value);
      vagas := processed;
      totalCandidaturas := TotalApplications(processed);
      loading := false;
    }

    /** `handleNovaVaga`: applies the guards, and closes the dialog and reloads the page only
        when the insert it issues succeeds. */
    method HandleNovaVaga(insertError: Option<BackendError>) returns (decision: NewJobDecision, reload: bool)
      modifies this`dialogOpen
      ensures decision == NewJobRequest(empresa, novaVaga)
      ensures reload <==> decision.Insert? && insertError.None?
      ensures dialogOpen == (if reload then false else old(dialogOpen))
    {
      decision := NewJobRequest(empresa, novaVaga);
      reload := false;
      if decision.Insert? && insertError.None? {
        dialogOpen := false;
        reload := true;
      }
    }
  }

  /** A company missing from the backend (`PGRST116`) shows the complete-registration prompt. */
  method MissingCompanyPrompt(user: User, message: string, jobs: Response<seq<JobRow>>)
    returns (screen: Screen)
    ensures screen == CompleteRegistration
  {
    var page := new CompanyDashboard();
    page.FetchDados(Some(user), Response(None, Some(BackendError(NoRows, message))), jobs);
    screen := ScreenFor(page.loading, page.empresa);
  }
}
