/** The job listing page: the active jobs, the dictionary of jobs the user applied to,
    the apply action and each card's button and accessibility badges. */
module Vagas {
  import opened Common
  import opened Membership

  datatype JobListing = JobListing(
    id: string,
    titulo: string,
    descricao: string,
    requisitos: string,
    salario: string,
    localidade: string,
    tipoContrato: string,
    recursosAcessibilidade: seq<string>,
    empresaRazaoSocial: string)

  /** One row of the user's applications, as selected (`vaga_id` only). */
  datatype ApplicationRow = ApplicationRow(vagaId: string)

  function VagaIds(rows: seq<ApplicationRow>): (ids: seq<string>)
    ensures |ids| == |rows|
    ensures forall i :: 0 <= i < |rows| ==> ids[i] == rows[i].vagaId
  {
    seq(|rows|, i requires 0 <= i < |rows| => rows[i].vagaId)
  }

  /** The four resources with a colour of their own. */
  const JobResources: set<string> := {"Libras", "Ambiente Acessível", "Home Office", "Tecnologia Assistiva"}

  /** `getBadgeColorFromRecurso` of the job cards: a fixed colour per named resource, gray otherwise. */
  function JobBadgeColor(recurso: string): (color: string)
    ensures color == GrayBadge <==> recurso !in JobResources
    ensures recurso == "Libras" ==> color == BlueBadge
    ensures recurso == "Ambiente Acessível" ==> color == GreenBadge
    ensures recurso == "Home Office" ==> color == PurpleBadge
    ensures recurso == "Tecnologia Assistiva" ==> color == YellowBadge
  {
    match recurso
    case "Libras" => BlueBadge
    case "Ambiente Acessível" => GreenBadge
    case "Home Office" => PurpleBadge
    case "Tecnologia Assistiva" => YellowBadge
    case _ => GrayBadge
  }

  /** The texts of a job card's `MarkButton`: after and before applying. */
  const AppliedText: string := "Candidatura Enviada"
  const ApplyText: string := "Candidatar-se"

  class JobsPage {
    var vagas: seq<JobListing>
    var loading: bool
    var candidaturas: map<string, bool>

    ghost predicate Valid()
      reads this
    {
      AllTrue(candidaturas)
    }

    constructor ()
      ensures Valid()
      ensures vagas == [] && loading && candidaturas == map[]
    {
      vagas, loading, candidaturas := [], true, map[];
    }

    /** The load effect: the jobs (`data || []`), then, for a logged-in user, the dictionary of
        the jobs in their application rows. A failed query keeps what was there before. */
    method FetchVagas(user: Option<User>, jobs: Response<seq<JobListing>>,
                      applications: Response<seq<ApplicationRow>>)
      requires Valid()
      modifies this
      ensures Valid() && !loading
      ensures jobs.error.Some? ==> vagas == old(vagas) && candidaturas == old(candidaturas)
      ensures jobs.error.None? ==> vagas == jobs.data.GetOr([])
      ensures jobs.error.None? && user.Some? && applications.error.None? ==>
        forall id :: Marked(candidaturas, id) <==> id in VagaIds(applications.data.GetOr([]))
      ensures user.None? || applications.error.Some? ==> candidaturas == old(candidaturas)
    {
      if jobs.error.Some? {
        loading := false;
        return;
      }
      vagas := jobs.data.GetOr([]);
      if user.Some? {
        if applications.error.Some? {
          loading := false;
          return;
        }
        var candidaturasMap := MarkAll(VagaIds(applications.data.GetOr([])));
        candidaturas := candidaturasMap;
      }
      loading := false;
    }

    /** `handleCandidatura`: without a user nothing is inserted and the user is sent to log in;
        otherwise the job is marked only when the insert succeeds. */
    method HandleCandidatura(user: Option<User>, vagaId: string, insertError: Option<BackendError>)
      returns (outcome: InsertOutcome)
      requires Valid()
      modifies this`candidaturas
      ensures Valid()
      ensures user.None? ==> outcome == LoginRequired && candidaturas == old(candidaturas)
      ensures user.Some? ==> outcome == InsertOutcomeOf(insertError)
      ensures user.Some? ==> candidaturas == AfterInsert(old(candidaturas), vagaId, insertError)
    {
      if user.None? {
        return LoginRequired;
      }
      outcome := InsertOutcomeOf(insertError);
      if insertError.None? {
        candidaturas := WithMark(candidaturas, vagaId);
      }
    }
  }

  /** Until a user logs in, loading the page leaves the dictionary empty. */
  method LoadWithoutUser(jobs: Response<seq<JobListing>>, applications: Response<seq<ApplicationRow>>)
    returns (page: JobsPage)
    ensures page.candidaturas == map[] && !page.loading
  {
    page := new JobsPage();
    page.FetchVagas(None, jobs, applications);
  }
}
