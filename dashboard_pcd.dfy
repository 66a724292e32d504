/** The job seeker's dashboard: the profile greeting, the latest enrolments and applications,
    the completed-course figure and the status badges. */
module DashboardPcd {
  import opened Common

  datatype CourseSummary = CourseSummary(id: string, titulo: string, categoria: string, nivel: string)
  datatype Enrolment = Enrolment(id: string, status: string, progresso: int, curso: CourseSummary)
  datatype JobSummary = JobSummary(id: string, titulo: string, empresaRazaoSocial: Option<string>)
  datatype Application = Application(id: string, status: string, createdAt: string, vaga: JobSummary)

  /** The profile row as far as the dashboard reads it; the empty object `{}` has no name. */
  datatype Profile = Profile(nomeCompleto: Option<string>)

  const Concluded: string := "concluido"
  const Accepted: string := "aceita"
  const Rejected: string := "rejeitada"

  /** `inscricoes.filter(i => i.status === 'concluido').length`. */
  function CompletedCount(enrolments: seq<Enrolment>): (n: nat)
    ensures n <= |enrolments|
    ensures n == 0 <==> forall i :: 0 <= i < |enrolments| ==> enrolments[i].status != Concluded
    ensures n == |enrolments| <==> forall i :: 0 <= i < |enrolments| ==> enrolments[i].status == Concluded
  {
    var statuses := seq(|enrolments|, i requires 0 <= i < |enrolments| => enrolments[i].status);
    assert forall i :: 0 <= i < |enrolments| ==> statuses[i] == enrolments[i].status;
    StatusCount(statuses, Concluded)
  }

  /** An application's badge: accepted, rejected, or under review for every other status. */
  function ApplicationBadge(status: string): (b: Badge)
    ensures status == Accepted ==> b == Badge("Aceita", GreenBadge)
    ensures status == Rejected ==> b == Badge("Rejeitada", RedBadge)
    ensures b == Badge("Em análise", BlueBadge) <==> status != Accepted && status != Rejected
  {
    if status == Accepted then Badge("Aceita", GreenBadge)
    else if status == Rejected then Badge("Rejeitada", RedBadge)
    else Badge("Em análise", BlueBadge)
  }

  /** An enrolment's badge: "Concluído" in green exactly for `concluido`, else "Em andamento". */
  function EnrolmentBadge(status: string): (b: Badge)
    ensures b.text == "Concluído" <==> status == Concluded
    ensures b.text == "Em andamento" <==> status != Concluded
    ensures b.color == (if status == Concluded then GreenBadge else BlueBadge)
  {
    if status == Concluded then Badge("Concluído", GreenBadge) else Badge("Em andamento", BlueBadge)
  }

  /** The dashboard's state: set once by the load effect. */
  datatype DashboardState = DashboardState(
    perfil: Option<Profile>,
    inscricoes: seq<Enrolment>,
    candidaturas: seq<Application>,
    loading: bool)

  const Initial: DashboardState := DashboardState(None, [], [], true)

  /** The load effect. Without a user nothing happens. A profile lookup with no rows is not an
      error; any other failure leaves the initial empty state and ends loading; otherwise a
      missing profile becomes `{}` and null lists become empty ones. */
  function Load(user: Option<User>, profile: Response<Profile>, enrolments: Response<seq<Enrolment>>,
                applications: Response<seq<Application>>): (s: DashboardState)
    ensures user.None? ==> s == Initial
    ensures user.Some? ==> !s.loading
    ensures user.Some? && profile.error.Some? && profile.error.value.code != NoRows ==>
      s == Initial.(loading := false)
    ensures user.Some? && (enrolments.error.Some? || applications.error.Some?) ==>
      s == Initial.(loading := false)
    ensures user.Some? && (profile.error.None? || profile.error.value.code == NoRows)
            && enrolments.error.None? && applications.error.None? ==>
      s.perfil == Some(profile.data.GetOr(Profile(None)))
      && s.inscricoes == enrolments.data.GetOr([])
      && s.candidaturas == applications.data.GetOr([])
  {
    if user.None? then Initial
    else if profile.error.Some? && profile.error.value.code != NoRows then Initial.(loading := false)
    else if enrolments.error.Some? || applications.error.Some? then Initial.(loading := false)
    else DashboardState(Some(profile.data.GetOr(Profile(None))), enrolments.data.GetOr([]),
                        applications.data.GetOr([]), false)
  }

  /** `perfil?.nome_completo || user?.email`. */
  function Greeting(perfil: Option<Profile>, email: string): (name: string)
    ensures perfil.Some? && Present(perfil.value.nomeCompleto) ==> name == perfil.value.nomeCompleto.value
    ensures !(perfil.Some? && Present(perfil.value.nomeCompleto)) ==> name == email
  {
    if perfil.Some? && Present(perfil.value.nomeCompleto) then perfil.value.nomeCompleto.value else email
  }

  /** A user without a profile row is greeted by email. */
  lemma MissingProfileGreetsByEmail(user: User, message: string, enrolments: Response<seq<Enrolment>>,
                                    applications: Response<seq<Application>>)
    ensures Greeting(Load(Some(user), Response(None, Some(BackendError(NoRows, message))), enrolments,
                          applications).perfil, user.email) == user.email
  {
  }
}
