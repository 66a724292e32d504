/** A single course's page: the course, the user's enrolment in it (none, in progress or
    concluded), the enrol action and the progress panel's button. */
module Curso {
  import opened Common

  datatype Course = Course(
    id: string,
    titulo: string,
    descricao: string,
    categoria: string,
    nivel: string,
    recursosAcessibilidade: seq<string>,
    duracao: int,
    instrutor: string)

  datatype Enrolment = Enrolment(id: string, progresso: int, status: string, dataConclusao: Option<string>)

  const Concluded: string := "concluido"

  /** What pressing "Inscrever-se no Curso" led to. */
  datatype EnrolOutcome =
    | LoginRequired    // no user: an error toast and a redirect to /login, no insert
    | NoCourse         // no course loaded: nothing happens
    | Enrolled         // the returned enrolment is stored
    | AlreadyEnrolled  // code 23505
    | EnrolFailed      // any other backend error

  /** The progress card: the enrol prompt, or the enrolment's status line and action button. */
  datatype ProgressPanel =
    | EnrolPrompt
    | Progress(status: string, action: Button)

  /** The progress card for an enrolment: a prompt when there is none; a disabled "Concluído"
      once concluded; otherwise "Continuar Curso" after some progress and "Iniciar Curso" before. */
  function PanelFor(inscricao: Option<Enrolment>): (p: ProgressPanel)
    ensures p.EnrolPrompt? <==> inscricao.None?
    ensures inscricao.Some? && inscricao.value.status == Concluded ==>
      p == Progress("Curso Concluído", Button("Concluído", true))
    ensures inscricao.Some? && inscricao.value.status != Concluded ==>
      p.Progress? && p.status == "Em Andamento" && !p.action.disabled
      && (p.action.text == "Continuar Curso" <==> inscricao.value.progresso > 0)
      && (p.action.text == "Iniciar Curso" <==> inscricao.value.progresso <= 0)
  {
    match inscricao
    case None => EnrolPrompt
    case Some(e) =>
      if e.status == Concluded then Progress("Curso Concluído", Button("Concluído", true))
      else if e.progresso > 0 then Progress("Em Andamento", Button("Continuar Curso", false))
      else Progress("Em Andamento", Button("Iniciar Curso", false))
  }

  class CoursePage {
    var curso: Option<Course>
    var inscricao: Option<Enrolment>
    var loading: bool

    constructor ()
      ensures curso == None && inscricao == None && loading
    {
      curso, inscricao, loading := None, None, true;
    }

    /** The load effect. Without a course id it returns at once (and the page keeps loading).
        A failed course query, or an enrolment lookup failing with anything but "no rows",
        sends the user back to /cursos; "no rows" just means not enrolled. */
    method FetchCurso(id: Option<string>, user: Option<User>, course: Response<Course>,
                      enrolment: Response<Enrolment>)
      returns (redirect: Option<string>)
      modifies this
      ensures id.None? ==> curso == old(curso) && inscricao == old(inscricao) && loading == old(loading)
      ensures id.None? ==> redirect == None
      ensures id.Some? ==> !loading
      ensures id.Some? && course.error.Some? ==>
        curso == old(curso) && inscricao == old(inscricao) && redirect == Some("/cursos")
      ensures id.Some? && course.error.None? ==> curso == course.data
      ensures id.Some? && course.error.None? && user.None? ==> inscricao == old(inscricao) && redirect == None
      ensures id.Some? && course.error.None? && user.Some? && enrolment.error.Some?
              && enrolment.error.value.code != NoRows ==>
        inscricao == old(inscricao) && redirect == Some("/cursos")
      ensures id.Some? && course.error.None? && user.Some?
              && (enrolment.error.None? || enrolment.error.value.code == NoRows) ==>
        inscricao == enrolment.data && redirect == None
    {
      redirect := None;
      if id.None? {
        return;
      }
      if course.error.Some? {
        redirect := Some("/cursos");
        loading := false;
        return;
      }
      curso := course.data;
      if user.Some? {
        if enrolment.error.Some? && enrolment.error.value.code != NoRows {
          redirect := Some("/cursos");
          loading := false;
          return;
        }
        inscricao := enrolment.data;
      }
      loading := false;
    }

    /** `handleInscricao`: needs a user (else a redirect to log in) and a loaded course (else
        nothing); a successful insert stores the returned enrolment, a failed one changes nothing. */
    method HandleInscricao(user: Option<User>, insert: Response<Enrolment>) returns (outcome: EnrolOutcome)
      modifies this`inscricao
      ensures user.None? ==> outcome == LoginRequired
      ensures user.Some? && curso.None? ==> outcome == NoCourse
      ensures user.Some? && curso.Some? && insert.error.Some? ==>
        outcome == (if insert.error.value.code == UniqueViolation then AlreadyEnrolled else EnrolFailed)
      ensures user.Some? && curso.Some? && insert.error.None? ==> outcome == Enrolled
      ensures outcome == Enrolled ==> inscricao == insert.data
      ensures outcome != Enrolled ==> inscricao == old(inscricao)
    {
      if user.None? {
        return LoginRequired;
      }
      if curso.None? {
        return NoCourse;
      }
      if insert.error.Some? {
        if insert.error.value.code == UniqueViolation {
          return AlreadyEnrolled;
        }
        return EnrolFailed;
      }
      inscricao := insert.data;
      outcome := Enrolled;
    }
  }
}
