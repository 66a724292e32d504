/** The course catalogue: every course, the dictionary of courses the user is enrolled in,
    the enrol action and each card's button and accessibility badges. */
module Cursos {
  import opened Common
  import opened Membership

  datatype CourseListing = CourseListing(
    id: string,
    titulo: string,
    descricao: string,
    categoria: string,
    nivel: string,
    recursosAcessibilidade: seq<string>,
    duracao: int,
    instrutor: string)

  /** One row of the user's enrolments, as selected (`curso_id` only). */
  datatype EnrolmentRow = EnrolmentRow(cursoId: string)

  function CursoIds(rows: seq<EnrolmentRow>): (ids: seq<string>)
    ensures |ids| == |rows|
    ensures forall i :: 0 <= i < |rows| ==> ids[i] == rows[i].cursoId
  {
    seq(|rows|, i requires 0 <= i < |rows| => rows[i].cursoId)
  }

  /** The five resources with a colour of their own on course badges. */
  const CourseResources: set<string> := {"Libras", "Legendas", "Audiodescrição", "Leitor de Tela", "Leitura Fácil"}

  /** `getBadgeColorFromRecurso` of the course pages: a fixed colour per named resource, gray otherwise. */
  function CourseBadgeColor(recurso: string): (color: string)
    ensures color == GrayBadge <==> recurso !in CourseResources
    ensures recurso == "Libras" ==> color == BlueBadge
    ensures recurso == "Legendas" ==> color == GreenBadge
    ensures recurso == "Audiodescrição" ==> color == PurpleBadge
    ensures recurso == "Leitor de Tela" ==> color == YellowBadge
    ensures recurso == "Leitura Fácil" ==> color == OrangeBadge
  {
    match recurso
    case "Libras" => BlueBadge
    case "Legendas" => GreenBadge
    case "Audiodescrição" => PurpleBadge
    case "Leitor de Tela" => YellowBadge
    case "Leitura Fácil" => OrangeBadge
    case _ => GrayBadge
  }

  /** The texts of a course card's `MarkButton`: after and before enrolling. */
  const EnrolledText: string := "Inscrito"
  const EnrolText: string := "Inscrever-se"

  class CoursesPage {
    var cursos: seq<CourseListing>
    var loading: bool
    var inscricoes: map<string, bool>

    ghost predicate Valid()
      reads this
    {
      AllTrue(inscricoes)
    }

    constructor ()
      ensures Valid()
      ensures cursos == [] && loading && inscricoes == map[]
    {
      cursos, loading, inscricoes := [], true, map[];
    }

    /** The load effect: the courses (`data || []`), then, for a logged-in user, the dictionary of
        the courses in their enrolment rows. A failed query keeps what was there before. */
    method FetchCursos(user: Option<User>, courses: Response<seq<CourseListing>>,
                       enrolments: Response<seq<EnrolmentRow>>)
      requires Valid()
      modifies this
      ensures Valid() && !loading
      ensures courses.error.Some? ==> cursos == old(cursos) && inscricoes == old(inscricoes)
      ensures courses.error.None? ==> cursos == courses.data.GetOr([])
      ensures courses.error.None? && user.Some? && enrolments.error.None? ==>
        forall id :: Marked(inscricoes, id) <==> id in CursoIds(enrolments.data.GetOr([]))
      ensures user.None? || enrolments.error.Some? ==> inscricoes == old(inscricoes)
    {
      if courses.error.Some? {
        loading := false;
        return;
      }
      cursos := courses.data.GetOr([]);
      if user.Some? {
        if enrolments.error.Some? {
          loading := false;
          return;
        }
        var inscricoesMap := MarkAll(CursoIds(enrolments.data.GetOr([])));
        inscricoes := inscricoesMap;
      }
      loading := false;
    }

    /** `handleInscricao`: without a user nothing is inserted and the user is sent to log in;
        otherwise the course is marked only when the insert succeeds. */
    method HandleInscricao(user: Option<User>, cursoId: string, insertError: Option<BackendError>)
      returns (outcome: InsertOutcome)
      requires Valid()
      modifies this`inscricoes
      ensures Valid()
      ensures user.None? ==> outcome == LoginRequired && inscricoes == old(inscricoes)
      ensures user.Some? ==> outcome == InsertOutcomeOf(insertError)
      ensures user.Some? ==> inscricoes == AfterInsert(old(inscricoes), cursoId, insertError)
    {
      if user.None? {
        return LoginRequired;
      }
      outcome := InsertOutcomeOf(insertError);
      if insertError.None? {
        inscricoes := WithMark(inscricoes, cursoId);
      }
    }
  }
}
