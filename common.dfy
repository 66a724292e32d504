/** Shared vocabulary of the model: optional values, the backend's answers as the
    client sees them, the two error codes the pages branch on, and the user roles. */
module Common {

  datatype Option<T> = None | Some(value: T) {
    function GetOr(default: T): T {
      match this
      case Some(v) => v
      case None => default
    }
  }

  /** An error returned by the hosted backend; the pages only ever look at its code. */
  datatype BackendError = BackendError(code: string, message: string)

  /** Unique-constraint violation: the row (application, enrolment) already exists. */
  const UniqueViolation: string := "23505"

  /** A `.single()` lookup that matched no row. */
  const NoRows: string := "PGRST116"

  /** The `{ data, error }` pair every backend query resolves to. Either part may be null. */
  datatype Response<T> = Response(data: Option<T>, error: Option<BackendError>)

  /** The two account kinds; the source's `null` user type is `None` of `Option<Role>`. */
  datatype Role = Pcd | Empresa

  /** An authenticated user as far as the pages use it. */
  datatype User = User(id: string, email: string)

  /** JavaScript truthiness of an optional string: null, undefined and "" are falsy. */
  predicate Present(s: Option<string>)
  {
    s.Some? && s.value != ""
  }

  /** The count of an embedded `table(count)` aggregate, `agg[0]?.count || 0`:
      the first entry's count, or 0 when the aggregate is empty. */
  function FirstCount(agg: seq<nat>): (n: nat)
    ensures |agg| == 0 ==> n == 0
    ensures |agg| > 0 ==> n == agg[0]
  {
    if |agg| > 0 && agg[0] != 0 then agg[0] else 0
  }

  /** `rows.filter(r => r.status === s).length`, on the rows' statuses. */
  function StatusCount(statuses: seq<string>, s: string): (n: nat)
    ensures n <= |statuses|
    ensures n == |statuses| <==> forall i :: 0 <= i < |statuses| ==> statuses[i] == s
    ensures n == 0 <==> forall i :: 0 <= i < |statuses| ==> statuses[i] != s
    decreases |statuses|
  {
    if statuses == [] then 0
    else (if statuses[0] == s then 1 else 0) + StatusCount(statuses[1..], s)
  }

  /** The badge colour classes the pages choose from. */
  const BlueBadge: string := "bg-blue-100 text-blue-800"
  const GreenBadge: string := "bg-green-100 text-green-800"
  const PurpleBadge: string := "bg-purple-100 text-purple-800"
  const YellowBadge: string := "bg-yellow-100 text-yellow-800"
  const OrangeBadge: string := "bg-orange-100 text-orange-800"
  const RedBadge: string := "bg-red-100 text-red-800"
  const GrayBadge: string := "bg-gray-100 text-gray-800"

  /** A rendered badge: its text and its colour classes. */
  datatype Badge = Badge(text: string, color: string)

  /** A rendered button: its text and whether it is disabled. */
  datatype Button = Button(text: string, disabled: bool)
}
