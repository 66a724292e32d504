/** The `Record<string, boolean>` dictionaries the job and course listings keep of the
    user's applications and enrolments: built from the user's rows, merged on a successful
    insert, and read to decide each card's button. */
module Membership {
  import opened Common

  /** `record[id]` read as a condition: a missing key is `undefined`, which is falsy. */
  predicate Marked(m: map<string, bool>, id: string)
  {
    id in m && m[id]
  }

  /** Every entry the pages ever store is `true`. */
  predicate AllTrue(m: map<string, bool>)
  {
    forall k :: k in m ==> m[k]
  }

  /** The `forEach` that fills a fresh dictionary with `record[id] = true` for each row. */
  method MarkAll(ids: seq<string>) returns (m: map<string, bool>)
    ensures forall id :: Marked(m, id) <==> id in ids
    ensures forall id :: id in m <==> id in ids
    ensures AllTrue(m)
  {
    m := map[];
    for i := 0 to |ids|
      invariant forall id :: id in m <==> id in ids[..i]
      invariant AllTrue(m)
    {
      m := m[ids[i] := true];
      assert ids[..i + 1] == ids[..i] + [ids[i]];
    }
    assert ids[..|ids|] == ids;
  }

  /** The merge `{ ...prev, [id]: true }`: `id` becomes marked and every other entry is kept. */
  function WithMark(m: map<string, bool>, id: string): (r: map<string, bool>)
    ensures Marked(r, id)
    ensures forall k :: k != id ==> (k in r <==> k in m)
    ensures forall k :: k != id && k in m ==> r[k] == m[k]
    ensures AllTrue(m) ==> AllTrue(r)
  {
    m[id := true]
  }

  /** Marking the same id twice gives the same dictionary as marking it once. */
  lemma WithMarkIdempotent(m: map<string, bool>, id: string)
    ensures WithMark(WithMark(m, id), id) == WithMark(m, id)
  {
  }

  /** A listing card's action button: disabled and showing `doneText` exactly when the card's
      id is marked, otherwise enabled and showing `actionText`. */
  function MarkButton(m: map<string, bool>, id: string, doneText: string, actionText: string): (b: Button)
    ensures b.disabled <==> Marked(m, id)
    ensures Marked(m, id) ==> b.text == doneText
    ensures !Marked(m, id) ==> b.text == actionText
  {
    Button(if Marked(m, id) then doneText else actionText, Marked(m, id))
  }

  /** What pressing "apply" or "enrol" on a listing card led to. */
  datatype InsertOutcome =
    | LoginRequired   // no user: an error toast and a redirect to /login, no insert
    | Inserted        // the row was created
    | Duplicate       // code 23505: the row already existed
    | InsertFailed    // any other backend error

  /** The outcome of an insert issued for a logged-in user, read off its error. */
  function InsertOutcomeOf(error: Option<BackendError>): (o: InsertOutcome)
    ensures o == Inserted <==> error.None?
    ensures o == Duplicate <==> error.Some? && error.value.code == UniqueViolation
    ensures o == InsertFailed <==> error.Some? && error.value.code != UniqueViolation
  {
    if error.None? then Inserted
    else if error.value.code == UniqueViolation then Duplicate
    else InsertFailed
  }

  /** The dictionary after an insert: marked on success, unchanged on a duplicate or an error. */
  function AfterInsert(m: map<string, bool>, id: string, error: Option<BackendError>): (r: map<string, bool>)
    ensures error.None? ==> Marked(r, id) && forall k :: k != id ==> (Marked(r, k) <==> Marked(m, k))
    ensures error.Some? ==> r == m
  {
    if error.None? then WithMark(m, id) else m
  }

  /** A second application to the same listing leaves the dictionary as the first one did,
      whether the backend accepts it again or rejects it as a duplicate. */
  lemma ApplyTwiceSameAsOnce(m: map<string, bool>, id: string, second: Option<BackendError>)
    ensures AfterInsert(AfterInsert(m, id, None), id, second) == AfterInsert(m, id, None)
  {
    if second.None? {
      WithMarkIdempotent(m, id);
    }
  }
}
