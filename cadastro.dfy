/** The registration form: the accessibility-resource checklist and the guarded submit
    that builds the sign-up payload for a job seeker (PcD) or a company. */
module Cadastro {
  import opened Common

  /** The `filter(r => r !== recurso)` of the checklist: every occurrence of `x` removed. */
  function RemoveAll(list: seq<string>, x: string): (r: seq<string>)
    ensures x !in r
    ensures forall y :: y != x ==> (y in r <==> y in list)
    ensures |r| <= |list|
    decreases |list|
  {
    if list == [] then []
    else if list[0] == x then RemoveAll(list[1..], x)
    else [list[0]] + RemoveAll(list[1..], x)
  }

  /** Filtering a concatenation filters each part, so the survivors keep their order. */
  lemma {:induction false} RemoveAllAppend(a: seq<string>, b: seq<string>, x: string)
    ensures RemoveAll(a + b, x) == RemoveAll(a, x) + RemoveAll(b, x)
    decreases |a|
  {
    if a != [] {
      assert (a + b)[1..] == a[1..] + b;
      RemoveAllAppend(a[1..], b, x);
    } else {
      assert a + b == b;
    }
  }

  /** Filtering out a value that does not occur changes nothing. */
  lemma {:induction false} RemoveAllAbsent(list: seq<string>, x: string)
    requires x !in list
    ensures RemoveAll(list, x) == list
    decreases |list|
  {
    if list != [] {
      RemoveAllAbsent(list[1..], x);
      assert [list[0]] + list[1..] == list;
    }
  }

  /** Every value other than `x` keeps its number of occurrences. */
  lemma {:induction false} RemoveAllCounts(list: seq<string>, x: string)
    ensures multiset(RemoveAll(list, x))[x] == 0
    ensures forall y :: y != x ==> multiset(RemoveAll(list, x))[y] == multiset(list)[y]
    decreases |list|
  {
    if list != [] {
      RemoveAllCounts(list[1..], x);
      assert list == [list[0]] + list[1..];
    }
  }

  predicate Distinct(list: seq<string>)
  {
    forall i, j :: 0 <= i < j < |list| ==> list[i] != list[j]
  }

  /** Filtering a list without duplicates leaves a list without duplicates. */
  lemma {:induction false} RemoveAllDistinct(list: seq<string>, x: string)
    requires Distinct(list)
    ensures Distinct(RemoveAll(list, x))
    decreases |list|
  {
    if list != [] {
      RemoveAllDistinct(list[1..], x);
      if list[0] != x {
        var rest := RemoveAll(list[1..], x);
        assert list[0] !in list[1..];
        assert list[0] !in rest;
        var r := [list[0]] + rest;
        forall i, j | 0 <= i < j < |r| ensures r[i] != r[j] {
          if i == 0 {
            assert r[j] == rest[j - 1];
            assert r[j] in rest;
          } else {
            assert r[i] == rest[i - 1] && r[j] == rest[j - 1];
          }
        }
      }
    }
  }

  /** `handleRecursoChange`: a checked resource is unchecked (all its occurrences go),
      an unchecked one is appended at the end. */
  function ToggleResource(list: seq<string>, resource: string): (r: seq<string>)
    ensures resource in list ==> resource !in r && forall y :: y != resource ==> (y in r <==> y in list)
    ensures resource !in list ==> r == list + [resource]
  {
    if resource in list then RemoveAll(list, resource) else list + [resource]
  }

  /** Checking an unchecked resource and then unchecking it gives back exactly the original list. */
  lemma ToggleTwiceRestores(list: seq<string>, resource: string)
    requires resource !in list
    ensures ToggleResource(ToggleResource(list, resource), resource) == list
  {
    RemoveAllAppend(list, [resource], resource);
    RemoveAllAbsent(list, resource);
    assert RemoveAll([resource], resource) == [];
  }

  /** Unchecking a resource keeps the number of occurrences of every other resource. */
  lemma ToggleRemovesOnlyIt(list: seq<string>, resource: string)
    requires resource in list
    ensures multiset(ToggleResource(list, resource))[resource] == 0
    ensures forall y :: y != resource ==> multiset(ToggleResource(list, resource))[y] == multiset(list)[y]
  {
    RemoveAllCounts(list, resource);
  }

  /** A checklist without duplicates stays without duplicates. */
  lemma ToggleKeepsDistinct(list: seq<string>, resource: string)
    requires Distinct(list)
    ensures Distinct(ToggleResource(list, resource))
  {
    if resource in list {
      RemoveAllDistinct(list, resource);
    } else {
      var r := list + [resource];
      forall i, j | 0 <= i < j < |r| ensures r[i] != r[j] {
        if j == |list| {
          assert r[i] == list[i];
        }
      }
    }
  }

  /** The user data handed to `signUp`: a JavaScript object whose absent properties are `None`. */
  datatype UserData = UserData(
    nomeCompleto: Option<string>,
    cpf: Option<string>,
    telefone: Option<string>,
    dataNascimento: Option<string>,
    tipoDeficiencia: Option<string>,
    recursosAcessibilidade: Option<seq<string>>,
    razaoSocial: Option<string>,
    cnpj: Option<string>,
    porte: Option<string>,
    responsavel: Option<string>,
    cargoResponsavel: Option<string>,
    userType: Option<Role>)

  /** What one press of "submit" does: stop at a guard, or call `signUp` once with these arguments. */
  datatype SubmitOutcome =
    | MissingFields
    | TermsNotAccepted
    | SignUpCalled(email: string, password: string, userData: UserData)

  class RegistrationForm {
    var email: string
    var password: string
    var acceptTerms: bool
    var nomePcd: string
    var cpf: string
    var telefone: string
    var dataNascimento: string
    var tipoDeficiencia: string
    var recursosAcessibilidade: seq<string>
    var razaoSocial: string
    var cnpj: string
    var porte: string
    var responsavel: string
    var cargo: string

    constructor ()
      ensures email == "" && password == "" && !acceptTerms && recursosAcessibilidade == []
      ensures nomePcd == "" && cpf == "" && telefone == "" && dataNascimento == "" && tipoDeficiencia == ""
      ensures razaoSocial == "" && cnpj == "" && porte == "" && responsavel == "" && cargo == ""
    {
      email, password, acceptTerms := "", "", false;
      nomePcd, cpf, telefone, dataNascimento, tipoDeficiencia := "", "", "", "", "";
      recursosAcessibilidade := [];
      razaoSocial, cnpj, porte, responsavel, cargo := "", "", "", "", "";
    }

    method HandleRecursoChange(resource: string)
      modifies this`recursosAcessibilidade
      ensures recursosAcessibilidade == ToggleResource(old(recursosAcessibilidade), resource)
    {
      if resource in recursosAcessibilidade {
        recursosAcessibilidade := RemoveAll(recursosAcessibilidade, resource);
      } else {
        recursosAcessibilidade := recursosAcessibilidade + [resource];
      }
    }

    /** The payload chosen by the user type: PcD fields only for `"pcd"`; any other value,
        `null` included, gives the company fields. Both carry the user type. */
    function Payload(userType: Option<Role>): (d: UserData)
      reads this
      ensures d.userType == userType
      ensures userType == Some(Pcd) ==>
        && d.nomeCompleto == Some(nomePcd) && d.cpf == Some(cpf) && d.telefone == Some(telefone)
        && d.dataNascimento == Some(dataNascimento) && d.tipoDeficiencia == Some(tipoDeficiencia)
        && d.recursosAcessibilidade == Some(recursosAcessibilidade)
        && d.razaoSocial.None? && d.cnpj.None? && d.porte.None? && d.responsavel.None? && d.cargoResponsavel.None?
      ensures userType != Some(Pcd) ==>
        && d.razaoSocial == Some(razaoSocial) && d.cnpj == Some(cnpj) && d.porte == Some(porte)
        && d.responsavel == Some(responsavel) && d.cargoResponsavel == Some(cargo)
        && d.nomeCompleto.None? && d.cpf.None? && d.telefone.None? && d.dataNascimento.None?
        && d.tipoDeficiencia.None? && d.recursosAcessibilidade.None?
    {
      if userType == Some(Pcd) then
        UserData(Some(nomePcd), Some(cpf), Some(telefone), Some(dataNascimento), Some(tipoDeficiencia),
                 Some(recursosAcessibilidade), None, None, None, None, None, userType)
      else
        UserData(None, None, None, None, None, None,
                 Some(razaoSocial), Some(cnpj), Some(porte), Some(responsavel), Some(cargo), userType)
    }

    /** `handleSubmit`: email and password are checked first, then the terms; only a form that
        passes both calls `signUp`, once, with the entered credentials. */
    method HandleSubmit(userType: Option<Role>) returns (outcome: SubmitOutcome)
      ensures (email == "" || password == "") <==> outcome == MissingFields
      ensures (email != "" && password != "" && !acceptTerms) <==> outcome == TermsNotAccepted
      ensures outcome.SignUpCalled? <==> email != "" && password != "" && acceptTerms
      ensures outcome.SignUpCalled? ==>
        outcome.email == email && outcome.password == password && outcome.userData == Payload(userType)
    {
      if email == "" || password == "" {
        return MissingFields;
      }
      if !acceptTerms {
        return TermsNotAccepted;
      }
      var userData := Payload(userType);
      outcome := SignUpCalled(email, password, userData);
    }
  }
}
