/** The partner-company list: each company with its number of open jobs, a size label and
    a singular or plural "jobs available" phrase. */
module Empresas {
  import opened Common

  /** A company row as selected, with its embedded `vagas(count)` aggregate. */
  datatype CompanyRow = CompanyRow(id: string, razaoSocial: string, porte: Option<string>, vagas: seq<nat>)

  datatype PartnerCompany = PartnerCompany(id: string, razaoSocial: string, porte: Option<string>, vagasCount: nat)

  function ProcessCompany(row: CompanyRow): (c: PartnerCompany)
    ensures c.id == row.id && c.razaoSocial == row.razaoSocial && c.porte == row.porte
    ensures c.vagasCount == FirstCount(row.vagas)
  {
    PartnerCompany(row.id, row.razaoSocial, row.porte, FirstCount(row.vagas))
  }

  function ProcessRows(rows: seq<CompanyRow>): (companies: seq<PartnerCompany>)
    ensures |companies| == |rows|
    ensures forall i :: 0 <= i < |rows| ==> companies[i] == ProcessCompany(rows[i])
    decreases |rows|
  {
    if rows == [] then [] else [ProcessCompany(rows[0])] + ProcessRows(rows[1..])
  }

  /** `data?.map(...) || []`: one company per row, in order; no data gives the empty list. */
  function ProcessCompanies(data: Option<seq<CompanyRow>>): (companies: seq<PartnerCompany>)
    ensures data.None? ==> companies == []
    ensures data.Some? ==> |companies| == |data.value|
    ensures data.Some? ==> forall i :: 0 <= i < |data.value| ==> companies[i] == ProcessCompany(data.value[i])
  {
    if data.Some? then ProcessRows(data.value) else []
  }

  /** The list after loading: a failed query leaves the initial empty list. */
  function Load(response: Response<seq<CompanyRow>>): (companies: seq<PartnerCompany>)
    ensures response.error.Some? ==> companies == []
    ensures response.error.None? ==> companies == ProcessCompanies(response.data)
  {
    if response.error.Some? then [] else ProcessCompanies(response.data)
  }

  /** The words after the count: `vaga{s} disponíve{is|l}`, singular exactly for one job. */
  function OpeningsPhrase(count: nat): (phrase: string)
    ensures phrase == "vaga disponível" <==> count == 1
    ensures phrase == "vagas disponíveis" <==> count != 1
  {
    "vaga" + (if count != 1 then "s" else "") + " disponíve" + (if count != 1 then "is" else "l")
  }

  /** `porte || "Não informado"`. */
  function PorteLabel(porte: Option<string>): (text: string)
    ensures Present(porte) ==> text == porte.value
    ensures !Present(porte) ==> text == "Não informado"
    ensures text != ""
  {
    if Present(porte) then porte.value else "Não informado"
  }

  /** The "no companies found" block. */
  predicate ShowsEmptyState(companies: seq<PartnerCompany>)
  {
    |companies| == 0
  }

  /** The empty-state block appears exactly when the query failed or returned no rows. */
  lemma EmptyStateIffNoRows(response: Response<seq<CompanyRow>>)
    ensures ShowsEmptyState(Load(response)) <==>
      response.error.Some? || response.data.None? || |response.data.value| == 0
  {
  }
}
