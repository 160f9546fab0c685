/**
 * The lead list of src/pages/Leads.tsx: the filter the KPI cards select, the list it
 * displays, the badge colour of a lead's stage and the card clicks that switch the
 * filter.
 */
module Leads {

  /** A lead as the list shows it; only `estado` takes part in the rules. */
  datatype Lead = Lead(id: string, nombre: string, estado: string)

  /** The list of leads the page shows (its own fixed data). */
  const MockLeads: seq<Lead> := [
    Lead("1", "Carlos Martínez", "Nuevo"),
    Lead("2", "Sarah Johnson", "En seguimiento"),
    Lead("3", "Miguel Rodríguez", "Cualificado")
  ]

  datatype KpiFilter = Todos | Nuevos | Calientes

  /** The stages the "hot leads" card stands for. */
  predicate Hot(estado: string) {
    estado in ["Cualificado", "Visita", "Oferta"]
  }

  /** The callback given to `filter`. */
  predicate Keep(kpi: KpiFilter, lead: Lead) {
    !(kpi == Nuevos && lead.estado != "Nuevo") && !(kpi == Calientes && !Hot(lead.estado))
  }

  /** `filteredLeads`. */
  function FilteredLeads(leads: seq<Lead>, kpi: KpiFilter): (r: seq<Lead>)
    ensures |r| <= |leads|
    ensures forall x :: x in r <==> x in leads && Keep(kpi, x)
  {
    if leads == [] then []
    else if Keep(kpi, leads[0]) then [leads[0]] + FilteredLeads(leads[1..], kpi)
    else FilteredLeads(leads[1..], kpi)
  }

  /** `a` is `b` with some elements left out, the rest in their order. */
  predicate Subsequence(a: seq<Lead>, b: seq<Lead>)
    decreases |b|
  {
    if a == [] then true
    else if b == [] then false
    else (a[0] == b[0] && Subsequence(a[1..], b[1..])) || Subsequence(a, b[1..])
  }

  /** The displayed list keeps the page's order. */
  lemma {:induction false} FilteredIsSubsequence(leads: seq<Lead>, kpi: KpiFilter)
    ensures Subsequence(FilteredLeads(leads, kpi), leads)
  {
    if leads != [] {
      FilteredIsSubsequence(leads[1..], kpi);
      var r := FilteredLeads(leads, kpi);
      if Keep(kpi, leads[0]) {
        assert r[0] == leads[0] && r[1..] == FilteredLeads(leads[1..], kpi);
      }
    }
  }

  /** `filter` keeps multiplicities: a kept lead is shown as often as it is listed,
      any other not at all. */
  lemma {:induction false} FilteredCounts(leads: seq<Lead>, kpi: KpiFilter)
    ensures forall x :: multiset(FilteredLeads(leads, kpi))[x] == if Keep(kpi, x) then multiset(leads)[x] else 0
  {
    if leads != [] {
      FilteredCounts(leads[1..], kpi);
      assert leads == [leads[0]] + leads[1..];
      assert multiset(leads) == multiset([leads[0]]) + multiset(leads[1..]);
    }
  }

  /** "todos" shows every lead in order; "nuevos" exactly the new ones; "calientes"
      exactly those qualified, visiting or with an offer. */
  lemma {:induction false} FilterMeaning(leads: seq<Lead>)
    ensures FilteredLeads(leads, Todos) == leads
    ensures forall x :: x in FilteredLeads(leads, Nuevos) <==> x in leads && x.estado == "Nuevo"
    ensures forall x :: x in FilteredLeads(leads, Calientes) <==>
      x in leads && x.estado in {"Cualificado", "Visita", "Oferta"}
  {
    if leads != [] {
      FilterMeaning(leads[1..]);
      assert [leads[0]] + leads[1..] == leads;
    }
  }

  /** On the page's own data each card leaves exactly one lead. */
  lemma MockLeadsFiltered()
    ensures FilteredLeads(MockLeads, Nuevos) == [MockLeads[0]]
    ensures FilteredLeads(MockLeads, Calientes) == [MockLeads[2]]
  {
    assert "En seguimiento" != "Nuevo" && "Cualificado" != "Nuevo";
    assert !Hot("Nuevo") && !Hot("En seguimiento") && Hot("Cualificado");
    assert MockLeads[1..][1..][1..] == [];
  }

  const NuevoColor: string := "bg-primary/10 text-primary border-primary/20"

  /** The badge colours by stage. */
  const EstadoColors: map<string, string> := map[
    "Nuevo" := NuevoColor,
    "En seguimiento" := "bg-yellow-500/10 text-yellow-600 border-yellow-500/20",
    "Cualificado" := "bg-success/10 text-success border-success/20",
    "Visita" := "bg-blue-500/10 text-blue-600 border-blue-500/20",
    "Oferta" := "bg-purple-500/10 text-purple-600 border-purple-500/20",
    "Cerrado" := "bg-green-500/10 text-green-600 border-green-500/20",
    "Dormido" := "bg-gray-500/10 text-gray-600 border-gray-500/20"
  ]

  /** `getEstadoColor`: the stage's colour, or the "Nuevo" colour for any other stage. */
  function EstadoColor(estado: string): (c: string)
    ensures estado in EstadoColors ==> c == EstadoColors[estado]
    ensures estado !in EstadoColors ==> c == NuevoColor
    ensures c in EstadoColors.Values
  {
    if estado in EstadoColors && EstadoColors[estado] != "" then EstadoColors[estado] else EstadoColors["Nuevo"]
  }

  /** A click on a KPI card: its filter, or back to "todos" when it is the active one. */
  function KpiClick(current: KpiFilter, card: KpiFilter): KpiFilter {
    if current == card then Todos else card
  }

  /** A card click always leaves either that card's filter or "todos" active, and two
      clicks on the same card restore the state when it started from "todos" or from
      that card. */
  lemma KpiClickTwice(current: KpiFilter, card: KpiFilter)
    requires card != Todos
    ensures KpiClick(current, card) in {Todos, card}
    ensures current == Todos || current == card ==> KpiClick(KpiClick(current, card), card) == current
    ensures current != Todos && current != card ==> KpiClick(KpiClick(current, card), card) == Todos
  {
  }

  /** The page state. */
  class LeadsPage {
    var searchQuery: string
    var estadoFilter: string
    var kpiFilter: KpiFilter

    constructor()
      ensures searchQuery == "" && estadoFilter == "todos" && kpiFilter == Todos
    {
      searchQuery := "";
      estadoFilter := "todos";
      kpiFilter := Todos;
    }

    /** The leads on screen. */
    function Displayed(): seq<Lead>
      reads this
    {
      FilteredLeads(MockLeads, kpiFilter)
    }

    /** The "new leads" card. */
    method ClickNuevos()
      modifies this
      ensures kpiFilter == KpiClick(old(kpiFilter), Nuevos)
      ensures searchQuery == old(searchQuery) && estadoFilter == old(estadoFilter)
    {
      kpiFilter := if kpiFilter == Nuevos then Todos else Nuevos;
    }

    /** The "hot leads" card. */
    method ClickCalientes()
      modifies this
      ensures kpiFilter == KpiClick(old(kpiFilter), Calientes)
      ensures searchQuery == old(searchQuery) && estadoFilter == old(estadoFilter)
    {
      kpiFilter := if kpiFilter == Calientes then Todos else Calientes;
    }

    /** Typing in the search box or picking a stage: the list on screen does not change. */
    method SetSearch(query: string, estado: string)
      modifies this
      ensures searchQuery == query && estadoFilter == estado && kpiFilter == old(kpiFilter)
      ensures Displayed() == old(Displayed())
    {
      searchQuery := query;
      estadoFilter := estado;
    }
  }
}
