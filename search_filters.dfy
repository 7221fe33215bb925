/** The `SearchFilters` component of frontend-documental: the three filter
    inputs, their state, and the push of each new state to the list. */
module SearchFilters {
  import opened Options

  /** The `filters` state: always three strings, since the inputs are
      controlled. */
  datatype Filters = Filters(search: string, tipo: string, proyecto: string)

  /** The `name` attribute of the input that changed. */
  datatype FilterKey = Search | Tipo | Proyecto

  /** The state before any change: every filter empty. */
  const Initial := Filters("", "", "")

  /** `{...filters, [name]: value}`. */
  function With(f: Filters, key: FilterKey, value: string): (g: Filters)
    ensures key == Search ==> g.search == value && g.tipo == f.tipo && g.proyecto == f.proyecto
    ensures key == Tipo ==> g.tipo == value && g.search == f.search && g.proyecto == f.proyecto
    ensures key == Proyecto ==> g.proyecto == value && g.search == f.search && g.tipo == f.tipo
  {
    match key
    case Search => f.(search := value)
    case Tipo => f.(tipo := value)
    case Proyecto => f.(proyecto := value)
  }

  /** Setting a filter to the value it has changes nothing. */
  lemma WithSameValue(f: Filters, key: FilterKey)
    ensures With(f, key, match key case Search => f.search case Tipo => f.tipo case Proyecto => f.proyecto) == f
  {
  }

  /** The labels of the type select, the first one meaning "any type". */
  const TipoLabels: seq<string> := [
    "Todos los tipos", "Contrato", "Acta", "Informe", "Especificación",
    "Propuesta", "Manual", "Plano", "Memoria de Cálculo", "Presupuesto"]

  /** The raw names of the project select, the first one meaning "any project". */
  const ProyectoNames: seq<string> := [
    "Todos los proyectos", "Proyecto Alpha", "Proyecto Beta", "Proyecto Gamma",
    "Proyecto Delta", "sin asignacion"]

  /** The `value` of an option: '' for the "all" entry, the entry itself otherwise. */
  function OptionValue(entry: string, all: string): (v: string)
    ensures entry == all ==> v == ""
    ensures entry != all ==> v == entry
  {
    if entry == all then "" else entry
  }

  /** The text shown for a project option: only 'sin asignacion' is relabelled. */
  function ProyectoLabel(name: string): (l: string)
    ensures name == "sin asignacion" ==> l == "Sin asignación"
    ensures name != "sin asignacion" ==> l == name
  {
    if name == "sin asignacion" then "Sin asignación" else name
  }

  /** The option values of the type select. */
  function TipoValues(): (vs: seq<string>)
    ensures |vs| == |TipoLabels|
    ensures forall i :: 0 <= i < |vs| ==> vs[i] == OptionValue(TipoLabels[i], "Todos los tipos")
  {
    seq(|TipoLabels|, i requires 0 <= i < |TipoLabels| => OptionValue(TipoLabels[i], "Todos los tipos"))
  }

  /** The option values of the project select. */
  function ProyectoValues(): (vs: seq<string>)
    ensures |vs| == |ProyectoNames|
    ensures forall i :: 0 <= i < |vs| ==> vs[i] == OptionValue(ProyectoNames[i], "Todos los proyectos")
  {
    seq(|ProyectoNames|, i requires 0 <= i < |ProyectoNames| => OptionValue(ProyectoNames[i], "Todos los proyectos"))
  }

  /** Only the "all" option has the empty value, so every other option
      switches its filter on. */
  lemma OnlyAllOptionIsEmpty()
    ensures forall i :: 0 <= i < |TipoValues()| ==> (TipoValues()[i] == "" <==> i == 0)
    ensures forall i :: 0 <= i < |ProyectoValues()| ==> (ProyectoValues()[i] == "" <==> i == 0)
  {
    forall i | 0 <= i < |TipoLabels|
      ensures TipoValues()[i] == "" <==> i == 0
    {
      if i > 0 {
        assert TipoLabels[i] != "" && TipoLabels[i] != "Todos los tipos" by {
          assert TipoLabels[i][0] != 'T';
        }
      }
    }
    forall i | 0 <= i < |ProyectoNames|
      ensures ProyectoValues()[i] == "" <==> i == 0
    {
      if i > 0 {
        assert ProyectoNames[i] != "" && ProyectoNames[i] != "Todos los proyectos" by {
          assert ProyectoNames[i][0] != 'T';
        }
      }
    }
  }

  /** The unassigned option sends the raw 'sin asignacion', the name the
      document form stores, while showing 'Sin asignación'. */
  lemma UnassignedOptionKeepsRawValue()
    ensures ProyectoValues()[5] == "sin asignacion"
    ensures ProyectoLabel(ProyectoNames[5]) == "Sin asignación"
  {
    assert ProyectoNames[5] != "Todos los proyectos" by {
      assert ProyectoNames[5][0] != "Todos los proyectos"[0];
    }
  }

  /** The component: its `filters` state and the `handleChange` of all
      three inputs. */
  class SearchFiltersState {
    var filters: Filters

    constructor ()
      ensures filters == Initial
    {
      filters := Initial;
    }

    /** `handleChange`: replace one key, then pass the new object, not the
        previous state, to `onFilterChange` when there is one. */
    method HandleChange(key: FilterKey, value: string, hasCallback: bool) returns (pushed: Option<Filters>)
      modifies this
      ensures filters == With(old(filters), key, value)
      ensures hasCallback ==> pushed == Some(filters)
      ensures !hasCallback ==> pushed == None
    {
      var newFilters := With(filters, key, value);
      filters := newFilters;
      if hasCallback {
        pushed := Some(newFilters);
      } else {
        pushed := None;
      }
    }
  }
}
