/** The change-history page of a locality
    (src/components/localidad/HistorialCambios.tsx): how an action is
    labelled and coloured, how a logged value is printed, how many entries
    are shown, and the "clear all" button. */
module HistorialCambios {
  import opened Common
  import opened Schema
  import opened LocalidadStore

  // ---------------------------------------------------------------------
  // Badges
  // ---------------------------------------------------------------------

  const ColorNeutro: string := "bg-gray-100 text-gray-800"

  /** `getActionColor`: the badge classes of an action name. */
  function GetActionColor(accion: string): (clases: string)
    ensures accion == "created" ==> clases == "bg-green-100 text-green-800"
    ensures accion == "updated" ==> clases == "bg-blue-100 text-blue-800"
    ensures accion == "published" ==> clases == "bg-purple-100 text-purple-800"
    ensures accion == "deleted" ==> clases == "bg-red-100 text-red-800"
    ensures accion !in {"created", "updated", "published", "deleted"} ==> clases == ColorNeutro
  {
    match accion
    case "created" => "bg-green-100 text-green-800"
    case "updated" => "bg-blue-100 text-blue-800"
    case "published" => "bg-purple-100 text-purple-800"
    case "archived" => ColorNeutro
    case "deleted" => "bg-red-100 text-red-800"
    case _ => ColorNeutro
  }

  /** The badge text: the Spanish label of a known action, else the action
      name itself. */
  function ActionLabel(accion: string): (etiqueta: string)
    ensures accion !in {"created", "updated", "published", "archived", "deleted"} ==> etiqueta == accion
  {
    if accion == "created" then "Creado"
    else if accion == "updated" then "Actualizado"
    else if accion == "published" then "Publicado"
    else if accion == "archived" then "Archivado"
    else if accion == "deleted" then "Eliminado"
    else accion
  }

  /** The Spanish label of each action the repository can log. */
  function Etiqueta(a: Accion): string {
    match a
    case Created => "Creado"
    case Updated => "Actualizado"
    case Published => "Publicado"
    case Archived => "Archivado"
    case Deleted => "Eliminado"
  }

  /** Every logged action gets its own label, and its own colour except
      that "archived" shares the neutral grey of unknown actions. */
  lemma BadgesOfLoggedActions(a: Accion, b: Accion)
    ensures ActionLabel(AccionName(a)) == Etiqueta(a)
    ensures Etiqueta(a) == Etiqueta(b) <==> a == b
    ensures GetActionColor(AccionName(a)) == ColorNeutro <==> a == Accion.Archived
    ensures a != Accion.Archived && b != Accion.Archived ==>
      (GetActionColor(AccionName(a)) == GetActionColor(AccionName(b)) <==> a == b)
  {
  }

  // ---------------------------------------------------------------------
  // formatValue
  // ---------------------------------------------------------------------

  /** What `JSON.parse` makes of a string, as far as `formatValue` cares:
      not JSON at all (it throws), an array (of printed elements), or any
      other value together with its `String(...)` rendering. */
  datatype JsonLeido = NoEsJson | ArregloJson(elementos: seq<string>) | OtroJson(texto: string)

  const Vacio: string := "Vacío"

  /** The characters `String.prototype.trim` removes. */
  predicate EsEspacioJs(c: char) {
    || c == ' ' || c == '\t' || c == '\n' || c == '\U{000B}' || c == '\U{000C}' || c == '\r'
    || c == '\U{00A0}' || c == '\U{1680}' || ('\U{2000}' <= c <= '\U{200A}')
    || c == '\U{2028}' || c == '\U{2029}' || c == '\U{202F}' || c == '\U{205F}'
    || c == '\U{3000}' || c == '\U{FEFF}'
  }

  /** `s.trim() === ''`. */
  predicate SoloEspacios(s: string) {
    forall i :: 0 <= i < |s| ==> EsEspacioJs(s[i])
  }

  /** `value.length > 0 ? value.join(', ') : 'Vacío'`. */
  function ListaTexto(items: seq<string>): (r: string)
    ensures items == [] ==> r == Vacio
    ensures |items| == 1 ==> r == items[0]
  {
    if |items| > 0 then Join(items, ", ") else Vacio
  }

  /** `formatValue`; `parse` stands for `JSON.parse`. */
  function FormatValue(v: Dato, parse: string -> JsonLeido): (r: string)
    ensures v.Lista? ==> r == ListaTexto(v.items)
    ensures v.Cadena? && SoloEspacios(v.s) ==> r == Vacio
    ensures v.Cadena? && !SoloEspacios(v.s) && parse(v.s) == NoEsJson ==> r == v.s
    ensures v.Cifra? ==> r == IntToString(v.n)
    ensures v.Indefinido? ==> r == Vacio
  {
    match v
    case Lista(items) => ListaTexto(items)
    case Cadena(s) =>
      if s == "" || SoloEspacios(s) then Vacio
      else (
        match parse(s)
        case NoEsJson => s
        case ArregloJson(elementos) => ListaTexto(elementos)
        case OtroJson(texto) => texto)
    case Cifra(n) => IntToString(n)
    case Indefinido => Vacio
  }

  /** The text a field change shows is never empty: blank or missing
      values read "Vacío" rather than disappearing. Holds when no list
      element prints as "" and JSON values other than arrays print as
      non-empty text. */
  lemma FormatValueNeverEmpty(v: Dato, parse: string -> JsonLeido)
    requires forall s :: parse(s).OtroJson? ==> parse(s).texto != ""
    requires forall s :: parse(s).ArregloJson? ==> forall i :: 0 <= i < |parse(s).elementos| ==> parse(s).elementos[i] != ""
    requires v.Lista? ==> forall i :: 0 <= i < |v.items| ==> v.items[i] != ""
    ensures FormatValue(v, parse) != ""
  {
    match v
    case Lista(items) => JoinNonEmpty(items, ", ");
    case Cadena(s) =>
      if !(s == "" || SoloEspacios(s)) {
        match parse(s)
        case ArregloJson(elementos) => JoinNonEmpty(elementos, ", ");
        case NoEsJson =>
        case OtroJson(texto) =>
      }
    case Cifra(n) =>
    case Indefinido =>
  }

  lemma {:induction false} JoinNonEmpty(items: seq<string>, sep: string)
    requires forall i :: 0 <= i < |items| ==> items[i] != ""
    ensures items != [] ==> Join(items, sep) != ""
  {
    if items != [] {
      JoinOfNonEmptyHead(items, sep);
    }
  }

  lemma JoinOfNonEmptyHead(items: seq<string>, sep: string)
    requires items != [] && (items[0] != "" || (|items| > 1 && sep != ""))
    ensures Join(items, sep) != ""
  {
    if |items| > 1 {
      assert |Join(items, sep)| >= |items[0]| + |sep|;
    }
  }

  // ---------------------------------------------------------------------
  // How many entries are shown
  // ---------------------------------------------------------------------

  const MaxItemsPorDefecto: int := 200

  /** `items.slice(0, maxItems)`: a negative bound counts from the end. */
  function Visibles(items: seq<HistorialCambio>, maxItems: int): (r: seq<HistorialCambio>)
    ensures |r| <= |items| && r == items[..|r|]
    ensures maxItems >= 0 ==> |r| == if maxItems < |items| then maxItems else |items|
    ensures maxItems < 0 ==> |r| == if |items| + maxItems > 0 then |items| + maxItems else 0
  {
    var fin := if maxItems >= 0 then maxItems else |items| + maxItems;
    if fin <= 0 then [] else if fin >= |items| then items else items[..fin]
  }

  /** With the default bound a history of at most 200 entries is shown in
      full, and a longer one is cut to its 200 newest entries. */
  lemma VisiblesPorDefecto(items: seq<HistorialCambio>)
    ensures |items| <= 200 ==> Visibles(items, MaxItemsPorDefecto) == items
    ensures |items| > 200 ==> Visibles(items, MaxItemsPorDefecto) == items[..200]
  {
  }

  // ---------------------------------------------------------------------
  // The page
  // ---------------------------------------------------------------------

  /** Whether an entry belongs to another locality. */
  function DeOtraLocalidad(id: string): HistorialCambio -> bool {
    (h: HistorialCambio) => h.localidadId != id
  }

  class HistorialPage {
    /** The entries on screen. */
    var items: seq<HistorialCambio>
    /** The locality's name, once known. */
    var localidadNombre: string
    /** The separate `ecorutas_historial_cambios` storage slot, as parsed:
        `None` when it holds text that is not a list. */
    var historialGlobal: Option<seq<HistorialCambio>>

    constructor (historialGlobal: Option<seq<HistorialCambio>>)
      ensures items == [] && localidadNombre == "" && this.historialGlobal == historialGlobal
    {
      items := [];
      localidadNombre := "";
      this.historialGlobal := historialGlobal;
    }

    /** `loadHistorial`: the locality's embedded history, newest first. */
    method LoadHistorial(repo: LocalidadRepository, localidadId: Option<string>)
      requires repo.Valid()
      modifies this
      ensures historialGlobal == old(historialGlobal)
      ensures localidadId.None? || localidadId.value == "" ==> items == old(items) && localidadNombre == old(localidadNombre)
      ensures localidadId.Some? && localidadId.value != "" ==>
        && items == repo.ObtenerHistorialLocalidad(localidadId.value)
        && localidadNombre == (if localidadId.value in repo.localidades then repo.localidades[localidadId.value].nombre
                               else old(localidadNombre))
    {
      if localidadId.Some? && localidadId.value != "" {
        items := repo.ObtenerHistorialLocalidad(localidadId.value);
        var localidad := repo.GetLocalidadById(localidadId.value);
        if localidad.Some? {
          localidadNombre := localidad.value.nombre;
        }
      }
    }

    /** `clearAll`: with an id and a confirmation, drop that locality's
        entries from the separate storage slot and empty the screen. The
        locality's embedded history is not touched. */
    method ClearAll(localidadId: Option<string>, confirmed: bool)
      modifies this
      ensures localidadNombre == old(localidadNombre)
      ensures localidadId.None? || localidadId.value == "" || !confirmed || old(historialGlobal).None? ==>
        items == old(items) && historialGlobal == old(historialGlobal)
      ensures localidadId.Some? && localidadId.value != "" && confirmed && old(historialGlobal).Some? ==>
        && items == []
        && historialGlobal == Some(Filter(old(historialGlobal).value, DeOtraLocalidad(localidadId.value)))
    {
      if localidadId.None? || localidadId.value == "" {
        return;
      }
      if !confirmed {
        return;
      }
      if historialGlobal.None? {
        return;
      }
      historialGlobal := Some(Filter(historialGlobal.value, DeOtraLocalidad(localidadId.value)));
      items := [];
    }
  }

  /** After clearing, no entry of that locality is left in the slot, every
      entry of another locality is still there, and clearing again changes
      nothing. */
  lemma ClearAllFilterSpec(global: seq<HistorialCambio>, id: string)
    ensures var r := Filter(global, DeOtraLocalidad(id));
      && (forall i :: 0 <= i < |r| ==> r[i].localidadId != id)
      && (forall i :: 0 <= i < |global| && global[i].localidadId != id ==> global[i] in r)
      && Filter(r, DeOtraLocalidad(id)) == r
  {
    FilterIdempotent(global, DeOtraLocalidad(id));
  }
}
