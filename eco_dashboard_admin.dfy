/** The stand-alone administrator dashboard
    (EcoRutas-main/src/pages/DashboardAdmin.tsx): a local list of
    `{id, nombre}` entries, and a card view for the entry just created
    that leads to its info, guides or history section. */
module PanelNuevaLocalidad {
  import opened Common
  import PanelAdmin

  datatype Entrada = Entrada(id: string, nombre: string)

  const PrefijoId: string := "localidad-"
  const PrefijoNombre: string := "Nueva localidad "

  /** The entry `handleAddLocalidad` creates at time `ahoraMs` in a list of
      `n` entries: its id carries the time, its name the new length. */
  function NuevaEntrada(ahoraMs: int, n: nat): (e: Entrada)
    ensures StartsWith(e.id, PrefijoId) && |e.id| > |PrefijoId|
    ensures e.id[|PrefijoId|..] == IntToString(ahoraMs)
    ensures StartsWith(e.nombre, PrefijoNombre)
    ensures e.nombre[|PrefijoNombre|..] == NatToString(n + 1)
  {
    var e := Entrada(PrefijoId + IntToString(ahoraMs), PrefijoNombre + NatToString(n + 1));
    assert e.id[|PrefijoId|..] == IntToString(ahoraMs);
    assert e.nombre[|PrefijoNombre|..] == NatToString(n + 1);
    e
  }

  /** The list with every entry of this id removed, the rest in order. */
  function SinEntrada(ls: seq<Entrada>, id: string): (r: seq<Entrada>)
    ensures forall i :: 0 <= i < |r| ==> r[i].id != id
    ensures forall i :: 0 <= i < |ls| && ls[i].id != id ==> ls[i] in r
    ensures forall i :: 0 <= i < |r| ==> r[i] in ls
    ensures |r| <= |ls|
  {
    Filter(ls, (e: Entrada) => e.id != id)
  }

  /** Removal works piece by piece: the survivors of a joined list are the
      survivors of each part, in order. */
  lemma SinEntradaAppend(a: seq<Entrada>, b: seq<Entrada>, id: string)
    ensures SinEntrada(a + b, id) == SinEntrada(a, id) + SinEntrada(b, id)
  {
    FilterAppend(a, b, (e: Entrada) => e.id != id);
  }

  /** Deleting an entry just added under an id nobody else had gives back
      the list as it was before the add, in the same order. */
  lemma BorrarDeshaceAgregar(ls: seq<Entrada>, e: Entrada)
    requires forall i :: 0 <= i < |ls| ==> ls[i].id != e.id
    ensures SinEntrada(ls + [e], e.id) == ls
  {
    var keep := (x: Entrada) => x.id != e.id;
    FilterAppend(ls, [e], keep);
    FilterKeepsAll(ls, keep);
    assert Filter([e], keep) == [];
  }

  /** Deleting an id nobody has changes nothing. */
  lemma BorrarAusente(ls: seq<Entrada>, id: string)
    requires forall i :: 0 <= i < |ls| ==> ls[i].id != id
    ensures SinEntrada(ls, id) == ls
  {
    FilterKeepsAll(ls, (x: Entrada) => x.id != id);
  }

  /** JavaScript truthiness of `newLocalidadId`: set and non-empty. */
  predicate Verdadero(id: Option<string>) {
    id.Some? && id.value != ""
  }

  class DashboardAdmin {
    var localidades: seq<Entrada>
    var showCards: bool
    var newLocalidadId: Option<string>

    /** The card view and the remembered id are set and cleared together,
        and a remembered id is one `handleAddLocalidad` made. */
    ghost predicate Valid()
      reads this
    {
      && (showCards <==> newLocalidadId.Some?)
      && (newLocalidadId.Some? ==> StartsWith(newLocalidadId.value, PrefijoId) && |newLocalidadId.value| > |PrefijoId|)
    }

    constructor ()
      ensures Valid()
      ensures localidades == [] && !showCards && newLocalidadId.None?
    {
      localidades := [];
      showCards := false;
      newLocalidadId := None;
    }

    /** Whether the page renders the card view (`showCards && newLocalidadId`). */
    predicate MuestraTarjetas()
      reads this
    {
      showCards && Verdadero(newLocalidadId)
    }

    /** In every reachable state the card view is shown exactly when
        `showCards` is set. */
    lemma TarjetasSiYSoloSiShowCards()
      requires Valid()
      ensures MuestraTarjetas() <==> showCards
    {
    }

    /** `handleAddLocalidad`: one entry appended after the existing ones,
        remembered, and the card view opened. */
    method HandleAddLocalidad(ahoraMs: int)
      requires Valid()
      modifies this
      ensures Valid()
      ensures localidades == old(localidades) + [NuevaEntrada(ahoraMs, |old(localidades)|)]
      ensures newLocalidadId == Some(NuevaEntrada(ahoraMs, |old(localidades)|).id)
      ensures showCards && MuestraTarjetas()
    {
      var nuevoId := PrefijoId + IntToString(ahoraMs);
      localidades := localidades + [Entrada(nuevoId, PrefijoNombre + NatToString(|localidades| + 1))];
      newLocalidadId := Some(nuevoId);
      showCards := true;
    }

    /** `handleDeleteLocalidad`: a confirmed delete drops every entry with
        the id; a declined one changes nothing. The card view is untouched. */
    method HandleDeleteLocalidad(id: string, confirmed: bool)
      requires Valid()
      modifies this
      ensures Valid()
      ensures showCards == old(showCards) && newLocalidadId == old(newLocalidadId)
      ensures !confirmed ==> localidades == old(localidades)
      ensures confirmed ==> localidades == SinEntrada(old(localidades), id)
    {
      if !confirmed {
        return;
      }
      localidades := SinEntrada(localidades, id);
    }

    /** `handleBackToList`: back to the list, nothing remembered. */
    method HandleBackToList()
      modifies this
      ensures Valid()
      ensures !showCards && newLocalidadId.None? && !MuestraTarjetas()
      ensures localidades == old(localidades)
    {
      showCards := false;
      newLocalidadId := None;
    }

    /** `handleCardClick`: the route the page navigates to, if any; without
        a remembered id nothing happens. */
    method HandleCardClick(section: PanelAdmin.Seccion) returns (destino: Option<string>)
      ensures Verdadero(newLocalidadId) ==> destino == Some(PanelAdmin.RutaSeccion(newLocalidadId.value, section))
      ensures !Verdadero(newLocalidadId) ==> destino.None?
    {
      if Verdadero(newLocalidadId) {
        destino := Some(HandleGoToSection(newLocalidadId.value, section));
      } else {
        destino := None;
      }
    }

    /** `handleGoToSection`: the route of one section of one entry. */
    function HandleGoToSection(localidadId: string, section: PanelAdmin.Seccion): (ruta: string)
      ensures StartsWith(ruta, PanelAdmin.RutaLocalidades)
      ensures |ruta| > |PanelAdmin.RutaLocalidades| + |localidadId|
      ensures ruta[|PanelAdmin.RutaLocalidades|..|PanelAdmin.RutaLocalidades| + |localidadId|] == localidadId
      ensures forall otroId, otra :: PanelAdmin.RutaSeccion(otroId, otra) == ruta ==> otroId == localidadId && otra == section
    {
      var ruta := PanelAdmin.RutaSeccion(localidadId, section);
      forall otroId, otra | PanelAdmin.RutaSeccion(otroId, otra) == ruta
        ensures otroId == localidadId && otra == section
      {
        PanelAdmin.RutaSeccionInjective(otroId, otra, localidadId, section);
      }
      ruta
    }
  }
}
