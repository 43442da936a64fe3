/** The administrator's list of localities (src/pages/DashboardAdmin.tsx):
    the list shown on screen, kept in step with the repository by the
    publish toggle and the delete button. */
module PanelAdmin {
  import opened Common
  import opened Schema
  import opened LocalidadStore
  import opened AuthContext

  /** The three pages a locality can be opened on. */
  datatype Seccion = Info | Guias | Historial

  function SeccionName(s: Seccion): string {
    match s
    case Info => "info"
    case Guias => "guias"
    case Historial => "historial"
  }

  const RutaLocalidades: string := "/dashboard/admin/localidades/"

  /** `/dashboard/admin/localidades/${id}/${section}`. */
  function RutaSeccion(id: string, s: Seccion): (ruta: string)
    ensures StartsWith(ruta, RutaLocalidades)
    ensures |ruta| == |RutaLocalidades| + |id| + 1 + |SeccionName(s)|
  {
    RutaLocalidades + id + "/" + SeccionName(s)
  }

  /** A route names one locality and one page: different (id, section)
      pairs never share a route, even for ids that contain '/'. */
  lemma RutaSeccionInjective(a: string, s: Seccion, b: string, t: Seccion)
    requires RutaSeccion(a, s) == RutaSeccion(b, t)
    ensures a == b && s == t
  {
    var ra, rb := RutaSeccion(a, s), RutaSeccion(b, t);
    // The page names end in different letters, so the last letter fixes the page.
    assert ra[|ra| - 1] == SeccionName(s)[|SeccionName(s)| - 1];
    assert rb[|rb| - 1] == SeccionName(t)[|SeccionName(t)| - 1];
    assert s == t;
    assert |a| == |b|;
    assert a == ra[|RutaLocalidades|..|RutaLocalidades| + |a|];
    assert b == rb[|RutaLocalidades|..|RutaLocalidades| + |b|];
  }

  /** `currentStatus === 'published' ? 'draft' : 'published'`. */
  function EstadoAlternado(actual: LocalidadStatus): (nuevo: LocalidadStatus)
    ensures nuevo != actual
    ensures nuevo == Draft <==> actual == LocalidadStatus.Published
    ensures nuevo != LocalidadStatus.Archived
  {
    if actual == LocalidadStatus.Published then Draft else LocalidadStatus.Published
  }

  /** `user?.nombre || 'Admin'`: the name recorded as author of the change. */
  function Actor(user: Option<User>): (nombre: string)
    ensures nombre != ""
    ensures user.Some? && user.value.nombre != "" ==> nombre == user.value.nombre
    ensures user.None? || user.value.nombre == "" ==> nombre == "Admin"
  {
    if user.Some? && user.value.nombre != "" then user.value.nombre else "Admin"
  }

  /** `{ ...loc, status: newStatus, publicada: newStatus === 'published' }`:
      the status changes, `publicada` follows it, all else is kept. */
  function ConEstadoLocal(l: Localidad, status: LocalidadStatus): (r: Localidad)
    ensures r.status == status
    ensures r.publicada == (status == LocalidadStatus.Published)
    ensures forall c :: c != Status && c != Publicada ==> CampoDe(r, c) == CampoDe(l, c)
  {
    l.(status := status, publicada := status == LocalidadStatus.Published)
  }

  /** The on-screen list after the toggle succeeded: the entries with this
      id take the new status; nothing else changes. */
  function ConEstadoEnLista(ls: seq<Localidad>, id: string, status: LocalidadStatus): (r: seq<Localidad>)
    ensures |r| == |ls|
    ensures forall i :: 0 <= i < |ls| && ls[i].id != id ==> r[i] == ls[i]
    ensures forall i :: 0 <= i < |ls| && ls[i].id == id ==> r[i] == ConEstadoLocal(ls[i], status)
  {
    if ls == [] then []
    else
      [if ls[0].id == id then ConEstadoLocal(ls[0], status) else ls[0]]
        + ConEstadoEnLista(ls[1..], id, status)
  }

  /** The list with every entry of this id removed, the rest in order. */
  function SinId(ls: seq<Localidad>, id: string): (r: seq<Localidad>)
    ensures forall i :: 0 <= i < |r| ==> r[i].id != id
    ensures forall i :: 0 <= i < |ls| && ls[i].id != id ==> ls[i] in r
    ensures forall i :: 0 <= i < |r| ==> r[i] in ls
    ensures |r| <= |ls|
  {
    Filter(ls, (l: Localidad) => l.id != id)
  }

  /** Removal works piece by piece: the survivors of a joined list are the
      survivors of each part, in order, so the kept entries never move
      past one another. */
  lemma SinIdAppend(a: seq<Localidad>, b: seq<Localidad>, id: string)
    ensures SinId(a + b, id) == SinId(a, id) + SinId(b, id)
  {
    FilterAppend(a, b, (l: Localidad) => l.id != id);
  }

  /** Toggling the same entry twice restores the list when the entry
      started as a draft or published, and the view agreed with the store. */
  lemma {:induction false} ToggleTwiceRestores(ls: seq<Localidad>, id: string, actual: LocalidadStatus)
    requires actual != LocalidadStatus.Archived
    requires forall i :: 0 <= i < |ls| && ls[i].id == id ==>
      ls[i].status == actual && ls[i].publicada == (actual == LocalidadStatus.Published)
    ensures ConEstadoEnLista(ConEstadoEnLista(ls, id, EstadoAlternado(actual)), id, EstadoAlternado(EstadoAlternado(actual))) == ls
  {
    if ls != [] {
      ToggleTwiceRestores(ls[1..], id, actual);
    }
  }

  class DashboardAdmin {
    /** The localities on screen. */
    var localidades: seq<Localidad>

    constructor ()
      ensures localidades == []
    {
      localidades := [];
    }

    /** `loadLocalidades`: every stored record, after the one-time import. */
    method LoadLocalidades(repo: LocalidadRepository, legado: Option<seq<LocalidadLegado>>, ahora: string,
                           imageIds: seq<seq<string>>)
      requires repo.Valid()
      requires IdsParaLegado(legado, imageIds)
      modifies this, repo
      ensures repo.Valid()
      ensures |old(repo.localidades)| > 0 || legado.None? || legado.value == [] ==>
        repo.localidades == old(repo.localidades)
      ensures |old(repo.localidades)| == 0 && legado.Some? && legado.value != [] ==>
        repo.localidades == BulkAdd(map[], ConvertirTodas(legado.value, ahora, imageIds), IdDe)
      ensures forall i :: 0 <= i < |localidades| ==> localidades[i] in repo.localidades.Values
      ensures forall k :: k in repo.localidades ==> repo.localidades[k] in localidades
      ensures forall i, j :: 0 <= i < j < |localidades| ==> localidades[i].id != localidades[j].id
    {
      localidades := repo.GetAllLocalidades(legado, ahora, imageIds);
    }

    /** `handleToggleStatus`: flip between draft and published in the
        store, naming the signed-in user (or "Admin") as author, and
        mirror the change on screen only if the store accepted it. */
    method HandleToggleStatus(repo: LocalidadRepository, id: string, currentStatus: LocalidadStatus,
                              user: Option<User>, ahora: string, cambioId: string)
      requires repo.Valid()
      modifies this, repo
      ensures repo.Valid()
      ensures id !in old(repo.localidades) ==> repo.localidades == old(repo.localidades) && localidades == old(localidades)
      ensures id in old(repo.localidades) ==>
        && repo.localidades == old(repo.localidades)[id := ConEstado(old(repo.localidades)[id], EstadoAlternado(currentStatus),
                                                                      Some(Actor(user)), ahora, cambioId)]
        && localidades == ConEstadoEnLista(old(localidades), id, EstadoAlternado(currentStatus))
    {
      var newStatus := EstadoAlternado(currentStatus);
      var updated := repo.UpdateLocalidadStatus(id, newStatus, Some(Actor(user)), ahora, cambioId);
      if updated {
        localidades := ConEstadoEnLista(localidades, id, newStatus);
      }
    }

    /** `handleDeleteLocalidad`: after a confirmed delete the record is gone
        from the store and from the screen. */
    method HandleDeleteLocalidad(repo: LocalidadRepository, id: string, confirmed: bool)
      requires repo.Valid()
      modifies this, repo
      ensures repo.Valid()
      ensures !confirmed ==> repo.localidades == old(repo.localidades) && localidades == old(localidades)
      ensures confirmed ==> repo.localidades == old(repo.localidades) - {id} && localidades == SinId(old(localidades), id)
    {
      if !confirmed {
        return;
      }
      var deleted := repo.DeleteLocalidad(id);
      if deleted {
        localidades := SinId(localidades, id);
      }
    }
  }
}
