/** The public detail page of a locality (src/pages/DetalleLocalidad.tsx):
    which record it agrees to show, the list of pictures of its carousel,
    the carousel position and the location line. */
module DetalleLocalidad {
  import opened Common
  import opened Schema
  import opened LocalidadStore

  /** The inline SVG shown when a locality has no pictures. */
  const ImagenNoDisponible: string :=
    "data:image/svg+xml,%3Csvg xmlns='http://www.w3.org/2000/svg' width='400' height='300'%3E%3Crect fill='%23ddd' width='400' height='300'/%3E%3Ctext fill='%23999' font-family='sans-serif' font-size='18' dy='10.5' font-weight='bold' x='50%25' y='50%25' text-anchor='middle'%3EImagen no disponible%3C/text%3E%3C/svg%3E"

  /** The carousel's pictures: one URL per stored image, or the placeholder
      alone when there is none. */
  function ImagenesCarrusel(l: Localidad): (imgs: seq<string>)
    ensures |imgs| >= 1
    ensures |l.imagenes| > 0 ==> |imgs| == |l.imagenes| && forall i :: 0 <= i < |imgs| ==> imgs[i] == GetImageUrl(l.imagenes[i])
    ensures |l.imagenes| == 0 ==> imgs == [ImagenNoDisponible]
  {
    if |l.imagenes| > 0 then GetImageUrls(l) else [ImagenNoDisponible]
  }

  /** `hasMultipleImages`: whether the arrows and thumbnails are drawn. */
  predicate TieneVariasImagenes(l: Localidad) {
    |ImagenesCarrusel(l)| > 1
  }

  /** The carousel controls appear exactly when the record has at least two
      stored images; the placeholder never gets controls. */
  lemma ControlesSoloConVariasImagenes(l: Localidad)
    ensures TieneVariasImagenes(l) <==> |l.imagenes| > 1
  {
  }

  /** `(prev + 1) % n`. */
  function Siguiente(i: nat, n: nat): (j: nat)
    requires n > 0
    ensures j < n
  {
    (i + 1) % n
  }

  /** `(prev - 1 + n) % n`. */
  function Anterior(i: nat, n: nat): (j: nat)
    requires n > 0
    ensures j < n
  {
    (i + n - 1) % n
  }

  /** A value already below the modulus is its own remainder. */
  lemma ModMenor(x: int, n: int)
    requires 0 <= x < n
    ensures x % n == x
  {
  }

  /** A value between one and two moduli loses exactly one modulus. */
  lemma ModUnaVuelta(x: int, n: int)
    requires 0 < n <= x < 2 * n
    ensures x % n == x - n
  {
  }

  /** Going back undoes going forward, from any position on the carousel. */
  lemma {:induction false} AnteriorDeSiguiente(i: nat, n: nat)
    requires i < n
    ensures Anterior(Siguiente(i, n), n) == i
  {
    if i + 1 < n {
      ModMenor(i + 1, n);
      ModUnaVuelta(i + n, n);
    } else {
      ModUnaVuelta(i + 1, n);
      ModMenor(n - 1, n);
    }
  }

  /** Going forward undoes going back. */
  lemma {:induction false} SiguienteDeAnterior(i: nat, n: nat)
    requires i < n
    ensures Siguiente(Anterior(i, n), n) == i
  {
    if i == 0 {
      ModMenor(n - 1, n);
      ModUnaVuelta(n, n);
    } else {
      ModUnaVuelta(i + n - 1, n);
      ModMenor(i, n);
    }
  }

  /** The location line: `ubicacion`, or "ciudad, provincia, pais" when it
      is empty. */
  function UbicacionTexto(l: Localidad): (texto: string)
    ensures l.ubicacion != "" ==> texto == l.ubicacion
    ensures l.ubicacion == "" ==> texto == l.ciudad + ", " + l.provincia + ", " + l.pais
    ensures texto != ""
  {
    if l.ubicacion != "" then l.ubicacion else l.ciudad + ", " + l.provincia + ", " + l.pais
  }

  class VistaDetalle {
    /** The record on display; `None` shows "not found or not published". */
    var localidad: Option<Localidad>
    /** `currentImageIndex`. */
    var indice: nat

    constructor ()
      ensures localidad == None && indice == 0
    {
      localidad := None;
      indice := 0;
    }

    /** `loadLocalidad`: only an existing, published record is taken; in
        every other case the page keeps what it had. */
    method LoadLocalidad(repo: LocalidadRepository, localidadId: Option<string>)
      requires repo.Valid()
      modifies this
      ensures indice == old(indice)
      ensures localidad.Some? && localidad != old(localidad) ==> localidad.value.status == LocalidadStatus.Published
      ensures (localidadId.Some? && localidadId.value != "" && localidadId.value in repo.localidades
               && repo.localidades[localidadId.value].status == LocalidadStatus.Published)
              ==> localidad == Some(repo.localidades[localidadId.value])
      ensures !(localidadId.Some? && localidadId.value != "" && localidadId.value in repo.localidades
                && repo.localidades[localidadId.value].status == LocalidadStatus.Published)
              ==> localidad == old(localidad)
    {
      if localidadId.Some? && localidadId.value != "" {
        var data := repo.GetLocalidadById(localidadId.value);
        if data.Some? && data.value.status == LocalidadStatus.Published {
          localidad := data;
        }
      }
    }

    /** `nextImage`. */
    method NextImage()
      requires localidad.Some?
      modifies this
      ensures localidad == old(localidad)
      ensures indice == Siguiente(old(indice), |ImagenesCarrusel(localidad.value)|)
    {
      indice := (indice + 1) % |ImagenesCarrusel(localidad.value)|;
    }

    /** `prevImage`. */
    method PrevImage()
      requires localidad.Some?
      modifies this
      ensures localidad == old(localidad)
      ensures indice == Anterior(old(indice), |ImagenesCarrusel(localidad.value)|)
    {
      var n := |ImagenesCarrusel(localidad.value)|;
      indice := (indice - 1 + n) % n;
    }

    /** A thumbnail click jumps to that picture. */
    method SelectImage(index: nat)
      requires localidad.Some? && index < |ImagenesCarrusel(localidad.value)|
      modifies this
      ensures localidad == old(localidad) && indice == index
    {
      indice := index;
    }
  }
}
