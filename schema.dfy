/** The record schema of the locality store and the helpers that turn a
    stored image into something an `<img>` element can show
    (src/utils/db.ts). */
module Schema {
  import opened Common

  // ---------------------------------------------------------------------
  // Closed enumerations
  // ---------------------------------------------------------------------

  /** Lifecycle stage of a locality. */
  datatype LocalidadStatus = Draft | Published | Archived

  function StatusName(s: LocalidadStatus): string {
    match s
    case Draft => "draft"
    case Published => "published"
    case Archived => "archived"
  }

  /** Kind of change a history entry records. */
  datatype Accion = Created | Updated | Published | Archived | Deleted

  function AccionName(a: Accion): string {
    match a
    case Created => "created"
    case Updated => "updated"
    case Published => "published"
    case Archived => "archived"
    case Deleted => "deleted"
  }

  /** The status names are pairwise distinct, so comparing names (as the
      diff and the status toggle do) is comparing statuses. */
  lemma StatusNameInjective(a: LocalidadStatus, b: LocalidadStatus)
    ensures StatusName(a) == StatusName(b) <==> a == b
  {
  }

  /** Every status is spelled by one of the three names, and no other
      string names a status. */
  lemma StatusNamesClosed(s: string)
    ensures (exists st :: StatusName(st) == s) <==> s in {"draft", "published", "archived"}
  {
    if s == "draft" { assert StatusName(Draft) == s; }
    if s == "published" { assert StatusName(LocalidadStatus.Published) == s; }
    if s == "archived" { assert StatusName(LocalidadStatus.Archived) == s; }
  }

  /** Every action is spelled by one of the five names, and no other string
      names an action. */
  lemma AccionNamesClosed(s: string)
    ensures (exists a :: AccionName(a) == s) <==> s in {"created", "updated", "published", "archived", "deleted"}
  {
    if s == "created" { assert AccionName(Created) == s; }
    if s == "updated" { assert AccionName(Updated) == s; }
    if s == "published" { assert AccionName(Accion.Published) == s; }
    if s == "archived" { assert AccionName(Accion.Archived) == s; }
    if s == "deleted" { assert AccionName(Deleted) == s; }
  }

  // ---------------------------------------------------------------------
  // Records
  // ---------------------------------------------------------------------

  /** A stored image; `mimeType` is the source's `type` field. */
  datatype ImagenLocalidad = ImagenLocalidad(id: string, data: string, name: string, mimeType: string)

  datatype Horario = Horario(id: string, dia: string, horaInicio: string, horaFin: string, disponible: bool)

  /** A value a history entry holds before or after the change. The source
      types it `any`; the shown code writes strings and string lists,
      and the viewer also copes with numbers and with no value. */
  datatype Dato = Cadena(s: string) | Cifra(n: int) | Lista(items: seq<string>) | Indefinido

  datatype HistorialCambio = HistorialCambio(
    id: string,
    localidadId: string,
    fecha: string,
    campoModificado: Option<string>,
    valorAnterior: Dato,
    valorNuevo: Dato,
    usuario: string,
    accion: Accion)

  /** A tourist locality, with every field filled in. */
  datatype Localidad = Localidad(
    id: string,
    nombre: string,
    pais: string,
    provincia: string,
    ciudad: string,
    tipo: string,
    categoria: string,
    descripcion: string,
    descripcionCorta: string,
    accesibilidad: string,
    ubicacion: string,
    coordenadas: string,
    altitud: string,
    clima: string,
    infraestructura: string,
    serviciosBasicos: string,
    serviciosTuristicos: string,
    capacidadMaxima: string,
    temporadaAlta: string,
    temporadaBaja: string,
    seguridad: string,
    medicinaEmergencia: string,
    comunicaciones: string,
    reportes: string,
    certificaciones: string,
    tarifas: string,
    idiomas: seq<string>,
    contactoEmergencia: string,
    sitioWeb: string,
    redesSociales: string,
    precioPorPersona: int,
    imagenes: seq<ImagenLocalidad>,
    horarios: seq<Horario>,
    publicada: bool,
    fechaCreacion: string,
    fechaActualizacion: string,
    createdBy: string,
    historial: seq<HistorialCambio>,
    status: LocalidadStatus)

  /** `Partial<Localidad>`: `None` is a key the object does not carry. */
  datatype LocalidadParcial = LocalidadParcial(
    id: Option<string>,
    nombre: Option<string>,
    pais: Option<string>,
    provincia: Option<string>,
    ciudad: Option<string>,
    tipo: Option<string>,
    categoria: Option<string>,
    descripcion: Option<string>,
    descripcionCorta: Option<string>,
    accesibilidad: Option<string>,
    ubicacion: Option<string>,
    coordenadas: Option<string>,
    altitud: Option<string>,
    clima: Option<string>,
    infraestructura: Option<string>,
    serviciosBasicos: Option<string>,
    serviciosTuristicos: Option<string>,
    capacidadMaxima: Option<string>,
    temporadaAlta: Option<string>,
    temporadaBaja: Option<string>,
    seguridad: Option<string>,
    medicinaEmergencia: Option<string>,
    comunicaciones: Option<string>,
    reportes: Option<string>,
    certificaciones: Option<string>,
    tarifas: Option<string>,
    idiomas: Option<seq<string>>,
    contactoEmergencia: Option<string>,
    sitioWeb: Option<string>,
    redesSociales: Option<string>,
    precioPorPersona: Option<int>,
    imagenes: Option<seq<ImagenLocalidad>>,
    horarios: Option<seq<Horario>>,
    publicada: Option<bool>,
    fechaCreacion: Option<string>,
    fechaActualizacion: Option<string>,
    createdBy: Option<string>,
    historial: Option<seq<HistorialCambio>>,
    status: Option<LocalidadStatus>)

  // ---------------------------------------------------------------------
  // Field-by-field view of a record
  // ---------------------------------------------------------------------

  /** The keys of a locality record, in declaration order. */
  datatype Campo =
    | Id
    | Nombre
    | Pais
    | Provincia
    | Ciudad
    | Tipo
    | Categoria
    | Descripcion
    | DescripcionCorta
    | Accesibilidad
    | Ubicacion
    | Coordenadas
    | Altitud
    | Clima
    | Infraestructura
    | ServiciosBasicos
    | ServiciosTuristicos
    | CapacidadMaxima
    | TemporadaAlta
    | TemporadaBaja
    | Seguridad
    | MedicinaEmergencia
    | Comunicaciones
    | Reportes
    | Certificaciones
    | Tarifas
    | Idiomas
    | ContactoEmergencia
    | SitioWeb
    | RedesSociales
    | PrecioPorPersona
    | Imagenes
    | Horarios
    | Publicada
    | FechaCreacion
    | FechaActualizacion
    | CreatedBy
    | Historial
    | Status

  /** The value of one field, tagged with its type. */
  datatype Valor =
    | Texto(s: string)
    | Textos(ss: seq<string>)
    | Numero(n: int)
    | Logico(b: bool)
    | Fotos(fotos: seq<ImagenLocalidad>)
    | Turnos(turnos: seq<Horario>)
    | Cambios(cambios: seq<HistorialCambio>)
    | Estado(st: LocalidadStatus)

  /** `l[c]`. */
  function CampoDe(l: Localidad, c: Campo): Valor {
    match c
    case Id => Texto(l.id)
    case Nombre => Texto(l.nombre)
    case Pais => Texto(l.pais)
    case Provincia => Texto(l.provincia)
    case Ciudad => Texto(l.ciudad)
    case Tipo => Texto(l.tipo)
    case Categoria => Texto(l.categoria)
    case Descripcion => Texto(l.descripcion)
    case DescripcionCorta => Texto(l.descripcionCorta)
    case Accesibilidad => Texto(l.accesibilidad)
    case Ubicacion => Texto(l.ubicacion)
    case Coordenadas => Texto(l.coordenadas)
    case Altitud => Texto(l.altitud)
    case Clima => Texto(l.clima)
    case Infraestructura => Texto(l.infraestructura)
    case ServiciosBasicos => Texto(l.serviciosBasicos)
    case ServiciosTuristicos => Texto(l.serviciosTuristicos)
    case CapacidadMaxima => Texto(l.capacidadMaxima)
    case TemporadaAlta => Texto(l.temporadaAlta)
    case TemporadaBaja => Texto(l.temporadaBaja)
    case Seguridad => Texto(l.seguridad)
    case MedicinaEmergencia => Texto(l.medicinaEmergencia)
    case Comunicaciones => Texto(l.comunicaciones)
    case Reportes => Texto(l.reportes)
    case Certificaciones => Texto(l.certificaciones)
    case Tarifas => Texto(l.tarifas)
    case Idiomas => Textos(l.idiomas)
    case ContactoEmergencia => Texto(l.contactoEmergencia)
    case SitioWeb => Texto(l.sitioWeb)
    case RedesSociales => Texto(l.redesSociales)
    case PrecioPorPersona => Numero(l.precioPorPersona)
    case Imagenes => Fotos(l.imagenes)
    case Horarios => Turnos(l.horarios)
    case Publicada => Logico(l.publicada)
    case FechaCreacion => Texto(l.fechaCreacion)
    case FechaActualizacion => Texto(l.fechaActualizacion)
    case CreatedBy => Texto(l.createdBy)
    case Historial => Cambios(l.historial)
    case Status => Estado(l.status)
  }

  /** `p[c]`, or `None` when the partial record lacks the key. */
  function CampoParcial(p: LocalidadParcial, c: Campo): Option<Valor> {
    match c
    case Id => if p.id.Some? then Some(Texto(p.id.value)) else None
    case Nombre => if p.nombre.Some? then Some(Texto(p.nombre.value)) else None
    case Pais => if p.pais.Some? then Some(Texto(p.pais.value)) else None
    case Provincia => if p.provincia.Some? then Some(Texto(p.provincia.value)) else None
    case Ciudad => if p.ciudad.Some? then Some(Texto(p.ciudad.value)) else None
    case Tipo => if p.tipo.Some? then Some(Texto(p.tipo.value)) else None
    case Categoria => if p.categoria.Some? then Some(Texto(p.categoria.value)) else None
    case Descripcion => if p.descripcion.Some? then Some(Texto(p.descripcion.value)) else None
    case DescripcionCorta => if p.descripcionCorta.Some? then Some(Texto(p.descripcionCorta.value)) else None
    case Accesibilidad => if p.accesibilidad.Some? then Some(Texto(p.accesibilidad.value)) else None
    case Ubicacion => if p.ubicacion.Some? then Some(Texto(p.ubicacion.value)) else None
    case Coordenadas => if p.coordenadas.Some? then Some(Texto(p.coordenadas.value)) else None
    case Altitud => if p.altitud.Some? then Some(Texto(p.altitud.value)) else None
    case Clima => if p.clima.Some? then Some(Texto(p.clima.value)) else None
    case Infraestructura => if p.infraestructura.Some? then Some(Texto(p.infraestructura.value)) else None
    case ServiciosBasicos => if p.serviciosBasicos.Some? then Some(Texto(p.serviciosBasicos.value)) else None
    case ServiciosTuristicos => if p.serviciosTuristicos.Some? then Some(Texto(p.serviciosTuristicos.value)) else None
    case CapacidadMaxima => if p.capacidadMaxima.Some? then Some(Texto(p.capacidadMaxima.value)) else None
    case TemporadaAlta => if p.temporadaAlta.Some? then Some(Texto(p.temporadaAlta.value)) else None
    case TemporadaBaja => if p.temporadaBaja.Some? then Some(Texto(p.temporadaBaja.value)) else None
    case Seguridad => if p.seguridad.Some? then Some(Texto(p.seguridad.value)) else None
    case MedicinaEmergencia => if p.medicinaEmergencia.Some? then Some(Texto(p.medicinaEmergencia.value)) else None
    case Comunicaciones => if p.comunicaciones.Some? then Some(Texto(p.comunicaciones.value)) else None
    case Reportes => if p.reportes.Some? then Some(Texto(p.reportes.value)) else None
    case Certificaciones => if p.certificaciones.Some? then Some(Texto(p.certificaciones.value)) else None
    case Tarifas => if p.tarifas.Some? then Some(Texto(p.tarifas.value)) else None
    case Idiomas => if p.idiomas.Some? then Some(Textos(p.idiomas.value)) else None
    case ContactoEmergencia => if p.contactoEmergencia.Some? then Some(Texto(p.contactoEmergencia.value)) else None
    case SitioWeb => if p.sitioWeb.Some? then Some(Texto(p.sitioWeb.value)) else None
    case RedesSociales => if p.redesSociales.Some? then Some(Texto(p.redesSociales.value)) else None
    case PrecioPorPersona => if p.precioPorPersona.Some? then Some(Numero(p.precioPorPersona.value)) else None
    case Imagenes => if p.imagenes.Some? then Some(Fotos(p.imagenes.value)) else None
    case Horarios => if p.horarios.Some? then Some(Turnos(p.horarios.value)) else None
    case Publicada => if p.publicada.Some? then Some(Logico(p.publicada.value)) else None
    case FechaCreacion => if p.fechaCreacion.Some? then Some(Texto(p.fechaCreacion.value)) else None
    case FechaActualizacion => if p.fechaActualizacion.Some? then Some(Texto(p.fechaActualizacion.value)) else None
    case CreatedBy => if p.createdBy.Some? then Some(Texto(p.createdBy.value)) else None
    case Historial => if p.historial.Some? then Some(Cambios(p.historial.value)) else None
    case Status => if p.status.Some? then Some(Estado(p.status.value)) else None
  }

  // ---------------------------------------------------------------------
  // Image display URLs (getImageUrl)
  // ---------------------------------------------------------------------

  const DataScheme := "data:"
  /** Base64 of the JPEG start-of-image bytes FF D8 FF. */
  const JpegBase64Prefix := "/9j/"
  /** Base64 of the first eight bytes of the PNG signature. */
  const PngBase64Signature := "iVBORw0KGgo"
  const DefaultMime := "image/jpeg"

  /** The heuristic that recognises a base64 payload stored without its
      data-URL prefix. */
  predicate LooksLikeBareBase64(data: string) {
    StartsWith(data, JpegBase64Prefix) || Contains(data, PngBase64Signature)
  }

  /** `data:<type>;base64,<payload>` (section 3 of RFC 2397). */
  function DataUrl(mime: string, payload: string): string {
    DataScheme + mime + ";base64," + payload
  }

  /** A URL for an `<img>`: data URLs pass through, bare JPEG or PNG base64
      is wrapped as a data URL, anything else is returned as stored. */
  function GetImageUrl(imagen: ImagenLocalidad): (url: string)
    ensures StartsWith(imagen.data, DataScheme) ==> url == imagen.data
    ensures StartsWith(url, DataScheme) || url == imagen.data
    ensures !LooksLikeBareBase64(imagen.data) ==> url == imagen.data
  {
    if StartsWith(imagen.data, DataScheme) then imagen.data
    else if LooksLikeBareBase64(imagen.data) then
      DataUrl(if imagen.mimeType != "" then imagen.mimeType else DefaultMime, imagen.data)
    else imagen.data
  }

  lemma DataUrlStartsWithScheme(mime: string, payload: string)
    ensures StartsWith(DataUrl(mime, payload), DataScheme)
  {
    assert DataUrl(mime, payload)[..|DataScheme|] == DataScheme;
  }

  /** Feeding a display URL back in as the stored data gives it back:
      every wrapped result already carries the `data:` prefix. */
  lemma GetImageUrlIdempotent(imagen: ImagenLocalidad)
    ensures GetImageUrl(imagen.(data := GetImageUrl(imagen))) == GetImageUrl(imagen)
  {
    var url := GetImageUrl(imagen);
    if !StartsWith(imagen.data, DataScheme) && LooksLikeBareBase64(imagen.data) {
      DataUrlStartsWithScheme(if imagen.mimeType != "" then imagen.mimeType else DefaultMime, imagen.data);
    }
  }

  // ---------------------------------------------------------------------
  // The MIME rule of base64ToBlob: arr[0].match(/:(.*?);/)?.[1] || 'image/jpeg'
  // ---------------------------------------------------------------------

  /** The characters a JavaScript `.` does not match. */
  predicate IsLineTerminator(c: char) {
    c == '\n' || c == '\r' || c == '\U{2028}' || c == '\U{2029}'
  }

  /** `s[a..b]` holds neither a `;` nor a line terminator. */
  predicate PlainBetween(s: string, a: nat, b: nat)
    requires a <= b <= |s|
  {
    forall k :: a <= k < b ==> s[k] != ';' && !IsLineTerminator(s[k])
  }

  /** Where the lazy `(.*?);` starting at `j` ends: the first `;` at or
      after `j`, provided no line terminator comes first. */
  function SemicolonFrom(s: string, j: nat): (r: Option<nat>)
    requires j <= |s|
    ensures r.Some? ==> j <= r.value < |s| && s[r.value] == ';' && PlainBetween(s, j, r.value)
    ensures r.None? ==> forall k :: j <= k < |s| && s[k] == ';' ==> !PlainBetween(s, j, k)
    decreases |s| - j
  {
    if j == |s| then None
    else if s[j] == ';' then Some(j)
    else if IsLineTerminator(s[j]) then None
    else SemicolonFrom(s, j + 1)
  }

  /** The first capture group of `lit(.*?);` searched from position `p`
      on, leftmost match first. */
  function CaptureFrom(s: string, lit: string, p: nat): (r: Option<string>)
    requires p <= |s|
    ensures r.Some? ==> forall k :: 0 <= k < |r.value| ==> r.value[k] != ';' && !IsLineTerminator(r.value[k])
    decreases |s| - p
  {
    if p + |lit| > |s| then None
    else if s[p..p + |lit|] == lit && SemicolonFrom(s, p + |lit|).Some? then
      Some(s[p + |lit|..SemicolonFrom(s, p + |lit|).value])
    else if p == |s| then None
    else CaptureFrom(s, lit, p + 1)
  }

  /** `s.split(sep)[0]`: everything before the first `sep`. */
  function BeforeFirst(s: string, sep: char): (r: string)
    ensures |r| <= |s| && s[..|r|] == r && sep !in r
    ensures |r| < |s| ==> s[|r|] == sep
  {
    if s == [] || s[0] == sep then "" else [s[0]] + BeforeFirst(s[1..], sep)
  }

  /** `s.split(sep)[1]`: the text between the first and the second `sep`,
      or None when `s` holds no `sep` (the element is then `undefined`,
      which `atob` rejects). */
  function SecondField(s: string, sep: char): (r: Option<string>)
    ensures r.None? <==> sep !in s
    ensures r.Some? ==> sep !in r.value
  {
    var head := BeforeFirst(s, sep);
    if |head| < |s| then Some(BeforeFirst(s[|head| + 1..], sep)) else None
  }

  /** Text without the separator is its own first field. */
  lemma BeforeFirstWithoutSep(s: string, sep: char)
    requires sep !in s
    ensures BeforeFirst(s, sep) == s
  {
  }

  /** The MIME type `base64ToBlob` gives its blob. */
  function MimeOfDataUrl(base64: string): (mime: string)
    ensures mime != ""
  {
    var header := BeforeFirst(base64, ',');
    var group := CaptureFrom(header, ":", 0);
    if group.Some? && group.value != "" then group.value else DefaultMime
  }

  /** A MIME type that survives the round trip: non-empty and free of the
      characters that delimit the header of a data URL. */
  predicate PlainMime(t: string) {
    t != "" && forall k :: 0 <= k < |t| ==> t[k] != ',' && t[k] != ';' && !IsLineTerminator(t[k])
  }

  /** Reading the header of a data URL built by `DataUrl` gives back the
      type it was built with; the field `atob` decodes is the payload up to
      its own first comma, so a comma-free payload comes back whole. */
  lemma DataUrlMimeRoundTrip(t: string, payload: string)
    requires PlainMime(t)
    ensures MimeOfDataUrl(DataUrl(t, payload)) == t
    ensures SecondField(DataUrl(t, payload), ',') == Some(BeforeFirst(payload, ','))
    ensures ',' !in payload ==> SecondField(DataUrl(t, payload), ',') == Some(payload)
  {
    DataUrlSplitsAtComma(t, payload);
    HeaderCapturesMime(t);
    if ',' !in payload {
      BeforeFirstWithoutSep(payload, ',');
    }
  }

  /** The first comma of a data URL built by `DataUrl` ends its header. */
  lemma DataUrlSplitsAtComma(t: string, payload: string)
    requires PlainMime(t)
    ensures BeforeFirst(DataUrl(t, payload), ',') == "data:" + t + ";base64"
    ensures SecondField(DataUrl(t, payload), ',') == Some(BeforeFirst(payload, ','))
  {
    var header := "data:" + t + ";base64";
    var url := DataUrl(t, payload);
    assert url == header + "," + payload;
    BeforeFirstOfJoin(header, payload, ',');
    assert url[|header| + 1..] == payload;
  }

  /** The capture after "data:" in a built header is the type. */
  lemma HeaderCapturesMime(t: string)
    requires PlainMime(t)
    ensures CaptureFrom("data:" + t + ";base64", ":", 0) == Some(t)
  {
    var header := "data:" + t + ";base64";
    var semi := 5 + |t|;
    assert header[semi] == ';';
    assert forall k :: 5 <= k < semi ==> header[k] == t[k - 5];
    SemicolonAt(header, 5, semi);
    assert header[0] == 'd' && header[1] == 'a' && header[2] == 't' && header[3] == 'a' && header[4] == ':';
    assert header[4..5] == ":";
    assert header[5..semi] == t;
    assert CaptureFrom(header, ":", 4) == Some(t);
    assert header[3..4] != ":";
    assert CaptureFrom(header, ":", 3) == Some(t);
    assert header[2..3] != ":";
    assert CaptureFrom(header, ":", 2) == Some(t);
    assert header[1..2] != ":";
    assert CaptureFrom(header, ":", 1) == Some(t);
    assert header[0..1] != ":";
  }

  lemma {:induction false} BeforeFirstOfJoin(a: string, b: string, sep: char)
    requires sep !in a
    ensures BeforeFirst(a + [sep] + b, sep) == a
  {
    if a != [] {
      assert (a + [sep] + b)[1..] == a[1..] + [sep] + b;
      BeforeFirstOfJoin(a[1..], b, sep);
    }
  }

  lemma {:induction false} SemicolonAt(s: string, j: nat, k: nat)
    requires j <= k < |s| && s[k] == ';' && PlainBetween(s, j, k)
    ensures SemicolonFrom(s, j) == Some(k)
    decreases k - j
  {
    if j < k {
      SemicolonAt(s, j + 1, k);
    }
  }

  /** What `base64ToBlob` reads back from a wrapped display URL is the type
      `getImageUrl` wrapped it with and the stored payload up to its first
      comma: all of it for base64 text, which has no comma. */
  lemma GetImageUrlRoundTrip(imagen: ImagenLocalidad)
    requires !StartsWith(imagen.data, DataScheme) && LooksLikeBareBase64(imagen.data)
    requires imagen.mimeType == "" || PlainMime(imagen.mimeType)
    ensures MimeOfDataUrl(GetImageUrl(imagen)) == (if imagen.mimeType != "" then imagen.mimeType else DefaultMime)
    ensures SecondField(GetImageUrl(imagen), ',') == Some(BeforeFirst(imagen.data, ','))
    ensures ',' !in imagen.data ==> SecondField(GetImageUrl(imagen), ',') == Some(imagen.data)
  {
    DataUrlMimeRoundTrip(if imagen.mimeType != "" then imagen.mimeType else DefaultMime, imagen.data);
  }
}
