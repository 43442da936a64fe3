/** The locality repository (src/utils/localidadIndexedDB.ts): a
    create/read/update/delete layer over the `localidades` table, the
    change history embedded in each record, and the one-time import of the
    legacy flat list. The table is an in-memory map from id to record;
    clocks and fresh ids are parameters. */
module LocalidadStore {
  import opened Common
  import opened Schema

  // ---------------------------------------------------------------------
  // saveLocalidad: the two ways a record is written
  // ---------------------------------------------------------------------

  /** `{...existe, ...localidad, fechaActualizacion: ahora}`. */
  function Merge(existe: Localidad, p: LocalidadParcial, ahora: string): Localidad {
    Localidad(
      id := if p.id.Some? then p.id.value else existe.id,
      nombre := if p.nombre.Some? then p.nombre.value else existe.nombre,
      pais := if p.pais.Some? then p.pais.value else existe.pais,
      provincia := if p.provincia.Some? then p.provincia.value else existe.provincia,
      ciudad := if p.ciudad.Some? then p.ciudad.value else existe.ciudad,
      tipo := if p.tipo.Some? then p.tipo.value else existe.tipo,
      categoria := if p.categoria.Some? then p.categoria.value else existe.categoria,
      descripcion := if p.descripcion.Some? then p.descripcion.value else existe.descripcion,
      descripcionCorta := if p.descripcionCorta.Some? then p.descripcionCorta.value else existe.descripcionCorta,
      accesibilidad := if p.accesibilidad.Some? then p.accesibilidad.value else existe.accesibilidad,
      ubicacion := if p.ubicacion.Some? then p.ubicacion.value else existe.ubicacion,
      coordenadas := if p.coordenadas.Some? then p.coordenadas.value else existe.coordenadas,
      altitud := if p.altitud.Some? then p.altitud.value else existe.altitud,
      clima := if p.clima.Some? then p.clima.value else existe.clima,
      infraestructura := if p.infraestructura.Some? then p.infraestructura.value else existe.infraestructura,
      serviciosBasicos := if p.serviciosBasicos.Some? then p.serviciosBasicos.value else existe.serviciosBasicos,
      serviciosTuristicos := if p.serviciosTuristicos.Some? then p.serviciosTuristicos.value else existe.serviciosTuristicos,
      capacidadMaxima := if p.capacidadMaxima.Some? then p.capacidadMaxima.value else existe.capacidadMaxima,
      temporadaAlta := if p.temporadaAlta.Some? then p.temporadaAlta.value else existe.temporadaAlta,
      temporadaBaja := if p.temporadaBaja.Some? then p.temporadaBaja.value else existe.temporadaBaja,
      seguridad := if p.seguridad.Some? then p.seguridad.value else existe.seguridad,
      medicinaEmergencia := if p.medicinaEmergencia.Some? then p.medicinaEmergencia.value else existe.medicinaEmergencia,
      comunicaciones := if p.comunicaciones.Some? then p.comunicaciones.value else existe.comunicaciones,
      reportes := if p.reportes.Some? then p.reportes.value else existe.reportes,
      certificaciones := if p.certificaciones.Some? then p.certificaciones.value else existe.certificaciones,
      tarifas := if p.tarifas.Some? then p.tarifas.value else existe.tarifas,
      idiomas := if p.idiomas.Some? then p.idiomas.value else existe.idiomas,
      contactoEmergencia := if p.contactoEmergencia.Some? then p.contactoEmergencia.value else existe.contactoEmergencia,
      sitioWeb := if p.sitioWeb.Some? then p.sitioWeb.value else existe.sitioWeb,
      redesSociales := if p.redesSociales.Some? then p.redesSociales.value else existe.redesSociales,
      precioPorPersona := if p.precioPorPersona.Some? then p.precioPorPersona.value else existe.precioPorPersona,
      imagenes := if p.imagenes.Some? then p.imagenes.value else existe.imagenes,
      horarios := if p.horarios.Some? then p.horarios.value else existe.horarios,
      publicada := if p.publicada.Some? then p.publicada.value else existe.publicada,
      fechaCreacion := if p.fechaCreacion.Some? then p.fechaCreacion.value else existe.fechaCreacion,
      fechaActualizacion := ahora,
      createdBy := if p.createdBy.Some? then p.createdBy.value else existe.createdBy,
      historial := if p.historial.Some? then p.historial.value else existe.historial,
      status := if p.status.Some? then p.status.value else existe.status)
  }

  /** The fully defaulted record `saveLocalidad` creates for a new id. */
  function Create(p: LocalidadParcial, ahora: string): Localidad
    requires p.id.Some?
  {
    Localidad(
      id := p.id.value,
      nombre := p.nombre.GetOr(""),
      pais := p.pais.GetOr(""),
      provincia := p.provincia.GetOr(""),
      ciudad := p.ciudad.GetOr(""),
      tipo := p.tipo.GetOr(""),
      categoria := p.categoria.GetOr(""),
      descripcion := p.descripcion.GetOr(""),
      descripcionCorta := p.descripcionCorta.GetOr(""),
      accesibilidad := p.accesibilidad.GetOr(""),
      ubicacion := p.ubicacion.GetOr(""),
      coordenadas := p.coordenadas.GetOr(""),
      altitud := p.altitud.GetOr(""),
      clima := p.clima.GetOr(""),
      infraestructura := p.infraestructura.GetOr(""),
      serviciosBasicos := p.serviciosBasicos.GetOr(""),
      serviciosTuristicos := p.serviciosTuristicos.GetOr(""),
      capacidadMaxima := p.capacidadMaxima.GetOr(""),
      temporadaAlta := p.temporadaAlta.GetOr(""),
      temporadaBaja := p.temporadaBaja.GetOr(""),
      seguridad := p.seguridad.GetOr(""),
      medicinaEmergencia := p.medicinaEmergencia.GetOr(""),
      comunicaciones := p.comunicaciones.GetOr(""),
      reportes := p.reportes.GetOr(""),
      certificaciones := p.certificaciones.GetOr(""),
      tarifas := p.tarifas.GetOr(""),
      idiomas := p.idiomas.GetOr([]),
      contactoEmergencia := p.contactoEmergencia.GetOr(""),
      sitioWeb := p.sitioWeb.GetOr(""),
      redesSociales := p.redesSociales.GetOr(""),
      precioPorPersona := p.precioPorPersona.GetOr(0),
      imagenes := p.imagenes.GetOr([]),
      horarios := p.horarios.GetOr([]),
      publicada := p.publicada.GetOr(false),
      fechaCreacion := ahora,
      fechaActualizacion := ahora,
      createdBy := if p.createdBy.Some? && p.createdBy.value != "" then p.createdBy.value else "Admin",
      historial := p.historial.GetOr([]),
      status := p.status.GetOr(Draft))
  }

  /** The value each key takes when a new record is created without it. */
  function ValorPorDefecto(c: Campo): Valor {
    match c
    case Id => Texto("")
    case Nombre => Texto("")
    case Pais => Texto("")
    case Provincia => Texto("")
    case Ciudad => Texto("")
    case Tipo => Texto("")
    case Categoria => Texto("")
    case Descripcion => Texto("")
    case DescripcionCorta => Texto("")
    case Accesibilidad => Texto("")
    case Ubicacion => Texto("")
    case Coordenadas => Texto("")
    case Altitud => Texto("")
    case Clima => Texto("")
    case Infraestructura => Texto("")
    case ServiciosBasicos => Texto("")
    case ServiciosTuristicos => Texto("")
    case CapacidadMaxima => Texto("")
    case TemporadaAlta => Texto("")
    case TemporadaBaja => Texto("")
    case Seguridad => Texto("")
    case MedicinaEmergencia => Texto("")
    case Comunicaciones => Texto("")
    case Reportes => Texto("")
    case Certificaciones => Texto("")
    case Tarifas => Texto("")
    case Idiomas => Textos([])
    case ContactoEmergencia => Texto("")
    case SitioWeb => Texto("")
    case RedesSociales => Texto("")
    case PrecioPorPersona => Numero(0)
    case Imagenes => Fotos([])
    case Horarios => Turnos([])
    case Publicada => Logico(false)
    case FechaCreacion => Texto("")
    case FechaActualizacion => Texto("")
    case CreatedBy => Texto("")
    case Historial => Cambios([])
    case Status => Estado(Draft)
  }

  /** An update overwrites exactly the keys the partial record carries,
      keeps every other field of the stored record, and stamps the update
      time. */
  lemma MergeOverwritesPresentKeys(existe: Localidad, p: LocalidadParcial, ahora: string, c: Campo)
    ensures c != FechaActualizacion ==>
      CampoDe(Merge(existe, p, ahora), c) == CampoParcial(p, c).GetOr(CampoDe(existe, c))
    ensures Merge(existe, p, ahora).fechaActualizacion == ahora
  {
    match c {
      case Id | Nombre | Pais | Provincia | Ciudad | Tipo => MergeOverwritesPresentKeysA(existe, p, ahora, c);
      case Categoria | Descripcion | DescripcionCorta | Accesibilidad | Ubicacion | Coordenadas => MergeOverwritesPresentKeysB(existe, p, ahora, c);
      case Altitud | Clima | Infraestructura | ServiciosBasicos | ServiciosTuristicos | CapacidadMaxima => MergeOverwritesPresentKeysC(existe, p, ahora, c);
      case TemporadaAlta | TemporadaBaja | Seguridad | MedicinaEmergencia | Comunicaciones | Reportes => MergeOverwritesPresentKeysD(existe, p, ahora, c);
      case Certificaciones | Tarifas | Idiomas | ContactoEmergencia | SitioWeb | RedesSociales => MergeOverwritesPresentKeysE(existe, p, ahora, c);
      case PrecioPorPersona | Imagenes | Horarios | Publicada | FechaCreacion | CreatedBy => MergeOverwritesPresentKeysF(existe, p, ahora, c);
      case Historial | Status => MergeOverwritesPresentKeysG(existe, p, ahora, c);
      case FechaActualizacion =>
    }
  }

  lemma MergeOverwritesPresentKeysA(existe: Localidad, p: LocalidadParcial, ahora: string, c: Campo)
    requires c.Id? || c.Nombre? || c.Pais? || c.Provincia? || c.Ciudad? || c.Tipo?
    ensures CampoDe(Merge(existe, p, ahora), c) == CampoParcial(p, c).GetOr(CampoDe(existe, c))
  {
  }

  lemma MergeOverwritesPresentKeysB(existe: Localidad, p: LocalidadParcial, ahora: string, c: Campo)
    requires c.Categoria? || c.Descripcion? || c.DescripcionCorta? || c.Accesibilidad? || c.Ubicacion? || c.Coordenadas?
    ensures CampoDe(Merge(existe, p, ahora), c) == CampoParcial(p, c).GetOr(CampoDe(existe, c))
  {
  }

  lemma MergeOverwritesPresentKeysC(existe: Localidad, p: LocalidadParcial, ahora: string, c: Campo)
    requires c.Altitud? || c.Clima? || c.Infraestructura? || c.ServiciosBasicos? || c.ServiciosTuristicos? || c.CapacidadMaxima?
    ensures CampoDe(Merge(existe, p, ahora), c) == CampoParcial(p, c).GetOr(CampoDe(existe, c))
  {
  }

  lemma MergeOverwritesPresentKeysD(existe: Localidad, p: LocalidadParcial, ahora: string, c: Campo)
    requires c.TemporadaAlta? || c.TemporadaBaja? || c.Seguridad? || c.MedicinaEmergencia? || c.Comunicaciones? || c.Reportes?
    ensures CampoDe(Merge(existe, p, ahora), c) == CampoParcial(p, c).GetOr(CampoDe(existe, c))
  {
  }

  lemma MergeOverwritesPresentKeysE(existe: Localidad, p: LocalidadParcial, ahora: string, c: Campo)
    requires c.Certificaciones? || c.Tarifas? || c.Idiomas? || c.ContactoEmergencia? || c.SitioWeb? || c.RedesSociales?
    ensures CampoDe(Merge(existe, p, ahora), c) == CampoParcial(p, c).GetOr(CampoDe(existe, c))
  {
  }

  lemma MergeOverwritesPresentKeysF(existe: Localidad, p: LocalidadParcial, ahora: string, c: Campo)
    requires c.PrecioPorPersona? || c.Imagenes? || c.Horarios? || c.Publicada? || c.FechaCreacion? || c.CreatedBy?
    ensures CampoDe(Merge(existe, p, ahora), c) == CampoParcial(p, c).GetOr(CampoDe(existe, c))
  {
  }

  lemma MergeOverwritesPresentKeysG(existe: Localidad, p: LocalidadParcial, ahora: string, c: Campo)
    requires c.Historial? || c.Status?
    ensures CampoDe(Merge(existe, p, ahora), c) == CampoParcial(p, c).GetOr(CampoDe(existe, c))
  {
  }


  /** A created record takes each key from the partial record when present
      and the default otherwise. */
  lemma CreateFillsDefaults(p: LocalidadParcial, ahora: string, c: Campo)
    requires p.id.Some?
    ensures c != FechaCreacion && c != FechaActualizacion && c != CreatedBy ==>
      CampoDe(Create(p, ahora), c) == CampoParcial(p, c).GetOr(ValorPorDefecto(c))
  {
    match c {
      case Id | Nombre | Pais | Provincia | Ciudad | Tipo => CreateFillsDefaultsA(p, ahora, c);
      case Categoria | Descripcion | DescripcionCorta | Accesibilidad | Ubicacion | Coordenadas => CreateFillsDefaultsB(p, ahora, c);
      case Altitud | Clima | Infraestructura | ServiciosBasicos | ServiciosTuristicos | CapacidadMaxima => CreateFillsDefaultsC(p, ahora, c);
      case TemporadaAlta | TemporadaBaja | Seguridad | MedicinaEmergencia | Comunicaciones | Reportes => CreateFillsDefaultsD(p, ahora, c);
      case Certificaciones | Tarifas | Idiomas | ContactoEmergencia | SitioWeb | RedesSociales => CreateFillsDefaultsE(p, ahora, c);
      case PrecioPorPersona | Imagenes | Horarios | Publicada | Historial | Status => CreateFillsDefaultsF(p, ahora, c);
      case FechaCreacion | FechaActualizacion | CreatedBy =>
    }
  }

  lemma CreateFillsDefaultsA(p: LocalidadParcial, ahora: string, c: Campo)
    requires p.id.Some?
    requires c.Id? || c.Nombre? || c.Pais? || c.Provincia? || c.Ciudad? || c.Tipo?
    ensures CampoDe(Create(p, ahora), c) == CampoParcial(p, c).GetOr(ValorPorDefecto(c))
  {
  }

  lemma CreateFillsDefaultsB(p: LocalidadParcial, ahora: string, c: Campo)
    requires p.id.Some?
    requires c.Categoria? || c.Descripcion? || c.DescripcionCorta? || c.Accesibilidad? || c.Ubicacion? || c.Coordenadas?
    ensures CampoDe(Create(p, ahora), c) == CampoParcial(p, c).GetOr(ValorPorDefecto(c))
  {
  }

  lemma CreateFillsDefaultsC(p: LocalidadParcial, ahora: string, c: Campo)
    requires p.id.Some?
    requires c.Altitud? || c.Clima? || c.Infraestructura? || c.ServiciosBasicos? || c.ServiciosTuristicos? || c.CapacidadMaxima?
    ensures CampoDe(Create(p, ahora), c) == CampoParcial(p, c).GetOr(ValorPorDefecto(c))
  {
  }

  lemma CreateFillsDefaultsD(p: LocalidadParcial, ahora: string, c: Campo)
    requires p.id.Some?
    requires c.TemporadaAlta? || c.TemporadaBaja? || c.Seguridad? || c.MedicinaEmergencia? || c.Comunicaciones? || c.Reportes?
    ensures CampoDe(Create(p, ahora), c) == CampoParcial(p, c).GetOr(ValorPorDefecto(c))
  {
  }

  lemma CreateFillsDefaultsE(p: LocalidadParcial, ahora: string, c: Campo)
    requires p.id.Some?
    requires c.Certificaciones? || c.Tarifas? || c.Idiomas? || c.ContactoEmergencia? || c.SitioWeb? || c.RedesSociales?
    ensures CampoDe(Create(p, ahora), c) == CampoParcial(p, c).GetOr(ValorPorDefecto(c))
  {
  }

  lemma CreateFillsDefaultsF(p: LocalidadParcial, ahora: string, c: Campo)
    requires p.id.Some?
    requires c.PrecioPorPersona? || c.Imagenes? || c.Horarios? || c.Publicada? || c.Historial? || c.Status?
    ensures CampoDe(Create(p, ahora), c) == CampoParcial(p, c).GetOr(ValorPorDefecto(c))
  {
  }


  /** Both timestamps of a created record are the creation time, and an
      empty or missing creator becomes "Admin". */
  lemma CreateStamps(p: LocalidadParcial, ahora: string)
    requires p.id.Some?
    ensures Create(p, ahora).fechaCreacion == Create(p, ahora).fechaActualizacion == ahora
    ensures Create(p, ahora).createdBy == (if p.createdBy.Some? && p.createdBy.value != "" then p.createdBy.value else "Admin")
  {
  }

  /** The partial record `{ id }` and nothing else. */
  function SoloId(id: string): LocalidadParcial {
    LocalidadParcial(
      id := Some(id),
      nombre := None,
      pais := None,
      provincia := None,
      ciudad := None,
      tipo := None,
      categoria := None,
      descripcion := None,
      descripcionCorta := None,
      accesibilidad := None,
      ubicacion := None,
      coordenadas := None,
      altitud := None,
      clima := None,
      infraestructura := None,
      serviciosBasicos := None,
      serviciosTuristicos := None,
      capacidadMaxima := None,
      temporadaAlta := None,
      temporadaBaja := None,
      seguridad := None,
      medicinaEmergencia := None,
      comunicaciones := None,
      reportes := None,
      certificaciones := None,
      tarifas := None,
      idiomas := None,
      contactoEmergencia := None,
      sitioWeb := None,
      redesSociales := None,
      precioPorPersona := None,
      imagenes := None,
      horarios := None,
      publicada := None,
      fechaCreacion := None,
      fechaActualizacion := None,
      createdBy := None,
      historial := None,
      status := None)
  }

  /** A record created from nothing but an id: a draft, not published, with
      no languages, images, schedules or history, price 0, made by
      "Admin". */
  lemma CreateFromIdOnly(id: string, ahora: string)
    ensures var l := Create(SoloId(id), ahora);
      && l.id == id
      && l.status == Draft && !l.publicada
      && l.idiomas == [] && l.imagenes == [] && l.horarios == [] && l.historial == []
      && l.precioPorPersona == 0 && l.nombre == ""
      && l.createdBy == "Admin"
      && l.fechaCreacion == l.fechaActualizacion == ahora
  {
  }

  datatype SaveError = IdRequerido

  // ---------------------------------------------------------------------
  // History entries
  // ---------------------------------------------------------------------

  /** What a caller of `agregarCambioHistorial` supplies. */
  datatype CambioSolicitado = CambioSolicitado(
    campo: string, valorAnterior: Dato, valorNuevo: Dato, usuario: string, accion: Accion)

  function NuevoCambio(cambioId: string, localidadId: string, ahora: string, cambio: CambioSolicitado): HistorialCambio {
    HistorialCambio(cambioId, localidadId, ahora, Some(cambio.campo),
                    cambio.valorAnterior, cambio.valorNuevo, cambio.usuario, cambio.accion)
  }

  /** The record with a new history and update time, all else kept. */
  function ConHistorial(l: Localidad, historial: seq<HistorialCambio>, fecha: string): Localidad {
    l.(historial := historial, fechaActualizacion := fecha)
  }

  /** The record after `entrada` is put at the head of its history. */
  function ConCambio(l: Localidad, entrada: HistorialCambio, ahora: string): Localidad {
    ConHistorial(l, [entrada] + l.historial, ahora)
  }

  /** Rewriting the history twice keeps only the second rewrite. */
  lemma ConHistorialTwice(l: Localidad, h1: seq<HistorialCambio>, f1: string, h2: seq<HistorialCambio>, f2: string)
    ensures ConHistorial(ConHistorial(l, h1, f1), h2, f2) == ConHistorial(l, h2, f2)
  {
  }

  /** Prepending an entry grows the history by one, keeps the older entries
      in order behind it, and touches no other field but the update time. */
  lemma ConCambioPrepends(l: Localidad, entrada: HistorialCambio, ahora: string)
    ensures var r := ConCambio(l, entrada, ahora);
      && |r.historial| == |l.historial| + 1
      && r.historial[0] == entrada
      && r.historial[1..] == l.historial
      && r.fechaActualizacion == ahora
      && forall c :: c != Historial && c != FechaActualizacion ==> CampoDe(r, c) == CampoDe(l, c)
  {
  }

  // ---------------------------------------------------------------------
  // updateLocalidadStatus
  // ---------------------------------------------------------------------

  /** The history entry of a status change. */
  function CambioDeEstado(anterior: LocalidadStatus, nuevo: LocalidadStatus, usuario: string): CambioSolicitado {
    CambioSolicitado("status", Cadena(StatusName(anterior)), Cadena(StatusName(nuevo)), usuario,
                     if nuevo == LocalidadStatus.Published then Accion.Published else Updated)
  }

  /** Whether a status write is logged: the status changed and a
      non-empty acting user was given. */
  predicate RegistraEstado(anterior: LocalidadStatus, nuevo: LocalidadStatus, usuario: Option<string>) {
    anterior != nuevo && usuario.Some? && usuario.value != ""
  }

  /** The record after `updateLocalidadStatus(l.id, status, usuario)`. */
  function ConEstado(l: Localidad, status: LocalidadStatus, usuario: Option<string>,
                     ahora: string, cambioId: string): Localidad
  {
    var actualizada := l.(status := status, publicada := status == LocalidadStatus.Published,
                          fechaActualizacion := ahora);
    if RegistraEstado(l.status, status, usuario) then
      ConCambio(actualizada, NuevoCambio(cambioId, l.id, ahora, CambioDeEstado(l.status, status, usuario.value)), ahora)
    else actualizada
  }

  /** A status write sets `status`, keeps `publicada` equal to
      `status == published`, stamps the update time and leaves every
      descriptive field alone; the history gains exactly one entry, a
      "published" one when the new status is published and an "updated"
      one for any other status, exactly when the status changed and a user
      was named. */
  lemma ConEstadoSpec(l: Localidad, status: LocalidadStatus, usuario: Option<string>,
                      ahora: string, cambioId: string)
    ensures var r := ConEstado(l, status, usuario, ahora, cambioId);
      && r.status == status
      && r.publicada == (status == LocalidadStatus.Published)
      && r.fechaActualizacion == ahora
      && (forall c :: c !in {Status, Publicada, FechaActualizacion, Historial} ==> CampoDe(r, c) == CampoDe(l, c))
      && |r.historial| == |l.historial| + (if RegistraEstado(l.status, status, usuario) then 1 else 0)
      && r.historial[|r.historial| - |l.historial|..] == l.historial
      && (RegistraEstado(l.status, status, usuario) ==>
            && r.historial[0].campoModificado == Some("status")
            && r.historial[0].localidadId == l.id
            && r.historial[0].usuario == usuario.value
            && r.historial[0].valorAnterior == Cadena(StatusName(l.status))
            && r.historial[0].valorNuevo == Cadena(StatusName(status))
            && r.historial[0].id == cambioId
            && r.historial[0].fecha == ahora
            && r.historial[0].accion == (if status == LocalidadStatus.Published then Accion.Published else Accion.Updated))
  {
  }

  // ---------------------------------------------------------------------
  // registrarCambiosDesdeComparacion
  // ---------------------------------------------------------------------

  /** The 31 keys the comparison looks at, in the order it visits them. */
  const CamposAComparar: seq<Campo> :=
    [
      Nombre, Pais, Provincia, Ciudad, Tipo, Categoria,
      Descripcion, DescripcionCorta, Accesibilidad, Ubicacion, Coordenadas, Altitud,
      Clima, Infraestructura, ServiciosBasicos, ServiciosTuristicos, CapacidadMaxima, TemporadaAlta,
      TemporadaBaja, Seguridad, MedicinaEmergencia, Comunicaciones, Reportes, Certificaciones,
      Tarifas, Idiomas, ContactoEmergencia, SitioWeb, RedesSociales, PrecioPorPersona,
      Status
    ]

  /** `String(campo)`: the key as written in the record type. */
  function CampoName(c: Campo): string {
    match c
    case Id => "id"
    case Nombre => "nombre"
    case Pais => "pais"
    case Provincia => "provincia"
    case Ciudad => "ciudad"
    case Tipo => "tipo"
    case Categoria => "categoria"
    case Descripcion => "descripcion"
    case DescripcionCorta => "descripcionCorta"
    case Accesibilidad => "accesibilidad"
    case Ubicacion => "ubicacion"
    case Coordenadas => "coordenadas"
    case Altitud => "altitud"
    case Clima => "clima"
    case Infraestructura => "infraestructura"
    case ServiciosBasicos => "serviciosBasicos"
    case ServiciosTuristicos => "serviciosTuristicos"
    case CapacidadMaxima => "capacidadMaxima"
    case TemporadaAlta => "temporadaAlta"
    case TemporadaBaja => "temporadaBaja"
    case Seguridad => "seguridad"
    case MedicinaEmergencia => "medicinaEmergencia"
    case Comunicaciones => "comunicaciones"
    case Reportes => "reportes"
    case Certificaciones => "certificaciones"
    case Tarifas => "tarifas"
    case Idiomas => "idiomas"
    case ContactoEmergencia => "contactoEmergencia"
    case SitioWeb => "sitioWeb"
    case RedesSociales => "redesSociales"
    case PrecioPorPersona => "precioPorPersona"
    case Imagenes => "imagenes"
    case Horarios => "horarios"
    case Publicada => "publicada"
    case FechaCreacion => "fechaCreacion"
    case FechaActualizacion => "fechaActualizacion"
    case CreatedBy => "createdBy"
    case Historial => "historial"
    case Status => "status"
  }

  /** `valor === undefined || valor === null ? '' : valor`, for the kinds
      of value the compared keys hold. */
  function Normalizado(v: Option<Valor>): Dato {
    match v
    case None => Cadena("")
    case Some(Texto(s)) => Cadena(s)
    case Some(Textos(ss)) => Lista(ss)
    case Some(Numero(n)) => Cifra(n)
    case Some(Estado(st)) => Cadena(StatusName(st))
    // No compared key holds a flag, images, schedules or history.
    case Some(_) => Indefinido
  }

  /** `typeof v === 'string' ? v : String(v || '')`: 0 reads as falsy and
      becomes "", a list is joined with commas. */
  function ComoCadena(d: Dato): string {
    match d
    case Cadena(s) => s
    case Cifra(n) => if n == 0 then "" else IntToString(n)
    case Lista(items) => Join(items, ",")
    case Indefinido => ""
  }

  /** The entry the comparison logs for key `c`, if its normalised values
      differ: two lists are compared element-wise and logged as lists;
      otherwise the values are compared strictly (a list never equals a
      string) and logged as strings. */
  function Diferencia(antes: LocalidadParcial, despues: LocalidadParcial, c: Campo, usuario: string): (r: Option<CambioSolicitado>)
    ensures r.Some? <==> Normalizado(CampoParcial(antes, c)) != Normalizado(CampoParcial(despues, c))
    ensures r.Some? ==> r.value.campo == CampoName(c) && r.value.accion == Updated && r.value.usuario == usuario
  {
    var a := Normalizado(CampoParcial(antes, c));
    var b := Normalizado(CampoParcial(despues, c));
    if a.Lista? && b.Lista? then
      if a != b then Some(CambioSolicitado(CampoName(c), a, b, usuario, Updated)) else None
    else if a != b then
      Some(CambioSolicitado(CampoName(c), Cadena(ComoCadena(a)), Cadena(ComoCadena(b)), usuario, Updated))
    else None
  }

  /** The difference the comparison finds for each key of `campos`, in order. */
  function Diferencias(antes: LocalidadParcial, despues: LocalidadParcial, campos: seq<Campo>, usuario: string)
    : (ds: seq<Option<CambioSolicitado>>)
    ensures |ds| == |campos|
    ensures forall i :: 0 <= i < |campos| ==> ds[i] == Diferencia(antes, despues, campos[i], usuario)
  {
    seq(|campos|, i requires 0 <= i < |campos| => Diferencia(antes, despues, campos[i], usuario))
  }

  /** The record after the comparison has gone through the first `k`
      differences `ds`, each difference found prepending one entry. */
  function TrasComparar(l: Localidad, localidadId: string, ds: seq<Option<CambioSolicitado>>,
                        cambioIds: seq<string>, ahora: string, k: nat): Localidad
    requires k <= |ds| <= |cambioIds|
  {
    if k == 0 then l
    else
      var previa := TrasComparar(l, localidadId, ds, cambioIds, ahora, k - 1);
      if ds[k - 1].Some? then ConCambio(previa, NuevoCambio(cambioIds[k - 1], localidadId, ahora, ds[k - 1].value), ahora)
      else previa
  }

  /** The entries the first `k` differences contribute, newest (last found) first. */
  function EntradasNuevas(localidadId: string, ds: seq<Option<CambioSolicitado>>, cambioIds: seq<string>,
                          ahora: string, k: nat): seq<HistorialCambio>
    requires k <= |ds| <= |cambioIds|
  {
    if k == 0 then []
    else
      (if ds[k - 1].Some? then [NuevoCambio(cambioIds[k - 1], localidadId, ahora, ds[k - 1].value)] else [])
        + EntradasNuevas(localidadId, ds, cambioIds, ahora, k - 1)
  }

  /** The record `l` with `nuevas` put in front of its history, and the
      update time set, when there is anything to put. */
  function Prefijado(l: Localidad, nuevas: seq<HistorialCambio>, ahora: string): Localidad {
    if nuevas == [] then l else ConHistorial(l, nuevas + l.historial, ahora)
  }

  /** One step of the comparison: difference `k - 1`, if any, prepends an entry. */
  lemma TrasCompararPaso(l: Localidad, localidadId: string, ds: seq<Option<CambioSolicitado>>,
                         cambioIds: seq<string>, ahora: string, k: nat)
    requires 0 < k <= |ds| <= |cambioIds|
    ensures ds[k - 1].Some? ==>
      (TrasComparar(l, localidadId, ds, cambioIds, ahora, k)
       == ConCambio(TrasComparar(l, localidadId, ds, cambioIds, ahora, k - 1),
                    NuevoCambio(cambioIds[k - 1], localidadId, ahora, ds[k - 1].value), ahora))
    ensures ds[k - 1].None? ==>
      TrasComparar(l, localidadId, ds, cambioIds, ahora, k) == TrasComparar(l, localidadId, ds, cambioIds, ahora, k - 1)
  {
  }

  /** One step of the new entries: difference `k - 1`, if any, contributes one. */
  lemma EntradasNuevasPaso(localidadId: string, ds: seq<Option<CambioSolicitado>>, cambioIds: seq<string>,
                           ahora: string, k: nat)
    requires 0 < k <= |ds| <= |cambioIds|
    ensures ds[k - 1].Some? ==>
      (EntradasNuevas(localidadId, ds, cambioIds, ahora, k)
       == [NuevoCambio(cambioIds[k - 1], localidadId, ahora, ds[k - 1].value)]
          + EntradasNuevas(localidadId, ds, cambioIds, ahora, k - 1))
    ensures ds[k - 1].None? ==>
      EntradasNuevas(localidadId, ds, cambioIds, ahora, k) == EntradasNuevas(localidadId, ds, cambioIds, ahora, k - 1)
  {
    var nuevas := EntradasNuevas(localidadId, ds, cambioIds, ahora, k - 1);
    assert [] + nuevas == nuevas;
  }

  /** Prepending `e` to a record whose history already starts with `nuevas`. */
  lemma PrependTrasNuevas(l: Localidad, nuevas: seq<HistorialCambio>, e: HistorialCambio, ahora: string)
    ensures ConCambio(Prefijado(l, nuevas, ahora), e, ahora) == Prefijado(l, [e] + nuevas, ahora)
  {
    if nuevas == [] {
      assert [e] + nuevas == [e];
    } else {
      assert [e] + (nuevas + l.historial) == ([e] + nuevas) + l.historial;
      ConHistorialTwice(l, nuevas + l.historial, ahora, ([e] + nuevas) + l.historial, ahora);
    }
  }

  /** The comparison only prepends: its new entries (last difference
      first) sit in front of the old history, no other field but the
      update time changes, and that only if something was logged. */
  lemma {:induction false} TrasCompararPrepends(l: Localidad, localidadId: string, ds: seq<Option<CambioSolicitado>>,
                                                cambioIds: seq<string>, ahora: string, k: nat)
    requires k <= |ds| <= |cambioIds|
    ensures TrasComparar(l, localidadId, ds, cambioIds, ahora, k)
      == Prefijado(l, EntradasNuevas(localidadId, ds, cambioIds, ahora, k), ahora)
  {
    if k > 0 {
      TrasCompararPrepends(l, localidadId, ds, cambioIds, ahora, k - 1);
      TrasCompararPaso(l, localidadId, ds, cambioIds, ahora, k);
      EntradasNuevasPaso(localidadId, ds, cambioIds, ahora, k);
      if ds[k - 1].Some? {
        var nuevas := EntradasNuevas(localidadId, ds, cambioIds, ahora, k - 1);
        PrependTrasNuevas(l, nuevas, NuevoCambio(cambioIds[k - 1], localidadId, ahora, ds[k - 1].value), ahora);
      }
    }
  }

  /** With no difference among the first `k`, nothing is logged. */
  lemma {:induction false} SinCambiosAntes(localidadId: string, ds: seq<Option<CambioSolicitado>>, cambioIds: seq<string>,
                                           ahora: string, k: nat)
    requires k <= |ds| <= |cambioIds|
    requires forall i :: 0 <= i < k ==> ds[i].None?
    ensures EntradasNuevas(localidadId, ds, cambioIds, ahora, k) == []
  {
    if k > 0 {
      SinCambiosAntes(localidadId, ds, cambioIds, ahora, k - 1);
      EntradasNuevasPaso(localidadId, ds, cambioIds, ahora, k);
    }
  }

  /** With exactly one difference among the first `k`, exactly one entry
      is logged, for it and with its entry id. */
  lemma {:induction false} UnaSolaDiferencia(localidadId: string, ds: seq<Option<CambioSolicitado>>, cambioIds: seq<string>,
                                             ahora: string, k: nat, j: nat)
    requires j < k <= |ds| <= |cambioIds|
    requires forall i :: 0 <= i < k && i != j ==> ds[i].None?
    requires ds[j].Some?
    ensures EntradasNuevas(localidadId, ds, cambioIds, ahora, k)
         == [NuevoCambio(cambioIds[j], localidadId, ahora, ds[j].value)]
  {
    EntradasNuevasPaso(localidadId, ds, cambioIds, ahora, k);
    if k - 1 == j {
      SinCambiosAntes(localidadId, ds, cambioIds, ahora, j);
      assert [NuevoCambio(cambioIds[j], localidadId, ahora, ds[j].value)] + [] == [NuevoCambio(cambioIds[j], localidadId, ahora, ds[j].value)];
    } else {
      UnaSolaDiferencia(localidadId, ds, cambioIds, ahora, k - 1, j);
    }
  }

  /** The keys the comparison logs: those whose values differ. */
  function Difiere(antes: LocalidadParcial, despues: LocalidadParcial, usuario: string): Campo -> bool {
    c => Diferencia(antes, despues, c, usuario).Some?
  }

  /** There is one new entry per differing key among the first `k`. */
  lemma {:induction false} EntradasNuevasCuenta(localidadId: string, antes: LocalidadParcial, despues: LocalidadParcial,
                                                usuario: string, campos: seq<Campo>, cambioIds: seq<string>, ahora: string, k: nat)
    requires k <= |campos| <= |cambioIds|
    ensures |EntradasNuevas(localidadId, Diferencias(antes, despues, campos, usuario), cambioIds, ahora, k)|
         == |Filter(campos[..k], Difiere(antes, despues, usuario))|
  {
    if k > 0 {
      var ds := Diferencias(antes, despues, campos, usuario);
      EntradasNuevasCuenta(localidadId, antes, despues, usuario, campos, cambioIds, ahora, k - 1);
      EntradasNuevasPaso(localidadId, ds, cambioIds, ahora, k);
      FilterPrefixStep(campos, k, Difiere(antes, despues, usuario));
      assert ds[k - 1] == Diferencia(antes, despues, campos[k - 1], usuario);
    }
  }

  /** Each new entry is the entry for one of the first `k` differences. */
  lemma {:induction false} EntradasDeDiferencias(localidadId: string, ds: seq<Option<CambioSolicitado>>,
                                                 cambioIds: seq<string>, ahora: string, k: nat)
    requires k <= |ds| <= |cambioIds|
    ensures forall e :: e in EntradasNuevas(localidadId, ds, cambioIds, ahora, k) ==>
      exists i :: 0 <= i < k && ds[i].Some? && e == NuevoCambio(cambioIds[i], localidadId, ahora, ds[i].value)
  {
    if k > 0 {
      EntradasDeDiferencias(localidadId, ds, cambioIds, ahora, k - 1);
      EntradasNuevasPaso(localidadId, ds, cambioIds, ahora, k);
    }
  }

  /** Conversely, every difference among the first `k` keys is logged,
      under the id handed out for that key. */
  lemma {:induction false} EntradasNuevasCompletas(localidadId: string, ds: seq<Option<CambioSolicitado>>,
                                                   cambioIds: seq<string>, ahora: string, k: nat)
    requires k <= |ds| <= |cambioIds|
    ensures forall i :: 0 <= i < k && ds[i].Some? ==>
      NuevoCambio(cambioIds[i], localidadId, ahora, ds[i].value) in EntradasNuevas(localidadId, ds, cambioIds, ahora, k)
  {
    if k > 0 {
      EntradasNuevasCompletas(localidadId, ds, cambioIds, ahora, k - 1);
      EntradasNuevasPaso(localidadId, ds, cambioIds, ahora, k);
    }
  }

  /** Every new entry is an "updated" entry by `usuario` for this locality,
      naming a compared key whose values differ. */
  lemma EntradasNuevasForma(localidadId: string, antes: LocalidadParcial, despues: LocalidadParcial,
                            usuario: string, campos: seq<Campo>, cambioIds: seq<string>, ahora: string, k: nat)
    requires k <= |campos| <= |cambioIds|
    ensures forall e :: e in EntradasNuevas(localidadId, Diferencias(antes, despues, campos, usuario), cambioIds, ahora, k) ==>
      && e.accion == Updated && e.usuario == usuario && e.localidadId == localidadId && e.fecha == ahora
      && exists c :: c in campos[..k] && e.campoModificado == Some(CampoName(c))
                     && Diferencia(antes, despues, c, usuario).Some?
  {
    var ds := Diferencias(antes, despues, campos, usuario);
    EntradasDeDiferencias(localidadId, ds, cambioIds, ahora, k);
    forall e | e in EntradasNuevas(localidadId, ds, cambioIds, ahora, k)
      ensures && e.accion == Updated && e.usuario == usuario && e.localidadId == localidadId && e.fecha == ahora
              && exists c :: c in campos[..k] && e.campoModificado == Some(CampoName(c))
                             && Diferencia(antes, despues, c, usuario).Some?
    {
      var i :| 0 <= i < k && ds[i].Some? && e == NuevoCambio(cambioIds[i], localidadId, ahora, ds[i].value);
      assert ds[i] == Diferencia(antes, despues, campos[i], usuario);
      assert campos[i] in campos[..k];
    }
  }

  /** What the comparison of `antes` with `despues` logs for the first `k`
      keys: one entry per differing key and no other, each an "updated"
      entry naming its key. */
  lemma EntradasNuevasSpec(localidadId: string, antes: LocalidadParcial, despues: LocalidadParcial,
                           usuario: string, campos: seq<Campo>, cambioIds: seq<string>, ahora: string, k: nat)
    requires k <= |campos| <= |cambioIds|
    ensures var nuevas := EntradasNuevas(localidadId, Diferencias(antes, despues, campos, usuario), cambioIds, ahora, k);
      && |nuevas| == |Filter(campos[..k], Difiere(antes, despues, usuario))|
      && (forall e :: e in nuevas ==>
           && e.accion == Updated && e.usuario == usuario && e.localidadId == localidadId && e.fecha == ahora
           && exists c :: c in campos[..k] && e.campoModificado == Some(CampoName(c))
                          && Diferencia(antes, despues, c, usuario).Some?)
      && forall i :: 0 <= i < k && Diferencia(antes, despues, campos[i], usuario).Some? ==>
           NuevoCambio(cambioIds[i], localidadId, ahora, Diferencia(antes, despues, campos[i], usuario).value) in nuevas
  {
    EntradasNuevasCuenta(localidadId, antes, despues, usuario, campos, cambioIds, ahora, k);
    EntradasNuevasForma(localidadId, antes, despues, usuario, campos, cambioIds, ahora, k);
    var ds := Diferencias(antes, despues, campos, usuario);
    EntradasNuevasCompletas(localidadId, ds, cambioIds, ahora, k);
  }

  /** Comparing a record with itself logs nothing. */
  lemma SinCambiosSinEntradas(localidadId: string, p: LocalidadParcial, usuario: string,
                              campos: seq<Campo>, cambioIds: seq<string>, ahora: string)
    requires |campos| <= |cambioIds|
    ensures EntradasNuevas(localidadId, Diferencias(p, p, campos, usuario), cambioIds, ahora, |campos|) == []
  {
    var ds := Diferencias(p, p, campos, usuario);
    forall i | 0 <= i < |campos| ensures ds[i].None? {
      assert ds[i] == Diferencia(p, p, campos[i], usuario);
    }
    SinCambiosAntes(localidadId, ds, cambioIds, ahora, |campos|);
  }

  /** Setting the name leaves every other key of a partial record alone. */
  lemma OtroCampoIgual(p: LocalidadParcial, a: Option<string>, b: Option<string>, c: Campo)
    requires c != Nombre
    ensures CampoParcial(p.(nombre := a), c) == CampoParcial(p.(nombre := b), c)
  {
    match c {
      case Id | Pais | Provincia | Ciudad | Tipo | Categoria => OtroCampoIgualA(p, a, b, c);
      case Descripcion | DescripcionCorta | Accesibilidad | Ubicacion | Coordenadas | Altitud => OtroCampoIgualB(p, a, b, c);
      case Clima | Infraestructura | ServiciosBasicos | ServiciosTuristicos | CapacidadMaxima | TemporadaAlta => OtroCampoIgualC(p, a, b, c);
      case TemporadaBaja | Seguridad | MedicinaEmergencia | Comunicaciones | Reportes | Certificaciones => OtroCampoIgualD(p, a, b, c);
      case Tarifas | Idiomas | ContactoEmergencia | SitioWeb | RedesSociales | PrecioPorPersona => OtroCampoIgualE(p, a, b, c);
      case Imagenes | Horarios | Publicada | FechaCreacion | FechaActualizacion | CreatedBy => OtroCampoIgualF(p, a, b, c);
      case Historial | Status => OtroCampoIgualG(p, a, b, c);
      case Nombre =>
    }
  }

  lemma OtroCampoIgualA(p: LocalidadParcial, a: Option<string>, b: Option<string>, c: Campo)
    requires c.Id? || c.Pais? || c.Provincia? || c.Ciudad? || c.Tipo? || c.Categoria?
    ensures CampoParcial(p.(nombre := a), c) == CampoParcial(p.(nombre := b), c)
  {
  }

  lemma OtroCampoIgualB(p: LocalidadParcial, a: Option<string>, b: Option<string>, c: Campo)
    requires c.Descripcion? || c.DescripcionCorta? || c.Accesibilidad? || c.Ubicacion? || c.Coordenadas? || c.Altitud?
    ensures CampoParcial(p.(nombre := a), c) == CampoParcial(p.(nombre := b), c)
  {
  }

  lemma OtroCampoIgualC(p: LocalidadParcial, a: Option<string>, b: Option<string>, c: Campo)
    requires c.Clima? || c.Infraestructura? || c.ServiciosBasicos? || c.ServiciosTuristicos? || c.CapacidadMaxima? || c.TemporadaAlta?
    ensures CampoParcial(p.(nombre := a), c) == CampoParcial(p.(nombre := b), c)
  {
  }

  lemma OtroCampoIgualD(p: LocalidadParcial, a: Option<string>, b: Option<string>, c: Campo)
    requires c.TemporadaBaja? || c.Seguridad? || c.MedicinaEmergencia? || c.Comunicaciones? || c.Reportes? || c.Certificaciones?
    ensures CampoParcial(p.(nombre := a), c) == CampoParcial(p.(nombre := b), c)
  {
  }

  lemma OtroCampoIgualE(p: LocalidadParcial, a: Option<string>, b: Option<string>, c: Campo)
    requires c.Tarifas? || c.Idiomas? || c.ContactoEmergencia? || c.SitioWeb? || c.RedesSociales? || c.PrecioPorPersona?
    ensures CampoParcial(p.(nombre := a), c) == CampoParcial(p.(nombre := b), c)
  {
  }

  lemma OtroCampoIgualF(p: LocalidadParcial, a: Option<string>, b: Option<string>, c: Campo)
    requires c.Imagenes? || c.Horarios? || c.Publicada? || c.FechaCreacion? || c.FechaActualizacion? || c.CreatedBy?
    ensures CampoParcial(p.(nombre := a), c) == CampoParcial(p.(nombre := b), c)
  {
  }

  lemma OtroCampoIgualG(p: LocalidadParcial, a: Option<string>, b: Option<string>, c: Campo)
    requires c.Historial? || c.Status?
    ensures CampoParcial(p.(nombre := a), c) == CampoParcial(p.(nombre := b), c)
  {
  }


  /** The name is compared first, and only once. */
  lemma NombreSoloPrimero()
    ensures CamposAComparar[0] == Nombre
    ensures forall i :: 1 <= i < |CamposAComparar| ==> CamposAComparar[i] != Nombre
  {
  }

  /** Changing only the name from "A" to "B" logs exactly one entry: key
      "nombre", old value "A", new value "B". */
  lemma SoloNombreCambia(localidadId: string, p: LocalidadParcial, usuario: string,
                         cambioIds: seq<string>, ahora: string)
    requires |CamposAComparar| <= |cambioIds|
    ensures EntradasNuevas(localidadId, Diferencias(p.(nombre := Some("A")), p.(nombre := Some("B")), CamposAComparar, usuario),
                           cambioIds, ahora, |CamposAComparar|)
         == [HistorialCambio(cambioIds[0], localidadId, ahora, Some("nombre"), Cadena("A"), Cadena("B"), usuario, Updated)]
  {
    var antes, despues := p.(nombre := Some("A")), p.(nombre := Some("B"));
    var ds := Diferencias(antes, despues, CamposAComparar, usuario);
    NombreSoloPrimero();
    forall i | 0 <= i < |CamposAComparar| && i != 0 ensures ds[i].None? {
      assert ds[i] == Diferencia(antes, despues, CamposAComparar[i], usuario);
      OtroCampoIgual(p, Some("A"), Some("B"), CamposAComparar[i]);
    }
    assert ds[0] == Diferencia(antes, despues, Nombre, usuario);
    UnaSolaDiferencia(localidadId, ds, cambioIds, ahora, |CamposAComparar|, 0);
  }

  /** A list key absent on one side and empty on the other is still a
      change: the absent side normalises to "" and a list never equals a
      string. Both values are logged as "". */
  lemma ListaAusenteContraVacia(antes: LocalidadParcial, despues: LocalidadParcial, usuario: string)
    requires antes.idiomas.None? && despues.idiomas == Some([])
    ensures Diferencia(antes, despues, Idiomas, usuario)
         == Some(CambioSolicitado("idiomas", Cadena(""), Cadena(""), usuario, Updated))
  {
  }

  // ---------------------------------------------------------------------
  // Legacy import
  // ---------------------------------------------------------------------

  /** `LocalidadDataOld`, the record of the flat legacy list. A text, list or
      number field missing from the stored JSON converts exactly like an
      empty one, so it is modelled as empty; `status` has no empty value
      and is optional. */
  datatype LocalidadLegado = LocalidadLegado(
    id: string,
    nombre: string,
    pais: string,
    provincia: string,
    ciudad: string,
    tipo: string,
    categoria: string,
    descripcion: string,
    descripcionCorta: string,
    accesibilidad: string,
    ubicacion: string,
    coordenadas: string,
    altitud: string,
    clima: string,
    infraestructura: string,
    serviciosBasicos: string,
    serviciosTuristicos: string,
    capacidadMaxima: string,
    temporadaAlta: string,
    temporadaBaja: string,
    seguridad: string,
    medicinaEmergencia: string,
    comunicaciones: string,
    reportes: string,
    certificaciones: string,
    tarifas: string,
    idiomas: seq<string>,
    contactoEmergencia: string,
    sitioWeb: string,
    redesSociales: string,
    precioPorPersona: int,
    imagenes: seq<string>,
    createdAt: string,
    updatedAt: string,
    createdBy: string,
    status: Option<LocalidadStatus>)

  /** MIME type of a legacy image string: the `data:(.*?);` group of a data
      URL, else "image/jpeg". */
  function TipoImagenLegado(img: string): (t: string)
    ensures t != ""
    ensures !StartsWith(img, DataScheme) ==> t == DefaultMime
  {
    if StartsWith(img, DataScheme) then
      var g := CaptureFrom(img, DataScheme, 0);
      if g.Some? && g.value != "" then g.value else DefaultMime
    else DefaultMime
  }

  function ImagenesDesdeLegado(imgs: seq<string>, imageIds: seq<string>): (r: seq<ImagenLocalidad>)
    requires |imageIds| == |imgs|
    ensures |r| == |imgs|
    ensures forall i :: 0 <= i < |imgs| ==>
      r[i] == ImagenLocalidad(imageIds[i], imgs[i], "imagen-" + NatToString(i + 1), TipoImagenLegado(imgs[i]))
  {
    seq(|imgs|, i requires 0 <= i < |imgs| =>
      ImagenLocalidad(imageIds[i], imgs[i], "imagen-" + NatToString(i + 1), TipoImagenLegado(imgs[i])))
  }

  /** `convertOldToNew`: the legacy record in the current shape. */
  function ConvertOldToNew(anterior: LocalidadLegado, ahora: string, imageIds: seq<string>): (r: Localidad)
    requires |imageIds| == |anterior.imagenes|
    ensures r.id == anterior.id
    ensures r.publicada == (r.status == LocalidadStatus.Published)
    ensures r.status == anterior.status.GetOr(Draft)
    ensures r.horarios == [] && r.historial == []
    ensures |r.imagenes| == |anterior.imagenes|
    ensures forall i :: 0 <= i < |anterior.imagenes| ==>
      r.imagenes[i].data == anterior.imagenes[i] && r.imagenes[i].name == "imagen-" + NatToString(i + 1)
  {
    Localidad(
      id := anterior.id,
      nombre := anterior.nombre,
      pais := anterior.pais,
      provincia := anterior.provincia,
      ciudad := anterior.ciudad,
      tipo := anterior.tipo,
      categoria := anterior.categoria,
      descripcion := anterior.descripcion,
      descripcionCorta := anterior.descripcionCorta,
      accesibilidad := anterior.accesibilidad,
      ubicacion := anterior.ubicacion,
      coordenadas := anterior.coordenadas,
      altitud := anterior.altitud,
      clima := anterior.clima,
      infraestructura := anterior.infraestructura,
      serviciosBasicos := anterior.serviciosBasicos,
      serviciosTuristicos := anterior.serviciosTuristicos,
      capacidadMaxima := anterior.capacidadMaxima,
      temporadaAlta := anterior.temporadaAlta,
      temporadaBaja := anterior.temporadaBaja,
      seguridad := anterior.seguridad,
      medicinaEmergencia := anterior.medicinaEmergencia,
      comunicaciones := anterior.comunicaciones,
      reportes := anterior.reportes,
      certificaciones := anterior.certificaciones,
      tarifas := anterior.tarifas,
      idiomas := anterior.idiomas,
      contactoEmergencia := anterior.contactoEmergencia,
      sitioWeb := anterior.sitioWeb,
      redesSociales := anterior.redesSociales,
      precioPorPersona := anterior.precioPorPersona,
      imagenes := ImagenesDesdeLegado(anterior.imagenes, imageIds),
      horarios := [],
      publicada := anterior.status == Some(LocalidadStatus.Published),
      fechaCreacion := if anterior.createdAt != "" then anterior.createdAt else ahora,
      fechaActualizacion := if anterior.updatedAt != "" then anterior.updatedAt else ahora,
      createdBy := if anterior.createdBy != "" then anterior.createdBy else "Admin",
      historial := [],
      status := anterior.status.GetOr(Draft))
  }

  /** Dexie's `bulkAdd`: add each record in order; a record whose id is
      already present fails and is skipped, the others are kept. */
  /** The keys of a list of records. */
  function ClavesDe<V>(s: seq<V>, clave: V -> string): (ids: set<string>)
    ensures forall i :: 0 <= i < |s| ==> clave(s[i]) in ids
    ensures forall x :: x in ids ==> exists i :: 0 <= i < |s| && clave(s[i]) == x
  {
    if s == [] then {} else {clave(s[0])} + ClavesDe(s[1..], clave)
  }

  /** Dexie's `bulkAdd`: add each record under its key, in order; a record
      whose key is already present fails and is skipped, the others are
      kept. */
  function BulkAdd<V>(tabla: map<string, V>, nuevas: seq<V>, clave: V -> string): (r: map<string, V>)
    ensures r.Keys == tabla.Keys + ClavesDe(nuevas, clave)
    ensures forall k :: k in tabla ==> r[k] == tabla[k]
    ensures (forall k :: k in tabla ==> clave(tabla[k]) == k) ==> forall k :: k in r ==> clave(r[k]) == k
    decreases |nuevas|
  {
    if nuevas == [] then tabla
    else
      var siguiente := if clave(nuevas[0]) in tabla then tabla else tabla[clave(nuevas[0]) := nuevas[0]];
      BulkAdd(siguiente, nuevas[1..], clave)
  }

  /** One step of `BulkAdd` on a record whose key is new. */
  lemma BulkAddPaso<V>(tabla: map<string, V>, nuevas: seq<V>, clave: V -> string)
    requires nuevas != [] && clave(nuevas[0]) !in tabla
    ensures BulkAdd(tabla, nuevas, clave) == BulkAdd(tabla[clave(nuevas[0]) := nuevas[0]], nuevas[1..], clave)
  {
  }

  /** Keys distinct and new before the first record is added stay so for the rest. */
  lemma RestoDistinto<V>(tabla: map<string, V>, nuevas: seq<V>, clave: V -> string)
    requires nuevas != []
    requires forall i :: 0 <= i < |nuevas| ==> clave(nuevas[i]) !in tabla
    requires forall i, j :: 0 <= i < j < |nuevas| ==> clave(nuevas[i]) != clave(nuevas[j])
    ensures forall i :: 0 <= i < |nuevas[1..]| ==> clave(nuevas[1..][i]) !in tabla[clave(nuevas[0]) := nuevas[0]]
    ensures forall i, j :: 0 <= i < j < |nuevas[1..]| ==> clave(nuevas[1..][i]) != clave(nuevas[1..][j])
  {
    var resto := nuevas[1..];
    forall i | 0 <= i < |resto| ensures clave(resto[i]) !in tabla[clave(nuevas[0]) := nuevas[0]] {
      assert resto[i] == nuevas[i + 1];
    }
    forall i, j | 0 <= i < j < |resto| ensures clave(resto[i]) != clave(resto[j]) {
      assert resto[i] == nuevas[i + 1] && resto[j] == nuevas[j + 1];
    }
  }

  /** Records with distinct keys, none already present, are all added
      unchanged: one stored record per imported record. */
  lemma {:induction false} BulkAddDistinct<V>(tabla: map<string, V>, nuevas: seq<V>, clave: V -> string)
    requires forall i :: 0 <= i < |nuevas| ==> clave(nuevas[i]) !in tabla
    requires forall i, j :: 0 <= i < j < |nuevas| ==> clave(nuevas[i]) != clave(nuevas[j])
    ensures forall i :: 0 <= i < |nuevas| ==> BulkAdd(tabla, nuevas, clave)[clave(nuevas[i])] == nuevas[i]
    ensures |BulkAdd(tabla, nuevas, clave)| == |tabla| + |nuevas|
    decreases |nuevas|
  {
    if nuevas != [] {
      var k0 := clave(nuevas[0]);
      var resto := nuevas[1..];
      var siguiente := tabla[k0 := nuevas[0]];
      assert |siguiente| == |tabla| + 1;
      RestoDistinto(tabla, nuevas, clave);
      BulkAddDistinct(siguiente, resto, clave);
      BulkAddPaso(tabla, nuevas, clave);
      var r := BulkAdd(siguiente, resto, clave);
      forall i | 0 <= i < |nuevas| ensures r[clave(nuevas[i])] == nuevas[i] {
        if i == 0 {
          assert k0 in siguiente;
        } else {
          assert nuevas[i] == resto[i - 1];
        }
      }
    }
  }

  /** The key of the `localidades` table. */
  function IdDe(l: Localidad): string { l.id }

  /** Importing a non-empty list into an empty table stores something, and
      every record under its own id. */
  lemma TablaImportada(nuevas: seq<Localidad>)
    requires nuevas != []
    ensures var r := BulkAdd(map[], nuevas, IdDe);
      |r| > 0 && forall k :: k in r ==> r[k].id == k
  {
    var r := BulkAdd(map[], nuevas, IdDe);
    assert IdDe(nuevas[0]) in ClavesDe(nuevas, IdDe);
    assert nuevas[0].id in r;
    forall k | k in r ensures r[k].id == k {
      assert IdDe(r[k]) == k;
    }
  }

  function ConvertirTodas(legado: seq<LocalidadLegado>, ahora: string, imageIds: seq<seq<string>>): (r: seq<Localidad>)
    requires |imageIds| == |legado|
    requires forall i :: 0 <= i < |legado| ==> |imageIds[i]| == |legado[i].imagenes|
    ensures |r| == |legado|
    ensures forall i :: 0 <= i < |legado| ==> r[i] == ConvertOldToNew(legado[i], ahora, imageIds[i])
  {
    seq(|legado|, i requires 0 <= i < |legado| => ConvertOldToNew(legado[i], ahora, imageIds[i]))
  }

  /** Image ids to draw on, one list per legacy record and one id per image. */
  predicate IdsParaLegado(legado: Option<seq<LocalidadLegado>>, imageIds: seq<seq<string>>) {
    legado.Some? ==>
      |imageIds| == |legado.value| && forall i :: 0 <= i < |legado.value| ==> |imageIds[i]| == |legado.value[i].imagenes|
  }

  // ---------------------------------------------------------------------
  // The table
  // ---------------------------------------------------------------------

  class LocalidadRepository {
    /** The `localidades` table, keyed by `id`. */
    var localidades: map<string, Localidad>

    /** Every record is stored under its own id. */
    ghost predicate Valid()
      reads this
    {
      forall k :: k in localidades ==> localidades[k].id == k
    }

    constructor ()
      ensures Valid() && localidades == map[]
    {
      localidades := map[];
    }

    /** `getLocalidadById`. */
    function GetLocalidadById(id: string): (r: Option<Localidad>)
      reads this
      requires Valid()
      ensures r.Some? <==> id in localidades
      ensures r.Some? ==> r.value.id == id && r.value == localidades[id]
    {
      if id in localidades then Some(localidades[id]) else None
    }

    /** `obtenerHistorialLocalidad`: the embedded history, newest first, or
        nothing for an unknown id. */
    function ObtenerHistorialLocalidad(id: string): (r: seq<HistorialCambio>)
      reads this
      ensures id !in localidades ==> r == []
      ensures id in localidades ==> r == localidades[id].historial
    {
      if id in localidades then localidades[id].historial else []
    }

    /** `saveLocalidad`: an upsert keyed by the partial record's id. */
    method SaveLocalidad(p: LocalidadParcial, ahora: string) returns (r: Result<Localidad, SaveError>)
      requires Valid()
      modifies this
      ensures Valid()
      ensures r.Failure? <==> p.id.None? || p.id.value == ""
      ensures r.Failure? ==> localidades == old(localidades)
      ensures r.Success? ==>
        && r.value == (if p.id.value in old(localidades) then Merge(old(localidades)[p.id.value], p, ahora)
                       else Create(p, ahora))
        && localidades == old(localidades)[p.id.value := r.value]
    {
      if p.id.None? || p.id.value == "" {
        return Failure(IdRequerido);
      }
      var id := p.id.value;
      var completa: Localidad;
      if id in localidades {
        completa := Merge(localidades[id], p, ahora);
      } else {
        completa := Create(p, ahora);
      }
      localidades := localidades[id := completa];
      r := Success(completa);
    }

    /** `deleteLocalidad`: the id is absent afterwards, present before or not. */
    method DeleteLocalidad(id: string) returns (ok: bool)
      requires Valid()
      modifies this
      ensures Valid()
      ensures ok && localidades == old(localidades) - {id}
    {
      localidades := localidades - {id};
      ok := true;
    }

    /** `agregarCambioHistorial`: prepend one entry to a known locality's history. */
    method AgregarCambioHistorial(localidadId: string, cambio: CambioSolicitado, cambioId: string, ahora: string)
      requires Valid()
      modifies this
      ensures Valid()
      ensures localidadId !in old(localidades) ==> localidades == old(localidades)
      ensures localidadId in old(localidades) ==>
        localidades == old(localidades)[localidadId :=
          ConCambio(old(localidades)[localidadId], NuevoCambio(cambioId, localidadId, ahora, cambio), ahora)]
    {
      if localidadId !in localidades {
        return;
      }
      var nuevoCambio := NuevoCambio(cambioId, localidadId, ahora, cambio);
      localidades := localidades[localidadId := ConCambio(localidades[localidadId], nuevoCambio, ahora)];
    }

    /** `updateLocalidadStatus`. */
    method UpdateLocalidadStatus(id: string, status: LocalidadStatus, usuario: Option<string>,
                                 ahora: string, cambioId: string) returns (ok: bool)
      requires Valid()
      modifies this
      ensures Valid()
      ensures ok <==> id in old(localidades)
      ensures !ok ==> localidades == old(localidades)
      ensures ok ==> localidades == old(localidades)[id := ConEstado(old(localidades)[id], status, usuario, ahora, cambioId)]
    {
      if id !in localidades {
        return false;
      }
      var statusAnterior := localidades[id].status;
      localidades := localidades[id := localidades[id].(status := status,
                                                         publicada := status == LocalidadStatus.Published,
                                                         fechaActualizacion := ahora)];
      if statusAnterior != status && usuario.Some? && usuario.value != "" {
        AgregarCambioHistorial(id, CambioDeEstado(statusAnterior, status, usuario.value), cambioId, ahora);
      }
      ok := true;
    }

    /** `registrarCambiosDesdeComparacion`: one history write per compared
        key whose values differ; `cambioIds[i]` is the fresh id of the
        entry for the i-th compared key. */
    method RegistrarCambiosDesdeComparacion(localidadId: string, antes: LocalidadParcial, despues: LocalidadParcial,
                                            usuario: string, cambioIds: seq<string>, ahora: string)
      requires Valid()
      requires |cambioIds| == |CamposAComparar|
      modifies this
      ensures Valid()
      ensures localidadId !in old(localidades) ==> localidades == old(localidades)
      ensures localidadId in old(localidades) ==>
        localidades == old(localidades)[localidadId :=
          TrasComparar(old(localidades)[localidadId], localidadId, Diferencias(antes, despues, CamposAComparar, usuario),
                       cambioIds, ahora, |CamposAComparar|)]
    {
      ghost var ds := Diferencias(antes, despues, CamposAComparar, usuario);
      var i := 0;
      while i < |CamposAComparar|
        invariant 0 <= i <= |CamposAComparar|
        invariant Valid()
        invariant localidadId !in old(localidades) ==> localidades == old(localidades)
        invariant localidadId in old(localidades) ==>
          localidades == old(localidades)[localidadId :=
            TrasComparar(old(localidades)[localidadId], localidadId, ds, cambioIds, ahora, i)]
      {
        var d := Diferencia(antes, despues, CamposAComparar[i], usuario);
        assert d == ds[i];
        if d.Some? {
          AgregarCambioHistorial(localidadId, d.value, cambioIds[i], ahora);
        }
        i := i + 1;
      }
    }

    /** `migrateLocalStorageToIndexedDB`: import the legacy list once, only
        into an empty table. `legado` is the parsed legacy slot, `None` when
        it is missing or unreadable. */
    method MigrateLocalStorageToIndexedDB(legado: Option<seq<LocalidadLegado>>, ahora: string, imageIds: seq<seq<string>>)
      requires Valid()
      requires IdsParaLegado(legado, imageIds)
      modifies this
      ensures Valid()
      ensures |old(localidades)| > 0 || legado.None? || legado.value == [] ==> localidades == old(localidades)
      ensures |old(localidades)| == 0 && legado.Some? && legado.value != [] ==>
        && localidades == BulkAdd(map[], ConvertirTodas(legado.value, ahora, imageIds), IdDe)
        && |localidades| > 0
    {
      if |localidades| > 0 {
        return;
      }
      if legado.None? || |legado.value| == 0 {
        return;
      }
      var nuevas := ConvertirTodas(legado.value, ahora, imageIds);
      TablaImportada(nuevas);
      localidades := BulkAdd(map[], nuevas, IdDe);
    }

    /** The records `keep` accepts, each once, in the table's iteration
        order (which the model leaves open). */
    method RegistrosDonde(keep: Localidad -> bool) returns (r: seq<Localidad>)
      requires Valid()
      ensures forall i :: 0 <= i < |r| ==> r[i] in localidades.Values && keep(r[i])
      ensures forall k :: k in localidades && keep(localidades[k]) ==> localidades[k] in r
      ensures forall i, j :: 0 <= i < j < |r| ==> r[i].id != r[j].id
    {
      r := [];
      var pendientes := localidades.Keys;
      while pendientes != {}
        invariant pendientes <= localidades.Keys
        invariant forall i :: 0 <= i < |r| ==> r[i] in localidades.Values && keep(r[i]) && r[i].id !in pendientes
        invariant forall k :: k in localidades && k !in pendientes && keep(localidades[k]) ==> localidades[k] in r
        invariant forall i, j :: 0 <= i < j < |r| ==> r[i].id != r[j].id
        decreases pendientes
      {
        var k :| k in pendientes;
        if keep(localidades[k]) {
          r := r + [localidades[k]];
        }
        pendientes := pendientes - {k};
      }
    }

    /** `getAllLocalidades`: run the one-time import, then list every record. */
    method GetAllLocalidades(legado: Option<seq<LocalidadLegado>>, ahora: string, imageIds: seq<seq<string>>)
      returns (todas: seq<Localidad>)
      requires Valid()
      requires IdsParaLegado(legado, imageIds)
      modifies this
      ensures Valid()
      ensures |old(localidades)| > 0 || legado.None? || legado.value == [] ==> localidades == old(localidades)
      ensures |old(localidades)| == 0 && legado.Some? && legado.value != [] ==>
        localidades == BulkAdd(map[], ConvertirTodas(legado.value, ahora, imageIds), IdDe)
      ensures forall i :: 0 <= i < |todas| ==> todas[i] in localidades.Values
      ensures forall k :: k in localidades ==> localidades[k] in todas
      ensures forall i, j :: 0 <= i < j < |todas| ==> todas[i].id != todas[j].id
    {
      MigrateLocalStorageToIndexedDB(legado, ahora, imageIds);
      todas := RegistrosDonde((l: Localidad) => true);
    }

    /** `getLocalidadesPublicadas`: every record whose status is published, and no other. */
    method GetLocalidadesPublicadas() returns (publicadas: seq<Localidad>)
      requires Valid()
      ensures forall i :: 0 <= i < |publicadas| ==>
        publicadas[i] in localidades.Values && publicadas[i].status == LocalidadStatus.Published
      ensures forall k :: k in localidades && localidades[k].status == LocalidadStatus.Published ==> localidades[k] in publicadas
      ensures forall i, j :: 0 <= i < j < |publicadas| ==> publicadas[i].id != publicadas[j].id
    {
      publicadas := RegistrosDonde((l: Localidad) => l.status == LocalidadStatus.Published);
    }
  }

  /** `getImageUrls`: one display URL per stored image, in order; each is a
      data URL or the stored data unchanged. */
  function GetImageUrls(l: Localidad): (urls: seq<string>)
    ensures |urls| == |l.imagenes|
    ensures forall i :: 0 <= i < |urls| ==> urls[i] == GetImageUrl(l.imagenes[i])
    ensures forall i :: 0 <= i < |urls| ==> StartsWith(urls[i], DataScheme) || urls[i] == l.imagenes[i].data
  {
    seq(|l.imagenes|, i requires 0 <= i < |l.imagenes| => GetImageUrl(l.imagenes[i]))
  }
}
