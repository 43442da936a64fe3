# EcoRutas — a verified model of the record store and the small state machines around it

EcoRutas is a tourism web application. Its administrators keep a table of
localities ("localidades") in the browser's IndexedDB, publish or unpublish
them, and look at a per-locality change history. Visitors see only the
published localities, browse their pictures and use accessibility settings.
This project models that logic in Dafny and proves what it promises:

- `common.dfy` (`Common`) holds what JavaScript's built-ins give the source:
  `Array.filter`, `find`, `findIndex`, `startsWith`, `includes`, `join`, and
  integers printed as decimal strings.
- `schema.dfy` (`Schema`, src/utils/db.ts) holds the record types: the closed
  `status` and `accion` enums, the 39-field `Localidad` and its
  `Partial<Localidad>`. It also holds `getImageUrl`, which wraps bare base64
  as a `data:` URL (section 3 of RFC 2397), and the MIME-type rule of
  `base64ToBlob`.
- `localidad_store.dfy` (`LocalidadStore`, src/utils/localidadIndexedDB.ts)
  holds the `localidades` table as a `map<string, Localidad>` field of the
  class `LocalidadRepository`. It covers these operations:
  - `saveLocalidad`, an upsert;
  - `deleteLocalidad`;
  - `updateLocalidadStatus`;
  - `agregarCambioHistorial`;
  - the field-by-field comparison that logs one history entry per changed
    field;
  - the one-time import of legacy records;
  - the read-only queries.
- `dashboard_admin.dfy` (`PanelAdmin`, src/pages/DashboardAdmin.tsx) covers
  the administrator's list: toggling a status and deleting an entry, each
  kept in step with the store.
- `detalle_localidad.dfy` (`DetalleLocalidad`, src/pages/DetalleLocalidad.tsx)
  covers the public detail page: the published-only load gate, the image
  carousel and the location text.
- `historial_cambios.dfy` (`HistorialCambios`,
  src/components/localidad/HistorialCambios.tsx) covers the history page:
  action badges, value formatting, the visible prefix and "clear all".
- `auth_context.dfy` (`AuthContext`, src/context/AuthContext.tsx) covers the
  in-memory user registry, whose emails are unique, and the signed-in user.
- `login_form.dfy` (`LoginForm`, EcoRutas-main/src/components/forms/LoginForm.tsx)
  covers failed-login bookkeeping: the 5-minute attempt window, the 15-minute
  lockout after five recent failures, and the warning shown near the limit.
  The form signs in through the `AuthContext` module above: the
  EcoRutas-main/src/context/AuthContext.tsx it imports is not part of this
  model, and src/context/AuthContext.tsx stands in for it.
- `forgot_password.dfy` (`ForgotPassword`,
  EcoRutas-main/src/components/ForgotPassword.tsx) covers the password-reset
  steps, the order of the password rules, the six-digit code filter and the
  60-second resend countdown.
- `accessibility.dfy` (`Accessibility`,
  EcoRutas-main/src/context/AccessibilityContext.tsx) covers the font-size
  ladder, the language, dark-mode and read-aloud toggles, and the reset.
- `eco_dashboard_admin.dfy` (`PanelNuevaLocalidad`,
  EcoRutas-main/src/pages/DashboardAdmin.tsx) covers the stand-alone
  dashboard's local list: add, delete and back, plus the card routes.

Clocks, random ids and confirmation dialogs become parameters: `ahora`,
`cambioId`, `imageIds` and `confirmed`. Browser storage becomes a field or
an already-parsed parameter. Validators and sanitisers from modules that are
not shown become function parameters.

## Model

| member | source | states |
|---|---|---|
| Schema.StatusNameInjective | src/utils/db.ts:72 | two statuses are equal exactly when their names are, so comparing the stored strings compares the statuses |
| Schema.StatusNamesClosed | src/utils/db.ts:72 | a string names a status if and only if it is one of "draft", "published", "archived" |
| Schema.AccionNamesClosed | src/utils/db.ts:29 | a string names an action if and only if it is one of the five action names |
| Schema.GetImageUrl | src/utils/db.ts:119-127 | a `data:` URL passes through unchanged; any other result starts with `data:`; data that is neither JPEG nor PNG base64 passes through unchanged |
| Schema.DataUrlStartsWithScheme | src/utils/db.ts:125 | every wrapped URL starts with the `data:` scheme |
| Schema.GetImageUrlIdempotent | src/utils/db.ts:119-127 | feeding a display URL back in as the stored data gives the same URL |
| Schema.SemicolonFrom | src/utils/db.ts:108 | the lazy `(.*?);` stops at the first `;` reachable without crossing a line terminator, or finds none |
| Schema.CaptureFrom | src/utils/db.ts:108 | the captured MIME text contains neither `;` nor a line terminator |
| Schema.BeforeFirst | src/utils/db.ts:107 | `split(',')[0]` is the longest prefix without the separator |
| Schema.SecondField | src/utils/db.ts:107-109 | `split(',')[1]`: missing exactly when there is no comma, and never containing a comma |
| Schema.MimeOfDataUrl | src/utils/db.ts:107-108 | the blob's MIME type is never empty, because it falls back to image/jpeg |
| Schema.DataUrlMimeRoundTrip | src/utils/db.ts:107-109 | reading a data URL built from a plain MIME type gives back that type; the field `atob` decodes is the payload up to its first comma, and the whole payload when it has no comma |
| Schema.GetImageUrlRoundTrip | src/utils/db.ts:106-125 | `base64ToBlob` of a wrapped bare image reads back the image's type (or image/jpeg when it has none) and decodes its data up to the first comma, which is all of it for comma-free base64 text |
| Schema.BeforeFirstOfJoin | src/utils/db.ts:107 | splitting `a + sep + b` at the first separator gives `a` when `a` has no separator |
| Schema.SemicolonAt | src/utils/db.ts:108 | the lazy match stops at the first plain `;` |
| LocalidadStore.MergeOverwritesPresentKeys | src/utils/localidadIndexedDB.ts:161-168 | for every key but the update time, an updated record holds the partial record's value when the partial record carries the key and the stored record's value otherwise; the update time is now |
| LocalidadStore.CreateFillsDefaults | src/utils/localidadIndexedDB.ts:171-210 | for every key but the two dates and the creator, a created record holds the supplied value when there is one and the key's default ("", [], 0, false, draft) otherwise |
| LocalidadStore.CreateStamps | src/utils/localidadIndexedDB.ts:206-208 | both dates of a created record are now, and a missing or empty creator becomes "Admin" |
| LocalidadStore.CreateFromIdOnly | src/utils/localidadIndexedDB.ts:171-211 | a record created from an id alone is an unpublished draft with empty lists, price 0, empty name, created by "Admin" at now |
| LocalidadStore.ConHistorialTwice | src/utils/localidadIndexedDB.ts:299-304 | rewriting the history twice keeps only the second rewrite |
| LocalidadStore.ConCambioPrepends | src/utils/localidadIndexedDB.ts:299-304 | adding an entry puts it at the head, keeps older entries in order, grows the history by one, refreshes the update time and changes no other field |
| LocalidadStore.ConEstadoSpec | src/utils/localidadIndexedDB.ts:245-262 | a status write sets the status, sets `publicada` to (status is published) and refreshes the date, and changes no other field. It logs exactly one "status" entry, with the old and new names, if and only if the status changed and a user was given. That entry carries the given id and date, and its action is "published" for a published status and "updated" for any other |
| LocalidadStore.Diferencia | src/utils/localidadIndexedDB.ts:328-359 | a key is logged if and only if its null/undefined-normalised values differ, as an "updated" entry by the given user under the key's name |
| LocalidadStore.TrasCompararPrepends | src/utils/localidadIndexedDB.ts:327-360 | the comparison only prepends: with no difference the record is untouched, otherwise the new entries (last difference first) go before the old history and the update time is now |
| LocalidadStore.EntradasNuevasSpec | src/utils/localidadIndexedDB.ts:327-360 | as many entries as differing keys; every differing key is logged with its own entry id, and every entry is an "updated" entry by the user for this locality that names a compared key whose values differ |
| LocalidadStore.EntradasNuevasCompletas | src/utils/localidadIndexedDB.ts:327-360 | every difference found is logged, as the entry built from it with that key's entry id |
| LocalidadStore.SinCambiosSinEntradas | src/utils/localidadIndexedDB.ts:327-360 | comparing a record with itself logs nothing |
| LocalidadStore.SinCambiosAntes | src/utils/localidadIndexedDB.ts:327-360 | when none of the visited keys differs, nothing is logged |
| LocalidadStore.EntradasDeDiferencias | src/utils/localidadIndexedDB.ts:327-360 | every logged entry is the entry built from one of the differences found, with that key's entry id |
| LocalidadStore.UnaSolaDiferencia | src/utils/localidadIndexedDB.ts:327-360 | when exactly one visited key differs, exactly that key's entry is logged |
| LocalidadStore.OtroCampoIgual | src/utils/localidadIndexedDB.ts:328-329 | changing the name of a partial record leaves every other key as it was |
| LocalidadStore.NombreSoloPrimero | src/utils/localidadIndexedDB.ts:317-325 | the name is the first compared key and is compared only once |
| LocalidadStore.SoloNombreCambia | src/utils/localidadIndexedDB.ts:317-360 | changing only the name from "A" to "B" logs exactly one entry, for "nombre", from "A" to "B" |
| LocalidadStore.ListaAusenteContraVacia | src/utils/localidadIndexedDB.ts:331-344 | an absent list against `[]` is still logged, because the absent side normalises to "" and is not a list |
| LocalidadStore.TipoImagenLegado | src/utils/localidadIndexedDB.ts:49-51 | a legacy image's type is never empty, and is image/jpeg unless the string is a data URL |
| LocalidadStore.ImagenesDesdeLegado | src/utils/localidadIndexedDB.ts:45-52 | one image per legacy string, in order, holding that string as data, named `imagen-(i+1)` |
| LocalidadStore.ConvertOldToNew | src/utils/localidadIndexedDB.ts:44-95 | the id is kept; `publicada` is (status is published); status defaults to draft; schedules and history are empty; the images are the converted legacy strings |
| LocalidadStore.ClavesDe | src/utils/localidadIndexedDB.ts:119 | the key set of a list is exactly the keys of its elements |
| LocalidadStore.BulkAdd | src/utils/localidadIndexedDB.ts:119 | a bulk add adds exactly the new keys, keeps every existing record, and keeps each record under its own key |
| LocalidadStore.BulkAddDistinct | src/utils/localidadIndexedDB.ts:119 | records with distinct new keys are all stored, each under its key, and the table grows by their number |
| LocalidadStore.ConvertirTodas | src/utils/localidadIndexedDB.ts:118 | the conversion maps each legacy record to its converted record, in order |
| LocalidadStore.LocalidadRepository.constructor | src/utils/db.ts:85 | the table starts empty |
| LocalidadStore.LocalidadRepository.GetLocalidadById | src/utils/localidadIndexedDB.ts:140-147 | a record is found if and only if its id is in the table, and it is the stored record |
| LocalidadStore.LocalidadRepository.ObtenerHistorialLocalidad | src/utils/localidadIndexedDB.ts:377-385 | the record's embedded history, or the empty list for an unknown id |
| LocalidadStore.LocalidadRepository.SaveLocalidad | src/utils/localidadIndexedDB.ts:150-220 | fails with no change if and only if the id is missing or empty; otherwise it stores the merged record (existing id) or the created record (new id) under that id and touches no other key |
| LocalidadStore.LocalidadRepository.DeleteLocalidad | src/utils/localidadIndexedDB.ts:223-231 | returns true and the id is absent afterwards, present before or not; other records are unchanged |
| LocalidadStore.LocalidadRepository.AgregarCambioHistorial | src/utils/localidadIndexedDB.ts:272-308 | an unknown locality changes nothing; otherwise only that record changes, gaining the new entry at the head of its history |
| LocalidadStore.LocalidadRepository.UpdateLocalidadStatus | src/utils/localidadIndexedDB.ts:234-269 | returns false with no change for a missing id; otherwise only that record changes, to its status-written form |
| LocalidadStore.LocalidadRepository.RegistrarCambiosDesdeComparacion | src/utils/localidadIndexedDB.ts:311-361 | after the loop over the 31 keys, only the locality's record changes, to the record with the comparison's entries prepended |
| LocalidadStore.LocalidadRepository.MigrateLocalStorageToIndexedDB | src/utils/localidadIndexedDB.ts:98-126 | nothing happens when the table is non-empty or the legacy list is absent or empty; otherwise the table becomes the bulk add of the converted records, which is non-empty |
| LocalidadStore.LocalidadRepository.RegistrosDonde | src/utils/localidadIndexedDB.ts:132 | lists every stored record that passes the test, each once, and nothing else |
| LocalidadStore.LocalidadRepository.GetAllLocalidades | src/utils/localidadIndexedDB.ts:129-137 | a non-empty table, or a missing or empty legacy list, leaves the table as it was; otherwise the table becomes the bulk-add of the converted legacy list. Then it lists every stored record once, with distinct ids |
| LocalidadStore.LocalidadRepository.GetLocalidadesPublicadas | src/utils/localidadIndexedDB.ts:364-374 | lists every published record once, and only published records |
| LocalidadStore.GetImageUrls | src/utils/localidadIndexedDB.ts:399-400 | one URL per image, in order, each the `getImageUrl` of its image, so each is a data URL or the image's data unchanged |
| AuthContext.ConId | src/context/AuthContext.tsx:38 | the registered user keeps every supplied field and gets the decimal time as id |
| AuthContext.AppendKeepsEmailsDistintos | src/context/AuthContext.tsx:36-42 | appending a user whose email is new keeps the emails pairwise distinct |
| AuthContext.LoginFindsRegistered | src/context/AuthContext.tsx:25-42 | after a registration, logging in with its email and password finds exactly that user |
| AuthContext.AuthState.constructor | src/context/AuthContext.tsx:22-23 | nobody is signed in and the registry is empty |
| AuthContext.AuthState.Login | src/context/AuthContext.tsx:25-32 | returns the first user with this email and password and signs them in; with no match the signed-in user is unchanged; the registry never changes |
| AuthContext.AuthState.Logout | src/context/AuthContext.tsx:34 | nobody is signed in and the registry is unchanged |
| AuthContext.AuthState.RegisterUser | src/context/AuthContext.tsx:36-42 | a known email returns null and changes nothing; a new one appends exactly one user, signs them in, and keeps the emails distinct |
| PanelAdmin.RutaSeccion | src/pages/DashboardAdmin.tsx:102-104 | the route starts with "/dashboard/admin/localidades/" and has the length of its parts |
| PanelAdmin.RutaSeccionInjective | src/pages/DashboardAdmin.tsx:102-104 | different (id, section) pairs give different routes |
| PanelAdmin.EstadoAlternado | src/pages/DashboardAdmin.tsx:78 | the target always differs from the current status, is draft exactly when the current status is published, and is never archived |
| PanelAdmin.Actor | src/pages/DashboardAdmin.tsx:79 | the acting user is the signed-in user's non-empty name, else "Admin" |
| PanelAdmin.ConEstadoLocal | src/pages/DashboardAdmin.tsx:83 | an entry gets the new status and `publicada` to match, and keeps every other field |
| PanelAdmin.ConEstadoEnLista | src/pages/DashboardAdmin.tsx:82-84 | same length; entries with the id get the new status, every other entry is unchanged |
| PanelAdmin.SinId | src/pages/DashboardAdmin.tsx:54 | no entry with the id remains, every other entry does, and every entry of the result comes from the list |
| PanelAdmin.SinIdAppend | src/pages/DashboardAdmin.tsx:54 | removal distributes over concatenation, so the kept entries stay in their order |
| PanelAdmin.ToggleTwiceRestores | src/pages/DashboardAdmin.tsx:76-84 | toggling a draft or published entry twice restores the list when the screen agreed with the store |
| PanelAdmin.DashboardAdmin.LoadLocalidades | src/pages/DashboardAdmin.tsx:20-40 | the store keeps its table unless it was empty and a non-empty legacy list exists, in which case it holds the imported list; the screen then shows every stored record once, with distinct ids, and nothing else |
| PanelAdmin.DashboardAdmin.HandleToggleStatus | src/pages/DashboardAdmin.tsx:76-100 | when the store update succeeds, the store and the list both get the toggled status for that id only; when it fails, neither changes |
| PanelAdmin.DashboardAdmin.HandleDeleteLocalidad | src/pages/DashboardAdmin.tsx:48-74 | a declined confirmation changes nothing; a confirmed one removes the id from the store and every entry with it from the list |
| DetalleLocalidad.ImagenesCarrusel | src/pages/DetalleLocalidad.tsx:80-82 | the carousel is never empty: it is the image URLs when there are images, else the single placeholder |
| DetalleLocalidad.ControlesSoloConVariasImagenes | src/pages/DetalleLocalidad.tsx:85 | navigation controls appear if and only if the record has more than one image |
| DetalleLocalidad.Siguiente | src/pages/DetalleLocalidad.tsx:88 | the next index stays within the carousel |
| DetalleLocalidad.Anterior | src/pages/DetalleLocalidad.tsx:92 | the previous index stays within the carousel |
| DetalleLocalidad.AnteriorDeSiguiente | src/pages/DetalleLocalidad.tsx:87-93 | going back after going forward restores the index |
| DetalleLocalidad.SiguienteDeAnterior | src/pages/DetalleLocalidad.tsx:87-93 | going forward after going back restores the index |
| DetalleLocalidad.UbicacionTexto | src/pages/DetalleLocalidad.tsx:196 | the location is `ubicacion` when non-empty, else "ciudad, provincia, pais"; it is never empty |
| DetalleLocalidad.VistaDetalle.LoadLocalidad | src/pages/DetalleLocalidad.tsx:31-49 | a record is shown if and only if the id is given, stored and published; otherwise the view keeps what it had |
| DetalleLocalidad.VistaDetalle.NextImage | src/pages/DetalleLocalidad.tsx:87-89 | the index moves one forward, wrapping around |
| DetalleLocalidad.VistaDetalle.PrevImage | src/pages/DetalleLocalidad.tsx:91-93 | the index moves one back, wrapping around |
| DetalleLocalidad.VistaDetalle.SelectImage | src/pages/DetalleLocalidad.tsx:157 | a thumbnail click selects that image |
| HistorialCambios.GetActionColor | src/components/localidad/HistorialCambios.tsx:21-30 | each action has its fixed badge colour; "archived" and anything else get the neutral grey |
| HistorialCambios.ActionLabel | src/components/localidad/HistorialCambios.tsx:180-184 | an unknown action is shown as it is |
| HistorialCambios.BadgesOfLoggedActions | src/components/localidad/HistorialCambios.tsx:21-30 | every logged action gets its own Spanish label; distinct actions get distinct labels; only "archived" gets the neutral colour |
| HistorialCambios.ListaTexto | src/components/localidad/HistorialCambios.tsx:35 | an empty list reads "Vacío"; a one-element list reads as that element |
| HistorialCambios.FormatValue | src/components/localidad/HistorialCambios.tsx:32-64 | lists are joined or "Vacío"; blank strings give "Vacío"; a string that is not JSON comes back unchanged; numbers give their decimal string |
| HistorialCambios.FormatValueNeverEmpty | src/components/localidad/HistorialCambios.tsx:32-64 | when every element renders non-empty, the formatted value is never empty |
| HistorialCambios.JoinNonEmpty | src/components/localidad/HistorialCambios.tsx:35 | joining a non-empty list of non-empty strings is non-empty |
| HistorialCambios.JoinOfNonEmptyHead | src/components/localidad/HistorialCambios.tsx:35 | a join is non-empty when its first element, or a separator between two elements, is |
| HistorialCambios.Visibles | src/components/localidad/HistorialCambios.tsx:173 | the shown entries are a prefix of the history, of length `maxItems` capped at the history length (with `slice` semantics for a negative bound) |
| HistorialCambios.VisiblesPorDefecto | src/components/localidad/HistorialCambios.tsx:75 | by default at most the first 200 entries are shown, all of them when there are no more |
| HistorialCambios.HistorialPage.LoadHistorial | src/components/localidad/HistorialCambios.tsx:82-106 | with an id, the page shows the record's embedded history and its name; without one nothing changes |
| HistorialCambios.HistorialPage.ClearAll | src/components/localidad/HistorialCambios.tsx:108-121 | without an id, on a declined confirmation or with an unreadable stored list, nothing changes; otherwise the stored list keeps exactly the other localities' entries, and the page shows none |
| HistorialCambios.ClearAllFilterSpec | src/components/localidad/HistorialCambios.tsx:115 | after clearing, no entry of this locality remains, every other entry does, and clearing again changes nothing |
| LoginForm.MinTimestamp | EcoRutas-main/src/components/forms/LoginForm.tsx:59 | `Math.min` of the timestamps: no attempt is older, and some attempt has it |
| LoginForm.CeilSegundos | EcoRutas-main/src/components/forms/LoginForm.tsx:64 | `Math.ceil(ms/1000)`: the smallest whole number of seconds covering the milliseconds |
| LoginForm.TiempoRestanteRange | EcoRutas-main/src/components/forms/LoginForm.tsx:54-64 | the remaining lockout time is positive, and at most the lockout duration when no attempt lies in the future |
| LoginForm.AdvertenciaSoloCercaDelBloqueo | EcoRutas-main/src/components/forms/LoginForm.tsx:157-162 | the warning is shown exactly when the list held 2 or 3 attempts before the failure |
| LoginForm.LoginFormState.constructor | EcoRutas-main/src/components/forms/LoginForm.tsx:45-49 | no attempts, not locked, no warning |
| LoginForm.LoginFormState.CheckLockout | EcoRutas-main/src/components/forms/LoginForm.tsx:52-71 | locked if and only if at least 5 attempts fall within the lockout duration; when locked, the remaining time is the ceiling in seconds of the lockout left since the oldest of them |
| LoginForm.LoginFormState.RegisterFailedAttempt | EcoRutas-main/src/components/forms/LoginForm.tsx:92-104 | the attempts become those still inside the window, in order, followed by the new attempt |
| LoginForm.LoginFormState.OnSubmit | EcoRutas-main/src/components/forms/LoginForm.tsx:106-194 | a locked submission returns before `login`, setting the lock flag and the remaining lockout time and changing nothing else. Otherwise the lock flag is cleared and the remaining time is kept. Invalid input changes nothing else but the cleared warning. Success signs in and clears the warning; it clears the attempts and remembers the email on request, unless writing that slot throws, in which case the `catch` leaves the remembered email alone and the attempts hold one failure under the raw email. Failure records the attempt, sets the warning near the limit and keeps the remembered email |
| LoginForm.RegistradosDentroDeVentana | EcoRutas-main/src/components/forms/LoginForm.tsx:92-104 | after a registration the new attempt is last and every kept attempt is inside the window |
| LoginForm.RegistrarConservaCola | EcoRutas-main/src/components/forms/LoginForm.tsx:99-102 | attempts inside the window survive a registration in order, ahead of the new one |
| LoginForm.RegistrarTerminaEn | EcoRutas-main/src/components/forms/LoginForm.tsx:99-102 | a recent tail of the attempt list is still there, followed by the new attempt |
| LoginForm.Intentos | EcoRutas-main/src/components/forms/LoginForm.tsx:93-96 | pairs each failure time with its email, in order |
| LoginForm.RegistrarTodosTerminaEn | EcoRutas-main/src/components/forms/LoginForm.tsx:92-104 | failures that follow each other within the window all end up, in order, at the end of the list |
| LoginForm.CincoFallosSeguidosBloquean | EcoRutas-main/src/components/forms/LoginForm.tsx:52-104 | five failures within five minutes lock the form until fifteen minutes after the first |
| ForgotPassword.ErrorDeContrasena | EcoRutas-main/src/components/ForgotPassword.tsx:125-143 | the password passes if and only if all four rules hold; otherwise the first failing rule, in source order, gives its message |
| ForgotPassword.MensajeIdentificaRegla | EcoRutas-main/src/components/ForgotPassword.tsx:125-143 | the four messages are distinct, and each message implies that the earlier rules passed |
| ForgotPassword.FiltrarCodigo | EcoRutas-main/src/components/ForgotPassword.tsx:284 | the code is all digits, at most 6 long, and a prefix of the input's digits (all of them when there are at most 6) |
| ForgotPassword.FiltrarCodigoIdempotente | EcoRutas-main/src/components/ForgotPassword.tsx:284 | filtering twice equals filtering once, and a six-digit code passes through unchanged |
| ForgotPassword.Tick | EcoRutas-main/src/components/ForgotPassword.tsx:78-85 | a tick never makes the timer negative and always lowers it or holds it at 0; resending becomes possible at 1 or below |
| ForgotPassword.CuentaAtras | EcoRutas-main/src/components/ForgotPassword.tsx:73-86 | after k ticks from a fresh start the timer shows 60-k without resend, and from 60 ticks on it shows 0 with resend allowed |
| ForgotPassword.ForgotPasswordModal.constructor | EcoRutas-main/src/components/ForgotPassword.tsx:12-20 | the modal starts at the email step with empty fields, timer 60 and no resend |
| ForgotPassword.ForgotPasswordModal.HandleClose | EcoRutas-main/src/components/ForgotPassword.tsx:25-35 | closing returns to the initial state |
| ForgotPassword.ForgotPasswordModal.OnEmailInput | EcoRutas-main/src/components/ForgotPassword.tsx:222-225 | the email becomes the sanitised input and the error clears |
| ForgotPassword.ForgotPasswordModal.OnCodeInput | EcoRutas-main/src/components/ForgotPassword.tsx:283-287 | the code becomes the filtered input and the error clears |
| ForgotPassword.ForgotPasswordModal.OnPasswordInput | EcoRutas-main/src/components/ForgotPassword.tsx:363-384 | the two password fields take the typed values and the error clears |
| ForgotPassword.ForgotPasswordModal.StartTimer | EcoRutas-main/src/components/ForgotPassword.tsx:73-76 | the timer restarts at 60 with resend disabled |
| ForgotPassword.ForgotPasswordModal.OnTick | EcoRutas-main/src/components/ForgotPassword.tsx:77-86 | one interval tick applies `Tick` to the timer and nothing else changes |
| ForgotPassword.ForgotPasswordModal.HandleSendCode | EcoRutas-main/src/components/ForgotPassword.tsx:38-70 | an invalid email sets the validator's message (or "Email inválido") and stays; a valid one moves to the code step and restarts the timer |
| ForgotPassword.ForgotPasswordModal.HandleVerifyCode | EcoRutas-main/src/components/ForgotPassword.tsx:90-119 | the step moves to the new password if and only if the code has 6 characters; otherwise the code error is set |
| ForgotPassword.ForgotPasswordModal.HandleResetPassword | EcoRutas-main/src/components/ForgotPassword.tsx:122-160 | the step becomes success if and only if the password passes every rule; otherwise the first failing rule's message is set |
| ForgotPassword.ForgotPasswordModal.Back | EcoRutas-main/src/components/ForgotPassword.tsx:338 | "Atrás" returns to the email step and changes nothing else |
| Accessibility.PorcentajesCrecientes | EcoRutas-main/src/context/AccessibilityContext.tsx:56-61 | every step of the ladder has a size, and a higher step always has a strictly larger one |
| Accessibility.IndiceDe | EcoRutas-main/src/context/AccessibilityContext.tsx:135-136 | `indexOf` finds the size's place on the ladder, and gives -1 exactly for a value not on it |
| Accessibility.Agrandar | EcoRutas-main/src/context/AccessibilityContext.tsx:134-140 | growing gives a ladder size, leaves the size unchanged exactly at "extra-large", and turns a size off the ladder into the smallest one |
| Accessibility.Achicar | EcoRutas-main/src/context/AccessibilityContext.tsx:142-148 | shrinking gives a ladder size or leaves the size unchanged, which happens exactly at "small" or off the ladder |
| Accessibility.PasosInversos | EcoRutas-main/src/context/AccessibilityContext.tsx:134-148 | shrinking undoes a real growth and growing undoes a real shrink; each real step moves the percentage in its direction |
| Accessibility.AlternarIdioma | EcoRutas-main/src/context/AccessibilityContext.tsx:130-132 | the result is "es" or "en", and "en" exactly when the language was "es" |
| Accessibility.AlternarDosVeces | EcoRutas-main/src/context/AccessibilityContext.tsx:130-132 | toggling twice restores the language exactly when it was "es" or "en"; any other stored value ends as "en" |
| Accessibility.Guardado | EcoRutas-main/src/context/AccessibilityContext.tsx:67-77 | `stored || fallback`: a missing or empty stored value reads as the fallback |
| Accessibility.AccessibilityState.constructor | EcoRutas-main/src/context/AccessibilityContext.tsx:67-87 | settings start from storage with "es", "normal" and "none" as fallbacks; the flags are on only when stored as "true" |
| Accessibility.AccessibilityState.ToggleLanguage | EcoRutas-main/src/context/AccessibilityContext.tsx:130-132 | the language toggles and every other setting is kept |
| Accessibility.AccessibilityState.IncreaseFontSize | EcoRutas-main/src/context/AccessibilityContext.tsx:134-140 | the font size grows one step and every other setting is kept |
| Accessibility.AccessibilityState.DecreaseFontSize | EcoRutas-main/src/context/AccessibilityContext.tsx:142-148 | the font size shrinks one step and every other setting is kept |
| Accessibility.AccessibilityState.ResetFontSize | EcoRutas-main/src/context/AccessibilityContext.tsx:150-152 | the font size is "normal" and every other setting is kept |
| Accessibility.AccessibilityState.SetColorBlindnessMode | EcoRutas-main/src/context/AccessibilityContext.tsx:154-156 | the colour mode becomes the chosen filter's name and every other setting is kept |
| Accessibility.AccessibilityState.ToggleDarkMode | EcoRutas-main/src/context/AccessibilityContext.tsx:158-160 | dark mode flips, so two toggles restore it, and every other setting is kept |
| Accessibility.AccessibilityState.StopSpeaking | EcoRutas-main/src/context/AccessibilityContext.tsx:187-192 | with speech synthesis available, reading aloud stops |
| Accessibility.AccessibilityState.ToggleSpeech | EcoRutas-main/src/context/AccessibilityContext.tsx:162-167 | read-aloud flips; switching it off also stops any reading in progress |
| Accessibility.AccessibilityState.ResetAllSettings | EcoRutas-main/src/context/AccessibilityContext.tsx:194-201 | language "es", size "normal", colour mode "none", dark mode and read-aloud off, reading stopped |
| PanelNuevaLocalidad.NuevaEntrada | EcoRutas-main/src/pages/DashboardAdmin.tsx:22-23 | the new id is "localidad-" followed by the time; the name is "Nueva localidad " followed by the new list length |
| PanelNuevaLocalidad.SinEntrada | EcoRutas-main/src/pages/DashboardAdmin.tsx:30 | no entry with the id remains, every other entry does, and every entry of the result comes from the list |
| PanelNuevaLocalidad.SinEntradaAppend | EcoRutas-main/src/pages/DashboardAdmin.tsx:30 | removal distributes over concatenation, so the kept entries stay in their order |
| PanelNuevaLocalidad.BorrarDeshaceAgregar | EcoRutas-main/src/pages/DashboardAdmin.tsx:21-31 | deleting an entry just added under a fresh id restores the earlier list, in order |
| PanelNuevaLocalidad.BorrarAusente | EcoRutas-main/src/pages/DashboardAdmin.tsx:28-31 | deleting an id nobody has changes nothing |
| PanelNuevaLocalidad.DashboardAdmin.constructor | EcoRutas-main/src/pages/DashboardAdmin.tsx:17-19 | empty list, no cards, no remembered id |
| PanelNuevaLocalidad.DashboardAdmin.TarjetasSiYSoloSiShowCards | EcoRutas-main/src/pages/DashboardAdmin.tsx:49 | in every reachable state the card view is shown exactly when `showCards` is set |
| PanelNuevaLocalidad.DashboardAdmin.HandleAddLocalidad | EcoRutas-main/src/pages/DashboardAdmin.tsx:21-26 | exactly one new entry is appended after the earlier ones; its id is remembered and the card view opens |
| PanelNuevaLocalidad.DashboardAdmin.HandleDeleteLocalidad | EcoRutas-main/src/pages/DashboardAdmin.tsx:28-31 | a confirmed delete removes every entry with the id; a declined one changes nothing |
| PanelNuevaLocalidad.DashboardAdmin.HandleBackToList | EcoRutas-main/src/pages/DashboardAdmin.tsx:39-42 | the cards close, the remembered id is cleared, the list is kept |
| PanelNuevaLocalidad.DashboardAdmin.HandleCardClick | EcoRutas-main/src/pages/DashboardAdmin.tsx:33-37 | with a remembered id the click leads to that id's section route; without one it does nothing |
| PanelNuevaLocalidad.DashboardAdmin.HandleGoToSection | EcoRutas-main/src/pages/DashboardAdmin.tsx:44-46 | the route is "/dashboard/admin/localidades/{id}/{section}", and no other (id, section) pair has it |

## Left out

- IndexedDB (Dexie) and `localStorage` I/O: the table is a map field and a stored list is an already-parsed optional parameter. The `historialCambios` table declared in src/utils/db.ts:86 is not modelled because no modelled code writes to it.
- Store failures: the modelled store never throws. The dashboards' `catch` branches and the store's `return []`/`return false`/`return null` error paths are therefore not modelled.
- `crypto.randomUUID()`, `Date.now()` and `new Date().toISOString()` are parameters. Each call takes a single time, even where the source reads the clock twice.
- The MIME extraction in `base64ToBlob` is modelled, but its byte decoding (`atob`, `Uint8Array`, `Blob`) is not, and neither are `blobToBase64` and `fileToImagenLocalidad` (file reading).
- JSON: `JSON.parse` in `formatValue` is a function parameter. `JSON.stringify` comparison of two lists is structural list equality.
- A key that is present in a `Partial<Localidad>` but holds `undefined` is not distinguished from an absent key.
- Numbers are integers: prices, `NaN` and fractional percentages are not modelled. The font-size percentages are in tenths of a percent.
- Asynchronous sequencing: the `setTimeout`/`setInterval` delays, the simulated API waits in the password-reset modal and the 500 ms padding after a login. A countdown tick is one discrete step.
- `validateEmailDetailed`, `validatePasswordDetailed` and `sanitizeInput` are function parameters, and so is `toLowerCase`. Their module is not part of this model.
- Toasts, `navigate`, `confirm` (a boolean input), react-hook-form wiring and all rendering.
- Speech synthesis itself (`speakText`), the DOM class and style writes, persistence to storage, the i18next calls and the keyboard shortcuts. Only whether synthesis is available is a parameter.
- ForgotPassword.ErrorDeContrasena: length is counted in characters (code points), while JavaScript's `length` counts UTF-16 code units. The two differ for characters outside the Basic Multilingual Plane.
- HistorialCambios.HistorialPage.ClearAll: it filters a separate stored list, not the embedded history that `obtenerHistorialLocalidad` reads. An unparseable stored list is modelled as `None` and leaves everything unchanged, as the `catch` does.
- LoginForm.LoginFormState.OnSubmit: EcoRutas-main/src/context/AuthContext.tsx is not part of this model. Its `login` is taken to be the `users.find` on email and password of src/context/AuthContext.tsx, which never throws, so a `login` that throws into the `catch` is not modelled. The one throw modelled is the `rememberEmail` write (`almacenLanza`).
- LoginForm.LoginFormState.OnSubmit: `checkLockout` reads the time once, and a failure is recorded at a second time (`ahoraFallo`). The toast's "minutes remaining" text is not modelled.
- PanelAdmin.DashboardAdmin.HandleToggleStatus: the store's `updateLocalidadStatus` only returns false for an unknown id, because storage errors are not modelled.
- The `getActionIcon` icon choice in HistorialCambios.tsx is not modelled because it is presentational.
- src/pages/DashboardAdmin.tsx `handleAddLocalidad` only navigates to a fresh id's form, so it is covered by the route functions and not modelled separately.
- `getLocalidadesPublicadas` and `getAllLocalidades` are modelled as lists in the table's iteration order. The index order that Dexie uses is not modelled.
