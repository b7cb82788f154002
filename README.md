# Tutodo client core in Dafny

Tutodo is a second-hand marketplace whose browser client is an Angular
application. This project models the client-side logic of that application and
proves properties of the model: the session held by the authentication service
and the two route guards built on it, the form validations of registration,
login, profile editing, password recovery, publishing and editing a listing,
the WhatsApp number formatting pipe, the public catalogue with its server-side
pages, the administrator's product list (text and state filters, client-side
pages of 20, counters, moderation actions), the administrator's user list, the
report queue grouped by product with its ranked reasons, the owner's listings,
favourites, the listing detail page with its image carousel and report dialog,
the home page, the statistics dashboard and the nearby-search page.

Each source file is one module. For each component and for the
authentication service, that module has a class whose fields are the
component's fields, and the class's methods change them as the TypeScript
methods do. The two guards and the pipe are functions. Each success or error callback of an HTTP request is a method of its own
that takes the server's answer as an argument. The answer of a confirmation
dialog and the fact that the server accepted a request are boolean arguments.
A navigation is recorded in a `lastRoute` field. The pure parts (filters,
image choice, message classification, formatting) are functions.

Besides the modules for the source files there are five shared modules:
- `Js` models the JavaScript value semantics the code relies on: `undefined` as
  `Option`, truthiness, `trim`, `toLowerCase`, `includes`, `replace` with a string
  pattern and with `\D`, `\s` or `\+`, and number-to-string.
- `Seqs` holds `filter`, `slice` and `splice`, subsequences and distinct elements,
  with their lemmas.
- `Entities` holds the records the pages share (`Producto`, `User`, `Usuario`,
  `Reporte`, `Favorito`, the selected `File`), the image-URL precedence and the
  9-digit WhatsApp normalisation.
- `Pager` models the page count, the page slice and the window of at most five
  page numbers.
- `StableSort` models `Array.prototype.sort` with a descending numeric comparator.
  The ECMAScript specification requires that sort to be stable.

JavaScript numbers are doubles. The counters, ids and indices involved stay
far below 2^53, where doubles are exact, so the model uses unbounded integers
for them. Prices and coordinates are reals.

## Model

| member | source | states |
|---|---|---|
| Entities.ImageUrl | src/app/components/mis-publicaciones/mis-publicaciones.ts:102-110 | the listing image is a truthy `imagenPrincipal`, else the first element of a non-empty `imagenesUrls`, else the placeholder |
| Entities.NueveDigitos | src/app/components/register/register.ts:37-44 | the normalised WhatsApp input is all digits and at most 9 long; it is every digit of the input when there are at most 9 of them and the first 9 otherwise |
| Entities.NueveDigitosIdempotente | src/app/components/register/register.ts:39-44 | normalising an already normalised input changes nothing |
| AdminGuard.Decidir | src/app/guards/admin.guard.ts:5-18 | the admin guard lets a session in iff a user with role exactly "ADMIN" exists (so never without a user); a denial redirects to "/", a grant does not navigate |
| NoAdminGuard.Decidir | src/app/guards/no-admin.guard.ts:5-16 | the no-admin guard lets a session in iff it is not an administrator session (so always without a user); a denial redirects to "/admin/dashboard", a grant does not navigate |
| NoAdminGuard.GuardasComplementarias | src/app/guards/no-admin.guard.ts:10-15 | for every session exactly one of the two guards lets it in, and their redirections differ |
| AuthService.UsuarioDe | src/app/services/auth.service.ts:79-87 | the session user built from a login or registration answer has `id` and `usuarioId` both equal to the answer's `usuarioId` and copies the other five fields |
| AuthService.UsuarioDeConId | src/app/services/auth.service.ts:79-87 | such a user passes the pages' `currentUser.usuarioId` checks iff the backend id is not 0 |
| AuthService.UsuarioDeAdmin | src/app/services/auth.service.ts:79-87 | such a session is an administrator session iff the answer's role is "ADMIN" |
| AuthService.AuthService.constructor | src/app/services/auth.service.ts:46-52 | the service restores the stored user, or nobody when storage holds none |
| AuthService.AuthService.IsLoggedIn | src/app/services/auth.service.ts:58-60 | logged in iff there is a current user |
| AuthService.AuthService.IsAdmin | src/app/services/auth.service.ts:66-68 | administrator iff the current user's role is exactly "ADMIN"; an administrator is logged in |
| AuthService.AuthService.GetUserRole | src/app/services/auth.service.ts:70-72 | no role without a user or for an empty role; otherwise the user's role |
| AuthService.AuthService.AdminTieneRol | src/app/services/auth.service.ts:66-72 | an administrator session always reports the role "ADMIN" |
| AuthService.AuthService.IniciarSesion | src/app/services/auth.service.ts:74-112 | after a login or registration answer the session and storage hold the user built from it, the service is logged in, and it is an administrator iff the answer's role is "ADMIN"; the token entry is untouched |
| AuthService.AuthService.Logout | src/app/services/auth.service.ts:114-118 | after logout nobody is logged in, both storage entries are gone, and no role is reported |
| AuthService.AuthService.UpdateUser | src/app/services/auth.service.ts:120-123 | the given user becomes the session and is stored |
| Register.ErrorDeValidacion | src/app/components/register/register.ts:53-79 | the registration form fails on the first of: passwords differ, not exactly 9 digits, no question chosen, trimmed answer shorter than 2; it passes iff none holds |
| Register.SinLongitudMinima | src/app/components/register/register.ts:53-79 | a one-character password passes when the rest of the form does: no minimum password length |
| Register.Register.constructor | src/app/components/register/register.ts:14-28 | the form starts empty and not loading |
| Register.Register.OnWhatsappInput | src/app/components/register/register.ts:37-48 | the input keeps at most 9 digits, the stored number becomes "+51" followed by them, and a second call would change nothing |
| Register.Register.OnSubmit | src/app/components/register/register.ts:50-85 | a failing check sets its message and sends nothing with loading untouched; otherwise the number becomes "+51" and the digits (12 characters), loading starts and that form is sent |
| Register.Register.RegistroExito | src/app/components/register/register.ts:87-100 | success navigates to "/productos" and stops loading |
| Register.Register.RegistroError | src/app/components/register/register.ts:92-97 | an error shows the backend's message or the default text and stops loading |
| RecuperarContrasena.RechazoRestablecer | src/app/components/recuperar-contrasena/recuperar-contrasena.ts:95-103 | the reset is rejected as too short iff the password has fewer than 6 characters, as mismatched iff it is long enough but differs from the confirmation, and accepted otherwise |
| RecuperarContrasena.CortaAntesQueDistinta | src/app/components/recuperar-contrasena/recuperar-contrasena.ts:95-103 | a short password is reported as short even when the confirmation differs too |
| RecuperarContrasena.RecuperarContrasena.constructor | src/app/components/recuperar-contrasena/recuperar-contrasena.ts:17-28 | the wizard starts at step 1 with empty fields, not loading |
| RecuperarContrasena.RecuperarContrasena.VerificarEmail | src/app/components/recuperar-contrasena/recuperar-contrasena.ts:37-45 | the email is sent iff it is non-empty and contains '@'; sending starts loading and clears the error, not sending changes nothing; the step stays in 1..3 |
| RecuperarContrasena.RecuperarContrasena.VerificarEmailRespuesta | src/app/components/recuperar-contrasena/recuperar-contrasena.ts:47-56 | the wizard moves to step 2 and shows the question only when the account has one; loading stops |
| RecuperarContrasena.RecuperarContrasena.VerificarEmailError | src/app/components/recuperar-contrasena/recuperar-contrasena.ts:57-61 | an error shows the backend's message or the default text, stops loading and keeps the step |
| RecuperarContrasena.RecuperarContrasena.VerificarRespuesta | src/app/components/recuperar-contrasena/recuperar-contrasena.ts:66-74 | the answer is sent iff it is non-empty with at least 2 characters once trimmed |
| RecuperarContrasena.RecuperarContrasena.VerificarRespuestaRespuesta | src/app/components/recuperar-contrasena/recuperar-contrasena.ts:76-84 | the wizard moves to step 3 only for a valid answer; loading stops |
| RecuperarContrasena.RecuperarContrasena.VerificarRespuestaError | src/app/components/recuperar-contrasena/recuperar-contrasena.ts:85-89 | an error shows the backend's message or the default text and stops loading |
| RecuperarContrasena.RecuperarContrasena.RestablecerContrasena | src/app/components/recuperar-contrasena/recuperar-contrasena.ts:94-107 | the new password is sent iff it is accepted by the two ordered checks; a rejection changes nothing |
| RecuperarContrasena.RecuperarContrasena.RestablecerExito | src/app/components/recuperar-contrasena/recuperar-contrasena.ts:109-114 | success navigates to "/login" and leaves loading as it was |
| RecuperarContrasena.RecuperarContrasena.RestablecerError | src/app/components/recuperar-contrasena/recuperar-contrasena.ts:115-119 | an error shows the backend's message or the default text and stops loading |
| RecuperarContrasena.RecuperarContrasena.VolverPaso | src/app/components/recuperar-contrasena/recuperar-contrasena.ts:124-129 | one step back and the error cleared when above step 1; at step 1 nothing changes; the step never leaves 1..3 |
| Login.MensajeCrudo | src/app/components/login/login.ts:46 | the raw message is a non-empty `error` field, else a non-empty `mensaje` field, else the default text; it is never empty |
| Login.MensajeMostrado | src/app/components/login/login.ts:49-55 | an account-state message ("Cuenta suspendida" or "Cuenta eliminada") is shown whole; otherwise a wrong-credentials message becomes the fixed hint; anything else is shown whole |
| Login.MensajeMostradoCasos | src/app/components/login/login.ts:49-55 | the shown message is the raw one or the hint, and it differs from the raw one only when the raw one mentions the credentials and not the account's state |
| Login.Login.constructor | src/app/components/login/login.ts:14-20 | the form starts empty and not loading |
| Login.Login.OnSubmit | src/app/components/login/login.ts:27-29 | submitting starts loading and clears the error |
| Login.Login.LoginExito | src/app/components/login/login.ts:32-40 | an administrator session is routed to "/admin/dashboard", every other one to "/productos"; loading stops |
| Login.Login.LoginError | src/app/components/login/login.ts:42-58 | the error shown is the classified raw message, never empty, and loading stops |
| MisReportes.RazonBadgeClass | src/app/components/mis-reportes/mis-reportes.ts:49-55 | the badge is one of four classes; "Precio" wins and gives 'bg-warning', then "imágenes" gives 'bg-danger', then "estafa" 'bg-dark', then "Contenido" 'bg-danger'; it is 'bg-secondary' iff none of the four keywords occurs |
| MisReportes.SinPalabraClave | src/app/components/mis-reportes/mis-reportes.ts:49-55 | a reason lacking the letters 'P', 'á', 'f' and 'C' gets 'bg-secondary' |
| MisReportes.InsigniaPrecio | src/app/services/reporte.service.ts:30-39 | the predefined price reason gets 'bg-warning' |
| MisReportes.InsigniaImagenes | src/app/services/reporte.service.ts:30-39 | the predefined images reason gets 'bg-danger' |
| MisReportes.NoDisponibleSinPrecio | src/app/services/reporte.service.ts:30-39 | "Producto no disponible" does not contain "Precio" |
| MisReportes.InsigniaNoDisponible | src/app/services/reporte.service.ts:30-39 | the predefined unavailable-product reason gets 'bg-secondary' |
| MisReportes.InsigniaContenido | src/app/services/reporte.service.ts:30-39 | the predefined inappropriate-content reason gets 'bg-danger' |
| MisReportes.InsigniaEstafa | src/app/services/reporte.service.ts:30-39 | the predefined fraud reason gets 'bg-dark' |
| MisReportes.InsigniaPrimeras | src/app/services/reporte.service.ts:30-39 | of the first four predefined reasons exactly the first two get a coloured badge |
| MisReportes.InsigniaUltimas | src/app/services/reporte.service.ts:30-39 | of the last four predefined reasons exactly the first two of them get a coloured badge |
| MisReportes.InsigniaPredefinida | src/app/components/mis-reportes/mis-reportes.ts:49-55 | a predefined reason gets a coloured badge iff it is the 1st, 2nd, 5th or 6th of the eight, so exactly four of them do |
| MisReportes.MisReportes.constructor | src/app/components/mis-reportes/mis-reportes.ts:15-16 | the page starts with no reports and loading |
| MisReportes.MisReportes.NgOnInit | src/app/components/mis-reportes/mis-reportes.ts:24-34 | the reports of the user are requested iff there is a user with a truthy `usuarioId`; otherwise the page goes to "/login" and loads nothing |
| MisReportes.MisReportes.CargarExito | src/app/components/mis-reportes/mis-reportes.ts:38-41 | the loaded reports are shown and loading stops |
| MisReportes.MisReportes.CargarError | src/app/components/mis-reportes/mis-reportes.ts:42-45 | an error keeps the list and stops loading |
| Favoritos.QuitarFavoritoPorId | src/app/components/favoritos/favoritos.ts:61 | removing by id keeps an order-preserving subsequence holding exactly the favourites whose id differs, each as often as before |
| Favoritos.GetImageUrl | src/app/components/favoritos/favoritos.ts:84-96 | the placeholder without an embedded listing; otherwise the listing's image precedence, ending in the placeholder |
| Favoritos.NumeroWhatsApp | src/app/components/favoritos/favoritos.ts:72-80 | no link iff the listing or its seller's number is missing or empty; otherwise the number with every '+' removed |
| Favoritos.SinMasEnDigitos | src/app/components/favoritos/favoritos.ts:80 | removing '+' from digits changes nothing |
| Favoritos.DigitosTrasPrefijo | src/app/components/favoritos/favoritos.ts:80 | "51" followed by digits is all digits |
| Favoritos.SinMasEnNumeroGuardado | src/app/components/favoritos/favoritos.ts:80 | a number stored as "+51" and digits loses only its '+' |
| Favoritos.NumeroGuardadoEnEnlace | src/app/components/favoritos/favoritos.ts:72-80 | a seller number stored by the forms as "+51" and digits is linked as "51" and the digits |
| Favoritos.Favoritos.constructor | src/app/components/favoritos/favoritos.ts:15-16 | the page starts empty and not loading |
| Favoritos.Favoritos.NgOnInit | src/app/components/favoritos/favoritos.ts:25-39 | the favourites are requested, with loading on, iff there is a user; otherwise the page goes to "/login" |
| Favoritos.Favoritos.CargarExito | src/app/components/favoritos/favoritos.ts:42-45 | the loaded favourites are shown and loading stops |
| Favoritos.Favoritos.CargarError | src/app/components/favoritos/favoritos.ts:46-50 | an error keeps the list and stops loading |
| Favoritos.Favoritos.QuitarDeFavoritos | src/app/components/favoritos/favoritos.ts:54-70 | the removal is sent iff there is a user with a truthy `usuarioId` and the user confirms; on success exactly the favourites with that id leave the list, otherwise it is unchanged |
| Home.ProductosRecientes | src/app/components/home/home.ts:31 | the recent listings are a prefix of the answer of length min(6, its length) |
| Home.GetImageUrl | src/app/components/home/home.ts:41-49 | a truthy `imagenPrincipal`, else the first element of a non-empty `imagenesUrls`, else the 400x300 placeholder |
| Home.Home.constructor | src/app/components/home/home.ts:15-16 | the page starts with no listings and loading |
| Home.Home.CargarExito | src/app/components/home/home.ts:29-33 | the page shows the recent prefix of the answer, never more than six, and loading stops |
| Home.Home.CargarError | src/app/components/home/home.ts:34-37 | an error keeps the list, which stays within six, and loading stops |
| Dashboard.ActivosYVendidos | src/app/components/dashboard/dashboard.ts:57-59 | no listing counts both as active and as sold, so the two counters together never exceed the number of listings |
| Dashboard.Dashboard.constructor | src/app/components/dashboard/dashboard.ts:17-24 | all four counters start at 0, loading |
| Dashboard.Dashboard.NgOnInit | src/app/components/dashboard/dashboard.ts:33-44 | statistics load iff the session is an administrator's; anybody else is sent to "/" and nothing loads |
| Dashboard.Dashboard.CargarUsuariosExito | src/app/components/dashboard/dashboard.ts:48-50 | the user counter is the length of the user list; nothing else changes |
| Dashboard.Dashboard.CargarProductosExito | src/app/components/dashboard/dashboard.ts:56-61 | the listing counters are the answer's length, the number that are active and not sold, and the number that are sold; loading stops; the active and sold counters never exceed the total |
| Dashboard.Dashboard.CargarProductosError | src/app/components/dashboard/dashboard.ts:62-65 | an error keeps the counters and stops loading |
| BusquedaCercana.Zoom | src/app/components/busqueda-cercana/busqueda-cercana.ts:161-165 | the zoom is 15 up to 1 km, 14 up to 2 km, 13 up to 3 km and 12 beyond, so always within 12..15 |
| BusquedaCercana.ZoomAntitono | src/app/components/busqueda-cercana/busqueda-cercana.ts:161-165 | a wider radius never zooms in |
| BusquedaCercana.ZoomDeOpciones | src/app/components/busqueda-cercana/busqueda-cercana.ts:38-44 | the offered radii 0.5, 1, 2, 3 and 5 km give the zooms 15, 15, 14, 13 and 12 |
| BusquedaCercana.RadioMetros | src/app/components/busqueda-cercana/busqueda-cercana.ts:107 | the circle radius in metres is the radius in km times 1000 |
| BusquedaCercana.CategoriaDeBusqueda | src/app/components/busqueda-cercana/busqueda-cercana.ts:178 | the search carries the selected category iff one is selected and it is not 0 |
| BusquedaCercana.Marcadores | src/app/components/busqueda-cercana/busqueda-cercana.ts:212-237 | one marker per listing with both coordinates truthy, in the listings' order |
| BusquedaCercana.MarcadoresSnoc | src/app/components/busqueda-cercana/busqueda-cercana.ts:212-237 | one more listing adds its marker at the end iff it has coordinates |
| BusquedaCercana.MarcadoresDeProductos | src/app/components/busqueda-cercana/busqueda-cercana.ts:212-237 | a marker is among the markers iff it belongs to a listing of the list that has coordinates |
| BusquedaCercana.GetImageUrl | src/app/components/busqueda-cercana/busqueda-cercana.ts:246-250 | the popup image is a truthy `imagenPrincipal`, else a truthy first URL, else the 100x100 placeholder; never empty |
| BusquedaCercana.GetImageUrlComoListado | src/app/components/busqueda-cercana/busqueda-cercana.ts:246-250 | the popup image agrees with the listing pages' precedence whenever that precedence gives a non-empty URL |
| BusquedaCercana.GetDistancia | src/app/components/busqueda-cercana/busqueda-cercana.ts:252-265 | '-' when a coordinate is missing or 0; otherwise the formatted distance to the listing's coordinates |
| BusquedaCercana.BusquedaCercana.constructor | src/app/components/busqueda-cercana/busqueda-cercana.ts:25-46 | the page starts over Trujillo with the marker and circle on it, a 2 km radius, a circle of 2000 m, zoom 13, no markers and no position obtained |
| BusquedaCercana.BusquedaCercana.MoverUbicacion | src/app/components/busqueda-cercana/busqueda-cercana.ts:115-120 | dropping the marker makes its position the searched position and moves the circle there; the zoom and flags stay |
| BusquedaCercana.BusquedaCercana.ObtenerMiUbicacion | src/app/components/busqueda-cercana/busqueda-cercana.ts:123-130 | without geolocation nothing changes and nothing is asked; otherwise the position search starts |
| BusquedaCercana.BusquedaCercana.UbicacionRecibida | src/app/components/busqueda-cercana/busqueda-cercana.ts:133-147 | the reported position becomes the searched one, the position is marked obtained, the search for it ends, the zoom is 15 and marker and circle move there |
| BusquedaCercana.BusquedaCercana.UbicacionError | src/app/components/busqueda-cercana/busqueda-cercana.ts:149-153 | a failed position request ends the search for it and leaves the position (by default Trujillo) as it was |
| BusquedaCercana.BuscarTrasLocalizar | src/app/components/busqueda-cercana/busqueda-cercana.ts:59-62 | after the page opens and the browser's position arrives, a search the user then starts (`buscarCercanos`, 170-176) carries that position with 2 km and no category, at zoom 15 |
| BusquedaCercana.BusquedaCercana.CambiarRadio | src/app/components/busqueda-cercana/busqueda-cercana.ts:157-168 | the circle radius and the zoom follow the selected radius; nothing else changes |
| BusquedaCercana.BusquedaCercana.LimpiarMarcadores | src/app/components/busqueda-cercana/busqueda-cercana.ts:241-244 | no markers are left; nothing else changes |
| BusquedaCercana.BusquedaCercana.BuscarCercanos | src/app/components/busqueda-cercana/busqueda-cercana.ts:170-179 | the markers are removed, loading starts, and the request carries the position, the radius and the category or none |
| BusquedaCercana.BusquedaCercana.AgregarMarcadoresProductos | src/app/components/busqueda-cercana/busqueda-cercana.ts:202-239 | exactly the markers of the current listings are appended to the marker list, in order |
| BusquedaCercana.BusquedaCercana.BuscarExito | src/app/components/busqueda-cercana/busqueda-cercana.ts:180-193 | the answer's listings are shown, loading stops, and their markers are appended |
| BusquedaCercana.BusquedaCercana.BuscarError | src/app/components/busqueda-cercana/busqueda-cercana.ts:194-198 | an error stops loading and changes nothing else |
| BusquedaCercana.BuscarYRecibir | src/app/components/busqueda-cercana/busqueda-cercana.ts:170-239 | a search followed by its answer leaves exactly one marker per returned listing with coordinates, in response order |
| MisPublicaciones.OcultosYVisibles | src/app/components/mis-publicaciones/mis-publicaciones.ts:95-99 | the non-deleted and the deleted listings together are all of them |
| MisPublicaciones.QuitarPorId | src/app/components/mis-publicaciones/mis-publicaciones.ts:76 | deleting by id keeps an order-preserving subsequence holding exactly the listings whose id differs, each as often as before |
| MisPublicaciones.GetImageUrl | src/app/components/mis-publicaciones/mis-publicaciones.ts:102-110 | a truthy `imagenPrincipal`, else the first element of a non-empty `imagenesUrls`, else the 300x200 placeholder |
| MisPublicaciones.MisPublicaciones.constructor | src/app/components/mis-publicaciones/mis-publicaciones.ts:14-16 | the page starts empty, not loading, with deleted listings hidden |
| MisPublicaciones.MisPublicaciones.Iniciar | src/app/components/mis-publicaciones/mis-publicaciones.ts:24-40 | without a user the page goes to "/login"; the listings are requested, with loading on, iff the user has a truthy `usuarioId` |
| MisPublicaciones.MisPublicaciones.CargarExito | src/app/components/mis-publicaciones/mis-publicaciones.ts:43-46 | the loaded listings are shown and loading stops |
| MisPublicaciones.MisPublicaciones.CargarError | src/app/components/mis-publicaciones/mis-publicaciones.ts:47-52 | an error keeps the list and stops loading |
| MisPublicaciones.MisPublicaciones.MarcarComoVendido | src/app/components/mis-publicaciones/mis-publicaciones.ts:56-70 | the request goes out iff confirmed; on success exactly that listing becomes sold and inactive, the list keeps its length and every other entry |
| MisPublicaciones.MisPublicaciones.EliminarProducto | src/app/components/mis-publicaciones/mis-publicaciones.ts:72-85 | the request goes out iff confirmed; on success exactly the listings with that id leave the list |
| MisPublicaciones.MisPublicaciones.ToggleMostrarEliminados | src/app/components/mis-publicaciones/mis-publicaciones.ts:87-89 | the setting flips, so toggling twice restores it; nothing else changes |
| MisPublicaciones.MisPublicaciones.ProductosVisibles | src/app/components/mis-publicaciones/mis-publicaciones.ts:91-96 | all listings when deleted ones are shown; otherwise an order-preserving subsequence holding exactly the non-deleted listings, each as often as before |
| MisPublicaciones.MisPublicaciones.CantidadEliminados | src/app/components/mis-publicaciones/mis-publicaciones.ts:98-100 | the deleted count, over all listings, plus the visible ones is the whole list when deleted ones are hidden |
| Usuarios.FiltrarSubsecuencia | src/app/components/admin/usuarios/usuarios.ts:66-96 | the shown users are an order-preserving subsequence of the loaded ones, holding exactly those that pass the text test (a blank term passes everyone; otherwise the lower-cased term is in the lower-cased name, surname or e-mail or in the raw phone number) and the state test ('activos', 'suspendidos', 'eliminados', anything else passes everyone), each as often as among the loaded users |
| Usuarios.EstadosParticion | src/app/components/admin/usuarios/usuarios.ts:104-115 | every user is in exactly one of the three states, so the three counts add up to the number of users |
| Usuarios.Seleccion | src/app/components/admin/usuarios/usuarios.ts:96 | the users at the filtered positions are the loaded users' objects at those positions, in order |
| Usuarios.SeleccionFilter | src/app/components/admin/usuarios/usuarios.ts:72-93 | filtering the positions by a test on their users selects exactly the filtered users |
| Usuarios.Usuarios.UsuariosFiltrados | src/app/components/admin/usuarios/usuarios.ts:21 | the shown list holds, entry by entry, the loaded users at the filtered positions |
| Usuarios.Usuarios.constructor | src/app/components/admin/usuarios/usuarios.ts:20-24 | the page starts empty, loading, with an empty term and the default filter 'activos' |
| Usuarios.Usuarios.Iniciar | src/app/components/admin/usuarios/usuarios.ts:39-48 | the users are requested iff there is a user with a truthy `usuarioId`; otherwise the page goes to "/login" |
| Usuarios.Usuarios.FiltrarUsuarios | src/app/components/admin/usuarios/usuarios.ts:66-97 | the shown list becomes exactly the text filter followed by the state filter of the loaded users, sharing their objects |
| Usuarios.Usuarios.CargarUsuariosExito | src/app/components/admin/usuarios/usuarios.ts:52-56 | the loaded users are stored and the current filter, by default 'activos', is applied at once; loading stops |
| Usuarios.Usuarios.CargarUsuariosError | src/app/components/admin/usuarios/usuarios.ts:57-62 | an error sends the page to "/" and stops loading |
| Usuarios.Usuarios.CambiarFiltroEstado | src/app/components/admin/usuarios/usuarios.ts:99-102 | the state filter becomes the given one and the shown list is recomputed with it |
| Usuarios.Usuarios.ContarPorEstado | src/app/components/admin/usuarios/usuarios.ts:104-115 | each count is at most the number of loaded users and 0 iff no loaded user is in that state; an unknown state counts 0 |
| Usuarios.EsAdminComoSesion | src/app/components/admin/usuarios/usuarios.ts:117-119 | a listed user is an administrator iff a session with the same role passes the guards' administrator check |
| Usuarios.Usuarios.ContarPorEstadoParticion | src/app/components/admin/usuarios/usuarios.ts:104-115 | the three counters range over all loaded users, whatever the filter, and add up to their number |
| Usuarios.Usuarios.SuspenderUsuario | src/app/components/admin/usuarios/usuarios.ts:130-148 | the request goes out iff confirmed with a user that has a truthy `usuarioId`; success marks exactly that user suspended, also where the shown list shares it, without filtering again |
| Usuarios.Usuarios.ReactivarUsuario | src/app/components/admin/usuarios/usuarios.ts:150-168 | the same guard; success clears exactly that user's suspension, also where the shown list shares it, without filtering again |
| Usuarios.Usuarios.EliminarUsuario | src/app/components/admin/usuarios/usuarios.ts:170-190 | the same guard; success marks exactly that user deleted, keeps the list's length, and filters again |
| ProductosDetalle.Imagenes | src/app/components/productos-detalle/productos-detalle.ts:172-182 | a loaded listing's images are a non-empty `imagenesUrls`, else the truthy `imagenPrincipal` alone, else none |
| ProductosDetalle.IndexOfDistinto | src/app/components/productos-detalle/productos-detalle.ts:190 | in a list of distinct images `indexOf` finds each image at its own position |
| ProductosDetalle.Siguiente | src/app/components/productos-detalle/productos-detalle.ts:195-202 | with at most one image the selection stays; otherwise the next image, the last wrapping to the first, and a selection not in the list going to the first |
| ProductosDetalle.AnteriorComoEscrito | src/app/components/productos-detalle/productos-detalle.ts:186-193 | `imagenAnterior` as written: with at most one image the selection stays; otherwise the previous image, the first wrapping to the last |
| ProductosDetalle.AnteriorComoEscritoIndefinido | src/app/components/productos-detalle/productos-detalle.ts:190-192 | with several images and the selection not among them, the previous index is -2 and no image is selected |
| ProductosDetalle.AnteriorComoEscritoEjemplo | src/app/components/productos-detalle/productos-detalle.ts:186-193 | a main image "p.jpg" not among the URLs ["a.jpg", "b.jpg"] leaves no image selected after going back |
| ProductosDetalle.Anterior | src/app/components/productos-detalle/productos-detalle.ts:186-193 | the corrected step back: the previous image, any index at or below 0 wrapping to the last; it agrees with the code as written whenever the selection is in the list |
| ProductosDetalle.SiguienteAnterior | src/app/components/productos-detalle/productos-detalle.ts:186-202 | for distinct images that contain the selection, forward then back, and back then forward, restore the selection |
| ProductosDetalle.ImagenIndex | src/app/components/productos-detalle/productos-detalle.ts:204-210 | '' for at most one image; otherwise "position / count" with the 1-based position, "0 / n" for a selection not in the list |
| ProductosDetalle.ProductosDetalle.constructor | src/app/components/productos-detalle/productos-detalle.ts:20-30 | the page starts without a listing, loading, with the report dialog closed and empty |
| ProductosDetalle.ProductosDetalle.GetImagenPrincipal | src/app/components/productos-detalle/productos-detalle.ts:154-167 | the placeholder without a listing; otherwise a truthy `imagenPrincipal`, else the first of a non-empty `imagenesUrls`, else the placeholder |
| ProductosDetalle.ProductosDetalle.GetImagenes | src/app/components/productos-detalle/productos-detalle.ts:169-183 | no images without a listing; otherwise the listing's image list |
| ProductosDetalle.ProductosDetalle.CargarProducto | src/app/components/productos-detalle/productos-detalle.ts:70-71 | loading a listing starts loading and changes nothing else |
| ProductosDetalle.ProductosDetalle.CargarProductoExito | src/app/components/productos-detalle/productos-detalle.ts:74-77 | the loaded listing is shown with its main image selected, and loading stops |
| ProductosDetalle.ProductosDetalle.CargarProductoError | src/app/components/productos-detalle/productos-detalle.ts:88-93 | an error stops loading and goes to "/productos" |
| ProductosDetalle.ProductosDetalle.SeleccionarImagen | src/app/components/productos-detalle/productos-detalle.ts:150-152 | the given image becomes the selection |
| ProductosDetalle.ProductosDetalle.ImagenSiguiente | src/app/components/productos-detalle/productos-detalle.ts:195-202 | the selection moves to the next image of the listing |
| ProductosDetalle.ProductosDetalle.ImagenAnterior | src/app/components/productos-detalle/productos-detalle.ts:186-193 | the selection moves to the previous image of the listing, by the corrected step back |
| ProductosDetalle.ProductosDetalle.GetImagenIndex | src/app/components/productos-detalle/productos-detalle.ts:204-210 | '' for at most one image; otherwise "i / n" with i the selection's 1-based position, or "0 / n" for a selection not in the list |
| ProductosDetalle.ProductosDetalle.EsPropio | src/app/components/productos-detalle/productos-detalle.ts:293-300 | own listing iff there are a session user and a listing and the user's `usuarioId` is the listing's owner |
| ProductosDetalle.ProductosDetalle.AbrirModalReporte | src/app/components/productos-detalle/productos-detalle.ts:309-324 | the dialog opens only for a session user who does not own the listing; without a user the page goes to "/login" |
| ProductosDetalle.ProductosDetalle.CerrarModalReporte | src/app/components/productos-detalle/productos-detalle.ts:326-330 | closing the dialog clears the reason and the comment |
| ProductosDetalle.ProductosDetalle.EnviarReporte | src/app/components/productos-detalle/productos-detalle.ts:332-360 | a report is sent iff a reason is chosen and there is a user with a truthy `usuarioId`; it carries the listing, the user, the reason and the comment or none; success marks the listing reported and closes the dialog, failure keeps it |
| PublicarProducto.ErrorDeValidacion | src/app/components/publicar-producto/publicar-producto.ts:378-409 | the publish form fails on the first of: trimmed name shorter than 3, trimmed description shorter than 10, price not above 0, no category, no file; it passes iff none holds |
| PublicarProducto.PublicarProducto.constructor | src/app/components/publicar-producto/publicar-producto.ts:25-48 | the form starts with the empty request (state "nuevo", category 0, user 0), no files, no location and the map hidden |
| PublicarProducto.PublicarProducto.Iniciar | src/app/components/publicar-producto/publicar-producto.ts:75-88 | without a session the page goes to "/login"; a session user with a truthy `usuarioId` becomes the request's owner |
| PublicarProducto.PublicarProducto.ToggleMapa | src/app/components/publicar-producto/publicar-producto.ts:103-104 | the map's visibility flips; nothing else changes |
| PublicarProducto.PublicarProducto.ColocarMarcador | src/app/components/publicar-producto/publicar-producto.ts:214-256 | the pin's coordinates become the request's, and a location counts as selected |
| PublicarProducto.PublicarProducto.LimpiarUbicacion | src/app/components/publicar-producto/publicar-producto.ts:322-334 | coordinates and address are cleared and no location counts as selected |
| PublicarProducto.PublicarProducto.OnFileSelected | src/app/components/publicar-producto/publicar-producto.ts:336-371 | a batch that would pass 8 files is refused whole; otherwise exactly the accepted images of the batch (type "image/...", at most 5 MiB) are appended in order; at most 8 accepted images are ever selected |
| PublicarProducto.PublicarProducto.RemoveImage | src/app/components/publicar-producto/publicar-producto.ts:373-376 | `splice(index, 1)`: an in-range index removes that file and shifts the later ones down |
| PublicarProducto.PublicarProducto.OnSubmit | src/app/components/publicar-producto/publicar-producto.ts:378-414 | the first failing check sets its message and sends nothing; only when all pass does loading start and the request go out |
| PublicarProducto.PublicarProducto.CrearExito | src/app/components/publicar-producto/publicar-producto.ts:415-425 | with files selected the upload follows; otherwise loading stops and the page goes to "/mis-publicaciones" |
| PublicarProducto.PublicarProducto.CrearError | src/app/components/publicar-producto/publicar-producto.ts:426-431 | an error shows the backend's message or the default text and stops loading |
| PublicarProducto.PublicarProducto.SubirImagenesTerminado | src/app/components/publicar-producto/publicar-producto.ts:435-452 | whether the upload succeeds or fails, loading stops and the page goes to "/mis-publicaciones" |
| EditarProducto.FormularioDe | src/app/components/editar-producto/editar-producto.ts:80-88 | the form filled from a loaded listing holds exactly its seven editable fields |
| EditarProducto.ErrorDeValidacion | src/app/components/editar-producto/editar-producto.ts:204-228 | a field is checked only when truthy: a non-empty name needs 3 trimmed characters, a non-empty description 10, a non-zero price must be positive (so 0 passes); then at least one existing or new image is needed; each message is returned iff the checks before it pass and its own fails; it passes iff all of that holds |
| EditarProducto.QuitarImagenPorId | src/app/components/editar-producto/editar-producto.ts:173 | deleting an existing image keeps an order-preserving subsequence holding exactly the images whose id differs, each as often as before |
| EditarProducto.EditarProducto.constructor | src/app/components/editar-producto/editar-producto.ts:20-36 | the form starts empty with no images and no messages |
| EditarProducto.EditarProducto.Iniciar | src/app/components/editar-producto/editar-producto.ts:47-64 | without a session the page goes to "/login"; the listing and its images are requested iff there are a session and an id, which becomes the edited id |
| EditarProducto.EditarProducto.CargarProductoExito | src/app/components/editar-producto/editar-producto.ts:68-89 | the loaded listing is kept; a session user whose `usuarioId` differs from the owner is sent to "/productos" and the form is not filled; otherwise the form gets the seven fields |
| EditarProducto.EditarProducto.CargarProductoError | src/app/components/editar-producto/editar-producto.ts:90-94 | an error goes to "/mis-publicaciones" |
| EditarProducto.EditarProducto.CargarImagenesExito | src/app/components/editar-producto/editar-producto.ts:100-102 | the existing images become the loaded ones |
| EditarProducto.EditarProducto.OnFileSelected | src/app/components/editar-producto/editar-producto.ts:123-156 | a non-empty batch that would take existing plus new images past 8 is refused whole; otherwise exactly the accepted images are appended in order, and existing plus new stay within 8 |
| EditarProducto.EditarProducto.RemoveNewImage | src/app/components/editar-producto/editar-producto.ts:161-164 | `splice(index, 1)` on the new images: an in-range index removes that image and shifts the later ones down |
| EditarProducto.EditarProducto.EliminarImagenExistente | src/app/components/editar-producto/editar-producto.ts:169-183 | the request goes out iff confirmed; success removes exactly the images with that id and reports it, failure keeps them |
| EditarProducto.EditarProducto.OnSubmit | src/app/components/editar-producto/editar-producto.ts:204-233 | both messages are cleared; the first failing check sets its message and sends nothing; otherwise loading starts and the form is sent |
| EditarProducto.EditarProducto.ActualizarExito | src/app/components/editar-producto/editar-producto.ts:234-247 | with new images their upload follows; otherwise loading stops, success is reported and the page goes to "/mis-publicaciones" |
| EditarProducto.EditarProducto.ActualizarError | src/app/components/editar-producto/editar-producto.ts:248-252 | an error shows the backend's message or the default text and stops loading |
| EditarProducto.EditarProducto.SubirNuevasImagenesTerminado | src/app/components/editar-producto/editar-producto.ts:259-278 | either way loading stops, the page goes to "/mis-publicaciones", and the message says whether the images were uploaded |
| EditarProducto.EditarProducto.Cancelar | src/app/components/editar-producto/editar-producto.ts:280-282 | cancelling goes to "/mis-publicaciones" and changes nothing else |
| Perfil.PerfilDe | src/app/components/perfil/perfil.ts:63-69 | the form filled from the session user copies name, surname and number, with the security fields blank and no password |
| Perfil.EntradaDeNumeroGuardado | src/app/components/perfil/perfil.ts:72 | a stored "+51" number of 9 digits puts exactly those 9 digits in the input |
| Perfil.ErrorDeValidacion | src/app/components/perfil/perfil.ts:114-154 | a password is checked only when either field is non-empty, a mismatch before the 6-character rule; then exactly 9 digits; then the security question and answer must be both given or both absent; it passes iff all of that holds |
| Perfil.SiNoVacio | src/app/components/perfil/perfil.ts:161 | a key is copied iff its value is truthy, and then unchanged |
| Perfil.DatosAEnviar | src/app/components/perfil/perfil.ts:156-163 | the update request holds exactly the non-empty fields of the form, each under its own key, and nothing else |
| Perfil.Perfil.constructor | src/app/components/perfil/perfil.ts:18-45 | the page starts with no user, an empty form and edit mode off |
| Perfil.Perfil.Iniciar | src/app/components/perfil/perfil.ts:55-73 | without a session the page goes to "/login"; otherwise the form is filled from the user and the input is the number without its first "+51" and without whitespace |
| Perfil.Perfil.OnWhatsappInput | src/app/components/perfil/perfil.ts:75-86 | the input keeps at most 9 digits and the form's number becomes "+51" followed by them |
| Perfil.Perfil.ActivarEdicion | src/app/components/perfil/perfil.ts:88-92 | edit mode starts with both messages cleared |
| Perfil.Perfil.CancelarEdicion | src/app/components/perfil/perfil.ts:94-112 | edit mode ends; with a user the form and the input are restored from it, the security fields blanked; both password fields are cleared |
| Perfil.Perfil.GuardarCambios | src/app/components/perfil/perfil.ts:114-166 | the first failing check sets its message and sends nothing; an accepted password and an accepted number are written into the form before the later checks; when all pass, loading starts and exactly the pruned form is sent |
| Perfil.Perfil.GuardarExito | src/app/components/perfil/perfil.ts:169-184 | edit mode ends, the password fields are cleared, loading stops, and the page's user takes the form's non-empty name, surname and number |
| Perfil.Perfil.GuardarError | src/app/components/perfil/perfil.ts:185-190 | an error shows the backend's message or the default text and stops loading |
| WhatsappFormat.Limpio | src/app/pipes/whatsapp-format.pipe.ts:12 | the stripped number, without its first "+51", holds no whitespace |
| WhatsappFormat.Agrupar | src/app/pipes/whatsapp-format.pipe.ts:15-17 | a 9-character number is shown as 11 characters, its three groups of three separated by spaces at positions 3 and 7 |
| WhatsappFormat.Transform | src/app/pipes/whatsapp-format.pipe.ts:8-20 | '' for an empty value; a stripped number of 9 characters grouped; any other stripped number as it is |
| WhatsappFormat.SinEspaciosAgrupado | src/app/pipes/whatsapp-format.pipe.ts:16 | removing the spaces from a grouped whitespace-free number gives it back |
| WhatsappFormat.QuitarEspacios | src/app/pipes/whatsapp-format.pipe.ts:12-19 | removing the whitespace from the pipe's output gives back the stripped input |
| WhatsappFormat.TransformIdempotente | src/app/pipes/whatsapp-format.pipe.ts:12-17 | formatting an already formatted 9-character number returns it unchanged, when the number holds no '+' |
| WhatsappFormat.MuestraNumeroGuardado | src/app/pipes/whatsapp-format.pipe.ts:12-17 | a number stored by the forms as "+51" and 9 digits is shown as those digits in three groups |
| WhatsappFormat.LimpioConPrefijo | src/app/pipes/whatsapp-format.pipe.ts:12 | a leading "+51" is the occurrence that is removed |
| WhatsappFormat.DigitosSinEspacios | src/app/pipes/whatsapp-format.pipe.ts:12 | digits are never whitespace |
| WhatsappFormat.EspaciosIntercalados | src/app/pipes/whatsapp-format.pipe.ts:12 | the two spaces in front of and between whitespace-free parts are removed |
| WhatsappFormat.LimpioDoblePrefijo | src/app/pipes/whatsapp-format.pipe.ts:12 | of two leading "+51" only the first is removed |
| WhatsappFormat.PrimeraPasada | src/app/pipes/whatsapp-format.pipe.ts:12-17 | "+51+51" and 6 digits is shown as "+51 ddd ddd" |
| WhatsappFormat.SegundaPasada | src/app/pipes/whatsapp-format.pipe.ts:12-19 | "+51 ddd ddd" is shown as the 6 digits |
| WhatsappFormat.NoIdempotenteEjemplo | src/app/pipes/whatsapp-format.pipe.ts:12-19 | for "+51+51" and 6 digits a second pass changes the shown text, so the pipe is not idempotent on every input |
| Pager.TotalPages | src/app/components/admin/productos-admin/productos-admin.ts:104 | the page count is the least number of pages that covers the list: enough pages, no empty last page, and zero exactly for an empty list |
| Pager.PageSlice | src/app/components/admin/productos-admin/productos-admin.ts:105-107 | a page holds at most pageSize items, and a page that starts inside the list is the run of items from its first index on |
| Pager.PageSliceCovers | src/app/components/admin/productos-admin/productos-admin.ts:105-107 | the item at index p*pageSize+m of the list is item m of page p |
| Pager.Range | src/app/components/admin/productos-admin/productos-admin.ts:128-130 | the consecutive integers from a up to b-1 |
| Pager.PageWindowProperties | src/app/components/admin/productos-admin/productos-admin.ts:117-133 | the page numbers offered are consecutive, all inside [0, totalPages), min(5, totalPages) of them, and include the current page when it exists |
| Pager.PaginaNumeros | src/app/components/admin/productos-admin/productos-admin.ts:117-133 | the loop pushes exactly the window of page numbers, with the properties above |
| ProductosAdmin.PorEstadoEsUnFiltro | src/app/components/admin/productos-admin/productos-admin.ts:88-96 | the state branch keeps exactly the products in the chosen state ('todos' or any unknown value keeps all) |
| ProductosAdmin.PorTextoEsUnFiltro | src/app/components/admin/productos-admin/productos-admin.ts:78-85 | the text branch keeps exactly the products whose lower-cased name, description or category name contains the lower-cased term, and keeps all for a blank term |
| ProductosAdmin.FiltrarEsUnFiltro | src/app/components/admin/productos-admin/productos-admin.ts:74-98 | the two filters in sequence are one filter by the conjunction of both tests |
| ProductosAdmin.FiltrarSubsecuencia | src/app/components/admin/productos-admin/productos-admin.ts:74-98 | the filtered list keeps the loaded order and holds exactly the loaded products that pass both tests, each as often as in the loaded list |
| ProductosAdmin.ContadoresParticion | src/app/components/admin/productos-admin/productos-admin.ts:208-214 | active and inactive products together are exactly the products neither sold nor deleted, and never exceed the list |
| ProductosAdmin.ContarActivos | src/app/components/admin/productos-admin/productos-admin.ts:208-210 | the active count is at most the number of products, 0 iff no product is active, and the whole list iff every product is |
| ProductosAdmin.ContarInactivos | src/app/components/admin/productos-admin/productos-admin.ts:212-214 | the inactive count is at most the number of products, 0 iff no product is inactive, and the whole list iff every product is |
| ProductosAdmin.ContarVendidos | src/app/components/admin/productos-admin/productos-admin.ts:216-218 | the sold count is at most the number of products, 0 iff none is sold, and the whole list iff all are |
| ProductosAdmin.ContarEliminados | src/app/components/admin/productos-admin/productos-admin.ts:220-222 | the deleted count is at most the number of products, 0 iff none is deleted, and the whole list iff all are |
| ProductosAdmin.ProductosAdmin.ContadorActivos | src/app/components/admin/productos-admin/productos-admin.ts:208-210 | the page's active counter ranges over all loaded products, whatever the filter: at most their number, 0 iff none is active, all iff every one is |
| ProductosAdmin.ProductosAdmin.ContadorInactivos | src/app/components/admin/productos-admin/productos-admin.ts:212-214 | the page's inactive counter ranges over all loaded products, whatever the filter: at most their number, 0 iff none is inactive, all iff every one is |
| ProductosAdmin.ProductosAdmin.ContadorVendidos | src/app/components/admin/productos-admin/productos-admin.ts:216-218 | the page's sold counter ranges over all loaded products, whatever the filter: at most their number, 0 iff none is sold, all iff every one is |
| ProductosAdmin.ProductosAdmin.ContadorEliminados | src/app/components/admin/productos-admin/productos-admin.ts:220-222 | the page's deleted counter ranges over all loaded products, whatever the filter: at most their number, 0 iff none is deleted, all iff every one is |
| ProductosAdmin.VendidosYEliminadosSolapan | src/app/components/admin/productos-admin/productos-admin.ts:216-222 | a product both sold and deleted is counted by both counters |
| ProductosAdmin.ProductosAdmin.constructor | src/app/components/admin/productos-admin/productos-admin.ts:18-28 | empty lists, loading, filter 'todos', first page, no pages |
| ProductosAdmin.ProductosAdmin.PaginaVisibleNoVacia | src/app/components/admin/productos-admin/productos-admin.ts:103-115 | on the first page or an existing page the shown page is empty only when nothing passes the filters |
| ProductosAdmin.ProductosAdmin.ActualizarPaginacion | src/app/components/admin/productos-admin/productos-admin.ts:103-108 | the page count and the shown page are recomputed from the filtered list and the current page; nothing else changes |
| ProductosAdmin.ProductosAdmin.CargarProductosExito | src/app/components/admin/productos-admin/productos-admin.ts:57-64 | the loaded list is shown unfiltered, paginated, and loading ends |
| ProductosAdmin.ProductosAdmin.FiltrarProductos | src/app/components/admin/productos-admin/productos-admin.ts:74-101 | the filtered list is recomputed from the whole loaded list, the page goes back to 0 and the pagination invariant holds |
| ProductosAdmin.ProductosAdmin.CambiarPagina | src/app/components/admin/productos-admin/productos-admin.ts:110-115 | a page outside [0, totalPages) changes nothing; an existing page becomes current and its non-empty slice is shown |
| ProductosAdmin.ProductosAdmin.GetPaginaNumeros | src/app/components/admin/productos-admin/productos-admin.ts:117-133 | the window of page numbers for the current page |
| ProductosAdmin.ProductosAdmin.ReactivarProducto | src/app/components/admin/productos-admin/productos-admin.ts:135-154 | sent only when confirmed with a session user id; on success that product alone becomes active and the list is re-filtered from page 0; otherwise nothing changes |
| ProductosAdmin.ProductosAdmin.InhabilitarProducto | src/app/components/admin/productos-admin/productos-admin.ts:156-175 | sent only when confirmed with a session user id; on success that product alone becomes inactive and the list is re-filtered; otherwise nothing changes |
| ProductosAdmin.ProductosAdmin.EliminarProducto | src/app/components/admin/productos-admin/productos-admin.ts:177-196 | sent only when confirmed with a session user id; on success that product is marked deleted but stays in the list, and the list is re-filtered; otherwise nothing changes |
| Productos.DespachoPrioridad | src/app/components/productos/productos.ts:168-174 | a page reload goes to the search for a non-blank keyword, else to the category listing for a chosen category, else to the unfiltered listing, always for 12 items and the session's user id |
| Productos.RedespachoPierdePagina | src/app/components/productos/productos.ts:164-174 | as written, with a keyword or a category active the reload requests page 0 whatever page was chosen |
| Productos.RedespachoPierdePaginaEjemplo | src/app/components/productos/productos.ts:102-175 | on the results of the search "silla", choosing page 2 requests page 0 |
| Productos.RedespachoCorregidoConservaPagina | src/app/components/productos/productos.ts:159-175 | the corrected reload requests the chosen page under the same filter, and differs from the written one only in the page |
| Productos.ConFavoritoSumado | src/app/components/productos/productos.ts:219-221 | the favourites counter goes up by one when defined; an undefined counter and every other field are left alone |
| Productos.Productos.constructor | src/app/components/productos/productos.ts:18-28 | no listings, no category, empty keyword, not loading, page 0, no pages, no requests |
| Productos.Productos.CargarProductosPaginados | src/app/components/productos/productos.ts:82-87 | loading starts and the current page is requested unfiltered with the session's user id; nothing else changes |
| Productos.Productos.AplicarPagina | src/app/components/productos/productos.ts:88-93 | a page response sets the listings, both totals and the current page to the response's number, and loading ends |
| Productos.Productos.FalloPagina | src/app/components/productos/productos.ts:95-98 | a failed request only ends loading |
| Productos.Productos.FiltrarPorCategoria | src/app/components/productos/productos.ts:102-127 | the category is set, the keyword cleared, page 0 requested for the category (or unfiltered for none), and the two filters are not both active |
| Productos.Productos.BuscarProductos | src/app/components/productos/productos.ts:129-154 | a blank keyword reloads the current page unfiltered; otherwise the category is dropped and page 0 of the search is requested; the two filters are not both active |
| Productos.Productos.CambiarPagina | src/app/components/productos/productos.ts:159-175 | out-of-range pages and the current page change nothing; any other page sends one reload under the active filter, and the page becomes 0 when a keyword or category is active; a keyword reload keeps the keyword and drops the category, a category reload clears the keyword and keeps the category, and a plain reload keeps both |
| Productos.Productos.CambiarPaginaCorregida | src/app/components/productos/productos.ts:159-175 | out-of-range pages and the current page change nothing; any other page becomes current and is requested under the active filter |
| Productos.Productos.GetPaginaNumeros | src/app/components/productos/productos.ts:180-196 | the window of page numbers: within [0, totalPages), min(5, totalPages) of them, holding an existing current page |
| Productos.Productos.AgregarAFavoritos | src/app/components/productos/productos.ts:198-232 | sent exactly when the session has a user id; on success only that listing's counter is incremented, when defined; otherwise nothing changes |
| StableSort.SortDesc | src/app/components/admin/reportes-admin/reportes-admin.ts:104-105 | the sort returns a permutation of its input, in descending order of the key |
| StableSort.SortDescStable | src/app/components/admin/reportes-admin/reportes-admin.ts:104-105 | the sort is stable: the elements with any one key keep their relative order |
| StableSort.SortDescOfSorted | src/app/components/admin/reportes-admin/reportes-admin.ts:104-105 | an input already in descending order is returned unchanged |
| StableSort.InsertDesc | src/app/components/admin/reportes-admin/reportes-admin.ts:104-105 | one insertion step of the sort adds exactly the inserted element |
| StableSort.InsertDescSorted | src/app/components/admin/reportes-admin/reportes-admin.ts:104-105 | an insertion step keeps a descending sequence descending |
| StableSort.InsertDescStable | src/app/components/admin/reportes-admin/reportes-admin.ts:104-105 | an insertion step keeps the relative order of the elements of each key |
| ReportesAdmin.TotalSort | src/app/components/admin/reportes-admin/reportes-admin.ts:104-105 | sorting the groups does not change how many reports they hold |
| ReportesAdmin.CuentasPaso | src/app/components/admin/reportes-admin/reportes-admin.ts:74-88 | one more report adds one to the reports counted over the products' groups, whether it opens a group or joins one |
| ReportesAdmin.CuentasTodas | src/app/components/admin/reportes-admin/reportes-admin.ts:74-88 | the reports counted over the groups built in report order are all the reports |
| ReportesAdmin.TotalReportes | src/app/components/admin/reportes-admin/reportes-admin.ts:71-106 | every report is counted exactly once: the group counts sum to the number of reports |
| ReportesAdmin.ReportesDeNoVacio | src/app/components/admin/reportes-admin/reportes-admin.ts:74-83 | a product has reports exactly when it has a group |
| ReportesAdmin.GruposSinRepetir | src/app/components/admin/reportes-admin/reportes-admin.ts:72-83 | the groups before the sort are pairwise different |
| ReportesAdmin.GrupoCorrecto | src/app/components/admin/reportes-admin/reportes-admin.ts:74-102 | every group holds exactly the reports about its product in their original order, counts them (at least one), is named after the first of them and carries their ranked reasons |
| ReportesAdmin.ReporteEnSuGrupo | src/app/components/admin/reportes-admin/reportes-admin.ts:74-88 | every report is in the group of its product |
| ReportesAdmin.AgrupadosSinRepetir | src/app/components/admin/reportes-admin/reportes-admin.ts:72-105 | no product has two groups |
| ReportesAdmin.NumeroDeGrupos | src/app/components/admin/reportes-admin/reportes-admin.ts:72-83 | there are as many groups as distinct reported products |
| ReportesAdmin.AgrupadosOrdenados | src/app/components/admin/reportes-admin/reportes-admin.ts:104-105 | the groups are in descending order of count, and groups of equal count keep the order of their products' first reports |
| ReportesAdmin.SinReportesSinGrupos | src/app/components/admin/reportes-admin/reportes-admin.ts:72-105 | there are no groups exactly when there are no reports |
| ReportesAdmin.RankingLongitud | src/app/components/admin/reportes-admin/reportes-admin.ts:98-100 | a group lists as many reasons as it has different ones, up to three |
| ReportesAdmin.RankingCuenta | src/app/components/admin/reportes-admin/reportes-admin.ts:92-100 | each listed reason is one of the group's, with its number of occurrences in the group |
| ReportesAdmin.RankingSinRepetir | src/app/components/admin/reportes-admin/reportes-admin.ts:93-100 | no reason is listed twice |
| ReportesAdmin.RankingOrdenado | src/app/components/admin/reportes-admin/reportes-admin.ts:99 | the listed reasons are in descending order of count |
| ReportesAdmin.RankingDomina | src/app/components/admin/reportes-admin/reportes-admin.ts:98-100 | a reason left out occurs no more often than any listed one |
| ReportesAdmin.RazonesComunesSpec | src/app/components/admin/reportes-admin/reportes-admin.ts:98-101 | at most three entries, each a listed reason rendered as "razon (n)" |
| ReportesAdmin.GrupoParcialPaso | src/app/components/admin/reportes-admin/reportes-admin.ts:75-87 | adding a report to its product's group keeps the first report's name, adds one to the count and puts the report last; other groups are untouched |
| ReportesAdmin.OrdenPaso | src/app/components/admin/reportes-admin/reportes-admin.ts:75-83 | a report about a new product adds that product at the end of the key order; otherwise the order stays |
| ReportesAdmin.Recolectar | src/app/components/admin/reportes-admin/reportes-admin.ts:72-88 | the first loop builds one group per reported product, keyed in first-report order, each with its name, count and reports |
| ReportesAdmin.RankearPaso | src/app/components/admin/reportes-admin/reportes-admin.ts:91-102 | ranking one group's reasons leaves every other group as it was |
| ReportesAdmin.Rankear | src/app/components/admin/reportes-admin/reportes-admin.ts:91-102 | the second loop gives every group its ranked reasons |
| ReportesAdmin.Agrupar | src/app/components/admin/reportes-admin/reportes-admin.ts:71-106 | the method computes exactly the grouped, ranked and sorted list |
| ReportesAdmin.ReportesAdmin.constructor | src/app/components/admin/reportes-admin/reportes-admin.ts:26-28 | no reports, no groups, loading |
| ReportesAdmin.ReportesAdmin.AgruparReportes | src/app/components/admin/reportes-admin/reportes-admin.ts:71-106 | the groups shown are those of the loaded reports; nothing else changes |
| ReportesAdmin.ReportesAdmin.CargarReportesExito | src/app/components/admin/reportes-admin/reportes-admin.ts:57-61 | the loaded reports are stored, grouped, and loading ends |
| ReportesAdmin.ReportesAdmin.ProductosMasReportados | src/app/components/admin/reportes-admin/reportes-admin.ts:112-114 | the first min(5, number of groups) groups, in order |
| Js.OrElse | src/app/components/perfil/perfil.ts:177-179 | the JavaScript 'or' of two strings: the first when it is non-empty, else the second |
| Js.Lower | src/app/components/admin/productos-admin/productos-admin.ts:79-83 | lower-casing keeps the length and maps every character on its own |
| Js.LowerIdempotent | src/app/components/admin/productos-admin/productos-admin.ts:79-83 | lower-casing a lower-cased string changes nothing |
| Js.Trim | src/app/components/productos/productos.ts:130 | trimming never lengthens a string |
| Js.TrimSpec | src/app/components/productos/productos.ts:130 | a trimmed string neither starts nor ends with whitespace |
| Js.TrimSlice | src/app/components/productos/productos.ts:130 | the trimmed string is the slice of the input between its leading and its trailing whitespace, with only whitespace outside it |
| Js.TrimEmptyIffBlank | src/app/components/productos/productos.ts:130 | a string trims to '' exactly when it is all whitespace |
| Js.ContainsAt | src/app/components/admin/productos-admin/productos-admin.ts:81-83 | `includes` holds exactly when the pattern occurs at some position |
| Js.ReplaceFirst | src/app/pipes/whatsapp-format.pipe.ts:12 | replacing a string pattern changes nothing without an occurrence and swaps a leading occurrence |
| Js.ReplaceFirstAt | src/app/pipes/whatsapp-format.pipe.ts:12 | with `k` the first position where the pattern occurs, the result is the text before `k`, the replacement, and the text after the occurrence |
| Js.DigitsOnly | src/app/components/register/register.ts:39 | removing the non-digits leaves only digits and never lengthens the string |
| Js.DigitsOnlyOfDigits | src/app/components/register/register.ts:39 | removing the non-digits from digits changes nothing |
| Js.RemoveWhitespace | src/app/pipes/whatsapp-format.pipe.ts:12 | removing `\s` leaves no whitespace and never lengthens the string |
| Js.RemoveWhitespaceConcat | src/app/pipes/whatsapp-format.pipe.ts:12 | whitespace removal distributes over concatenation |
| Js.RemovePlus | src/app/components/favoritos/favoritos.ts:80 | removing every '+' leaves none and never lengthens the string |

## Left out

- HTTP requests, RxJS subscriptions and Angular dependency injection are not modelled. Every `next` and `error` callback is a separate method that takes the response, and their order is up to the caller.
- Toasts, `alert`, `console` output, `window.open`, `window.scrollTo` and `encodeURIComponent` are user-interface or foreign calls and are not modelled. So the WhatsApp message text is left out; only the number that goes into the link is modelled.
- `setTimeout` delays are collapsed. A delayed navigation is recorded as soon as its callback runs. The clearing of a success message after three seconds is not modelled.
- `localStorage` is a field holding the already parsed user and the token; JSON serialisation is not modelled.
- The Leaflet map, geolocation, the Nominatim address lookup, marker dragging and `estaEnPeru` are foreign libraries and browser I/O.
  - The model keeps the coordinates and flags their handlers set. On the nearby search page that is the searched position, where the user marker and the circle stand, `ubicacionObtenida`, `buscandoUbicacion` and the zoom. The browser's answer is passed to the handler methods as arguments.
  - It keeps the list of product markers, each as the product it stands for.
- The Haversine distance and its km/m formatting are floating-point trigonometry and rounding. `BusquedaCercana.GetDistancia` takes the formatter as an argument and models only the missing-coordinate case.
- The `FileReader` previews (`imagePreviews`, `nuevasImagenesPreviews`) are filled asynchronously and are not modelled. The file lists they accompany are.
- Loading categories, including the catalogue's fallback list of eight categories, is server data and is not modelled. So is the catalogue's unpaginated `cargarProductos`, which is never called.
- The following are display-only helpers or dialogs that change no state the model tracks, so they are not modelled:
  - the product dialogs of the administrator pages (`verProducto`, the modal image choice);
  - `getImageUrl` of the administrator's product list;
  - `getImageUrl` and `abrirWhatsApp` of the public catalogue (`productos.ts`);
  - `cambiarVista` of the report queue;
  - `establecerPrincipal`, `toggleFavorito`, `verificarSiEsFavorito`, `verificarSiYaReporto` and `verProductosUsuario`.
- The `ngOnInit` of the administrator's product list and report queue have two parts that are not modelled:
  - the redirect to the login page;
  - the error callbacks, which alert and navigate.
  The load callbacks that fill their lists are modelled.
- `ReportesAdmin.Conteo` lists the reasons in order of first occurrence.
  - This is the order `Object.entries` gives for keys that are not integer-like.
  - Integer-like keys would come first in ascending order; this is not modelled.
  - The predefined reasons are all words.
- The profile's success callback also writes the updated user into the shared authentication service's object and into browser storage. The model updates only the page's own `usuario`.
- Each method that mutates a list element in place takes that element's index: marking as sold, the three administrator moderation actions, suspending, reactivating or deleting a user, and adding to favourites. The model replaces the element at that index, so a change to one object shared by two lists is seen in both.
  - The administrator's user list keeps its filtered view as positions into the full list.
- The favourites page passes the session's user id without checking it. The model loads exactly when a session user exists.
- After a successful password reset, `isLoading` is never switched off. The model keeps this.
- Idempotence of the login message classification is not stated as a lemma. Its case lemma `Login.MensajeMostradoCasos` says what each message becomes.
- `WhatsappFormat.TransformIdempotente`: this requires that the stripped number holds no '+'.
  - `WhatsappFormat.NoIdempotenteEjemplo` shows why: "+51+51" followed by six digits is shown as "+51 ddd ddd", and a second pass gives the six digits.
  - So formatting an already formatted value is not idempotent on every input.
- `MisReportes.InsigniaPredefinida` states, reason by reason, which of the eight predefined reasons get a coloured badge; four of them do. It does not state this as one count over a filter.
- ProductosDetalle.ProductosDetalle.ImagenAnterior: uses the corrected step back, `ProductosDetalle.Anterior`. The code as written is `ProductosDetalle.AnteriorComoEscrito`. With several images and a selection missing from the list, it selects nothing (see Findings).
- Every string length in the model counts Unicode scalar values (Dafny characters), while JavaScript's `.length` counts UTF-16 code units. The two differ for characters outside the Basic Multilingual Plane, such as emoji, which count once here and twice in the browser. This affects the minimum-length checks on trimmed names, descriptions and answers (publicar-producto.ts:381 and 387, editar-producto.ts:209 and 214, register.ts:75, recuperar-contrasena.ts:67). It also affects the 6-character password checks (recuperar-contrasena.ts:95, perfil.ts:124) and the WhatsApp pipe's nine-character test and its slices (whatsapp-format.pipe.ts:15-16) on a stored value that is not all digits. The nine-digit checks of the forms are not affected, because they count only what is left after `replace(/\D/g, '')`.
- Js.Lower: lower-cases only 'A'..'Z' and the Latin-1 capitals U+00C0..U+00DE other than U+00D7 ('×'). Other Unicode capitals (Greek, Cyrillic, Latin Extended) and the length-changing 'İ' are not modelled. Spanish text lies within this range.
- `ProductosDetalle.ProductosDetalle.EnviarReporte` requires a loaded product; the source would fail on a missing one.

## Findings

| source | as written | input that shows it | evidently intended | confidence | as-written member | corrected member |
|---|---|---|---|---|---|---|
| src/app/components/productos/productos.ts:159-175 | a page change under an active search or category calls `buscarProductos` or `filtrarPorCategoria`, and both reset `currentPage` to 0 before requesting | results of the search "silla", then page 2 is chosen: page 0 is requested again | request the chosen page under the active filter | not executed | Productos.RedespachoPierdePaginaEjemplo | Productos.RedespachoCorregidoConservaPagina |
| src/app/components/productos-detalle/productos-detalle.ts:186-193 | `imagenAnterior` computes `indexOf(selection) - 1` and wraps only index -1, so a selection missing from the list gives index -2 and selects `undefined` | images ["a.jpg", "b.jpg"] with "p.jpg" selected | step back from a missing selection to the last image, so that an image is always selected | not executed | ProductosDetalle.AnteriorComoEscritoEjemplo | ProductosDetalle.Anterior |
