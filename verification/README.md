# MIMS_PLUS pharmacy system — a verified model of its business rules

MIMS_PLUS runs a chain of pharmacies (droguerías). A Django backend keeps
each branch's medicines, stock movements, inter-branch loans (préstamos),
customer orders (pedidos), alerts and an audit log. A React frontend
offers a storefront with a cart, invoices, user administration, an order
panel, a contact-message inbox, the login and registration forms, a
category catalogue and the navigation bar.

This project models the rules of that system in Dafny and proves what
they promise:

- **Inventory** (`inventario_models.dfy`, `inventario_store.dfy`,
  `inventario_signals.dfy`). The stock counters of a medicine and the
  movement that changes them. The loan lifecycle: validation,
  reservation, acceptance (a transfer between two rows) and rejection.
  The post-save handlers that append alerts and audit rows. The database
  is the class `InventarioStore.Store`, whose tables are sequences
  indexed by primary key. Its methods run in the order Django runs the
  model code and its signals. The store keeps each medicine's
  `stock_reservado` equal to the sum of its pending loans. Accepting a
  covered loan conserves total stock.
- **Loan requests** (`prestamo_serializer.dfy`, `prestamo_flujo.dfy`):
  the serializer's validation and creation, and the loan flow of the
  inventory tests.
- **Orders** (`pedidos_models.dfy`, `pedidos_serializers.dfy`). Line
  subtotals are recomputed on save. The order total is the sum of the
  line subtotals, on creation and when the lines are replaced.
- **Query filters** (`inventario_filters.dfy`). Each chain of optional
  filters is proved to be one filter of its input by the conjunction of
  its clauses: the same rows, each as many times, in the same order.
- **Access decisions** (`usuarios.dfy`, `inventario_permissions.dfy`,
  `droguerias_permissions.dfy`, `droguerias_views.dfy`).
- **Frontend pages** (`home.dfy`, `facturas.dfy`, `usuarios_pagina.dfy`,
  `panel_pedidos.dfy`, `mensajes_pagina.dfy`, `login.dfy`,
  `registro.dfy`, `catalogo.dfy`, `navbar.dfy`, with `paging.dfy`):
  - the cart and the invoice draft;
  - list filtering and pagination;
  - form validation and the login lockout;
  - the catalogue's category window and the navigation bar.
- `seqs.dfy` and `text.dfy` hold the shared sequence and string
  functions:
  - filtering and sums;
  - JavaScript's `trim`, `toLowerCase` and `includes`;
  - Python's `int()` and `float()` on decimal strings.

Conventions used throughout:

- Money is integer cents.
- Dates are day ordinals and instants are integers, supplied by the
  caller as `today` or `now`.
- Query parameters are a `map<string, string>`. A parameter that is
  present but empty is kept distinct from one that is absent, as the
  source distinguishes `is not None` from truthiness.
- An unparseable id or date makes the database layer raise. It is
  modelled as an error result.

## Model

| member | source | states |
|---|---|---|
| InventarioModels.NuevoMedicamento | inventario/models.py:21-53 | a new medicine row has the declared defaults: no stock, no reservation, minimum 10, active, no expiry, no category, zero purchase cost |
| InventarioModels.StockDisponible | inventario/models.py:68-71 | available stock never exceeds current stock, equals current minus reserved when that is non-negative, and is 0 otherwise |
| InventarioModels.ValorTotal | inventario/models.py:73-76 | stock valued at sale price is non-negative for a non-negative price and 0 without stock |
| InventarioModels.CostoTotal | inventario/models.py:78-81 | stock valued at purchase cost is non-negative for a non-negative cost and 0 without stock |
| InventarioModels.VerificarStock | inventario/models.py:86-88 | the row is reported as low stock exactly when `stock_actual <= stock_minimo` |
| InventarioModels.VencidoPersiste | inventario/models.py:90-92 | an expired medicine stays expired on every later day; one without an expiry date is never expired |
| InventarioModels.TipoMovimientoCodigo | inventario/models.py:99-103 | every movement kind is stored as one of `entrada`, `salida`, `ajuste` |
| InventarioModels.AplicarMovimiento | inventario/models.py:135-151 | a new entry adds `cantidad` to stock; an exit subtracts it and floors at 0; an adjustment changes nothing; the reservation drops (floored at 0) only on an entry saved with the transfer-release keyword, which is the row written just before that save fails (see `Store.CrearMovimientoConLiberacion`); no other field changes |
| InventarioModels.Monus | inventario/models.py:143 | `max(a - b, 0)` on counters: at most `a`, exact subtraction when `b <= a`, 0 otherwise |
| InventarioModels.SalidaDeshaceEntrada | inventario/models.py:138-149 | an exit undoes an entry of the same size |
| InventarioModels.EntradaDeshaceSalida | inventario/models.py:138-149 | an entry undoes an exit that the stock covered; after a larger exit the entry leaves exactly `c` units, because the exit floored at 0 |
| InventarioModels.EstadoPrestamoCodigo | inventario/models.py:215-220 | every loan state is stored as one of the four declared codes |
| InventarioModels.Clean | inventario/models.py:262-272 | no error exactly when the origin medicine belongs to the origin branch, a given destination medicine belongs to the destination branch, and the quantity is positive; the origin check is reported first |
| InventarioModels.TipoAlertaCodigo | inventario/models.py:160-165 | every alert kind is stored as one of the four declared codes |
| InventarioModels.NivelAlertaCodigo | inventario/models.py:167-171 | every alert level is stored as one of the three declared codes |
| InventarioModels.CodigosInyectivos | inventario/models.py:99-220 | distinct movement kinds, loan states, alert kinds and alert levels have distinct stored codes |
| InventarioSignals.ConLowStock | inventario/signals.py:27-43 | the alert table grows by exactly one unread `low_stock` warning when the medicine is at or below its minimum and has no unread `low_stock` alert; otherwise it is unchanged; old rows are kept as a prefix |
| InventarioSignals.ConVencido | inventario/signals.py:47-61 | the alert table grows by exactly one unread `vencido` danger alert when the medicine is expired and has no unread `vencido` alert; otherwise it is unchanged |
| InventarioSignals.AppendSinDuplicados | inventario/signals.py:30-52 | appending an unread alert of a deduplicated kind keeps the table free of duplicates exactly when no unread alert of that kind exists for that medicine |
| InventarioSignals.ConLowStockSinDuplicados | inventario/signals.py:27-43 | the low-stock handler never creates a second unread `low_stock` alert for a medicine |
| InventarioSignals.ConVencidoSinDuplicados | inventario/signals.py:47-61 | the expiry handler never creates a second unread `vencido` alert for a medicine |
| InventarioSignals.HandlersIdempotentes | inventario/signals.py:27-61 | running either deduplicating handler twice on the same medicine gives the table it gave once |
| InventarioSignals.PrestamoAlertaSinDuplicados | inventario/signals.py:67-75 | the loan-accepted alert, of a kind that is not deduplicated, never breaks the no-duplicates invariant |
| InventarioSignals.Log.constructor | inventario/models.py:159-208 | the alert and audit tables start empty and valid |
| InventarioSignals.Log.MovimientoPostSave | inventario/signals.py:7-43 | for a save that is not a creation nothing is written; for a creation one `movimiento_creado` audit row is appended, then the low-stock rule is applied; the no-duplicates invariant is preserved |
| InventarioSignals.Log.MedicamentoPostSave | inventario/signals.py:46-61 | on every save the expiry rule is applied to the alerts; the audit table is unchanged; the invariant is preserved |
| InventarioSignals.Log.PrestamoPostSave | inventario/signals.py:64-103 | an update to an accepted loan appends one `prestamo` alert and a `prestamo_aceptado` audit row; an update to a rejected loan appends only a `prestamo_rechazado` audit row; creations and other states write nothing |
| InventarioStore.Buscar | inventario/models.py:301-303 | the lookup half of `get_or_create`: a found row has the medicine's name at the destination branch; when none is found, no row has both |
| InventarioStore.CopiaEnDestino | inventario/models.py:304-310 | the created destination row has the origin's name, the destination branch and no stock or reservation |
| InventarioStore.MedsConDestino | inventario/models.py:298-313 | a loan with a destination row keeps it; otherwise the same-named row at the destination branch is used when it exists, else a copy without stock is appended; the table only grows |
| InventarioStore.Transferir | inventario/models.py:315-339 | the stock effect of accepting, one step at a time: the origin loses `cantidad` (floored at 0), the destination gains it, the origin's reservation drops by `cantidad` (floored), and nothing else changes; when origin and destination are one row it ends with its own stock after the exit plus the entry |
| InventarioStore.TransferirConserva | inventario/models.py:315-339 | when the origin holds the units, accepting moves stock without creating or losing any in total |
| InventarioStore.MedsConDestinoConserva | inventario/models.py:298-313 | creating the destination row adds no stock |
| InventarioStore.AceptarConserva | inventario/models.py:289-344 | the whole stock effect of accepting a covered loan keeps the total stock over all rows |
| InventarioStore.AlertasTransferirSoloFilas | inventario/signals.py:27-61 | the stock steps of accepting add only unread low-stock and expiry alerts about the origin and destination rows, at most five, and keep the table free of duplicate unread alerts |
| InventarioStore.TransferirConInstantaneas | inventario/models.py:316-339 | the effect as written, where each save writes a copy loaded before the earlier writes; same length as the table |
| InventarioStore.InstantaneasCoincidenSiDistintas | inventario/models.py:316-339 | with distinct origin and destination rows the stale copies give the same result as the sequential effect |
| InventarioStore.InstantaneasPierdenStock | inventario/models.py:316-339 | with one row as origin and destination the stale copies lose `cantidad` units, while the sequential effect keeps the total |
| InventarioStore.InstantaneasEjemplo | inventario/models.py:316-339 | a row with 20 units lending 5 to itself ends with 15 as written and with 20 under the sequential effect |
| InventarioStore.ReservadoAppend | inventario/models.py:274-283 | a new loan adds its own pending share to each medicine's reserved total |
| InventarioStore.ReservadoUpdate | inventario/models.py:274-287 | replacing one loan changes a reserved total by the difference of the two shares |
| InventarioStore.ReservadoFuera | inventario/models.py:274-283 | a medicine no loan starts from has nothing reserved |
| InventarioStore.ReservadoNoNegativo | inventario/models.py:48 | a reserved total is never negative |
| InventarioStore.PendienteIncluido | inventario/models.py:274-283 | the reserved total of a loan's origin covers that pending loan's quantity |
| InventarioStore.Store.constructor | inventario/models.py:21-66 | the tables start empty, valid, and with reservations matching the pending loans |
| InventarioStore.Store.GuardarMedicamento | inventario/signals.py:46-61 | saving a medicine row replaces it and fires the expiry rule; nothing else changes (the save itself is inventario/models.py:150) |
| InventarioStore.Store.AltaMedicamento | inventario/models.py:58-62 | a new row is refused when its name is already taken at its branch; otherwise it is appended with the expiry rule applied; reservations still match pending loans (the expiry signal is inventario/signals.py:46-61) |
| InventarioStore.Store.CrearMovimiento | inventario/models.py:135-151 | creating a movement appends it, applies its stock change to its medicine (whose save fires the expiry rule), then audits the movement and applies the low-stock rule (the signal is inventario/signals.py:7-43) |
| InventarioStore.Store.CrearMovimientoConLiberacion | inventario/models.py:135-151 | with the transfer-release keyword the stock change and, on an entry, the reservation release are written to the medicine and its expiry rule runs; then the save fails, so no movement, audit or low-stock row is written |
| InventarioStore.Store.ActualizarMovimiento | inventario/models.py:135-151 | re-saving an existing movement replaces the row and changes no stock, alert or audit row (the signal returns early at inventario/signals.py:10-11) |
| InventarioStore.Store.InsertarPrestamo | inventario/models.py:214-251 | a new loan is appended, writes no alert or audit row, and adds its share to the reserved totals (the signal ignores creation at inventario/signals.py:64-67) |
| InventarioStore.Store.Reservar | inventario/models.py:274-283 | refused with "Stock insuficiente" and nothing changed when `cantidad > stock_actual - stock_reservado`; otherwise the origin's reservation rises by exactly `cantidad` |
| InventarioStore.Store.LiberarReserva | inventario/models.py:285-287 | the origin's reservation drops by `cantidad`, floored at 0 |
| InventarioStore.Store.ObtenerOCrear | inventario/models.py:301-311 | `get_or_create`: the existing same-named row at the branch with nothing changed, or a new copy without stock appended; either way no loan, movement, alert or audit row changes (the copy has no expiry date, so its expiry rule adds nothing) |
| InventarioStore.Store.AsignarDestino | inventario/models.py:298-313 | the loan's destination row becomes the one `MedsConDestino` gives, recorded on the loan; no movement, alert or audit row is written; reservations still match |
| InventarioStore.Store.RegistrarMovimientos | inventario/models.py:318-333 | the exit at the origin and then the entry at the destination are appended and audited in that order; each changes its medicine, whose expiry rule runs, and then the movement's low-stock rule runs |
| InventarioStore.Store.MoverStock | inventario/models.py:315-339 | the two movements are created and audited; the rows end as `Transferir` gives, and the alert table is exactly what the expiry and low-stock rules of the two movements and the expiry rule of the origin save give (`AlertasTransferir`) |
| InventarioStore.Store.MarcarAceptado | inventario/models.py:340-344 | the loan is saved as accepted by `user` at `now`; the signal adds one `prestamo` alert and a `prestamo_aceptado` audit row (the signal is inventario/signals.py:67-87) |
| InventarioStore.Store.Completar | inventario/models.py:315-344 | for a pending loan with its destination row: the stock moves as `Transferir` gives, the two movements and their audit rows are appended, the loan is saved as accepted, and the alerts are those of the movements and the origin save followed by one `prestamo` alert; reservations keep matching |
| InventarioStore.Store.Aceptar | inventario/models.py:289-344 | refused with nothing changed unless pending; otherwise destination resolution, the two movements with their audit rows, the reservation release and the accepted state, in that order; the alert table becomes the movements' and the origin save's low-stock and expiry alerts followed by one `prestamo` alert; reservations keep matching pending loans |
| InventarioStore.Store.Rechazar | inventario/models.py:346-356 | refused with nothing changed unless pending; otherwise the reservation is released (floored), the loan becomes rejected by `user` at `now`, the note is replaced only by a non-empty one, and one `prestamo_rechazado` audit row is added |
| InventarioStore.CierreCuadra | inventario/models.py:285-340 | releasing the reservation as the loan stops being pending keeps every medicine's reservation equal to its pending loans' total |
| InventarioStore.DestinoCuadra | inventario/models.py:298-313 | recording a destination on a loan keeps every reservation equal to its pending loans' total |
| InventarioStore.ConDestinoCuadra | inventario/models.py:298-313 | a table extended by one row without reservation keeps reservations matching when the reserved totals are unchanged |
| PrestamoSerializer.Validate | inventario/serializers_prestamo.py:20-31 | the data passes unchanged exactly when the origin medicine belongs to the origin branch and `cantidad` fits in `stock_actual - stock_reservado`; the branch error is reported first, then the stock error |
| PrestamoSerializer.NuevoPrestamo | inventario/serializers_prestamo.py:33-43 | the created loan is pending, requested by `user`, not yet answered, and carries the submitted rows, branches and quantity |
| PrestamoSerializer.NuevoPrestamoIgnoraSoloLectura | inventario/serializers_prestamo.py:36-43 | a submitted note does not reach the created loan |
| PrestamoSerializer.Create | inventario/serializers_prestamo.py:20-46 | an unknown row or a failed validation changes nothing; otherwise the loan is appended, the origin's reservation rises by `cantidad` and stays within its stock, the origin save runs the expiry rule and writes no other alert or audit row; reservations keep matching pending loans |
| PrestamoFlujo.Solicitud | inventario/tests.py:31-49 | after registering both 'Paracetamol' rows (20 and 2 units) and requesting 5 units, the origin has 5 reserved and the loan is pending without a destination row |
| PrestamoFlujo.FlujoPrestamo | inventario/tests.py:34-60 | the test's loan flow: 5 reserved after the request; after accepting, the origin has 15 units and nothing reserved, the destination 7 |
| PedidosModels.EstadoCodigo | pedidos/models.py:7-12 | every order state is stored as one of `pendiente`, `procesado`, `entregado`, `cancelado` |
| PedidosModels.EstadoCodigoRoundTrip | pedidos/models.py:7-15 | reading back a stored state code gives the state |
| PedidosModels.DetalleDefault | pedidos/models.py:22-26 | a line without explicit values has quantity 1 and subtotal 0.00 |
| PedidosModels.GuardarDetalle | pedidos/models.py:28-32 | saving a line sets its subtotal to the medicine's sale price times the quantity |
| PedidosModels.SubtotalDadoIgnorado | pedidos/models.py:28-32 | the subtotal a caller supplies is overwritten, so it never affects the saved line |
| PedidosModels.Pedido.constructor | pedidos/models.py:13-16 | a new order has the given client, the given state or `pendiente`, total 0.00 and no lines |
| PedidosSerializers.CrearDetalles | pedidos/serializers.py:36-45 | the loop creates one line per submitted item, each with price times quantity, and the running total equals the sum of the submitted subtotals and of the saved lines' subtotals |
| PedidosSerializers.TotalNoNegativo | pedidos/serializers.py:34-45 | with non-negative prices the order total is never negative |
| PedidosSerializers.Create | pedidos/serializers.py:22-47 | a client whose role is not `cliente` is refused; otherwise the order gets the client, the given state or `pendiente`, one line per item, and the sum of the line subtotals as total (the fix for the duplicated argument) |
| PedidosSerializers.CreateComoEscritoFalla | pedidos/serializers.py:32-33 | as written, every create whose validated data holds `cliente` passes `cliente` twice and fails |
| PedidosSerializers.Update | pedidos/serializers.py:49-68 | the state is replaced only when given; an empty item list keeps the lines and total; a non-empty one replaces the lines and sets the total to their sum |
| InventarioFilters.EnteroParam | inventario/filters.py:29-31 | an id or date parameter is absent or empty exactly when it gives no bound, and is an error exactly when it is given and not an integer |
| InventarioFilters.DecimalParam | inventario/filters.py:43-52 | a price bound is used exactly when it is given and parses; otherwise it is skipped |
| InventarioFilters.IntParam | inventario/filters.py:60-69 | a stock bound is used exactly when it is given and parses as an integer; otherwise it is skipped |
| InventarioFilters.MedIds | inventario/filters.py:28-31 | the category/branch stage fails exactly when one of those ids is not an integer, naming the category first |
| InventarioFilters.MedVencimiento | inventario/filters.py:90-101 | the expiry stage fails exactly when one of the two date bounds does not parse |
| InventarioFilters.ApplyMedicamentoFilters | inventario/filters.py:9-103 | the medicine filters fail exactly when an id or expiry-date parameter is malformed |
| InventarioFilters.MedBusquedaExacta | inventario/filters.py:16-27 | the search stage keeps, in order, exactly the rows where `q` occurs in one of five text columns, or, without `q`, the name contains `nombre` — one filter of the input by the clauses: the same rows, each as many times, in the same order |
| InventarioFilters.MedIdsExacta | inventario/filters.py:28-31 | the id stage keeps, in order, exactly the rows of the given category and branch — one filter of the input by the clauses: the same rows, each as many times, in the same order |
| InventarioFilters.MedEstadoExacta | inventario/filters.py:32-36 | a present `estado` keeps inactive rows for "false"/"0" and active rows for any other value — one filter of the input by the clauses: the same rows, each as many times, in the same order |
| InventarioFilters.MedPrecioExacta | inventario/filters.py:41-52 | the price stage keeps exactly the rows within the parsed inclusive bounds — one filter of the input by the clauses: the same rows, each as many times, in the same order |
| InventarioFilters.MedStockExacta | inventario/filters.py:57-75 | the stock stage keeps exactly the rows within the parsed inclusive bounds and, when `disponible` is present, with unreserved stock exactly when it is "true"/"1" — one filter of the input by the clauses: the same rows, each as many times, in the same order |
| InventarioFilters.MedProveedorLoteExacta | inventario/filters.py:80-85 | supplier and lot searches keep exactly the rows whose (non-null) column contains the text — one filter of the input by the clauses: the same rows, each as many times, in the same order |
| InventarioFilters.MedVencimientoExacta | inventario/filters.py:90-101 | a present `vencido` keeps expired rows exactly when it is "true"/"1"; date bounds are inclusive and never match a null expiry — one filter of the input by the clauses: the same rows, each as many times, in the same order |
| InventarioFilters.MedicamentoFiltersExactos | inventario/filters.py:9-103 | the whole chain is one filter of the table by every clause at once: the same rows, each as many times, in the same order |
| InventarioFilters.MedicamentoSinParametros | inventario/filters.py:9-103 | with no parameters every row comes back in order |
| InventarioFilters.QAnulaNombre | inventario/filters.py:26-27 | when `q` is given, `nombre` has no effect |
| InventarioFilters.CotaIlegibleIgnorada | inventario/filters.py:43-69 | a price or stock bound that does not parse gives the same result as leaving it out |
| InventarioFilters.MismosParametros | inventario/filters.py:28-101 | the later stages read neither `nombre` nor the price and stock bounds they do not own |
| InventarioFilters.MismosIds | inventario/filters.py:28-101 | the id, state, supplier/lot and expiry stages read the same values from two maps that differ only in `nombre` or a price or stock bound |
| InventarioFilters.CotasIlegibles | inventario/filters.py:43-69 | dropping an unparseable price or stock bound leaves every price and stock bound, and `disponible`, as they were read |
| InventarioFilters.ApplyMovimientoFilters | inventario/filters.py:106-124 | the movement filters fail exactly when the medicine, branch or a date bound is malformed, and never add rows |
| InventarioFilters.MovimientoFiltersExactos | inventario/filters.py:106-124 | the chain is one filter of the movements by medicine, branch, type and the inclusive date range, so two identical movements stay two |
| InventarioFilters.MovimientoCadena | inventario/filters.py:112-122 | the five movement steps, with their parameters read, keep exactly what one filter by their conjunction keeps, in order and multiplicity |
| InventarioFilters.ApplyPrestamoFilters | inventario/filters.py:127-142 | the loan filters fail exactly when origin, destination or requester is not an integer, and never add rows |
| InventarioFilters.PrestamoFiltersExactos | inventario/filters.py:127-142 | the chain is one filter of the loans by state, origin, destination and requester |
| InventarioFilters.PrestamoCadena | inventario/filters.py:133-140 | the four loan steps, with their parameters read, keep exactly what one filter by their conjunction keeps, in order and multiplicity |
| InventarioFilters.ApplyAlertaFilters | inventario/filters.py:145-160 | the alert filters cannot fail and never add rows |
| InventarioFilters.AlertaFiltersExactos | inventario/filters.py:145-160 | the chain is one filter of the alerts by type and level and, when `leido` is present, read exactly when it is "true"/"1" |
| InventarioFilters.AuditExactos | inventario/filters.py:171-178 | the action/model/user/object stage fails exactly when the user or object id is malformed |
| InventarioFilters.AuditFechas | inventario/filters.py:179-182 | the creation-time stage fails exactly when a bound is malformed |
| InventarioFilters.ApplyAuditFilters | inventario/filters.py:163-184 | the audit filters fail exactly when the user, object id or a time bound is malformed |
| InventarioFilters.AuditExactosMembers | inventario/filters.py:171-178 | the exact-match stage keeps exactly the rows with the given action, model name, user and object id — one filter of the input by the clauses: the same rows, each as many times, in the same order |
| InventarioFilters.AuditFiltersExactos | inventario/filters.py:163-184 | the chain is one filter of the audit rows by every given field and the inclusive time range |
| Usuarios.Anonimo | inventario/permissions.py:12-19 | the anonymous user is present but neither authenticated, staff nor superuser, and has no role |
| InventarioPermissions.EsEmpleadoOPermisoAdmin | inventario/permissions.py:8-21 | no user or an unauthenticated one is refused; staff is admitted; otherwise admitted exactly for role `empleado` or `admin` |
| InventarioPermissions.ClienteYAnonimoDenegados | inventario/permissions.py:8-21 | a non-staff customer and the anonymous user are both refused |
| DrogueriasPermissions.HasPermission | droguerias/permissions.py:7-8 | access requires exactly a present, authenticated user |
| DrogueriasPermissions.HasObjectPermission | droguerias/permissions.py:10-19 | safe methods are always allowed; other methods exactly for role `admin`, a superuser or the owner |
| DrogueriasPermissions.SoloPropietarioOAdmin | droguerias/permissions.py:10-19 | an unsafe request by a non-admin, non-superuser who does not own the branch is refused; a branch without owner is changed only by admin or superuser |
| DrogueriasViews.PerformCreate | droguerias/views.py:14-19 | a non-superuser who names no owner becomes the owner; otherwise the given owner is kept |
| DrogueriasViews.Mine | droguerias/views.py:21-30 | admin and superuser get every branch unchanged (the table is taken in its declared order by code and name, droguerias/models.py:32) |
| DrogueriasViews.MineExacto | droguerias/views.py:25-28 | anyone else gets the branches they own, in table order, each as many times as the table holds it — one filter of the table by ownership |
| DrogueriasViews.BuscarDrogueria | droguerias/views.py:41-44 | a found branch is in the table with the requested id; not found means no row has that id |
| DrogueriasViews.Cuenta.SetActive | droguerias/views.py:32-53 | 400 exactly without a (non-zero) id, 404 exactly for an unknown id, 403 exactly when neither superuser, admin nor owner; only a 200 changes the active branch, to the requested one |
| DrogueriasViews.EscenarioDroguerias | droguerias/tests.py:11-27 | a plain user who creates a branch without an owner owns it and can make it the active branch |
| Paging.CeilDiv | frontend/src/pages/home.jsx:486 | `Math.ceil(n / size)` is the least page count whose pages hold all `n` items, and 0 only for no items |
| Paging.PageSlice | frontend/src/pages/Usuarios.jsx:66-68 | the page holds at most `size` items, each the list item at its offset `(page - 1) * size + i`; a full page when enough items follow, the remainder on the last page |
| Paging.ItemOnItsPage | frontend/src/pages/Usuarios.jsx:66-68 | every item of the list appears on page `k / size + 1`, which lies between 1 and the page count |
| Paging.ControlsStayInRange | frontend/src/pages/Facturas.jsx:352-354 | from a page in `[1, totalPages]` "previous" and "next" stay in that range and move by at most one; the page count is at least 1 and its last page is not empty (the page state is declared at line 206) |
| Paging.DisabledRulesAgree | frontend/src/pages/PanelPedidos.jsx:179 | disabling "next" when `page * size >= n` is the same as disabling it from page `Math.ceil(n / size)` on |
| Paging.NextPageNonEmpty | frontend/src/pages/PanelPedidos.jsx:179 | when "next" is enabled the next page starts with the item after the current page |
| Paging.FirstPage | frontend/src/pages/home.jsx:120-123 | page 1, where a filter change returns, shows the first `size` items, or all of them when there are fewer |
| Home.FindById | frontend/src/pages/home.jsx:83 | `carrito.find` returns the first entry for the product id, and nothing exactly when no entry has it |
| Home.IncrementIf | frontend/src/pages/home.jsx:90-94 | the `map` raises every entry of the product by one unit and leaves the others |
| Home.AgregarAlCarrito | frontend/src/pages/home.jsx:71-98 | without a token or available stock nothing changes; a product at its stock ceiling is not raised; a present product gains a unit; a new one is appended with quantity 1 |
| Home.Decrement | frontend/src/pages/home.jsx:103 | the `map` lowers every entry of the product by one unit and leaves the others |
| Home.AgregarKeepsValid | frontend/src/pages/home.jsx:71-98 | adding keeps product ids unique and every quantity between 1 and the product's available stock |
| Home.AgregarEffect | frontend/src/pages/home.jsx:71-98 | an add either changes nothing or raises the unit count by one and the money total by the product's price (the statistics are lines 33-37) |
| Home.ReducirCantidadEffect | frontend/src/pages/home.jsx:100-106 | on a valid cart, decrementing lowers the one matching entry and drops it at zero; an absent id changes nothing |
| Home.ReducirKeepsValid | frontend/src/pages/home.jsx:100-106 | decrementing keeps the cart valid |
| Home.EliminarRemovesId | frontend/src/pages/home.jsx:108 | removing leaves no entry for the id and keeps every other entry in order |
| Home.EliminarEffect | frontend/src/pages/home.jsx:108 | with unique ids removing deletes exactly the matching entry, or nothing |
| Home.SubseqKeepsUnique | frontend/src/pages/home.jsx:104-108 | filtering a cart with unique ids keeps the ids unique |
| Home.SubseqMembers | frontend/src/pages/home.jsx:104 | a filtered cart holds only entries of the original cart |
| Home.Detalles | frontend/src/pages/home.jsx:133-137 | one detail per cart entry, with the product id, its quantity and price times quantity |
| Home.EnviarPedido | frontend/src/pages/home.jsx:125-162 | nothing is sent without a token or with an empty cart; otherwise the payload carries the client id, one detail per entry and the sum of subtotals, and the cart empties exactly when the request succeeds |
| Home.EnviarPedidoTotal | frontend/src/pages/home.jsx:139 | the total sent equals the total the cart panel shows (the panel total is lines 33-37) |
| Home.ContarFiltrosActivos | frontend/src/pages/home.jsx:40-48 | the badge counts the truthy filters, at most five, and is zero exactly when every filter is off |
| Home.ShownPagesBounded | frontend/src/pages/home.jsx:486-488 | at most five page buttons are drawn, always the first and last and, when in range, the current page |
| Home.CardSubset | frontend/src/pages/home.jsx:486-488 | a subset of a set of page buttons is no larger |
| Home.CardAtMostFive | frontend/src/pages/home.jsx:488 | the five candidate page numbers form at most five buttons |
| Home.NavigationBounds | frontend/src/pages/home.jsx:480-509 | "previous" never goes below page 1 and an enabled "next" stays within the page count |
| Facturas.Incrementar | frontend/src/pages/Facturas.jsx:86-94 | every line of the medicine gains one unit and is re-priced at the catalogue price; other lines stay |
| Facturas.AgregarMedicamento | frontend/src/pages/Facturas.jsx:83-115 | the total is the sum of the subtotals (prices read as numbers); a present medicine is incremented, a new one appended with quantity 1 at its price; nothing else in the draft changes |
| Facturas.AgregarSumaPrecio | frontend/src/pages/Facturas.jsx:83-115 | on a consistent draft adding raises the total by exactly the medicine's price and keeps each subtotal equal to quantity times unit price (prices read as numbers; see Findings) |
| Facturas.AgregarExistente | frontend/src/pages/Facturas.jsx:85-99 | adding a medicine whose single line is priced at the catalogue price raises the total by that price and keeps the lines coherent |
| Facturas.IncrementarUnaLinea | frontend/src/pages/Facturas.jsx:86-94 | with distinct medicines the merge changes only that medicine's line, to one more unit at the catalogue price, and raises the sum by the price when the line was coherent |
| Facturas.EliminarMedicamento | frontend/src/pages/Facturas.jsx:117-124 | the line at the index goes (none for an index out of range) and the total is the numeric sum of the rest |
| Facturas.EliminarRestaSubtotal | frontend/src/pages/Facturas.jsx:117-124 | removing a line lowers a consistent numeric total by that line's subtotal |
| Facturas.ActualizarCantidad | frontend/src/pages/Facturas.jsx:126-131 | only the indexed line changes, to the new quantity re-priced at its unit price; the total is recomputed and moves by the subtotal difference |
| Facturas.TotalComoEscritoNumerico | frontend/src/pages/Facturas.jsx:98 | when every subtotal is a number, the total as the page adds it is the numeric sum the corrected draft keeps |
| Facturas.TotalTextoSiHayTexto | frontend/src/pages/Facturas.jsx:98-122 | the page's total becomes a string exactly when some subtotal is a string |
| Facturas.ConcatenaTrasTexto | frontend/src/pages/Facturas.jsx:98-122 | once the running total is a string, every later subtotal is appended to it as text |
| Facturas.DosLineasNuevasConcatenan | frontend/src/pages/Facturas.jsx:100-113 | two new lines priced "12.50" and "3.00" give the total "012.503.00", which reads as no number; one new line "12.50" gives "012.50", which still reads as 12.50 |
| Facturas.DetallesEnvio | frontend/src/pages/Facturas.jsx:156-161 | one detail per line carrying its medicine, quantity, unit price and subtotal |
| Facturas.SaveFactura | frontend/src/pages/Facturas.jsx:133-172 | refused exactly without a client or without lines (the client checked first); otherwise PUT exactly when an invoice is selected, with the draft's total, details and an empty employee sent as null |
| Facturas.SaveFacturaTotal | frontend/src/pages/Facturas.jsx:156-162 | a consistent draft sends a total equal to the sum of the subtotals it sends |
| Facturas.FiltrarFacturasExacto | frontend/src/pages/Facturas.jsx:194-202 | the filter chain is one filter of the invoices by every active filter: the same invoices, each as many times, in order |
| Facturas.BusquedaFechasExacta | frontend/src/pages/Facturas.jsx:194-200 | the search and date steps are one filter by the name search and the inclusive dates |
| Facturas.TotalesExactos | frontend/src/pages/Facturas.jsx:201-202 | the total-bound steps are one filter by the bounds that are set |
| Facturas.OrdenarPorFechaDesc | frontend/src/pages/Facturas.jsx:203 | the sort leaves the invoices newest first, a permutation of what it received, and invoices of one date in the order they came (as `Array.prototype.sort` is stable) |
| Facturas.Insertar | frontend/src/pages/Facturas.jsx:203 | one insertion step extends the sorted prefix by one, permutes the array and keeps invoices of one date in their order |
| Facturas.Intercambiar | frontend/src/pages/Facturas.jsx:203 | swapping two neighbours of different dates permutes the array and keeps invoices of one date in their order |
| Facturas.IntercambioEstable | frontend/src/pages/Facturas.jsx:203 | swapping two neighbours of different dates leaves, for every date, the invoices of that date in the same order |
| Facturas.FacturasFiltradas | frontend/src/pages/Facturas.jsx:194-204 | the list is newest first, holds the filtered invoices each as many times, and keeps invoices of one date in their filtered order |
| Facturas.PaginaFacturas | frontend/src/pages/Facturas.jsx:206-207 | the page count is `Math.max(1, Math.ceil(n / pageSize))` of the filtered list and the page is its slice from `(page - 1) * pageSize`, over the sorted list that is newest first, a permutation of the filtered invoices and stable on equal dates |
| Login.ValidarForm | frontend/src/pages/login.jsx:26-32 | the username error appears exactly for a blank username after trimming, the password error exactly for fewer than 8 characters, with their messages; valid exactly when there is no error |
| Login.Fortaleza | frontend/src/pages/login.jsx:34-39 | the label is one of "vacía", "fuerte", "media", "débil" |
| Login.FortalezaPorLongitud | frontend/src/pages/login.jsx:34-39 | only the empty password is "vacía"; under 8 characters "débil"; 8 to 11 "media"; from 12 "fuerte" exactly with an uppercase letter and a digit |
| Login.RutaSegunRol | frontend/src/pages/login.jsx:66-72 | `admin` exactly goes to `/panelAdmin`, `empleado` exactly to `/panelEmpleado`, everyone else to `/perfilCliente` |
| Login.MensajeError | frontend/src/pages/login.jsx:81-87 | the error text is chosen by the first of "Credenciales inválidas" and "Usuario no encontrado" the server message contains, and the connection text when neither |
| Login.Intentos.Submit | frontend/src/pages/login.jsx:41-92 | a blocked page refuses without change; an invalid form records nothing; success redirects by role and resets the counter; failure shows the chosen text, counts one more attempt and from the third sets a 30-second block |
| Login.TresFallos | frontend/src/pages/login.jsx:75-80 | after three failed logins every submit within the next 30 seconds is refused |
| Registro.EmailEjemplos | frontend/src/pages/registro.jsx:40-41 | the e-mail pattern accepts `ana@mims.co` and refuses a missing dot, an empty local part, two `@` and white space |
| Registro.Validar | frontend/src/pages/registro.jsx:37-48 | each field gets its message exactly when its check fails, the password message being the length text followed by the suffix; valid exactly when no field has a message |
| Registro.ValidarUsuarioYCorreo | frontend/src/pages/registro.jsx:39-41 | the username and e-mail messages are set exactly when their checks fail |
| Registro.ValidarPassword | frontend/src/pages/registro.jsx:42-43 | the password message is set exactly when the password is refused, and is the length text followed by the suffix |
| Registro.ValidarConfirmacionYNombre | frontend/src/pages/registro.jsx:44-45 | the confirmation and full-name messages are set exactly when their checks fail; nothing else changes |
| Registro.FortalezaDeContrasenaAceptada | frontend/src/pages/registro.jsx:42-55 | an accepted password is "fuerte" from 12 characters and "media" below; "fuerte" implies accepted, while a "media" one may be refused |
| Registro.RedirigirComoEscrito | frontend/src/pages/registro.jsx:76-78 | as written, `/panelAdmin` is reached exactly for role "administrador" |
| Registro.AdminNoLlegaAlPanel | frontend/src/pages/Usuarios.jsx:30 | no role the application assigns reaches the admin panel after registering; an admin lands on the client profile |
| Registro.EnviarRegistro | frontend/src/pages/registro.jsx:57-78 | an invalid form sends nothing and reports its errors; a successful registration and login redirect as the login page does, to `/panelAdmin` exactly for `admin` |
| UsuariosPagina.FiltrarUsuariosExacto | frontend/src/pages/Usuarios.jsx:50-61 | the filtered list keeps, in order, exactly the users matching the search in username, e-mail or full name and the chosen role — one filter of the input by the clauses: the same rows, each as many times, in the same order |
| UsuariosPagina.FetchUsersExacto | frontend/src/pages/Usuarios.jsx:43-68 | the page holds at most `pageSize` users, all passing the filters; the count is of the filtered list; every filtered user is on the page its position gives, within the page count |
| UsuariosPagina.CambiarBusqueda | frontend/src/pages/Usuarios.jsx:180 | typing a search sets the text and returns to page 1, keeping the role filter |
| UsuariosPagina.CambiarRol | frontend/src/pages/Usuarios.jsx:185 | choosing a role sets it and returns to page 1, keeping the search |
| UsuariosPagina.CambioMuestraPrimeraPagina | frontend/src/pages/Usuarios.jsx:180-185 | after either change the page shows the first `pageSize` users passing the new filters |
| UsuariosPagina.BloqueaAltaSoloPagina | frontend/src/pages/Usuarios.jsx:114-118 | a new user is refused exactly when the name is on the current page; an edit is never refused |
| UsuariosPagina.DuplicadoEnOtraPagina | frontend/src/pages/Usuarios.jsx:114-118 | a name held by a user on another page is not refused |
| UsuariosPagina.ControlesUsuarios | frontend/src/pages/Usuarios.jsx:251-268 | without controls everything is on page 1; an enabled "previous" goes back one page; an enabled "next" leads to a non-empty page |
| PanelPedidos.ObtenerNombreCliente | frontend/src/pages/PanelPedidos.jsx:68-76 | a string client is shown as is, an object by its non-empty username, anything else as "Cliente" |
| PanelPedidos.NombreNoVacio | frontend/src/pages/PanelPedidos.jsx:68-76 | the name shown is empty exactly when the API sent an empty string |
| PanelPedidos.FiltrarPedidosExacto | frontend/src/pages/PanelPedidos.jsx:38-50 | the filtered list keeps, in order, exactly the orders whose client name contains the search ignoring case or whose number contains it, and whose status is the chosen one — one filter of the input by the clauses: the same rows, each as many times, in the same order |
| PanelPedidos.ContainsSelf | frontend/src/pages/PanelPedidos.jsx:43 | a text contains itself |
| PanelPedidos.BuscarPorNumero | frontend/src/pages/PanelPedidos.jsx:38-46 | typing an order's number finds that order whatever its client |
| PanelPedidos.CargarPedidosExacto | frontend/src/pages/PanelPedidos.jsx:28-58 | the page holds at most `pageSize` orders passing the filters, in filtered order from position `(page - 1) * pageSize`; the count is of the filtered list |
| PanelPedidos.CambiarBusqueda | frontend/src/pages/PanelPedidos.jsx:104 | typing a search sets the text and returns to page 1, keeping the status filter |
| PanelPedidos.CambiarEstado | frontend/src/pages/PanelPedidos.jsx:109 | choosing a status sets it and returns to page 1, keeping the search |
| PanelPedidos.CambioMuestraPrimeraPagina | frontend/src/pages/PanelPedidos.jsx:104-109 | after either change the panel shows the first `pageSize` matching orders |
| PanelPedidos.ControlesPedidos | frontend/src/pages/PanelPedidos.jsx:169-183 | with matches, "next" is disabled exactly from page `ceil(totalCount / pageSize)` on and when enabled leads to a non-empty page; an enabled "previous" goes back one page |
| MensajesPagina.FiltrarMensajesExacto | frontend/src/pages/Mensajes.jsx:24-35 | the fetch keeps, in order, exactly the messages matching the search in name, text or e-mail and the read state; empty filters keep everything — one filter of the input by the clauses: the same rows, each as many times, in the same order |
| MensajesPagina.MostradosExacto | frontend/src/pages/Mensajes.jsx:17-66 | the drawn list is at most a page, holds exactly the fetched page's messages matching name, e-mail or subject, and each drawn message satisfies both searches and the read filter |
| MensajesPagina.SoloTextoOculto | frontend/src/pages/Mensajes.jsx:24-66 | a message matching the search only in its text is fetched and counted but not drawn |
| MensajesPagina.BusquedaVaciaMuestraPagina | frontend/src/pages/Mensajes.jsx:61-66 | with an empty search the whole fetched page is drawn |
| Catalogo.Buscar | frontend/src/pages/catalogo.jsx:38 | the index found is that of the first category with the active id; none exactly when no category has it or no id is active |
| Catalogo.CadaCategoriaVisible | frontend/src/pages/catalogo.jsx:40-59 | every category has a window start the arrows can reach that shows it |
| Catalogo.Pagina.Cargar | frontend/src/pages/catalogo.jsx:15-29 | loading ends; a failure keeps the list and sets the error text; a list replaces the categories and makes its first one active when non-empty |
| Catalogo.Pagina.ClickCategoria | frontend/src/pages/catalogo.jsx:34-36 | the clicked id becomes active and, when a category has it, is the selected one; nothing else changes |
| Catalogo.Pagina.MoverIzquierda | frontend/src/pages/catalogo.jsx:40-42 | the window start steps back by one unless at 0, and stays valid |
| Catalogo.Pagina.MoverDerecha | frontend/src/pages/catalogo.jsx:44-48 | the window start steps on by one only while the window does not reach the end, and stays valid |
| Catalogo.Pagina.Visibles | frontend/src/pages/catalogo.jsx:57-59 | at most five buttons, the categories from the window start; in a valid state five whenever there are five, the whole list otherwise |
| Catalogo.Pagina.Seleccionada | frontend/src/pages/catalogo.jsx:38 | the selected category is in the list with the active id; none exactly when no category has it |
| Navbar.SeMuestra | frontend/src/components/Navbar.jsx:17-19 | the bar is hidden exactly on `/login` and `/registro` |
| Navbar.UnidadesAlMenosEntradas | frontend/src/components/Navbar.jsx:21 | a cart whose quantities are at least 1 holds at least one unit per entry |
| Navbar.ContadorDelCarrito | frontend/src/components/Navbar.jsx:21-66 | the badge counts the units the storefront counts, and appears exactly when the cart is not empty |
| Navbar.PerfilPath | frontend/src/components/Navbar.jsx:24-33 | `/paneladmin` exactly for `admin`, `/panelempleado` exactly for `empleado`, `/perfilcliente` otherwise |
| Navbar.PerfilComoLogin | frontend/src/components/Navbar.jsx:24-81 | the profile link differs from the login redirect as a string but matches it ignoring case, for every role; the messages link shows exactly for users sent to the admin panel |
| Text.TrimEmptyIff | frontend/src/pages/login.jsx:28 | `s.trim()` is empty exactly when every character of `s` is JavaScript white space |
| Text.TrimShape | frontend/src/pages/registro.jsx:39-45 | the trimmed text is no longer than the input and has no white space at either end |
| Text.Lower | frontend/src/pages/PanelPedidos.jsx:42 | lower-casing keeps the length and folds each ASCII capital to its small letter |
| Text.ContainsIff | frontend/src/pages/Usuarios.jsx:53-55 | `includes` holds exactly when the text occurs at some position |
| Text.NatToString | frontend/src/pages/PanelPedidos.jsx:43 | an order number prints as a non-empty string of decimal digits |
| Text.ParseIntNatToString | frontend/src/pages/PanelPedidos.jsx:43 | reading back a printed number gives the number |
| Text.ParseDecimal | inventario/filters.py:45-50 | a string `int()` accepts is read by `float()` as the same value |
| Text.ParseInt | inventario/filters.py:62-67 | exactly the strings `[+-]?digits` are read, as the value of their digits with the sign applied |
| Text.ParseIntSigned | inventario/filters.py:62-67 | a signed printed integer reads back as itself |

## Left out

- Floating point: prices and totals are integer cents. A price bound is parsed as an exact decimal (`[+-]?d+(.d+)?`), so exponents, `inf` and `nan` read by Python's `float()` are treated as unparseable.
- ParseInt: reads exactly `[+-]?[0-9]+`. Python's `int()` also accepts surrounding white space and `_` between digits (`int(" 5")` is 5, `int("1_0")` is 10); the model reads those as errors.
- ParseDecimal: reads exactly `[+-]?d+(.d+)?`. Python's `float()` and JavaScript's `Number()` also accept `.5`, `1.`, exponents, surrounding white space and the words for infinity (and `nan` in Python); the model reads those as unparseable, and so do the invoice page's total bounds (frontend/src/pages/Facturas.jsx:201-202), which test for an empty bound before converting.
- EnteroParam: an id parameter such as `" 5"` or `"1_0"`, which Python's `int()` reads, is an error in the model (see ParseInt).
- DecimalParam: a price bound such as `".5"`, `"1."` or `" 5"`, which Python's `float()` reads and applies, is skipped by the model as unparseable.
- IntParam: a stock bound such as `" 5"` or `"1_0"`, which Python's `int()` reads and applies, is skipped by the model.
- Login.ValidarForm, Login.FortalezaPorLongitud, Registro.Validar, Registro.ValidarPassword and Registro.FortalezaDeContrasenaAceptada count a password's length in characters; JavaScript's `.length` counts UTF-16 code units, so a password with characters outside the Basic Multilingual Plane is longer in the browser than in the model.
- AgregarMedicamento: the total is the numeric sum of the subtotals. As written the page adds the catalogue's price strings with `+`, so a draft holding a new line has a concatenated string as total (see Findings).
- AgregarSumaPrecio: proved for prices read as numbers; as written, adding a new line appends its price string to the total instead of adding it (Facturas.DosLineasNuevasConcatenan).
- EliminarMedicamento: the recomputed total is the numeric sum of the remaining subtotals; as written a remaining string subtotal makes it a concatenation (Facturas.TotalTextoSiHayTexto).
- EliminarRestaSubtotal: the subtraction holds for numeric subtotals only; with a string subtotal left in the draft the source's total is a concatenation.
- Dates: ISO date strings and `timezone.now()` are not parsed. Dates are integer day ordinals and the current day or instant is a parameter.
- The database: transactions, `select_for_update` and the ORM. Tables are sequences indexed by primary key. The store methods take rows that exist; a lookup of a missing primary key (`DoesNotExist`) is handled by the views, which are not part of this model.
- Concurrency between requests is not modelled; each operation runs alone.
- Exceptions raised inside the signal handlers are swallowed by the source (inventario/signals.py:25-26, 41-43, 60-61, 86-90, 102-103). The model has handlers that cannot fail, so there is nothing to swallow.
- The `cancelled` loan state is declared, but nothing moves a loan to it, and neither does the model.
- `PedidosSerializers.Create`: an item without `cantidad` raises `KeyError` in the source. The model's items always carry a quantity.
- `DrogueriasViews.Cuenta.SetActive`: the id arrives as an optional integer. A non-numeric id, which the ORM rejects with an error, is not modelled.
- Facturas.ActualizarCantidad: requires an existing line index. The page only calls it for a drawn line. An index out of range would throw in the browser.
- Facturas.ActualizarCantidad: `Number(cantidad)` and `precio_unitario || 0` coercions are not modelled. Quantities and prices are integers.
- JavaScript string coercion in general (`String(f.cliente || "")`, `p.id.toString()`) is modelled only for natural numbers.
- Case folding is ASCII only (`A`-`Z`). Neither `toLowerCase` nor `icontains` is modelled beyond that.
- The network, `localStorage`, `alert`, `console` and `navigate` are outside the model. A call's outcome (a response, a role, success or failure) is a parameter.
- The 300 ms debounce timers and React's rendering order are not modelled. Each fetch is a function of the filter state it reads.
- The message page's buttons call `marcarComoLeido`, `publicarComoResena` and `inactivarMensaje` (frontend/src/pages/Mensajes.jsx:122, 131, 139, 148), which the page never defines. They are not modelled.
- Typing in the message page's search box does not reset the page (frontend/src/pages/Mensajes.jsx:83). The model keeps the page as given.
- The unused `usuariosFiltrados` of frontend/src/pages/Usuarios.jsx:148-152 is not modelled.
- User creation, editing and deactivation requests on the user page are left out, apart from the duplicate-username guard. So are the backend's registration error map (frontend/src/pages/registro.jsx:92-117) and the invoice PDF export (frontend/src/pages/Facturas.jsx:183-191).
- The catalogue's medicine cards and loading text are not modelled; only the category state and window are. The same goes for the navigation bar's avatar, token check and logout.
- Catalogo.Pagina.Cargar: the window stays valid only when loading starts from window 0. That is the only state in which the page loads.
- The registration page's automatic login after a successful registration is the `rol` parameter of `Registro.EnviarRegistro`. `None` stands for any failure of either call.

## Findings

| source | as written | input that shows it | evidently intended | confidence | as-written member | corrected member |
|---|---|---|---|---|---|---|
| inventario/models.py:316-339 | `aceptar` loads the origin and destination rows, saves an exit movement (which updates the origin in the database), then saves an entry movement and the origin from copies loaded before those writes | a loan of 5 units whose destination row is its origin row, starting from 20 units: the row ends with 15 | each step reads the current row, so a row lending to itself keeps its 20 units | medium, not executed | InventarioStore.InstantaneasPierdenStock | InventarioStore.TransferirConserva |
| pedidos/serializers.py:32-33 | `Pedido.objects.create(cliente=cliente, **validated_data)` while `validated_data` still holds `cliente` | any order creation, since `cliente` is a required field: Python raises `TypeError` for a keyword given twice | pass `cliente` once and create the order with its lines and total | high, not executed | PedidosSerializers.CreateComoEscritoFalla | PedidosSerializers.Create |
| frontend/src/pages/registro.jsx:76-78 | the redirect after registering tests for the role `administrador` | a new user whose role is `admin` lands on `/perfilCliente` | redirect `admin` to `/panelAdmin`, as the login page does | medium, not executed | Registro.AdminNoLlegaAlPanel | Registro.EnviarRegistro |
| frontend/src/pages/Facturas.jsx:98-122 | the draft total is `reduce((acc, d) => acc + d.subtotal, 0)`, and a new line's subtotal is the catalogue price, which inventario/serializer.py:46 sends as a string | an empty draft, then medicines priced "12.50" and "3.00": the total is the string "012.503.00", which reads as no number, instead of 15.50 | add the subtotals as numbers, as `actualizarCantidad` does with `Number(d.subtotal \|\| 0)` at line 130 | high, not executed | Facturas.DosLineasNuevasConcatenan | Facturas.AgregarSumaPrecio |
