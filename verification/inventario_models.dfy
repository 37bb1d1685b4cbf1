/** Inventory records of a pharmacy chain: medicines with their stock
    counters, stock movements, inter-branch loans (`Prestamo`), alerts and
    audit rows. Money is in integer cents; dates are day (or instant)
    ordinals. Rows of other tables (branches, users, categories) are
    referred to by their numeric id. */
module InventarioModels {
  import opened Seqs

  /** A medicine row. `stock_*` are `PositiveIntegerField`s, hence `nat`. */
  datatype Medicamento = Medicamento(
    nombre: string,
    descripcion: Option<string>,
    categoria: Option<nat>,
    drogueria: Option<nat>,
    precioVenta: int,
    costoCompra: int,
    lote: Option<string>,
    proveedor: Option<string>,
    codigoBarra: Option<string>,
    stockReservado: nat,
    stockActual: nat,
    stockMinimo: nat,
    fechaVencimiento: Option<int>,
    estado: bool)

  /** A new medicine with every field at its declared default
      (`costo_compra` 0, no stock, `stock_minimo` 10, active). */
  function NuevoMedicamento(nombre: string, drogueria: Option<nat>, precioVenta: int): (m: Medicamento)
    ensures m.nombre == nombre && m.drogueria == drogueria && m.precioVenta == precioVenta
    ensures m.costoCompra == 0 && m.stockActual == 0 && m.stockReservado == 0 && m.stockMinimo == 10
    ensures m.estado && m.fechaVencimiento.None? && m.categoria.None?
  {
    Medicamento(nombre, None, None, drogueria, precioVenta, 0, None, None, None, 0, 0, 10, None, true)
  }

  /** `stock_disponible`: what is left once reservations are taken out,
      never negative. */
  function StockDisponible(m: Medicamento): (r: nat)
    ensures r <= m.stockActual
    ensures m.stockReservado <= m.stockActual ==> r + m.stockReservado == m.stockActual
    ensures m.stockReservado >= m.stockActual ==> r == 0
  {
    if m.stockActual >= m.stockReservado then m.stockActual - m.stockReservado else 0
  }

  /** `valor_total` and `costo_total`: stock valued at sale price and at
      purchase cost. */
  function ValorTotal(m: Medicamento): (r: int)
    ensures m.precioVenta >= 0 ==> r >= 0
    ensures m.stockActual == 0 ==> r == 0
  {
    m.precioVenta * m.stockActual
  }

  function CostoTotal(m: Medicamento): (r: int)
    ensures m.costoCompra >= 0 ==> r >= 0
    ensures m.stockActual == 0 ==> r == 0
  {
    m.costoCompra * m.stockActual
  }

  datatype EstadoStock = BajoStock | StockSuficiente

  /** `verificar_stock`: low stock includes the case of being exactly at the
      minimum. */
  function VerificarStock(m: Medicamento): (r: EstadoStock)
    ensures r == BajoStock <==> m.stockActual <= m.stockMinimo
  {
    if m.stockActual <= m.stockMinimo then BajoStock else StockSuficiente
  }

  /** `esta_vencido`: an expiry date strictly before `today`. */
  predicate EstaVencido(m: Medicamento, today: int)
  {
    m.fechaVencimiento.Some? && m.fechaVencimiento.value < today
  }

  /** Once expired, a medicine stays expired; without a date it never is. */
  lemma VencidoPersiste(m: Medicamento, today: int, later: int)
    requires today <= later
    ensures EstaVencido(m, today) ==> EstaVencido(m, later)
    ensures m.fechaVencimiento.None? ==> !EstaVencido(m, later)
  {
  }

  // ---------------------------------------------------------------------
  // Stock movements
  // ---------------------------------------------------------------------

  datatype TipoMovimiento = Entrada | Salida | Ajuste

  /** The stored `tipo_movimiento` code; distinct kinds have distinct codes. */
  function TipoMovimientoCodigo(t: TipoMovimiento): (c: string)
    ensures c in {"entrada", "salida", "ajuste"}
  {
    match t
    case Entrada => "entrada"
    case Salida => "salida"
    case Ajuste => "ajuste"
  }

  datatype Movimiento = Movimiento(
    medicamento: nat,
    drogueria: Option<nat>,
    tipo: TipoMovimiento,
    cantidad: nat,
    fecha: int,
    usuario: Option<nat>,
    observacion: Option<string>)

  /** The change `MovimientoInventario.save` makes to its medicine when the
      movement is first saved. `transferenciaRelease` is the optional keyword
      argument of `save` that also releases reserved stock on an entry; with
      it the medicine row is written, and then the save itself fails
      (`Store.CrearMovimientoConLiberacion`). */
  function AplicarMovimiento(m: Medicamento, tipo: TipoMovimiento, cantidad: nat, transferenciaRelease: bool): (r: Medicamento)
    ensures r == m.(stockActual := r.stockActual, stockReservado := r.stockReservado)
    ensures tipo == Entrada ==> r.stockActual == m.stockActual + cantidad
    ensures tipo == Salida && cantidad <= m.stockActual ==> r.stockActual + cantidad == m.stockActual
    ensures tipo == Salida && cantidad >= m.stockActual ==> r.stockActual == 0
    ensures tipo == Ajuste ==> r == m
    ensures !(tipo == Entrada && transferenciaRelease) ==> r.stockReservado == m.stockReservado
    ensures tipo == Entrada && transferenciaRelease ==> r.stockReservado == Monus(m.stockReservado, cantidad)
  {
    match tipo
    case Entrada =>
      var m1 := m.(stockActual := m.stockActual + cantidad);
      if transferenciaRelease then m1.(stockReservado := Monus(m1.stockReservado, cantidad)) else m1
    case Salida =>
      m.(stockActual := Monus(m.stockActual, cantidad))
    case Ajuste => m
  }

  /** `max(a - b, 0)` on counters. */
  function Monus(a: nat, b: nat): (r: nat)
    ensures r <= a
    ensures b <= a ==> r + b == a
    ensures b >= a ==> r == 0
  {
    if a >= b then a - b else 0
  }

  /** An exit undoes an entry of the same size. */
  lemma SalidaDeshaceEntrada(m: Medicamento, c: nat)
    ensures AplicarMovimiento(AplicarMovimiento(m, Entrada, c, false), Salida, c, false) == m
  {
  }

  /** An entry undoes an exit that the stock covered; an exit larger than the
      stock loses the excess. */
  lemma EntradaDeshaceSalida(m: Medicamento, c: nat)
    ensures c <= m.stockActual ==> AplicarMovimiento(AplicarMovimiento(m, Salida, c, false), Entrada, c, false) == m
    ensures c > m.stockActual ==>
      AplicarMovimiento(AplicarMovimiento(m, Salida, c, false), Entrada, c, false).stockActual == c
  {
  }

  // ---------------------------------------------------------------------
  // Loans between branches
  // ---------------------------------------------------------------------

  /** `cancelled` is a declared state that no operation produces. */
  datatype EstadoPrestamo = Pending | Accepted | Rejected | Cancelled

  function EstadoPrestamoCodigo(e: EstadoPrestamo): (c: string)
    ensures c in {"pending", "accepted", "rejected", "cancelled"}
  {
    match e
    case Pending => "pending"
    case Accepted => "accepted"
    case Rejected => "rejected"
    case Cancelled => "cancelled"
  }

  datatype Prestamo = Prestamo(
    medicamentoOrigen: nat,
    medicamentoDestino: Option<nat>,
    cantidad: nat,
    origen: nat,
    destino: nat,
    estado: EstadoPrestamo,
    solicitante: Option<nat>,
    respondedor: Option<nat>,
    fechaSolicitud: int,
    fechaRespuesta: Option<int>,
    nota: Option<string>)

  datatype CleanError = OrigenAjeno | DestinoAjeno | CantidadNoPositiva

  /** `Prestamo.clean`: the first failing check, in source order, or `None`
      when the loan is consistent. `destino` is the destination medicine row
      when the loan names one. */
  function Clean(p: Prestamo, origen: Medicamento, destino: Option<Medicamento>): (r: Option<CleanError>)
    ensures r.None? <==>
      origen.drogueria == Some(p.origen)
      && (destino.Some? ==> destino.value.drogueria == Some(p.destino))
      && p.cantidad > 0
    ensures r == Some(OrigenAjeno) <==> origen.drogueria != Some(p.origen)
    ensures r == Some(CantidadNoPositiva) ==> p.cantidad == 0
  {
    if origen.drogueria != Some(p.origen) then Some(OrigenAjeno)
    else if destino.Some? && destino.value.drogueria != Some(p.destino) then Some(DestinoAjeno)
    else if p.cantidad <= 0 then Some(CantidadNoPositiva)
    else None
  }

  // ---------------------------------------------------------------------
  // Alerts and audit rows
  // ---------------------------------------------------------------------

  datatype TipoAlerta = LowStock | Vencido | PrestamoAlerta | Info

  datatype NivelAlerta = NivelInfo | Warning | Danger

  function TipoAlertaCodigo(t: TipoAlerta): (c: string)
    ensures c in {"low_stock", "vencido", "prestamo", "info"}
  {
    match t
    case LowStock => "low_stock"
    case Vencido => "vencido"
    case PrestamoAlerta => "prestamo"
    case Info => "info"
  }

  /** Distinct kinds, states and levels are stored under distinct codes, so
      an exact-match filter on a code selects exactly one of them. */
  lemma CodigosInyectivos()
    ensures forall a, b :: TipoMovimientoCodigo(a) == TipoMovimientoCodigo(b) ==> a == b
    ensures forall a, b :: EstadoPrestamoCodigo(a) == EstadoPrestamoCodigo(b) ==> a == b
    ensures forall a, b :: TipoAlertaCodigo(a) == TipoAlertaCodigo(b) ==> a == b
    ensures forall a, b :: NivelAlertaCodigo(a) == NivelAlertaCodigo(b) ==> a == b
  {
  }

  function NivelAlertaCodigo(n: NivelAlerta): (c: string)
    ensures c in {"info", "warning", "danger"}
  {
    match n
    case NivelInfo => "info"
    case Warning => "warning"
    case Danger => "danger"
  }

  datatype Alerta = Alerta(
    tipo: TipoAlerta,
    nivel: NivelAlerta,
    medicamento: Option<nat>,
    drogueria: Option<nat>,
    leido: bool)

  datatype AuditEntry = AuditEntry(
    action: string,
    modelName: Option<string>,
    objectId: Option<int>,
    user: Option<nat>)
}
