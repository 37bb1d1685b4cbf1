/** Customer orders: an order with its status and total, and its detail
    lines. Saving a line recomputes its subtotal from the medicine's sale
    price, whatever subtotal it carried. Money is in integer cents. */
module PedidosModels {
  import opened Seqs

  /** The four declared order states; `pendiente` is the default. */
  datatype EstadoPedido = Pendiente | Procesado | Entregado | Cancelado

  function EstadoCodigo(e: EstadoPedido): (s: string)
    ensures s in {"pendiente", "procesado", "entregado", "cancelado"}
  {
    match e
    case Pendiente => "pendiente"
    case Procesado => "procesado"
    case Entregado => "entregado"
    case Cancelado => "cancelado"
  }

  /** Reading a stored state code back: only the four declared codes are
      accepted, and each state's code reads back as that state. */
  function EstadoDesdeCodigo(s: string): Option<EstadoPedido>
  {
    if s == "pendiente" then Some(Pendiente)
    else if s == "procesado" then Some(Procesado)
    else if s == "entregado" then Some(Entregado)
    else if s == "cancelado" then Some(Cancelado)
    else None
  }

  lemma EstadoCodigoRoundTrip(e: EstadoPedido)
    ensures EstadoDesdeCodigo(EstadoCodigo(e)) == Some(e)
  {
  }

  /** A stored line: the medicine id, the quantity and the subtotal. */
  datatype Detalle = Detalle(medicamento: nat, cantidad: nat, subtotal: int)

  /** A line as requested: the medicine (its id and current sale price) and
      the quantity. */
  datatype LineaData = LineaData(medicamento: nat, precioVenta: int, cantidad: nat)

  /** A line created without values: quantity 1, subtotal 0.00. */
  function DetalleDefault(medicamento: nat): (d: Detalle)
    ensures d.medicamento == medicamento && d.cantidad == 1 && d.subtotal == 0
  {
    Detalle(medicamento, 1, 0)
  }

  /** `DetallePedido.save`: the stored subtotal is the medicine's sale price
      times the quantity. */
  function GuardarDetalle(l: LineaData, subtotalDado: int): (d: Detalle)
    ensures d.medicamento == l.medicamento && d.cantidad == l.cantidad
    ensures d.subtotal == l.precioVenta * l.cantidad
  {
    Detalle(l.medicamento, l.cantidad, l.precioVenta * l.cantidad)
  }

  /** Any subtotal supplied with a line is overridden on save. */
  lemma SubtotalDadoIgnorado(l: LineaData, a: int, b: int)
    ensures GuardarDetalle(l, a) == GuardarDetalle(l, b)
  {
  }

  function Subtotal(l: LineaData): int { l.precioVenta * l.cantidad }

  function SubtotalGuardado(d: Detalle): int { d.subtotal }

  /** An order row and its lines (`instance.detalles`). */
  class Pedido {
    var cliente: nat
    var estado: EstadoPedido
    var total: int
    var detalles: seq<Detalle>

    /** `Pedido.objects.create`: the state given, or `pendiente`; total 0.00;
        no lines yet. */
    constructor (cliente: nat, estado: Option<EstadoPedido>)
      ensures this.cliente == cliente
      ensures this.estado == (if estado.Some? then estado.value else Pendiente)
      ensures total == 0 && detalles == []
    {
      this.cliente := cliente;
      this.estado := if estado.Some? then estado.value else Pendiente;
      total := 0;
      detalles := [];
    }
  }
}
