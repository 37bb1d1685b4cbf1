/** Order creation and update through the API: the lines are stored with
    their subtotals and the order total is the sum of those subtotals,
    whatever total the client sent. */
module PedidosSerializers {
  import opened Seqs
  import opened PedidosModels

  datatype PedidoError = ClienteNoValido | ArgumentoDuplicado

  datatype Result<T> = Ok(value: T) | Err(error: PedidoError)

  /** The accumulating loop of `create` and `update`: one stored line per
      requested line, and the running total of their subtotals. */
  method CrearDetalles(data: seq<LineaData>) returns (detalles: seq<Detalle>, total: int)
    ensures |detalles| == |data|
    ensures forall i :: 0 <= i < |data| ==> detalles[i] == GuardarDetalle(data[i], Subtotal(data[i]))
    ensures total == SumOf(data, Subtotal)
    ensures total == SumOf(detalles, SubtotalGuardado)
  {
    detalles := [];
    total := 0;
    var i := 0;
    while i < |data|
      invariant 0 <= i <= |data|
      invariant |detalles| == i
      invariant forall k :: 0 <= k < i ==> detalles[k] == GuardarDetalle(data[k], Subtotal(data[k]))
      invariant total == SumOf(data[..i], Subtotal)
    {
      var subtotal := data[i].precioVenta * data[i].cantidad;
      detalles := detalles + [GuardarDetalle(data[i], subtotal)];
      total := total + subtotal;
      assert data[..i + 1][..i] == data[..i];
      i := i + 1;
    }
    assert data[..i] == data;
    SumOfCongruent(data, Subtotal, detalles, SubtotalGuardado);
  }

  /** With non-negative prices every order total is non-negative. */
  lemma TotalNoNegativo(data: seq<LineaData>)
    requires forall i :: 0 <= i < |data| ==> data[i].precioVenta >= 0
    ensures SumOf(data, Subtotal) >= 0
  {
    SumOfNonNegative(data, Subtotal);
  }

  /** `PedidoSerializer.create` as intended: the client must have rol
      `cliente`; the order starts in the given state (default `pendiente`),
      one line is stored per requested line, and the total is the sum of the
      line subtotals — the client-supplied total is ignored. */
  method Create(cliente: nat, clienteRol: Option<string>, estado: Option<EstadoPedido>, totalDado: Option<int>,
                data: seq<LineaData>) returns (r: Result<Pedido>)
    ensures r.Err? <==> clienteRol != Some("cliente")
    ensures r.Err? ==> r.error == ClienteNoValido
    ensures r.Ok? ==> fresh(r.value)
    ensures r.Ok? ==> r.value.cliente == cliente
    ensures r.Ok? ==> r.value.estado == (if estado.Some? then estado.value else Pendiente)
    ensures r.Ok? ==> |r.value.detalles| == |data|
    ensures r.Ok? ==> forall i :: 0 <= i < |data| ==> r.value.detalles[i] == GuardarDetalle(data[i], Subtotal(data[i]))
    ensures r.Ok? ==> r.value.total == SumOf(data, Subtotal)
  {
    if clienteRol != Some("cliente") {
      return Err(ClienteNoValido);
    }
    var pedido := new Pedido(cliente, estado);
    var detalles, total := CrearDetalles(data);
    pedido.detalles := detalles;
    pedido.total := total;
    r := Ok(pedido);
  }

  /** `create` as written passes `cliente` both by name and inside the
      validated fields. Keyword arguments given twice are a `TypeError`, so
      the call fails whenever the validated fields hold `cliente`. */
  function CreateComoEscrito(camposValidados: set<string>): (r: Option<PedidoError>)
  {
    if "cliente" in camposValidados then Some(ArgumentoDuplicado) else None
  }

  /** `cliente` is a required field, so it is always among the validated
      fields and the create call as written never succeeds. */
  lemma CreateComoEscritoFalla(camposValidados: set<string>)
    requires "cliente" in camposValidados
    ensures CreateComoEscrito(camposValidados) == Some(ArgumentoDuplicado)
  {
  }

  /** `PedidoSerializer.update`: the state changes only when one is given;
      a non-empty list of lines replaces every old line and resets the total
      to their sum; an empty or absent list leaves lines and total alone. */
  method Update(p: Pedido, estado: Option<EstadoPedido>, data: seq<LineaData>)
    modifies p
    ensures p.cliente == old(p.cliente)
    ensures p.estado == (if estado.Some? then estado.value else old(p.estado))
    ensures data == [] ==> p.detalles == old(p.detalles) && p.total == old(p.total)
    ensures data != [] ==> |p.detalles| == |data|
    ensures data != [] ==> forall i :: 0 <= i < |data| ==> p.detalles[i] == GuardarDetalle(data[i], Subtotal(data[i]))
    ensures data != [] ==> p.total == SumOf(data, Subtotal) && p.total == SumOf(p.detalles, SubtotalGuardado)
  {
    p.estado := if estado.Some? then estado.value else p.estado;
    if data != [] {
      p.detalles := [];
      var detalles, total := CrearDetalles(data);
      p.detalles := detalles;
      p.total := total;
    }
  }
}
