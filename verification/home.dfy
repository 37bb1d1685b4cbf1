/** The storefront page: the shopping cart kept in React state (add with a
    stock ceiling, decrement-and-drop, remove), its statistics, the order
    payload sent on checkout, the count of active catalogue filters and the
    window of page buttons. Prices are integer cents. */
module Home {
  import opened Seqs
  import opened Paging

  /** A catalogue product as the page receives it; `stockDisponible` may be
      missing from the response. */
  datatype Producto = Producto(id: int, nombre: string, precioVenta: int, stockDisponible: Option<int>)

  /** A cart entry: the product spread into a new object plus `cantidad`. */
  datatype Item = Item(producto: Producto, cantidad: int)

  type Carrito = seq<Item>

  /** Index of the first entry for product `id` (`carrito.find`). */
  function FindById(c: Carrito, id: int): (r: Option<nat>)
    ensures r.Some? ==> r.value < |c| && c[r.value].producto.id == id
    ensures r.Some? ==> forall j :: 0 <= j < r.value ==> c[j].producto.id != id
    ensures r.None? ==> forall j :: 0 <= j < |c| ==> c[j].producto.id != id
  {
    if c == [] then None
    else if c[0].producto.id == id then Some(0)
    else match FindById(c[1..], id)
      case Some(k) => Some(k + 1)
      case None => None
  }

  /** `!producto.stock_disponible || producto.stock_disponible <= 0`. */
  predicate SinStock(p: Producto)
  {
    p.stockDisponible.None? || p.stockDisponible.value <= 0
  }

  function IncrementIf(c: Carrito, id: int): (r: Carrito)
    ensures |r| == |c|
    ensures forall i :: 0 <= i < |c| ==>
      r[i] == (if c[i].producto.id == id then c[i].(cantidad := c[i].cantidad + 1) else c[i])
  {
    if c == [] then []
    else [if c[0].producto.id == id then c[0].(cantidad := c[0].cantidad + 1) else c[0]] + IncrementIf(c[1..], id)
  }

  /** `agregarAlCarrito`: without a session token, or for a product with no
      available stock, the cart is unchanged; a product already in the cart
      gains one unit unless its quantity has reached the product's
      `stock_disponible`; a new product is appended with quantity 1. */
  function AgregarAlCarrito(c: Carrito, p: Producto, token: bool): (r: Carrito)
    ensures !token || SinStock(p) ==> r == c
    ensures token && !SinStock(p) && FindById(c, p.id).None? ==> r == c + [Item(p, 1)]
    ensures token && !SinStock(p) && FindById(c, p.id).Some? ==>
      var k := FindById(c, p.id).value;
      if c[k].cantidad >= p.stockDisponible.value then r == c
      else |r| == |c| && forall i :: 0 <= i < |c| ==>
        r[i] == (if c[i].producto.id == p.id then c[i].(cantidad := c[i].cantidad + 1) else c[i])
  {
    if !token || SinStock(p) then c
    else match FindById(c, p.id)
      case Some(k) => if c[k].cantidad >= p.stockDisponible.value then c else IncrementIf(c, p.id)
      case None => c + [Item(p, 1)]
  }

  function Decrement(c: Carrito, id: int): (r: Carrito)
    ensures |r| == |c|
    ensures forall i :: 0 <= i < |c| ==>
      r[i] == (if c[i].producto.id == id then c[i].(cantidad := c[i].cantidad - 1) else c[i])
  {
    if c == [] then []
    else [if c[0].producto.id == id then c[0].(cantidad := c[0].cantidad - 1) else c[0]] + Decrement(c[1..], id)
  }

  /** `reducirCantidad`: decrement the entries for `id`, then drop every
      entry whose quantity is not positive. */
  function ReducirCantidad(c: Carrito, id: int): Carrito
  {
    Filter(Decrement(c, id), Positive)
  }

  predicate Positive(e: Item) { e.cantidad > 0 }

  function KeepOther(id: int): Item -> bool
  {
    (e: Item) => e.producto.id != id
  }

  /** `eliminar`: keep the entries whose id differs. */
  function Eliminar(c: Carrito, id: int): Carrito
  {
    Filter(c, KeepOther(id))
  }

  function LineTotal(e: Item): int { e.producto.precioVenta * e.cantidad }

  function Units(e: Item): int { e.cantidad }

  /** `estadisticasCarrito`: number of entries, money total and units. */
  datatype Estadisticas = Estadisticas(cantidad: nat, total: int, items: int)

  function EstadisticasCarrito(c: Carrito): Estadisticas
  {
    Estadisticas(|c|, SumOf(c, LineTotal), SumOf(c, Units))
  }

  // ---------------------------------------------------------------------
  // Cart invariant: ids are unique and every quantity is within the
  // product's stock snapshot.
  // ---------------------------------------------------------------------

  predicate UniqueIds(c: Carrito)
  {
    forall i, j :: 0 <= i < j < |c| ==> c[i].producto.id != c[j].producto.id
  }

  predicate WithinStock(c: Carrito)
  {
    forall i :: 0 <= i < |c| ==>
      c[i].producto.stockDisponible.Some? && 1 <= c[i].cantidad <= c[i].producto.stockDisponible.value
  }

  predicate Valid(c: Carrito) { UniqueIds(c) && WithinStock(c) }

  /** The product being added is the catalogue record its cart entry was
      copied from (same price and stock snapshot). */
  predicate FromCatalogue(c: Carrito, p: Producto)
  {
    forall i :: 0 <= i < |c| && c[i].producto.id == p.id ==> c[i].producto == p
  }

  /** Adding keeps the cart valid: an empty cart is valid, so every cart
      built by `agregarAlCarrito` from the catalogue is valid. */
  lemma AgregarKeepsValid(c: Carrito, p: Producto, token: bool)
    requires Valid(c) && FromCatalogue(c, p)
    ensures Valid(AgregarAlCarrito(c, p, token))
  {
    var r := AgregarAlCarrito(c, p, token);
    if token && !SinStock(p) {
      match FindById(c, p.id)
      case Some(k) =>
        if c[k].cantidad < p.stockDisponible.value {
          forall i | 0 <= i < |r| ensures r[i].producto == c[i].producto {
          }
        }
      case None =>
    }
  }

  /** On a cart with unique ids an accepted add raises exactly one entry by
      one unit (or appends one), so the unit count grows by one and the money
      total by the product's price; a refused add changes nothing. */
  lemma AgregarEffect(c: Carrito, p: Producto, token: bool)
    requires UniqueIds(c) && FromCatalogue(c, p)
    ensures var r := AgregarAlCarrito(c, p, token);
      (r == c) || (SumOf(r, Units) == SumOf(c, Units) + 1 && SumOf(r, LineTotal) == SumOf(c, LineTotal) + p.precioVenta)
  {
    var r := AgregarAlCarrito(c, p, token);
    if token && !SinStock(p) {
      match FindById(c, p.id)
      case Some(k) =>
        if c[k].cantidad < p.stockDisponible.value {
          var e := c[k].(cantidad := c[k].cantidad + 1);
          forall i | 0 <= i < |c| && i != k ensures c[i].producto.id != p.id {
            if i < k { assert c[i].producto.id != c[k].producto.id; }
            else { assert c[k].producto.id != c[i].producto.id; }
          }
          assert r == c[k := e];
          SumOfUpdate(c, k, e, Units);
          SumOfUpdate(c, k, e, LineTotal);
          assert LineTotal(e) == LineTotal(c[k]) + p.precioVenta;
        }
      case None =>
        SumOfAppend(c, [Item(p, 1)], Units);
        SumOfAppend(c, [Item(p, 1)], LineTotal);
        SumOfSingle(Item(p, 1), Units);
        SumOfSingle(Item(p, 1), LineTotal);
    }
  }

  /** On a valid cart `reducirCantidad` lowers the one matching entry by one
      and drops it when it reaches zero; an absent id changes nothing. */
  lemma ReducirCantidadEffect(c: Carrito, id: int)
    requires Valid(c)
    ensures FindById(c, id).None? ==> ReducirCantidad(c, id) == c
    ensures FindById(c, id).Some? ==>
      var k := FindById(c, id).value;
      ReducirCantidad(c, id) ==
        if c[k].cantidad == 1 then c[..k] + c[k + 1..]
        else c[k := c[k].(cantidad := c[k].cantidad - 1)]
  {
    var d := Decrement(c, id);
    match FindById(c, id)
    case None =>
      assert d == c;
      FilterAll(c, Positive);
    case Some(k) =>
      forall i | 0 <= i < |c| && i != k ensures c[i].producto.id != id {
        if i < k { assert c[i].producto.id != c[k].producto.id; }
        else { assert c[k].producto.id != c[i].producto.id; }
      }
      assert d == c[k := c[k].(cantidad := c[k].cantidad - 1)];
      FilterAllBut(d, k, Positive);
      assert d[..k] == c[..k] && d[k + 1..] == c[k + 1..];
      if c[k].cantidad != 1 {
        assert d == c[..k] + [d[k]] + c[k + 1..];
      }
  }

  /** `reducirCantidad` keeps the cart valid. */
  lemma ReducirKeepsValid(c: Carrito, id: int)
    requires Valid(c)
    ensures Valid(ReducirCantidad(c, id))
  {
    var d := Decrement(c, id);
    var r := ReducirCantidad(c, id);
    assert UniqueIds(d) by {
      forall i, j | 0 <= i < j < |d| ensures d[i].producto.id != d[j].producto.id {
        assert d[i].producto == c[i].producto && d[j].producto == c[j].producto;
      }
    }
    FilterIsSubseq(d, Positive);
    FilterMembers(d, Positive);
    SubseqKeepsUnique(r, d);
    forall i | 0 <= i < |r|
      ensures r[i].producto.stockDisponible.Some? && 1 <= r[i].cantidad <= r[i].producto.stockDisponible.value
    {
      assert r[i] in d;
      var j :| 0 <= j < |d| && d[j] == r[i];
      assert d[j].producto == c[j].producto && d[j].cantidad <= c[j].cantidad;
    }
  }

  /** `eliminar` leaves no entry for `id` and keeps the other entries in
      their order. */
  lemma EliminarRemovesId(c: Carrito, id: int)
    ensures forall i :: 0 <= i < |Eliminar(c, id)| ==> Eliminar(c, id)[i].producto.id != id
    ensures forall i :: 0 <= i < |c| && c[i].producto.id != id ==> c[i] in Eliminar(c, id)
    ensures IsSubseq(Eliminar(c, id), c)
  {
    FilterIsSubseq(c, KeepOther(id));
    FilterMembers(c, KeepOther(id));
  }

  /** On a cart with unique ids `eliminar` removes exactly the matching
      entry, or nothing when the id is absent. */
  lemma EliminarEffect(c: Carrito, id: int)
    requires UniqueIds(c)
    ensures FindById(c, id).None? ==> Eliminar(c, id) == c
    ensures FindById(c, id).Some? ==>
      Eliminar(c, id) == c[..FindById(c, id).value] + c[FindById(c, id).value + 1..]
  {
    match FindById(c, id)
    case None =>
      FilterAll(c, KeepOther(id));
    case Some(k) =>
      forall i | 0 <= i < |c| && i != k ensures KeepOther(id)(c[i]) {
        if i < k { assert c[i].producto.id != c[k].producto.id; }
        else { assert c[k].producto.id != c[i].producto.id; }
      }
      FilterAllBut(c, k, KeepOther(id));
  }

  /** Subsequences of a cart with unique ids have unique ids. */
  lemma SubseqKeepsUnique(r: Carrito, c: Carrito)
    requires IsSubseq(r, c) && UniqueIds(c)
    ensures UniqueIds(r)
    decreases |c|
  {
    if r != [] && c != [] {
      if r[0] == c[0] && IsSubseq(r[1..], c[1..]) {
        SubseqKeepsUnique(r[1..], c[1..]);
        SubseqMembers(r[1..], c[1..]);
        forall j | 0 < j < |r| ensures r[0].producto.id != r[j].producto.id {
          assert r[1..][j - 1] in c[1..];
        }
        forall i, j | 0 <= i < j < |r| ensures r[i].producto.id != r[j].producto.id {
          if i > 0 { assert r[1..][i - 1] == r[i] && r[1..][j - 1] == r[j]; }
        }
      } else {
        SubseqKeepsUnique(r, c[1..]);
      }
    }
  }

  lemma SubseqMembers<T>(r: seq<T>, c: seq<T>)
    requires IsSubseq(r, c)
    ensures forall i :: 0 <= i < |r| ==> r[i] in c
    decreases |c|
  {
    if r != [] && c != [] {
      if r[0] == c[0] && IsSubseq(r[1..], c[1..]) {
        SubseqMembers(r[1..], c[1..]);
        forall i | 0 < i < |r| ensures r[i] in c { assert r[1..][i - 1] == r[i]; }
      } else {
        SubseqMembers(r, c[1..]);
      }
    }
  }

  // ---------------------------------------------------------------------
  // Checkout
  // ---------------------------------------------------------------------

  datatype DetallePayload = DetallePayload(medicamento: int, cantidad: int, subtotal: int)

  datatype PedidoPayload = PedidoPayload(cliente: Option<int>, total: int, detalles: seq<DetallePayload>)

  function DetalleDe(e: Item): DetallePayload
  {
    DetallePayload(e.producto.id, e.cantidad, e.producto.precioVenta * e.cantidad)
  }

  function Detalles(c: Carrito): (r: seq<DetallePayload>)
    ensures |r| == |c| && forall i :: 0 <= i < |c| ==> r[i] == DetalleDe(c[i])
  {
    if c == [] then [] else [DetalleDe(c[0])] + Detalles(c[1..])
  }

  function Subtotal(d: DetallePayload): int { d.subtotal }

  /** What `enviarPedido` does: `posted` is the payload sent (if any) and
      `carrito` the cart afterwards; `postOk` is the outcome of the request. */
  datatype Envio = Envio(posted: Option<PedidoPayload>, carrito: Carrito)

  function EnviarPedido(c: Carrito, token: bool, clienteId: Option<int>, postOk: bool): (r: Envio)
    ensures !token || c == [] ==> r == Envio(None, c)
    ensures token && c != [] ==> r.posted.Some? && r.carrito == (if postOk then [] else c)
    ensures r.posted.Some? ==>
      var p := r.posted.value;
      p.cliente == clienteId && |p.detalles| == |c|
      && (forall i :: 0 <= i < |c| ==>
            (p.detalles[i].medicamento == c[i].producto.id
             && p.detalles[i].cantidad == c[i].cantidad
             && p.detalles[i].subtotal == c[i].producto.precioVenta * c[i].cantidad))
      && p.total == SumOf(p.detalles, Subtotal)
  {
    if !token || c == [] then Envio(None, c)
    else
      var detalles := Detalles(c);
      var payload := PedidoPayload(clienteId, SumOf(detalles, Subtotal), detalles);
      Envio(Some(payload), if postOk then [] else c)
  }

  /** The total posted is the total the cart panel shows. */
  lemma EnviarPedidoTotal(c: Carrito, token: bool, clienteId: Option<int>, postOk: bool)
    requires token && c != []
    ensures EnviarPedido(c, token, clienteId, postOk).posted.value.total == EstadisticasCarrito(c).total
  {
    var d := Detalles(c);
    SumOfCongruent(d, Subtotal, c, LineTotal);
  }

  // ---------------------------------------------------------------------
  // Active-filter badge and page buttons
  // ---------------------------------------------------------------------

  datatype FiltroActivo = PrecioMin | PrecioMax | Disponible | Valoracion | Categoria

  /** The filters the badge counts as active, in the order of the form. */
  function FiltrosActivos(precioMin: string, precioMax: string, disponibleOnly: bool,
                          valoracionMin: int, categoria: Option<int>): seq<FiltroActivo>
  {
    (if precioMin != "" then [PrecioMin] else [])
    + (if precioMax != "" then [PrecioMax] else [])
    + (if disponibleOnly then [Disponible] else [])
    + (if valoracionMin > 0 then [Valoracion] else [])
    + (if categoria.Some? && categoria.value != 0 then [Categoria] else [])
  }

  /** The effect at home.jsx:40-48: one increment per truthy filter; the
      badge shows how many filters are active, and zero exactly when none is. */
  method ContarFiltrosActivos(precioMin: string, precioMax: string, disponibleOnly: bool,
                              valoracionMin: int, categoria: Option<int>) returns (activos: nat)
    ensures activos == |FiltrosActivos(precioMin, precioMax, disponibleOnly, valoracionMin, categoria)|
    ensures activos <= 5
    ensures activos == 0 <==> precioMin == "" && precioMax == "" && !disponibleOnly
                              && valoracionMin <= 0 && (categoria.None? || categoria.value == 0)
  {
    activos := 0;
    if precioMin != "" { activos := activos + 1; }
    if precioMax != "" { activos := activos + 1; }
    if disponibleOnly { activos := activos + 1; }
    if valoracionMin > 0 { activos := activos + 1; }
    if categoria.Some? && categoria.value != 0 { activos := activos + 1; }
  }

  /** Number of pages of the server-paginated catalogue. */
  function PageCount(totalCount: nat, pageSize: nat): nat
    requires pageSize > 0
  {
    CeilDiv(totalCount, pageSize)
  }

  /** A page button is drawn for the first page, the last page and the
      neighbours of the current page. */
  predicate ShowPage(pageNum: int, page: int, last: int)
  {
    pageNum == 1 || pageNum == last || (page - 1 <= pageNum <= page + 1)
  }

  function ShownPages(page: int, last: nat): set<int>
  {
    set n | 1 <= n <= last && ShowPage(n, page, last)
  }

  /** At most five buttons are drawn; the first, the last and (when in
      range) the current page are among them. */
  lemma ShownPagesBounded(page: int, last: nat)
    ensures ShownPages(page, last) <= {1, last, page - 1, page, page + 1}
    ensures |ShownPages(page, last)| <= 5
    ensures last >= 1 ==> 1 in ShownPages(page, last) && last in ShownPages(page, last)
    ensures 1 <= page <= last ==> page in ShownPages(page, last)
  {
    var five := {1, last, page - 1, page, page + 1};
    assert ShownPages(page, last) <= five;
    CardSubset(ShownPages(page, last), five);
    CardAtMostFive(1, last, page - 1, page, page + 1);
  }

  lemma CardSubset<T>(a: set<T>, b: set<T>)
    requires a <= b
    ensures |a| <= |b|
  {
    assert b == a + (b - a);
  }

  lemma CardAtMostFive(a: int, b: int, c: int, d: int, e: int)
    ensures |{a, b, c, d, e}| <= 5
  {
    assert {a, b, c, d, e} == {a} + {b} + {c} + {d} + {e};
  }

  /** "Previous" never goes below page 1; "Next" is disabled from the last
      page on. */
  predicate NextDisabled(page: int, totalCount: nat, pageSize: nat)
    requires pageSize > 0
  {
    page >= PageCount(totalCount, pageSize)
  }

  lemma NavigationBounds(page: int, totalCount: nat, pageSize: nat)
    requires pageSize > 0 && 1 <= page
    ensures Prev(page) >= 1
    ensures !NextDisabled(page, totalCount, pageSize) ==> page + 1 <= PageCount(totalCount, pageSize)
  {
  }
}
