/** The employees' order panel: the fetched orders are narrowed by a search
    on the client's name or the order number and by status, counted, and
    cut to the current page. */
module PanelPedidos {
  import opened Seqs
  import opened Text
  import opened Paging

  /** The `cliente` field as the API may send it: a string, an object with
      a `username` (empty when missing), or anything else (null, an id). */
  datatype ClienteCampo = ClienteTexto(s: string) | ClienteObjeto(username: string) | ClienteOtro

  datatype PedidoFila = PedidoFila(id: nat, cliente: ClienteCampo, estado: string)

  /** `obtenerNombreCliente`. */
  function ObtenerNombreCliente(p: PedidoFila): (r: string)
    ensures p.cliente.ClienteTexto? ==> r == p.cliente.s
    ensures p.cliente.ClienteObjeto? && p.cliente.username != "" ==> r == p.cliente.username
    ensures !p.cliente.ClienteTexto? && !(p.cliente.ClienteObjeto? && p.cliente.username != "") ==> r == "Cliente"
  {
    match p.cliente
    case ClienteTexto(s) => s
    case ClienteObjeto(u) => if u != "" then u else "Cliente"
    case ClienteOtro => "Cliente"
  }

  /** The name shown is never empty unless the API sent an empty string. */
  lemma NombreNoVacio(p: PedidoFila)
    ensures ObtenerNombreCliente(p) == "" <==> p.cliente == ClienteTexto("")
  {
  }

  /** The search box: the client's name contains the text ignoring case, or
      the order number's decimal digits contain it as typed. */
  predicate CoincideBusqueda(p: PedidoFila, busqueda: string)
  {
    ContainsCI(ObtenerNombreCliente(p), busqueda) || Contains(NatToString(p.id), busqueda)
  }

  function PorBusqueda(busqueda: string): PedidoFila -> bool { (p: PedidoFila) => CoincideBusqueda(p, busqueda) }

  function PorEstado(estado: string): PedidoFila -> bool { (p: PedidoFila) => p.estado == estado }

  /** `if (busqueda) ...filter(...)` then `if (estadoFiltro) ...filter(p.estado === estadoFiltro)`. */
  function FiltrarPedidos(all: seq<PedidoFila>, busqueda: string, estado: string): seq<PedidoFila>
  {
    FiltrarSi(FiltrarSi(all, busqueda != "", PorBusqueda(busqueda)), estado != "", PorEstado(estado))
  }

  predicate CumplePedido(p: PedidoFila, busqueda: string, estado: string)
  {
    (busqueda != "" ==> CoincideBusqueda(p, busqueda)) && (estado != "" ==> p.estado == estado)
  }

  function EnPedido(busqueda: string, estado: string): PedidoFila -> bool { (p: PedidoFila) => CumplePedido(p, busqueda, estado) }

  /** The two filters in a row are one filter by both conditions: the
      orders that pass, each as often as in the list, in list order. */
  lemma FiltrarPedidosExacto(all: seq<PedidoFila>, busqueda: string, estado: string)
    ensures FiltrarPedidos(all, busqueda, estado) == Filter(all, EnPedido(busqueda, estado))
    ensures forall p :: p in FiltrarPedidos(all, busqueda, estado) <==> p in all && CumplePedido(p, busqueda, estado)
  {
    var c1 := (p: PedidoFila) => busqueda != "" ==> CoincideBusqueda(p, busqueda);
    FiltrarSiEs(all, busqueda != "", PorBusqueda(busqueda), c1);
    FiltrarSiPaso(all, FiltrarSi(all, busqueda != "", PorBusqueda(busqueda)), c1, estado != "", PorEstado(estado),
      EnPedido(busqueda, estado));
    FilterMembers(all, EnPedido(busqueda, estado));
  }

  lemma ContainsSelf(s: string)
    ensures Contains(s, s)
  {
    assert s[..|s|] == s;
  }

  /** Typing an order's number finds that order whatever its client. */
  lemma BuscarPorNumero(all: seq<PedidoFila>, p: PedidoFila, estado: string)
    requires p in all && (estado != "" ==> p.estado == estado)
    ensures p in FiltrarPedidos(all, NatToString(p.id), estado)
  {
    ContainsSelf(NatToString(p.id));
    FiltrarPedidosExacto(all, NatToString(p.id), estado);
  }

  /** What `cargarPedidos` stores: the current page and the filtered count. */
  datatype Vista = Vista(pedidos: seq<PedidoFila>, totalCount: nat)

  function CargarPedidos(all: seq<PedidoFila>, busqueda: string, estado: string, page: nat, pageSize: nat): Vista
    requires page >= 1
  {
    var lista := FiltrarPedidos(all, busqueda, estado);
    Vista(PageSlice(lista, page, pageSize), |lista|)
  }

  /** The page holds at most `pageSize` orders, all from the list and all
      passing the filters, in their filtered order starting at position
      `(page - 1) * pageSize`; `totalCount` counts the filtered list. */
  lemma CargarPedidosExacto(all: seq<PedidoFila>, busqueda: string, estado: string, page: nat, pageSize: nat)
    requires page >= 1
    ensures var v := CargarPedidos(all, busqueda, estado, page, pageSize);
      |v.pedidos| <= pageSize && v.totalCount <= |all|
      && (forall p :: p in v.pedidos ==> p in all && CumplePedido(p, busqueda, estado))
    ensures var v := CargarPedidos(all, busqueda, estado, page, pageSize);
      forall i :: 0 <= i < |v.pedidos| ==>
        (page - 1) * pageSize + i < v.totalCount
        && v.pedidos[i] == FiltrarPedidos(all, busqueda, estado)[(page - 1) * pageSize + i]
  {
    var lista := FiltrarPedidos(all, busqueda, estado);
    FiltrarPedidosExacto(all, busqueda, estado);
    var v := CargarPedidos(all, busqueda, estado, page, pageSize);
    forall p | p in v.pedidos ensures p in lista {
      var i :| 0 <= i < |v.pedidos| && v.pedidos[i] == p;
    }
  }

  /** The filter state of the panel. */
  datatype Filtros = Filtros(busqueda: string, estadoFiltro: string, page: nat)

  function CambiarBusqueda(f: Filtros, busqueda: string): (r: Filtros)
    ensures r.page == 1 && r.busqueda == busqueda && r.estadoFiltro == f.estadoFiltro
  {
    f.(busqueda := busqueda, page := 1)
  }

  function CambiarEstado(f: Filtros, estado: string): (r: Filtros)
    ensures r.page == 1 && r.estadoFiltro == estado && r.busqueda == f.busqueda
  {
    f.(estadoFiltro := estado, page := 1)
  }

  /** After either change the panel shows the first `pageSize` matching
      orders. */
  lemma CambioMuestraPrimeraPagina(all: seq<PedidoFila>, f: Filtros, busqueda: string, estado: string, pageSize: nat)
    ensures var g := CambiarBusqueda(f, busqueda);
      var lista := FiltrarPedidos(all, g.busqueda, g.estadoFiltro);
      CargarPedidos(all, g.busqueda, g.estadoFiltro, g.page, pageSize).pedidos
        == if pageSize <= |lista| then lista[..pageSize] else lista
    ensures var g := CambiarEstado(f, estado);
      var lista := FiltrarPedidos(all, g.busqueda, g.estadoFiltro);
      CargarPedidos(all, g.busqueda, g.estadoFiltro, g.page, pageSize).pedidos
        == if pageSize <= |lista| then lista[..pageSize] else lista
  {
    FirstPage(FiltrarPedidos(all, busqueda, f.estadoFiltro), pageSize);
    FirstPage(FiltrarPedidos(all, f.busqueda, estado), pageSize);
  }

  /** `page === 1`. */
  predicate AnteriorDeshabilitado(page: nat)
  {
    page == 1
  }

  /** `totalCount ? page * pageSize >= totalCount : false`: with nothing
      matching the button counts as enabled, but the panel then shows its
      empty-list message instead of the table and its controls. */
  predicate SiguienteDeshabilitado(page: nat, pageSize: nat, totalCount: nat)
  {
    if totalCount != 0 then page * pageSize >= totalCount else false
  }

  /** With a non-empty filtered list, "next" is disabled exactly from the
      last page `ceil(totalCount / pageSize)` on (the rule of the user page),
      and when enabled it leads to a page that is not empty; "previous" when
      enabled goes one page back. */
  lemma ControlesPedidos(all: seq<PedidoFila>, busqueda: string, estado: string, page: nat, pageSize: nat)
    requires page >= 1 && pageSize > 0
    ensures var n := CargarPedidos(all, busqueda, estado, page, pageSize).totalCount;
      n > 0 ==> (SiguienteDeshabilitado(page, pageSize, n) <==> page >= CeilDiv(n, pageSize))
    ensures var n := CargarPedidos(all, busqueda, estado, page, pageSize).totalCount;
      n > 0 && !SiguienteDeshabilitado(page, pageSize, n) ==>
        |CargarPedidos(all, busqueda, estado, page + 1, pageSize).pedidos| >= 1
    ensures !AnteriorDeshabilitado(page) ==> Prev(page) == page - 1 >= 1
  {
    var lista := FiltrarPedidos(all, busqueda, estado);
    DisabledRulesAgree(page, |lista|, pageSize);
    if page * pageSize < |lista| {
      NextPageNonEmpty(lista, page, pageSize);
    }
  }
}
