/** The admin's contact-message page. The fetch narrows the messages by a
    search on name, message text or e-mail and by read state, counts them
    and keeps the current page; the render then filters that page again by
    name, e-mail or subject. The two searches use different fields. */
module MensajesPagina {
  import opened Seqs
  import opened Text
  import opened Paging

  datatype Mensaje = Mensaje(id: int, nombre: string, correo: string, asunto: string, mensaje: string, leido: bool)

  /** The fetch-time search: name, message text or e-mail. */
  predicate CoincideAlCargar(m: Mensaje, busqueda: string)
  {
    ContainsCI(m.nombre, busqueda) || ContainsCI(m.mensaje, busqueda) || ContainsCI(m.correo, busqueda)
  }

  /** `m.leido === (filtroLeido === "leido")`: "leido" keeps read messages,
      any other non-empty value keeps unread ones. */
  predicate CoincideLectura(m: Mensaje, filtroLeido: string)
  {
    m.leido == (filtroLeido == "leido")
  }

  /** The render-time search: name, e-mail or subject. */
  predicate CoincideAlMostrar(m: Mensaje, busqueda: string)
  {
    ContainsCI(m.nombre, busqueda) || ContainsCI(m.correo, busqueda) || ContainsCI(m.asunto, busqueda)
  }

  function AlCargar(busqueda: string): Mensaje -> bool { (m: Mensaje) => CoincideAlCargar(m, busqueda) }

  function Lectura(filtroLeido: string): Mensaje -> bool { (m: Mensaje) => CoincideLectura(m, filtroLeido) }

  function AlMostrar(busqueda: string): Mensaje -> bool { (m: Mensaje) => CoincideAlMostrar(m, busqueda) }

  /** `if (busqueda) ...` then `if (filtroLeido !== "") ...`. */
  function FiltrarMensajes(all: seq<Mensaje>, busqueda: string, filtroLeido: string): seq<Mensaje>
  {
    FiltrarSi(FiltrarSi(all, busqueda != "", AlCargar(busqueda)), filtroLeido != "", Lectura(filtroLeido))
  }

  predicate CumpleFetch(m: Mensaje, busqueda: string, filtroLeido: string)
  {
    (busqueda != "" ==> CoincideAlCargar(m, busqueda)) && (filtroLeido != "" ==> CoincideLectura(m, filtroLeido))
  }

  function EnFetch(busqueda: string, filtroLeido: string): Mensaje -> bool { (m: Mensaje) => CumpleFetch(m, busqueda, filtroLeido) }

  /** The fetch's two filters are one filter by both conditions: the
      messages that pass, each as often as in the list, in list order;
      `""` keeps every read state. */
  lemma FiltrarMensajesExacto(all: seq<Mensaje>, busqueda: string, filtroLeido: string)
    ensures FiltrarMensajes(all, busqueda, filtroLeido) == Filter(all, EnFetch(busqueda, filtroLeido))
    ensures forall m :: m in FiltrarMensajes(all, busqueda, filtroLeido) <==> m in all && CumpleFetch(m, busqueda, filtroLeido)
    ensures FiltrarMensajes(all, "", "") == all
  {
    var c1 := (m: Mensaje) => busqueda != "" ==> CoincideAlCargar(m, busqueda);
    FiltrarSiEs(all, busqueda != "", AlCargar(busqueda), c1);
    FiltrarSiPaso(all, FiltrarSi(all, busqueda != "", AlCargar(busqueda)), c1, filtroLeido != "", Lectura(filtroLeido),
      EnFetch(busqueda, filtroLeido));
    FilterMembers(all, EnFetch(busqueda, filtroLeido));
  }

  /** What `obtenerMensajes` stores: the filtered count and the page. */
  datatype Vista = Vista(totalCount: nat, mensajes: seq<Mensaje>)

  function ObtenerMensajes(all: seq<Mensaje>, busqueda: string, filtroLeido: string, page: nat, pageSize: nat): Vista
    requires page >= 1
  {
    var filtrados := FiltrarMensajes(all, busqueda, filtroLeido);
    Vista(|filtrados|, PageSlice(filtrados, page, pageSize))
  }

  /** `mensajesFiltrados`, the list actually drawn. The filter runs even for
      an empty search, which every message matches. */
  function MensajesFiltrados(mensajes: seq<Mensaje>, busqueda: string): seq<Mensaje>
  {
    Filter(mensajes, AlMostrar(busqueda))
  }

  /** A message is drawn exactly when it is on the fetched page, passes the
      read-state filter, and its fields match the text in one of the ways
      both searches allow: by name or e-mail, or by message text and subject
      together. The drawn list never exceeds a page. */
  lemma MostradosExacto(all: seq<Mensaje>, busqueda: string, filtroLeido: string, page: nat, pageSize: nat)
    requires page >= 1
    ensures var v := ObtenerMensajes(all, busqueda, filtroLeido, page, pageSize);
      |MensajesFiltrados(v.mensajes, busqueda)| <= pageSize
    ensures var v := ObtenerMensajes(all, busqueda, filtroLeido, page, pageSize);
      forall m :: m in MensajesFiltrados(v.mensajes, busqueda) <==>
        m in v.mensajes && CoincideAlMostrar(m, busqueda)
    ensures var v := ObtenerMensajes(all, busqueda, filtroLeido, page, pageSize);
      forall m :: m in MensajesFiltrados(v.mensajes, busqueda) ==>
        m in all && (filtroLeido != "" ==> CoincideLectura(m, filtroLeido))
        && (busqueda != "" ==> (ContainsCI(m.nombre, busqueda) || ContainsCI(m.correo, busqueda)
                                || (ContainsCI(m.mensaje, busqueda) && ContainsCI(m.asunto, busqueda))))
  {
    var v := ObtenerMensajes(all, busqueda, filtroLeido, page, pageSize);
    var filtrados := FiltrarMensajes(all, busqueda, filtroLeido);
    FiltrarMensajesExacto(all, busqueda, filtroLeido);
    FilterMembers(v.mensajes, AlMostrar(busqueda));
    forall m | m in v.mensajes ensures m in filtrados {
      var i :| 0 <= i < |v.mensajes| && v.mensajes[i] == m;
    }
  }

  /** A message that matches the search only in its text is kept by the
      fetch, counted in `totalCount`, and then hidden by the render. */
  lemma SoloTextoOculto(m: Mensaje, busqueda: string)
    requires busqueda != ""
    requires ContainsCI(m.mensaje, busqueda)
    requires !ContainsCI(m.nombre, busqueda) && !ContainsCI(m.correo, busqueda) && !ContainsCI(m.asunto, busqueda)
    ensures ObtenerMensajes([m], busqueda, "", 1, 1) == Vista(1, [m])
    ensures MensajesFiltrados([m], busqueda) == []
  {
    FiltrarMensajesExacto([m], busqueda, "");
    var f := FiltrarMensajes([m], busqueda, "");
    assert m in f;
    assert f == [m];
    FirstPage(f, 1);
    assert [m][1..] == [];
  }

  /** With an empty search the render shows the whole fetched page. */
  lemma BusquedaVaciaMuestraPagina(mensajes: seq<Mensaje>)
    ensures MensajesFiltrados(mensajes, "") == mensajes
  {
    forall i | 0 <= i < |mensajes| ensures AlMostrar("")(mensajes[i]) {
      ContainsEmpty(Lower(mensajes[i].nombre));
    }
    FilterAll(mensajes, AlMostrar(""));
  }
}
