/** The user administration page: the fetched user list is narrowed by the
    search box and the role selector, counted, and cut to the current page;
    changing a filter returns to page 1; a new user is refused when its
    username is already on the page being shown. */
module UsuariosPagina {
  import opened Seqs
  import opened Text
  import opened Paging

  /** A user row as the API lists it. */
  datatype UsuarioFila = UsuarioFila(id: int, username: string, email: string, nombreCompleto: string, rol: string)

  /** The search box: username, e-mail or full name contains the text,
      ignoring case. */
  predicate CoincideTexto(u: UsuarioFila, search: string)
  {
    ContainsCI(u.username, search) || ContainsCI(u.email, search) || ContainsCI(u.nombreCompleto, search)
  }

  function PorTexto(search: string): UsuarioFila -> bool { (u: UsuarioFila) => CoincideTexto(u, search) }

  function PorRol(rol: string): UsuarioFila -> bool { (u: UsuarioFila) => u.rol == rol }

  /** `if (search) ...filter(...)` then `if (rolFiltro) ...filter(u.rol === rolFiltro)`. */
  function FiltrarUsuarios(all: seq<UsuarioFila>, search: string, rol: string): seq<UsuarioFila>
  {
    FiltrarSi(FiltrarSi(all, search != "", PorTexto(search)), rol != "", PorRol(rol))
  }

  /** Both filters at once. */
  predicate CumpleUsuario(u: UsuarioFila, search: string, rol: string)
  {
    (search != "" ==> CoincideTexto(u, search)) && (rol != "" ==> u.rol == rol)
  }

  function EnUsuario(search: string, rol: string): UsuarioFila -> bool { (u: UsuarioFila) => CumpleUsuario(u, search, rol) }

  /** The two filters in a row are one filter by both conditions: the
      users that pass, each as often as in the list, in list order. */
  lemma FiltrarUsuariosExacto(all: seq<UsuarioFila>, search: string, rol: string)
    ensures FiltrarUsuarios(all, search, rol) == Filter(all, EnUsuario(search, rol))
    ensures forall u :: u in FiltrarUsuarios(all, search, rol) <==> u in all && CumpleUsuario(u, search, rol)
  {
    var c1 := (u: UsuarioFila) => search != "" ==> CoincideTexto(u, search);
    FiltrarSiEs(all, search != "", PorTexto(search), c1);
    FiltrarSiPaso(all, FiltrarSi(all, search != "", PorTexto(search)), c1, rol != "", PorRol(rol), EnUsuario(search, rol));
    FilterMembers(all, EnUsuario(search, rol));
  }

  /** What `fetchUsers` stores: the filtered count and the current page. */
  datatype Vista = Vista(totalCount: nat, usuarios: seq<UsuarioFila>)

  function FetchUsers(all: seq<UsuarioFila>, search: string, rol: string, page: nat, pageSize: nat): Vista
    requires page >= 1
  {
    var filtrados := FiltrarUsuarios(all, search, rol);
    Vista(|filtrados|, PageSlice(filtrados, page, pageSize))
  }

  /** The page shows at most `pageSize` users, each of them a user of the
      list passing both filters, and `totalCount` counts the filtered list
      before it is cut, so every user that passes the filters is shown on
      exactly the page its position gives, within `ceil(totalCount / pageSize)`. */
  lemma FetchUsersExacto(all: seq<UsuarioFila>, search: string, rol: string, page: nat, pageSize: nat)
    requires page >= 1
    ensures var v := FetchUsers(all, search, rol, page, pageSize);
      |v.usuarios| <= pageSize && v.totalCount <= |all|
      && (forall u :: u in v.usuarios ==> u in all && CumpleUsuario(u, search, rol))
    ensures pageSize > 0 ==> forall k :: 0 <= k < FetchUsers(all, search, rol, page, pageSize).totalCount ==>
      1 <= k / pageSize + 1 <= CeilDiv(FetchUsers(all, search, rol, page, pageSize).totalCount, pageSize)
      && FiltrarUsuarios(all, search, rol)[k] in FetchUsers(all, search, rol, k / pageSize + 1, pageSize).usuarios
  {
    var filtrados := FiltrarUsuarios(all, search, rol);
    FiltrarUsuariosExacto(all, search, rol);
    assert FiltrarSi(all, search != "", PorTexto(search)) == (if search != "" then Filter(all, PorTexto(search)) else all);
    var v := FetchUsers(all, search, rol, page, pageSize);
    forall u | u in v.usuarios ensures u in filtrados {
      var i :| 0 <= i < |v.usuarios| && v.usuarios[i] == u;
    }
    if pageSize > 0 {
      forall k | 0 <= k < |filtrados|
        ensures 1 <= k / pageSize + 1 <= CeilDiv(|filtrados|, pageSize)
        ensures filtrados[k] in FetchUsers(all, search, rol, k / pageSize + 1, pageSize).usuarios
      {
        ItemOnItsPage(filtrados, pageSize, k);
      }
    }
  }

  /** The filter state of the page. */
  datatype Filtros = Filtros(search: string, rolFiltro: string, page: nat)

  /** Typing in the search box: the new text, and back to page 1. */
  function CambiarBusqueda(f: Filtros, search: string): (r: Filtros)
    ensures r.page == 1 && r.search == search && r.rolFiltro == f.rolFiltro
  {
    f.(search := search, page := 1)
  }

  /** Choosing a role: the new role, and back to page 1. */
  function CambiarRol(f: Filtros, rol: string): (r: Filtros)
    ensures r.page == 1 && r.rolFiltro == rol && r.search == f.search
  {
    f.(rolFiltro := rol, page := 1)
  }

  /** After either change the page shows the first `pageSize` users that pass
      the new filters (all of them when there are fewer). */
  lemma CambioMuestraPrimeraPagina(all: seq<UsuarioFila>, f: Filtros, search: string, rol: string, pageSize: nat)
    ensures var g := CambiarBusqueda(f, search);
      var filtrados := FiltrarUsuarios(all, g.search, g.rolFiltro);
      FetchUsers(all, g.search, g.rolFiltro, g.page, pageSize).usuarios
        == if pageSize <= |filtrados| then filtrados[..pageSize] else filtrados
    ensures var g := CambiarRol(f, rol);
      var filtrados := FiltrarUsuarios(all, g.search, g.rolFiltro);
      FetchUsers(all, g.search, g.rolFiltro, g.page, pageSize).usuarios
        == if pageSize <= |filtrados| then filtrados[..pageSize] else filtrados
  {
    FirstPage(FiltrarUsuarios(all, search, f.rolFiltro), pageSize);
    FirstPage(FiltrarUsuarios(all, f.search, rol), pageSize);
  }

  /** `usernameExists && !editing`: the duplicate check looks only at the
      users of the page being shown. */
  predicate BloqueaAlta(usuarios: seq<UsuarioFila>, username: string, editing: bool)
  {
    !editing && exists i :: 0 <= i < |usuarios| && usuarios[i].username == username
  }

  /** The check refuses a new user exactly when a user with that name is on
      the current page; a name held by a user on another page, or hidden by
      the filters, gets through to the server. */
  lemma BloqueaAltaSoloPagina(all: seq<UsuarioFila>, search: string, rol: string, page: nat, pageSize: nat, username: string)
    requires page >= 1
    ensures var v := FetchUsers(all, search, rol, page, pageSize);
      BloqueaAlta(v.usuarios, username, false) <==> exists u :: u in v.usuarios && u.username == username
    ensures var v := FetchUsers(all, search, rol, page, pageSize);
      BloqueaAlta(v.usuarios, username, false) ==> exists u :: u in all && u.username == username
    ensures !BloqueaAlta(FetchUsers(all, search, rol, page, pageSize).usuarios, username, true)
  {
    var v := FetchUsers(all, search, rol, page, pageSize);
    FetchUsersExacto(all, search, rol, page, pageSize);
    if BloqueaAlta(v.usuarios, username, false) {
      var i :| 0 <= i < |v.usuarios| && v.usuarios[i].username == username;
      assert v.usuarios[i] in v.usuarios;
    }
  }

  /** A two-user list shown one per page: on page 1 the second user's name
      is not refused. */
  lemma DuplicadoEnOtraPagina()
    ensures var all := [UsuarioFila(1, "ana", "a@x.co", "Ana", "cliente"), UsuarioFila(2, "beto", "b@x.co", "Beto", "cliente")];
      (exists u :: u in all && u.username == "beto")
      && !BloqueaAlta(FetchUsers(all, "", "", 1, 1).usuarios, "beto", false)
  {
    var all := [UsuarioFila(1, "ana", "a@x.co", "Ana", "cliente"), UsuarioFila(2, "beto", "b@x.co", "Beto", "cliente")];
    assert all[1] in all;
    var v := FetchUsers(all, "", "", 1, 1);
    assert v.usuarios == [all[0]];
  }

  /** The controls are drawn only when there is more than one page. */
  predicate MostrarControles(totalCount: nat, pageSize: nat)
  {
    totalCount > pageSize
  }

  predicate SiguienteDeshabilitado(page: nat, totalCount: nat, pageSize: nat)
    requires pageSize > 0
  {
    page >= CeilDiv(totalCount, pageSize)
  }

  predicate AnteriorDeshabilitado(page: nat)
  {
    page == 1
  }

  /** Without controls everything is on page 1. With them, an enabled
      "previous" goes one page back and stays at or above 1, and an enabled
      "next" leads to a page that is not empty. */
  lemma ControlesUsuarios(all: seq<UsuarioFila>, search: string, rol: string, page: nat, pageSize: nat)
    requires page >= 1 && pageSize > 0
    ensures var v := FetchUsers(all, search, rol, 1, pageSize);
      !MostrarControles(v.totalCount, pageSize) ==> v.usuarios == FiltrarUsuarios(all, search, rol)
    ensures !AnteriorDeshabilitado(page) ==> Prev(page) == page - 1 >= 1
    ensures var n := FetchUsers(all, search, rol, page, pageSize).totalCount;
      !SiguienteDeshabilitado(page, n, pageSize) ==> |FetchUsers(all, search, rol, page + 1, pageSize).usuarios| >= 1
  {
    var filtrados := FiltrarUsuarios(all, search, rol);
    FirstPage(filtrados, pageSize);
    DisabledRulesAgree(page, |filtrados|, pageSize);
    if page * pageSize < |filtrados| {
      NextPageNonEmpty(filtrados, page, pageSize);
    }
  }
}
