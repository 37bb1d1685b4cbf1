/** The navigation bar: hidden on the login and registration routes, a
    cart badge with the number of units, the profile link chosen by role,
    and the messages link for admins. The stored user's `rol` may be
    missing, which is `None` here. */
module Navbar {
  import opened Seqs
  import opened Text
  import opened Home
  import opened Login

  /** The routes on which the bar renders nothing. */
  const OCULTAR_EN: seq<string> := ["/login", "/registro"]

  /** The bar is drawn exactly off the login and registration routes. */
  function SeMuestra(pathname: string): (r: bool)
    ensures !r <==> pathname == "/login" || pathname == "/registro"
  {
    !(pathname in OCULTAR_EN)
  }

  /** `carrito.reduce((total, item) => total + item.cantidad, 0)`. */
  function TotalItems(carrito: Carrito): int
  {
    SumOf(carrito, Units)
  }

  /** `totalItems > 0`. */
  predicate MostrarContador(carrito: Carrito)
  {
    TotalItems(carrito) > 0
  }

  lemma {:induction false} UnidadesAlMenosEntradas(c: Carrito)
    requires WithinStock(c)
    ensures SumOf(c, Units) >= |c|
  {
    if c != [] {
      UnidadesAlMenosEntradas(c[..|c| - 1]);
    }
  }

  /** The badge counts the same units as the cart statistics on the
      storefront; for a cart the storefront keeps valid (every quantity at
      least 1) it counts at least one unit per entry, so the badge appears
      exactly when the cart is not empty. */
  lemma ContadorDelCarrito(c: Carrito)
    requires Valid(c)
    ensures TotalItems(c) == EstadisticasCarrito(c).items
    ensures TotalItems(c) >= |c|
    ensures MostrarContador(c) <==> c != []
  {
    UnidadesAlMenosEntradas(c);
    if c == [] {
      assert TotalItems(c) == 0;
    }
  }

  /** `getPerfilPath`: `empleado` to the employee panel, `admin` to the
      admin panel, any other or a missing role to the client profile. */
  function PerfilPath(rol: Option<string>): (r: string)
    ensures r == "/paneladmin" <==> rol == Some("admin")
    ensures r == "/panelempleado" <==> rol == Some("empleado")
    ensures r in {"/paneladmin", "/panelempleado", "/perfilcliente"}
  {
    match rol
    case Some("empleado") => "/panelempleado"
    case Some("admin") => "/paneladmin"
    case _ => "/perfilcliente"
  }

  /** `usuario.rol === "admin"`. */
  predicate MostrarMensajes(rol: Option<string>)
  {
    rol == Some("admin")
  }

  /** The same path up to case: what the router compares when it matches a
      route without `caseSensitive`. */
  predicate MismaRuta(p: string, q: string)
  {
    |p| == |q| && forall i :: 0 <= i < |p| ==> LowerChar(p[i]) == LowerChar(q[i])
  }

  /** The profile link is written in lower case while the login page
      redirects to `/panelAdmin`, `/panelEmpleado` and `/perfilCliente`:
      the two differ as strings for every role but agree up to case, so
      they lead to the same route. The messages link is shown exactly to
      the users the profile link sends to the admin panel. */
  lemma PerfilComoLogin(rol: string)
    ensures MismaRuta(PerfilPath(Some(rol)), RutaSegunRol(rol))
    ensures PerfilPath(Some(rol)) != RutaSegunRol(rol)
    ensures MostrarMensajes(Some(rol)) <==> PerfilPath(Some(rol)) == "/paneladmin"
  {
    if rol == "admin" {
      assert "/paneladmin"[6] != "/panelAdmin"[6];
    } else if rol == "empleado" {
      assert "/panelempleado"[6] != "/panelEmpleado"[6];
    } else {
      assert "/perfilcliente"[7] != "/perfilCliente"[7];
    }
  }
}
