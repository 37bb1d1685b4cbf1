/** Who may use the inventory endpoints: employees, administrators and
    staff, once authenticated. */
module InventarioPermissions {
  import opened Seqs
  import opened Usuarios

  /** `EsEmpleadoOPermisoAdmin.has_permission`. `user` is `None` when the
      request carries no user. */
  function EsEmpleadoOPermisoAdmin(user: Option<Usuario>): (r: bool)
    ensures user.None? ==> !r
    ensures user.Some? && !user.value.autenticado ==> !r
    ensures user.Some? && user.value.autenticado && user.value.isStaff ==> r
    ensures user.Some? && user.value.autenticado && !user.value.isStaff ==>
      (r <==> user.value.rol == Some("empleado") || user.value.rol == Some("admin"))
  {
    if user.None? then false
    else if !user.value.autenticado then false
    else user.value.isStaff || user.value.rol in {Some("empleado"), Some("admin")}
  }

  /** A customer account is never let in unless it is staff, and the
      anonymous user never is. */
  lemma ClienteYAnonimoDenegados(u: Usuario)
    requires u.rol == Some("cliente") && !u.isStaff
    ensures !EsEmpleadoOPermisoAdmin(Some(u))
    ensures !EsEmpleadoOPermisoAdmin(Some(Anonimo()))
  {
  }
}
