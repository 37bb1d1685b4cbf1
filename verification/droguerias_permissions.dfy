/** Branch endpoints: any authenticated user may reach them; changing a
    branch is reserved to its owner, role `admin` and superusers. */
module DrogueriasPermissions {
  import opened Seqs
  import opened Usuarios

  /** `IsOwnerOrAdmin.has_permission`. */
  function HasPermission(user: Option<Usuario>): (r: bool)
    ensures r <==> user.Some? && user.value.autenticado
  {
    user.Some? && user.value.autenticado
  }

  /** DRF's `SAFE_METHODS`. */
  predicate MetodoSeguro(metodo: string)
  {
    metodo in {"GET", "HEAD", "OPTIONS"}
  }

  /** `IsOwnerOrAdmin.has_object_permission` for a branch owned by
      `propietario`. */
  function HasObjectPermission(user: Usuario, metodo: string, propietario: Option<nat>): (r: bool)
    ensures MetodoSeguro(metodo) ==> r
    ensures !MetodoSeguro(metodo) ==>
      (r <==> RolAdmin(user) || user.isSuperuser || EsPropietario(propietario, user))
  {
    if MetodoSeguro(metodo) then true
    else if RolAdmin(user) then true
    else if user.isSuperuser then true
    else EsPropietario(propietario, user)
  }

  /** An unsafe request by someone who is neither admin, superuser nor owner
      is refused, whatever the branch; a branch without owner can only be
      changed by an admin or a superuser. */
  lemma SoloPropietarioOAdmin(user: Usuario, metodo: string, propietario: Option<nat>)
    requires !MetodoSeguro(metodo)
    ensures propietario.None? ==> (HasObjectPermission(user, metodo, propietario) <==> RolAdmin(user) || user.isSuperuser)
    ensures !RolAdmin(user) && !user.isSuperuser && user.id != propietario ==> !HasObjectPermission(user, metodo, propietario)
  {
  }
}
