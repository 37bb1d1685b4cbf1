/** The request's user as the permission checks read it. The user model
    itself is not part of this model; only the attributes the checks read
    are kept. */
module Usuarios {
  import opened Seqs

  /** `id` is `None` for the anonymous user; `rol` is `None` when the user
      object has no `rol` attribute (the anonymous user has none). */
  datatype Usuario = Usuario(
    id: Option<nat>,
    autenticado: bool,
    isStaff: bool,
    isSuperuser: bool,
    rol: Option<string>)

  /** Django's `AnonymousUser`: a user object that is present but not
      authenticated, staff or superuser, and has no role. */
  function Anonimo(): (u: Usuario)
    ensures !u.autenticado && !u.isStaff && !u.isSuperuser && u.rol.None? && u.id.None?
  {
    Usuario(None, false, false, false, None)
  }

  /** `hasattr(user, 'rol') and user.rol == 'admin'`. */
  predicate RolAdmin(u: Usuario)
  {
    u.rol == Some("admin")
  }

  /** `obj.propietario == request.user`: model instances compare by primary
      key, and a missing owner never equals a user. */
  predicate EsPropietario(propietario: Option<nat>, u: Usuario)
  {
    propietario.Some? && u.id == propietario
  }
}
