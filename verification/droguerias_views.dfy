/** The branch endpoints' decisions: who becomes the owner of a new branch,
    which branches `mine` lists, and the outcome of choosing the active
    branch. */
module DrogueriasViews {
  import opened Seqs
  import opened Usuarios

  datatype Drogueria = Drogueria(id: nat, codigo: string, nombre: string, propietario: Option<nat>, activo: bool)

  /** `perform_create`: the owner stored with a new branch. A non-superuser
      who names no owner becomes the owner; otherwise the data is saved as
      given. */
  function PerformCreate(user: Usuario, propietarioDado: Option<nat>): (propietario: Option<nat>)
    ensures !user.isSuperuser && propietarioDado.None? ==> propietario == user.id
    ensures user.isSuperuser || propietarioDado.Some? ==> propietario == propietarioDado
  {
    if !user.isSuperuser && propietarioDado.None? then user.id else propietarioDado
  }

  function PropiedadDe(user: Usuario): Drogueria -> bool
  {
    (d: Drogueria) => EsPropietario(d.propietario, user)
  }

  /** `mine`: every branch for role `admin` or a superuser, otherwise the
      branches the user owns. `todas` is the table as the queryset returns
      it, which the model takes as already in the model's declared order,
      by code and then name. */
  function Mine(user: Usuario, todas: seq<Drogueria>): (r: seq<Drogueria>)
    ensures RolAdmin(user) || user.isSuperuser ==> r == todas
  {
    if RolAdmin(user) || user.isSuperuser then todas else Filter(todas, PropiedadDe(user))
  }

  /** A non-admin sees exactly the branches whose owner is that user, in
      table order, each as many times as the table holds it. */
  lemma MineExacto(user: Usuario, todas: seq<Drogueria>)
    requires !RolAdmin(user) && !user.isSuperuser
    ensures forall d :: d in Mine(user, todas) <==> d in todas && EsPropietario(d.propietario, user)
    ensures IsSubseq(Mine(user, todas), todas)
    ensures forall d :: multiset(Mine(user, todas))[d] == if EsPropietario(d.propietario, user) then multiset(todas)[d] else 0
  {
    FilterMembers(todas, PropiedadDe(user));
    FilterIsSubseq(todas, PropiedadDe(user));
    FilterMultiset(todas, PropiedadDe(user));
  }

  /** `Drogueria.objects.get(pk=id)`. */
  function BuscarDrogueria(todas: seq<Drogueria>, id: int): (r: Option<Drogueria>)
    ensures r.Some? ==> r.value in todas && r.value.id == id
    ensures r.None? ==> forall i :: 0 <= i < |todas| ==> todas[i].id != id
  {
    if todas == [] then None
    else if todas[0].id == id then Some(todas[0])
    else BuscarDrogueria(todas[1..], id)
  }

  /** A user account: the attributes the checks read, and the branch the
      account works in. */
  class Cuenta {
    const usuario: Usuario
    var activeDrogueria: Option<nat>

    constructor (usuario: Usuario, activeDrogueria: Option<nat>)
      ensures this.usuario == usuario && this.activeDrogueria == activeDrogueria
    {
      this.usuario := usuario;
      this.activeDrogueria := activeDrogueria;
    }

    /** `set_active`: 400 without a branch id (a missing or zero id), 404
        for an unknown id, 403 when the user is neither superuser, admin
        nor owner; otherwise the branch becomes the active one and the
        answer is 200. Only a 200 changes the account. */
    method SetActive(drogueriaId: Option<int>, todas: seq<Drogueria>) returns (status: int)
      modifies this
      ensures status in {200, 400, 403, 404}
      ensures status == 400 <==> drogueriaId.None? || drogueriaId.value == 0
      ensures status == 404 <==> drogueriaId.Some? && drogueriaId.value != 0 && BuscarDrogueria(todas, drogueriaId.value).None?
      ensures status == 403 <==> (drogueriaId.Some? && drogueriaId.value != 0 && BuscarDrogueria(todas, drogueriaId.value).Some?
        && !PuedeActivar(usuario, BuscarDrogueria(todas, drogueriaId.value).value))
      ensures status == 200 ==> activeDrogueria == Some(BuscarDrogueria(todas, drogueriaId.value).value.id)
      ensures status != 200 ==> activeDrogueria == old(activeDrogueria)
    {
      if drogueriaId.None? || drogueriaId.value == 0 {
        return 400;
      }
      var d := BuscarDrogueria(todas, drogueriaId.value);
      if d.None? {
        return 404;
      }
      if !PuedeActivar(usuario, d.value) {
        return 403;
      }
      activeDrogueria := Some(d.value.id);
      return 200;
    }
  }

  predicate PuedeActivar(user: Usuario, d: Drogueria)
  {
    user.isSuperuser || RolAdmin(user) || EsPropietario(d.propietario, user)
  }

  /** The branch tests: a plain user who creates a branch without naming an
      owner owns it, and can then make it the active branch. */
  method EscenarioDroguerias() returns (propietario: Option<nat>, status: int, activa: Option<nat>)
    ensures propietario == Some(1)
    ensures status == 200 && activa == Some(101)
  {
    var owner := Usuario(Some(1), true, false, false, Some("cliente"));
    propietario := PerformCreate(owner, None);
    var d := Drogueria(101, "D101", "Drog101", propietario, true);
    var cuenta := new Cuenta(owner, None);
    status := cuenta.SetActive(Some(101), [d]);
    activa := cuenta.activeDrogueria;
  }
}
