/** The loan request endpoint: `validate` checks the origin medicine against
    the origin branch and its free stock; `create` stores a pending loan for
    the requesting user and reserves its quantity. */
module PrestamoSerializer {
  import opened Seqs
  import opened InventarioModels
  import opened InventarioSignals
  import opened InventarioStore

  /** The fields a client can write. `estado`, `solicitante`, `respondedor`
      and the two dates are read-only, so a request cannot carry them. */
  datatype PrestamoData = PrestamoData(
    medicamentoOrigen: nat,
    medicamentoDestino: Option<nat>,
    cantidad: nat,
    origen: nat,
    destino: nat,
    nota: Option<string>)

  datatype ValidationError = MedicamentoInexistente | DeOtraDrogueria | SinStockEnOrigen

  datatype Result<T> = Ok(value: T) | Err(error: ValidationError)

  /** `PrestamoSerializer.validate` given the origin medicine row: the
      medicine must belong to the origin branch, and the quantity must not
      exceed `stock_actual - stock_reservado` (which may be negative, so
      nothing passes then). */
  function Validate(data: PrestamoData, medOrigen: Medicamento): (r: Result<PrestamoData>)
    ensures r.Ok? ==> r.value == data
    ensures r.Ok? <==> (medOrigen.drogueria == Some(data.origen)
                        && data.cantidad + medOrigen.stockReservado <= medOrigen.stockActual)
    ensures medOrigen.drogueria != Some(data.origen) ==> r == Err(DeOtraDrogueria)
    ensures medOrigen.drogueria == Some(data.origen) && data.cantidad + medOrigen.stockReservado > medOrigen.stockActual
      ==> r == Err(SinStockEnOrigen)
  {
    if medOrigen.drogueria != Some(data.origen) then Err(DeOtraDrogueria)
    else if data.cantidad > medOrigen.stockActual - medOrigen.stockReservado then Err(SinStockEnOrigen)
    else Ok(data)
  }

  /** The loan row `create` builds: pending, requested by `user`, at `now`;
      the request's note is not copied. */
  function NuevoPrestamo(data: PrestamoData, user: Option<nat>, now: int): (p: Prestamo)
    ensures p.estado == Pending && p.solicitante == user && p.respondedor.None? && p.fechaRespuesta.None?
    ensures p.medicamentoOrigen == data.medicamentoOrigen && p.medicamentoDestino == data.medicamentoDestino
    ensures p.cantidad == data.cantidad && p.origen == data.origen && p.destino == data.destino
  {
    Prestamo(data.medicamentoOrigen, data.medicamentoDestino, data.cantidad, data.origen, data.destino,
             Pending, user, None, now, None, None)
  }

  /** Read-only fields cannot be influenced: two requests with the same
      writable fields from the same user give the same loan, always pending. */
  lemma NuevoPrestamoIgnoraSoloLectura(a: PrestamoData, b: PrestamoData, user: Option<nat>, now: int)
    requires a.(nota := None) == b.(nota := None)
    ensures NuevoPrestamo(a, user, now) == NuevoPrestamo(b, user, now)
  {
  }

  /** A loan request: the referenced medicines must exist, then `validate`,
      then `create` (the row, then `reservar` on the same origin row, which
      cannot fail once `validate` passed). */
  method Create(store: Store, data: PrestamoData, user: Option<nat>, now: int, today: int) returns (r: Result<nat>)
    requires store.Valid()
    modifies store, store.log
    ensures store.Valid()
    ensures !RefsPrestamo(NuevoPrestamo(data, user, now), old(|store.meds|)) ==> r == Err(MedicamentoInexistente)
    ensures RefsPrestamo(NuevoPrestamo(data, user, now), old(|store.meds|)) ==>
      (r.Ok? <==> Validate(data, old(store.meds[data.medicamentoOrigen])).Ok?)
      && (r.Err? ==> r.error == Validate(data, old(store.meds[data.medicamentoOrigen])).error)
    ensures r.Err? ==> (store.meds == old(store.meds) && store.prestamos == old(store.prestamos)
      && store.log.alertas == old(store.log.alertas) && store.log.auditoria == old(store.log.auditoria))
    ensures r.Ok? ==>
      var o := data.medicamentoOrigen;
      r.value == |old(store.prestamos)|
      && store.prestamos == old(store.prestamos) + [NuevoPrestamo(data, user, now)]
      && store.meds == old(store.meds)[o := old(store.meds[o]).(stockReservado := old(store.meds[o].stockReservado) + data.cantidad)]
      && store.meds[o].stockReservado <= store.meds[o].stockActual
      && store.log.alertas == ConVencido(old(store.log.alertas), o, store.meds[o], today)
    ensures store.movimientos == old(store.movimientos) && store.log.auditoria == old(store.log.auditoria)
    ensures old(store.ReservasCuadran()) ==> store.ReservasCuadran()
  {
    var p := NuevoPrestamo(data, user, now);
    if !RefsPrestamo(p, |store.meds|) {
      return Err(MedicamentoInexistente);
    }
    var v := Validate(data, store.meds[data.medicamentoOrigen]);
    if v.Err? {
      return Err(v.error);
    }
    ghost var cuadran0 := store.ReservasCuadran();
    ghost var meds0, prestamos0 := store.meds, store.prestamos;
    var pid := store.InsertarPrestamo(p);
    var e := store.Reservar(pid, today);
    assert e.None?;
    if cuadran0 {
      forall m | 0 <= m < |store.meds| ensures store.meds[m].stockReservado == Reservado(store.prestamos, m) {
        assert Reservado(store.prestamos, m) == Reservado(prestamos0, m) + PendienteDe(m)(p);
      }
    }
    r := Ok(pid);
  }
}
