/** The inventory tables and the operations of `inventario/models.py` that
    change them: saving a movement, reserving and releasing loan stock,
    accepting and rejecting a loan. Each operation also runs the post-save
    handlers of the alert and audit tables in the order the framework fires
    them. A row's id is its index in its table. */
module InventarioStore {
  import opened Seqs
  import opened InventarioModels
  import opened InventarioSignals

  datatype PrestamoError = NoPendiente | StockInsuficiente

  /** The share of loan `p` in the reservation of medicine `m`. */
  function PendienteDe(m: nat): Prestamo -> int
  {
    (p: Prestamo) => if p.estado == Pending && p.medicamentoOrigen == m then p.cantidad else 0
  }

  /** Units of medicine `m` held by pending loans. */
  function Reservado(prestamos: seq<Prestamo>, m: nat): int
  {
    SumOf(prestamos, PendienteDe(m))
  }

  function StockActualDe(m: Medicamento): int { m.stockActual }

  /** Units on hand over all medicine rows. */
  function StockTotal(meds: seq<Medicamento>): int
  {
    SumOf(meds, StockActualDe)
  }

  /** No two medicines share a name at one branch (`unique_nombre_drogueria`;
      rows without a branch are exempt, as SQL treats nulls as distinct). */
  predicate UnicoPorDrogueria(meds: seq<Medicamento>)
  {
    forall i, j :: 0 <= i < j < |meds| && meds[i].drogueria.Some? ==>
      !(meds[i].nombre == meds[j].nombre && meds[i].drogueria == meds[j].drogueria)
  }

  predicate RefsPrestamo(p: Prestamo, n: nat)
  {
    p.medicamentoOrigen < n && (p.medicamentoDestino.Some? ==> p.medicamentoDestino.value < n)
  }

  /** Index of the medicine called `nombre` at branch `drogueria`, if any
      (the lookup half of `get_or_create`). */
  function Buscar(meds: seq<Medicamento>, nombre: string, drogueria: nat): (r: Option<nat>)
    ensures r.Some? ==> r.value < |meds| && meds[r.value].nombre == nombre && meds[r.value].drogueria == Some(drogueria)
    ensures r.None? ==> forall k :: 0 <= k < |meds| ==> !(meds[k].nombre == nombre && meds[k].drogueria == Some(drogueria))
  {
    if meds == [] then None
    else match Buscar(meds[..|meds| - 1], nombre, drogueria)
      case Some(k) => Some(k)
      case None =>
        if meds[|meds| - 1].nombre == nombre && meds[|meds| - 1].drogueria == Some(drogueria) then Some(|meds| - 1)
        else None
  }

  /** The destination row `get_or_create` makes from the origin medicine:
      name, description, category and prices copied, no stock. */
  function CopiaEnDestino(origen: Medicamento, destino: nat): (m: Medicamento)
    ensures m.nombre == origen.nombre && m.drogueria == Some(destino)
    ensures m.stockActual == 0 && m.stockReservado == 0
    ensures m.fechaVencimiento.None?
  {
    NuevoMedicamento(origen.nombre, Some(destino), origen.precioVenta)
      .(descripcion := origen.descripcion, categoria := origen.categoria, costoCompra := origen.costoCompra)
  }

  /** The medicine table once the loan has a destination row, and that row. */
  function MedsConDestino(meds: seq<Medicamento>, p: Prestamo): (r: (seq<Medicamento>, nat))
    requires RefsPrestamo(p, |meds|)
    ensures r.1 < |r.0| && meds <= r.0 && |r.0| <= |meds| + 1
    ensures p.medicamentoDestino.Some? ==> r == (meds, p.medicamentoDestino.value)
    ensures p.medicamentoDestino.None? && Buscar(meds, meds[p.medicamentoOrigen].nombre, p.destino).Some? ==>
      r == (meds, Buscar(meds, meds[p.medicamentoOrigen].nombre, p.destino).value)
    ensures p.medicamentoDestino.None? && Buscar(meds, meds[p.medicamentoOrigen].nombre, p.destino).None? ==>
      r == (meds + [CopiaEnDestino(meds[p.medicamentoOrigen], p.destino)], |meds|)
  {
    if p.medicamentoDestino.Some? then (meds, p.medicamentoDestino.value)
    else match Buscar(meds, meds[p.medicamentoOrigen].nombre, p.destino)
      case Some(k) => (meds, k)
      case None => (meds + [CopiaEnDestino(meds[p.medicamentoOrigen], p.destino)], |meds|)
  }

  /** The stock effect of accepting a loan of `c` units from row `o` to row
      `d`: an exit on `o`, an entry on `d`, then the reservation on `o` is
      released, each step applied to the current rows. */
  function Transferir(meds: seq<Medicamento>, o: nat, d: nat, c: nat): (r: seq<Medicamento>)
    requires o < |meds| && d < |meds|
    ensures |r| == |meds|
    ensures forall i :: 0 <= i < |meds| && i != o && i != d ==> r[i] == meds[i]
    ensures forall i :: 0 <= i < |meds| ==>
      r[i] == meds[i].(stockActual := r[i].stockActual, stockReservado := r[i].stockReservado)
    ensures r[o].stockReservado == Monus(meds[o].stockReservado, c)
    ensures o != d ==> (r[o].stockActual == Monus(meds[o].stockActual, c)
      && r[d].stockActual == meds[d].stockActual + c && r[d].stockReservado == meds[d].stockReservado)
    ensures o == d ==> r[o].stockActual == Monus(meds[o].stockActual, c) + c
  {
    var m1 := meds[o := AplicarMovimiento(meds[o], Salida, c, false)];
    var m2 := m1[d := AplicarMovimiento(m1[d], Entrada, c, false)];
    m2[o := m2[o].(stockReservado := Monus(m2[o].stockReservado, c))]
  }

  /** When the origin holds the units, accepting a loan moves stock without
      creating or losing any. */
  lemma TransferirConserva(meds: seq<Medicamento>, o: nat, d: nat, c: nat)
    requires o < |meds| && d < |meds| && c <= meds[o].stockActual
    ensures StockTotal(Transferir(meds, o, d, c)) == StockTotal(meds)
  {
    var r := Transferir(meds, o, d, c);
    if o == d {
      assert r == meds[o := r[o]];
      SumOfUpdate(meds, o, r[o], StockActualDe);
    } else {
      var m1 := meds[o := r[o]];
      assert r == m1[d := r[d]];
      SumOfUpdate(meds, o, r[o], StockActualDe);
      SumOfUpdate(m1, d, r[d], StockActualDe);
    }
  }

  /** Giving a loan its destination row adds no stock: a created row starts
      empty. */
  lemma MedsConDestinoConserva(meds: seq<Medicamento>, p: Prestamo)
    requires RefsPrestamo(p, |meds|)
    ensures StockTotal(MedsConDestino(meds, p).0) == StockTotal(meds)
  {
    var ms := MedsConDestino(meds, p).0;
    if |ms| == |meds| + 1 {
      assert ms == meds + [ms[|meds|]];
      SumOfAppend(meds, [ms[|meds|]], StockActualDe);
      SumOfSingle(ms[|meds|], StockActualDe);
    } else {
      assert ms == meds;
    }
  }

  /** Accepting a loan whose origin holds the units leaves the chain's total
      stock unchanged, whichever destination row `get_or_create` yields. */
  lemma AceptarConserva(meds: seq<Medicamento>, p: Prestamo)
    requires RefsPrestamo(p, |meds|) && p.cantidad <= meds[p.medicamentoOrigen].stockActual
    ensures var (ms, d) := MedsConDestino(meds, p);
      StockTotal(Transferir(ms, p.medicamentoOrigen, d, p.cantidad)) == StockTotal(meds)
  {
    var (ms, d) := MedsConDestino(meds, p);
    MedsConDestinoConserva(meds, p);
    assert ms[p.medicamentoOrigen] == meds[p.medicamentoOrigen];
    TransferirConserva(ms, p.medicamentoOrigen, d, p.cantidad);
  }

  /** The exit at the origin and the entry at destination row `d` that
      accepting loan `p` records, by `user` at `now`. */
  function MovimientosPrestamo(p: Prestamo, d: nat, user: Option<nat>, now: int): seq<Movimiento>
  {
    [Movimiento(p.medicamentoOrigen, Some(p.origen), Salida, p.cantidad, now, user, None),
     Movimiento(d, Some(p.destino), Entrada, p.cantidad, now, user, None)]
  }

  /** The audit rows of two movements saved with ids `first` and `first + 1`. */
  function AuditMovimientos(first: nat, movs: seq<Movimiento>): seq<AuditEntry>
    requires |movs| == 2
  {
    [AuditMovimiento(first, movs[0]), AuditMovimiento(first + 1, movs[1])]
  }

  /** The alert table after a new movement on medicine `medId`, whose saved
      row is `med`: the medicine's expiry handler, then the movement's
      low-stock handler. */
  function AlertasMovimiento(alertas: seq<Alerta>, medId: nat, med: Medicamento, drogueria: Option<nat>, today: int): seq<Alerta>
  {
    ConLowStock(ConVencido(alertas, medId, med, today), medId, med, drogueria)
  }

  /** The alert table after the stock steps of accepting a loan of `c` units
      from row `o` (at branch `origen`) to row `d` (at branch `destino`):
      the exit movement, the entry movement, then the save of the origin
      with its reservation released. */
  function AlertasTransferir(alertas: seq<Alerta>, meds: seq<Medicamento>, o: nat, d: nat, c: nat,
                             origen: nat, destino: nat, today: int): seq<Alerta>
    requires o < |meds| && d < |meds|
  {
    var m1 := meds[o := AplicarMovimiento(meds[o], Salida, c, false)];
    var m2 := m1[d := AplicarMovimiento(m1[d], Entrada, c, false)];
    var a1 := AlertasMovimiento(alertas, o, m1[o], Some(origen), today);
    var a2 := AlertasMovimiento(a1, d, m2[d], Some(destino), today);
    ConVencido(a2, o, Transferir(meds, o, d, c)[o], today)
  }

  /** `r` extends `alertas` with low-stock or expiry alerts about rows `o`
      and `d` only. */
  predicate SoloSobre(alertas: seq<Alerta>, r: seq<Alerta>, o: nat, d: nat)
  {
    alertas <= r && forall i :: |alertas| <= i < |r| ==>
      Deduplicado(r[i].tipo) && (r[i].medicamento == Some(o) || r[i].medicamento == Some(d))
  }

  lemma SoloSobreTrans(a: seq<Alerta>, b: seq<Alerta>, c: seq<Alerta>, o: nat, d: nat)
    requires SoloSobre(a, b, o, d) && SoloSobre(b, c, o, d)
    ensures SoloSobre(a, c, o, d)
  {
    forall i | |a| <= i < |c| ensures Deduplicado(c[i].tipo) && (c[i].medicamento == Some(o) || c[i].medicamento == Some(d)) {
      if i < |b| {
        assert c[i] == b[i];
      }
    }
  }

  /** Accepting a loan adds to the alert table only unread low-stock and
      expiry alerts about its origin and destination rows, at most one of
      each kind per row and call, and never a second unread alert of a kind
      a row already has. */
  lemma AlertasTransferirSoloFilas(alertas: seq<Alerta>, meds: seq<Medicamento>, o: nat, d: nat, c: nat,
                                   origen: nat, destino: nat, today: int)
    requires o < |meds| && d < |meds|
    ensures SoloSobre(alertas, AlertasTransferir(alertas, meds, o, d, c, origen, destino, today), o, d)
    ensures |AlertasTransferir(alertas, meds, o, d, c, origen, destino, today)| <= |alertas| + 5
    ensures SinDuplicados(alertas) ==> SinDuplicados(AlertasTransferir(alertas, meds, o, d, c, origen, destino, today))
  {
    var m1 := meds[o := AplicarMovimiento(meds[o], Salida, c, false)];
    var m2 := m1[d := AplicarMovimiento(m1[d], Entrada, c, false)];
    var v1 := ConVencido(alertas, o, m1[o], today);
    var a1 := ConLowStock(v1, o, m1[o], Some(origen));
    var v2 := ConVencido(a1, d, m2[d], today);
    var a2 := ConLowStock(v2, d, m2[d], Some(destino));
    var r := ConVencido(a2, o, Transferir(meds, o, d, c)[o], today);
    SoloSobreTrans(alertas, v1, a1, o, d);
    SoloSobreTrans(alertas, a1, v2, o, d);
    SoloSobreTrans(alertas, v2, a2, o, d);
    SoloSobreTrans(alertas, a2, r, o, d);
    if SinDuplicados(alertas) {
      ConVencidoSinDuplicados(alertas, o, m1[o], today);
      ConLowStockSinDuplicados(v1, o, m1[o], Some(origen));
      ConVencidoSinDuplicados(a1, d, m2[d], today);
      ConLowStockSinDuplicados(v2, d, m2[d], Some(destino));
      ConVencidoSinDuplicados(a2, o, Transferir(meds, o, d, c)[o], today);
    }
  }

  // ---------------------------------------------------------------------
  // `aceptar` as written: two row snapshots, each saved whole.
  // ---------------------------------------------------------------------

  /** `aceptar` as the source writes it: `origen_med` and `dest_med` are read
      before any change; the exit saves `origen_med`, the entry saves
      `dest_med`, and the final reservation update saves `origen_med` again,
      each save writing the whole row from its own snapshot. */
  function TransferirConInstantaneas(meds: seq<Medicamento>, o: nat, d: nat, c: nat): (r: seq<Medicamento>)
    requires o < |meds| && d < |meds|
    ensures |r| == |meds|
  {
    var origenMed := meds[o];
    var destMed := meds[d];
    var origen1 := AplicarMovimiento(origenMed, Salida, c, false);
    var m1 := meds[o := origen1];
    var dest1 := AplicarMovimiento(destMed, Entrada, c, false);
    var m2 := m1[d := dest1];
    m2[o := origen1.(stockReservado := Monus(origen1.stockReservado, c))]
  }

  /** On two distinct rows the snapshots do no harm. */
  lemma InstantaneasCoincidenSiDistintas(meds: seq<Medicamento>, o: nat, d: nat, c: nat)
    requires o < |meds| && d < |meds| && o != d
    ensures TransferirConInstantaneas(meds, o, d, c) == Transferir(meds, o, d, c)
  {
  }

  /** When origin and destination are the same row (a loan from a branch to
      itself), the last save of the origin snapshot overwrites the entry:
      `c` units vanish from the stock. */
  lemma InstantaneasPierdenStock(meds: seq<Medicamento>, o: nat, c: nat)
    requires o < |meds| && c <= meds[o].stockActual
    ensures TransferirConInstantaneas(meds, o, o, c)[o].stockActual + c == meds[o].stockActual
    ensures StockTotal(TransferirConInstantaneas(meds, o, o, c)) + c == StockTotal(meds)
    ensures StockTotal(Transferir(meds, o, o, c)) == StockTotal(meds)
  {
    var r := TransferirConInstantaneas(meds, o, o, c);
    assert r == meds[o := r[o]];
    SumOfUpdate(meds, o, r[o], StockActualDe);
    TransferirConserva(meds, o, o, c);
  }

  /** The loan of 5 units from a 20-unit row to that same row ends with 15
      units as written, and 20 with the steps applied in order. */
  lemma InstantaneasEjemplo()
    ensures var m := NuevoMedicamento("Paracetamol", Some(1), 500).(stockActual := 20, stockReservado := 5);
      TransferirConInstantaneas([m], 0, 0, 5)[0].stockActual == 15
      && Transferir([m], 0, 0, 5)[0].stockActual == 20
  {
  }

  // ---------------------------------------------------------------------
  // Reservation accounting lemmas
  // ---------------------------------------------------------------------

  /** Appending a loan adds its share to each reservation total. */
  lemma ReservadoAppend(prestamos: seq<Prestamo>, p: Prestamo, m: nat)
    ensures Reservado(prestamos + [p], m) == Reservado(prestamos, m) + PendienteDe(m)(p)
  {
    SumOfAppend(prestamos, [p], PendienteDe(m));
    SumOfSingle(p, PendienteDe(m));
  }

  /** Replacing one loan changes each reservation total by the difference of
      the two shares. */
  lemma ReservadoUpdate(prestamos: seq<Prestamo>, i: nat, p: Prestamo, m: nat)
    requires i < |prestamos|
    ensures Reservado(prestamos[i := p], m) == Reservado(prestamos, m) - PendienteDe(m)(prestamos[i]) + PendienteDe(m)(p)
  {
    SumOfUpdate(prestamos, i, p, PendienteDe(m));
  }

  /** A medicine no loan starts from has nothing reserved. */
  lemma {:induction false} ReservadoFuera(prestamos: seq<Prestamo>, m: nat)
    requires forall i :: 0 <= i < |prestamos| ==> prestamos[i].medicamentoOrigen != m
    ensures Reservado(prestamos, m) == 0
  {
    if prestamos != [] {
      ReservadoFuera(prestamos[..|prestamos| - 1], m);
    }
  }

  /** Every reservation total is a sum of loan quantities, so never negative. */
  lemma ReservadoNoNegativo(prestamos: seq<Prestamo>, m: nat)
    ensures Reservado(prestamos, m) >= 0
  {
    SumOfNonNegative(prestamos, PendienteDe(m));
  }

  /** A pending loan's quantity is part of its origin's reservation. */
  lemma {:induction false} PendienteIncluido(prestamos: seq<Prestamo>, i: nat)
    requires i < |prestamos| && prestamos[i].estado == Pending
    ensures Reservado(prestamos, prestamos[i].medicamentoOrigen) >= prestamos[i].cantidad
  {
    var m := prestamos[i].medicamentoOrigen;
    var rest := prestamos[..i] + prestamos[i + 1..];
    SumOfRemove(prestamos, i, PendienteDe(m));
    SumOfNonNegative(rest, PendienteDe(m));
  }

  // ---------------------------------------------------------------------
  // The tables
  // ---------------------------------------------------------------------

  class Store {
    var meds: seq<Medicamento>
    var movimientos: seq<Movimiento>
    var prestamos: seq<Prestamo>
    const log: Log

    /** Foreign keys point at existing rows, names are unique per branch and
        the alert table has no duplicate unread alerts. */
    predicate Valid()
      reads this, log
    {
      log.Valid()
      && (forall i :: 0 <= i < |movimientos| ==> movimientos[i].medicamento < |meds|)
      && (forall i :: 0 <= i < |prestamos| ==> RefsPrestamo(prestamos[i], |meds|))
      && UnicoPorDrogueria(meds)
    }

    /** Each medicine's `stock_reservado` is the total its pending loans hold. */
    predicate ReservasCuadran()
      reads this
    {
      forall m :: 0 <= m < |meds| ==> meds[m].stockReservado == Reservado(prestamos, m)
    }

    constructor ()
      ensures Valid() && ReservasCuadran()
      ensures meds == [] && movimientos == [] && prestamos == []
      ensures log.alertas == [] && log.auditoria == [] && fresh(log)
    {
      meds := [];
      movimientos := [];
      prestamos := [];
      log := new Log();
    }

    /** `medicamento.save()` on an existing row, followed by its handler. */
    method GuardarMedicamento(id: nat, m: Medicamento, today: int)
      requires Valid() && id < |meds|
      requires m.nombre == meds[id].nombre && m.drogueria == meds[id].drogueria
      modifies this, log
      ensures Valid()
      ensures meds == old(meds)[id := m]
      ensures movimientos == old(movimientos) && prestamos == old(prestamos)
      ensures log.alertas == ConVencido(old(log.alertas), id, m, today)
      ensures log.auditoria == old(log.auditoria)
    {
      meds := meds[id := m];
      log.MedicamentoPostSave(id, m, today);
    }

    /** `Medicamento.objects.create`: refused (the unique constraint) when
        the branch already has a medicine of that name. */
    method AltaMedicamento(m: Medicamento, today: int) returns (id: Option<nat>)
      requires Valid()
      modifies this, log
      ensures Valid()
      ensures m.drogueria.Some? && Buscar(old(meds), m.nombre, m.drogueria.value).Some? ==>
        id.None? && meds == old(meds) && log.alertas == old(log.alertas)
      ensures !(m.drogueria.Some? && Buscar(old(meds), m.nombre, m.drogueria.value).Some?) ==>
        id == Some(|old(meds)|) && meds == old(meds) + [m]
        && log.alertas == ConVencido(old(log.alertas), |old(meds)|, m, today)
      ensures movimientos == old(movimientos) && prestamos == old(prestamos)
      ensures log.auditoria == old(log.auditoria)
      ensures old(ReservasCuadran()) && m.stockReservado == 0 ==> ReservasCuadran()
    {
      if m.drogueria.Some? && Buscar(meds, m.nombre, m.drogueria.value).Some? {
        return None;
      }
      id := Some(|meds|);
      if old(ReservasCuadran()) && m.stockReservado == 0 {
        ReservadoFuera(prestamos, |meds|);
      }
      meds := meds + [m];
      log.MedicamentoPostSave(|meds| - 1, m, today);
    }

    /** `MovimientoInventario.save` for a new movement: the stock change,
        the save of the medicine (its handler runs), then the movement's own
        handler. */
    method CrearMovimiento(mov: Movimiento, today: int) returns (movId: nat)
      requires Valid() && mov.medicamento < |meds|
      modifies this, log
      ensures Valid()
      ensures movId == |old(movimientos)| && movimientos == old(movimientos) + [mov]
      ensures meds == old(meds)[mov.medicamento :=
        AplicarMovimiento(old(meds[mov.medicamento]), mov.tipo, mov.cantidad, false)]
      ensures prestamos == old(prestamos)
      ensures log.auditoria == old(log.auditoria) + [AuditMovimiento(movId, mov)]
      ensures log.alertas == AlertasMovimiento(old(log.alertas), mov.medicamento, meds[mov.medicamento], mov.drogueria, today)
      ensures old(ReservasCuadran()) ==> ReservasCuadran()
    {
      var m := AplicarMovimiento(meds[mov.medicamento], mov.tipo, mov.cantidad, false);
      GuardarMedicamento(mov.medicamento, m, today);
      movId := |movimientos|;
      movimientos := movimientos + [mov];
      log.MovimientoPostSave(true, movId, mov, m);
    }

    /** `save(transferencia_release=True)` on a new movement: the stock
        change (on an entry, also the release of reserved units) is written
        with the medicine, whose handler runs; then the keyword reaches the
        framework's `save`, which takes no such argument, so the call raises
        `TypeError` and neither the movement row nor its audit and low-stock
        rows are written. `None` stands for that error. */
    method CrearMovimientoConLiberacion(mov: Movimiento, today: int) returns (movId: Option<nat>)
      requires Valid() && mov.medicamento < |meds|
      modifies this, log
      ensures Valid()
      ensures movId.None?
      ensures meds == old(meds)[mov.medicamento :=
        AplicarMovimiento(old(meds[mov.medicamento]), mov.tipo, mov.cantidad, true)]
      ensures movimientos == old(movimientos) && prestamos == old(prestamos)
      ensures log.auditoria == old(log.auditoria)
      ensures log.alertas == ConVencido(old(log.alertas), mov.medicamento, meds[mov.medicamento], today)
    {
      var m := AplicarMovimiento(meds[mov.medicamento], mov.tipo, mov.cantidad, true);
      GuardarMedicamento(mov.medicamento, m, today);
      movId := None;
    }

    /** `MovimientoInventario.save` for a movement that already has a
        primary key: the row is rewritten, no stock changes and the handler
        does nothing. */
    method ActualizarMovimiento(movId: nat, mov: Movimiento)
      requires Valid() && movId < |movimientos| && mov.medicamento < |meds|
      modifies this, log
      ensures Valid()
      ensures movimientos == old(movimientos)[movId := mov]
      ensures meds == old(meds) && prestamos == old(prestamos)
      ensures log.alertas == old(log.alertas) && log.auditoria == old(log.auditoria)
    {
      movimientos := movimientos[movId := mov];
      log.MovimientoPostSave(false, movId, mov, meds[mov.medicamento]);
    }

    /** `Prestamo.objects.create`: a new loan row; its handler does nothing
        for a creation. */
    method InsertarPrestamo(p: Prestamo) returns (pid: nat)
      requires Valid() && RefsPrestamo(p, |meds|)
      modifies this, log
      ensures Valid()
      ensures pid == |old(prestamos)| && prestamos == old(prestamos) + [p]
      ensures meds == old(meds) && movimientos == old(movimientos)
      ensures log.alertas == old(log.alertas) && log.auditoria == old(log.auditoria)
      ensures forall m :: Reservado(prestamos, m) == Reservado(old(prestamos), m) + PendienteDe(m)(p)
    {
      pid := |prestamos|;
      prestamos := prestamos + [p];
      forall m ensures Reservado(prestamos, m) == Reservado(old(prestamos), m) + PendienteDe(m)(p) {
        ReservadoAppend(old(prestamos), p, m);
      }
      log.PrestamoPostSave(true, pid, p);
    }

    /** `Prestamo.reservar`: refused when the loan asks for more than
        `stock_actual - stock_reservado` of its origin; otherwise the
        reservation grows by exactly the loan's quantity. */
    method Reservar(pid: nat, today: int) returns (err: Option<PrestamoError>)
      requires Valid() && pid < |prestamos|
      modifies this, log
      ensures Valid()
      ensures var o := old(prestamos[pid].medicamentoOrigen);
        err.None? <==> old(prestamos[pid].cantidad + meds[o].stockReservado <= meds[o].stockActual)
      ensures err.Some? ==> err == Some(StockInsuficiente) && meds == old(meds) && log.alertas == old(log.alertas)
      ensures err.None? ==> var o := old(prestamos[pid].medicamentoOrigen);
        meds == old(meds)[o := old(meds[o]).(stockReservado := old(meds[o].stockReservado) + old(prestamos[pid].cantidad))]
        && log.alertas == ConVencido(old(log.alertas), o, meds[o], today)
      ensures movimientos == old(movimientos) && prestamos == old(prestamos)
      ensures log.auditoria == old(log.auditoria)
    {
      var p := prestamos[pid];
      var m := meds[p.medicamentoOrigen];
      var disponible := m.stockActual - m.stockReservado;
      if p.cantidad > disponible {
        return Some(StockInsuficiente);
      }
      GuardarMedicamento(p.medicamentoOrigen, m.(stockReservado := m.stockReservado + p.cantidad), today);
      err := None;
    }

    /** `Prestamo.liberar_reserva`: the reservation drops by the loan's
        quantity, floored at 0. */
    method LiberarReserva(pid: nat, today: int)
      requires Valid() && pid < |prestamos|
      modifies this, log
      ensures Valid()
      ensures var o := old(prestamos[pid].medicamentoOrigen);
        meds == old(meds)[o := old(meds[o]).(stockReservado := Monus(old(meds[o].stockReservado), old(prestamos[pid].cantidad)))]
        && log.alertas == ConVencido(old(log.alertas), o, meds[o], today)
      ensures movimientos == old(movimientos) && prestamos == old(prestamos)
      ensures log.auditoria == old(log.auditoria)
    {
      var p := prestamos[pid];
      var m := meds[p.medicamentoOrigen];
      GuardarMedicamento(p.medicamentoOrigen, m.(stockReservado := Monus(m.stockReservado, p.cantidad)), today);
    }

    /** `get_or_create` of the medicine named like row `o` at branch
        `destino`: the existing row, or a new one without stock appended to
        the table and passed to the medicine signal. */
    method ObtenerOCrear(o: nat, destino: nat, today: int) returns (d: nat)
      requires Valid() && o < |meds|
      modifies this, log
      ensures Valid()
      ensures var found := Buscar(old(meds), old(meds[o]).nombre, destino);
        found.Some? ==> meds == old(meds) && d == found.value
      ensures var found := Buscar(old(meds), old(meds[o]).nombre, destino);
        found.None? ==> meds == old(meds) + [CopiaEnDestino(old(meds[o]), destino)] && d == |old(meds)|
      ensures prestamos == old(prestamos) && movimientos == old(movimientos)
      ensures log.auditoria == old(log.auditoria) && log.alertas == old(log.alertas)
    {
      var found := Buscar(meds, meds[o].nombre, destino);
      if found.Some? {
        d := found.value;
      } else {
        var copia := CopiaEnDestino(meds[o], destino);
        d := |meds|;
        meds := meds + [copia];
        log.MedicamentoPostSave(d, copia, today);
      }
    }

    /** The first step of `aceptar` for a loan without a destination row:
        `get_or_create` of the same-named medicine at the destination branch
        (a new row has no stock), recorded on the loan and saved. */
    method AsignarDestino(pid: nat, today: int) returns (d: nat)
      requires Valid() && pid < |prestamos| && prestamos[pid].estado == Pending
      modifies this, log
      ensures Valid()
      ensures (meds, d) == MedsConDestino(old(meds), old(prestamos[pid]))
      ensures prestamos == old(prestamos)[pid := old(prestamos[pid]).(medicamentoDestino := Some(d))]
      ensures movimientos == old(movimientos)
      ensures log.auditoria == old(log.auditoria) && log.alertas == old(log.alertas)
      ensures old(ReservasCuadran()) ==> ReservasCuadran()
    {
      var p := prestamos[pid];
      ghost var meds0, prestamos0 := meds, prestamos;
      var o := p.medicamentoOrigen;
      if p.medicamentoDestino.None? {
        d := ObtenerOCrear(o, p.destino, today);
        prestamos := prestamos[pid := p.(medicamentoDestino := Some(d))];
        log.PrestamoPostSave(false, pid, prestamos[pid]);
        if old(ReservasCuadran()) {
          DestinoCuadra(meds0, prestamos0, pid, d, meds);
        }
      } else {
        d := p.medicamentoDestino.value;
      }
    }

    /** The two movements of `aceptar`: the exit at the origin, then the
        entry at the destination, each saved with its medicine. */
    method RegistrarMovimientos(pid: nat, d: nat, user: Option<nat>, now: int, today: int)
      requires Valid() && pid < |prestamos| && d < |meds|
      modifies this, log
      ensures Valid()
      ensures var p := old(prestamos[pid]);
        var o := p.medicamentoOrigen;
        var m1 := old(meds)[o := AplicarMovimiento(old(meds)[o], Salida, p.cantidad, false)];
        meds == m1[d := AplicarMovimiento(m1[d], Entrada, p.cantidad, false)]
        && log.alertas == AlertasMovimiento(AlertasMovimiento(old(log.alertas), o, m1[o], Some(p.origen), today),
                                            d, meds[d], Some(p.destino), today)
      ensures var p := old(prestamos[pid]);
        movimientos == old(movimientos) + MovimientosPrestamo(p, d, user, now)
        && log.auditoria == old(log.auditoria) + AuditMovimientos(|old(movimientos)|, MovimientosPrestamo(p, d, user, now))
      ensures prestamos == old(prestamos)
    {
      var p := prestamos[pid];
      var o := p.medicamentoOrigen;
      var movs := MovimientosPrestamo(p, d, user, now);
      assert movs[0].medicamento == o && movs[0].tipo == Salida && movs[0].cantidad == p.cantidad;
      assert movs[1].medicamento == d && movs[1].tipo == Entrada && movs[1].cantidad == p.cantidad;
      var idSalida := CrearMovimiento(movs[0], today);
      ghost var movs1, audit1, meds1 := movimientos, log.auditoria, meds;
      ghost var alertas1 := log.alertas;
      assert movs1 == old(movimientos) + [movs[0]];
      assert meds1 == old(meds)[o := AplicarMovimiento(old(meds)[o], Salida, p.cantidad, false)];
      assert alertas1 == AlertasMovimiento(old(log.alertas), o, meds1[o], Some(p.origen), today);
      var idEntrada := CrearMovimiento(movs[1], today);
      assert meds == meds1[d := AplicarMovimiento(meds1[d], Entrada, p.cantidad, false)];
      assert log.alertas == AlertasMovimiento(alertas1, d, meds[d], Some(p.destino), today);
      assert movimientos == movs1 + [movs[1]] && log.auditoria == audit1 + [AuditMovimiento(idEntrada, movs[1])];
      assert movimientos == old(movimientos) + movs;
    }

    /** The stock steps of `aceptar`: an exit movement at the origin, an
        entry movement at the destination, then the origin's reservation is
        released and the origin saved. */
    method MoverStock(pid: nat, d: nat, user: Option<nat>, now: int, today: int)
      requires Valid() && pid < |prestamos| && d < |meds|
      modifies this, log
      ensures Valid()
      ensures var p := old(prestamos[pid]);
        meds == Transferir(old(meds), p.medicamentoOrigen, d, p.cantidad)
        && movimientos == old(movimientos) + MovimientosPrestamo(p, d, user, now)
      ensures prestamos == old(prestamos)
      ensures var p := old(prestamos[pid]);
        log.auditoria == old(log.auditoria) + AuditMovimientos(|old(movimientos)|, MovimientosPrestamo(p, d, user, now))
      ensures var p := old(prestamos[pid]);
        log.alertas == AlertasTransferir(old(log.alertas), old(meds), p.medicamentoOrigen, d, p.cantidad, p.origen, p.destino, today)
    {
      var p := prestamos[pid];
      var o := p.medicamentoOrigen;
      RegistrarMovimientos(pid, d, user, now, today);
      GuardarMedicamento(o, meds[o].(stockReservado := Monus(meds[o].stockReservado, p.cantidad)), today);
    }

    /** The last step of `aceptar`: the loan is saved as accepted by `user`
        at `now`, and the loan signal records the acceptance. */
    method MarcarAceptado(pid: nat, user: Option<nat>, now: int) returns (aceptado: Prestamo)
      requires Valid() && pid < |prestamos|
      modifies this, log
      ensures Valid()
      ensures aceptado == old(prestamos[pid]).(estado := Accepted, respondedor := user, fechaRespuesta := Some(now))
      ensures prestamos == old(prestamos)[pid := aceptado]
      ensures meds == old(meds) && movimientos == old(movimientos)
      ensures log.alertas == old(log.alertas) + [AlertaPrestamoAceptado(aceptado)]
      ensures log.auditoria == old(log.auditoria) + [AuditPrestamo("prestamo_aceptado", pid, aceptado)]
    {
      aceptado := prestamos[pid].(estado := Accepted, respondedor := user, fechaRespuesta := Some(now));
      prestamos := prestamos[pid := aceptado];
      log.PrestamoPostSave(false, pid, aceptado);
    }

    /** The steps of `aceptar` once the pending loan `pid` has its
        destination row `d`: the stock moves, then the loan is saved as
        accepted; closing the loan keeps the reservation accounting. */
    method Completar(pid: nat, d: nat, user: Option<nat>, now: int, today: int) returns (aceptado: Prestamo)
      requires Valid() && pid < |prestamos| && d < |meds| && prestamos[pid].estado == Pending
      modifies this, log
      ensures Valid()
      ensures var p := old(prestamos[pid]);
        aceptado == p.(estado := Accepted, respondedor := user, fechaRespuesta := Some(now))
        && meds == Transferir(old(meds), p.medicamentoOrigen, d, p.cantidad)
        && prestamos == old(prestamos)[pid := aceptado]
        && movimientos == old(movimientos) + MovimientosPrestamo(p, d, user, now)
        && log.auditoria == old(log.auditoria) + AuditMovimientos(|old(movimientos)|, MovimientosPrestamo(p, d, user, now))
                          + [AuditPrestamo("prestamo_aceptado", pid, aceptado)]
        && log.alertas == AlertasTransferir(old(log.alertas), old(meds), p.medicamentoOrigen, d, p.cantidad, p.origen, p.destino, today)
                          + [AlertaPrestamoAceptado(aceptado)]
      ensures old(ReservasCuadran()) ==> ReservasCuadran()
    {
      ghost var meds0, prestamos0 := meds, prestamos;
      ghost var cuadran0 := ReservasCuadran();
      MoverStock(pid, d, user, now, today);
      aceptado := MarcarAceptado(pid, user, now);
      if cuadran0 {
        CierreCuadra(meds0, prestamos0, pid, meds, aceptado);
      }
    }

    /** `Prestamo.aceptar` by `user` at instant `now` (`today` is its date):
        refused unless pending; otherwise the loan gets a destination row
        (the one it names, else the same-named row at the destination
        branch, else a new copy with no stock), the units move from origin to
        destination, the origin's reservation is released and the loan
        becomes accepted. The steps are applied one after the other to the
        current rows. */
    method Aceptar(pid: nat, user: Option<nat>, now: int, today: int) returns (err: Option<PrestamoError>)
      requires Valid() && pid < |prestamos|
      modifies this, log
      ensures Valid()
      ensures err.Some? <==> old(prestamos[pid].estado) != Pending
      ensures err.Some? ==> (err == Some(NoPendiente) && meds == old(meds) && prestamos == old(prestamos)
        && movimientos == old(movimientos) && log.alertas == old(log.alertas) && log.auditoria == old(log.auditoria))
      ensures err.None? ==>
        var p := old(prestamos[pid]);
        var (ms, d) := MedsConDestino(old(meds), p);
        meds == Transferir(ms, p.medicamentoOrigen, d, p.cantidad)
        && prestamos == old(prestamos)[pid := p.(medicamentoDestino := Some(d), estado := Accepted,
                                                  respondedor := user, fechaRespuesta := Some(now))]
        && movimientos == old(movimientos) + MovimientosPrestamo(p, d, user, now)
        && log.auditoria == old(log.auditoria) + AuditMovimientos(|old(movimientos)|, MovimientosPrestamo(p, d, user, now))
                          + [AuditPrestamo("prestamo_aceptado", pid, prestamos[pid])]
        && log.alertas == AlertasTransferir(old(log.alertas), ms, p.medicamentoOrigen, d, p.cantidad, p.origen, p.destino, today)
                          + [AlertaPrestamoAceptado(prestamos[pid])]
      ensures old(ReservasCuadran()) ==> ReservasCuadran()
    {
      var p := prestamos[pid];
      if p.estado != Pending {
        return Some(NoPendiente);
      }
      var d := AsignarDestino(pid, today);
      var aceptado := Completar(pid, d, user, now, today);
      err := None;
    }

    /** `Prestamo.rechazar` by `user`: refused unless pending; otherwise the
        reservation is released, the loan becomes rejected, and its note is
        replaced only by a non-empty new one. */
    method Rechazar(pid: nat, user: Option<nat>, nota: Option<string>, now: int, today: int) returns (err: Option<PrestamoError>)
      requires Valid() && pid < |prestamos|
      modifies this, log
      ensures Valid()
      ensures err.Some? <==> old(prestamos[pid].estado) != Pending
      ensures err.Some? ==> (err == Some(NoPendiente) && meds == old(meds) && prestamos == old(prestamos)
        && log.alertas == old(log.alertas) && log.auditoria == old(log.auditoria))
      ensures err.None? ==>
        var p := old(prestamos[pid]);
        var o := p.medicamentoOrigen;
        meds == old(meds)[o := old(meds[o]).(stockReservado := Monus(old(meds[o].stockReservado), p.cantidad))]
        && prestamos == old(prestamos)[pid := p.(estado := Rejected, respondedor := user, fechaRespuesta := Some(now),
                                                  nota := if nota.Some? && nota.value != "" then nota else p.nota)]
        && log.auditoria == old(log.auditoria) + [AuditPrestamo("prestamo_rechazado", pid, prestamos[pid])]
        && log.alertas == ConVencido(old(log.alertas), o, meds[o], today)
      ensures movimientos == old(movimientos)
      ensures old(ReservasCuadran()) ==> ReservasCuadran()
    {
      var p := prestamos[pid];
      if p.estado != Pending {
        return Some(NoPendiente);
      }
      ghost var cuadran0 := ReservasCuadran();
      ghost var meds0, prestamos0 := meds, prestamos;
      LiberarReserva(pid, today);
      var rechazado := p.(estado := Rejected, respondedor := user, fechaRespuesta := Some(now),
                          nota := if nota.Some? && nota.value != "" then nota else p.nota);
      prestamos := prestamos[pid := rechazado];
      log.PrestamoPostSave(false, pid, rechazado);
      if cuadran0 {
        CierreCuadra(meds0, prestamos0, pid, meds, rechazado);
      }
      err := None;
    }
  }

  /** Closing a pending loan (accepting or rejecting it) and releasing its
      reservation keeps the reservation accounting. */
  lemma CierreCuadra(meds0: seq<Medicamento>, prestamos0: seq<Prestamo>, pid: nat, meds1: seq<Medicamento>, q: Prestamo)
    requires pid < |prestamos0| && prestamos0[pid].estado == Pending && prestamos0[pid].medicamentoOrigen < |meds0|
    requires q.estado != Pending
    requires forall m :: 0 <= m < |meds0| ==> meds0[m].stockReservado == Reservado(prestamos0, m)
    requires var o := prestamos0[pid].medicamentoOrigen;
      |meds1| == |meds0|
      && meds1[o].stockReservado == Monus(meds0[o].stockReservado, prestamos0[pid].cantidad)
      && forall m :: 0 <= m < |meds0| && m != o ==> meds1[m].stockReservado == meds0[m].stockReservado
    ensures forall m :: 0 <= m < |meds1| ==> meds1[m].stockReservado == Reservado(prestamos0[pid := q], m)
  {
    var p := prestamos0[pid];
    forall m | 0 <= m < |meds1| ensures meds1[m].stockReservado == Reservado(prestamos0[pid := q], m) {
      ReservadoUpdate(prestamos0, pid, q, m);
      if m == p.medicamentoOrigen {
        PendienteIncluido(prestamos0, pid);
      }
    }
  }

  /** Recording the destination on loan `pid` keeps the reservation
      accounting: the loan's share is unchanged, and a newly created row
      reserves nothing, as no loan starts from it. */
  lemma DestinoCuadra(meds0: seq<Medicamento>, prestamos0: seq<Prestamo>, pid: nat, d: nat, ms: seq<Medicamento>)
    requires pid < |prestamos0|
    requires forall i :: 0 <= i < |prestamos0| ==> RefsPrestamo(prestamos0[i], |meds0|)
    requires forall m :: 0 <= m < |meds0| ==> meds0[m].stockReservado == Reservado(prestamos0, m)
    requires meds0 <= ms && |ms| <= |meds0| + 1
    requires |ms| == |meds0| + 1 ==> ms[|meds0|].stockReservado == 0
    ensures var prestamos1 := prestamos0[pid := prestamos0[pid].(medicamentoDestino := Some(d))];
      forall m :: 0 <= m < |ms| ==> ms[m].stockReservado == Reservado(prestamos1, m)
  {
    var prestamos1 := prestamos0[pid := prestamos0[pid].(medicamentoDestino := Some(d))];
    forall m ensures Reservado(prestamos1, m) == Reservado(prestamos0, m) {
      ReservadoUpdate(prestamos0, pid, prestamos1[pid], m);
    }
    ConDestinoCuadra(meds0, prestamos0, ms, prestamos1);
  }

  lemma ConDestinoCuadra(meds0: seq<Medicamento>, prestamos0: seq<Prestamo>, ms: seq<Medicamento>, prestamos1: seq<Prestamo>)
    requires forall i :: 0 <= i < |prestamos0| ==> RefsPrestamo(prestamos0[i], |meds0|)
    requires forall m :: 0 <= m < |meds0| ==> meds0[m].stockReservado == Reservado(prestamos0, m)
    requires meds0 <= ms && |ms| <= |meds0| + 1
    requires |ms| == |meds0| + 1 ==> ms[|meds0|].stockReservado == 0
    requires forall m :: Reservado(prestamos1, m) == Reservado(prestamos0, m)
    ensures forall m :: 0 <= m < |ms| ==> ms[m].stockReservado == Reservado(prestamos1, m)
  {
    if |ms| == |meds0| + 1 {
      ReservadoFuera(prestamos0, |meds0|);
    }
    forall m | 0 <= m < |ms| ensures ms[m].stockReservado == Reservado(prestamos1, m) {
      if m < |meds0| {
        assert ms[m] == meds0[m];
      }
    }
  }
}
