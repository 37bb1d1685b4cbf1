/** The loan flow the repository's own test walks through: two branches each
    stocking Paracetamol (20 and 2 units); a request for 5 units from the
    first to the second reserves 5; accepting it leaves 15 with nothing
    reserved at the origin and 7 at the destination. */
module PrestamoFlujo {
  import opened Seqs
  import opened InventarioModels
  import opened InventarioStore
  import opened PrestamoSerializer

  /** The first half: both rows registered and the loan requested. */
  method Solicitud(today: int, now: int) returns (store: Store, pid: nat)
    ensures fresh(store) && fresh(store.log) && store.Valid()
    ensures |store.meds| == 2 && pid < |store.prestamos|
    ensures store.meds[0].stockActual == 20 && store.meds[0].stockReservado == 5
    ensures store.meds[1].stockActual == 2 && store.meds[0].nombre == "Paracetamol"
    ensures Buscar(store.meds, "Paracetamol", 2) == Some(1)
    ensures var p := store.prestamos[pid];
      p.medicamentoOrigen == 0 && p.medicamentoDestino.None? && p.destino == 2 && p.cantidad == 5 && p.estado == Pending
  {
    store := new Store();
    var m1 := NuevoMedicamento("Paracetamol", Some(1), 500).(stockActual := 20);
    var m2 := NuevoMedicamento("Paracetamol", Some(2), 500).(stockActual := 2);
    var id1 := store.AltaMedicamento(m1, today);
    var id2 := store.AltaMedicamento(m2, today);
    assert Buscar([m1], "Paracetamol", 2).None?;
    assert store.meds == [m1, m2];
    var r := Create(store, PrestamoData(0, None, 5, 1, 2, None), Some(1), now, today);
    assert r.Ok?;
    pid := r.value;
    assert Buscar(store.meds, "Paracetamol", 2) == Some(1);
  }

  method FlujoPrestamo(today: int, now: int) returns (reservadoTrasSolicitud: nat, origen: Medicamento, destino: Medicamento)
    ensures reservadoTrasSolicitud == 5
    ensures origen.stockActual == 15 && origen.stockReservado == 0
    ensures destino.stockActual == 7
  {
    var store, pid := Solicitud(today, now);
    reservadoTrasSolicitud := store.meds[0].stockReservado;
    ghost var meds1 := store.meds;
    assert MedsConDestino(meds1, store.prestamos[pid]) == (meds1, 1);
    var e := store.Aceptar(pid, Some(1), now, today);
    assert store.meds == Transferir(meds1, 0, 1, 5);
    origen := store.meds[0];
    destino := store.meds[1];
  }
}
