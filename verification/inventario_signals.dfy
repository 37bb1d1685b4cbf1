/** The post-save handlers that append rows to the alert and audit tables.
    Each handler is a method on `Log`, the pair of tables; the row a handler
    appends is given by a function of the old table, and the lemmas show that
    the deduplicating handlers never leave two unread alerts of the same kind
    for one medicine. */
module InventarioSignals {
  import opened Seqs
  import opened InventarioModels

  /** The alert kinds whose handlers check for an existing unread alert. */
  predicate Deduplicado(t: TipoAlerta)
  {
    t == LowStock || t == Vencido
  }

  /** `Alerta.objects.filter(tipo=..., medicamento=med, leido=False).exists()`. */
  predicate HasUnread(alertas: seq<Alerta>, tipo: TipoAlerta, med: nat)
  {
    exists i :: 0 <= i < |alertas| && alertas[i].tipo == tipo && alertas[i].medicamento == Some(med) && !alertas[i].leido
  }

  /** No medicine has two unread alerts of one deduplicated kind. */
  predicate SinDuplicados(alertas: seq<Alerta>)
  {
    forall i, j :: 0 <= i < j < |alertas| && Deduplicado(alertas[i].tipo) && alertas[i].medicamento.Some?
      && !alertas[i].leido && !alertas[j].leido && alertas[i].tipo == alertas[j].tipo
      ==> alertas[i].medicamento != alertas[j].medicamento
  }

  /** The alert table after `movimiento_post_save` for a created movement on
      medicine `medId` (whose saved state is `med`), registered at branch
      `drogueria`: a `low_stock`/`warning` alert is appended exactly when the
      stock is at or below the minimum and no unread one exists. */
  function ConLowStock(alertas: seq<Alerta>, medId: nat, med: Medicamento, drogueria: Option<nat>): (r: seq<Alerta>)
    ensures |r| == |alertas| + 1 <==> med.stockActual <= med.stockMinimo && !HasUnread(alertas, LowStock, medId)
    ensures |r| == |alertas| ==> r == alertas
    ensures |r| == |alertas| + 1 ==> r == alertas + [Alerta(LowStock, Warning, Some(medId), drogueria, false)]
    ensures |r| == |alertas| || |r| == |alertas| + 1
    ensures alertas <= r
  {
    if med.stockActual <= med.stockMinimo && !HasUnread(alertas, LowStock, medId) then
      alertas + [Alerta(LowStock, Warning, Some(medId), drogueria, false)]
    else alertas
  }

  /** The alert table after `medicamento_post_save`: a `vencido`/`danger`
      alert at the medicine's branch is appended exactly when the medicine is
      expired and no unread one exists. */
  function ConVencido(alertas: seq<Alerta>, medId: nat, med: Medicamento, today: int): (r: seq<Alerta>)
    ensures |r| == |alertas| + 1 <==> EstaVencido(med, today) && !HasUnread(alertas, Vencido, medId)
    ensures |r| == |alertas| ==> r == alertas
    ensures |r| == |alertas| + 1 ==> r == alertas + [Alerta(Vencido, Danger, Some(medId), med.drogueria, false)]
    ensures |r| == |alertas| || |r| == |alertas| + 1
    ensures alertas <= r
  {
    if EstaVencido(med, today) && !HasUnread(alertas, Vencido, medId) then
      alertas + [Alerta(Vencido, Danger, Some(medId), med.drogueria, false)]
    else alertas
  }

  /** Appending a new unread alert of a deduplicated kind keeps the table
      free of duplicates exactly when no unread alert of that kind exists for
      that medicine. */
  lemma {:induction false} AppendSinDuplicados(alertas: seq<Alerta>, a: Alerta)
    requires SinDuplicados(alertas)
    requires Deduplicado(a.tipo) && a.medicamento.Some? && !a.leido
    ensures SinDuplicados(alertas + [a]) <==> !HasUnread(alertas, a.tipo, a.medicamento.value)
  {
    var r := alertas + [a];
    if HasUnread(alertas, a.tipo, a.medicamento.value) {
      var i :| 0 <= i < |alertas| && alertas[i].tipo == a.tipo && alertas[i].medicamento == a.medicamento && !alertas[i].leido;
      assert r[i] == alertas[i] && r[|alertas|] == a;
    } else {
      forall i, j | 0 <= i < j < |r| && Deduplicado(r[i].tipo) && r[i].medicamento.Some?
        && !r[i].leido && !r[j].leido && r[i].tipo == r[j].tipo
        ensures r[i].medicamento != r[j].medicamento
      {
        assert r[i] == alertas[i];
        if j < |alertas| {
          assert r[j] == alertas[j];
        } else {
          assert r[j] == a;
        }
      }
    }
  }

  /** The movement handler keeps the alert table free of duplicates. */
  lemma ConLowStockSinDuplicados(alertas: seq<Alerta>, medId: nat, med: Medicamento, drogueria: Option<nat>)
    requires SinDuplicados(alertas)
    ensures SinDuplicados(ConLowStock(alertas, medId, med, drogueria))
  {
    if med.stockActual <= med.stockMinimo && !HasUnread(alertas, LowStock, medId) {
      AppendSinDuplicados(alertas, Alerta(LowStock, Warning, Some(medId), drogueria, false));
    }
  }

  /** The medicine handler keeps the alert table free of duplicates. */
  lemma ConVencidoSinDuplicados(alertas: seq<Alerta>, medId: nat, med: Medicamento, today: int)
    requires SinDuplicados(alertas)
    ensures SinDuplicados(ConVencido(alertas, medId, med, today))
  {
    if EstaVencido(med, today) && !HasUnread(alertas, Vencido, medId) {
      AppendSinDuplicados(alertas, Alerta(Vencido, Danger, Some(medId), med.drogueria, false));
    }
  }

  /** Running either deduplicating handler twice in a row appends at most
      one alert: the second run finds the unread alert the first one left. */
  lemma HandlersIdempotentes(alertas: seq<Alerta>, medId: nat, med: Medicamento, drogueria: Option<nat>, today: int)
    ensures var once := ConLowStock(alertas, medId, med, drogueria);
      ConLowStock(once, medId, med, drogueria) == once
    ensures var once := ConVencido(alertas, medId, med, today);
      ConVencido(once, medId, med, today) == once
  {
    var once := ConLowStock(alertas, medId, med, drogueria);
    if |once| == |alertas| + 1 {
      assert once[|alertas|].tipo == LowStock;
    } else if med.stockActual <= med.stockMinimo {
      var i :| 0 <= i < |alertas| && alertas[i].tipo == LowStock && alertas[i].medicamento == Some(medId) && !alertas[i].leido;
      assert once[i] == alertas[i];
    }
    var onceV := ConVencido(alertas, medId, med, today);
    if |onceV| == |alertas| + 1 {
      assert onceV[|alertas|].tipo == Vencido;
    } else if EstaVencido(med, today) {
      var i :| 0 <= i < |alertas| && alertas[i].tipo == Vencido && alertas[i].medicamento == Some(medId) && !alertas[i].leido;
      assert onceV[i] == alertas[i];
    }
  }

  /** The informational alert for an accepted loan, at the destination branch. */
  function AlertaPrestamoAceptado(p: Prestamo): Alerta
  {
    Alerta(PrestamoAlerta, NivelInfo, p.medicamentoDestino, Some(p.destino), false)
  }

  /** Loan alerts are not deduplicated, and appending one never breaks the
      no-duplicate rule of the other kinds. */
  lemma PrestamoAlertaSinDuplicados(alertas: seq<Alerta>, p: Prestamo)
    requires SinDuplicados(alertas)
    ensures SinDuplicados(alertas + [AlertaPrestamoAceptado(p)])
  {
    var r := alertas + [AlertaPrestamoAceptado(p)];
    forall i, j | 0 <= i < j < |r| && Deduplicado(r[i].tipo) && r[i].medicamento.Some?
      && !r[i].leido && !r[j].leido && r[i].tipo == r[j].tipo
      ensures r[i].medicamento != r[j].medicamento
    {
      assert r[i] == alertas[i];
      if j < |alertas| { assert r[j] == alertas[j]; }
    }
  }

  function AuditMovimiento(movId: nat, mov: Movimiento): AuditEntry
  {
    AuditEntry("movimiento_creado", Some("MovimientoInventario"), Some(movId), mov.usuario)
  }

  function AuditPrestamo(action: string, prestamoId: nat, p: Prestamo): AuditEntry
  {
    AuditEntry(action, Some("Prestamo"), Some(prestamoId), p.respondedor)
  }

  /** The alert table and the audit table. */
  class Log {
    var alertas: seq<Alerta>
    var auditoria: seq<AuditEntry>

    predicate Valid()
      reads this
    {
      SinDuplicados(alertas)
    }

    constructor ()
      ensures alertas == [] && auditoria == []
      ensures Valid()
    {
      alertas := [];
      auditoria := [];
    }

    /** `movimiento_post_save`: nothing for an update; for a created movement
        one audit row, then the low-stock check. `med` is the movement's
        medicine as just saved. */
    method MovimientoPostSave(created: bool, movId: nat, mov: Movimiento, med: Medicamento)
      modifies this
      ensures !created ==> alertas == old(alertas) && auditoria == old(auditoria)
      ensures created ==> auditoria == old(auditoria) + [AuditMovimiento(movId, mov)]
      ensures created ==> alertas == ConLowStock(old(alertas), mov.medicamento, med, mov.drogueria)
      ensures old(Valid()) ==> Valid()
    {
      if !created {
        return;
      }
      auditoria := auditoria + [AuditMovimiento(movId, mov)];
      if med.stockActual <= med.stockMinimo {
        if !HasUnread(alertas, LowStock, mov.medicamento) {
          alertas := alertas + [Alerta(LowStock, Warning, Some(mov.medicamento), mov.drogueria, false)];
        }
      }
      if old(Valid()) {
        ConLowStockSinDuplicados(old(alertas), mov.medicamento, med, mov.drogueria);
      }
    }

    /** `medicamento_post_save`, on every save of a medicine (`today` stands
        for the server's current date). */
    method MedicamentoPostSave(medId: nat, med: Medicamento, today: int)
      modifies this
      ensures alertas == ConVencido(old(alertas), medId, med, today)
      ensures auditoria == old(auditoria)
      ensures old(Valid()) ==> Valid()
    {
      if EstaVencido(med, today) {
        if !HasUnread(alertas, Vencido, medId) {
          alertas := alertas + [Alerta(Vencido, Danger, Some(medId), med.drogueria, false)];
        }
      }
      if old(Valid()) {
        ConVencidoSinDuplicados(old(alertas), medId, med, today);
      }
    }

    /** `prestamo_post_save`: a created loan triggers nothing; a loan saved
        as accepted gets an alert and an audit row, one saved as rejected an
        audit row only. */
    method PrestamoPostSave(created: bool, prestamoId: nat, p: Prestamo)
      modifies this
      ensures created || (p.estado != Accepted && p.estado != Rejected) ==>
        alertas == old(alertas) && auditoria == old(auditoria)
      ensures !created && p.estado == Accepted ==>
        alertas == old(alertas) + [AlertaPrestamoAceptado(p)]
        && auditoria == old(auditoria) + [AuditPrestamo("prestamo_aceptado", prestamoId, p)]
      ensures !created && p.estado == Rejected ==>
        alertas == old(alertas) && auditoria == old(auditoria) + [AuditPrestamo("prestamo_rechazado", prestamoId, p)]
      ensures old(Valid()) ==> Valid()
    {
      if !created && p.estado == Accepted {
        alertas := alertas + [AlertaPrestamoAceptado(p)];
        auditoria := auditoria + [AuditPrestamo("prestamo_aceptado", prestamoId, p)];
        if old(Valid()) {
          PrestamoAlertaSinDuplicados(old(alertas), p);
        }
      }
      if !created && p.estado == Rejected {
        auditoria := auditoria + [AuditPrestamo("prestamo_rechazado", prestamoId, p)];
      }
    }
  }
}
