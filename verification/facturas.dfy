/** The invoice page: the invoice draft (lines keyed by medicine, with a
    total that is always recomputed from the line subtotals), the checks
    before sending it, and the filtered, date-sorted, paged invoice list.
    Money is in integer cents; dates are day ordinals. */
module Facturas {
  import opened Seqs
  import opened Text
  import opened Paging

  /** A medicine as the catalogue shows it. */
  datatype MedicamentoCatalogo = MedicamentoCatalogo(id: int, nombre: string, precioVenta: int)

  datatype LineaFactura = LineaFactura(medicamentoId: int, nombre: string, cantidad: int, precioUnitario: int, subtotal: int)

  /** The draft form. `cliente` and `empleado` are the selected ids as the
      form holds them, empty when none is selected. Prices and subtotals
      are read as numbers, which is what the page means to add; the page as
      written adds the catalogue's price strings, which `TotalComoEscrito`
      models. */
  datatype Borrador = Borrador(
    cliente: string,
    empleado: string,
    metodoPago: string,
    correoEnviado: bool,
    direccionEntrega: string,
    observaciones: string,
    fechaEmision: int,
    detalles: seq<LineaFactura>,
    total: int)

  function SubtotalLinea(d: LineaFactura): int { d.subtotal }

  /** The draft's total is the sum of its line subtotals. */
  predicate TotalCuadra(b: Borrador)
  {
    b.total == SumOf(b.detalles, SubtotalLinea)
  }

  /** Every line's subtotal is its quantity times its unit price. */
  predicate LineasCoherentes(b: Borrador)
  {
    forall i :: 0 <= i < |b.detalles| ==> b.detalles[i].subtotal == b.detalles[i].cantidad * b.detalles[i].precioUnitario
  }

  /** `form.detalles.find(d => d.medicamento_id === id)` found something. */
  predicate Existe(detalles: seq<LineaFactura>, id: int)
  {
    exists i :: 0 <= i < |detalles| && detalles[i].medicamentoId == id
  }

  /** The `map` of the merge branch: every line of that medicine gains one
      unit and is re-priced at the catalogue price. */
  function Incrementar(detalles: seq<LineaFactura>, med: MedicamentoCatalogo): (r: seq<LineaFactura>)
    ensures |r| == |detalles|
    ensures forall i :: 0 <= i < |r| ==> (r[i] ==
      if detalles[i].medicamentoId == med.id
      then detalles[i].(cantidad := detalles[i].cantidad + 1, subtotal := (detalles[i].cantidad + 1) * med.precioVenta)
      else detalles[i])
  {
    if detalles == [] then []
    else
      var d := detalles[0];
      [if d.medicamentoId == med.id then d.(cantidad := d.cantidad + 1, subtotal := (d.cantidad + 1) * med.precioVenta) else d]
      + Incrementar(detalles[1..], med)
  }

  /** `agregarMedicamento`: a medicine already in the draft gains one unit;
      a new one is appended with quantity 1 at its sale price. Either way
      the total becomes the sum of the subtotals. */
  function AgregarMedicamento(b: Borrador, med: MedicamentoCatalogo): (r: Borrador)
    ensures TotalCuadra(r)
    ensures r == b.(detalles := r.detalles, total := r.total)
    ensures Existe(b.detalles, med.id) ==> r.detalles == Incrementar(b.detalles, med)
    ensures !Existe(b.detalles, med.id) ==>
      r.detalles == b.detalles + [LineaFactura(med.id, med.nombre, 1, med.precioVenta, med.precioVenta)]
  {
    var nuevos :=
      if Existe(b.detalles, med.id) then Incrementar(b.detalles, med)
      else b.detalles + [LineaFactura(med.id, med.nombre, 1, med.precioVenta, med.precioVenta)];
    b.(detalles := nuevos, total := SumOf(nuevos, SubtotalLinea))
  }

  /** Adding a medicine that is in the draft once, at its current price,
      raises the total by exactly that price and keeps every line coherent;
      a new medicine does the same with a new line. */
  lemma AgregarSumaPrecio(b: Borrador, med: MedicamentoCatalogo)
    requires TotalCuadra(b) && LineasCoherentes(b)
    requires forall i :: 0 <= i < |b.detalles| && b.detalles[i].medicamentoId == med.id ==>
      b.detalles[i].precioUnitario == med.precioVenta
    requires forall i, j :: 0 <= i < j < |b.detalles| ==> b.detalles[i].medicamentoId != b.detalles[j].medicamentoId
    ensures AgregarMedicamento(b, med).total == b.total + med.precioVenta
    ensures LineasCoherentes(AgregarMedicamento(b, med))
  {
    if Existe(b.detalles, med.id) {
      var k :| 0 <= k < |b.detalles| && b.detalles[k].medicamentoId == med.id;
      AgregarExistente(b, med, k);
    } else {
      var nueva := LineaFactura(med.id, med.nombre, 1, med.precioVenta, med.precioVenta);
      assert AgregarMedicamento(b, med).detalles == b.detalles + [nueva];
      SumOfAppend(b.detalles, [nueva], SubtotalLinea);
      SumOfSingle(nueva, SubtotalLinea);
    }
  }

  /** The merge branch of `AgregarSumaPrecio`, for the line `k` of the medicine. */
  lemma AgregarExistente(b: Borrador, med: MedicamentoCatalogo, k: nat)
    requires TotalCuadra(b) && LineasCoherentes(b)
    requires k < |b.detalles| && b.detalles[k].medicamentoId == med.id && b.detalles[k].precioUnitario == med.precioVenta
    requires forall i, j :: 0 <= i < j < |b.detalles| ==> b.detalles[i].medicamentoId != b.detalles[j].medicamentoId
    ensures AgregarMedicamento(b, med).total == b.total + med.precioVenta
    ensures LineasCoherentes(AgregarMedicamento(b, med))
  {
    var d := b.detalles[k];
    var nueva := d.(cantidad := d.cantidad + 1, subtotal := (d.cantidad + 1) * med.precioVenta);
    assert Existe(b.detalles, med.id);
    var detalles := Incrementar(b.detalles, med);
    assert AgregarMedicamento(b, med) == b.(detalles := detalles, total := SumOf(detalles, SubtotalLinea));
    IncrementarUnaLinea(b.detalles, med, k, nueva);
    assert d.subtotal == d.cantidad * med.precioVenta;
    var r := b.(detalles := b.detalles[k := nueva], total := SumOf(detalles, SubtotalLinea));
    assert AgregarMedicamento(b, med) == r;
    assert nueva.subtotal == nueva.cantidad * nueva.precioUnitario;
    CoherenteTrasCambio(b, k, nueva, SumOf(detalles, SubtotalLinea));
  }

  /** Replacing one line by a coherent one keeps every line coherent. */
  lemma CoherenteTrasCambio(b: Borrador, k: nat, nueva: LineaFactura, total: int)
    requires k < |b.detalles| && LineasCoherentes(b)
    requires nueva.subtotal == nueva.cantidad * nueva.precioUnitario
    ensures LineasCoherentes(b.(detalles := b.detalles[k := nueva], total := total))
  {
  }

  /** One more unit of a line priced `precio` adds `precio` to the total. */
  lemma UnaUnidadMas(total: int, subtotal: int, cantidad: int, precio: int)
    requires subtotal == cantidad * precio
    ensures total - subtotal + (cantidad + 1) * precio == total + precio
  {
  }

  /** With distinct medicines, the merge touches only the line `k` of that
      medicine, which becomes `nueva`: one more unit at the catalogue price. */
  lemma IncrementarUnaLinea(detalles: seq<LineaFactura>, med: MedicamentoCatalogo, k: nat, nueva: LineaFactura)
    requires k < |detalles| && detalles[k].medicamentoId == med.id
    requires forall i, j :: 0 <= i < j < |detalles| ==> detalles[i].medicamentoId != detalles[j].medicamentoId
    requires nueva == detalles[k].(cantidad := detalles[k].cantidad + 1, subtotal := (detalles[k].cantidad + 1) * med.precioVenta)
    ensures Incrementar(detalles, med) == detalles[k := nueva]
    ensures detalles[k].subtotal == detalles[k].cantidad * med.precioVenta ==>
      SumOf(Incrementar(detalles, med), SubtotalLinea) == SumOf(detalles, SubtotalLinea) + med.precioVenta
  {
    var d := detalles[k];
    var r := Incrementar(detalles, med);
    forall i | 0 <= i < |detalles| ensures r[i] == detalles[k := nueva][i] {
      if i < k {
        assert detalles[i].medicamentoId != detalles[k].medicamentoId;
      } else if i > k {
        assert detalles[k].medicamentoId != detalles[i].medicamentoId;
      }
    }
    assert r == detalles[k := nueva];
    SumOfUpdate(detalles, k, nueva, SubtotalLinea);
    if d.subtotal == d.cantidad * med.precioVenta {
      UnaUnidadMas(SumOf(detalles, SubtotalLinea), d.subtotal, d.cantidad, med.precioVenta);
    }
  }

  /** `eliminarMedicamento(index)`: the line at `index` goes (an index out
      of range removes nothing) and the total is recomputed. */
  function EliminarMedicamento(b: Borrador, index: int): (r: Borrador)
    ensures TotalCuadra(r)
    ensures r == b.(detalles := r.detalles, total := r.total)
    ensures 0 <= index < |b.detalles| ==> r.detalles == b.detalles[..index] + b.detalles[index + 1..]
    ensures !(0 <= index < |b.detalles|) ==> r.detalles == b.detalles
  {
    var nuevos := if 0 <= index < |b.detalles| then b.detalles[..index] + b.detalles[index + 1..] else b.detalles;
    b.(detalles := nuevos, total := SumOf(nuevos, SubtotalLinea))
  }

  /** Removing a line lowers a consistent total by that line's subtotal. */
  lemma EliminarRestaSubtotal(b: Borrador, index: nat)
    requires TotalCuadra(b) && index < |b.detalles|
    ensures EliminarMedicamento(b, index).total == b.total - b.detalles[index].subtotal
    ensures |EliminarMedicamento(b, index).detalles| == |b.detalles| - 1
  {
    SumOfRemove(b.detalles, index, SubtotalLinea);
  }

  /** `actualizarCantidad(index, cantidad)`: the line at `index` takes the
      new quantity and is re-priced at its own unit price; the lines live in
      a copied array that is updated in place, and the total is recomputed.
      The page only offers existing indexes. */
  method ActualizarCantidad(b: Borrador, index: nat, cantidad: int) returns (r: Borrador)
    requires index < |b.detalles|
    ensures |r.detalles| == |b.detalles|
    ensures r.detalles[index] == b.detalles[index].(cantidad := cantidad, subtotal := cantidad * b.detalles[index].precioUnitario)
    ensures forall i :: 0 <= i < |b.detalles| && i != index ==> r.detalles[i] == b.detalles[i]
    ensures TotalCuadra(r)
    ensures r == b.(detalles := r.detalles, total := r.total)
    ensures TotalCuadra(b) ==> r.total == b.total - b.detalles[index].subtotal + cantidad * b.detalles[index].precioUnitario
    ensures LineasCoherentes(b) ==> LineasCoherentes(r)
  {
    var nuevos := new LineaFactura[|b.detalles|](i requires 0 <= i < |b.detalles| => b.detalles[i]);
    var d := nuevos[index];
    nuevos[index] := d.(cantidad := cantidad, subtotal := cantidad * d.precioUnitario);
    assert nuevos[..] == b.detalles[index := nuevos[index]];
    SumOfUpdate(b.detalles, index, nuevos[index], SubtotalLinea);
    r := b.(detalles := nuevos[..], total := SumOf(nuevos[..], SubtotalLinea));
  }

  // ---------------------------------------------------------------------
  // The draft total as the page adds it
  // ---------------------------------------------------------------------

  /** A line subtotal as the page holds it. The catalogue sends the sale
      price as a string, so a new line's subtotal is that string; a merged
      line's subtotal is a product, which JavaScript makes a number. */
  datatype JsValor = Numero(n: real) | Texto(s: string)

  /** `String(v)`; `fmt` is the engine's number-to-string conversion. */
  function JsTexto(v: JsValor, fmt: real -> string): string
  {
    match v
    case Numero(n) => fmt(n)
    case Texto(s) => s
  }

  /** JavaScript `a + b`: concatenation as soon as one side is a string,
      addition of numbers otherwise. */
  function JsMas(a: JsValor, b: JsValor, fmt: real -> string): JsValor
  {
    if a.Numero? && b.Numero? then Numero(a.n + b.n)
    else Texto(JsTexto(a, fmt) + JsTexto(b, fmt))
  }

  /** `detalles.reduce((acc, d) => acc + d.subtotal, 0)` over the subtotals,
      exactly as the page writes it. */
  function TotalComoEscrito(subtotales: seq<JsValor>, fmt: real -> string): JsValor
  {
    if subtotales == [] then Numero(0.0)
    else JsMas(TotalComoEscrito(subtotales[..|subtotales| - 1], fmt), subtotales[|subtotales| - 1], fmt)
  }

  /** The subtotals written one after another. */
  function Juntar(subtotales: seq<JsValor>, fmt: real -> string): string
  {
    if subtotales == [] then ""
    else Juntar(subtotales[..|subtotales| - 1], fmt) + JsTexto(subtotales[|subtotales| - 1], fmt)
  }

  /** The subtotals of the corrected draft, as numbers. */
  function SubtotalesNumericos(detalles: seq<LineaFactura>): (r: seq<JsValor>)
    ensures |r| == |detalles|
    ensures forall i :: 0 <= i < |r| ==> r[i] == Numero(detalles[i].subtotal as real)
  {
    seq(|detalles|, i requires 0 <= i < |detalles| => Numero(detalles[i].subtotal as real))
  }

  /** When every subtotal is a number, the page's total is the sum the
      corrected draft keeps. */
  lemma {:induction false} TotalComoEscritoNumerico(detalles: seq<LineaFactura>, fmt: real -> string)
    ensures TotalComoEscrito(SubtotalesNumericos(detalles), fmt) == Numero(SumOf(detalles, SubtotalLinea) as real)
  {
    if detalles != [] {
      var n := |detalles| - 1;
      TotalComoEscritoNumerico(detalles[..n], fmt);
      assert SubtotalesNumericos(detalles)[..n] == SubtotalesNumericos(detalles[..n]);
    }
  }

  /** The total turns into a string exactly when some subtotal is one. */
  lemma {:induction false} TotalTextoSiHayTexto(subtotales: seq<JsValor>, fmt: real -> string)
    ensures TotalComoEscrito(subtotales, fmt).Texto? <==> exists i :: 0 <= i < |subtotales| && subtotales[i].Texto?
  {
    if subtotales != [] {
      var n := |subtotales| - 1;
      var init := subtotales[..n];
      TotalTextoSiHayTexto(init, fmt);
      if exists i :: 0 <= i < |init| && init[i].Texto? {
        var i :| 0 <= i < |init| && init[i].Texto?;
        assert subtotales[i].Texto?;
      }
      if exists i :: 0 <= i < |subtotales| && subtotales[i].Texto? {
        var i :| 0 <= i < |subtotales| && subtotales[i].Texto?;
        if i < n {
          assert init[i].Texto?;
        }
      }
    }
  }

  /** Once the running total is a string, every later subtotal is glued
      onto it as text instead of being added. */
  lemma {:induction false} ConcatenaTrasTexto(subtotales: seq<JsValor>, k: nat, fmt: real -> string)
    requires k <= |subtotales| && TotalComoEscrito(subtotales[..k], fmt).Texto?
    ensures TotalComoEscrito(subtotales, fmt) == Texto(TotalComoEscrito(subtotales[..k], fmt).s + Juntar(subtotales[k..], fmt))
    decreases |subtotales|
  {
    if |subtotales| == k {
      assert subtotales[..k] == subtotales;
      assert subtotales[k..] == [];
    } else {
      var init := subtotales[..|subtotales| - 1];
      assert init[..k] == subtotales[..k];
      ConcatenaTrasTexto(init, k, fmt);
      UnaMasTrasTexto(subtotales, k, TotalComoEscrito(subtotales[..k], fmt).s, fmt);
    }
  }

  /** The step of `ConcatenaTrasTexto`: the last subtotal is glued on. */
  lemma UnaMasTrasTexto(subtotales: seq<JsValor>, k: nat, t: string, fmt: real -> string)
    requires k < |subtotales|
    requires TotalComoEscrito(subtotales[..|subtotales| - 1], fmt) == Texto(t + Juntar(subtotales[..|subtotales| - 1][k..], fmt))
    ensures TotalComoEscrito(subtotales, fmt) == Texto(t + Juntar(subtotales[k..], fmt))
  {
    var n := |subtotales| - 1;
    var previo := Juntar(subtotales[..n][k..], fmt);
    var ultimo := JsTexto(subtotales[n], fmt);
    var cola := subtotales[k..];
    assert cola[..|cola| - 1] == subtotales[..n][k..];
    assert Juntar(cola, fmt) == previo + ultimo;
    ConcatAsoc(t, previo, ultimo);
    var antes := TotalComoEscrito(subtotales[..n], fmt);
    assert TotalComoEscrito(subtotales, fmt) == JsMas(antes, subtotales[n], fmt);
  }

  lemma ConcatAsoc(a: string, b: string, c: string)
    ensures (a + b) + c == a + (b + c)
  {
  }

  /** Two new lines priced "12.50" and "3.00", which sum to 15.50: the
      page's total is the string "012.503.00", which no longer reads as a
      number. A single new line "12.50" gives "012.50", which still reads
      as 12.50. */
  lemma DosLineasNuevasConcatenan(fmt: real -> string)
    requires fmt(0.0) == "0"
    ensures TotalComoEscrito([Texto("12.50")], fmt) == Texto("012.50")
    ensures ParseDecimal("012.50") == Some(12.5)
    ensures TotalComoEscrito([Texto("12.50"), Texto("3.00")], fmt) == Texto("012.503.00")
    ensures ParseDecimal("012.503.00").None?
    ensures ParseDecimal("12.50") == Some(12.5) && ParseDecimal("3.00") == Some(3.0)
  {
    var uno := [Texto("12.50")];
    var dos := [Texto("12.50"), Texto("3.00")];
    assert uno[..0] == [];
    assert dos[..1] == uno;
    assert TotalComoEscrito(uno, fmt) == Texto("012.50");
    assert "012.50" + "3.00" == "012.503.00";
    LecturaConCero();
    LecturaConcatenada();
    LecturasDeLosPrecios();
  }

  lemma LecturaConCero()
    ensures ParseDecimal("012.50") == Some(12.5)
  {
    var s := "012.50";
    assert s[0] != '.' && s[1] != '.' && s[2] != '.' && s[3] == '.';
    assert IndexOf(s, '.') == Some(3);
    assert !AllDigits(s);
    assert s[..3] == "012" && s[4..] == "50";
    DigitsValueConcreto();
    CentimosConcretos(12, 50, 12.5);
  }

  lemma LecturaConcatenada()
    ensures ParseDecimal("012.503.00").None?
  {
    var s := "012.503.00";
    assert s[0] != '.' && s[1] != '.' && s[2] != '.' && s[3] == '.';
    assert IndexOf(s, '.') == Some(3);
    assert !AllDigits(s);
    assert s[4..][3] == '.';
    assert !AllDigits(s[4..]);
  }

  lemma LecturasDeLosPrecios()
    ensures ParseDecimal("12.50") == Some(12.5) && ParseDecimal("3.00") == Some(3.0)
  {
    LecturaDoce();
    LecturaTres();
  }

  lemma LecturaDoce()
    ensures ParseDecimal("12.50") == Some(12.5)
  {
    var s := "12.50";
    assert s[0] != '.' && s[1] != '.' && s[2] == '.';
    assert IndexOf(s, '.') == Some(2);
    assert !AllDigits(s);
    assert s[..2] == "12" && s[3..] == "50";
    DigitsValueConcreto();
    CentimosConcretos(12, 50, 12.5);
  }

  lemma LecturaTres()
    ensures ParseDecimal("3.00") == Some(3.0)
  {
    var t := "3.00";
    assert t[0] != '.' && t[1] == '.';
    assert IndexOf(t, '.') == Some(1);
    assert !AllDigits(t);
    assert t[..1] == "3" && t[2..] == "00";
    DigitsValueConcreto();
    CentimosConcretos(3, 0, 3.0);
  }

  /** `entero.cc` with two decimals is `entero + cc / 100`. */
  lemma CentimosConcretos(entero: nat, centimos: nat, v: real)
    requires v == entero as real + centimos as real / 100.0
    ensures entero as real + centimos as real / Pow10(2) as real == v
  {
    assert Pow10(2) == 100;
  }

  lemma DigitsValueConcreto()
    ensures AllDigits("012") && DigitsValue("012") == 12
    ensures AllDigits("12") && DigitsValue("12") == 12
    ensures AllDigits("50") && DigitsValue("50") == 50
    ensures AllDigits("3") && DigitsValue("3") == 3
    ensures AllDigits("00") && DigitsValue("00") == 0
  {
    assert "012"[..2] == "01" && "01"[..1] == "0" && "0"[..0] == "";
    assert "12"[..1] == "1" && "1"[..0] == "";
    assert "50"[..1] == "5" && "5"[..0] == "";
    assert "3"[..0] == "";
    assert "00"[..1] == "0";
  }

  // ---------------------------------------------------------------------
  // Sending the draft
  // ---------------------------------------------------------------------

  datatype DetalleEnvio = DetalleEnvio(medicamento: int, cantidad: int, precioUnitario: int, subtotal: int)

  datatype FacturaPayload = FacturaPayload(
    cliente: string,
    empleado: Option<string>,
    metodoPago: string,
    correoEnviado: bool,
    direccionEntrega: string,
    observaciones: string,
    fechaEmision: int,
    detalles: seq<DetalleEnvio>,
    total: int)

  /** PUT to the selected invoice, or POST a new one. */
  datatype Envio = Put(id: int, payload: FacturaPayload) | Post(payload: FacturaPayload)

  datatype SaveError = SinCliente | SinDetalles

  datatype SaveResult = Enviado(envio: Envio) | Rechazado(error: SaveError)

  function DetalleEnvioDe(d: LineaFactura): DetalleEnvio
  {
    DetalleEnvio(d.medicamentoId, d.cantidad, d.precioUnitario, d.subtotal)
  }

  function DetallesEnvio(detalles: seq<LineaFactura>): (r: seq<DetalleEnvio>)
    ensures |r| == |detalles|
    ensures forall i :: 0 <= i < |r| ==> r[i] == DetalleEnvioDe(detalles[i])
  {
    if detalles == [] then [] else [DetalleEnvioDe(detalles[0])] + DetallesEnvio(detalles[1..])
  }

  function SubtotalEnvio(d: DetalleEnvio): int { d.subtotal }

  /** `saveFactura`: refused without a client or without lines; otherwise
      one detail per line, the draft's own total, and an empty employee sent
      as null. `selected` is the invoice being edited, if any. */
  function SaveFactura(b: Borrador, selected: Option<int>): (r: SaveResult)
    ensures r.Rechazado? <==> b.cliente == "" || b.detalles == []
    ensures b.cliente == "" ==> r == Rechazado(SinCliente)
    ensures r.Enviado? ==> (r.envio.Put? <==> selected.Some?)
    ensures r.Enviado? ==> r.envio.payload.total == b.total && r.envio.payload.cliente == b.cliente
    ensures r.Enviado? ==> r.envio.payload.detalles == DetallesEnvio(b.detalles)
    ensures r.Enviado? ==> r.envio.payload.empleado == (if b.empleado == "" then None else Some(b.empleado))
  {
    if b.cliente == "" then Rechazado(SinCliente)
    else if |b.detalles| == 0 then Rechazado(SinDetalles)
    else
      var payload := FacturaPayload(b.cliente, if b.empleado == "" then None else Some(b.empleado), b.metodoPago,
        b.correoEnviado, b.direccionEntrega, b.observaciones, b.fechaEmision, DetallesEnvio(b.detalles), b.total);
      if selected.Some? then Enviado(Put(selected.value, payload)) else Enviado(Post(payload))
  }

  /** A draft whose total is consistent sends a total equal to the sum of
      the subtotals it sends. */
  lemma SaveFacturaTotal(b: Borrador, selected: Option<int>)
    requires TotalCuadra(b)
    requires SaveFactura(b, selected).Enviado?
    ensures var p := SaveFactura(b, selected).envio.payload;
      p.total == SumOf(p.detalles, SubtotalEnvio)
  {
    SumOfCongruent(b.detalles, SubtotalLinea, DetallesEnvio(b.detalles), SubtotalEnvio);
  }

  // ---------------------------------------------------------------------
  // The invoice list
  // ---------------------------------------------------------------------

  /** An invoice as listed: the client's name (if the API sent one), the
      client id, the issue date and the total. */
  datatype Factura = Factura(id: int, clienteNombre: Option<string>, cliente: Option<nat>, fechaEmision: int, total: int)

  /** `f.cliente_nombre || String(f.cliente || "")`. */
  function NombreCliente(f: Factura): string
  {
    if f.clienteNombre.Some? && f.clienteNombre.value != "" then f.clienteNombre.value
    else if f.cliente.Some? && f.cliente.value != 0 then NatToString(f.cliente.value)
    else ""
  }

  /** The list filters: search text, first and last date, minimum and
      maximum total; an empty string is an inactive filter. A total bound
      that is not a number compares false against every invoice. */
  datatype FiltrosFactura = FiltrosFactura(search: string, fechaInicio: Option<int>, fechaFin: Option<int>, minTotal: string, maxTotal: string)

  predicate TotalAlMenos(f: Factura, bound: string)
  {
    ParseDecimal(bound).Some? && f.total as real >= ParseDecimal(bound).value * 100.0
  }

  predicate TotalAlMucho(f: Factura, bound: string)
  {
    ParseDecimal(bound).Some? && f.total as real <= ParseDecimal(bound).value * 100.0
  }

  function PorCliente(search: string): Factura -> bool { (f: Factura) => ContainsCI(NombreCliente(f), search) }

  function Desde(d: int): Factura -> bool { (f: Factura) => f.fechaEmision >= d }

  function Hasta(d: int): Factura -> bool { (f: Factura) => f.fechaEmision <= d }

  function MinTotal(bound: string): Factura -> bool { (f: Factura) => TotalAlMenos(f, bound) }

  function MaxTotal(bound: string): Factura -> bool { (f: Factura) => TotalAlMucho(f, bound) }

  /** The chain of `filter`s, before sorting. */
  function FiltrarFacturas(facturas: seq<Factura>, q: FiltrosFactura): seq<Factura>
  {
    var s1 := FiltrarSi(facturas, q.search != "", PorCliente(q.search));
    var s2 := FiltrarOpt(s1, q.fechaInicio, Desde);
    var s3 := FiltrarOpt(s2, q.fechaFin, Hasta);
    var s4 := FiltrarSi(s3, q.minTotal != "", MinTotal(q.minTotal));
    FiltrarSi(s4, q.maxTotal != "", MaxTotal(q.maxTotal))
  }

  /** The search and date filters. */
  predicate CumpleBusquedaFechas(f: Factura, q: FiltrosFactura)
  {
    (q.search != "" ==> ContainsCI(NombreCliente(f), q.search))
    && (q.fechaInicio.Some? ==> f.fechaEmision >= q.fechaInicio.value)
    && (q.fechaFin.Some? ==> f.fechaEmision <= q.fechaFin.value)
  }

  /** The two total bounds. */
  predicate CumpleTotales(f: Factura, q: FiltrosFactura)
  {
    (q.minTotal != "" ==> TotalAlMenos(f, q.minTotal)) && (q.maxTotal != "" ==> TotalAlMucho(f, q.maxTotal))
  }

  /** Every active filter at once. */
  predicate CumpleFiltros(f: Factura, q: FiltrosFactura)
  {
    CumpleBusquedaFechas(f, q) && CumpleTotales(f, q)
  }

  function EnBusquedaFechas(q: FiltrosFactura): Factura -> bool { (f: Factura) => CumpleBusquedaFechas(f, q) }

  function EnTotales(q: FiltrosFactura): Factura -> bool { (f: Factura) => CumpleTotales(f, q) }

  function EnFiltros(q: FiltrosFactura): Factura -> bool { (f: Factura) => CumpleFiltros(f, q) }

  lemma BusquedaFechasExacta(facturas: seq<Factura>, q: FiltrosFactura)
    ensures FiltrarOpt(FiltrarOpt(FiltrarSi(facturas, q.search != "", PorCliente(q.search)), q.fechaInicio, Desde),
                       q.fechaFin, Hasta) == Filter(facturas, EnBusquedaFechas(q))
  {
    var c1 := (f: Factura) => q.search != "" ==> ContainsCI(NombreCliente(f), q.search);
    var c2 := (f: Factura) => (q.search != "" ==> ContainsCI(NombreCliente(f), q.search))
                              && (q.fechaInicio.Some? ==> f.fechaEmision >= q.fechaInicio.value);
    var s1 := FiltrarSi(facturas, q.search != "", PorCliente(q.search));
    FiltrarSiEs(facturas, q.search != "", PorCliente(q.search), c1);
    FiltrarOptPaso(facturas, s1, c1, q.fechaInicio, Desde, c2);
    FiltrarOptPaso(facturas, FiltrarOpt(s1, q.fechaInicio, Desde), c2, q.fechaFin, Hasta, EnBusquedaFechas(q));
  }

  lemma TotalesExactos(s: seq<Factura>, q: FiltrosFactura)
    ensures FiltrarSi(FiltrarSi(s, q.minTotal != "", MinTotal(q.minTotal)), q.maxTotal != "", MaxTotal(q.maxTotal))
            == Filter(s, EnTotales(q))
  {
    var c1 := (f: Factura) => q.minTotal != "" ==> TotalAlMenos(f, q.minTotal);
    FiltrarSiEs(s, q.minTotal != "", MinTotal(q.minTotal), c1);
    FiltrarSiPaso(s, FiltrarSi(s, q.minTotal != "", MinTotal(q.minTotal)), c1, q.maxTotal != "", MaxTotal(q.maxTotal),
      EnTotales(q));
  }

  /** The five filters in a row are one filter by every active condition:
      the invoices that pass, each as often as in the list, in list order. */
  lemma FiltrarFacturasExacto(facturas: seq<Factura>, q: FiltrosFactura)
    ensures FiltrarFacturas(facturas, q) == Filter(facturas, EnFiltros(q))
    ensures forall f :: f in FiltrarFacturas(facturas, q) <==> f in facturas && CumpleFiltros(f, q)
  {
    BusquedaFechasExacta(facturas, q);
    var s3 := Filter(facturas, EnBusquedaFechas(q));
    TotalesExactos(s3, q);
    FilterCompose(facturas, EnBusquedaFechas(q), EnTotales(q), EnFiltros(q));
    FilterMembers(facturas, EnFiltros(q));
  }

  /** Newest first. */
  predicate OrdenadoDesc(s: seq<Factura>)
  {
    forall i, j :: 0 <= i < j < |s| ==> s[i].fechaEmision >= s[j].fechaEmision
  }

  function MismaFecha(d: int): Factura -> bool { (f: Factura) => f.fechaEmision == d }

  /** The invoices of each date appear in `s` in the same order, and as
      many times, as in `t`: a sort by date that is stable. */
  ghost predicate MismoOrdenPorFecha(s: seq<Factura>, t: seq<Factura>)
  {
    forall d :: Filter(s, MismaFecha(d)) == Filter(t, MismaFecha(d))
  }

  /** Swapping two neighbours of different dates keeps every date's
      invoices in their order. */
  lemma IntercambioEstable(s: seq<Factura>, j: nat)
    requires 0 < j < |s| && s[j - 1].fechaEmision != s[j].fechaEmision
    ensures MismoOrdenPorFecha(s[j - 1 := s[j]][j := s[j - 1]], s)
  {
    var t := s[j - 1 := s[j]][j := s[j - 1]];
    assert s == s[..j - 1] + [s[j - 1], s[j]] + s[j + 1..];
    assert t == s[..j - 1] + [s[j], s[j - 1]] + s[j + 1..];
    forall d ensures Filter(t, MismaFecha(d)) == Filter(s, MismaFecha(d)) {
      var p := MismaFecha(d);
      FilterAppend(s[..j - 1] + [s[j - 1], s[j]], s[j + 1..], p);
      FilterAppend(s[..j - 1], [s[j - 1], s[j]], p);
      FilterAppend(s[..j - 1] + [s[j], s[j - 1]], s[j + 1..], p);
      FilterAppend(s[..j - 1], [s[j], s[j - 1]], p);
      assert [s[j - 1], s[j]] == [s[j - 1]] + [s[j]];
      assert [s[j], s[j - 1]] == [s[j]] + [s[j - 1]];
      FilterAppend([s[j - 1]], [s[j]], p);
      FilterAppend([s[j]], [s[j - 1]], p);
    }
  }

  /** `out.sort((a, b) => fecha(b) - fecha(a))`, in place: an insertion
      sort that moves each invoice left past older ones. Like the engine's
      sort, it is stable. */
  method OrdenarPorFechaDesc(a: array<Factura>)
    modifies a
    ensures OrdenadoDesc(a[..])
    ensures multiset(a[..]) == multiset(old(a[..]))
    ensures MismoOrdenPorFecha(a[..], old(a[..]))
  {
    var i := 0;
    while i < a.Length
      invariant 0 <= i <= a.Length
      invariant OrdenadoDesc(a[..i])
      invariant multiset(a[..]) == multiset(old(a[..]))
      invariant MismoOrdenPorFecha(a[..], old(a[..]))
    {
      Insertar(a, i);
      i := i + 1;
    }
  }

  /** One pass of the sort: `a[i]` moves left past every older invoice of
      the sorted prefix `a[..i]`. */
  method Insertar(a: array<Factura>, i: nat)
    requires i < a.Length && OrdenadoDesc(a[..i])
    modifies a
    ensures OrdenadoDesc(a[..i + 1])
    ensures multiset(a[..]) == multiset(old(a[..]))
    ensures MismoOrdenPorFecha(a[..], old(a[..]))
  {
    var j := i;
    while j > 0 && a[j - 1].fechaEmision < a[j].fechaEmision
      invariant 0 <= j <= i
      invariant forall k, l :: 0 <= k < l <= i && k != j && l != j ==> a[k].fechaEmision >= a[l].fechaEmision
      invariant forall l :: j < l <= i ==> a[j].fechaEmision > a[l].fechaEmision
      invariant multiset(a[..]) == multiset(old(a[..]))
      invariant MismoOrdenPorFecha(a[..], old(a[..]))
    {
      Intercambiar(a, j);
      j := j - 1;
    }
  }

  /** Swaps `a[j - 1]` and `a[j]`, invoices of different dates. */
  method Intercambiar(a: array<Factura>, j: nat)
    requires 0 < j < a.Length && a[j - 1].fechaEmision != a[j].fechaEmision
    modifies a
    ensures a[..] == old(a[..])[j - 1 := old(a[j])][j := old(a[j - 1])]
    ensures multiset(a[..]) == multiset(old(a[..]))
    ensures MismoOrdenPorFecha(a[..], old(a[..]))
  {
    a[j - 1], a[j] := a[j], a[j - 1];
    IntercambioEstable(old(a[..]), j);
  }

  /** `facturasFiltradas`: exactly the invoices that pass every active
      filter, newest first, invoices of the same date in list order. */
  method FacturasFiltradas(facturas: seq<Factura>, q: FiltrosFactura) returns (r: seq<Factura>)
    ensures OrdenadoDesc(r)
    ensures multiset(r) == multiset(FiltrarFacturas(facturas, q))
    ensures MismoOrdenPorFecha(r, FiltrarFacturas(facturas, q))
    ensures forall f :: f in r <==> f in facturas && CumpleFiltros(f, q)
  {
    var out := FiltrarFacturas(facturas, q);
    var a := new Factura[|out|](i requires 0 <= i < |out| => out[i]);
    assert a[..] == out;
    OrdenarPorFechaDesc(a);
    r := a[..];
    FiltrarFacturasExacto(facturas, q);
    forall f ensures f in r <==> f in out {
      assert f in r <==> f in multiset(r);
      assert f in out <==> f in multiset(out);
    }
  }

  /** The page shown: the sorted list, `totalPages = max(1, ceil(n /
      pageSize))` over its length, and the slice of page `page`. */
  method PaginaFacturas(facturas: seq<Factura>, q: FiltrosFactura, page: nat, pageSize: nat)
    returns (filtradas: seq<Factura>, totalPages: nat, paged: seq<Factura>)
    requires page >= 1 && pageSize > 0
    ensures OrdenadoDesc(filtradas) && MismoOrdenPorFecha(filtradas, FiltrarFacturas(facturas, q))
    ensures multiset(filtradas) == multiset(FiltrarFacturas(facturas, q))
    ensures totalPages == TotalPages(|FiltrarFacturas(facturas, q)|, pageSize) && totalPages >= 1
    ensures paged == PageSlice(filtradas, page, pageSize)
    ensures |paged| <= pageSize
    ensures forall f :: f in paged ==> f in facturas && CumpleFiltros(f, q)
  {
    filtradas := FacturasFiltradas(facturas, q);
    assert |filtradas| == |multiset(filtradas)|;
    totalPages := TotalPages(|filtradas|, pageSize);
    paged := PageSlice(filtradas, page, pageSize);
    forall f | f in paged ensures f in filtradas {
      var i :| 0 <= i < |paged| && paged[i] == f;
    }
  }
}
