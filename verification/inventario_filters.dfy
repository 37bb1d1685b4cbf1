/** The query-parameter filters of the inventory API. Each helper narrows a
    table step by step, one `filter` per parameter that is present; the
    model keeps that chain and proves it equal to a single clause-by-clause
    condition on the row. Parameters arrive as strings: a value that must be
    an id or a date and does not parse makes the database layer raise, and
    is modelled as an error; an unparseable price or stock bound is skipped.
    Dates are day ordinals written in decimal. */
module InventarioFilters {
  import opened Seqs
  import opened Text
  import opened InventarioModels

  type Params = map<string, string>

  datatype FilterError = BadParam(name: string)

  datatype Result<T> = Ok(value: T) | Err(error: FilterError)

  /** The value of a parameter, or the empty string when it is absent. */
  function Valor(params: Params, k: string): string
  {
    if k in params then params[k] else ""
  }

  /** `if params.get(k):` — present and not empty. */
  predicate Given(params: Params, k: string)
  {
    k in params && params[k] != ""
  }

  /** `str(v).lower() in ('false', '0')`. */
  predicate EsFalso(v: string)
  {
    Lower(v) == "false" || Lower(v) == "0"
  }

  /** `str(v).lower() in ('true', '1')`. */
  predicate EsVerdadero(v: string)
  {
    Lower(v) == "true" || Lower(v) == "1"
  }

  /** A parameter compared against an integer column (an id or a date): not
      given, given and parsed, or given and rejected. */
  function EnteroParam(params: Params, k: string): (r: Result<Option<int>>)
    ensures r == Ok(None) <==> !Given(params, k)
    ensures r.Err? <==> Given(params, k) && ParseInt(params[k]).None?
    ensures r.Err? ==> r.error == BadParam(k)
    ensures r.Ok? && r.value.Some? ==> ParseInt(params[k]) == Some(r.value.value)
  {
    if !Given(params, k) then Ok(None)
    else match ParseInt(params[k])
      case Some(n) => Ok(Some(n))
      case None => Err(BadParam(k))
  }

  predicate Mal(params: Params, k: string)
  {
    Given(params, k) && ParseInt(params[k]).None?
  }

  /** A price bound: `float(v)`, skipped when it does not parse. */
  function DecimalParam(params: Params, k: string): (r: Option<real>)
    ensures r.Some? <==> Given(params, k) && ParseDecimal(params[k]).Some?
  {
    if Given(params, k) then ParseDecimal(params[k]) else None
  }

  /** A stock bound: `int(v)`, skipped when it does not parse. */
  function IntParam(params: Params, k: string): (r: Option<int>)
    ensures r.Some? <==> Given(params, k) && ParseInt(params[k]).Some?
  {
    if Given(params, k) then ParseInt(params[k]) else None
  }

  // ---------------------------------------------------------------------
  // Medicines
  // ---------------------------------------------------------------------

  /** `campo__icontains=t` on a nullable column: a null never matches. */
  predicate OptContiene(campo: Option<string>, t: string)
  {
    campo.Some? && ContainsCI(campo.value, t)
  }

  function Busqueda(q: string): Medicamento -> bool
  {
    (m: Medicamento) => ContainsCI(m.nombre, q) || OptContiene(m.descripcion, q) || OptContiene(m.codigoBarra, q)
      || OptContiene(m.proveedor, q) || OptContiene(m.lote, q)
  }

  function NombreContiene(t: string): Medicamento -> bool { (m: Medicamento) => ContainsCI(m.nombre, t) }

  function CategoriaEs(id: int): Medicamento -> bool { (m: Medicamento) => m.categoria.Some? && m.categoria.value == id }

  function DrogueriaEs(id: int): Medicamento -> bool { (m: Medicamento) => m.drogueria.Some? && m.drogueria.value == id }

  function EstadoEs(activo: bool): Medicamento -> bool { (m: Medicamento) => m.estado == activo }

  /** Prices are stored in cents and the bound is given in currency units. */
  function PrecioDesde(v: real): Medicamento -> bool { (m: Medicamento) => m.precioVenta as real >= v * 100.0 }

  function PrecioHasta(v: real): Medicamento -> bool { (m: Medicamento) => m.precioVenta as real <= v * 100.0 }

  function StockDesde(n: int): Medicamento -> bool { (m: Medicamento) => m.stockActual >= n }

  function StockHasta(n: int): Medicamento -> bool { (m: Medicamento) => m.stockActual <= n }

  function DisponibleEs(si: bool): Medicamento -> bool
  {
    (m: Medicamento) => if si then m.stockActual > m.stockReservado else m.stockActual <= m.stockReservado
  }

  function ProveedorContiene(t: string): Medicamento -> bool { (m: Medicamento) => OptContiene(m.proveedor, t) }

  function LoteContiene(t: string): Medicamento -> bool { (m: Medicamento) => OptContiene(m.lote, t) }

  function VencidoSegun(si: bool, today: int): Medicamento -> bool
  {
    (m: Medicamento) => if si then m.fechaVencimiento.Some? && m.fechaVencimiento.value < today
         else m.fechaVencimiento.None? || m.fechaVencimiento.value >= today
  }

  /** Date comparisons against a null expiry are false. */
  function VenceDesde(d: int): Medicamento -> bool { (m: Medicamento) => m.fechaVencimiento.Some? && m.fechaVencimiento.value >= d }

  function VenceHasta(d: int): Medicamento -> bool { (m: Medicamento) => m.fechaVencimiento.Some? && m.fechaVencimiento.value <= d }

  /** The general search (`q`, over five text columns) and, only without
      `q`, the name search. */
  function MedBusqueda(s: seq<Medicamento>, params: Params): seq<Medicamento>
  {
    var q := Given(params, "q");
    var s1 := FiltrarSi(s, q, Busqueda(Valor(params, "q")));
    FiltrarSi(s1, Given(params, "nombre") && !q, NombreContiene(Valor(params, "nombre")))
  }

  /** Category and branch ids; an id that is not an integer is an error. */
  function MedIds(s: seq<Medicamento>, params: Params): (r: Result<seq<Medicamento>>)
    ensures r.Err? <==> Mal(params, "categoria") || Mal(params, "drogueria")
    ensures r.Err? ==> r.error == (if Mal(params, "categoria") then BadParam("categoria") else BadParam("drogueria"))
  {
    match EnteroParam(params, "categoria")
    case Err(e) => Err(e)
    case Ok(categoria) =>
      match EnteroParam(params, "drogueria")
      case Err(e) => Err(e)
      case Ok(drogueria) => Ok(FiltrarOpt(FiltrarOpt(s, categoria, CategoriaEs), drogueria, DrogueriaEs))
  }

  function MedEstado(s: seq<Medicamento>, params: Params): seq<Medicamento>
  {
    FiltrarSi(s, "estado" in params, EstadoEs(!EsFalso(Valor(params, "estado"))))
  }

  function MedPrecio(s: seq<Medicamento>, params: Params): seq<Medicamento>
  {
    FiltrarOpt(FiltrarOpt(s, DecimalParam(params, "precio_min"), PrecioDesde), DecimalParam(params, "precio_max"), PrecioHasta)
  }

  function MedStock(s: seq<Medicamento>, params: Params): seq<Medicamento>
  {
    var s1 := FiltrarOpt(s, IntParam(params, "stock_min"), StockDesde);
    var s2 := FiltrarOpt(s1, IntParam(params, "stock_max"), StockHasta);
    FiltrarSi(s2, "disponible" in params, DisponibleEs(EsVerdadero(Valor(params, "disponible"))))
  }

  function MedProveedorLote(s: seq<Medicamento>, params: Params): seq<Medicamento>
  {
    var s1 := FiltrarSi(s, Given(params, "proveedor"), ProveedorContiene(Valor(params, "proveedor")));
    FiltrarSi(s1, Given(params, "lote"), LoteContiene(Valor(params, "lote")))
  }

  /** Expiry: the `vencido` switch, then the two date bounds. */
  function MedVencimiento(s: seq<Medicamento>, params: Params, today: int): (r: Result<seq<Medicamento>>)
    ensures r.Err? <==> Mal(params, "fecha_venc_from") || Mal(params, "fecha_venc_to")
  {
    var s1 := FiltrarSi(s, "vencido" in params, VencidoSegun(EsVerdadero(Valor(params, "vencido")), today));
    match EnteroParam(params, "fecha_venc_from")
    case Err(e) => Err(e)
    case Ok(desde) =>
      match EnteroParam(params, "fecha_venc_to")
      case Err(e) => Err(e)
      case Ok(hasta) => Ok(FiltrarOpt(FiltrarOpt(s1, desde, VenceDesde), hasta, VenceHasta))
  }

  /** `apply_medicamento_filters`, with `today` for the server's date. */
  function ApplyMedicamentoFilters(qs: seq<Medicamento>, params: Params, today: int): (r: Result<seq<Medicamento>>)
    ensures r.Err? <==> (Mal(params, "categoria") || Mal(params, "drogueria")
      || Mal(params, "fecha_venc_from") || Mal(params, "fecha_venc_to"))
    ensures r.Err? && Mal(params, "categoria") ==> r.error == BadParam("categoria")
  {
    match MedIds(MedBusqueda(qs, params), params)
    case Err(e) => Err(e)
    case Ok(s) => MedVencimiento(MedProveedorLote(MedStock(MedPrecio(MedEstado(s, params), params), params), params), params, today)
  }

  /** The search clause: `q` matches any of five text columns and, when
      given, makes `nombre` irrelevant. */
  predicate CumpleBusqueda(m: Medicamento, params: Params)
  {
    if Given(params, "q") then
      var q := params["q"];
      ContainsCI(m.nombre, q) || OptContiene(m.descripcion, q) || OptContiene(m.codigoBarra, q)
      || OptContiene(m.proveedor, q) || OptContiene(m.lote, q)
    else Given(params, "nombre") ==> ContainsCI(m.nombre, params["nombre"])
  }

  predicate CumpleIds(m: Medicamento, params: Params)
  {
    (Given(params, "categoria") && ParseInt(params["categoria"]).Some? ==>
      m.categoria.Some? && m.categoria.value == ParseInt(params["categoria"]).value)
    && (Given(params, "drogueria") && ParseInt(params["drogueria"]).Some? ==>
      m.drogueria.Some? && m.drogueria.value == ParseInt(params["drogueria"]).value)
  }

  /** `estado` present: "false"/"0" selects inactive rows, anything else active ones. */
  predicate CumpleEstado(m: Medicamento, params: Params)
  {
    "estado" in params ==> (m.estado <==> !EsFalso(params["estado"]))
  }

  /** Inclusive price bounds; a bound that does not parse constrains nothing. */
  predicate CumplePrecio(m: Medicamento, params: Params)
  {
    (Given(params, "precio_min") && ParseDecimal(params["precio_min"]).Some? ==>
      m.precioVenta as real >= ParseDecimal(params["precio_min"]).value * 100.0)
    && (Given(params, "precio_max") && ParseDecimal(params["precio_max"]).Some? ==>
      m.precioVenta as real <= ParseDecimal(params["precio_max"]).value * 100.0)
  }

  /** Inclusive stock bounds, skipped when they do not parse; `disponible`
      present: "true"/"1" keeps rows with unreserved stock, anything else
      keeps rows without. */
  predicate CumpleStock(m: Medicamento, params: Params)
  {
    (Given(params, "stock_min") && ParseInt(params["stock_min"]).Some? ==>
      m.stockActual >= ParseInt(params["stock_min"]).value)
    && (Given(params, "stock_max") && ParseInt(params["stock_max"]).Some? ==>
      m.stockActual <= ParseInt(params["stock_max"]).value)
    && ("disponible" in params ==>
      (m.stockActual > m.stockReservado <==> EsVerdadero(params["disponible"])))
  }

  predicate CumpleProveedorLote(m: Medicamento, params: Params)
  {
    (Given(params, "proveedor") ==> OptContiene(m.proveedor, params["proveedor"]))
    && (Given(params, "lote") ==> OptContiene(m.lote, params["lote"]))
  }

  /** `vencido` true keeps rows expired before today; any other present
      value keeps rows with no expiry or an expiry from today on. The date
      bounds are inclusive and never match a null expiry. */
  predicate CumpleVencimiento(m: Medicamento, params: Params, today: int)
  {
    ("vencido" in params ==>
      (EsVerdadero(params["vencido"]) <==> m.fechaVencimiento.Some? && m.fechaVencimiento.value < today))
    && (Given(params, "fecha_venc_from") && ParseInt(params["fecha_venc_from"]).Some? ==>
      m.fechaVencimiento.Some? && m.fechaVencimiento.value >= ParseInt(params["fecha_venc_from"]).value)
    && (Given(params, "fecha_venc_to") && ParseInt(params["fecha_venc_to"]).Some? ==>
      m.fechaVencimiento.Some? && m.fechaVencimiento.value <= ParseInt(params["fecha_venc_to"]).value)
  }

  /** Every clause at once. */
  predicate CumpleMedicamento(m: Medicamento, params: Params, today: int)
  {
    CumpleBusqueda(m, params) && CumpleIds(m, params) && CumpleEstado(m, params) && CumplePrecio(m, params)
    && CumpleStock(m, params) && CumpleProveedorLote(m, params) && CumpleVencimiento(m, params, today)
  }

  /** The clauses as row predicates, for `Filter`. */
  function EnBusqueda(params: Params): Medicamento -> bool { (m: Medicamento) => CumpleBusqueda(m, params) }

  function EnIds(params: Params): Medicamento -> bool { (m: Medicamento) => CumpleIds(m, params) }

  function EnEstado(params: Params): Medicamento -> bool { (m: Medicamento) => CumpleEstado(m, params) }

  function EnPrecio(params: Params): Medicamento -> bool { (m: Medicamento) => CumplePrecio(m, params) }

  function EnStock(params: Params): Medicamento -> bool { (m: Medicamento) => CumpleStock(m, params) }

  function EnProveedorLote(params: Params): Medicamento -> bool { (m: Medicamento) => CumpleProveedorLote(m, params) }

  function EnVencimiento(params: Params, today: int): Medicamento -> bool { (m: Medicamento) => CumpleVencimiento(m, params, today) }

  function EnMedicamento(params: Params, today: int): Medicamento -> bool { (m: Medicamento) => CumpleMedicamento(m, params, today) }

  lemma MedBusquedaExacta(s: seq<Medicamento>, params: Params)
    ensures MedBusqueda(s, params) == Filter(s, EnBusqueda(params))
  {
    var q := Given(params, "q");
    var p1 := Busqueda(Valor(params, "q"));
    var c1 := (m: Medicamento) => q ==> p1(m);
    FiltrarSiEs(s, q, p1, c1);
    FiltrarSiPaso(s, FiltrarSi(s, q, p1), c1, Given(params, "nombre") && !q, NombreContiene(Valor(params, "nombre")), EnBusqueda(params));
  }

  lemma MedIdsExacta(s: seq<Medicamento>, params: Params)
    requires MedIds(s, params).Ok?
    ensures MedIds(s, params).value == Filter(s, EnIds(params))
  {
    var categoria := EnteroParam(params, "categoria").value;
    var drogueria := EnteroParam(params, "drogueria").value;
    var c1 := (m: Medicamento) => categoria.Some? ==> CategoriaEs(categoria.value)(m);
    FiltrarOptEs(s, categoria, CategoriaEs, c1);
    FiltrarOptPaso(s, FiltrarOpt(s, categoria, CategoriaEs), c1, drogueria, DrogueriaEs, EnIds(params));
  }

  lemma MedEstadoExacta(s: seq<Medicamento>, params: Params)
    ensures MedEstado(s, params) == Filter(s, EnEstado(params))
  {
    FiltrarSiEs(s, "estado" in params, EstadoEs(!EsFalso(Valor(params, "estado"))), EnEstado(params));
  }

  lemma MedPrecioExacta(s: seq<Medicamento>, params: Params)
    ensures MedPrecio(s, params) == Filter(s, EnPrecio(params))
  {
    var desde := DecimalParam(params, "precio_min");
    var c1 := (m: Medicamento) => desde.Some? ==> PrecioDesde(desde.value)(m);
    FiltrarOptEs(s, desde, PrecioDesde, c1);
    FiltrarOptPaso(s, FiltrarOpt(s, desde, PrecioDesde), c1, DecimalParam(params, "precio_max"), PrecioHasta, EnPrecio(params));
  }

  lemma MedStockExacta(s: seq<Medicamento>, params: Params)
    ensures MedStock(s, params) == Filter(s, EnStock(params))
  {
    var desde := IntParam(params, "stock_min");
    var hasta := IntParam(params, "stock_max");
    var c1 := (m: Medicamento) => desde.Some? ==> StockDesde(desde.value)(m);
    var c2 := (m: Medicamento) => c1(m) && (hasta.Some? ==> StockHasta(hasta.value)(m));
    FiltrarOptEs(s, desde, StockDesde, c1);
    var s1 := FiltrarOpt(s, desde, StockDesde);
    FiltrarOptPaso(s, s1, c1, hasta, StockHasta, c2);
    FiltrarSiPaso(s, FiltrarOpt(s1, hasta, StockHasta), c2, "disponible" in params,
      DisponibleEs(EsVerdadero(Valor(params, "disponible"))), EnStock(params));
  }

  lemma MedProveedorLoteExacta(s: seq<Medicamento>, params: Params)
    ensures MedProveedorLote(s, params) == Filter(s, EnProveedorLote(params))
  {
    var a1 := Given(params, "proveedor");
    var p1 := ProveedorContiene(Valor(params, "proveedor"));
    var c1 := (m: Medicamento) => a1 ==> p1(m);
    FiltrarSiEs(s, a1, p1, c1);
    FiltrarSiPaso(s, FiltrarSi(s, a1, p1), c1, Given(params, "lote"), LoteContiene(Valor(params, "lote")), EnProveedorLote(params));
  }

  lemma MedVencimientoExacta(s: seq<Medicamento>, params: Params, today: int)
    requires MedVencimiento(s, params, today).Ok?
    ensures MedVencimiento(s, params, today).value == Filter(s, EnVencimiento(params, today))
  {
    var v := VencidoSegun(EsVerdadero(Valor(params, "vencido")), today);
    var s1 := FiltrarSi(s, "vencido" in params, v);
    var desde := EnteroParam(params, "fecha_venc_from").value;
    var hasta := EnteroParam(params, "fecha_venc_to").value;
    var s2 := FiltrarOpt(s1, desde, VenceDesde);
    assert MedVencimiento(s, params, today).value == FiltrarOpt(s2, hasta, VenceHasta);
    var c1 := (m: Medicamento) => "vencido" in params ==> v(m);
    var c2 := (m: Medicamento) => c1(m) && (desde.Some? ==> VenceDesde(desde.value)(m));
    FiltrarSiEs(s, "vencido" in params, v, c1);
    FiltrarOptPaso(s, s1, c1, desde, VenceDesde, c2);
    FiltrarOptPaso(s, s2, c2, hasta, VenceHasta, EnVencimiento(params, today));
  }

  /** The chain of filters is a single filter of the table by every clause
      at once: the same rows, each as many times, in the same order. */
  lemma MedicamentoFiltersExactos(qs: seq<Medicamento>, params: Params, today: int)
    requires ApplyMedicamentoFilters(qs, params, today).Ok?
    ensures ApplyMedicamentoFilters(qs, params, today).value == Filter(qs, EnMedicamento(params, today))
    ensures forall m :: m in ApplyMedicamentoFilters(qs, params, today).value <==>
      m in qs && CumpleMedicamento(m, params, today)
  {
    var c1 := EnBusqueda(params);
    var c2 := (m: Medicamento) => c1(m) && CumpleIds(m, params);
    var c3 := (m: Medicamento) => c2(m) && CumpleEstado(m, params);
    var c4 := (m: Medicamento) => c3(m) && CumplePrecio(m, params);
    var c5 := (m: Medicamento) => c4(m) && CumpleStock(m, params);
    var c6 := (m: Medicamento) => c5(m) && CumpleProveedorLote(m, params);
    var s1 := MedBusqueda(qs, params);
    MedBusquedaExacta(qs, params);
    var s2 := MedIds(s1, params).value;
    MedIdsExacta(s1, params);
    FilterCompose(qs, c1, EnIds(params), c2);
    var s3 := MedEstado(s2, params);
    MedEstadoExacta(s2, params);
    FilterCompose(qs, c2, EnEstado(params), c3);
    var s4 := MedPrecio(s3, params);
    MedPrecioExacta(s3, params);
    FilterCompose(qs, c3, EnPrecio(params), c4);
    var s5 := MedStock(s4, params);
    MedStockExacta(s4, params);
    FilterCompose(qs, c4, EnStock(params), c5);
    var s6 := MedProveedorLote(s5, params);
    MedProveedorLoteExacta(s5, params);
    FilterCompose(qs, c5, EnProveedorLote(params), c6);
    MedVencimientoExacta(s6, params, today);
    FilterCompose(qs, c6, EnVencimiento(params, today), EnMedicamento(params, today));
    FilterMembers(qs, EnMedicamento(params, today));
  }

  /** No parameters: every row comes back, in order. */
  lemma MedicamentoSinParametros(qs: seq<Medicamento>, today: int)
    ensures ApplyMedicamentoFilters(qs, map[], today) == Ok(qs)
  {
  }

  /** When `q` is given, the value of `nombre` changes nothing. */
  lemma QAnulaNombre(qs: seq<Medicamento>, params: Params, today: int, nombre: string)
    requires Given(params, "q")
    ensures ApplyMedicamentoFilters(qs, params["nombre" := nombre], today) == ApplyMedicamentoFilters(qs, params, today)
  {
    var p2 := params["nombre" := nombre];
    assert MedBusqueda(qs, p2) == MedBusqueda(qs, params);
    MismosParametros(params, p2, "nombre");
  }

  /** A price or stock bound that does not parse is skipped as if absent. */
  lemma CotaIlegibleIgnorada(qs: seq<Medicamento>, params: Params, today: int, k: string)
    requires k in {"precio_min", "precio_max", "stock_min", "stock_max"}
    requires k in params && ParseDecimal(params[k]).None?
    ensures ApplyMedicamentoFilters(qs, params, today) == ApplyMedicamentoFilters(qs, params - {k}, today)
  {
    var p2 := params - {k};
    MismosParametros(params, p2, k);
    var b := MedBusqueda(qs, params);
    assert MedBusqueda(qs, p2) == b;
    CotasIlegibles(params, k);
    if MedIds(b, params).Ok? {
      var e := MedEstado(MedIds(b, params).value, params);
      assert MedPrecio(e, p2) == MedPrecio(e, params);
      var st := MedStock(MedPrecio(e, params), params);
      assert MedStock(MedPrecio(e, params), p2) == st;
      assert MedProveedorLote(st, p2) == MedProveedorLote(st, params);
    }
  }

  /** Dropping a bound that does not parse leaves every bound as it was read. */
  lemma CotasIlegibles(params: Params, k: string)
    requires k in {"precio_min", "precio_max", "stock_min", "stock_max"}
    requires k in params && ParseDecimal(params[k]).None?
    ensures DecimalParam(params - {k}, "precio_min") == DecimalParam(params, "precio_min")
    ensures DecimalParam(params - {k}, "precio_max") == DecimalParam(params, "precio_max")
    ensures IntParam(params - {k}, "stock_min") == IntParam(params, "stock_min")
    ensures IntParam(params - {k}, "stock_max") == IntParam(params, "stock_max")
    ensures Valor(params - {k}, "disponible") == Valor(params, "disponible")
  {
    assert ParseInt(params[k]).None?;
  }

  /** Two parameter maps that differ at most in key `k`, a key none of the
      later stages reads, give the same later stages. */
  lemma MismosParametros(params: Params, p2: Params, k: string)
    requires k in {"nombre", "precio_min", "precio_max", "stock_min", "stock_max"}
    requires forall j :: j != k ==> (j in p2 <==> j in params)
    requires forall j :: j != k && j in params ==> p2[j] == params[j]
    ensures forall s :: MedIds(s, p2) == MedIds(s, params)
    ensures forall s :: MedEstado(s, p2) == MedEstado(s, params)
    ensures forall s :: MedProveedorLote(s, p2) == MedProveedorLote(s, params)
    ensures forall s, today :: MedVencimiento(s, p2, today) == MedVencimiento(s, params, today)
    ensures k == "nombre" ==> forall s :: MedPrecio(s, p2) == MedPrecio(s, params) && MedStock(s, p2) == MedStock(s, params)
  {
    MismosIds(params, p2, k);
    if k == "nombre" {
      assert DecimalParam(p2, "precio_min") == DecimalParam(params, "precio_min");
      assert DecimalParam(p2, "precio_max") == DecimalParam(params, "precio_max");
      assert IntParam(p2, "stock_min") == IntParam(params, "stock_min");
      assert IntParam(p2, "stock_max") == IntParam(params, "stock_max");
      assert Valor(p2, "disponible") == Valor(params, "disponible");
    }
  }

  /** The parameters the id, state, supplier and expiry stages read. */
  lemma MismosIds(params: Params, p2: Params, k: string)
    requires k in {"nombre", "precio_min", "precio_max", "stock_min", "stock_max"}
    requires forall j :: j != k ==> (j in p2 <==> j in params)
    requires forall j :: j != k && j in params ==> p2[j] == params[j]
    ensures EnteroParam(p2, "categoria") == EnteroParam(params, "categoria")
    ensures EnteroParam(p2, "drogueria") == EnteroParam(params, "drogueria")
    ensures EnteroParam(p2, "fecha_venc_from") == EnteroParam(params, "fecha_venc_from")
    ensures EnteroParam(p2, "fecha_venc_to") == EnteroParam(params, "fecha_venc_to")
    ensures ("estado" in p2 <==> "estado" in params) && Valor(p2, "estado") == Valor(params, "estado")
    ensures ("vencido" in p2 <==> "vencido" in params) && Valor(p2, "vencido") == Valor(params, "vencido")
    ensures Valor(p2, "proveedor") == Valor(params, "proveedor") && Given(p2, "proveedor") == Given(params, "proveedor")
    ensures Valor(p2, "lote") == Valor(params, "lote") && Given(p2, "lote") == Given(params, "lote")
  {
    assert "categoria" != k && "drogueria" != k && "fecha_venc_from" != k && "fecha_venc_to" != k;
  }
  // ---------------------------------------------------------------------
  // Movements, loans, alerts and audit rows
  // ---------------------------------------------------------------------

  function MovMedicamentoEs(id: int): Movimiento -> bool { (x: Movimiento) => x.medicamento == id }

  function MovDrogueriaEs(id: int): Movimiento -> bool { (x: Movimiento) => x.drogueria.Some? && x.drogueria.value == id }

  function MovTipoEs(t: string): Movimiento -> bool { (x: Movimiento) => TipoMovimientoCodigo(x.tipo) == t }

  function MovDesde(d: int): Movimiento -> bool { (x: Movimiento) => x.fecha >= d }

  function MovHasta(d: int): Movimiento -> bool { (x: Movimiento) => x.fecha <= d }

  /** `apply_movimiento_filters`. */
  function ApplyMovimientoFilters(qs: seq<Movimiento>, params: Params): (r: Result<seq<Movimiento>>)
    ensures r.Err? <==> (Mal(params, "medicamento") || Mal(params, "drogueria")
      || Mal(params, "fecha_from") || Mal(params, "fecha_to"))
    ensures r.Ok? ==> |r.value| <= |qs|
  {
    match EnteroParam(params, "medicamento")
    case Err(e) => Err(e)
    case Ok(medicamento) =>
      var s1 := FiltrarOpt(qs, medicamento, MovMedicamentoEs);
      match EnteroParam(params, "drogueria")
      case Err(e) => Err(e)
      case Ok(drogueria) =>
        var s2 := FiltrarOpt(s1, drogueria, MovDrogueriaEs);
        var s3 := FiltrarSi(s2, Given(params, "tipo_movimiento"), MovTipoEs(Valor(params, "tipo_movimiento")));
        match EnteroParam(params, "fecha_from")
        case Err(e) => Err(e)
        case Ok(desde) =>
          var s4 := FiltrarOpt(s3, desde, MovDesde);
          match EnteroParam(params, "fecha_to")
          case Err(e) => Err(e)
          case Ok(hasta) => Ok(FiltrarOpt(s4, hasta, MovHasta))
  }

  /** Exact matches and an inclusive date range, each only when given. */
  predicate CumpleMovimiento(x: Movimiento, params: Params)
  {
    (Given(params, "medicamento") && ParseInt(params["medicamento"]).Some? ==> x.medicamento == ParseInt(params["medicamento"]).value)
    && (Given(params, "drogueria") && ParseInt(params["drogueria"]).Some? ==> x.drogueria.Some? && x.drogueria.value == ParseInt(params["drogueria"]).value)
    && (Given(params, "tipo_movimiento") ==> TipoMovimientoCodigo(x.tipo) == params["tipo_movimiento"])
    && (Given(params, "fecha_from") && ParseInt(params["fecha_from"]).Some? ==> x.fecha >= ParseInt(params["fecha_from"]).value)
    && (Given(params, "fecha_to") && ParseInt(params["fecha_to"]).Some? ==> x.fecha <= ParseInt(params["fecha_to"]).value)
  }

  /** The five movement steps, once their parameters are read, are one
      filter by any predicate equivalent to their conjunction. */
  lemma MovimientoCadena(qs: seq<Movimiento>, medicamento: Option<int>, drogueria: Option<int>, tipo: bool,
                         t: string, desde: Option<int>, hasta: Option<int>, c: Movimiento -> bool)
    requires forall x :: c(x) == ((medicamento.Some? ==> x.medicamento == medicamento.value)
                                  && (drogueria.Some? ==> x.drogueria.Some? && x.drogueria.value == drogueria.value)
                                  && (tipo ==> TipoMovimientoCodigo(x.tipo) == t)
                                  && (desde.Some? ==> x.fecha >= desde.value) && (hasta.Some? ==> x.fecha <= hasta.value))
    ensures FiltrarOpt(FiltrarOpt(FiltrarSi(FiltrarOpt(FiltrarOpt(qs, medicamento, MovMedicamentoEs),
      drogueria, MovDrogueriaEs), tipo, MovTipoEs(t)), desde, MovDesde), hasta, MovHasta) == Filter(qs, c)
  {
    var c1 := (x: Movimiento) => medicamento.Some? ==> x.medicamento == medicamento.value;
    var c2 := (x: Movimiento) => (medicamento.Some? ==> x.medicamento == medicamento.value)
                                 && (drogueria.Some? ==> x.drogueria.Some? && x.drogueria.value == drogueria.value);
    var c3 := (x: Movimiento) => (medicamento.Some? ==> x.medicamento == medicamento.value)
                                 && (drogueria.Some? ==> x.drogueria.Some? && x.drogueria.value == drogueria.value)
                                 && (tipo ==> TipoMovimientoCodigo(x.tipo) == t);
    var c4 := (x: Movimiento) => (medicamento.Some? ==> x.medicamento == medicamento.value)
                                 && (drogueria.Some? ==> x.drogueria.Some? && x.drogueria.value == drogueria.value)
                                 && (tipo ==> TipoMovimientoCodigo(x.tipo) == t) && (desde.Some? ==> x.fecha >= desde.value);
    var s1 := FiltrarOpt(qs, medicamento, MovMedicamentoEs);
    FiltrarOptEs(qs, medicamento, MovMedicamentoEs, c1);
    var s2 := FiltrarOpt(s1, drogueria, MovDrogueriaEs);
    FiltrarOptPaso(qs, s1, c1, drogueria, MovDrogueriaEs, c2);
    var s3 := FiltrarSi(s2, tipo, MovTipoEs(t));
    FiltrarSiPaso(qs, s2, c2, tipo, MovTipoEs(t), c3);
    FiltrarOptPaso(qs, FiltrarOpt(s3, desde, MovDesde), c4, hasta, MovHasta, c) by {
      FiltrarOptPaso(qs, s3, c3, desde, MovDesde, c4);
    }
  }

  function EnMovimiento(params: Params): Movimiento -> bool { (x: Movimiento) => CumpleMovimiento(x, params) }

  /** The chain is a single filter by every clause at once. */
  lemma MovimientoFiltersExactos(qs: seq<Movimiento>, params: Params)
    requires ApplyMovimientoFilters(qs, params).Ok?
    ensures ApplyMovimientoFilters(qs, params).value == Filter(qs, EnMovimiento(params))
    ensures forall x :: x in ApplyMovimientoFilters(qs, params).value <==> x in qs && CumpleMovimiento(x, params)
  {
    var medicamento := EnteroParam(params, "medicamento").value;
    var drogueria := EnteroParam(params, "drogueria").value;
    var tipo := Given(params, "tipo_movimiento");
    var t := Valor(params, "tipo_movimiento");
    var desde := EnteroParam(params, "fecha_from").value;
    var hasta := EnteroParam(params, "fecha_to").value;
    assert ApplyMovimientoFilters(qs, params).value == FiltrarOpt(FiltrarOpt(FiltrarSi(FiltrarOpt(FiltrarOpt(qs,
      medicamento, MovMedicamentoEs), drogueria, MovDrogueriaEs), tipo, MovTipoEs(t)), desde, MovDesde), hasta, MovHasta);
    MovimientoCadena(qs, medicamento, drogueria, tipo, t, desde, hasta, EnMovimiento(params));
    FilterMembers(qs, EnMovimiento(params));
  }

  function PrestamoEstadoEs(e: string): Prestamo -> bool { (p: Prestamo) => EstadoPrestamoCodigo(p.estado) == e }

  function PrestamoOrigenEs(id: int): Prestamo -> bool { (p: Prestamo) => p.origen == id }

  function PrestamoDestinoEs(id: int): Prestamo -> bool { (p: Prestamo) => p.destino == id }

  function PrestamoSolicitanteEs(id: int): Prestamo -> bool { (p: Prestamo) => p.solicitante.Some? && p.solicitante.value == id }

  /** `apply_prestamo_filters`. */
  function ApplyPrestamoFilters(qs: seq<Prestamo>, params: Params): (r: Result<seq<Prestamo>>)
    ensures r.Err? <==> Mal(params, "origen") || Mal(params, "destino") || Mal(params, "solicitante")
    ensures r.Ok? ==> |r.value| <= |qs|
  {
    var s1 := FiltrarSi(qs, Given(params, "estado"), PrestamoEstadoEs(Valor(params, "estado")));
    match EnteroParam(params, "origen")
    case Err(e) => Err(e)
    case Ok(origen) =>
      var s2 := FiltrarOpt(s1, origen, PrestamoOrigenEs);
      match EnteroParam(params, "destino")
      case Err(e) => Err(e)
      case Ok(destino) =>
        var s3 := FiltrarOpt(s2, destino, PrestamoDestinoEs);
        match EnteroParam(params, "solicitante")
        case Err(e) => Err(e)
        case Ok(solicitante) => Ok(FiltrarOpt(s3, solicitante, PrestamoSolicitanteEs))
  }

  predicate CumplePrestamo(p: Prestamo, params: Params)
  {
    (Given(params, "estado") ==> EstadoPrestamoCodigo(p.estado) == params["estado"])
    && (Given(params, "origen") && ParseInt(params["origen"]).Some? ==> p.origen == ParseInt(params["origen"]).value)
    && (Given(params, "destino") && ParseInt(params["destino"]).Some? ==> p.destino == ParseInt(params["destino"]).value)
    && (Given(params, "solicitante") && ParseInt(params["solicitante"]).Some? ==> p.solicitante.Some? && p.solicitante.value == ParseInt(params["solicitante"]).value)
  }

  /** The four loan steps, once their parameters are read, are one filter
      by any predicate equivalent to their conjunction. */
  lemma PrestamoCadena(qs: seq<Prestamo>, estado: bool, e: string, origen: Option<int>, destino: Option<int>,
                       solicitante: Option<int>, c: Prestamo -> bool)
    requires forall p :: c(p) == ((estado ==> EstadoPrestamoCodigo(p.estado) == e)
                                  && (origen.Some? ==> p.origen == origen.value) && (destino.Some? ==> p.destino == destino.value)
                                  && (solicitante.Some? ==> p.solicitante.Some? && p.solicitante.value == solicitante.value))
    ensures FiltrarOpt(FiltrarOpt(FiltrarOpt(FiltrarSi(qs, estado, PrestamoEstadoEs(e)), origen, PrestamoOrigenEs),
      destino, PrestamoDestinoEs), solicitante, PrestamoSolicitanteEs) == Filter(qs, c)
  {
    var c1 := (p: Prestamo) => estado ==> EstadoPrestamoCodigo(p.estado) == e;
    var c2 := (p: Prestamo) => (estado ==> EstadoPrestamoCodigo(p.estado) == e) && (origen.Some? ==> p.origen == origen.value);
    var c3 := (p: Prestamo) => (estado ==> EstadoPrestamoCodigo(p.estado) == e) && (origen.Some? ==> p.origen == origen.value)
                               && (destino.Some? ==> p.destino == destino.value);
    var s1 := FiltrarSi(qs, estado, PrestamoEstadoEs(e));
    FiltrarSiEs(qs, estado, PrestamoEstadoEs(e), c1);
    var s2 := FiltrarOpt(s1, origen, PrestamoOrigenEs);
    FiltrarOptPaso(qs, s1, c1, origen, PrestamoOrigenEs, c2);
    FiltrarOptPaso(qs, FiltrarOpt(s2, destino, PrestamoDestinoEs), c3, solicitante, PrestamoSolicitanteEs, c) by {
      FiltrarOptPaso(qs, s2, c2, destino, PrestamoDestinoEs, c3);
    }
  }

  function EnPrestamo(params: Params): Prestamo -> bool { (p: Prestamo) => CumplePrestamo(p, params) }

  /** The chain is a single filter by every clause at once. */
  lemma PrestamoFiltersExactos(qs: seq<Prestamo>, params: Params)
    requires ApplyPrestamoFilters(qs, params).Ok?
    ensures ApplyPrestamoFilters(qs, params).value == Filter(qs, EnPrestamo(params))
    ensures forall p :: p in ApplyPrestamoFilters(qs, params).value <==> p in qs && CumplePrestamo(p, params)
  {
    var estado := Given(params, "estado");
    var e := Valor(params, "estado");
    var origen := EnteroParam(params, "origen").value;
    var destino := EnteroParam(params, "destino").value;
    var solicitante := EnteroParam(params, "solicitante").value;
    assert ApplyPrestamoFilters(qs, params).value == FiltrarOpt(FiltrarOpt(FiltrarOpt(FiltrarSi(qs, estado,
      PrestamoEstadoEs(e)), origen, PrestamoOrigenEs), destino, PrestamoDestinoEs), solicitante, PrestamoSolicitanteEs);
    PrestamoCadena(qs, estado, e, origen, destino, solicitante, EnPrestamo(params));
    FilterMembers(qs, EnPrestamo(params));
  }

  function AlertaTipoEs(t: string): Alerta -> bool { (a: Alerta) => TipoAlertaCodigo(a.tipo) == t }

  function AlertaNivelEs(n: string): Alerta -> bool { (a: Alerta) => NivelAlertaCodigo(a.nivel) == n }

  function AlertaLeidoEs(leido: bool): Alerta -> bool { (a: Alerta) => a.leido == leido }

  /** `apply_alerta_filters`: no parameter of it can fail. */
  function ApplyAlertaFilters(qs: seq<Alerta>, params: Params): (r: seq<Alerta>)
    ensures |r| <= |qs|
  {
    var s1 := FiltrarSi(qs, Given(params, "tipo"), AlertaTipoEs(Valor(params, "tipo")));
    var s2 := FiltrarSi(s1, Given(params, "nivel"), AlertaNivelEs(Valor(params, "nivel")));
    FiltrarSi(s2, "leido" in params, AlertaLeidoEs(EsVerdadero(Valor(params, "leido"))))
  }

  /** `leido` present: "true"/"1" selects read alerts, anything else unread ones. */
  predicate CumpleAlerta(a: Alerta, params: Params)
  {
    (Given(params, "tipo") ==> TipoAlertaCodigo(a.tipo) == params["tipo"])
    && (Given(params, "nivel") ==> NivelAlertaCodigo(a.nivel) == params["nivel"])
    && ("leido" in params ==> (a.leido <==> EsVerdadero(params["leido"])))
  }

  function EnAlerta(params: Params): Alerta -> bool { (a: Alerta) => CumpleAlerta(a, params) }

  /** The chain is a single filter by every clause at once. */
  lemma AlertaFiltersExactos(qs: seq<Alerta>, params: Params)
    ensures ApplyAlertaFilters(qs, params) == Filter(qs, EnAlerta(params))
    ensures forall a :: a in ApplyAlertaFilters(qs, params) <==> a in qs && CumpleAlerta(a, params)
  {
    var tipo := Given(params, "tipo");
    var pt := AlertaTipoEs(Valor(params, "tipo"));
    var nivel := Given(params, "nivel");
    var pn := AlertaNivelEs(Valor(params, "nivel"));
    var c1 := (a: Alerta) => tipo ==> pt(a);
    var c2 := (a: Alerta) => c1(a) && (nivel ==> pn(a));
    var s1 := FiltrarSi(qs, tipo, pt);
    FiltrarSiEs(qs, tipo, pt, c1);
    var s2 := FiltrarSi(s1, nivel, pn);
    FiltrarSiPaso(qs, s1, c1, nivel, pn, c2);
    FiltrarSiPaso(qs, s2, c2, "leido" in params, AlertaLeidoEs(EsVerdadero(Valor(params, "leido"))), EnAlerta(params));
    FilterMembers(qs, EnAlerta(params));
  }

  /** An audit row with the instant the database stamped on it. */
  datatype AuditRow = AuditRow(entry: AuditEntry, createdAt: int)

  function AuditActionEs(t: string): AuditRow -> bool { (a: AuditRow) => a.entry.action == t }

  function AuditModeloEs(t: string): AuditRow -> bool { (a: AuditRow) => a.entry.modelName == Some(t) }

  function AuditUsuarioEs(id: int): AuditRow -> bool { (a: AuditRow) => a.entry.user.Some? && a.entry.user.value == id }

  function AuditObjetoEs(id: int): AuditRow -> bool { (a: AuditRow) => a.entry.objectId == Some(id) }

  function AuditDesde(d: int): AuditRow -> bool { (a: AuditRow) => a.createdAt >= d }

  function AuditHasta(d: int): AuditRow -> bool { (a: AuditRow) => a.createdAt <= d }

  /** The action, model-name, user and object filters. */
  function AuditExactos(s: seq<AuditRow>, params: Params): (r: Result<seq<AuditRow>>)
    ensures r.Err? <==> Mal(params, "user") || Mal(params, "object_id")
  {
    var s1 := FiltrarSi(s, Given(params, "action"), AuditActionEs(Valor(params, "action")));
    var s2 := FiltrarSi(s1, Given(params, "model_name"), AuditModeloEs(Valor(params, "model_name")));
    match EnteroParam(params, "user")
    case Err(e) => Err(e)
    case Ok(usuario) =>
      match EnteroParam(params, "object_id")
      case Err(e) => Err(e)
      case Ok(objeto) => Ok(FiltrarOpt(FiltrarOpt(s2, usuario, AuditUsuarioEs), objeto, AuditObjetoEs))
  }

  /** The inclusive creation-time range. */
  function AuditFechas(s: seq<AuditRow>, params: Params): (r: Result<seq<AuditRow>>)
    ensures r.Err? <==> Mal(params, "created_from") || Mal(params, "created_to")
  {
    match EnteroParam(params, "created_from")
    case Err(e) => Err(e)
    case Ok(desde) =>
      match EnteroParam(params, "created_to")
      case Err(e) => Err(e)
      case Ok(hasta) => Ok(FiltrarOpt(FiltrarOpt(s, desde, AuditDesde), hasta, AuditHasta))
  }

  /** `apply_audit_filters`. */
  function ApplyAuditFilters(qs: seq<AuditRow>, params: Params): (r: Result<seq<AuditRow>>)
    ensures r.Err? <==> (Mal(params, "user") || Mal(params, "object_id")
      || Mal(params, "created_from") || Mal(params, "created_to"))
  {
    match AuditExactos(qs, params)
    case Err(e) => Err(e)
    case Ok(s) => AuditFechas(s, params)
  }

  predicate CumpleAuditExactos(a: AuditRow, params: Params)
  {
    (Given(params, "action") ==> a.entry.action == params["action"])
    && (Given(params, "model_name") ==> a.entry.modelName == Some(params["model_name"]))
    && (Given(params, "user") && ParseInt(params["user"]).Some? ==> a.entry.user.Some? && a.entry.user.value == ParseInt(params["user"]).value)
    && (Given(params, "object_id") && ParseInt(params["object_id"]).Some? ==> a.entry.objectId == Some(ParseInt(params["object_id"]).value))
  }

  predicate CumpleAudit(a: AuditRow, params: Params)
  {
    CumpleAuditExactos(a, params)
    && (Given(params, "created_from") && ParseInt(params["created_from"]).Some? ==> a.createdAt >= ParseInt(params["created_from"]).value)
    && (Given(params, "created_to") && ParseInt(params["created_to"]).Some? ==> a.createdAt <= ParseInt(params["created_to"]).value)
  }

  function EnAuditExactos(params: Params): AuditRow -> bool { (a: AuditRow) => CumpleAuditExactos(a, params) }

  function EnAudit(params: Params): AuditRow -> bool { (a: AuditRow) => CumpleAudit(a, params) }

  lemma AuditExactosMembers(s: seq<AuditRow>, params: Params)
    requires AuditExactos(s, params).Ok?
    ensures AuditExactos(s, params).value == Filter(s, EnAuditExactos(params))
  {
    var accion := Given(params, "action");
    var pa := AuditActionEs(Valor(params, "action"));
    var modelo := Given(params, "model_name");
    var pm := AuditModeloEs(Valor(params, "model_name"));
    var usuario := EnteroParam(params, "user").value;
    var objeto := EnteroParam(params, "object_id").value;
    assert usuario.Some? ==> usuario.value == ParseInt(params["user"]).value;
    assert objeto.Some? ==> objeto.value == ParseInt(params["object_id"]).value;
    var c1 := (a: AuditRow) => accion ==> a.entry.action == params["action"];
    var c2 := (a: AuditRow) => (accion ==> a.entry.action == params["action"])
                               && (modelo ==> a.entry.modelName == Some(params["model_name"]));
    var c3 := (a: AuditRow) => (accion ==> a.entry.action == params["action"])
                               && (modelo ==> a.entry.modelName == Some(params["model_name"]))
                               && (usuario.Some? ==> a.entry.user.Some? && a.entry.user.value == usuario.value);
    var s1 := FiltrarSi(s, accion, pa);
    FiltrarSiEs(s, accion, pa, c1);
    var s2 := FiltrarSi(s1, modelo, pm);
    FiltrarSiPaso(s, s1, c1, modelo, pm, c2);
    var s3 := FiltrarOpt(s2, usuario, AuditUsuarioEs);
    FiltrarOptPaso(s, s2, c2, usuario, AuditUsuarioEs, c3);
    FiltrarOptPaso(s, s3, c3, objeto, AuditObjetoEs, EnAuditExactos(params));
  }

  /** The chain is a single filter by every clause at once. */
  lemma AuditFiltersExactos(qs: seq<AuditRow>, params: Params)
    requires ApplyAuditFilters(qs, params).Ok?
    ensures ApplyAuditFilters(qs, params).value == Filter(qs, EnAudit(params))
    ensures forall a :: a in ApplyAuditFilters(qs, params).value <==> a in qs && CumpleAudit(a, params)
  {
    AuditExactosMembers(qs, params);
    var s := AuditExactos(qs, params).value;
    var desde := EnteroParam(params, "created_from").value;
    var hasta := EnteroParam(params, "created_to").value;
    var c1 := EnAuditExactos(params);
    var c2 := (a: AuditRow) => c1(a) && (desde.Some? ==> AuditDesde(desde.value)(a));
    FiltrarOptPaso(qs, s, c1, desde, AuditDesde, c2);
    FiltrarOptPaso(qs, FiltrarOpt(s, desde, AuditDesde), c2, hasta, AuditHasta, EnAudit(params));
    FilterMembers(qs, EnAudit(params));
  }
}
