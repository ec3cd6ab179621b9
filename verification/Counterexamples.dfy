/** Concrete inputs on which a claim one would expect fails. The lemma that says exactly when each claim holds is
    named beside it. Entries start as their creators store them and get where they are by operations. */
module Counterexamples {
  import opened Common
  import opened Dates
  import opened Entries
  import opened Imputation
  import opened Ledger
  import opened Runs
  import Adjustment
  import CashBox
  import Cuit
  import DirectGenerator
  import GeneratedEntries
  import Generator
  import ImportPayments
  import Payments
  import Receipts
  import Regression
  import Settlements
  import Statement

  const HOY := Date(24276, 1)

  function Debe(monto: real): Partida {
    Partida(CxcAlq, monto, 0.0, Some("inquilino"), 0.0, 0.0)
  }

  function Haber(agente: string, monto: real): Partida {
    Partida(CxpLoc, 0.0, monto, Some(agente), 0.0, 0.0)
  }

  function Entrada(estado: Estado, monto: real, ps: seq<Partida>): Asiento {
    Asiento("contrato", Alquiler, HOY, PlusTenDays(HOY), 1, estado, monto, monto, ps, [])
  }

  /** A rent of one hundred pesos, and a ledger that holds one entry and one empty account. */
  const RENTA: seq<Partida> := [Debe(10000.0), Haber("locador", 10000.0)]

  function Con(a: Asiento): Libro {
    Libro(map["e" := a], map["caja" := 0.0])
  }

  lemma {:induction false} RentaInicial(a: Asiento)
    requires a == Entrada(Pendiente, 10000.0, RENTA)
    ensures Inicial(a) && a.tipo == Alquiler && a.partidas == RENTA
  {
  }

  lemma {:induction false} Sumas(p: Partida, q: Partida)
    ensures Total(DebeOf, [p, q]) == p.debe + q.debe && Total(HaberOf, [p, q]) == p.haber + q.haber
    ensures Total(PagadoOf, [p, q]) == p.pagado + q.pagado
    ensures Total(PagadoEnDebe, [p, q]) == PagadoEnDebe(p) + PagadoEnDebe(q)
    ensures Total(PagadoEnHaber, [p, q]) == PagadoEnHaber(p) + PagadoEnHaber(q)
  {
    TotalPair(DebeOf, p, q);
    TotalPair(HaberOf, p, q);
    TotalPair(PagadoOf, p, q);
    TotalPair(PagadoEnDebe, p, q);
    TotalPair(PagadoEnHaber, p, q);
  }

  // ---------- payments and forgiveness ----------

  const PAGADA: seq<Partida> := [Debe(10000.0).(pagado := 10000.0), Haber("locador", 10000.0)]

  lemma {:induction false} PagoCompletoDeRenta()
    ensures Imputar(RENTA, 10000.0) == PAGADA && Imputar(PAGADA, 10000.0) == PAGADA
  {
  }

  lemma {:induction false} SaldosDeRenta()
    ensures Total(DebeOf, RENTA) == 10000.0 && SaldoPendiente(RENTA) == 10000.0 && Payments.DebeAbierto(RENTA)
    ensures Total(DebeOf, PAGADA) == 10000.0 && SaldoPendiente(PAGADA) == 10000.0
  {
    Sumas(RENTA[0], RENTA[1]);
    Sumas(PAGADA[0], PAGADA[1]);
  }

  /** Payments.PagoSeImputaEntero and PagoPartido: a second payment of the whole rent is accepted and goes to cash,
      no line moves; both payments in one are rejected. */
  lemma {:induction false} PagoDosVeces(l: Libro)
    requires l == Con(Entrada(Pendiente, 10000.0, RENTA))
    ensures var uno := Paso(l, OpPago("e", 10000.0, "caja"));
            var dos := Paso(uno, OpPago("e", 10000.0, "caja"));
            && Inicial(l.asientos["e"])
            && uno.cuentas == map["caja" := 10000.0] && dos.cuentas == map["caja" := 20000.0]
            && "e" in uno.asientos && "e" in dos.asientos
            && dos.asientos["e"].partidas == uno.asientos["e"].partidas
            && Pagar(l, "e", 20000.0, "caja").Err?
  {
    RentaInicial(l.asientos["e"]);
    SaldosDeRenta();
    PagoCompletoDeRenta();
    PasoDePago(l, "e", 10000.0, "caja");
    var uno := Paso(l, OpPago("e", 10000.0, "caja"));
    SegundoPago(uno);
    PasoDePago(l, "e", 20000.0, "caja");
  }

  lemma {:induction false} SegundoPago(l: Libro)
    requires "e" in l.asientos && l.asientos["e"].partidas == PAGADA && l.cuentas == map["caja" := 10000.0]
    requires l.asientos["e"].estado != Anulado && l.asientos["e"].estado != Condonado
    ensures var m := Paso(l, OpPago("e", 10000.0, "caja"));
            "e" in m.asientos && m.asientos["e"].partidas == PAGADA && m.cuentas == map["caja" := 20000.0]
  {
    SaldosDeRenta();
    PagoCompletoDeRenta();
    PasoDePago(l, "e", 10000.0, "caja");
  }

  /** Payments.PagoTotalCobra and Runs.NuncaCobrado: an entry adjusted to twice its lines. Whatever is done to it
      afterwards, no payment closes it. */
  lemma {:induction false} AjustadoNuncaCobrado(l: Libro, ops: seq<Op>)
    requires l == Con(Entrada(PendienteAjuste, 10000.0, RENTA))
    requires forall i :: 0 <= i < |ops| ==> Admisible(ops[i])
    ensures var m := Paso(l, OpAjustar("contrato", [Indice(HOY.month, 2.0)]));
            && Inicial(l.asientos["e"]) && "e" in Correr(m, ops).asientos
            && Correr(m, ops).asientos["e"].estado !in {Cobrado, Pagado}
  {
    var op := OpAjustar("contrato", [Indice(HOY.month, 2.0)]);
    AjusteDeRenta(l, op);
    NuncaCobrado(Paso(l, op), ops, "e");
  }

  lemma {:induction false} AjusteDeRenta(l: Libro, op: Op)
    requires l == Con(Entrada(PendienteAjuste, 10000.0, RENTA))
    requires op == OpAjustar("contrato", [Indice(HOY.month, 2.0)])
    ensures var m := Paso(l, op);
            && Inicial(l.asientos["e"]) && LibroSano(m) && "e" in m.asientos
            && m.asientos["e"].estado == Pendiente && m.asientos["e"].montoActual == 20000.0
            && Total(DebeOf, m.asientos["e"].partidas) == 10000.0
  {
    InicialEsSano(l.asientos["e"]);
    PasoSano(l, op);
    assert Times(10000.0, 2.0) == 20000.0;
    Sumas(RENTA[0], RENTA[1]);
  }

  /** Payments.CondonacionTotal: an original amount one centavo above its lines, as a shared invoice leaves it. All
      that can be forgiven is, and the entry is not CONDONADO. */
  lemma {:induction false} TodoCondonadoSinCondonar()
    ensures var l := Con(Entrada(Pendiente, 10000.0, [Debe(9999.0), Haber("proveedor", 9999.0)]));
            var r := Condonar(l, "e", None);
            && Inicial(l.asientos["e"]) && r.Ok? && "e" in r.value.asientos
            && r.value.asientos["e"].estado == PagadoParcial
  {
    var l := Con(Entrada(Pendiente, 10000.0, [Debe(9999.0), Haber("proveedor", 9999.0)]));
    Sumas(Debe(9999.0), Haber("proveedor", 9999.0));
    Payments.CondonacionTotal(l, "e");
  }

  // ---------- settlements ----------

  const COMPARTIDA: seq<Partida> := [Debe(10000.0), Haber("a", 9950.0), Haber("b", 50.0)]
  const COBRADA: seq<Partida> := [Debe(10000.0).(pagado := 10000.0), Haber("a", 9950.0), Haber("b", 50.0)]

  lemma {:induction false} CobroDeCompartida()
    ensures var l := Con(Entrada(Pendiente, 10000.0, COMPARTIDA));
            var m := Paso(l, OpPago("e", 10000.0, "caja"));
            && Inicial(l.asientos["e"]) && "e" in m.asientos && "caja" in m.cuentas
            && m.asientos["e"].partidas == COBRADA && m.asientos["e"].estado == Cobrado
  {
    var l := Con(Entrada(Pendiente, 10000.0, COMPARTIDA));
    var p, q, r := COMPARTIDA[0], COMPARTIDA[1], COMPARTIDA[2];
    TotalTriple(DebeOf, p, q, r);
    TotalTriple(PagadoEnDebe, p, q, r);
    PasoDePago(l, "e", 10000.0, "caja");
    assert Imputar(COMPARTIDA, 10000.0) == COBRADA;
    p := COBRADA[0];
    TotalTriple(PagadoEnDebe, p, q, r);
    TotalTriple(HaberPositivo, p, q, r);
    TotalTriple(LiquidadoEnHaber, p, q, r);
  }

  /** Settlements.EstadoNoConmuta: owner a is due almost all of a collected entry and b less than one peso of it.
      Settling a first leaves LIQUIDADO, settling b first leaves PAGADO. */
  lemma {:induction false} EstadoSegunElOrden()
    ensures var m := Paso(Con(Entrada(Pendiente, 10000.0, COMPARTIDA)), OpPago("e", 10000.0, "caja"));
            var ab := Settlements.EnFila(m, "e", "a", None, "b", None, "caja");
            var ba := Settlements.EnFila(m, "e", "b", None, "a", None, "caja");
            && ab.Ok? && ba.Ok? && "e" in ab.value.asientos && "e" in ba.value.asientos
            && ab.value.asientos["e"].estado == Liquidado && ba.value.asientos["e"].estado == Pagado
  {
    var m := Paso(Con(Entrada(Pendiente, 10000.0, COMPARTIDA)), OpPago("e", 10000.0, "caja"));
    CobroDeCompartida();
    CierresDeCobrada();
    Settlements.EstadosEnFila(m, "e", "a", None, "b", None, "caja");
    Settlements.EstadosEnFila(m, "e", "b", None, "a", None, "caja");
    Settlements.LiquidacionesConmutan(COBRADA, "a", None, "b", None);
  }

  lemma {:induction false} CierresDeCobrada()
    ensures TieneLineas(COBRADA, "a") && TieneLineas(COBRADA, "b")
    ensures TodasLiquidadas(Liquidar(COBRADA, "a", None)) && !TodasLiquidadas(Liquidar(COBRADA, "b", None))
    ensures TodasLiquidadas(Liquidar(Liquidar(COBRADA, "a", None), "b", None))
  {
    assert HaberDe("a", COBRADA[1]) && HaberDe("b", COBRADA[2]);
    LiquidarEnLinea(COBRADA, "b", None, 1);
    Settlements.CierranJuntas(COBRADA, "a", None, "b", None);
  }

  /** Runs.AnuladoNoEsTerminal: an annulled rent is settled, paid out of an empty account, and LIQUIDADO. */
  lemma {:induction false} AnuladoSeLiquida(l: Libro)
    requires l == Con(Entrada(Pendiente, 10000.0, RENTA))
    ensures var m := Paso(l, OpAnular("e"));
            var z := Paso(m, OpLiquidar("e", "locador", None, "caja"));
            && Inicial(l.asientos["e"]) && "e" in m.asientos && "e" in z.asientos
            && m.asientos["e"].estado == Anulado && z.asientos["e"].estado == Liquidado
            && z.cuentas == map["caja" := -10000.0]
  {
    RentaInicial(l.asientos["e"]);
    LiquidarAnulada(Paso(l, OpAnular("e")));
  }

  lemma {:induction false} LiquidarAnulada(m: Libro)
    requires "e" in m.asientos && m.asientos["e"].partidas == RENTA && m.asientos["e"].estado == Anulado
    requires m.cuentas == map["caja" := 0.0]
    ensures var z := Paso(m, OpLiquidar("e", "locador", None, "caja"));
            "e" in z.asientos && z.asientos["e"].estado == Liquidado && z.cuentas == map["caja" := -10000.0]
  {
    NetoDeRenta(RENTA);
    PasoDeLiquidacion(m, "e", "locador", None, "caja");
    LiquidarEnLinea(RENTA, "locador", None, 0);
    LiquidarEnLinea(RENTA, "locador", None, 1);
    assert TodasLiquidadas(Liquidar(RENTA, "locador", None));
  }

  lemma {:induction false} NetoDeRenta(ps: seq<Partida>)
    requires ps == RENTA || ps == PAGADA
    ensures TieneLineas(ps, "locador") && Neto(ps, "locador", None) == 10000.0
    ensures Total(Disponible("locador"), ps) == 10000.0 && Total(Compensable("locador"), ps) == 0.0
  {
    assert HaberDe("locador", ps[1]);
    Settlements.LiquidacionTotal(ps, "locador", None);
    TotalPair(Disponible("locador"), ps[0], ps[1]);
    TotalPair(Compensable("locador"), ps[0], ps[1]);
  }

  /** Statement.LiquidacionProporcional and AdelantoNegativo: nothing is collected of a rent, so nothing of it is
      available; its owner is settled in full all the same, and then has a negative amount available. */
  lemma {:induction false} Adelanto(a: Asiento)
    requires a == Entrada(Pendiente, 10000.0, RENTA)
    ensures var b := ConLiquidacion(a, "locador", None);
            && Inicial(a)
            && Statement.DisponibleDe(Statement.Par(a, RENTA[1])) == 0.0
            && ALiquidar(RENTA, "locador", None, 1) == 10000.0
            && Statement.DisponibleDe(Statement.Par(b, b.partidas[1])) == -10000.0
  {
    RentaInicial(a);
    NetoDeRenta(RENTA);
    NadaDisponible();
    Statement.DisponibleTrasLiquidar(a, "locador", None, 1);
  }

  lemma {:induction false} NadaDisponible()
    ensures Statement.Cuota(RENTA, RENTA[1]) == 0.0
    ensures Times(0.0, Statement.Proporcion(RENTA, 10000.0)) == 0.0
  {
    Sumas(RENTA[0], RENTA[1]);
  }

  /** Statement.CuotaCompleta: on an entry whose DEBE is above its HABER, share and pending share come to more than
      the line. */
  lemma {:induction false} CuotaDeDesbalanceada()
    ensures var ps := [Debe(10000.0), Haber("locador", 8000.0)];
            Statement.Cuota(ps, ps[1]) + Statement.CuotaPendiente(ps, ps[1]) == 10000.0
  {
    var ps := [Debe(10000.0), Haber("locador", 8000.0)];
    Sumas(ps[0], ps[1]);
    TotalPair(HaberPositivo, ps[0], ps[1]);
    OverSelf(8000.0);
  }

  /** Statement.PendientesOcultos: a deposit to return is open, and the pending-only view is empty. */
  lemma {:induction false} DepositoOculto(x: Statement.Par)
    requires x.asiento.tipo == DepositoDevolucion && x.partida == Haber("locador", 10000.0)
    ensures var ms := Statement.Movimientos("locador", [x]);
            |ms| == 1 && Statement.Abierto(ms[0]) && Statement.Filtrados(ms) == []
  {
    var xs := [x];
    assert xs[..|xs| - 1] == [] && Statement.Movimientos("locador", xs[..|xs| - 1]) == [];
    var ms := Statement.Movimientos("locador", xs);
    assert ms == Statement.Ultimo("locador", xs);
    assert Statement.Filtrados(ms[1..]) == [];
  }

  // ---------- receipts ----------

  /** Receipts.ReciboDeCobros: a collection of an entry without DEBE is reported, and no cash enters. */
  lemma {:induction false} CobroSinDebe()
    ensures var l := Con(Entrada(Pendiente, 10000.0, [Haber("locador", 10000.0)]));
            var lineas := [Receipts.Linea("e", Receipts.Cobro, 5000.0, None)];
            && Receipts.Operaciones(l, lineas, "caja") == [Receipts.Procesada(lineas[0])]
            && Receipts.Reportado(l, lineas, "caja") == 5000.0 && Receipts.Movido(l, lineas, "caja") == 0.0
  {
    var p := Haber("locador", 10000.0);
    var l := Con(Entrada(Pendiente, 10000.0, [p]));
    var lineas := [Receipts.Linea("e", Receipts.Cobro, 5000.0, None)];
    TotalSingle(DebeOf, p);
    TotalSingle(HaberOf, p);
    TotalSingle(PagadoEnHaber, p);
    PasoDePago(l, "e", 5000.0, "caja");
    UnaLinea(l, lineas[0], "caja");
  }

  lemma {:induction false} UnaLinea(l: Libro, linea: Receipts.Linea, cuenta: string)
    ensures Receipts.Tras(l, [linea], cuenta) == Receipts.Siguiente(l, Receipts.Intento(l, linea, cuenta))
    ensures var o := Receipts.Resultado(linea, Receipts.Intento(l, linea, cuenta));
            && Receipts.Operaciones(l, [linea], cuenta) == [o]
            && Receipts.Reportado(l, [linea], cuenta) == Receipts.IngresoDe(o) - Receipts.EgresoDe(o)
  {
    assert [linea][..0] == [];
    var o := Receipts.Resultado(linea, Receipts.Intento(l, linea, cuenta));
    assert Receipts.Operaciones(l, [linea], cuenta) == [o];
    TotalSingle(Receipts.IngresoDe, o);
    TotalSingle(Receipts.EgresoDe, o);
  }

  /** Receipts.ReciboDeLiquidaciones: a settlement line of thirty pesos reports thirty and pays the whole hundred. */
  lemma {:induction false} PagoPorOtroMonto()
    ensures var l := Con(Entrada(Pendiente, 10000.0, RENTA));
            var lineas := [Receipts.Linea("e", Receipts.Pago, 3000.0, Some("locador"))];
            Receipts.Reportado(l, lineas, "caja") == -3000.0 && Receipts.Movido(l, lineas, "caja") == -10000.0
  {
    var l := Con(Entrada(Pendiente, 10000.0, RENTA));
    NetoDeRenta(RENTA);
    PasoDeLiquidacion(l, "e", "locador", None, "caja");
    UnaLinea(l, Receipts.Linea("e", Receipts.Pago, 3000.0, Some("locador")), "caja");
  }

  /** Receipts.ReciboMixto: an agent that owes a hundred pesos on an entry and is due a hundred. A receipt
      that collects and then settles, asking for nothing, reports a hundred in. Before it, nothing was to be paid; but
      the settlement finds the debt collected and pays the hundred out. */
  lemma {:induction false} CobroYLiquidacion(l: Libro)
    requires l == Con(Entrada(Pendiente, 10000.0, PROPIA))
    ensures var lineas := [Receipts.Linea("e", Receipts.Cobro, 10000.0, None),
                           Receipts.Linea("e", Receipts.Pago, 0.0, Some("socio"))];
            && Inicial(l.asientos["e"])
            && Receipts.Desembolso(l, lineas, "caja", 1) == 0.0 && !Receipts.SinCruce(l, lineas[..1], lineas[1])
            && Receipts.Tras(l, lineas, "caja").cuentas == map["caja" := 0.0]
  {
    var lineas := [Receipts.Linea("e", Receipts.Cobro, 10000.0, None),
                   Receipts.Linea("e", Receipts.Pago, 0.0, Some("socio"))];
    CobroDePropia(l);
    var m := Receipts.Siguiente(l, Receipts.Intento(l, lineas[0], "caja"));
    LiquidacionDePropia(m);
    assert lineas[..1] == [lineas[0]] && lineas[..1][..0] == [];
    assert Receipts.Tras(l, lineas[..1], "caja") == m;
    TotalPair(Disponible("socio"), PROPIA[0], PROPIA[1]);
    TotalPair(Compensable("socio"), PROPIA[0], PROPIA[1]);
  }

  const PROPIA: seq<Partida> := [Debe(10000.0).(agente := Some("socio")), Haber("socio", 10000.0)]
  const PROPIA_PAGADA: seq<Partida> := [PROPIA[0].(pagado := 10000.0), PROPIA[1]]

  lemma {:induction false} CobroDePropia(l: Libro)
    requires l == Con(Entrada(Pendiente, 10000.0, PROPIA))
    ensures Inicial(l.asientos["e"])
    ensures var r := Pagar(l, "e", 10000.0, "caja");
            && r.Ok? && r.value.cuentas == map["caja" := 10000.0] && "e" in r.value.asientos
            && r.value.asientos["e"].partidas == PROPIA_PAGADA
  {
    Sumas(PROPIA[0], PROPIA[1]);
    PasoDePago(l, "e", 10000.0, "caja");
    assert Imputar(PROPIA, 10000.0) == PROPIA_PAGADA;
  }

  lemma {:induction false} LiquidacionDePropia(m: Libro)
    requires m.cuentas == map["caja" := 10000.0] && "e" in m.asientos && m.asientos["e"].partidas == PROPIA_PAGADA
    ensures var r := LiquidarAPropietario(m, "e", "socio", None, "caja");
            r.Ok? && r.value.cuentas == map["caja" := 0.0]
  {
    var ps := PROPIA_PAGADA;
    assert HaberDe("socio", ps[1]);
    Settlements.LiquidacionTotal(ps, "socio", None);
    TotalPair(Disponible("socio"), ps[0], ps[1]);
    TotalPair(Compensable("socio"), ps[0], ps[1]);
    PasoDeLiquidacion(m, "e", "socio", None, "caja");
  }

  /** Settlements.LiquidacionPartida: an agent that owes and is due a hundred pesos. Settled at once it is paid
      nothing; in two halves, twice fifty. */
  lemma {:induction false} LiquidacionEnMitades()
    ensures var ps := PROPIA;
            && Neto(ps, "socio", Some(10000.0)) == 0.0
            && Abs(Neto(ps, "socio", Some(5000.0))) == 5000.0
            && Abs(Neto(Liquidar(ps, "socio", Some(5000.0)), "socio", Some(5000.0))) == 5000.0
  {
    var ps := PROPIA;
    TotalPair(Disponible("socio"), ps[0], ps[1]);
    TotalPair(Compensable("socio"), ps[0], ps[1]);
    Settlements.LiquidacionParcial(ps, "socio", 10000.0);
    Settlements.LiquidacionParcial(ps, "socio", 5000.0);
    Settlements.NetosPartidos(ps, "socio", 5000.0, 5000.0);
  }

  // ---------- contracts ----------

  /** Adjustment.MesesDelContrato and IndiceConstanteEsFijo: a contract of a year whose first adjustment is dated
      half a year before it accrues eighteen months. */
  lemma {:induction false} AjusteAntesDelInicio()
    ensures var start, primero, end := Date(24276, 1), Date(24270, 1), Date(24288, 1);
            && Total(Adjustment.MesesDe, Adjustment.PeriodosDesde(start, primero, end)) == 18.0
            && FloorMonths(start, end) == 12
  {
    Adjustment.MesesCubiertos(Date(24276, 1), Date(24270, 1), Date(24288, 1));
  }

  const PERIODOS := [Adjustment.Periodo(Date(24000, 1), Date(24001, 1), Date(24001, 1), 1),
                     Adjustment.Periodo(Date(24001, 1), Date(24007, 1), Date(24007, 1), 6)]

  /** One in the first month, and one more each month. */
  function Creciente(d: Date): Option<real> {
    if d.month < 24000 then None else Some((d.month - 23999) as real)
  }

  function Indexado(): Generator.Contrato {
    Generator.Contrato("contrato", "locador", "inquilino", Date(24000, 1), Date(24007, 1), 10000.0, 0.0, true,
                       Some(Date(24001, 1)), 0.0, None, None, None, None)
  }

  /** GeneratedEntries.HistorialContraDevengado: a rent of one hundred pesos adjusted after a month, when the index has
      doubled, and again half a year later. Of its second period two hundred a month are accrued, and eight hundred
      are charged. */
  lemma {:induction false} HistorialSeAdelanta(c: Generator.Contrato)
    requires c == Indexado()
    ensures Generator.FechasValidas(c) && Generator.PeriodosDe(c) == PERIODOS
    ensures Adjustment.RentaEn(c.base, PERIODOS, Creciente, 1) == 20000.0
    ensures Generator.VigenciaEn(c, PERIODOS, Creciente, 1) == Generator.Vigencia(1, 80000.0)
  {
    PeriodosDeIndexado();
    RentasDeIndexado();
    assert Generator.FechaCuota(c.inicio, 1) == Date(24001, 1);
    assert Generator.FechaCuota(c.inicio, 0) == Date(24000, 1);
    assert Generator.VigenciaEn(c, PERIODOS, Creciente, 0) == Generator.Vigencia(0, 10000.0);
    assert Adjustment.RentaEn(c.base, PERIODOS, Creciente, 0) == 10000.0;
  }

  lemma {:induction false} PeriodosDeIndexado()
    ensures Adjustment.PeriodosDesde(Date(24000, 1), Date(24001, 1), Date(24007, 1)) == PERIODOS
  {
    assert Adjustment.PeriodosDesde(Date(24001, 1), Date(24007, 1), Date(24007, 1)) == [PERIODOS[1]];
  }

  lemma {:induction false} RentasDeIndexado()
    ensures Adjustment.Ajustada(10000.0, Some(1.0), Some(2.0)) == 20000.0
    ensures Adjustment.Ajustada(10000.0, Some(1.0), Some(8.0)) == 80000.0
  {
    WholeInt(20000);
    WholeInt(80000);
    RoundWhole(20000.0);
    RoundWhole(80000.0);
    assert Over(2.0, 1.0) == 2.0 && Over(8.0, 1.0) == 8.0;
  }

  function Contrato(pct: real): Generator.Contrato {
    Generator.Contrato("contrato", "locador", "inquilino", Date(24276, 1), Date(24277, 1), 10000.0, 0.0, false, None,
                       0.0, Some(pct), Some(1), None, None)
  }

  lemma {:induction false} MontoDelContrato(pct: real)
    ensures Generator.FechasValidas(Contrato(pct)) && Generator.MontoContrato(Contrato(pct)) == 10000.0
  {
    assert Generator.MesesContrato(Contrato(pct)) == 1;
    WholeInt(10000);
    RoundWhole(10000.0);
  }

  /** GeneratedEntries.RentaBalanceada: a base rent with half a centavo gives an entry that does not balance. */
  lemma {:induction false} MedioCentavo(c: Generator.Contrato, indice: Adjustment.Indice)
    requires c == Contrato(0.0).(base := 10000.5)
    ensures Generator.FechasValidas(c)
    ensures exists a :: a in Generator.Historial(c, indice) && !Balanceado(a.partidas)
  {
    PrimerAlquiler(c, indice);
    GeneratedEntries.RentaBalanceada(c, c.inicio, 1, c.base);
  }

  lemma {:induction false} PrimerAlquiler(c: Generator.Contrato, indice: Adjustment.Indice)
    requires Generator.FechasValidas(c) && !c.indexado && Before(c.inicio, c.fin)
    ensures Generator.AsientoAlquiler(c, c.inicio, 1, c.base) in Generator.Historial(c, indice)
  {
    Generator.CuotasAntesDelFin(c.inicio, c.fin, 0);
    var xs := Generator.Alquileres(c, indice);
    assert xs[0] == Generator.AlquilerEn(c, [], indice, 0);
    assert xs[0] in xs && forall a :: a in xs ==> a in Generator.Historial(c, indice);
  }

  /** DirectGenerator.MismosAsientos and HonorarioInfimo: a fee of a tenth of a centavo. The script books an entry
      of zero, the service none. */
  lemma {:induction false} HonorarioDeDecimas()
    ensures var c := Contrato(0.001);
            && Generator.FechasValidas(c)
            && forall indice :: multiset(DirectGenerator.Conceptos(DirectGenerator.Directo(c))) !=
                                multiset(DirectGenerator.Conceptos(DirectGenerator.Servicio(c, indice)))
  {
    var c := Contrato(0.001);
    MontoDelContrato(0.001);
    WholeInt(0);
    WholeInt(10000);
    RoundUnique(Over(Times(10000.0, 0.001), 100.0), 0.0);
    RoundWhole(Over(0.0, 1.0));
    forall indice ensures multiset(DirectGenerator.Conceptos(DirectGenerator.Directo(c))) !=
                          multiset(DirectGenerator.Conceptos(DirectGenerator.Servicio(c, indice)))
    {
      DirectGenerator.HonorarioInfimo(c, indice);
    }
  }

  /** GeneratedEntries.HonorariosSuman: a negative fee is a rebate that no entry carries. */
  lemma {:induction false} RebajaSinAsiento()
    ensures var c := Contrato(-1.0);
            && Generator.FechasValidas(c)
            && Generator.HonorarioTotal(Generator.MontoContrato(c), -1.0) == -100.0
            && Generator.Honorarios(c, HonorariosLocador, c.locadorPct, c.locadorCuotas) == []
  {
    MontoDelContrato(-1.0);
    WholeInt(-100);
    RoundWhole(-100.0);
    assert Over(-100.0, 1.0) == -100.0;
  }

  /** GeneratedEntries.InformeExacto: a contract of one rent and a deposit. The report counts one entry fewer than
      are generated. */
  lemma {:induction false} DepositoSinInformar(c: Generator.Contrato, hoy: Date, indice: Adjustment.Indice)
    requires c == Contrato(0.0).(deposito := 10000.0) && Valid(hoy)
    ensures Generator.FechasValidas(c)
    ensures Generator.InformeDe(c, false, hoy, indice).generados != |Generator.Entradas(c, false, hoy, indice)|
  {
    ContratoConDeposito(c);
    GeneratedEntries.InformeExacto(c, false, hoy, indice);
  }

  lemma {:induction false} ContratoConDeposito(c: Generator.Contrato)
    requires c == Contrato(0.0).(deposito := 10000.0)
    ensures Generator.FechasValidas(c) && Whole(c.base) && c.deposito > 0.0
  {
    WholeInt(10000);
  }

  // ---------- import ----------

  /** ImportPayments.IncrementoPorLinea: two lines of the same tenant, and one payment counted twice. */
  lemma {:induction false} PagoEnDosLineas()
    ensures var ps := [Debe(10000.0), Debe(10000.0)];
            var g := ImportPayments.Grupo(ImportPayments.Clave("e", "inquilino", true), 10000.0);
            Total(PagadoOf, ImportPayments.IncrementarLineas(ps, "e", g)) == 20000.0
  {
    var ps := [Debe(10000.0), Debe(10000.0)];
    var g := ImportPayments.Grupo(ImportPayments.Clave("e", "inquilino", true), 10000.0);
    var qs := ImportPayments.IncrementarLineas(ps, "e", g);
    assert qs == [qs[0], qs[1]];
    Sumas(qs[0], qs[1]);
  }

  /** ImportPayments.LiquidadoImportado: imported as LIQUIDADO with the agency's commission still open. */
  lemma {:induction false} ComisionAbierta()
    ensures var ps := [Debe(10000.0).(pagado := 10000.0), Haber("locador", 9000.0).(liquidado := 9000.0),
                       Haber("", 1000.0).(agente := None)];
            ImportPayments.EstadoFinal(ps) == Liquidado && !TodasLiquidadas(ps)
  {
    var p, q, r := Debe(10000.0).(pagado := 10000.0), Haber("locador", 9000.0).(liquidado := 9000.0),
                   Haber("", 1000.0).(agente := None);
    TotalTriple(DebeOf, p, q, r);
    TotalTriple(PagadoOf, p, q, r);
    TotalTriple(ImportPayments.HaberConAgente, p, q, r);
    TotalTriple(ImportPayments.LiquidadoConAgente, p, q, r);
    assert [p, q, r][2] == r;
  }

  // ---------- identifiers, projection, cash box ----------

  /** Cuit.ErrorNoDetectado: two valid codes that differ in one digit. */
  lemma {:induction false} CuitEquivocado(s: string, t: string)
    requires s == "20100000059" && t == "20500000059"
    ensures Cuit.Validar(s).Valido? && Cuit.Validar(t).Valido? && Cuit.DifierenEn(s, t, 2)
  {
    CuitValido(s);
    CuitValido(t);
  }

  predicate Parecido(s: string) {
    && |s| == 11 && s[..2] == "20" && (s[2] == '1' || s[2] == '5') && s[9] == '5' && s[10] == '9'
    && forall i :: 3 <= i < 9 ==> s[i] == '0'
  }

  lemma {:induction false} CuitValido(s: string)
    requires Parecido(s)
    ensures Cuit.Validar(s).Valido?
  {
    assert s[0] == s[..2][0] && s[1] == s[..2][1];
    Cuit.QuitarNada(s, '-');
    assert Cuit.TIPOS[0] == "20";
    SumaDeCeros(s, 9);
    Cuit.DosPasos(s, 0);
  }

  lemma {:induction false} SumaDeCeros(s: string, n: nat)
    requires Parecido(s) && 3 <= n <= 9
    ensures Cuit.SumaHasta(s, n) == Cuit.SumaHasta(s, 3)
  {
    if n > 3 { SumaDeCeros(s, n - 1); }
  }

  /** Regression.ProyeccionLineal: revenue that grows by one hundred a month is projected to grow by one, two and
      three hundred. */
  lemma {:induction false} ProyeccionAcelerada()
    ensures var ys := [100.0, 200.0];
            Regression.Proyeccion(ys, Regression.Pendiente(ys), 3) == [100.0, 200.0, 300.0, 500.0, 800.0]
  {
    var ys := [100.0, 200.0];
    assert forall i :: 0 <= i < 2 ==> ys[i] == Times(100.0, i as real) + 100.0;
    WholeInt(100);
    WholeInt(200);
    Regression.ProyeccionEntera(ys, Regression.Recta(100.0, 100.0));
  }

  /** CashBox.SaldoExplicado: the balance drops by half at an opening and no record or cash movement says so. */
  lemma {:induction false} AperturaSinExplicar()
    ensures var k := CashBox.Caja(Some(CashBox.CajaEfectivo), 10000.0, []);
            var z := CashBox.Correr(k, [CashBox.OpAbrir(Some(5000.0))]);
            z.saldo == 5000.0 && Total(CashBox.Registrada, z.movimientos) == 0.0
  {
    var k := CashBox.Caja(Some(CashBox.CajaEfectivo), 10000.0, []);
    var ops := [CashBox.OpAbrir(Some(5000.0))];
    assert ops[..0] == [] && CashBox.Correr(k, ops[..0]) == k;
    TotalSingle(CashBox.Registrada, CashBox.Apertura(5000.0));
  }
}
