/** A receipt runs a list of collections and settlements on one cash account; a line that fails is reported
    and the rest go on. */
module Receipts {
  import opened Common
  import opened Entries
  import opened Imputation
  import opened Ledger
  import Runs
  import Settlements

  datatype TipoOperacion = Cobro | Pago

  datatype Linea = Linea(id: string, tipo: TipoOperacion, monto: real, agente: Option<string>)

  /** Outcome of a line: PROCESADO, or ERROR with its cause. */
  datatype Operacion = Procesada(linea: Linea) | Fallida(linea: Linea, error: Error)

  datatype Recibo = Recibo(totalIngreso: real, totalEgreso: real, movimientoNeto: real, operaciones: seq<Operacion>)

  predicate SinAgente(linea: Linea) {
    linea.agente == None || linea.agente == Some("")
  }

  /** A settlement line never forwards its own amount: it settles the agent in full. */
  function Intento(l: Libro, linea: Linea, cuenta: string): Result<Libro, Error> {
    match linea.tipo
    case Cobro => Pagar(l, linea.id, linea.monto, cuenta)
    case Pago =>
      if SinAgente(linea) then Err(RequiereAgente)
      else LiquidarAPropietario(l, linea.id, linea.agente.value, None, cuenta)
  }

  /** The store after the lines, in order. */
  function Tras(l: Libro, lineas: seq<Linea>, cuenta: string): Libro {
    if lineas == [] then l
    else
      var previo := Tras(l, lineas[..|lineas| - 1], cuenta);
      Siguiente(previo, Intento(previo, lineas[|lineas| - 1], cuenta))
  }

  /** How line i fares, on the store the earlier lines leave. */
  function IntentoEn(l: Libro, lineas: seq<Linea>, cuenta: string, i: nat): Result<Libro, Error>
    requires i < |lineas|
  {
    Intento(Tras(l, lineas[..i], cuenta), lineas[i], cuenta)
  }

  function Resultado(linea: Linea, r: Result<Libro, Error>): Operacion {
    match r
    case Ok(_) => Procesada(linea)
    case Err(e) => Fallida(linea, e)
  }

  function Operaciones(l: Libro, lineas: seq<Linea>, cuenta: string): seq<Operacion> {
    seq(|lineas|, i requires 0 <= i < |lineas| => Resultado(lineas[i], IntentoEn(l, lineas, cuenta, i)))
  }

  /** What an outcome adds to the reported totals. */
  function IngresoDe(o: Operacion): real {
    if o.Procesada? && o.linea.tipo == Cobro then o.linea.monto else 0.0
  }

  function EgresoDe(o: Operacion): real {
    if o.Procesada? && o.linea.tipo == Pago then o.linea.monto else 0.0
  }

  /** The net movement a receipt reports. */
  function Reportado(l: Libro, lineas: seq<Linea>, cuenta: string): real {
    var os := Operaciones(l, lineas, cuenta);
    Total(IngresoDe, os) - Total(EgresoDe, os)
  }

  function Siguiente(l: Libro, r: Result<Libro, Error>): Libro {
    match r
    case Ok(nuevo) => nuevo
    case Err(_) => l
  }

  method ProcesarLinea(s: LedgerService, linea: Linea, cuenta: string)
    returns (o: Operacion, ingreso: real, egreso: real)
    modifies s
    ensures s.Contenido() == Siguiente(old(s.Contenido()), Intento(old(s.Contenido()), linea, cuenta))
    ensures o == Resultado(linea, Intento(old(s.Contenido()), linea, cuenta))
    ensures ingreso == IngresoDe(o) && egreso == EgresoDe(o)
  {
    ingreso, egreso := 0.0, 0.0;
    if linea.tipo == Cobro {
      var r := s.RegisterPayment(linea.id, linea.monto, cuenta);
      o := if r.Ok? then Procesada(linea) else Fallida(linea, r.error);
      if r.Ok? { ingreso := linea.monto; }
    } else if SinAgente(linea) {
      o := Fallida(linea, RequiereAgente);
    } else {
      var r := s.LiquidarPropietario(linea.id, linea.agente.value, None, cuenta);
      o := if r.Ok? then Procesada(linea) else Fallida(linea, r.error);
      if r.Ok? { egreso := linea.monto; }
    }
  }

  lemma {:induction false} UnaOperacionMas(os: seq<Operacion>, o: Operacion)
    ensures Total(IngresoDe, os + [o]) == Total(IngresoDe, os) + IngresoDe(o)
    ensures Total(EgresoDe, os + [o]) == Total(EgresoDe, os) + EgresoDe(o)
  {
    assert (os + [o])[..|os|] == os;
  }

  method ProcesarRecibo(s: LedgerService, lineas: seq<Linea>, cuenta: string) returns (r: Recibo)
    modifies s
    ensures s.Contenido() == Tras(old(s.Contenido()), lineas, cuenta)
    ensures r.operaciones == Operaciones(old(s.Contenido()), lineas, cuenta)
    ensures r.totalIngreso == Total(IngresoDe, r.operaciones)
    ensures r.totalEgreso == Total(EgresoDe, r.operaciones)
    ensures r.movimientoNeto == r.totalIngreso - r.totalEgreso
  {
    ghost var l := s.Contenido();
    ghost var esperado := Operaciones(l, lineas, cuenta);
    var operaciones := [];
    var totalIngreso, totalEgreso := 0.0, 0.0;
    for i := 0 to |lineas|
      invariant s.Contenido() == Tras(l, lineas[..i], cuenta)
      invariant operaciones == esperado[..i]
      invariant totalIngreso == Total(IngresoDe, operaciones)
      invariant totalEgreso == Total(EgresoDe, operaciones)
    {
      assert lineas[..i + 1][..i] == lineas[..i];
      var operacion, ingreso, egreso := ProcesarLinea(s, lineas[i], cuenta);
      assert operacion == esperado[i];
      totalIngreso, totalEgreso := totalIngreso + ingreso, totalEgreso + egreso;
      UnaOperacionMas(operaciones, operacion);
      operaciones := operaciones + [operacion];
    }
    assert lineas[..|lineas|] == lineas && esperado[..|lineas|] == esperado;
    r := Recibo(totalIngreso, totalEgreso, totalIngreso - totalEgreso, operaciones);
  }

  // ---------- cash ----------

  predicate TieneDebe(l: Libro, id: string) {
    id in l.asientos && Total(DebeOf, l.asientos[id].partidas) > 0.0
  }

  /** Cash a line moves: a processed collection of an entry with DEBE, in; a processed settlement, the net of
      what it settles and compensates, out. */
  function Efecto(l: Libro, linea: Linea, cuenta: string): real {
    if Intento(l, linea, cuenta).Err? then 0.0
    else match linea.tipo
      case Cobro => if TieneDebe(l, linea.id) then linea.monto else 0.0
      case Pago => -Abs(Neto(l.asientos[linea.id].partidas, linea.agente.value, None))
  }

  function Efectos(l: Libro, lineas: seq<Linea>, cuenta: string): (xs: seq<real>)
    ensures |xs| == |lineas|
  {
    seq(|lineas|, i requires 0 <= i < |lineas| => Efecto(Tras(l, lineas[..i], cuenta), lineas[i], cuenta))
  }

  lemma {:induction false} LineaEnCaja(l: Libro, linea: Linea, cuenta: string)
    ensures Siguiente(l, Intento(l, linea, cuenta)).cuentas == Mover(l.cuentas, cuenta, Efecto(l, linea, cuenta))
  {
    MoverDos(l.cuentas, cuenta, 0.0, 0.0);
  }

  /** Change of the receipt's account. */
  function Movido(l: Libro, lineas: seq<Linea>, cuenta: string): real {
    Runs.Saldo(Tras(l, lineas, cuenta))(cuenta) - Runs.Saldo(l)(cuenta)
  }

  lemma {:induction false} LineaDelRecibo(l: Libro, lineas: seq<Linea>, cuenta: string, i: nat)
    requires i < |lineas|
    ensures Tras(l, lineas[..i + 1], cuenta).cuentas ==
            Mover(Tras(l, lineas[..i], cuenta).cuentas, cuenta, Efectos(l, lineas, cuenta)[i])
  {
    assert lineas[..i + 1][..i] == lineas[..i];
    LineaEnCaja(Tras(l, lineas[..i], cuenta), lineas[i], cuenta);
  }

  lemma {:induction false} CajaHasta(l: Libro, lineas: seq<Linea>, cuenta: string, n: nat)
    requires n <= |lineas|
    ensures Tras(l, lineas[..n], cuenta).cuentas ==
            Mover(l.cuentas, cuenta, Total(Same, Efectos(l, lineas, cuenta)[..n]))
  {
    if n == 0 {
      MoverDos(l.cuentas, cuenta, 0.0, 0.0);
    } else {
      CajaHasta(l, lineas, cuenta, n - 1);
      LineaDelRecibo(l, lineas, cuenta, n - 1);
      UnEfectoMas(l.cuentas, cuenta, Efectos(l, lineas, cuenta), n - 1);
    }
  }

  lemma {:induction false} UnEfectoMas(cuentas: map<string, real>, cuenta: string, xs: seq<real>, n: nat)
    requires n < |xs|
    ensures Mover(Mover(cuentas, cuenta, Total(Same, xs[..n])), cuenta, xs[n]) ==
            Mover(cuentas, cuenta, Total(Same, xs[..n + 1]))
  {
    TotalStep(Same, xs, n);
    MoverDos(cuentas, cuenta, Total(Same, xs[..n]), xs[n]);
  }

  /** A receipt moves its account by exactly the sum of its lines' effects, and no other account; lines on a
      missing account have none. */
  lemma {:induction false} CajaDelRecibo(l: Libro, lineas: seq<Linea>, cuenta: string)
    ensures cuenta !in l.cuentas ==> Total(Same, Efectos(l, lineas, cuenta)) == 0.0
    ensures Tras(l, lineas, cuenta).cuentas == Mover(l.cuentas, cuenta, Total(Same, Efectos(l, lineas, cuenta)))
  {
    CajaHasta(l, lineas, cuenta, |lineas|);
    assert lineas[..|lineas|] == lineas;
    assert Efectos(l, lineas, cuenta)[..|lineas|] == Efectos(l, lineas, cuenta);
    if cuenta !in l.cuentas {
      forall i | 0 <= i < |lineas| ensures Efectos(l, lineas, cuenta)[i] == 0.0 {
        CajaHasta(l, lineas, cuenta, i);
        EfectoSinCuenta(Tras(l, lineas[..i], cuenta), lineas[i], cuenta);
      }
      TotalZero(Same, Efectos(l, lineas, cuenta));
    }
  }

  lemma {:induction false} EfectoSinCuenta(l: Libro, linea: Linea, cuenta: string)
    requires cuenta !in l.cuentas
    ensures Efecto(l, linea, cuenta) == 0.0
  {
  }

  /** A line in ERROR leaves the store as it found it. */
  lemma {:induction false} LineaFallidaNoGuarda(l: Libro, lineas: seq<Linea>, cuenta: string, i: nat)
    requires i < |lineas| && Operaciones(l, lineas, cuenta)[i].Fallida?
    ensures Tras(l, lineas[..i + 1], cuenta) == Tras(l, lineas[..i], cuenta)
  {
    assert lineas[..i + 1][..i] == lineas[..i];
  }

  /** Receipts keep the ledger sound: its lines are ledger operations. */
  lemma {:induction false} ReciboSano(l: Libro, lineas: seq<Linea>, cuenta: string)
    requires Runs.LibroSano(l)
    ensures Runs.LibroSano(Tras(l, lineas, cuenta))
    ensures forall id :: TieneDebe(Tras(l, lineas, cuenta), id) <==> TieneDebe(l, id)
  {
    if lineas != [] {
      var n := |lineas| - 1;
      ReciboSano(l, lineas[..n], cuenta);
      var m, linea := Tras(l, lineas[..n], cuenta), lineas[n];
      var z := Tras(l, lineas, cuenta);
      if Intento(m, linea, cuenta).Ok? {
        var op := if linea.tipo == Cobro then Runs.OpPago(linea.id, linea.monto, cuenta)
                  else Runs.OpLiquidar(linea.id, linea.agente.value, None, cuenta);
        assert Runs.Paso(m, op) == z;
        Runs.PasoSano(m, op);
        forall id ensures TieneDebe(z, id) <==> TieneDebe(m, id) {
          if id in m.asientos {
            Runs.MismoDebe(m.asientos[id], z.asientos[id]);
          }
        }
      }
    }
  }

  /** Cash moved minus what the receipt reports, line by line. */
  function Desvio(l: Libro, linea: Linea, cuenta: string): real {
    if Intento(l, linea, cuenta).Err? then 0.0
    else match linea.tipo
      case Cobro => if TieneDebe(l, linea.id) then 0.0 else -linea.monto
      case Pago => linea.monto - Abs(Neto(l.asientos[linea.id].partidas, linea.agente.value, None))
  }

  function Desvios(l: Libro, lineas: seq<Linea>, cuenta: string): (xs: seq<real>)
    ensures |xs| == |lineas|
  {
    seq(|lineas|, i requires 0 <= i < |lineas| => Desvio(Tras(l, lineas[..i], cuenta), lineas[i], cuenta))
  }

  function Neta(o: Operacion): real {
    IngresoDe(o) - EgresoDe(o)
  }

  /** The cash moved is the reported net plus the deviations of the lines. */
  lemma {:induction false} MovidoYReportado(l: Libro, lineas: seq<Linea>, cuenta: string)
    ensures Movido(l, lineas, cuenta) == Reportado(l, lineas, cuenta) + Total(Same, Desvios(l, lineas, cuenta))
  {
    var os := Operaciones(l, lineas, cuenta);
    CajaDelRecibo(l, lineas, cuenta);
    TotalAdd(IngresoDe, os, Neta, os, EgresoDe, os);
    TotalAdd(Same, Efectos(l, lineas, cuenta), Neta, os, Same, Desvios(l, lineas, cuenta));
  }

  // ---------- the same, read off the store before the receipt ----------

  /** A collection that will be accepted and moves no cash: the entry has no DEBE. */
  predicate CobraSinDebe(l: Libro, linea: Linea) {
    linea.id in l.asientos && !TieneDebe(l, linea.id) && PagoAceptable(l.asientos[linea.id], linea.monto)
  }

  /** A settlement that will be accepted. */
  predicate Aceptable(l: Libro, linea: Linea, cuenta: string) {
    !SinAgente(linea) && LiquidacionAceptable(l, linea.id, linea.agente.value, None, cuenta)
  }

  predicate Toca(lineas: seq<Linea>, id: string, tipo: TipoOperacion) {
    exists j :: 0 <= j < |lineas| && lineas[j].id == id && lineas[j].tipo == tipo
  }

  /** Some of the lines settles this agent on this entry. */
  predicate Liquida(lineas: seq<Linea>, id: string, a: string) {
    exists j :: 0 <= j < |lineas| && Es(lineas[j], id, a)
  }

  predicate Es(linea: Linea, id: string, a: string) {
    linea.id == id && linea.tipo == Pago && linea.agente == Some(a)
  }

  /** The agent owes nothing on the entry. */
  predicate NoDebe(ps: seq<Partida>, a: string) {
    forall i :: 0 <= i < |ps| ==> Compensable(a)(ps[i]) == 0.0
  }

  /** What a line does is not changed by earlier lines of the other kind on its entry: a settled agent owes nothing
      there, or nothing was collected before; and an entry without DEBE is open for collection, or nothing was
      settled before. */
  predicate SinCruce(l: Libro, previas: seq<Linea>, linea: Linea) {
    linea.id in l.asientos ==>
      match linea.tipo
      case Cobro =>
        TieneDebe(l, linea.id) || Cobrable(l.asientos[linea.id]) || !Toca(previas, linea.id, Pago)
      case Pago =>
        SinAgente(linea) || NoDebe(l.asientos[linea.id].partidas, linea.agente.value)
        || !Toca(previas, linea.id, Cobro)
  }

  predicate Cobrable(a: Asiento) {
    a.estado != Anulado && a.estado != Condonado
  }

  predicate SinCruces(l: Libro, lineas: seq<Linea>) {
    forall i :: 0 <= i < |lineas| ==> SinCruce(l, lineas[..i], lineas[i])
  }

  /** Open HABER less open DEBE of the agent, whichever way. */
  function Abierto(l: Libro, linea: Linea): real
    requires linea.id in l.asientos && linea.agente.Some?
  {
    var ps, a := l.asientos[linea.id].partidas, linea.agente.value;
    Abs(Total(Disponible(a), ps) - Total(Compensable(a), ps))
  }

  /** What a settlement line pays: all that was open before the receipt, the first time its agent comes up. */
  function Desembolso(l: Libro, lineas: seq<Linea>, cuenta: string, i: nat): real
    requires i < |lineas|
  {
    var linea := lineas[i];
    if !Aceptable(l, linea, cuenta) || Liquida(lineas[..i], linea.id, linea.agente.value) then 0.0
    else Abierto(l, linea)
  }

  function Desembolsos(l: Libro, lineas: seq<Linea>, cuenta: string): (xs: seq<real>)
    ensures |xs| == |lineas|
  {
    seq(|lineas|, i requires 0 <= i < |lineas| => Desembolso(l, lineas, cuenta, i))
  }

  /** Cash moved minus what the receipt reports, by line i. */
  function DesvioAntes(l: Libro, lineas: seq<Linea>, cuenta: string, i: nat): real
    requires i < |lineas|
  {
    match lineas[i].tipo
    case Cobro => if CobraSinDebe(l, lineas[i]) then -lineas[i].monto else 0.0
    case Pago => if Aceptable(l, lineas[i], cuenta) then lineas[i].monto - Desembolso(l, lineas, cuenta, i) else 0.0
  }

  function DesviosAntes(l: Libro, lineas: seq<Linea>, cuenta: string): (xs: seq<real>)
    ensures |xs| == |lineas|
  {
    seq(|lineas|, i requires 0 <= i < |lineas| => DesvioAntes(l, lineas, cuenta, i))
  }

  /** `m` follows from `l` by lines of a receipt, among them (or not) the settlement of this agent on this entry. */
  predicate SigueDe(l: Libro, m: Libro, id: string, a: string, liquidado: bool)
    requires id in l.asientos
  {
    && id in m.asientos && LineasOk(m.asientos[id].partidas)
    && (NoDebe(l.asientos[id].partidas, a) ==> NoDebe(m.asientos[id].partidas, a))
    && (TieneLineas(m.asientos[id].partidas, a) <==> TieneLineas(l.asientos[id].partidas, a))
    && Neto(m.asientos[id].partidas, a, None) == (if liquidado then 0.0 else Neto(l.asientos[id].partidas, a, None))
  }

  /** One settlement on the entry, of this agent or of another. */
  lemma {:induction false} UnaLiquidacionMas(ps: seq<Partida>, a: string, b: string)
    requires LineasOk(ps)
    ensures var qs := Liquidar(ps, b, None);
            && LineasOk(qs)
            && (NoDebe(ps, a) ==> NoDebe(qs, a))
            && (TieneLineas(qs, a) <==> TieneLineas(ps, a))
            && Neto(qs, a, None) == (if a == b then 0.0 else Neto(ps, a, None))
  {
    LiquidarConserva(ps, b, None);
    forall i | 0 <= i < |ps| && Compensable(a)(ps[i]) == 0.0
      ensures Compensable(a)(Liquidar(ps, b, None)[i]) == 0.0
    {
      LiquidarEnLinea(ps, b, None, i);
    }
    if a == b {
      Settlements.LiquidacionTotal(ps, a, None);
      Settlements.SinAbiertas(Liquidar(ps, a, None), a, None);
      Settlements.MismasLineas(ps, a, None);
    } else {
      Settlements.NetoAjeno(ps, a, None, b, None);
    }
  }

  /** A collection does not change what an agent that owes nothing on the entry is due. */
  lemma {:induction false} UnCobroMas(ps: seq<Partida>, a: string, monto: real)
    requires LineasOk(ps) && NoDebe(ps, a)
    ensures var qs := Imputar(ps, monto);
            && LineasOk(qs) && NoDebe(qs, a)
            && (TieneLineas(qs, a) <==> TieneLineas(ps, a))
            && Neto(qs, a, None) == Neto(ps, a, None)
  {
    var qs := Imputar(ps, monto);
    ImputarConserva(ps, monto);
    forall i | 0 <= i < |ps|
      ensures HaberDe(a, qs[i]) == HaberDe(a, ps[i]) && DebeDe(a, qs[i]) == DebeDe(a, ps[i])
      ensures Disponible(a)(qs[i]) == Disponible(a)(ps[i]) && Compensable(a)(qs[i]) == 0.0
    {
      assert Compensable(a)(ps[i]) == 0.0;
    }
    TotalEq(Same, Liquidados(qs, a, None), Same, Liquidados(ps, a, None));
    TotalEq(Compensable(a), qs, Compensable(a), ps);
  }

  lemma {:induction false} UnaLineaMas(
    l: Libro, m: Libro, linea: Linea, cuenta: string, id: string, a: string, liquidado: bool)
    requires id in l.asientos && SigueDe(l, m, id, a, liquidado)
    requires NoDebe(l.asientos[id].partidas, a) || !(linea.id == id && linea.tipo == Cobro)
    ensures var z, r := Siguiente(m, Intento(m, linea, cuenta)), Intento(m, linea, cuenta);
            SigueDe(l, z, id, a, liquidado || (r.Ok? && Es(linea, id, a)))
  {
    var r := Intento(m, linea, cuenta);
    if r.Ok? && linea.tipo == Cobro {
      PasoDePago(m, linea.id, linea.monto, cuenta);
      if linea.id == id { UnCobroMas(m.asientos[id].partidas, a, linea.monto); }
    } else if r.Ok? {
      PasoDeLiquidacion(m, linea.id, linea.agente.value, None, cuenta);
      if linea.id == id { UnaLiquidacionMas(m.asientos[id].partidas, a, linea.agente.value); }
    }
  }

  lemma {:induction false} MismasClaves(l: Libro, lineas: seq<Linea>, cuenta: string)
    ensures Tras(l, lineas, cuenta).asientos.Keys == l.asientos.Keys
    ensures Tras(l, lineas, cuenta).cuentas.Keys == l.cuentas.Keys
  {
    if lineas != [] { MismasClaves(l, lineas[..|lineas| - 1], cuenta); }
  }

  lemma {:induction false} UltimaLinea(lineas: seq<Linea>, id: string, a: string, tipo: TipoOperacion)
    requires lineas != []
    ensures var n := |lineas| - 1;
            && (Liquida(lineas, id, a) <==> Liquida(lineas[..n], id, a) || Es(lineas[n], id, a))
            && (Toca(lineas, id, tipo) <==>
                  Toca(lineas[..n], id, tipo) || (lineas[n].id == id && lineas[n].tipo == tipo))
  {
    var n := |lineas| - 1;
    assert forall j :: 0 <= j < n ==> lineas[..n][j] == lineas[j];
  }

  /** After the lines a settlement of an agent on an entry is accepted as before the receipt, and the agent is due
      nothing if an accepted one was its own, what it was due otherwise. */
  lemma {:induction false} AgenteTras(l: Libro, lineas: seq<Linea>, cuenta: string, id: string, a: string)
    requires Runs.LibroSano(l) && id in l.asientos && a != ""
    requires NoDebe(l.asientos[id].partidas, a) || !Toca(lineas, id, Cobro)
    ensures SigueDe(l, Tras(l, lineas, cuenta), id, a,
                    Liquida(lineas, id, a) && LiquidacionAceptable(l, id, a, None, cuenta))
  {
    if lineas != [] {
      var n := |lineas| - 1;
      var m, linea := Tras(l, lineas[..n], cuenta), lineas[n];
      UltimaLinea(lineas, id, a, Cobro);
      AgenteTras(l, lineas[..n], cuenta, id, a);
      MismasClaves(l, lineas[..n], cuenta);
      UnaLineaMas(l, m, linea, cuenta, id, a,
                  Liquida(lineas[..n], id, a) && LiquidacionAceptable(l, id, a, None, cuenta));
      if Es(linea, id, a) { PasoDeLiquidacion(m, id, a, None, cuenta); }
    }
  }

  /** Whether a collection is accepted is the same in both. */
  predicate MismoCobro(a: Asiento, b: Asiento) {
    SaldoPendiente(a.partidas) == SaldoPendiente(b.partidas) && (Cobrable(a) <==> Cobrable(b))
  }

  /** On an entry without DEBE neither operation moves what may still be paid. */
  lemma {:induction false} SaldoSinDebe(ps: seq<Partida>, monto: real, a: string)
    requires LineasOk(ps) && Total(DebeOf, ps) == 0.0
    ensures Imputar(ps, monto) == ps
    ensures SaldoPendiente(Liquidar(ps, a, None)) == SaldoPendiente(ps)
  {
    TotalNonNegative(DebeOf, ps);
    var qs := Liquidar(ps, a, None);
    forall i | 0 <= i < |ps| ensures qs[i].pagado == ps[i].pagado && DebeOf(ps[i]) == 0.0 {
      LiquidarEnLinea(ps, a, None, i);
    }
    TotalEq(DebeOf, qs, DebeOf, ps);
    TotalEq(HaberOf, qs, HaberOf, ps);
    TotalEq(PagadoEnHaber, qs, PagadoEnHaber, ps);
  }

  lemma {:induction false} UnCobroIgual(m: Libro, linea: Linea, cuenta: string, id: string)
    requires id in m.asientos && LineasOk(m.asientos[id].partidas) && Total(DebeOf, m.asientos[id].partidas) == 0.0
    requires Cobrable(m.asientos[id]) || !(linea.id == id && linea.tipo == Pago)
    ensures var z := Siguiente(m, Intento(m, linea, cuenta));
            id in z.asientos && MismoCobro(m.asientos[id], z.asientos[id])
  {
    var r := Intento(m, linea, cuenta);
    if r.Ok? && linea.tipo == Cobro {
      PasoDePago(m, linea.id, linea.monto, cuenta);
      SaldoSinDebe(m.asientos[id].partidas, linea.monto, "");
    } else if r.Ok? {
      PasoDeLiquidacion(m, linea.id, linea.agente.value, None, cuenta);
      SaldoSinDebe(m.asientos[id].partidas, 0.0, linea.agente.value);
    }
  }

  /** After the lines a collection of an entry without DEBE is accepted as before the receipt. */
  lemma {:induction false} CobroTras(l: Libro, lineas: seq<Linea>, cuenta: string, id: string)
    requires Runs.LibroSano(l) && id in l.asientos && !TieneDebe(l, id)
    requires Cobrable(l.asientos[id]) || !Toca(lineas, id, Pago)
    ensures id in Tras(l, lineas, cuenta).asientos
    ensures MismoCobro(l.asientos[id], Tras(l, lineas, cuenta).asientos[id])
  {
    if lineas != [] {
      var n := |lineas| - 1;
      var m := Tras(l, lineas[..n], cuenta);
      UltimaLinea(lineas, id, "", Pago);
      CobroTras(l, lineas[..n], cuenta, id);
      ReciboSano(l, lineas[..n], cuenta);
      assert Runs.Sano(m.asientos[id]) && !TieneDebe(m, id);
      TotalNonNegative(DebeOf, m.asientos[id].partidas);
      UnCobroIgual(m, lineas[n], cuenta, id);
    }
  }

  /** A collection line: its deviation is the one read off before. */
  lemma {:induction false} LineaDeCobro(l: Libro, lineas: seq<Linea>, cuenta: string, i: nat)
    requires Runs.LibroSano(l) && i < |lineas| && lineas[i].tipo == Cobro && SinCruce(l, lineas[..i], lineas[i])
    ensures Desvios(l, lineas, cuenta)[i] == DesviosAntes(l, lineas, cuenta)[i]
  {
    var m, linea := Tras(l, lineas[..i], cuenta), lineas[i];
    MismasClaves(l, lineas[..i], cuenta);
    ReciboSano(l, lineas[..i], cuenta);
    assert TieneDebe(m, linea.id) <==> TieneDebe(l, linea.id);
    if linea.id in l.asientos && !TieneDebe(l, linea.id) {
      CobroTras(l, lineas[..i], cuenta, linea.id);
      PasoDePago(m, linea.id, linea.monto, cuenta);
    }
  }

  /** A settlement line: accepted as before the receipt, and what it pays. */
  lemma {:induction false} LineaDeLiquidacion(l: Libro, lineas: seq<Linea>, cuenta: string, i: nat)
    requires Runs.LibroSano(l) && i < |lineas| && lineas[i].tipo == Pago && SinCruce(l, lineas[..i], lineas[i])
    ensures IntentoEn(l, lineas, cuenta, i).Ok? <==> Aceptable(l, lineas[i], cuenta)
    ensures Efectos(l, lineas, cuenta)[i] == -Desembolsos(l, lineas, cuenta)[i]
    ensures Desvios(l, lineas, cuenta)[i] == DesviosAntes(l, lineas, cuenta)[i]
  {
    var m, linea := Tras(l, lineas[..i], cuenta), lineas[i];
    MismasClaves(l, lineas[..i], cuenta);
    if !SinAgente(linea) && linea.id in l.asientos {
      var a := linea.agente.value;
      AgenteTras(l, lineas[..i], cuenta, linea.id, a);
      LiquidacionTras(l, m, linea, cuenta, Liquida(lineas[..i], linea.id, a) && Aceptable(l, linea, cuenta));
    }
  }

  /** A settlement on a store that follows from `l`. */
  lemma {:induction false} LiquidacionTras(l: Libro, m: Libro, linea: Linea, cuenta: string, liquidado: bool)
    requires !SinAgente(linea) && linea.id in l.asientos && m.cuentas.Keys == l.cuentas.Keys
    requires LineasOk(l.asientos[linea.id].partidas) && (liquidado ==> Aceptable(l, linea, cuenta))
    requires SigueDe(l, m, linea.id, linea.agente.value, liquidado)
    ensures var r := LiquidarAPropietario(m, linea.id, linea.agente.value, None, cuenta);
            && (r.Ok? <==> Aceptable(l, linea, cuenta))
            && Abs(Neto(m.asientos[linea.id].partidas, linea.agente.value, None)) ==
               (if liquidado then 0.0 else Abierto(l, linea))
  {
    PasoDeLiquidacion(m, linea.id, linea.agente.value, None, cuenta);
    Settlements.LiquidacionTotal(l.asientos[linea.id].partidas, linea.agente.value, None);
  }

  /** A receipt of collections and settlements moves the net it reports plus the deviations of its lines, each read
      off the store before the receipt. So it reports the cash it moves exactly when these cancel out. */
  lemma {:induction false} ReciboMixto(l: Libro, lineas: seq<Linea>, cuenta: string)
    requires Runs.LibroSano(l) && SinCruces(l, lineas)
    ensures var ds := DesviosAntes(l, lineas, cuenta);
            && Movido(l, lineas, cuenta) == Reportado(l, lineas, cuenta) + Total(Same, ds)
            && (Movido(l, lineas, cuenta) == Reportado(l, lineas, cuenta) <==> Total(Same, ds) == 0.0)
  {
    var ds, es := Desvios(l, lineas, cuenta), DesviosAntes(l, lineas, cuenta);
    forall i | 0 <= i < |lineas| ensures ds[i] == es[i] {
      assert SinCruce(l, lineas[..i], lineas[i]);
      if lineas[i].tipo == Cobro { LineaDeCobro(l, lineas, cuenta, i); }
      else { LineaDeLiquidacion(l, lineas, cuenta, i); }
    }
    MovidoYReportado(l, lineas, cuenta);
    TotalEq(Same, ds, Same, es);
  }

  lemma {:induction false} UnSoloTipo(l: Libro, lineas: seq<Linea>, tipo: TipoOperacion)
    requires forall i :: 0 <= i < |lineas| ==> lineas[i].tipo == tipo
    ensures SinCruces(l, lineas)
  {
  }

  lemma {:induction false} SinPositivos(xs: seq<real>)
    requires forall i :: 0 <= i < |xs| ==> xs[i] <= 0.0
    ensures Total(Same, xs) == 0.0 <==> forall i :: 0 <= i < |xs| ==> xs[i] == 0.0
  {
    TotalAdd(Nada, xs, Negado, xs, Same, xs);
    TotalZero(Nada, xs);
    TotalNonNegative(Negado, xs);
  }

  function Nada(x: real): real {
    0.0
  }

  function Negado(x: real): real {
    -x
  }

  /** A receipt of collections reports the cash it moves exactly when it collects no entry without DEBE that takes a
      payment: such a collection is reported but no cash enters. */
  lemma {:induction false} ReciboDeCobros(l: Libro, lineas: seq<Linea>, cuenta: string)
    requires Runs.LibroSano(l)
    requires forall i :: 0 <= i < |lineas| ==> lineas[i].tipo == Cobro && lineas[i].monto > 0.0
    ensures Movido(l, lineas, cuenta) == Reportado(l, lineas, cuenta) <==>
            forall i :: 0 <= i < |lineas| ==> !CobraSinDebe(l, lineas[i])
  {
    var ds := DesviosAntes(l, lineas, cuenta);
    UnSoloTipo(l, lineas, Cobro);
    ReciboMixto(l, lineas, cuenta);
    SinPositivos(ds);
    assert forall i :: 0 <= i < |lineas| ==> (ds[i] == 0.0 <==> !CobraSinDebe(l, lineas[i]));
  }

  /** Amounts of the settlement lines that are accepted, as the receipt reports them. */
  function Pedidos(l: Libro, lineas: seq<Linea>, cuenta: string): (xs: seq<real>)
    ensures |xs| == |lineas|
  {
    seq(|lineas|, i requires 0 <= i < |lineas| => if Aceptable(l, lineas[i], cuenta) then lineas[i].monto else 0.0)
  }

  /** A receipt of settlements only. Which lines are accepted and what they pay is read off the store before it:
      each agent of an entry is paid all that is open, whatever its line asks for, and a second line of it
      nothing. So the receipt reports the cash it moves exactly when the accepted amounts add up to that. */
  lemma {:induction false} ReciboDeLiquidaciones(l: Libro, lineas: seq<Linea>, cuenta: string)
    requires Runs.LibroSano(l) && forall i :: 0 <= i < |lineas| ==> lineas[i].tipo == Pago
    ensures forall i :: 0 <= i < |lineas| ==>
              (Operaciones(l, lineas, cuenta)[i].Procesada? <==> Aceptable(l, lineas[i], cuenta))
    ensures Movido(l, lineas, cuenta) == -Total(Same, Desembolsos(l, lineas, cuenta))
    ensures Movido(l, lineas, cuenta) == Reportado(l, lineas, cuenta) <==>
            Total(Same, Pedidos(l, lineas, cuenta)) == Total(Same, Desembolsos(l, lineas, cuenta))
  {
    var os, xs, ys := Operaciones(l, lineas, cuenta), Efectos(l, lineas, cuenta), Desembolsos(l, lineas, cuenta);
    UnSoloTipo(l, lineas, Pago);
    forall i | 0 <= i < |lineas|
      ensures os[i].Procesada? <==> Aceptable(l, lineas[i], cuenta)
      ensures xs[i] == -ys[i]
    {
      assert SinCruce(l, lineas[..i], lineas[i]);
      LineaDeLiquidacion(l, lineas, cuenta, i);
    }
    CajaDelRecibo(l, lineas, cuenta);
    TotalAdd(Nada, xs, Same, xs, Same, ys);
    TotalZero(Nada, xs);
    TotalZero(IngresoDe, os);
    TotalEq(EgresoDe, os, Same, Pedidos(l, lineas, cuenta));
  }

  /** A settlement line that names no agent, or an empty one, is rejected before the ledger is asked. */
  lemma {:induction false} LineaSinAgente(l: Libro, linea: Linea, cuenta: string)
    requires linea.tipo == Pago && (linea.agente == None || linea.agente == Some(""))
    ensures Intento(l, linea, cuenta) == Err(RequiereAgente)
  {
  }
}
