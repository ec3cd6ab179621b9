/** Whole runs of the ledger: any sequence of payments, forgiveness, settlements, annulments and index
    adjustments, accepted or not. */
module Runs {
  import opened Common
  import opened Entries
  import opened Imputation
  import opened Ledger

  datatype Op =
    | OpPago(id: string, monto: real, cuenta: string)
    | OpCondonar(id: string, pedido: Option<real>)
    | OpLiquidar(id: string, agente: string, pedido: Option<real>, cuenta: string)
    | OpAnular(id: string)
    | OpAjustar(contrato: string, indices: seq<Indice>)

  function Intento(l: Libro, op: Op): Result<Libro, Error> {
    match op
    case OpPago(id, monto, cuenta) => Pagar(l, id, monto, cuenta)
    case OpCondonar(id, pedido) => Condonar(l, id, pedido)
    case OpLiquidar(id, agente, pedido, cuenta) => LiquidarAPropietario(l, id, agente, pedido, cuenta)
    case OpAnular(id) => Anular(l, id)
    case OpAjustar(contrato, indices) => Ok(Ajustar(l, contrato, indices))
  }

  /** A rejected operation stores nothing. */
  function Paso(l: Libro, op: Op): Libro {
    match Intento(l, op)
    case Ok(nuevo) => nuevo
    case Err(_) => l
  }

  function Correr(l: Libro, ops: seq<Op>): Libro
    decreases |ops|
  {
    if ops == [] then l else Correr(Paso(l, ops[0]), ops[1..])
  }

  /** Settlement requests are not negative; nothing is asked of the other operations. */
  predicate Admisible(op: Op) {
    op.OpLiquidar? && op.pedido.Some? ==> op.pedido.value >= 0.0
  }

  // ---------- what holds of every stored entry ----------

  /** The estado tells the truth about the money. */
  predicate Veraz(a: Asiento) {
    && (a.estado == Cobrado || a.estado == Pagado ==> Total(PagadoEnDebe, a.partidas) >= a.montoActual)
    && (a.estado == Pagado || a.estado == Liquidado ==> TodasLiquidadas(a.partidas))
    && (a.estado == Condonado ==> Total(PagadoOf, a.partidas) >= a.montoOriginal)
  }

  /** The changes an entry may log. */
  predicate Legal(c: Cambio) {
    match c.accion
    case AjusteIndice => c.anterior == PendienteAjuste && c.nuevo == Pendiente
    case PagoCompleto => c.anterior !in {Anulado, Condonado} && c.nuevo in {Pagado, Cobrado}
    case PagoParcial => c.anterior !in {Anulado, Condonado} && c.nuevo == PagadoParcial
    case Anulacion => c.anterior !in {Pagado, Anulado} && c.nuevo == Anulado
    case Condonacion => c.anterior !in {Anulado, Condonado} && c.nuevo in {Condonado, PagadoParcial}
    case Liquidacion => c.nuevo == c.anterior || c.nuevo == (if c.anterior == Cobrado then Pagado else Liquidado)
  }

  /** The log is a path of legal changes that ends in the current estado. */
  predicate Encadenado(a: Asiento) {
    var h := a.historial;
    && (h != [] ==> h[|h| - 1].nuevo == a.estado)
    && (forall i :: 0 <= i < |h| ==> Legal(h[i]))
    && (forall i :: 0 < i < |h| ==> h[i].anterior == h[i - 1].nuevo)
  }

  predicate Sano(a: Asiento) {
    LineasOk(a.partidas) && Veraz(a) && Encadenado(a)
  }

  predicate LibroSano(l: Libro) {
    forall id :: id in l.asientos ==> Sano(l.asientos[id])
  }

  /** `b` is `a` later on: same amounts and parties, nothing collected or settled taken back, log extended. */
  predicate Avanza(a: Asiento, b: Asiento) {
    && a.contrato == b.contrato && a.tipo == b.tipo && a.montoOriginal == b.montoOriginal
    && a.imputacion == b.imputacion && a.vencimiento == b.vencimiento && a.periodo == b.periodo
    && a.historial <= b.historial
    && |a.partidas| == |b.partidas|
    && forall i :: 0 <= i < |a.partidas| ==> LineaAvanza(a.partidas[i], b.partidas[i])
  }

  predicate LineaAvanza(p: Partida, q: Partida) {
    p.pagado <= q.pagado && p.liquidado <= q.liquidado && p.(pagado := q.pagado, liquidado := q.liquidado) == q
  }

  lemma {:induction false} InicialEsSano(a: Asiento)
    requires Inicial(a)
    ensures Sano(a)
  {
  }

  // ---------- one operation on one entry ----------

  lemma {:induction false} RegistrarEncadena(a: Asiento, ps: seq<Partida>, estado: Estado, accion: Accion, monto: real)
    requires Encadenado(a)
    requires Legal(Cambio(accion, a.estado, estado, monto))
    ensures Encadenado(Registrar(a, ps, estado, accion, monto))
  {
  }

  lemma {:induction false} PagoSano(a: Asiento, monto: real)
    requires Sano(a) && PagoAceptable(a, monto)
    ensures Sano(ConPago(a, monto)) && Avanza(a, ConPago(a, monto))
  {
    var ps := Imputar(a.partidas, monto);
    var estado := EstadoTrasPago(ps, a.montoActual);
    ImputarConserva(a.partidas, monto);
    RegistrarEncadena(a, ps, estado, AccionDePago(estado), monto);
    if HaberLiquidado(ps) {
      TotalNonNegative(HaberPositivo, ps);
      TotalNonNegative(LiquidadoEnHaber, ps);
      TotalSaturated(LiquidadoEnHaber, HaberPositivo, ps);
    }
  }

  lemma {:induction false} CondonacionSana(a: Asiento, monto: real)
    requires Sano(a) && a.estado !in {Anulado, Condonado}
    ensures Sano(ConCondonacion(a, monto)) && Avanza(a, ConCondonacion(a, monto))
  {
    var ps := Imputar(a.partidas, monto);
    ImputarConserva(a.partidas, monto);
    RegistrarEncadena(a, ps, if Total(PagadoOf, ps) >= a.montoOriginal then Condonado else PagadoParcial,
                      Condonacion, monto);
  }

  /** Settled amounts only grow, so what the lines proved before the settlement still holds after it. */
  lemma {:induction false} LiquidarAvanza(ps: seq<Partida>, agente: string, pedido: Option<real>)
    requires LineasOk(ps) && (pedido.Some? ==> pedido.value >= 0.0)
    ensures var qs := Liquidar(ps, agente, pedido);
            && LineasOk(qs)
            && (forall i :: 0 <= i < |ps| ==> LineaAvanza(ps[i], qs[i]))
            && (TodasLiquidadas(ps) ==> TodasLiquidadas(qs))
            && Total(PagadoOf, ps) <= Total(PagadoOf, qs)
            && Total(PagadoEnDebe, ps) <= Total(PagadoEnDebe, qs)
  {
    var qs := Liquidar(ps, agente, pedido);
    LiquidarConserva(ps, agente, pedido);
    forall i | 0 <= i < |ps|
      ensures LineaAvanza(ps[i], qs[i])
      ensures TodasLiquidadas(ps) && qs[i].haber > 0.0 ==> Abs(qs[i].liquidado - qs[i].haber) < UN_PESO
    {
      LiquidarEnLinea(ps, agente, pedido, i);
      if TodasLiquidadas(ps) && qs[i].haber > 0.0 {
        assert Abs(ps[i].liquidado - ps[i].haber) < UN_PESO;
      }
    }
    TotalLe(PagadoOf, ps, PagadoOf, qs);
    TotalLe(PagadoEnDebe, ps, PagadoEnDebe, qs);
  }

  lemma {:induction false} LiquidacionSana(a: Asiento, agente: string, pedido: Option<real>)
    requires Sano(a) && (pedido.Some? ==> pedido.value >= 0.0)
    ensures Sano(ConLiquidacion(a, agente, pedido)) && Avanza(a, ConLiquidacion(a, agente, pedido))
  {
    var ps := Liquidar(a.partidas, agente, pedido);
    LiquidarAvanza(a.partidas, agente, pedido);
    RegistrarEncadena(a, ps, EstadoTrasLiquidar(ps, a.estado), Liquidacion, Abs(Neto(a.partidas, agente, pedido)));
  }

  lemma {:induction false} AjusteSano(a: Asiento, contrato: string, indices: seq<Indice>)
    requires Sano(a)
    ensures Sano(ConAjuste(a, contrato, indices)) && Avanza(a, ConAjuste(a, contrato, indices))
  {
  }

  lemma {:induction false} AvanzaReflexiva(a: Asiento)
    ensures Avanza(a, a)
  {
  }

  lemma {:induction false} AvanzaTransitiva(a: Asiento, b: Asiento, c: Asiento)
    requires Avanza(a, b) && Avanza(b, c)
    ensures Avanza(a, c)
  {
    forall i | 0 <= i < |a.partidas| ensures LineaAvanza(a.partidas[i], c.partidas[i]) {
      assert LineaAvanza(a.partidas[i], b.partidas[i]) && LineaAvanza(b.partidas[i], c.partidas[i]);
    }
  }

  predicate LibroAvanza(l: Libro, m: Libro) {
    && l.asientos.Keys == m.asientos.Keys && l.cuentas.Keys == m.cuentas.Keys
    && forall id :: id in l.asientos ==> Avanza(l.asientos[id], m.asientos[id])
  }

  lemma {:induction false} UnAsientoSano(l: Libro, m: Libro, id: string, b: Asiento)
    requires LibroSano(l) && id in l.asientos && Sano(b) && Avanza(l.asientos[id], b)
    requires m.asientos == l.asientos[id := b] && m.cuentas.Keys == l.cuentas.Keys
    ensures LibroSano(m) && LibroAvanza(l, m)
  {
    forall k | k in l.asientos ensures Avanza(l.asientos[k], m.asientos[k]) {
      AvanzaReflexiva(l.asientos[k]);
    }
  }

  /** The entry an accepted operation on one entry leaves. */
  function Reemplazo(a: Asiento, op: Op): Asiento {
    match op
    case OpPago(_, monto, _) => ConPago(a, monto)
    case OpCondonar(_, pedido) => ConCondonacion(a, MontoACondonar(a, pedido))
    case OpLiquidar(_, agente, pedido, _) => ConLiquidacion(a, agente, pedido)
    case OpAnular(_) => Registrar(a, a.partidas, Anulado, Anulacion, 0.0)
    case OpAjustar(contrato, indices) => ConAjuste(a, contrato, indices)
  }

  lemma {:induction false} PasoReemplaza(l: Libro, op: Op)
    requires !op.OpAjustar? && Intento(l, op).Ok?
    ensures op.id in l.asientos
    ensures var m := Paso(l, op);
            && m.asientos == l.asientos[op.id := Reemplazo(l.asientos[op.id], op)]
            && m.cuentas.Keys == l.cuentas.Keys
  {
  }

  lemma {:induction false} ReemplazoSano(l: Libro, op: Op)
    requires LibroSano(l) && Admisible(op) && !op.OpAjustar? && Intento(l, op).Ok?
    ensures op.id in l.asientos
    ensures var a := l.asientos[op.id]; Sano(Reemplazo(a, op)) && Avanza(a, Reemplazo(a, op))
  {
    match op {
      case OpPago(id, monto, cuenta) => PagoSano(l.asientos[id], monto);
      case OpCondonar(id, pedido) => CondonacionSana(l.asientos[id], MontoACondonar(l.asientos[id], pedido));
      case OpLiquidar(id, agente, pedido, cuenta) => LiquidacionSana(l.asientos[id], agente, pedido);
      case OpAnular(id) =>
        RegistrarEncadena(l.asientos[id], l.asientos[id].partidas, Anulado, Anulacion, 0.0);
    }
  }

  /** Every operation, accepted or rejected, keeps every entry sound. */
  lemma {:induction false} PasoSano(l: Libro, op: Op)
    requires LibroSano(l) && Admisible(op)
    ensures LibroSano(Paso(l, op)) && LibroAvanza(l, Paso(l, op))
  {
    if op.OpAjustar? {
      forall id | id in l.asientos
        ensures Sano(ConAjuste(l.asientos[id], op.contrato, op.indices))
        ensures Avanza(l.asientos[id], ConAjuste(l.asientos[id], op.contrato, op.indices))
      {
        AjusteSano(l.asientos[id], op.contrato, op.indices);
      }
    } else if Intento(l, op).Ok? {
      PasoReemplaza(l, op);
      ReemplazoSano(l, op);
      UnAsientoSano(l, Paso(l, op), op.id, Reemplazo(l.asientos[op.id], op));
    } else {
      forall id | id in l.asientos ensures Avanza(l.asientos[id], l.asientos[id]) {
        AvanzaReflexiva(l.asientos[id]);
      }
    }
  }

  // ---------- runs ----------

  /** In every run the lines stay within their amounts, the estado tells the truth, the log is a legal path,
      and entries only move forward. */
  lemma {:induction false} CorridaSana(l: Libro, ops: seq<Op>)
    requires LibroSano(l) && forall i :: 0 <= i < |ops| ==> Admisible(ops[i])
    ensures LibroSano(Correr(l, ops)) && LibroAvanza(l, Correr(l, ops))
    decreases |ops|
  {
    if ops == [] {
      forall id | id in l.asientos ensures Avanza(l.asientos[id], l.asientos[id]) {
        AvanzaReflexiva(l.asientos[id]);
      }
    } else {
      var m := Paso(l, ops[0]);
      PasoSano(l, ops[0]);
      CorridaSana(m, ops[1..]);
      var z := Correr(m, ops[1..]);
      forall id | id in l.asientos ensures Avanza(l.asientos[id], z.asientos[id]) {
        AvanzaTransitiva(l.asientos[id], m.asientos[id], z.asientos[id]);
      }
    }
  }

  /** A collected entry whose current amount is its DEBE total has every DEBE line paid in full, in any run
      that starts from entries as created. */
  lemma {:induction false} CobradoEsCompleto(l: Libro, ops: seq<Op>, id: string)
    requires forall k :: k in l.asientos ==> Inicial(l.asientos[k])
    requires forall i :: 0 <= i < |ops| ==> Admisible(ops[i])
    requires id in Correr(l, ops).asientos
    ensures var a := Correr(l, ops).asientos[id];
            (a.estado == Cobrado || a.estado == Pagado) && a.montoActual == Total(DebeOf, a.partidas) ==>
              forall i :: 0 <= i < |a.partidas| ==> a.partidas[i].pagado == a.partidas[i].debe
  {
    forall k | k in l.asientos ensures Sano(l.asientos[k]) { InicialEsSano(l.asientos[k]); }
    CorridaSana(l, ops);
    var a := Correr(l, ops).asientos[id];
    FiltrosCoinciden(a.partidas);
    if Total(PagadoOf, a.partidas) >= Total(DebeOf, a.partidas) {
      TotalSaturated(PagadoOf, DebeOf, a.partidas);
    }
  }

  lemma {:induction false} SinAjustePendiente(l: Libro, op: Op, id: string)
    requires id in l.asientos && l.asientos[id].estado != PendienteAjuste
    ensures id in Paso(l, op).asientos && Paso(l, op).asientos[id].estado != PendienteAjuste
    ensures Paso(l, op).asientos[id].montoActual == l.asientos[id].montoActual
  {
    if !op.OpAjustar? && Intento(l, op).Ok? { PasoReemplaza(l, op); }
  }

  lemma {:induction false} MontoFijo(l: Libro, ops: seq<Op>, id: string)
    requires id in l.asientos && l.asientos[id].estado != PendienteAjuste
    ensures id in Correr(l, ops).asientos && Correr(l, ops).asientos[id].montoActual == l.asientos[id].montoActual
    decreases |ops|
  {
    if ops != [] {
      SinAjustePendiente(l, ops[0], id);
      MontoFijo(Paso(l, ops[0]), ops[1..], id);
    }
  }

  lemma {:induction false} CobradoHastaElMonto(a: Asiento)
    requires Sano(a) && (a.estado == Cobrado || a.estado == Pagado)
    ensures a.montoActual <= Total(DebeOf, a.partidas)
  {
    FiltrosCoinciden(a.partidas);
    TotalLe(PagadoOf, a.partidas, DebeOf, a.partidas);
  }

  lemma {:induction false} MismoDebe(a: Asiento, b: Asiento)
    requires Avanza(a, b)
    ensures Total(DebeOf, a.partidas) == Total(DebeOf, b.partidas)
  {
    TotalEq(DebeOf, a.partidas, DebeOf, b.partidas);
  }

  /** Once adjusted, or never to be, an entry keeps its current amount and its DEBE total. If the amount is above
      that total, no run makes it COBRADO or PAGADO: payment stops at the lines, the estado asks for the amount. */
  lemma {:induction false} NuncaCobrado(l: Libro, ops: seq<Op>, id: string)
    requires LibroSano(l) && forall i :: 0 <= i < |ops| ==> Admisible(ops[i])
    requires id in l.asientos && l.asientos[id].estado != PendienteAjuste
    requires l.asientos[id].montoActual > Total(DebeOf, l.asientos[id].partidas)
    ensures id in Correr(l, ops).asientos && Correr(l, ops).asientos[id].estado !in {Cobrado, Pagado}
  {
    CorridaSana(l, ops);
    MontoFijo(l, ops, id);
    var z := Correr(l, ops).asientos[id];
    MismoDebe(l.asientos[id], z);
    if z.estado in {Cobrado, Pagado} { CobradoHastaElMonto(z); }
  }

  /** An annulled entry changes only when a settlement on it is accepted: neither payment, forgiveness,
      annulment nor adjustment touches it again. */
  lemma {:induction false} AnuladoSoloSeLiquida(l: Libro, op: Op, id: string)
    requires id in l.asientos && l.asientos[id].estado == Anulado
    ensures Paso(l, op).asientos[id] != l.asientos[id] <==>
            op.OpLiquidar? && op.id == id && LiquidacionAceptable(l, id, op.agente, op.pedido, op.cuenta)
  {
    if op.OpLiquidar? && op.id in l.asientos { PasoDeLiquidacion(l, op.id, op.agente, op.pedido, op.cuenta); }
    if !op.OpAjustar? && Intento(l, op).Ok? {
      PasoReemplaza(l, op);
      if op.id == id { assert |Reemplazo(l.asientos[id], op).historial| == |l.asientos[id].historial| + 1; }
    }
  }

  /** So in a run without settlements on it, it stays as it was annulled. */
  lemma {:induction false} AnuladoEnCorrida(l: Libro, ops: seq<Op>, id: string)
    requires id in l.asientos && l.asientos[id].estado == Anulado
    requires forall i :: 0 <= i < |ops| ==> !(ops[i].OpLiquidar? && ops[i].id == id)
    ensures id in Correr(l, ops).asientos && Correr(l, ops).asientos[id] == l.asientos[id]
    decreases |ops|
  {
    if ops != [] {
      AnuladoSoloSeLiquida(l, ops[0], id);
      AnuladoEnCorrida(Paso(l, ops[0]), ops[1..], id);
    }
  }

  /** And it stops being ANULADO exactly when that settlement leaves no HABER line a peso or more short. */
  lemma {:induction false} AnuladoNoEsTerminal(l: Libro, op: Op, id: string)
    requires id in l.asientos && l.asientos[id].estado == Anulado
    ensures Paso(l, op).asientos[id].estado != Anulado <==>
            && op.OpLiquidar? && op.id == id && LiquidacionAceptable(l, id, op.agente, op.pedido, op.cuenta)
            && TodasLiquidadas(Liquidar(l.asientos[id].partidas, op.agente, op.pedido))
  {
    if op.OpLiquidar? && op.id in l.asientos { PasoDeLiquidacion(l, op.id, op.agente, op.pedido, op.cuenta); }
    if !op.OpAjustar? && Intento(l, op).Ok? { PasoReemplaza(l, op); }
  }

  // ---------- the log accounts for the cash ----------

  /** Cash moved by one logged change of an entry with or without DEBE lines. */
  function EfectoEnCaja(conDebe: bool): Cambio -> real {
    (c: Cambio) => match c.accion
      case PagoCompleto => if conDebe then c.monto else 0.0
      case PagoParcial => if conDebe then c.monto else 0.0
      case Liquidacion => -c.monto
      case _ => 0.0
  }

  function CajaDe(a: Asiento): real {
    Total(EfectoEnCaja(Total(DebeOf, a.partidas) > 0.0), a.historial)
  }

  ghost function CajaRegistrada(l: Libro): real {
    SumOver(l.asientos.Keys, CajaPorId(l))
  }

  function CajaPorId(l: Libro): string -> real {
    id => if id in l.asientos then CajaDe(l.asientos[id]) else 0.0
  }

  function Saldo(l: Libro): string -> real {
    c => if c in l.cuentas then l.cuentas[c] else 0.0
  }

  ghost function SaldoTotal(l: Libro): real {
    SumOver(l.cuentas.Keys, Saldo(l))
  }

  lemma {:induction false} RegistrarEnCaja(a: Asiento, ps: seq<Partida>, estado: Estado, accion: Accion, monto: real)
    requires Total(DebeOf, ps) == Total(DebeOf, a.partidas)
    ensures CajaDe(Registrar(a, ps, estado, accion, monto)) ==
            CajaDe(a) + EfectoEnCaja(Total(DebeOf, a.partidas) > 0.0)(Cambio(accion, a.estado, estado, monto))
  {
    var f := EfectoEnCaja(Total(DebeOf, a.partidas) > 0.0);
    var c := Cambio(accion, a.estado, estado, monto);
    TotalConcat(f, a.historial, [c]);
    TotalSingle(f, c);
  }

  /** One entry replaced and one balance moved, by the same amount. */
  lemma {:induction false} CambioDeCaja(l: Libro, m: Libro, id: string, b: Asiento, cuenta: string, monto: real)
    requires id in l.asientos && m.asientos == l.asientos[id := b]
    requires CajaDe(b) == CajaDe(l.asientos[id]) + monto
    requires m.cuentas == Mover(l.cuentas, cuenta, monto) && (cuenta !in l.cuentas ==> monto == 0.0)
    ensures SaldoTotal(m) - CajaRegistrada(m) == SaldoTotal(l) - CajaRegistrada(l)
  {
    assert m.asientos.Keys == l.asientos.Keys;
    SumPointUpdate(l.asientos.Keys, CajaPorId(l), CajaPorId(m), id);
    assert m.cuentas.Keys == l.cuentas.Keys;
    if cuenta in l.cuentas { SumPointUpdate(l.cuentas.Keys, Saldo(l), Saldo(m), cuenta); }
  }

  lemma {:induction false} PagoEnCaja(l: Libro, id: string, monto: real, cuenta: string)
    requires Pagar(l, id, monto, cuenta).Ok?
    ensures var m := Pagar(l, id, monto, cuenta).value;
            SaldoTotal(m) - CajaRegistrada(m) == SaldoTotal(l) - CajaRegistrada(l)
  {
    var a := l.asientos[id];
    var ps := Imputar(a.partidas, monto);
    var estado := EstadoTrasPago(ps, a.montoActual);
    TotalEq(DebeOf, ps, DebeOf, a.partidas);
    RegistrarEnCaja(a, ps, estado, AccionDePago(estado), monto);
    var conDebe := Total(DebeOf, a.partidas) > 0.0;
    var m := Pagar(l, id, monto, cuenta).value;
    PasoDePago(l, id, monto, cuenta);
    CambioDeCaja(l, m, id, ConPago(a, monto), cuenta, if conDebe then monto else 0.0);
  }

  lemma {:induction false} CondonacionEnCaja(l: Libro, id: string, pedido: Option<real>)
    requires Condonar(l, id, pedido).Ok?
    ensures var m := Condonar(l, id, pedido).value;
            SaldoTotal(m) - CajaRegistrada(m) == SaldoTotal(l) - CajaRegistrada(l)
  {
    var a := l.asientos[id];
    var monto := MontoACondonar(a, pedido);
    var ps := Imputar(a.partidas, monto);
    var m := Condonar(l, id, pedido).value;
    TotalEq(DebeOf, ps, DebeOf, a.partidas);
    var b := ConCondonacion(a, monto);
    RegistrarEnCaja(a, ps, b.estado, Condonacion, monto);
    assert m.asientos.Keys == l.asientos.Keys;
    SumPointUpdate(l.asientos.Keys, CajaPorId(l), CajaPorId(m), id);
    SumCongruent(l.cuentas.Keys, Saldo(l), Saldo(m));
  }

  lemma {:induction false} LiquidacionEnLog(a: Asiento, agente: string, pedido: Option<real>)
    ensures CajaDe(ConLiquidacion(a, agente, pedido)) == CajaDe(a) - Abs(Neto(a.partidas, agente, pedido))
  {
    var ps := Liquidar(a.partidas, agente, pedido);
    TotalEq(DebeOf, ps, DebeOf, a.partidas);
    RegistrarEnCaja(a, ps, EstadoTrasLiquidar(ps, a.estado), Liquidacion, Abs(Neto(a.partidas, agente, pedido)));
  }

  lemma {:induction false} LiquidacionEnCaja(l: Libro, id: string, agente: string, pedido: Option<real>, cuenta: string)
    requires LiquidarAPropietario(l, id, agente, pedido, cuenta).Ok?
    ensures var m := LiquidarAPropietario(l, id, agente, pedido, cuenta).value;
            SaldoTotal(m) - CajaRegistrada(m) == SaldoTotal(l) - CajaRegistrada(l)
  {
    var a := l.asientos[id];
    LiquidacionEnLog(a, agente, pedido);
    PasoDeLiquidacion(l, id, agente, pedido, cuenta);
    CambioDeCaja(l, LiquidarAPropietario(l, id, agente, pedido, cuenta).value, id, ConLiquidacion(a, agente, pedido),
                 cuenta, -Abs(Neto(a.partidas, agente, pedido)));
  }

  lemma {:induction false} AjusteEnCaja(l: Libro, contrato: string, indices: seq<Indice>)
    ensures var m := Ajustar(l, contrato, indices);
            SaldoTotal(m) - CajaRegistrada(m) == SaldoTotal(l) - CajaRegistrada(l)
  {
    var m := Ajustar(l, contrato, indices);
    assert m.asientos.Keys == l.asientos.Keys;
    forall id | id in l.asientos ensures CajaPorId(m)(id) == CajaPorId(l)(id) {
      var a := l.asientos[id];
      var indice := Buscar(indices, a.vencimiento.month);
      if indice.Some? {
        var ajustado := a.(montoActual := Times(a.montoOriginal, indice.value));
        RegistrarEnCaja(ajustado, a.partidas, Pendiente, AjusteIndice, ajustado.montoActual);
      }
    }
    SumCongruent(l.asientos.Keys, CajaPorId(l), CajaPorId(m));
    SumCongruent(l.cuentas.Keys, Saldo(l), Saldo(m));
  }

  lemma {:induction false} PasoEnCaja(l: Libro, op: Op)
    ensures var m := Paso(l, op); SaldoTotal(m) - CajaRegistrada(m) == SaldoTotal(l) - CajaRegistrada(l)
  {
    if Intento(l, op).Ok? {
      match op {
        case OpPago(id, monto, cuenta) => PagoEnCaja(l, id, monto, cuenta);
        case OpCondonar(id, pedido) => CondonacionEnCaja(l, id, pedido);
        case OpLiquidar(id, agente, pedido, cuenta) => LiquidacionEnCaja(l, id, agente, pedido, cuenta);
        case OpAnular(id) =>
          var a := l.asientos[id];
          var m := Paso(l, op);
          RegistrarEnCaja(a, a.partidas, Anulado, Anulacion, 0.0);
          assert m.asientos.Keys == l.asientos.Keys;
          SumPointUpdate(l.asientos.Keys, CajaPorId(l), CajaPorId(m), id);
          SumCongruent(l.cuentas.Keys, Saldo(l), Saldo(m));
        case OpAjustar(contrato, indices) => AjusteEnCaja(l, contrato, indices);
      }
    }
  }

  /** In every run, whatever is requested, the cash in all accounts moves by exactly what the entries' logs
      record: collections of entries with DEBE less settlements. */
  lemma {:induction false} CorridaEnCaja(l: Libro, ops: seq<Op>)
    ensures var z := Correr(l, ops); SaldoTotal(z) - SaldoTotal(l) == CajaRegistrada(z) - CajaRegistrada(l)
    decreases |ops|
  {
    if ops != [] {
      PasoEnCaja(l, ops[0]);
      CorridaEnCaja(Paso(l, ops[0]), ops[1..]);
    }
  }
}
