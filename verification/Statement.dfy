/** An agent's statement of account, its balance, and what is pending to settle: read models that share the
    collected money among the HABER lines in proportion. */
module Statement {
  import opened Common
  import opened Dates
  import opened Entries
  import opened Imputation
  import opened Ledger

  /** A line with the entry it belongs to. */
  datatype Par = Par(asiento: Asiento, partida: Partida)

  datatype Filtro = Filtro(incluirAnulados: bool, desde: Option<Date>, hasta: Option<Date>, corte: Option<Date>)

  predicate Elegido(f: Filtro, a: Asiento) {
    && (f.incluirAnulados || (a.estado != Anulado && a.estado != Condonado))
    && match f.corte
       case Some(corte) => NotAfter(a.imputacion, corte)
       case None =>
         && (f.desde.Some? ==> NotAfter(f.desde.value, a.imputacion))
         && (f.hasta.Some? ==> NotAfter(a.imputacion, f.hasta.value))
  }

  function Pares(a: Asiento): (xs: seq<Par>)
    ensures |xs| == |a.partidas|
  {
    seq(|a.partidas|, i requires 0 <= i < |a.partidas| => Par(a, a.partidas[i]))
  }

  /** Every line of every chosen entry, in order. */
  function Todos(f: Filtro, asientos: seq<Asiento>): seq<Par> {
    if asientos == [] then []
    else
      var previos, ultimo := Todos(f, asientos[..|asientos| - 1]), asientos[|asientos| - 1];
      if Elegido(f, ultimo) then previos + Pares(ultimo) else previos
  }

  // ---------- proportional shares ----------

  function MontoCobrado(ps: seq<Partida>): real {
    Total(PagadoEnDebe, ps)
  }

  function Proporcion(ps: seq<Partida>, haber: real): real {
    var totalHaber := Total(HaberPositivo, ps);
    if totalHaber > 0.0 then Over(haber, totalHaber) else 0.0
  }

  /** Share of the collected money that a HABER line may claim. */
  function Cuota(ps: seq<Partida>, p: Partida): real {
    Times(MontoCobrado(ps), Proporcion(ps, p.haber))
  }

  /** Share of the money not collected yet. */
  function CuotaPendiente(ps: seq<Partida>, p: Partida): real {
    Times(Total(DebeOf, ps) - MontoCobrado(ps), Proporcion(ps, p.haber))
  }

  /** A returned deposit does not wait for collections. */
  function DisponibleDe(x: Par): real {
    if x.asiento.tipo == DepositoDevolucion then x.partida.haber - x.partida.liquidado
    else Cuota(x.asiento.partidas, x.partida) - x.partida.liquidado
  }

  /** A part `p` of a whole `h` takes that fraction of `c` and of `d - c`: together they make up p exactly when d
      is h, and then neither exceeds it. */
  lemma {:induction false} FraccionDe(c: real, d: real, p: real, h: real)
    requires 0.0 < p <= h && 0.0 <= c <= d
    ensures var s, r := Times(c, Over(p, h)), Times(d - c, Over(p, h));
            && (s + r == p <==> d == h)
            && (d == h ==> 0.0 <= s <= p)
            && (r == 0.0 <==> c == d)
  {
    var q := Over(p, h);
    EntreIguales(d - c, 0.0, q);
    FraccionPositiva(p, h);
    TimesAdd(q, d - c, c);
    assert Times(c, q) + Times(d - c, q) == Times(d, q);
    EntreIguales(d, h, q);
    ProductoEntre(c, d, q);
  }

  lemma {:induction false} FraccionPositiva(p: real, h: real)
    requires p > 0.0 && h > 0.0
    ensures Over(p, h) > 0.0 && Times(h, Over(p, h)) == p
  {
  }

  lemma {:induction false} EntreIguales(a: real, b: real, q: real)
    requires q > 0.0
    ensures Times(a, q) == Times(b, q) <==> a == b
  {
    if a != b { assert (a - b) * q != 0.0; }
  }

  lemma {:induction false} ProductoEntre(c: real, d: real, q: real)
    requires 0.0 <= c <= d && q > 0.0
    ensures 0.0 <= Times(c, q) <= Times(d, q)
  {
    assert c * q >= 0.0 && (d - c) * q >= 0.0;
  }

  lemma {:induction false} TotalesAcotados(ps: seq<Partida>, p: Partida)
    requires LineasOk(ps) && p in ps
    ensures Total(HaberPositivo, ps) == Total(HaberOf, ps) && p.haber <= Total(HaberOf, ps)
    ensures 0.0 <= MontoCobrado(ps) <= Total(DebeOf, ps)
  {
    FiltrosCoinciden(ps);
    var k :| 0 <= k < |ps| && ps[k] == p;
    TotalContains(HaberOf, ps, k);
    TotalNonNegative(PagadoEnDebe, ps);
    TotalLe(PagadoEnDebe, ps, DebeOf, ps);
  }

  /** A line's share and its pending share make up its HABER exactly when the entry balances; on a balanced
      entry no share exceeds its line. */
  lemma {:induction false} CuotaCompleta(ps: seq<Partida>, p: Partida)
    requires LineasOk(ps) && p in ps && p.haber > 0.0
    ensures Cuota(ps, p) + CuotaPendiente(ps, p) == p.haber <==> Balanceado(ps)
    ensures Balanceado(ps) ==> 0.0 <= Cuota(ps, p) <= p.haber
    ensures CuotaPendiente(ps, p) == 0.0 <==> MontoCobrado(ps) == Total(DebeOf, ps)
  {
    TotalesAcotados(ps, p);
    FraccionDe(MontoCobrado(ps), Total(DebeOf, ps), p.haber, Total(HaberOf, ps));
  }

  function CuotaEn(ps: seq<Partida>): Partida -> real {
    (p: Partida) => if p.haber > 0.0 then Cuota(ps, p) else 0.0
  }

  /** The shares of an entry with HABER lines add up to what was collected: nothing twice, nothing lost. */
  lemma {:induction false} CuotasSuman(ps: seq<Partida>)
    requires LineasOk(ps) && Total(HaberOf, ps) > 0.0
    ensures Total(CuotaEn(ps), ps) == MontoCobrado(ps)
  {
    FiltrosCoinciden(ps);
    var h, c := Total(HaberOf, ps), MontoCobrado(ps);
    forall i | 0 <= i < |ps| ensures CuotaEn(ps)(ps[i]) == Times(Over(c, h), HaberOf(ps[i])) {
      Conmuta(c, ps[i].haber, h);
    }
    TotalScale(CuotaEn(ps), ps, Over(c, h), HaberOf, ps);
    Conmuta(c, h, h);
    OverSelf(h);
  }

  lemma {:induction false} Conmuta(c: real, p: real, h: real)
    requires h > 0.0
    ensures Times(c, Over(p, h)) == Times(Over(c, h), p)
    ensures p == 0.0 ==> Times(Over(c, h), p) == 0.0
    ensures Times(c, 1.0) == c
  {
    var u, v := p / h, c / h;
    assert u * h == p && v * h == c;
    assert c * u == v * h * u;
  }

  /** A settlement pays a line all that is open on it. That is the proportional share the statement offers, as
      documented, exactly when what is collected makes up the HABER total, which on a balanced entry is all of its
      DEBE; for a returned deposit it always is. */
  lemma {:induction false} LiquidacionProporcional(a: Asiento, p: Partida, agente: string)
    requires LineasOk(a.partidas) && p in a.partidas && HaberDe(agente, p)
    ensures DisponibleDe(Par(a, p)) == Disponible(agente)(p) <==>
            a.tipo == DepositoDevolucion || MontoCobrado(a.partidas) == Total(HaberOf, a.partidas)
  {
    CuotaYHaber(a.partidas, p);
  }

  /** Share against the whole line, as collected against the HABER total. */
  lemma {:induction false} CuotaYHaber(ps: seq<Partida>, p: Partida)
    requires LineasOk(ps) && p in ps && p.haber > 0.0
    ensures Cuota(ps, p) == p.haber <==> MontoCobrado(ps) == Total(HaberOf, ps)
    ensures Cuota(ps, p) < p.haber <==> MontoCobrado(ps) < Total(HaberOf, ps)
  {
    TotalesAcotados(ps, p);
    FraccionPositiva(p.haber, Total(HaberOf, ps));
    OrdenIgual(MontoCobrado(ps), Total(HaberOf, ps), Over(p.haber, Total(HaberOf, ps)));
  }

  lemma {:induction false} OrdenIgual(a: real, b: real, q: real)
    requires q > 0.0
    ensures Times(a, q) < Times(b, q) <==> a < b
    ensures Times(a, q) == Times(b, q) <==> a == b
  {
    EntreIguales(a, b, q);
    if a < b { assert (b - a) * q > 0.0; }
    if b < a { assert (a - b) * q > 0.0; }
  }

  /** A settlement, for any request, lowers what a HABER line has available by what it settles there, and raises
      it by the line's share of the debt it compensates; for a returned deposit only the first. */
  lemma {:induction false} DisponibleTrasLiquidar(a: Asiento, agente: string, pedido: Option<real>, i: nat)
    requires i < |a.partidas| && a.partidas[i].haber > 0.0
    ensures var b, ps := ConLiquidacion(a, agente, pedido), a.partidas;
            DisponibleDe(Par(b, b.partidas[i])) ==
            DisponibleDe(Par(a, ps[i])) - ALiquidar(ps, agente, pedido, i)
            + (if a.tipo == DepositoDevolucion then 0.0
               else Times(Total(Compensable(agente), ps), Proporcion(ps, ps[i].haber)))
  {
    LiquidarEnLinea(a.partidas, agente, pedido, i);
    CuotaTrasLiquidar(a.partidas, agente, pedido, i);
  }

  lemma {:induction false} CuotaTrasLiquidar(ps: seq<Partida>, agente: string, pedido: Option<real>, i: nat)
    requires i < |ps|
    ensures var qs := Liquidar(ps, agente, pedido);
            Cuota(qs, qs[i]) ==
            Cuota(ps, ps[i]) + Times(Total(Compensable(agente), ps), Proporcion(ps, ps[i].haber))
  {
    LiquidarEnLinea(ps, agente, pedido, i);
    CobradoTrasLiquidar(ps, agente, pedido);
    TimesAdd(Proporcion(ps, ps[i].haber), MontoCobrado(ps), Total(Compensable(agente), ps));
  }

  lemma {:induction false} CobradoTrasLiquidar(ps: seq<Partida>, agente: string, pedido: Option<real>)
    ensures var qs := Liquidar(ps, agente, pedido);
            && MontoCobrado(qs) == MontoCobrado(ps) + Total(Compensable(agente), ps)
            && Total(DebeOf, qs) == Total(DebeOf, ps)
            && Total(HaberPositivo, qs) == Total(HaberPositivo, ps)
            && Total(HaberOf, qs) == Total(HaberOf, ps)
  {
    var qs := Liquidar(ps, agente, pedido);
    TotalAdd(PagadoEnDebe, qs, PagadoEnDebe, ps, Compensable(agente), ps);
    TotalEq(DebeOf, qs, DebeOf, ps);
    TotalEq(HaberPositivo, qs, HaberPositivo, ps);
    TotalEq(HaberOf, qs, HaberOf, ps);
  }

  /** After a full settlement the statement shows the line with a negative amount available exactly when what
      was collected and what the agent owes do not reach the HABER total: the settlement was an advance. */
  lemma {:induction false} AdelantoNegativo(a: Asiento, agente: string, pedido: Option<real>, i: nat)
    requires LineasOk(a.partidas) && a.tipo != DepositoDevolucion && Todo(pedido)
    requires i < |a.partidas| && HaberDe(agente, a.partidas[i])
    ensures var b := ConLiquidacion(a, agente, pedido);
            DisponibleDe(Par(b, b.partidas[i])) < 0.0 <==>
            MontoCobrado(a.partidas) + Total(Compensable(agente), a.partidas) < Total(HaberOf, a.partidas)
  {
    var ps, qs := a.partidas, Liquidar(a.partidas, agente, pedido);
    LiquidarConserva(ps, agente, pedido);
    LiquidarEnLinea(ps, agente, pedido, i);
    CobradoTrasLiquidar(ps, agente, pedido);
    assert qs[i] in qs;
    CuotaYHaber(qs, qs[i]);
  }

  /** Forgiven money is shared out as if it had been collected: the shares grow by what was forgiven although
      no cash came in. */
  lemma {:induction false} CondonadoSeReparte(l: Libro, id: string, monto: real)
    requires id in l.asientos && LineasOk(l.asientos[id].partidas) && Total(HaberOf, l.asientos[id].partidas) > 0.0
    requires 0.0 < monto <= Total(Deuda, l.asientos[id].partidas) && Condonar(l, id, Some(monto)).Ok?
    ensures var ps, r := l.asientos[id].partidas, Condonar(l, id, Some(monto)).value;
            var qs := r.asientos[id].partidas;
            r.cuentas == l.cuentas && Total(CuotaEn(qs), qs) == Total(CuotaEn(ps), ps) + monto
  {
    var ps := l.asientos[id].partidas;
    var qs := Imputar(ps, monto);
    ImputarConserva(ps, monto);
    ImputarSuma(ps, monto);
    TotalEq(HaberOf, qs, HaberOf, ps);
    CuotasSuman(ps);
    CuotasSuman(qs);
  }

  // ---------- the statement ----------

  datatype Movimiento =
    | MovDebe(debe: real, pagado: real, saldoPendiente: real, acumulado: real)
    | MovHaber(haber: real, liquidado: real, disponible: real, esDeposito: bool,
               totalLiquidable: Option<real>, acumulado: real)

  datatype Resumen = Resumen(totalDebe: real, totalHaber: real, totalPagadoDebe: real, totalRecaudadoHaber: real) {
    function SaldoPendienteDebe(): real {
      totalDebe - totalPagadoDebe
    }

    function SaldoDisponibleHaber(): real {
      totalRecaudadoHaber
    }
  }

  /** The agent's own lines, each quantity 0 elsewhere. */
  predicate EsDebe(agente: string, x: Par) {
    x.partida.agente == Some(agente) && x.partida.debe > 0.0
  }

  predicate EsHaber(agente: string, x: Par) {
    x.partida.agente == Some(agente) && x.partida.debe <= 0.0 && x.partida.haber > 0.0
  }

  function DebeDelAgente(agente: string): Par -> real {
    x => if EsDebe(agente, x) then x.partida.debe else 0.0
  }

  function PagadoDelAgente(agente: string): Par -> real {
    x => if EsDebe(agente, x) then x.partida.pagado else 0.0
  }

  function SaldoDelAgente(agente: string): Par -> real {
    x => if EsDebe(agente, x) then x.partida.debe - x.partida.pagado else 0.0
  }

  function HaberDelAgente(agente: string): Par -> real {
    x => if EsHaber(agente, x) then x.partida.haber else 0.0
  }

  function DisponibleDelAgente(agente: string): Par -> real {
    x => if EsHaber(agente, x) then DisponibleDe(x) else 0.0
  }

  function ResumenDe(agente: string, xs: seq<Par>): Resumen {
    Resumen(Total(DebeDelAgente(agente), xs), Total(HaberDelAgente(agente), xs),
            Total(PagadoDelAgente(agente), xs), Total(DisponibleDelAgente(agente), xs))
  }

  /** Movement of the last line of `xs`, with the balance accumulated up to it. */
  function Ultimo(agente: string, xs: seq<Par>): seq<Movimiento>
    requires xs != []
  {
    var x := xs[|xs| - 1];
    var p := x.partida;
    if EsDebe(agente, x) then [MovDebe(p.debe, p.pagado, p.debe - p.pagado, Total(SaldoDelAgente(agente), xs))]
    else if EsHaber(agente, x) then
      var deposito := x.asiento.tipo == DepositoDevolucion;
      [MovHaber(p.haber, p.liquidado, DisponibleDe(x), deposito,
                if deposito then None else Some(p.haber - p.liquidado), Total(DisponibleDelAgente(agente), xs))]
    else []
  }

  function Movimientos(agente: string, xs: seq<Par>): seq<Movimiento> {
    if xs == [] then [] else Movimientos(agente, xs[..|xs| - 1]) + Ultimo(agente, xs)
  }

  /** The pending-only filter: a deposit movement carries no total to settle, so it never passes. */
  predicate Visible(m: Movimiento) {
    match m
    case MovDebe(_, _, saldo, _) => saldo > 0.0
    case MovHaber(_, _, _, _, total, _) => total.Some? && total.value > 0.0
  }

  /** The running totals and movements of the statement. */
  datatype Acumulado = Acumulado(resumen: Resumen, debe: real, haber: real, movimientos: seq<Movimiento>)

  function AcumuladoDe(agente: string, xs: seq<Par>): Acumulado {
    Acumulado(ResumenDe(agente, xs), Total(SaldoDelAgente(agente), xs), Total(DisponibleDelAgente(agente), xs),
              Movimientos(agente, xs))
  }

  /** One line of the inner loop. */
  method AcumularPartida(t: Acumulado, asiento: Asiento, p: Partida, agente: string, ghost xs: seq<Par>)
    returns (u: Acumulado)
    requires t == AcumuladoDe(agente, xs)
    ensures u == AcumuladoDe(agente, xs + [Par(asiento, p)])
  {
    Extender(agente, xs, Par(asiento, p));
    u := t;
    if p.agente != Some(agente) { return; }
    if p.debe > 0.0 {
      var saldo := p.debe - p.pagado;
      u := u.(debe := t.debe + saldo,
              resumen := t.resumen.(totalDebe := t.resumen.totalDebe + p.debe,
                                    totalPagadoDebe := t.resumen.totalPagadoDebe + p.pagado),
              movimientos := t.movimientos + [MovDebe(p.debe, p.pagado, saldo, t.debe + saldo)]);
    } else if p.haber > 0.0 {
      var deposito := asiento.tipo == DepositoDevolucion;
      var disponible := if deposito then p.haber - p.liquidado
                        else Cuota(asiento.partidas, p) - p.liquidado;
      u := u.(haber := t.haber + disponible,
              resumen := t.resumen.(totalHaber := t.resumen.totalHaber + p.haber,
                                    totalRecaudadoHaber := t.resumen.totalRecaudadoHaber + disponible),
              movimientos := t.movimientos + [MovHaber(p.haber, p.liquidado, disponible, deposito,
                if deposito then None else Some(p.haber - p.liquidado), t.haber + disponible)]);
    }
  }

  method EstadoDeCuenta(asientos: seq<Asiento>, agente: string, f: Filtro, soloPendientes: bool)
    returns (r: Resumen, movimientos: seq<Movimiento>)
    ensures r == ResumenDe(agente, Todos(f, asientos))
    ensures !soloPendientes ==> movimientos == Movimientos(agente, Todos(f, asientos))
    ensures soloPendientes ==> movimientos == Filtrados(Movimientos(agente, Todos(f, asientos)))
  {
    var t := Acumulado(Resumen(0.0, 0.0, 0.0, 0.0), 0.0, 0.0, []);
    for n := 0 to |asientos|
      invariant t == AcumuladoDe(agente, Todos(f, asientos[..n]))
    {
      assert asientos[..n + 1][..n] == asientos[..n];
      if Elegido(f, asientos[n]) {
        t := AcumularAsiento(t, asientos[n], agente, Todos(f, asientos[..n]));
      }
    }
    assert asientos[..|asientos|] == asientos;
    r := t.resumen;
    movimientos := if soloPendientes then Filtrados(t.movimientos) else t.movimientos;
  }

  /** The inner loop, over the lines of one entry. */
  method AcumularAsiento(t: Acumulado, asiento: Asiento, agente: string, ghost base: seq<Par>) returns (u: Acumulado)
    requires t == AcumuladoDe(agente, base)
    ensures u == AcumuladoDe(agente, base + Pares(asiento))
  {
    u := t;
    assert base + Pares(asiento)[..0] == base;
    for i := 0 to |asiento.partidas|
      invariant u == AcumuladoDe(agente, base + Pares(asiento)[..i])
    {
      UnParMas(base, asiento, i);
      u := AcumularPartida(u, asiento, asiento.partidas[i], agente, base + Pares(asiento)[..i]);
    }
    assert Pares(asiento)[..|asiento.partidas|] == Pares(asiento);
  }

  lemma {:induction false} UnParMas(base: seq<Par>, a: Asiento, i: nat)
    requires i < |a.partidas|
    ensures base + Pares(a)[..i + 1] == base + Pares(a)[..i] + [Par(a, a.partidas[i])]
  {
  }

  lemma {:induction false} Extender(agente: string, xs: seq<Par>, x: Par)
    ensures ResumenDe(agente, xs + [x]) == Resumen(
              ResumenDe(agente, xs).totalDebe + DebeDelAgente(agente)(x),
              ResumenDe(agente, xs).totalHaber + HaberDelAgente(agente)(x),
              ResumenDe(agente, xs).totalPagadoDebe + PagadoDelAgente(agente)(x),
              ResumenDe(agente, xs).totalRecaudadoHaber + DisponibleDelAgente(agente)(x))
    ensures Total(SaldoDelAgente(agente), xs + [x]) == Total(SaldoDelAgente(agente), xs) + SaldoDelAgente(agente)(x)
    ensures Total(DisponibleDelAgente(agente), xs + [x]) ==
            Total(DisponibleDelAgente(agente), xs) + DisponibleDelAgente(agente)(x)
    ensures Movimientos(agente, xs + [x]) == Movimientos(agente, xs) + Ultimo(agente, xs + [x])
  {
    assert (xs + [x])[..|xs|] == xs;
  }

  function Filtrados(ms: seq<Movimiento>): (r: seq<Movimiento>)
    ensures forall m :: m in r <==> m in ms && Visible(m)
  {
    if ms == [] then []
    else if Visible(ms[0]) then [ms[0]] + Filtrados(ms[1..])
    else Filtrados(ms[1..])
  }

  /** A movement still open. */
  predicate Abierto(m: Movimiento) {
    match m
    case MovDebe(_, _, saldo, _) => saldo > 0.0
    case MovHaber(haber, liquidado, _, _, _, _) => haber - liquidado > 0.0
  }

  /** The pending-only view hides an open movement exactly when it is a returned deposit. */
  lemma {:induction false} PendientesOcultos(agente: string, xs: seq<Par>, m: Movimiento)
    requires m in Movimientos(agente, xs) && Abierto(m)
    ensures m !in Filtrados(Movimientos(agente, xs)) <==> m.MovHaber? && m.esDeposito
  {
    if m.MovHaber? { TotalDeMovimiento(agente, xs, m); }
  }

  lemma {:induction false} TotalDeMovimiento(agente: string, xs: seq<Par>, m: Movimiento)
    requires m in Movimientos(agente, xs) && m.MovHaber?
    ensures m.totalLiquidable == if m.esDeposito then None else Some(m.haber - m.liquidado)
  {
    if m !in Ultimo(agente, xs) { TotalDeMovimiento(agente, xs[..|xs| - 1], m); }
  }

  // ---------- the balance partitions the ledger ----------

  /** `deudaPendiente - creditoDisponible`. */
  function Balance(agente: string, f: Filtro, asientos: seq<Asiento>): real {
    var r := ResumenDe(agente, Todos(f, asientos));
    r.SaldoPendienteDebe() - r.SaldoDisponibleHaber()
  }

  /** What a line weighs in the balance of whoever it names. */
  function Peso(x: Par): real {
    if x.partida.debe > 0.0 then x.partida.debe - x.partida.pagado
    else if x.partida.haber > 0.0 then -DisponibleDe(x)
    else 0.0
  }

  function PesoDe(agente: string): Par -> real {
    (x: Par) => if x.partida.agente == Some(agente) then Peso(x) else 0.0
  }

  function PesoSinAgente(x: Par): real {
    if x.partida.agente == None then Peso(x) else 0.0
  }

  lemma {:induction false} BalanceEsSuma(agente: string, f: Filtro, asientos: seq<Asiento>)
    ensures Balance(agente, f, asientos) == Total(PesoDe(agente), Todos(f, asientos))
  {
    var xs := Todos(f, asientos);
    TotalAdd(DebeDelAgente(agente), xs, SaldoDelAgente(agente), xs, PagadoDelAgente(agente), xs);
    TotalAdd(SaldoDelAgente(agente), xs, PesoDe(agente), xs, DisponibleDelAgente(agente), xs);
  }

  predicate Distintos(agentes: seq<string>) {
    forall i, j :: 0 <= i < j < |agentes| ==> agentes[i] != agentes[j]
  }

  function PesoEn(x: Par): string -> real {
    agente => PesoDe(agente)(x)
  }

  function TotalDe(xs: seq<Par>): string -> real {
    agente => Total(PesoDe(agente), xs)
  }

  function PesoNombrado(agentes: seq<string>): Par -> real {
    (x: Par) => if x.partida.agente.Some? && x.partida.agente.value in agentes then Peso(x) else 0.0
  }

  /** Over agents without repetition a line weighs once, on the agent it names. */
  lemma {:induction false} PesaUnaVez(agentes: seq<string>, x: Par)
    requires Distintos(agentes)
    ensures Total(PesoEn(x), agentes) == PesoNombrado(agentes)(x)
  {
    if agentes != [] {
      var n := |agentes| - 1;
      PesaUnaVez(agentes[..n], x);
      assert agentes == agentes[..n] + [agentes[n]];
      assert agentes[n] !in agentes[..n];
      assert forall v :: v in agentes <==> v in agentes[..n] || v == agentes[n];
      assert PesoNombrado(agentes)(x) == PesoNombrado(agentes[..n])(x) + PesoDe(agentes[n])(x);
    }
  }

  lemma {:induction false} SumaPorAgentes(agentes: seq<string>, xs: seq<Par>)
    requires Distintos(agentes)
    ensures Total(TotalDe(xs), agentes) == Total(PesoNombrado(agentes), xs)
  {
    if xs == [] {
      TotalZero(TotalDe(xs), agentes);
    } else {
      var init, x := xs[..|xs| - 1], xs[|xs| - 1];
      SumaPorAgentes(agentes, init);
      PesaUnaVez(agentes, x);
      TotalAdd(TotalDe(xs), agentes, TotalDe(init), agentes, PesoEn(x), agentes);
    }
  }

  function BalanceEn(f: Filtro, asientos: seq<Asiento>): string -> real {
    agente => Balance(agente, f, asientos)
  }

  /** Money of an entry: owed by debtors, less what creditors may claim of the money collected. */
  function SaldoDe(a: Asiento): real {
    var debe, haber := Total(DebeOf, a.partidas), Total(HaberOf, a.partidas);
    var liquidado := Total(LiquidadoEnHaber, a.partidas);
    (debe - MontoCobrado(a.partidas)) -
    (if a.tipo == DepositoDevolucion then haber - liquidado
     else if haber > 0.0 then MontoCobrado(a.partidas) - liquidado
     else 0.0)
  }

  function SaldoSiElegido(f: Filtro): Asiento -> real {
    a => if Elegido(f, a) then SaldoDe(a) else 0.0
  }

  function DisponiblePositivo(x: Par): real {
    if x.partida.haber > 0.0 then DisponibleDe(x) else 0.0
  }

  lemma {:induction false} PesoDelAsiento(a: Asiento)
    requires LineasOk(a.partidas)
    ensures Total(Peso, Pares(a)) == SaldoDe(a)
  {
    var ps, xs := a.partidas, Pares(a);
    FiltrosCoinciden(ps);
    TotalAdd(Deuda, ps, Peso, xs, DisponiblePositivo, xs);
    if a.tipo == DepositoDevolucion {
      TotalAdd(HaberOf, ps, DisponiblePositivo, xs, LiquidadoEnHaber, ps);
    } else if Total(HaberOf, ps) > 0.0 {
      TotalAdd(CuotaEn(ps), ps, DisponiblePositivo, xs, LiquidadoEnHaber, ps);
      CuotasSuman(ps);
    } else {
      TotalNonNegative(HaberOf, ps);
      TotalZero(DisponiblePositivo, xs);
    }
  }

  lemma {:induction false} PesoDelLibro(f: Filtro, asientos: seq<Asiento>)
    requires forall i :: 0 <= i < |asientos| ==> LineasOk(asientos[i].partidas)
    ensures Total(Peso, Todos(f, asientos)) == Total(SaldoSiElegido(f), asientos)
  {
    if asientos != [] {
      var init, a := asientos[..|asientos| - 1], asientos[|asientos| - 1];
      PesoDelLibro(f, init);
      PesoDelAsiento(a);
      if Elegido(f, a) { TotalConcat(Peso, Todos(f, init), Pares(a)); }
    }
  }

  /** The balances of all agents, plus what lines without an agent carry, add up to the ledger: per-agent
      statements lose nothing and count nothing twice. */
  lemma {:induction false} BalancesParticionan(agentes: seq<string>, f: Filtro, asientos: seq<Asiento>)
    requires Distintos(agentes)
    requires forall i :: 0 <= i < |asientos| ==> LineasOk(asientos[i].partidas)
    requires forall i :: 0 <= i < |Todos(f, asientos)| ==>
               Todos(f, asientos)[i].partida.agente.None? || Todos(f, asientos)[i].partida.agente.value in agentes
    ensures Total(BalanceEn(f, asientos), agentes) + Total(PesoSinAgente, Todos(f, asientos)) ==
            Total(SaldoSiElegido(f), asientos)
  {
    var xs := Todos(f, asientos);
    forall agente ensures BalanceEn(f, asientos)(agente) == TotalDe(xs)(agente) {
      BalanceEsSuma(agente, f, asientos);
    }
    TotalEq(BalanceEn(f, asientos), agentes, TotalDe(xs), agentes);
    SumaPorAgentes(agentes, xs);
    TotalAdd(Peso, xs, PesoNombrado(agentes), xs, PesoSinAgente, xs);
    PesoDelLibro(f, asientos);
  }

  // ---------- pending settlements ----------

  datatype PorLiquidar = PorLiquidar(par: Par, disponible: real)

  predicate Listable(agente: string, x: Par) {
    && x.asiento.estado in {Pagado, PagadoParcial} && MontoCobrado(x.asiento.partidas) != 0.0
    && x.partida.haber > 0.0 && x.partida.agente == Some(agente)
    && Cuota(x.asiento.partidas, x.partida) - x.partida.liquidado > 0.0
  }

  function Agregar(agente: string, previos: seq<PorLiquidar>, x: Par): seq<PorLiquidar> {
    if Listable(agente, x) then previos + [PorLiquidar(x, Cuota(x.asiento.partidas, x.partida) - x.partida.liquidado)]
    else previos
  }

  function Listados(agente: string, xs: seq<Par>): (r: seq<PorLiquidar>)
    ensures forall q :: q in r <==>
              q.par in xs && Listable(agente, q.par)
              && q.disponible == Cuota(q.par.asiento.partidas, q.par.partida) - q.par.partida.liquidado
  {
    if xs == [] then [] else Agregar(agente, Listados(agente, xs[..|xs| - 1]), xs[|xs| - 1])
  }

  const SinFiltro := Filtro(true, None, None, None)

  method PendientesDeLiquidacion(asientos: seq<Asiento>, agente: string) returns (r: seq<PorLiquidar>)
    ensures r == Listados(agente, Todos(SinFiltro, asientos))
  {
    r := [];
    for n := 0 to |asientos|
      invariant r == Listados(agente, Todos(SinFiltro, asientos[..n]))
    {
      assert asientos[..n + 1][..n] == asientos[..n];
      r := ListarAsiento(asientos[n], agente, r, Todos(SinFiltro, asientos[..n]));
    }
    assert asientos[..|asientos|] == asientos;
  }

  /** The lines of one entry; an entry with nothing collected is skipped. */
  method ListarAsiento(a: Asiento, agente: string, previos: seq<PorLiquidar>, ghost base: seq<Par>)
    returns (r: seq<PorLiquidar>)
    requires previos == Listados(agente, base)
    ensures r == Listados(agente, base + Pares(a))
  {
    r := previos;
    assert Pares(a)[..|a.partidas|] == Pares(a) && base + Pares(a)[..0] == base;
    if a.estado !in {Pagado, PagadoParcial} || MontoCobrado(a.partidas) == 0.0 {
      NadaListado(agente, base, a, |a.partidas|);
      return;
    }
    for i := 0 to |a.partidas|
      invariant r == Listados(agente, base + Pares(a)[..i])
    {
      ListadoExtendido(agente, base, a, i);
      r := ListarPartida(a, a.partidas[i], agente, r);
    }
  }

  method ListarPartida(a: Asiento, p: Partida, agente: string, previos: seq<PorLiquidar>) returns (r: seq<PorLiquidar>)
    requires a.estado in {Pagado, PagadoParcial} && MontoCobrado(a.partidas) != 0.0
    ensures r == Agregar(agente, previos, Par(a, p))
  {
    r := previos;
    if p.haber > 0.0 && p.agente == Some(agente) {
      var disponible := Cuota(a.partidas, p) - p.liquidado;
      if disponible > 0.0 { r := r + [PorLiquidar(Par(a, p), disponible)]; }
    }
  }

  lemma {:induction false} ListadoExtendido(agente: string, base: seq<Par>, a: Asiento, n: nat)
    requires n < |a.partidas|
    ensures Listados(agente, base + Pares(a)[..n + 1]) ==
            Agregar(agente, Listados(agente, base + Pares(a)[..n]), Par(a, a.partidas[n]))
  {
    assert (base + Pares(a)[..n + 1])[..|base| + n] == base + Pares(a)[..n];
  }

  lemma {:induction false} NadaListado(agente: string, base: seq<Par>, a: Asiento, n: nat)
    requires n <= |a.partidas|
    requires a.estado !in {Pagado, PagadoParcial} || MontoCobrado(a.partidas) == 0.0
    ensures Listados(agente, base + Pares(a)[..n]) == Listados(agente, base)
  {
    if n == 0 {
      assert base + Pares(a)[..0] == base;
    } else {
      NadaListado(agente, base, a, n - 1);
      ListadoExtendido(agente, base, a, n - 1);
    }
  }

  /** Outside returned deposits the list offers exactly the statement's positive available amounts, of the
      entries PAGADO or PAGADO_PARCIAL. An entry collected but not settled is COBRADO and is never listed. */
  lemma {:induction false} ListadosSegunEstado(agente: string, asientos: seq<Asiento>, x: Par)
    requires x in Todos(SinFiltro, asientos) && x.asiento.tipo != DepositoDevolucion && LineaOk(x.partida)
    ensures PorLiquidar(x, DisponibleDe(x)) in Listados(agente, Todos(SinFiltro, asientos)) <==>
            x.asiento.estado in {Pagado, PagadoParcial} && DisponibleDelAgente(agente)(x) > 0.0
    ensures x.asiento.estado == Cobrado ==>
            forall q :: q in Listados(agente, Todos(SinFiltro, asientos)) ==> q.par != x
  {
  }

  // ---------- what the limits of a statement leave out ----------

  /** An entry outside the dates asked for: after the cut-off, which replaces the range, or else before or after it. */
  predicate FueraDeFecha(f: Filtro, a: Asiento) {
    if f.corte.Some? then Before(f.corte.value, a.imputacion)
    else
      (f.desde.Some? && Before(a.imputacion, f.desde.value)) || (f.hasta.Some? && Before(f.hasta.value, a.imputacion))
  }

  predicate Oculto(f: Filtro, a: Asiento) {
    !f.incluirAnulados && (a.estado == Anulado || a.estado == Condonado)
  }

  /** One entry more: outside the dates, or annulled or forgiven and not asked for, it changes neither totals nor
      movements; otherwise its lines join those before, in order. */
  lemma {:induction false} UnAsientoEnElEstado(f: Filtro, asientos: seq<Asiento>, a: Asiento, agente: string)
    ensures FueraDeFecha(f, a) || Oculto(f, a) ==>
              ResumenDe(agente, Todos(f, asientos + [a])) == ResumenDe(agente, Todos(f, asientos)) &&
              Movimientos(agente, Todos(f, asientos + [a])) == Movimientos(agente, Todos(f, asientos))
    ensures !FueraDeFecha(f, a) && !Oculto(f, a) ==> Todos(f, asientos + [a]) == Todos(f, asientos) + Pares(a)
  {
    assert (asientos + [a])[..|asientos|] == asientos;
  }

  function HastaElCorte(corte: Date): Filtro {
    Filtro(false, None, None, Some(corte))
  }

  function HastaLaFecha(hasta: Date): Filtro {
    Filtro(false, None, Some(hasta), None)
  }

  /** What an entry dated after one day and not after another weighs in an agent's balance. */
  function PesoEntre(desde: Date, hasta: Date, agente: string): Asiento -> real {
    (a: Asiento) =>
      if Before(desde, a.imputacion) && !Before(hasta, a.imputacion) && a.estado != Anulado && a.estado != Condonado
      then Total(PesoDe(agente), Pares(a)) else 0.0
  }

  /** Balances at two dates differ by exactly the live entries dated after the first and not after the second, whether
      given as a cut-off or as the end of a range. */
  lemma {:induction false} BalanceEntreFechas(agente: string, desde: Date, hasta: Date, asientos: seq<Asiento>)
    requires NotAfter(desde, hasta)
    ensures Balance(agente, HastaElCorte(hasta), asientos) ==
            Balance(agente, HastaElCorte(desde), asientos) + Total(PesoEntre(desde, hasta, agente), asientos)
    ensures Balance(agente, HastaLaFecha(hasta), asientos) == Balance(agente, HastaElCorte(hasta), asientos)
  {
    BalanceEsSuma(agente, HastaElCorte(hasta), asientos);
    BalanceEsSuma(agente, HastaElCorte(desde), asientos);
    BalanceEsSuma(agente, HastaLaFecha(hasta), asientos);
    PesosEntreFechas(agente, desde, hasta, asientos);
  }

  lemma {:induction false} PesosEntreFechas(agente: string, desde: Date, hasta: Date, asientos: seq<Asiento>)
    requires NotAfter(desde, hasta)
    ensures Total(PesoDe(agente), Todos(HastaElCorte(hasta), asientos)) ==
            Total(PesoDe(agente), Todos(HastaElCorte(desde), asientos)) +
            Total(PesoEntre(desde, hasta, agente), asientos)
    ensures Todos(HastaLaFecha(hasta), asientos) == Todos(HastaElCorte(hasta), asientos)
  {
    if asientos != [] {
      var n := |asientos| - 1;
      PesosEntreFechas(agente, desde, hasta, asientos[..n]);
      PesoSumado(agente, HastaElCorte(desde), asientos);
      PesoSumado(agente, HastaElCorte(hasta), asientos);
    }
  }

  lemma {:induction false} PesoSumado(agente: string, f: Filtro, asientos: seq<Asiento>)
    requires asientos != []
    ensures var n := |asientos| - 1;
            Total(PesoDe(agente), Todos(f, asientos)) ==
            Total(PesoDe(agente), Todos(f, asientos[..n])) +
            (if FueraDeFecha(f, asientos[n]) || Oculto(f, asientos[n]) then 0.0
             else Total(PesoDe(agente), Pares(asientos[n])))
  {
    var n := |asientos| - 1;
    UnAsientoEnElEstado(f, asientos[..n], asientos[n], agente);
    assert asientos[..n] + [asientos[n]] == asientos;
    TotalConcat(PesoDe(agente), Todos(f, asientos[..n]), Pares(asientos[n]));
  }

  /** calculateAgentBalanceWithCutoff: what the agent owes less what it may claim, up to a date if one is given. */
  method CalcularBalance(asientos: seq<Asiento>, agente: string, hasta: Option<Date>) returns (balance: real)
    ensures hasta.Some? ==> balance == Balance(agente, HastaElCorte(hasta.value), asientos)
    ensures hasta.None? ==> balance == Balance(agente, Filtro(false, None, None, None), asientos)
  {
    var r, movimientos := EstadoDeCuenta(asientos, agente, Filtro(false, None, hasta, None), true);
    balance := r.SaldoPendienteDebe() - r.SaldoDisponibleHaber();
    if hasta.Some? { BalanceEntreFechas(agente, hasta.value, hasta.value, asientos); }
  }

  // ---------- order of the lists ----------

  /** The pending-only view keeps the order of the movements, each as often as it comes: by parts, a DEBE movement with
      something left to pay, or a HABER one, not of a deposit, with something left to settle. */
  lemma {:induction false} FiltradosEnOrden(xs: seq<Movimiento>, ys: seq<Movimiento>, m: Movimiento)
    ensures Filtrados(xs + ys) == Filtrados(xs) + Filtrados(ys)
    ensures Filtrados([m]) ==
            if (m.MovDebe? && m.saldoPendiente > 0.0) ||
               (m.MovHaber? && m.totalLiquidable.Some? && m.totalLiquidable.value > 0.0) then [m] else []
  {
    assert Filtrados([m][1..]) == [];
    FiltradosPorPartes(xs, ys);
  }

  lemma {:induction false} FiltradosPorPartes(xs: seq<Movimiento>, ys: seq<Movimiento>)
    ensures Filtrados(xs + ys) == Filtrados(xs) + Filtrados(ys)
  {
    if xs == [] {
      assert xs + ys == ys;
    } else {
      assert (xs + ys)[1..] == xs[1..] + ys;
      FiltradosPorPartes(xs[1..], ys);
    }
  }

  /** And so does the list of pending settlements. */
  lemma {:induction false} ListadosEnOrden(agente: string, xs: seq<Par>, ys: seq<Par>, x: Par)
    ensures Listados(agente, xs + ys) == Listados(agente, xs) + Listados(agente, ys)
    ensures Listados(agente, [x]) ==
            if Listable(agente, x)
            then [PorLiquidar(x, Cuota(x.asiento.partidas, x.partida) - x.partida.liquidado)] else []
  {
    assert [x][..0] == [] && Listados(agente, [x][..0]) == [];
    ListadosPorPartes(agente, xs, ys);
  }

  lemma {:induction false} ListadosPorPartes(agente: string, xs: seq<Par>, ys: seq<Par>)
    ensures Listados(agente, xs + ys) == Listados(agente, xs) + Listados(agente, ys)
  {
    if ys == [] {
      assert xs + ys == xs;
    } else {
      assert (xs + ys)[..|xs + ys| - 1] == xs + ys[..|ys| - 1];
      ListadosPorPartes(agente, xs, ys[..|ys| - 1]);
    }
  }
}
