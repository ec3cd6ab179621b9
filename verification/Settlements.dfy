/** Settling an agent: what a full settlement closes and pays, what a second one changes, and how the
    settlements of two agents combine. */
module Settlements {
  import opened Common
  import opened Entries
  import opened Imputation
  import opened Ledger
  import Runs

  predicate Cerrada(agente: string, p: Partida) {
    Disponible(agente)(p) == 0.0 && Compensable(agente)(p) == 0.0
  }

  /** A full settlement closes every line of the agent, touches no other line, and its net is what was open
      in favour of the agent less what the agent owed. */
  lemma {:induction false} LiquidacionTotal(ps: seq<Partida>, agente: string, pedido: Option<real>)
    requires LineasOk(ps) && Todo(pedido)
    ensures forall i :: 0 <= i < |ps| ==> Cerrada(agente, Liquidar(ps, agente, pedido)[i])
    ensures forall i :: 0 <= i < |ps| && ps[i].agente != Some(agente) ==> Liquidar(ps, agente, pedido)[i] == ps[i]
    ensures Neto(ps, agente, pedido) == Total(Disponible(agente), ps) - Total(Compensable(agente), ps)
  {
    TotalEq(Same, Liquidados(ps, agente, pedido), Disponible(agente), ps);
  }

  /** A settlement up to a positive amount pays exactly that, or all that is open when that is less. */
  lemma {:induction false} LiquidacionParcial(ps: seq<Partida>, agente: string, pedido: real)
    requires pedido > 0.0
    ensures Total(Same, Liquidados(ps, agente, Some(pedido))) == Min(pedido, Total(Disponible(agente), ps))
  {
    var xs := Liquidados(ps, agente, Some(pedido));
    assert xs[..|ps|] == xs && ps[..|ps|] == ps;
    LiquidadoHasta(ps, agente, pedido, |ps|);
  }

  lemma {:induction false} LiquidadoHasta(ps: seq<Partida>, agente: string, pedido: real, n: nat)
    requires pedido > 0.0 && n <= |ps|
    ensures Total(Same, Liquidados(ps, agente, Some(pedido))[..n]) == Min(pedido, Total(Disponible(agente), ps[..n]))
  {
    if n > 0 {
      LiquidadoHasta(ps, agente, pedido, n - 1);
      TotalStep(Same, Liquidados(ps, agente, Some(pedido)), n - 1);
      TotalStep(Disponible(agente), ps, n - 1);
      TotalNonNegative(Disponible(agente), ps[..n - 1]);
    }
  }

  /** Settling p and then q is settling p + q on every line. */
  lemma {:induction false} LiquidarComposicion(ps: seq<Partida>, agente: string, p: real, q: real)
    requires p > 0.0 && q > 0.0
    ensures Liquidar(Liquidar(ps, agente, Some(p)), agente, Some(q)) == Liquidar(ps, agente, Some(p + q))
    ensures Total(Disponible(agente), Liquidar(ps, agente, Some(p))) ==
            Total(Disponible(agente), ps) - Min(p, Total(Disponible(agente), ps))
    ensures Total(Compensable(agente), Liquidar(ps, agente, Some(p))) == 0.0
  {
    var qs := Liquidar(ps, agente, Some(p));
    forall i | 0 <= i < |ps|
      ensures Liquidar(qs, agente, Some(q))[i] == Liquidar(ps, agente, Some(p + q))[i]
      ensures Compensable(agente)(qs[i]) == 0.0
    {
      AbiertoTrasLiquidar(ps, agente, p, i);
      TotalNonNegative(Disponible(agente), ps[..i]);
      DosLiquidacionesEnLinea(ps, agente, p, q, i);
    }
    AbiertoTrasLiquidar(ps, agente, p, |ps|);
    assert ps[..|ps|] == ps && qs[..|ps|] == qs;
    TotalZero(Compensable(agente), qs);
  }

  /** What the lines before n have open after settling p. */
  lemma {:induction false} AbiertoTrasLiquidar(ps: seq<Partida>, agente: string, p: real, n: nat)
    requires p > 0.0 && n <= |ps|
    ensures var d, qs := Disponible(agente), Liquidar(ps, agente, Some(p));
            Total(d, qs[..n]) == Total(d, ps[..n]) - Min(p, Total(d, ps[..n]))
  {
    var d, qs, xs := Disponible(agente), Liquidar(ps, agente, Some(p)), Liquidados(ps, agente, Some(p));
    LiquidadoHasta(ps, agente, p, n);
    forall i | 0 <= i < n ensures d(ps[..n][i]) == d(qs[..n][i]) + Same(xs[..n][i]) {
      LiquidarEnLinea(ps, agente, Some(p), i);
      TotalNonNegative(d, ps[..i]);
    }
    TotalAdd(d, ps[..n], d, qs[..n], Same, xs[..n]);
  }

  lemma {:induction false} DosLiquidacionesEnLinea(ps: seq<Partida>, agente: string, p: real, q: real, i: nat)
    requires p > 0.0 && q > 0.0 && i < |ps|
    requires var d, qs := Disponible(agente), Liquidar(ps, agente, Some(p));
             Total(d, qs[..i]) == Total(d, ps[..i]) - Min(p, Total(d, ps[..i])) && Total(d, ps[..i]) >= 0.0
    ensures var qs := Liquidar(ps, agente, Some(p));
            && Liquidar(qs, agente, Some(q))[i] == Liquidar(ps, agente, Some(p + q))[i]
            && Compensable(agente)(qs[i]) == 0.0
  {
    var qs := Liquidar(ps, agente, Some(p));
    LiquidarEnLinea(ps, agente, Some(p), i);
    LiquidarEnLinea(qs, agente, Some(q), i);
    LiquidarEnLinea(ps, agente, Some(p + q), i);
    assert Disponible(agente)(qs[i]) == Disponible(agente)(ps[i]) - ALiquidar(ps, agente, Some(p), i);
  }

  /** In cash the two are the one exactly when the first covers what the agent owes, or leaves nothing open: the net
      of each is paid out whichever its sign. */
  lemma {:induction false} NetosPartidos(ps: seq<Partida>, agente: string, p: real, q: real)
    requires p > 0.0 && q > 0.0
    ensures var na, nb := Neto(ps, agente, Some(p)), Neto(Liquidar(ps, agente, Some(p)), agente, Some(q));
            var n := Neto(ps, agente, Some(p + q));
            && n == na + nb && nb >= 0.0
            && (Abs(na) + Abs(nb) == Abs(n) <==>
                Total(Compensable(agente), ps) <= p || Total(Disponible(agente), ps) <= p)
  {
    LiquidarComposicion(ps, agente, p, q);
    LiquidacionParcial(ps, agente, p);
    LiquidacionParcial(ps, agente, p + q);
    LiquidacionParcial(Liquidar(ps, agente, Some(p)), agente, q);
    TotalNonNegative(Disponible(agente), ps);
    TotalNonNegative(Compensable(agente), ps);
    NetosDe(Total(Disponible(agente), ps), Total(Compensable(agente), ps), p, q);
  }

  /** The same of the amounts: d open, c owed. */
  lemma {:induction false} NetosDe(d: real, c: real, p: real, q: real)
    requires d >= 0.0 && c >= 0.0 && p > 0.0 && q > 0.0
    ensures var na, nb, n := Min(p, d) - c, Min(q, d - Min(p, d)), Min(p + q, d) - c;
            n == na + nb && nb >= 0.0 && (Abs(na) + Abs(nb) == Abs(n) <==> c <= p || d <= p)
  {
  }

  /** The cash of an accepted settlement moves by the net with its sign exactly when what is compensated does not
      exceed what is settled; otherwise what the agent still owes is paid to it. */
  lemma {:induction false} EgresoConSigno(l: Libro, id: string, agente: string, pedido: Option<real>, cuenta: string)
    requires LiquidacionAceptable(l, id, agente, pedido, cuenta) && cuenta in l.cuentas
    ensures var ps, r := l.asientos[id].partidas, LiquidarAPropietario(l, id, agente, pedido, cuenta);
            && r.Ok? && cuenta in r.value.cuentas
            && (r.value.cuentas[cuenta] == l.cuentas[cuenta] - Neto(ps, agente, pedido) <==>
                Total(Compensable(agente), ps) <= Total(Same, Liquidados(ps, agente, pedido)))
  {
    PasoDeLiquidacion(l, id, agente, pedido, cuenta);
  }

  /** Settling p and then q against settling p + q, on the store: same lines always, same acceptance, cash and
      estado each under its own condition. */
  lemma {:induction false} LiquidacionPartida(l: Libro, id: string, a: string, p: real, q: real, cuenta: string)
    requires id in l.asientos && LineasOk(l.asientos[id].partidas) && p > 0.0 && q > 0.0
    ensures var e, dos := l.asientos[id], DosDelMismo(l, id, a, p, q, cuenta);
            var ps, junto := e.partidas, LiquidarAPropietario(l, id, a, Some(p + q), cuenta);
            && (dos.Ok? ==> junto.Ok?)
            && (junto.Ok? ==> (dos.Ok? <==> cuenta in l.cuentas || Neto(ps, a, Some(p)) == 0.0))
            && (dos.Ok? ==>
                  && id in dos.value.asientos && id in junto.value.asientos
                  && dos.value.asientos[id].partidas == junto.value.asientos[id].partidas
                  && (dos.value.cuentas == junto.value.cuentas <==>
                      cuenta !in l.cuentas || Total(Compensable(a), ps) <= p || Total(Disponible(a), ps) <= p)
                  && (dos.value.asientos[id].estado == junto.value.asientos[id].estado <==>
                      e.estado != Cobrado || !TodasLiquidadas(Liquidar(ps, a, Some(p)))))
  {
    var ps := l.asientos[id].partidas;
    MismasLineas(ps, a, Some(p));
    NetosPartidos(ps, a, p, q);
    PasoDeLiquidacion(l, id, a, Some(p), cuenta);
    PasoDeLiquidacion(l, id, a, Some(p + q), cuenta);
    EstadoPartido(l.asientos[id], a, p, q);
    var uno := LiquidarAPropietario(l, id, a, Some(p), cuenta);
    if uno.Ok? {
      PasoDeLiquidacion(uno.value, id, a, Some(q), cuenta);
      EgresosIguales(l.cuentas, cuenta, Neto(ps, a, Some(p)), Neto(Liquidar(ps, a, Some(p)), a, Some(q)),
                     Neto(ps, a, Some(p + q)));
    }
  }

  /** Two settlements of one agent in a row. */
  function DosDelMismo(l: Libro, id: string, a: string, p: real, q: real, cuenta: string): Result<Libro, Error> {
    match LiquidarAPropietario(l, id, a, Some(p), cuenta)
    case Ok(m) => LiquidarAPropietario(m, id, a, Some(q), cuenta)
    case Err(e) => Err(e)
  }

  lemma {:induction false} EstadoPartido(e: Asiento, a: string, p: real, q: real)
    requires LineasOk(e.partidas) && p > 0.0 && q > 0.0
    ensures var dos := ConLiquidacion(ConLiquidacion(e, a, Some(p)), a, Some(q));
            var uno := ConLiquidacion(e, a, Some(p + q));
            && dos.partidas == uno.partidas
            && (dos.estado == uno.estado <==>
                e.estado != Cobrado || !TodasLiquidadas(Liquidar(e.partidas, a, Some(p))))
  {
    LiquidarComposicion(e.partidas, a, p, q);
    Runs.LiquidarAvanza(e.partidas, a, Some(p));
    Runs.LiquidarAvanza(Liquidar(e.partidas, a, Some(p)), a, Some(q));
  }

  lemma {:induction false} EgresosIguales(cuentas: map<string, real>, cuenta: string, na: real, nb: real, n: real)
    ensures TrasEgreso(TrasEgreso(cuentas, cuenta, na), cuenta, nb) == TrasEgreso(cuentas, cuenta, n) <==>
            cuenta !in cuentas || Abs(na) + Abs(nb) == Abs(n)
    ensures cuenta in TrasEgreso(cuentas, cuenta, na) <==> cuenta in cuentas
  {
    MoverDos(cuentas, cuenta, -Abs(na), -Abs(nb));
    if cuenta in cuentas {
      assert TrasEgreso(TrasEgreso(cuentas, cuenta, na), cuenta, nb)[cuenta] == cuentas[cuenta] - Abs(na) - Abs(nb);
      assert TrasEgreso(cuentas, cuenta, n)[cuenta] == cuentas[cuenta] - Abs(n);
    }
  }

  lemma {:induction false} SinAbiertas(ps: seq<Partida>, agente: string, pedido: Option<real>)
    requires forall i :: 0 <= i < |ps| ==> Cerrada(agente, ps[i])
    ensures Liquidar(ps, agente, pedido) == ps
    ensures Neto(ps, agente, pedido) == 0.0
  {
    TotalZero(Compensable(agente), ps);
    TotalZero(Same, Liquidados(ps, agente, pedido));
  }

  /** Settling in full twice moves no line and no cash the second time; the second call is always accepted. */
  lemma {:induction false} LiquidacionRepetida(
    l: Libro, id: string, agente: string, pedido: Option<real>, cuenta: string)
    requires id in l.asientos && LineasOk(l.asientos[id].partidas) && Todo(pedido)
    requires LiquidarAPropietario(l, id, agente, pedido, cuenta).Ok?
    ensures var uno := LiquidarAPropietario(l, id, agente, pedido, cuenta).value;
            var dos := LiquidarAPropietario(uno, id, agente, pedido, cuenta);
            && dos.Ok? && dos.value.cuentas == uno.cuentas
            && dos.value.asientos[id].partidas == uno.asientos[id].partidas
            && dos.value.asientos[id].estado == EstadoTrasLiquidar(uno.asientos[id].partidas, uno.asientos[id].estado)
  {
    var ps := l.asientos[id].partidas;
    LiquidacionTotal(ps, agente, pedido);
    SinAbiertas(Liquidar(ps, agente, pedido), agente, pedido);
    MismasLineas(ps, agente, pedido);
    PasoDeLiquidacion(l, id, agente, pedido, cuenta);
    var uno := LiquidarAPropietario(l, id, agente, pedido, cuenta).value;
    PasoDeLiquidacion(uno, id, agente, pedido, cuenta);
    MoverDos(uno.cuentas, cuenta, 0.0, 0.0);
  }

  lemma {:induction false} MismasLineas(ps: seq<Partida>, agente: string, pedido: Option<real>)
    ensures TieneLineas(Liquidar(ps, agente, pedido), agente) <==> TieneLineas(ps, agente)
  {
    var qs := Liquidar(ps, agente, pedido);
    forall i | 0 <= i < |ps|
      ensures HaberDe(agente, qs[i]) == HaberDe(agente, ps[i]) && DebeDe(agente, qs[i]) == DebeDe(agente, ps[i])
    {
      LiquidarEnLinea(ps, agente, pedido, i);
    }
  }

  lemma {:induction false} LineaAjena(ps: seq<Partida>, a: string, b: string, pb: Option<real>, i: nat)
    requires a != b && i < |ps|
    ensures var q := Liquidar(ps, b, pb)[i];
            && Disponible(a)(q) == Disponible(a)(ps[i]) && Compensable(a)(q) == Compensable(a)(ps[i])
            && HaberDe(a, q) == HaberDe(a, ps[i]) && DebeDe(a, q) == DebeDe(a, ps[i])
  {
    LiquidarEnLinea(ps, b, pb, i);
  }

  lemma {:induction false} ALiquidarAjeno(
    ps: seq<Partida>, a: string, pa: Option<real>, b: string, pb: Option<real>, i: nat)
    requires a != b && i < |ps|
    ensures ALiquidar(Liquidar(ps, b, pb), a, pa, i) == ALiquidar(ps, a, pa, i)
  {
    var qs := Liquidar(ps, b, pb);
    LineaAjena(ps, a, b, pb, i);
    forall j | 0 <= j < i ensures Disponible(a)(qs[..i][j]) == Disponible(a)(ps[..i][j]) {
      LineaAjena(ps, a, b, pb, j);
    }
    TotalEq(Disponible(a), qs[..i], Disponible(a), ps[..i]);
  }

  /** What one agent is due does not depend on another agent's settlement. */
  lemma {:induction false} LiquidacionAjena(ps: seq<Partida>, a: string, pa: Option<real>, b: string, pb: Option<real>)
    requires a != b
    ensures Liquidados(Liquidar(ps, b, pb), a, pa) == Liquidados(ps, a, pa)
    ensures Neto(Liquidar(ps, b, pb), a, pa) == Neto(ps, a, pa)
    ensures TieneLineas(Liquidar(ps, b, pb), a) <==> TieneLineas(ps, a)
  {
    var qs := Liquidar(ps, b, pb);
    forall i | 0 <= i < |ps|
      ensures Liquidados(qs, a, pa)[i] == Liquidados(ps, a, pa)[i]
      ensures Compensable(a)(qs[i]) == Compensable(a)(ps[i])
      ensures HaberDe(a, qs[i]) == HaberDe(a, ps[i]) && DebeDe(a, qs[i]) == DebeDe(a, ps[i])
    {
      ALiquidarAjeno(ps, a, pa, b, pb, i);
      LineaAjena(ps, a, b, pb, i);
    }
    TotalEq(Compensable(a), qs, Compensable(a), ps);
  }

  lemma {:induction false} NetoAjeno(ps: seq<Partida>, a: string, pa: Option<real>, b: string, pb: Option<real>)
    requires a != b
    ensures Neto(Liquidar(ps, b, pb), a, pa) == Neto(ps, a, pa)
    ensures TieneLineas(Liquidar(ps, b, pb), a) <==> TieneLineas(ps, a)
  {
    LiquidacionAjena(ps, a, pa, b, pb);
  }

  /** Settlements of two agents commute on the lines, whatever is requested for each. */
  lemma {:induction false} LiquidacionesConmutan(
    ps: seq<Partida>, a: string, pa: Option<real>, b: string, pb: Option<real>)
    requires a != b
    ensures Liquidar(Liquidar(ps, a, pa), b, pb) == Liquidar(Liquidar(ps, b, pb), a, pa)
  {
    forall i | 0 <= i < |ps|
      ensures Liquidar(Liquidar(ps, a, pa), b, pb)[i] == Liquidar(Liquidar(ps, b, pb), a, pa)[i]
    {
      DosEnLinea(ps, a, pa, b, pb, i);
      DosEnLinea(ps, b, pb, a, pa, i);
    }
  }

  /** A line after two settlements has what each of them adds to it on its own. */
  lemma {:induction false} DosEnLinea(
    ps: seq<Partida>, a: string, pa: Option<real>, b: string, pb: Option<real>, i: nat)
    requires a != b && i < |ps|
    ensures Liquidar(Liquidar(ps, a, pa), b, pb)[i] ==
            ps[i].(liquidado := ps[i].liquidado + ALiquidar(ps, a, pa, i) + ALiquidar(ps, b, pb, i),
                   pagado := ps[i].pagado + Compensable(a)(ps[i]) + Compensable(b)(ps[i]))
  {
    var qa := Liquidar(ps, a, pa);
    ALiquidarAjeno(ps, b, pb, a, pa, i);
    LineaAjena(ps, b, a, pa, i);
    LiquidarEnLinea(ps, a, pa, i);
    LiquidarEnLinea(qa, b, pb, i);
  }

  /** A settlement of one agent and then of another; both must be accepted. */
  function EnFila(l: Libro, id: string, a: string, pa: Option<real>, b: string, pb: Option<real>, cuenta: string)
    : Result<Libro, Error>
  {
    match LiquidarAPropietario(l, id, a, pa, cuenta)
    case Ok(m) => LiquidarAPropietario(m, id, b, pb, cuenta)
    case Err(e) => Err(e)
  }

  /** Entry and cash after both. */
  predicate Resultan(e: Asiento, a: string, pa: Option<real>, b: string, pb: Option<real>,
                     cuentas: map<string, real>, cuenta: string, z: Asiento, finales: map<string, real>) {
    && z == ConLiquidacion(ConLiquidacion(e, a, pa), b, pb)
    && finales == TrasEgreso(TrasEgreso(cuentas, cuenta, Neto(e.partidas, a, pa)), cuenta, Neto(e.partidas, b, pb))
  }

  lemma {:induction false} PagosConmutan(cuentas: map<string, real>, cuenta: string, na: real, nb: real)
    ensures TrasEgreso(TrasEgreso(cuentas, cuenta, na), cuenta, nb) ==
            TrasEgreso(TrasEgreso(cuentas, cuenta, nb), cuenta, na)
  {
    MoverDos(cuentas, cuenta, -Abs(na), -Abs(nb));
    MoverDos(cuentas, cuenta, -Abs(nb), -Abs(na));
  }

  lemma {:induction false} MismasCuentas(cuentas: map<string, real>, cuenta: string, neto: real)
    ensures cuenta in TrasEgreso(cuentas, cuenta, neto) <==> cuenta in cuentas
  {
  }

  /** Both are accepted exactly when both agents have lines and the account exists if anything is paid. */
  predicate AmbasAceptadas(
    ps: seq<Partida>, a: string, pa: Option<real>, b: string, pb: Option<real>, hayCuenta: bool) {
    TieneLineas(ps, a) && TieneLineas(ps, b) && (Neto(ps, a, pa) != 0.0 || Neto(ps, b, pb) != 0.0 ==> hayCuenta)
  }

  lemma {:induction false} DosLiquidaciones(
    l: Libro, id: string, a: string, pa: Option<real>, b: string, pb: Option<real>, cuenta: string)
    requires a != b && id in l.asientos
    ensures var r := EnFila(l, id, a, pa, b, pb, cuenta);
            && (r.Ok? <==> AmbasAceptadas(l.asientos[id].partidas, a, pa, b, pb, cuenta in l.cuentas))
            && (r.Ok? ==>
                  && id in r.value.asientos
                  && Resultan(l.asientos[id], a, pa, b, pb, l.cuentas, cuenta, r.value.asientos[id], r.value.cuentas))
  {
    PasoDeLiquidacion(l, id, a, pa, cuenta);
    var xa := LiquidarAPropietario(l, id, a, pa, cuenta);
    if xa.Ok? { SegundaLiquidacion(xa.value, id, l.asientos[id], a, pa, b, pb, l.cuentas, cuenta); }
  }

  lemma {:induction false} DosVeces(e: Asiento, a: string, pa: Option<real>, b: string, pb: Option<real>)
    ensures var ps := Liquidar(e.partidas, a, pa);
            var z := ConLiquidacion(ConLiquidacion(e, a, pa), b, pb);
            && z.partidas == Liquidar(ps, b, pb)
            && z.estado == EstadoTrasLiquidar(Liquidar(ps, b, pb), EstadoTrasLiquidar(ps, e.estado))
  {
  }

  lemma {:induction false} SegundaLiquidacion(
    m: Libro, id: string, e: Asiento, a: string, pa: Option<real>, b: string, pb: Option<real>,
    cuentas: map<string, real>, cuenta: string)
    requires a != b && id in m.asientos && m.asientos[id] == ConLiquidacion(e, a, pa)
    requires m.cuentas == TrasEgreso(cuentas, cuenta, Neto(e.partidas, a, pa))
    ensures var r := LiquidarAPropietario(m, id, b, pb, cuenta);
            && (r.Ok? <==> TieneLineas(e.partidas, b) && (Neto(e.partidas, b, pb) != 0.0 ==> cuenta in cuentas))
            && (r.Ok? ==>
                  && id in r.value.asientos
                  && Resultan(e, a, pa, b, pb, cuentas, cuenta, r.value.asientos[id], r.value.cuentas))
  {
    NetoTrasOtra(e, b, pb, a, pa);
    MismasCuentas(cuentas, cuenta, Neto(e.partidas, a, pa));
    PasoDeLiquidacion(m, id, b, pb, cuenta);
  }

  lemma {:induction false} NetoTrasOtra(e: Asiento, a: string, pa: Option<real>, b: string, pb: Option<real>)
    requires a != b
    ensures var ps := ConLiquidacion(e, b, pb).partidas;
            && Neto(ps, a, pa) == Neto(e.partidas, a, pa)
            && (TieneLineas(ps, a) <==> TieneLineas(e.partidas, a))
  {
    NetoAjeno(e.partidas, a, pa, b, pb);
  }

  /** On the store: either order is accepted or neither, with the same lines and the same cash. */
  lemma {:induction false} OrdenDeLiquidacion(
    l: Libro, id: string, a: string, pa: Option<real>, b: string, pb: Option<real>, cuenta: string)
    requires a != b && id in l.asientos
    ensures var ab, ba := EnFila(l, id, a, pa, b, pb, cuenta), EnFila(l, id, b, pb, a, pa, cuenta);
            && (ab.Ok? <==> ba.Ok?)
            && (ab.Ok? ==>
                  && id in ab.value.asientos && id in ba.value.asientos
                  && ab.value.cuentas == ba.value.cuentas
                  && ab.value.asientos[id].partidas == ba.value.asientos[id].partidas)
  {
    LiquidacionesConmutan(l.asientos[id].partidas, a, pa, b, pb);
    DosVeces(l.asientos[id], a, pa, b, pb);
    DosVeces(l.asientos[id], b, pb, a, pa);
    DosLiquidaciones(l, id, a, pa, b, pb, cuenta);
    DosLiquidaciones(l, id, b, pb, a, pa, cuenta);
    PagosConmutan(l.cuentas, cuenta, Neto(l.asientos[id].partidas, a, pa), Neto(l.asientos[id].partidas, b, pb));
  }

  lemma {:induction false} EstadosEnFila(
    l: Libro, id: string, a: string, pa: Option<real>, b: string, pb: Option<real>, cuenta: string)
    requires a != b && id in l.asientos
    requires AmbasAceptadas(l.asientos[id].partidas, a, pa, b, pb, cuenta in l.cuentas)
    ensures var r, e := EnFila(l, id, a, pa, b, pb, cuenta), l.asientos[id];
            && r.Ok? && id in r.value.asientos
            && r.value.asientos[id].partidas == Liquidar(Liquidar(e.partidas, a, pa), b, pb)
            && r.value.asientos[id].estado ==
               EstadoTrasLiquidar(Liquidar(Liquidar(e.partidas, a, pa), b, pb),
                                  EstadoTrasLiquidar(Liquidar(e.partidas, a, pa), e.estado))
  {
    DosLiquidaciones(l, id, a, pa, b, pb, cuenta);
    DosVeces(l.asientos[id], a, pa, b, pb);
  }

  /** Whether the estado depends on the order, for any requests at all, negative ones included. */
  lemma {:induction false} EstadoSegunOrden(
    l: Libro, id: string, a: string, pa: Option<real>, b: string, pb: Option<real>, cuenta: string)
    requires a != b && id in l.asientos
    requires AmbasAceptadas(l.asientos[id].partidas, a, pa, b, pb, cuenta in l.cuentas)
    ensures var ab, ba := EnFila(l, id, a, pa, b, pb, cuenta), EnFila(l, id, b, pb, a, pa, cuenta);
            && ab.Ok? && ba.Ok? && id in ab.value.asientos && id in ba.value.asientos
            && var e := l.asientos[id];
            && (ab.value.asientos[id].estado == ba.value.asientos[id].estado <==>
                || (TodasLiquidadas(Liquidar(e.partidas, a, pa)) <==> TodasLiquidadas(Liquidar(e.partidas, b, pb)))
                || e.estado == Liquidado
                || (e.estado != Cobrado && TodasLiquidadas(Liquidar(Liquidar(e.partidas, a, pa), b, pb))))
  {
    EstadosEnFila(l, id, a, pa, b, pb, cuenta);
    EstadosEnFila(l, id, b, pb, a, pa, cuenta);
    LiquidacionesConmutan(l.asientos[id].partidas, a, pa, b, pb);
  }

  /** If either settlement closes all credit by itself, so do both together. */
  lemma {:induction false} CierranJuntas(ps: seq<Partida>, a: string, pa: Option<real>, b: string, pb: Option<real>)
    requires a != b && LineasOk(ps)
    requires (pa.Some? ==> pa.value >= 0.0) && (pb.Some? ==> pb.value >= 0.0)
    ensures TodasLiquidadas(Liquidar(ps, a, pa)) || TodasLiquidadas(Liquidar(ps, b, pb)) ==>
              TodasLiquidadas(Liquidar(Liquidar(ps, a, pa), b, pb))
  {
    Runs.LiquidarAvanza(ps, a, pa);
    Runs.LiquidarAvanza(ps, b, pb);
    Runs.LiquidarAvanza(Liquidar(ps, a, pa), b, pb);
    Runs.LiquidarAvanza(Liquidar(ps, b, pb), a, pa);
    LiquidacionesConmutan(ps, a, pa, b, pb);
  }

  /** The estado alone may depend on the order: the agent that settles the last open credit turns COBRADO into
      PAGADO, and any settlement after that turns it into LIQUIDADO. For requests that are not negative it does
      not depend on it exactly when the entry was not COBRADO, or both settlements would close all credit by
      themselves, or neither would. */
  lemma {:induction false} EstadoNoConmuta(
    l: Libro, id: string, a: string, pa: Option<real>, b: string, pb: Option<real>, cuenta: string)
    requires a != b && id in l.asientos && LineasOk(l.asientos[id].partidas)
    requires (pa.Some? ==> pa.value >= 0.0) && (pb.Some? ==> pb.value >= 0.0)
    requires AmbasAceptadas(l.asientos[id].partidas, a, pa, b, pb, cuenta in l.cuentas)
    ensures var ab, ba := EnFila(l, id, a, pa, b, pb, cuenta), EnFila(l, id, b, pb, a, pa, cuenta);
            && ab.Ok? && ba.Ok? && id in ab.value.asientos && id in ba.value.asientos
            && var e := l.asientos[id];
            && (ab.value.asientos[id].estado == ba.value.asientos[id].estado <==>
                || e.estado != Cobrado
                || (TodasLiquidadas(Liquidar(e.partidas, a, pa)) <==> TodasLiquidadas(Liquidar(e.partidas, b, pb))))
  {
    EstadoSegunOrden(l, id, a, pa, b, pb, cuenta);
    CierranJuntas(l.asientos[id].partidas, a, pa, b, pb);
  }
}
