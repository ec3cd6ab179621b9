/** What an accepted payment does to the money: when cash and imputed debt agree, and when splitting a
    payment makes no difference. */
module Payments {
  import opened Common
  import opened Entries
  import opened Imputation
  import opened Ledger

  predicate DebeAbierto(ps: seq<Partida>) {
    Total(PagadoEnDebe, ps) < Total(DebeOf, ps)
  }

  lemma {:induction false} SaldoConDebeAbierto(ps: seq<Partida>)
    requires LineasOk(ps) && DebeAbierto(ps)
    ensures Total(DebeOf, ps) > 0.0
    ensures SaldoPendiente(ps) == Total(Deuda, ps) > 0.0
  {
    FiltrosCoinciden(ps);
    TotalNonNegative(PagadoEnDebe, ps);
  }

  /** The cash taken is exactly the debt cleared if and only if the DEBE side is still open (or nothing is
      paid): once it is full the check falls back to the HABER side and the money is imputed nowhere. */
  lemma {:induction false} PagoSeImputaEntero(l: Libro, id: string, monto: real, cuenta: string)
    requires id in l.asientos && LineasOk(l.asientos[id].partidas)
    requires Total(DebeOf, l.asientos[id].partidas) > 0.0 && 0.0 <= monto
    requires Pagar(l, id, monto, cuenta).Ok?
    ensures var r := Pagar(l, id, monto, cuenta).value;
            && r.cuentas == l.cuentas[cuenta := l.cuentas[cuenta] + monto]
            && var antes, despues := l.asientos[id].partidas, r.asientos[id].partidas;
            && Total(PagadoEnDebe, despues) ==
               Total(PagadoEnDebe, antes) + (if DebeAbierto(antes) then monto else 0.0)
            && (Total(PagadoEnDebe, despues) - Total(PagadoEnDebe, antes) == r.cuentas[cuenta] - l.cuentas[cuenta]
                <==> DebeAbierto(antes) || monto == 0.0)
  {
    var ps := l.asientos[id].partidas;
    ImputarSuma(ps, monto);
    FiltrosCoinciden(ps);
    TotalNonNegative(Deuda, ps);
    if DebeAbierto(ps) { SaldoConDebeAbierto(ps); }
  }

  /** What the store remembers of an entry besides its change log. */
  predicate MismoSaldo(a: Asiento, b: Asiento) {
    a.(historial := b.historial) == b
  }

  lemma {:induction false} SaldoTrasPago(ps: seq<Partida>, a: real)
    requires LineasOk(ps) && DebeAbierto(ps) && 0.0 <= a <= SaldoPendiente(ps)
    ensures var qs := Imputar(ps, a);
            && Total(DebeOf, qs) == Total(DebeOf, ps)
            && SaldoPendiente(qs) == (if a < SaldoPendiente(ps) then SaldoPendiente(ps) - a else Total(HaberOf, ps))
            && 0.0 <= Total(HaberOf, ps)
  {
    var qs := Imputar(ps, a);
    SaldoConDebeAbierto(ps);
    ImputarConserva(ps, a);
    ImputarSuma(ps, a);
    FiltrosCoinciden(ps);
    FiltrosCoinciden(qs);
    TotalEq(DebeOf, qs, DebeOf, ps);
    TotalEq(HaberOf, qs, HaberOf, ps);
    TotalNonNegative(HaberOf, ps);
    if a < SaldoPendiente(ps) { SaldoConDebeAbierto(qs); }
  }

  lemma {:induction false} ConPagoPartido(e: Asiento, a: real, b: real)
    requires 0.0 <= a && 0.0 <= b
    ensures MismoSaldo(ConPago(ConPago(e, a), b), ConPago(e, a + b))
  {
    ImputarComposicion(e.partidas, a, b);
  }

  /** Paying `a` and then `b` is paying `a + b` at once: same acceptance, same lines, estado and cash. The
      acceptance differs exactly when `a` fills the DEBE side and `b` is a further amount within the HABER: the
      two payments go through, the joint one is rejected. */
  lemma {:induction false} PagoPartido(l: Libro, id: string, a: real, b: real, cuenta: string)
    requires id in l.asientos && LineasOk(l.asientos[id].partidas) && DebeAbierto(l.asientos[id].partidas)
    requires 0.0 <= a && 0.0 <= b && Pagar(l, id, a, cuenta).Ok?
    ensures var uno := Pagar(l, id, a, cuenta).value;
            var dos, junto := Pagar(uno, id, b, cuenta), Pagar(l, id, a + b, cuenta);
            var ps := l.asientos[id].partidas;
            && ((dos.Ok? <==> junto.Ok?) <==> a < SaldoPendiente(ps) || b == 0.0 || b > Total(HaberOf, ps))
            && (junto.Ok? ==> dos.Ok?)
            && (a == SaldoPendiente(ps) && b > 0.0 ==> junto == Err(ExcedeSaldo))
            && (dos.Ok? && junto.Ok? ==>
                  && dos.value.cuentas == junto.value.cuentas
                  && dos.value.asientos.Keys == junto.value.asientos.Keys
                  && MismoSaldo(dos.value.asientos[id], junto.value.asientos[id])
                  && forall otro :: otro in l.asientos && otro != id ==>
                       dos.value.asientos[otro] == junto.value.asientos[otro])
  {
    var e := l.asientos[id];
    SaldoConDebeAbierto(e.partidas);
    SaldoTrasPago(e.partidas, a);
    ConPagoPartido(e, a, b);
    PasoDePago(l, id, a, cuenta);
    PasoDePago(l, id, a + b, cuenta);
    SegundoPago(Pagar(l, id, a, cuenta).value, id, e, a, b, l.cuentas, cuenta);
  }

  lemma {:induction false} SegundoPago(
    m: Libro, id: string, e: Asiento, a: real, b: real, cuentas: map<string, real>, cuenta: string)
    requires id in m.asientos && m.asientos[id] == ConPago(e, a) && m.cuentas == Mover(cuentas, cuenta, a)
    requires Total(DebeOf, m.asientos[id].partidas) > 0.0 && cuenta in cuentas
    ensures var r := Pagar(m, id, b, cuenta);
            && (r.Ok? <==> b <= SaldoPendiente(Imputar(e.partidas, a)))
            && (r.Ok? ==>
                  && r.value.asientos == m.asientos[id := ConPago(ConPago(e, a), b)]
                  && r.value.cuentas == Mover(cuentas, cuenta, a + b))
  {
    PasoDePago(m, id, b, cuenta);
    MoverDos(cuentas, cuenta, a, b);
  }

  /** Paying everything that is open closes the entry as collected exactly when its current amount is not
      above its lines: an index adjustment raises the amount but not the lines, and then no payment does. */
  lemma {:induction false} PagoTotalCobra(l: Libro, id: string, cuenta: string)
    requires id in l.asientos && LineasOk(l.asientos[id].partidas) && DebeAbierto(l.asientos[id].partidas)
    requires Pagar(l, id, SaldoPendiente(l.asientos[id].partidas), cuenta).Ok?
    ensures var a := l.asientos[id];
            var b := Pagar(l, id, SaldoPendiente(a.partidas), cuenta).value.asientos[id];
            && (b.estado == Cobrado || b.estado == Pagado <==> a.montoActual <= Total(DebeOf, a.partidas))
            && (forall i :: 0 <= i < |b.partidas| ==> b.partidas[i].pagado == b.partidas[i].debe)
  {
    var ps := l.asientos[id].partidas;
    var qs := Imputar(ps, SaldoPendiente(ps));
    SaldoConDebeAbierto(ps);
    ImputarConserva(ps, SaldoPendiente(ps));
    ImputarSuma(ps, SaldoPendiente(ps));
    FiltrosCoinciden(ps);
    FiltrosCoinciden(qs);
    TotalEq(DebeOf, qs, DebeOf, ps);
    TotalSaturated(PagadoOf, DebeOf, qs);
  }

  /** Forgiveness moves no cash and clears exactly the amount, up to what is open. */
  lemma {:induction false} CondonacionExacta(l: Libro, id: string, pedido: Option<real>)
    requires id in l.asientos && LineasOk(l.asientos[id].partidas) && Condonar(l, id, pedido).Ok?
    ensures var a, r := l.asientos[id], Condonar(l, id, pedido).value;
            && r.cuentas == l.cuentas
            && Total(PagadoOf, r.asientos[id].partidas) ==
               Total(PagadoOf, a.partidas) + Min(Max(0.0, MontoACondonar(a, pedido)), Total(Deuda, a.partidas))
  {
    ImputarSuma(l.asientos[id].partidas, MontoACondonar(l.asientos[id], pedido));
  }

  /** Forgiving everything is always accepted on an open entry and ends in CONDONADO exactly when the original
      amount is not above the DEBE lines; then the paid total reaches it without passing it. */
  lemma {:induction false} CondonacionTotal(l: Libro, id: string)
    requires id in l.asientos && LineasOk(l.asientos[id].partidas)
    requires l.asientos[id].estado != Anulado && l.asientos[id].estado != Condonado
    ensures Condonar(l, id, None).Ok?
    ensures var a, b := l.asientos[id], Condonar(l, id, None).value.asientos[id];
            && (b.estado == Condonado <==> a.montoOriginal <= Total(DebeOf, a.partidas))
            && (b.estado == Condonado ==>
                  Total(PagadoOf, b.partidas) == Max(a.montoOriginal, Total(PagadoOf, a.partidas)))
  {
    var ps := l.asientos[id].partidas;
    CondonacionExacta(l, id, None);
    FiltrosCoinciden(ps);
    TotalNonNegative(Deuda, ps);
  }
}
