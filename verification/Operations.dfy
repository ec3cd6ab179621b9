/** What each operation answers and what it stores, stated on the fields of the entry alone, and what collecting and
    settling come to whatever their order. */
module Operations {
  import opened Common
  import opened Entries
  import opened Imputation
  import opened Ledger
  import Payments
  import Settlements

  /** Only one entry is replaced; its parties, amounts and dates stay and one change is logged. */
  predicate Reemplaza(l: Libro, m: Libro, id: string, accion: Accion, monto: real)
    requires id in l.asientos
  {
    && m.asientos.Keys == l.asientos.Keys
    && (forall k :: k in l.asientos && k != id ==> m.asientos[k] == l.asientos[k])
    && var a, b := l.asientos[id], m.asientos[id];
    && b.historial == a.historial + [Cambio(accion, a.estado, b.estado, monto)]
    && b == a.(partidas := b.partidas, estado := b.estado, historial := b.historial)
  }

  predicate HaberCerrado(ps: seq<Partida>) {
    forall i :: 0 <= i < |ps| && ps[i].haber > 0.0 ==> ps[i].liquidado == ps[i].haber
  }

  lemma {:induction false} HaberLiquidadoPorLineas(ps: seq<Partida>)
    requires LineasOk(ps)
    ensures HaberLiquidado(ps) <==> HaberCerrado(ps)
  {
    TotalNonNegative(HaberPositivo, ps);
    if HaberLiquidado(ps) {
      TotalNonNegative(LiquidadoEnHaber, ps);
      TotalSaturated(LiquidadoEnHaber, HaberPositivo, ps);
      forall i | 0 <= i < |ps| && ps[i].haber > 0.0 ensures ps[i].liquidado == ps[i].haber {
        assert LiquidadoEnHaber(ps[i]) == HaberPositivo(ps[i]);
      }
    } else {
      if HaberCerrado(ps) { TotalEq(LiquidadoEnHaber, ps, HaberPositivo, ps); }
    }
  }

  /** The most a payment may be: what the DEBE has open, or all the HABER once it has nothing. */
  function Tope(ps: seq<Partida>): real {
    var abierto := Total(DebeOf, ps) - Total(PagadoOf, ps);
    if abierto > 0.0 then abierto else Total(HaberOf, ps)
  }

  lemma {:induction false} TopeEsSaldo(ps: seq<Partida>)
    requires LineasOk(ps)
    ensures SaldoPendiente(ps) == Tope(ps)
  {
    FiltrosCoinciden(ps);
    TotalNonNegative(DebeOf, ps);
    TotalNonNegative(HaberOf, ps);
    TotalNonNegative(PagadoOf, ps);
    TotalLe(PagadoOf, ps, DebeOf, ps);
  }

  /** Payment: every answer, and what an accepted one stores. It is PAGADO exactly when the current amount is collected
      and every HABER line is settled to the last centavo, COBRADO when it is collected and some is not. */
  lemma {:induction false} PagoResponde(l: Libro, id: string, monto: real, cuenta: string)
    requires id in l.asientos ==> LineasOk(l.asientos[id].partidas)
    ensures var r := Pagar(l, id, monto, cuenta);
            if id !in l.asientos then r == Err(AsientoNoEncontrado)
            else
              var a := l.asientos[id];
              if a.estado == Anulado || a.estado == Condonado then r == Err(EstadoInvalido)
              else if monto > Tope(a.partidas) then r == Err(ExcedeSaldo)
              else if Total(DebeOf, a.partidas) > 0.0 && cuenta !in l.cuentas then r == Err(CuentaNoEncontrada)
              else
                && r.Ok? && PagoGuardado(l, r.value, id, monto)
                && r.value.cuentas == (if Total(DebeOf, a.partidas) > 0.0
                                       then l.cuentas[cuenta := l.cuentas[cuenta] + monto] else l.cuentas)
  {
    if id in l.asientos {
      TopeEsSaldo(l.asientos[id].partidas);
      PasoDePago(l, id, monto, cuenta);
      var r := Pagar(l, id, monto, cuenta);
      if r.Ok? { PagoSeGuarda(l, r.value, id, monto); }
    }
  }

  lemma {:induction false} PagoSeGuarda(l: Libro, m: Libro, id: string, monto: real)
    requires id in l.asientos && LineasOk(l.asientos[id].partidas)
    requires m.asientos == l.asientos[id := ConPago(l.asientos[id], monto)]
    ensures PagoGuardado(l, m, id, monto)
  {
    PagoEnCampos(l.asientos[id], monto);
    PagoReemplaza(l, m, id, ConPago(l.asientos[id], monto), monto);
  }

  lemma {:induction false} PagoReemplaza(l: Libro, m: Libro, id: string, b: Asiento, monto: real)
    requires id in l.asientos && b == ConPago(l.asientos[id], monto) && m.asientos == l.asientos[id := b]
    ensures Reemplaza(l, m, id, if b.estado == PagadoParcial then PagoParcial else PagoCompleto, monto)
  {
  }

  predicate PagoGuardado(l: Libro, m: Libro, id: string, monto: real)
    requires id in l.asientos
  {
    && id in m.asientos
    && var a, b := l.asientos[id], m.asientos[id];
    && Reemplaza(l, m, id, if b.estado == PagadoParcial then PagoParcial else PagoCompleto, monto)
    && b.estado == EstadoPagado(a.montoActual, b.partidas)
    && Total(PagadoOf, b.partidas) ==
       Total(PagadoOf, a.partidas) + Min(Max(0.0, monto), Total(DebeOf, a.partidas) - Total(PagadoOf, a.partidas))
  }

  function EstadoPagado(montoActual: real, ps: seq<Partida>): Estado {
    if Total(PagadoOf, ps) < montoActual then PagadoParcial else if HaberCerrado(ps) then Pagado else Cobrado
  }

  lemma {:induction false} PagoEnCampos(a: Asiento, monto: real)
    requires LineasOk(a.partidas)
    ensures var b := ConPago(a, monto);
            && b.estado == EstadoPagado(a.montoActual, b.partidas)
            && Total(PagadoOf, b.partidas) ==
               Total(PagadoOf, a.partidas) +
               Min(Max(0.0, monto), Total(DebeOf, a.partidas) - Total(PagadoOf, a.partidas))
  {
    var qs := Imputar(a.partidas, monto);
    ImputarConserva(a.partidas, monto);
    ImputarSuma(a.partidas, monto);
    FiltrosCoinciden(a.partidas);
    FiltrosCoinciden(qs);
    HaberLiquidadoPorLineas(qs);
  }

  /** Paying all that is open ends PAGADO exactly when the current amount is not above the DEBE total and every HABER
      line was settled before, COBRADO exactly when only the first holds. */
  lemma {:induction false} PagoTotalEstado(l: Libro, id: string, cuenta: string)
    requires id in l.asientos && cuenta in l.cuentas && LineasOk(l.asientos[id].partidas)
    requires Payments.DebeAbierto(l.asientos[id].partidas)
    requires l.asientos[id].estado != Anulado && l.asientos[id].estado != Condonado
    ensures var a := l.asientos[id];
            var r := Pagar(l, id, Total(DebeOf, a.partidas) - Total(PagadoOf, a.partidas), cuenta);
            && r.Ok? && id in r.value.asientos
            && var estado, alcanza := r.value.asientos[id].estado, a.montoActual <= Total(DebeOf, a.partidas);
            && (estado == Pagado <==> alcanza && HaberCerrado(a.partidas))
            && (estado == Cobrado <==> alcanza && !HaberCerrado(a.partidas))
            && (estado == PagadoParcial <==> !alcanza)
  {
    var ps := l.asientos[id].partidas;
    var abierto := Total(DebeOf, ps) - Total(PagadoOf, ps);
    FiltrosCoinciden(ps);
    PagoResponde(l, id, abierto, cuenta);
    Payments.SaldoConDebeAbierto(ps);
    PasoDePago(l, id, abierto, cuenta);
    assert HaberCerrado(Imputar(ps, abierto)) <==> HaberCerrado(ps) by {
      assert forall i :: 0 <= i < |ps| ==>
        Imputar(ps, abierto)[i].haber == ps[i].haber && Imputar(ps, abierto)[i].liquidado == ps[i].liquidado;
    }
  }

  predicate CondonacionGuardada(l: Libro, m: Libro, id: string, monto: real)
    requires id in l.asientos
  {
    && id in m.asientos && Reemplaza(l, m, id, Condonacion, monto)
    && var a, b := l.asientos[id], m.asientos[id];
    && Total(PagadoOf, b.partidas) ==
       Total(PagadoOf, a.partidas) + Min(Max(0.0, monto), Total(DebeOf, a.partidas) - Total(PagadoOf, a.partidas))
    && b.estado == (if Total(PagadoOf, b.partidas) >= a.montoOriginal then Condonado else PagadoParcial)
  }

  lemma {:induction false} CondonacionSeGuarda(l: Libro, m: Libro, id: string, monto: real)
    requires id in l.asientos && LineasOk(l.asientos[id].partidas)
    requires m.asientos == l.asientos[id := ConCondonacion(l.asientos[id], monto)]
    ensures CondonacionGuardada(l, m, id, monto)
  {
    ImputarSuma(l.asientos[id].partidas, monto);
    FiltrosCoinciden(l.asientos[id].partidas);
  }

  /** What is left of the original amount. */
  function FaltaPagar(a: Asiento): real {
    a.montoOriginal - Total(PagadoOf, a.partidas)
  }

  /** Forgiveness: every answer, and what an accepted one stores. */
  lemma {:induction false} CondonacionResponde(l: Libro, id: string, pedido: Option<real>)
    requires id in l.asientos ==> LineasOk(l.asientos[id].partidas)
    ensures var r := Condonar(l, id, pedido);
            if id !in l.asientos then r == Err(AsientoNoEncontrado)
            else
              var a := l.asientos[id];
              var monto := if pedido == None || pedido == Some(0.0) then FaltaPagar(a) else pedido.value;
              if a.estado == Anulado || a.estado == Condonado then r == Err(EstadoInvalido)
              else if monto > FaltaPagar(a) then r == Err(ExcedeSaldo)
              else r.Ok? && r.value.cuentas == l.cuentas && CondonacionGuardada(l, r.value, id, monto)
  {
    var r := Condonar(l, id, pedido);
    if r.Ok? { CondonacionSeGuarda(l, r.value, id, MontoACondonar(l.asientos[id], pedido)); }
  }

  /** Annulment: only an entry PAGADO or ANULADO is rejected, and the lines stay. */
  lemma {:induction false} AnulacionResponde(l: Libro, id: string)
    ensures var r := Anular(l, id);
            if id !in l.asientos then r == Err(AsientoNoEncontrado)
            else if l.asientos[id].estado == Pagado || l.asientos[id].estado == Anulado then r == Err(EstadoInvalido)
            else
              && r.Ok? && r.value.cuentas == l.cuentas && Reemplaza(l, r.value, id, Anulacion, 0.0)
              && r.value.asientos[id].estado == Anulado
              && r.value.asientos[id].partidas == l.asientos[id].partidas
  {
  }

  /** Adjustment: an entry of the contract that waits for its index takes original amount times the first value
      published for its due month, and waits no more; without such a value, or otherwise, it stays as it is. */
  lemma {:induction false} AjusteResponde(l: Libro, contrato: string, indices: seq<Indice>, id: string)
    requires id in l.asientos
    ensures Ajustar(l, contrato, indices).cuentas == l.cuentas
    ensures Ajustar(l, contrato, indices).asientos.Keys == l.asientos.Keys
    ensures var a, b := l.asientos[id], Ajustar(l, contrato, indices).asientos[id];
            && (a.contrato != contrato || a.estado != PendienteAjuste ==> b == a)
            && ((forall k :: 0 <= k < |indices| ==> indices[k].mes != a.vencimiento.month) ==> b == a)
            && (a.contrato == contrato && a.estado == PendienteAjuste ==>
                  forall k: nat :: PrimeroDelMes(indices, a.vencimiento.month, k) ==>
                    Ajustado(a, b, Times(a.montoOriginal, indices[k].valor)))
  {
    AjusteDeUno(l.asientos[id], contrato, indices);
  }

  lemma {:induction false} AjusteDeUno(a: Asiento, contrato: string, indices: seq<Indice>)
    ensures var b := ConAjuste(a, contrato, indices);
            && (a.contrato != contrato || a.estado != PendienteAjuste ==> b == a)
            && ((forall k :: 0 <= k < |indices| ==> indices[k].mes != a.vencimiento.month) ==> b == a)
            && (a.contrato == contrato && a.estado == PendienteAjuste ==>
                  forall k: nat :: PrimeroDelMes(indices, a.vencimiento.month, k) ==>
                    Ajustado(a, b, Times(a.montoOriginal, indices[k].valor)))
  {
    forall k: nat | PrimeroDelMes(indices, a.vencimiento.month, k)
      ensures Buscar(indices, a.vencimiento.month) == Some(indices[k].valor)
    {
      EsElPrimero(indices, a.vencimiento.month, k);
    }
  }

  lemma {:induction false} EsElPrimero(indices: seq<Indice>, mes: int, k: nat)
    requires PrimeroDelMes(indices, mes, k)
    ensures Buscar(indices, mes) == Some(indices[k].valor)
  {
    var r := Buscar(indices, mes);
    assert indices[k].mes == mes;
    var j: nat :| EsPrimero(indices, mes, j) && r.value == indices[j].valor;
    assert k == j;
  }

  predicate PrimeroDelMes(indices: seq<Indice>, mes: int, k: nat) {
    k < |indices| && indices[k].mes == mes && forall j :: 0 <= j < k ==> indices[j].mes != mes
  }

  predicate Ajustado(a: Asiento, b: Asiento, monto: real) {
    b == a.(montoActual := monto, estado := Pendiente,
            historial := a.historial + [Cambio(AjusteIndice, PendienteAjuste, Pendiente, monto)])
  }

  // ---------- settlement ----------

  predicate Nombra(a: string, p: Partida) {
    p.agente == Some(a) && (p.debe > 0.0 || p.haber > 0.0)
  }

  /** What a line has open in favour of the agent, less what the agent owes on it. */
  function AFavor(a: string): Partida -> real {
    (p: Partida) => if p.agente == Some(a) then (p.haber - p.liquidado) - (p.debe - p.pagado) else 0.0
  }

  function Saldada(a: string, p: Partida): Partida {
    if p.agente == Some(a) then p.(liquidado := p.haber, pagado := p.debe) else p
  }

  function Saldadas(a: string, ps: seq<Partida>): (qs: seq<Partida>)
    ensures |qs| == |ps|
  {
    seq(|ps|, i requires 0 <= i < |ps| => Saldada(a, ps[i]))
  }

  lemma {:induction false} LiquidacionEnCampos(ps: seq<Partida>, a: string, pedido: Option<real>)
    requires LineasOk(ps) && Todo(pedido)
    ensures Liquidar(ps, a, pedido) == Saldadas(a, ps)
    ensures Neto(ps, a, pedido) == Total(AFavor(a), ps)
    ensures TieneLineas(ps, a) <==> exists i :: 0 <= i < |ps| && Nombra(a, ps[i])
  {
    forall i | 0 <= i < |ps|
      ensures Liquidar(ps, a, pedido)[i] == Saldada(a, ps[i])
      ensures Disponible(a)(ps[i]) == AFavor(a)(ps[i]) + Compensable(a)(ps[i])
      ensures Nombra(a, ps[i]) <==> HaberDe(a, ps[i]) || DebeDe(a, ps[i])
    {
      LiquidarEnLinea(ps, a, pedido, i);
    }
    TotalAdd(Disponible(a), ps, AFavor(a), ps, Compensable(a), ps);
    Settlements.LiquidacionTotal(ps, a, pedido);
  }

  /** Settlement in full: every answer, and what an accepted one stores. An agent with lines on the entry, on either
      side, is accepted; each of its lines is closed, no other one moves, and what its lines had open on balance is
      taken from the account, whichever its sign. */
  lemma {:induction false} LiquidacionResponde(l: Libro, id: string, a: string, pedido: Option<real>, cuenta: string)
    requires (id in l.asientos ==> LineasOk(l.asientos[id].partidas)) && Todo(pedido)
    ensures var r := LiquidarAPropietario(l, id, a, pedido, cuenta);
            if id !in l.asientos then r == Err(AsientoNoEncontrado)
            else
              var ps := l.asientos[id].partidas;
              var neto := Total(AFavor(a), ps);
              if forall i :: 0 <= i < |ps| ==> !Nombra(a, ps[i]) then r == Err(SinPartidasDelAgente)
              else if neto != 0.0 && cuenta !in l.cuentas then r == Err(CuentaNoEncontrada)
              else
                && r.Ok? && Reemplaza(l, r.value, id, Liquidacion, Abs(neto))
                && r.value.cuentas == (if cuenta in l.cuentas
                                       then l.cuentas[cuenta := l.cuentas[cuenta] - Abs(neto)] else l.cuentas)
                && r.value.asientos[id].partidas == Saldadas(a, ps)
                && r.value.asientos[id].estado == EstadoLiquidado(a, l.asientos[id])
  {
    if id in l.asientos {
      LiquidacionEnCampos(l.asientos[id].partidas, a, pedido);
      PasoDeLiquidacion(l, id, a, pedido, cuenta);
      EstadoLiquidadoPorLineas(a, l.asientos[id]);
    }
  }

  /** Whether every other HABER line is within one peso of settled decides. */
  function EstadoLiquidado(a: string, e: Asiento): Estado {
    if exists i :: 0 <= i < |e.partidas| && Falta(a, e.partidas[i]) then e.estado
    else if e.estado == Cobrado then Pagado else Liquidado
  }

  predicate Falta(a: string, p: Partida) {
    p.agente != Some(a) && p.haber - p.liquidado >= 100.0
  }

  lemma {:induction false} EstadoLiquidadoPorLineas(a: string, e: Asiento)
    requires LineasOk(e.partidas)
    ensures EstadoTrasLiquidar(Saldadas(a, e.partidas), e.estado) == EstadoLiquidado(a, e)
  {
    var ps, qs := e.partidas, Saldadas(a, e.partidas);
    forall i | 0 <= i < |ps|
      ensures Falta(a, ps[i]) <==> qs[i].haber > 0.0 && !(Abs(qs[i].liquidado - qs[i].haber) < UN_PESO)
    {
    }
  }

  // ---------- collecting and settling ----------

  /** All HABER is due to one agent, which owes nothing. */
  predicate UnAcreedor(ps: seq<Partida>, a: string) {
    && (exists i :: 0 <= i < |ps| && Nombra(a, ps[i]))
    && forall i :: 0 <= i < |ps| ==>
         (ps[i].haber > 0.0 ==> ps[i].agente == Some(a)) && (ps[i].debe > 0.0 ==> ps[i].agente != Some(a))
  }

  function Cerradas(ps: seq<Partida>): (qs: seq<Partida>)
    ensures |qs| == |ps|
  {
    seq(|ps|, i requires 0 <= i < |ps| => ps[i].(pagado := ps[i].debe, liquidado := ps[i].haber))
  }

  function Cobradas(ps: seq<Partida>): (qs: seq<Partida>)
    ensures |qs| == |ps|
  {
    seq(|ps|, i requires 0 <= i < |ps| => ps[i].(pagado := ps[i].debe))
  }

  lemma {:induction false} PagaTodo(ps: seq<Partida>, monto: real)
    requires LineasOk(ps) && monto == Total(DebeOf, ps) - Total(PagadoOf, ps)
    ensures forall i :: 0 <= i < |ps| ==> Imputar(ps, monto)[i].pagado == Imputar(ps, monto)[i].debe
  {
    var qs := Imputar(ps, monto);
    FiltrosCoinciden(ps);
    ImputarConserva(ps, monto);
    ImputarSuma(ps, monto);
    TotalNonNegative(Deuda, ps);
    TotalEq(DebeOf, qs, DebeOf, ps);
    TotalSaturated(PagadoOf, DebeOf, qs);
  }

  lemma {:induction false} ImputarTodo(ps: seq<Partida>)
    requires LineasOk(ps)
    ensures Imputar(ps, Total(DebeOf, ps) - Total(PagadoOf, ps)) == Cobradas(ps)
  {
    var monto := Total(DebeOf, ps) - Total(PagadoOf, ps);
    PagaTodo(ps, monto);
    forall i | 0 <= i < |ps| ensures Imputar(ps, monto)[i] == Cobradas(ps)[i] {
      assert Imputar(ps, monto)[i].pagado == Imputar(ps, monto)[i].debe;
    }
  }

  function Abierto(ps: seq<Partida>): real {
    Total(DebeOf, ps) - Total(PagadoOf, ps)
  }

  /** A payment of all that the DEBE has open. */
  function Cobrar(l: Libro, id: string, cuenta: string): Result<Libro, Error> {
    if id !in l.asientos then Err(AsientoNoEncontrado)
    else Pagar(l, id, Abierto(l.asientos[id].partidas), cuenta)
  }

  lemma {:induction false} CobroDeEntrada(a: Asiento, monto: real)
    requires LineasOk(a.partidas) && monto == Abierto(a.partidas)
    ensures var b := ConPago(a, monto);
            && b.partidas == Cobradas(a.partidas) && b.montoActual == a.montoActual
            && b.estado == EstadoPagado(a.montoActual, Cobradas(a.partidas))
  {
    ImputarTodo(a.partidas);
    PagoEnCampos(a, monto);
  }

  /** `m` is `l` after the entry was collected in full. */
  predicate SeCobra(l: Libro, m: Libro, id: string, cuenta: string) {
    && id in l.asientos && id in m.asientos && cuenta in l.cuentas
    && var a, b := l.asientos[id], m.asientos[id];
    && b.partidas == Cobradas(a.partidas) && b.montoActual == a.montoActual
    && b.estado == EstadoPagado(a.montoActual, Cobradas(a.partidas))
    && m.cuentas == Mover(l.cuentas, cuenta, Total(DebeOf, a.partidas))
  }

  lemma {:induction false} CobroTotal(l: Libro, id: string, cuenta: string)
    requires id in l.asientos && cuenta in l.cuentas && LineasOk(l.asientos[id].partidas)
    requires l.asientos[id].estado != Anulado && l.asientos[id].estado != Condonado
    requires Total(PagadoOf, l.asientos[id].partidas) == 0.0 < Total(DebeOf, l.asientos[id].partidas)
    ensures var r := Cobrar(l, id, cuenta); r.Ok? && SeCobra(l, r.value, id, cuenta)
  {
    var monto := Abierto(l.asientos[id].partidas);
    TopeEsSaldo(l.asientos[id].partidas);
    CobroDeEntrada(l.asientos[id], monto);
    PasoDePago(l, id, monto, cuenta);
  }

  /** `m` is `l` after the agent was settled in full on the entry, `h` being what was due. */
  predicate SeLiquida(l: Libro, m: Libro, id: string, a: string, cuenta: string, h: real) {
    && id in l.asientos && id in m.asientos && cuenta in l.cuentas
    && var e, f := l.asientos[id], m.asientos[id];
    && f.partidas == Saldadas(a, e.partidas) && f.montoActual == e.montoActual
    && f.estado == (if e.estado == Cobrado then Pagado else Liquidado)
    && m.cuentas == Mover(l.cuentas, cuenta, -h)
  }

  /** A settlement in full of the only agent that is due anything. */
  lemma {:induction false} LiquidacionDelAcreedor(l: Libro, id: string, a: string, cuenta: string, h: real)
    requires id in l.asientos && cuenta in l.cuentas && LineasOk(l.asientos[id].partidas)
    requires UnAcreedor(l.asientos[id].partidas, a) && Total(AFavor(a), l.asientos[id].partidas) == h >= 0.0
    ensures var r := LiquidarAPropietario(l, id, a, None, cuenta); r.Ok? && SeLiquida(l, r.value, id, a, cuenta, h)
  {
    var e := l.asientos[id];
    LiquidacionEnCampos(e.partidas, a, None);
    EstadoLiquidadoPorLineas(a, e);
    PasoDeLiquidacion(l, id, a, None, cuenta);
    assert forall i :: 0 <= i < |e.partidas| ==> !Falta(a, e.partidas[i]);
  }

  predicate SinMover(ps: seq<Partida>) {
    forall i :: 0 <= i < |ps| ==> ps[i].pagado == 0.0 && ps[i].liquidado == 0.0
  }

  lemma {:induction false} LineasDeUnAcreedor(ps: seq<Partida>, a: string)
    requires LineasOk(ps) && UnAcreedor(ps, a) && SinMover(ps)
    ensures Saldadas(a, Cobradas(ps)) == Cerradas(ps) == Cobradas(Saldadas(a, ps))
    ensures LineasOk(Cobradas(ps)) && LineasOk(Saldadas(a, ps)) && HaberCerrado(Cerradas(ps))
    ensures UnAcreedor(Cobradas(ps), a) && !HaberCerrado(Cobradas(ps))
  {
    var k :| 0 <= k < |ps| && Nombra(a, ps[k]);
    assert Nombra(a, Cobradas(ps)[k]) && Cobradas(ps)[k].haber > 0.0;
  }

  lemma {:induction false} SumasDeUnAcreedor(ps: seq<Partida>, a: string)
    requires LineasOk(ps) && UnAcreedor(ps, a) && SinMover(ps)
    ensures Total(PagadoOf, ps) == 0.0 <= Total(HaberOf, ps)
    ensures Total(AFavor(a), ps) == Total(HaberOf, ps) == Total(AFavor(a), Cobradas(ps))
    ensures Total(DebeOf, Saldadas(a, ps)) == Total(DebeOf, ps) == Total(PagadoOf, Cobradas(ps))
    ensures Total(PagadoOf, Saldadas(a, ps)) == 0.0 && Total(PagadoOf, Cerradas(ps)) == Total(DebeOf, ps)
  {
    TotalZero(PagadoOf, ps);
    TotalEq(AFavor(a), ps, HaberOf, ps);
    TotalEq(AFavor(a), Cobradas(ps), HaberOf, ps);
    TotalEq(DebeOf, Saldadas(a, ps), DebeOf, ps);
    TotalEq(PagadoOf, Cobradas(ps), DebeOf, ps);
    TotalEq(PagadoOf, Cerradas(ps), DebeOf, ps);
    TotalZero(PagadoOf, Saldadas(a, ps));
    TotalNonNegative(HaberOf, ps);
  }

  /** An entry as created, current amount its DEBE total, all its HABER due to one agent that owes nothing on it. */
  predicate PorCobrarYLiquidar(l: Libro, id: string, a: string, cuenta: string) {
    && id in l.asientos && cuenta in l.cuentas && Inicial(l.asientos[id]) && UnAcreedor(l.asientos[id].partidas, a)
    && l.asientos[id].montoActual == Total(DebeOf, l.asientos[id].partidas) > 0.0
  }

  /** PAGADO, every line closed, and the cash moved by what came in less what went out. */
  predicate TerminaPagado(l: Libro, z: Libro, id: string, cuenta: string)
    requires id in l.asientos && cuenta in l.cuentas
  {
    var ps := l.asientos[id].partidas;
    && id in z.asientos && z.asientos[id].estado == Pagado && z.asientos[id].partidas == Cerradas(ps)
    && z.cuentas == l.cuentas[cuenta := l.cuentas[cuenta] + Total(DebeOf, ps) - Total(HaberOf, ps)]
  }

  lemma {:induction false} EntraYSale(cuentas: map<string, real>, cuenta: string, d: real, h: real)
    requires cuenta in cuentas
    ensures Mover(Mover(cuentas, cuenta, d), cuenta, -h) == cuentas[cuenta := cuentas[cuenta] + d - h]
    ensures Mover(Mover(cuentas, cuenta, -h), cuenta, d) == cuentas[cuenta := cuentas[cuenta] + d - h]
  {
  }

  lemma {:induction false} CobradaYLiquidada(l: Libro, m: Libro, z: Libro, id: string, a: string, cuenta: string)
    requires PorCobrarYLiquidar(l, id, a, cuenta) && SeCobra(l, m, id, cuenta)
    requires SeLiquida(m, z, id, a, cuenta, Total(HaberOf, l.asientos[id].partidas))
    ensures TerminaPagado(l, z, id, cuenta)
  {
    var ps := l.asientos[id].partidas;
    LineasDeUnAcreedor(ps, a);
    SumasDeUnAcreedor(ps, a);
    EntraYSale(l.cuentas, cuenta, Total(DebeOf, ps), Total(HaberOf, ps));
  }

  lemma {:induction false} LiquidadaYCobrada(l: Libro, m: Libro, z: Libro, id: string, a: string, cuenta: string)
    requires PorCobrarYLiquidar(l, id, a, cuenta) && SeCobra(m, z, id, cuenta)
    requires SeLiquida(l, m, id, a, cuenta, Total(HaberOf, l.asientos[id].partidas))
    ensures TerminaPagado(l, z, id, cuenta)
  {
    var ps := l.asientos[id].partidas;
    LineasDeUnAcreedor(ps, a);
    SumasDeUnAcreedor(ps, a);
    EntraYSale(l.cuentas, cuenta, Total(DebeOf, ps), Total(HaberOf, ps));
  }

  /** Collected in full and then settled in full, it ends PAGADO. */
  lemma {:induction false} CobrarYLiquidar(l: Libro, id: string, a: string, cuenta: string)
    requires PorCobrarYLiquidar(l, id, a, cuenta)
    ensures Cobrar(l, id, cuenta).Ok?
    ensures var r := LiquidarAPropietario(Cobrar(l, id, cuenta).value, id, a, None, cuenta);
            r.Ok? && TerminaPagado(l, r.value, id, cuenta)
  {
    var ps := l.asientos[id].partidas;
    LineasDeUnAcreedor(ps, a);
    SumasDeUnAcreedor(ps, a);
    CobroTotal(l, id, cuenta);
    var m := Cobrar(l, id, cuenta).value;
    LiquidacionDelAcreedor(m, id, a, cuenta, Total(HaberOf, ps));
    CobradaYLiquidada(l, m, LiquidarAPropietario(m, id, a, None, cuenta).value, id, a, cuenta);
  }

  /** And so it does when the settlement is in advance. */
  lemma {:induction false} LiquidarYCobrar(l: Libro, id: string, a: string, cuenta: string)
    requires PorCobrarYLiquidar(l, id, a, cuenta)
    ensures LiquidarAPropietario(l, id, a, None, cuenta).Ok?
    ensures var r := Cobrar(LiquidarAPropietario(l, id, a, None, cuenta).value, id, cuenta);
            r.Ok? && TerminaPagado(l, r.value, id, cuenta)
  {
    var ps := l.asientos[id].partidas;
    LineasDeUnAcreedor(ps, a);
    SumasDeUnAcreedor(ps, a);
    LiquidacionDelAcreedor(l, id, a, cuenta, Total(HaberOf, ps));
    var m := LiquidarAPropietario(l, id, a, None, cuenta).value;
    CobroTotal(m, id, cuenta);
    LiquidadaYCobrada(l, m, Cobrar(m, id, cuenta).value, id, a, cuenta);
  }
}
