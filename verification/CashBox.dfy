/** One cash box: openings, partial and final closures, and the cash that moves through its account in
    between. */
module CashBox {
  import opened Common
  import opened Dates
  import opened Entries

  datatype TipoCuenta = CajaEfectivo | OtraCuenta

  datatype Movimiento =
    | Apertura(declarado: real)
    | CierreParcial(conteo: real, esperado: real, discrepancia: real)
    | CierreFinal(conteo: real, esperado: real, discrepancia: real, ajuste: Option<Asiento>)

  datatype Error = MontoInvalido | CuentaNoEncontrada | NoEsCaja | CajaSinCerrar

  /** The account behind the box (None when it does not exist), its balance, and the movements in order. */
  datatype Caja = Caja(tipo: Option<TipoCuenta>, saldo: real, movimientos: seq<Movimiento>)

  predicate Invalido(monto: Option<real>) {
    monto.None? || monto.value < 0.0
  }

  /** Checks shared by the three operations, in their order. */
  function Rechazo(k: Caja, monto: Option<real>): Option<Error> {
    if Invalido(monto) then Some(MontoInvalido)
    else if k.tipo.None? then Some(CuentaNoEncontrada)
    else if k.tipo.value != CajaEfectivo then Some(NoEsCaja)
    else None
  }

  function UltimoMovimiento(k: Caja): Option<Movimiento> {
    if k.movimientos == [] then None else Some(k.movimientos[|k.movimientos| - 1])
  }

  predicate SinCerrar(k: Caja) {
    UltimoMovimiento(k).Some? && !UltimoMovimiento(k).value.CierreFinal?
  }

  function Abrir(k: Caja, declarado: Option<real>): Result<Caja, Error> {
    if Rechazo(k, declarado).Some? then Err(Rechazo(k, declarado).value)
    else if SinCerrar(k) then Err(CajaSinCerrar)
    else Ok(k.(saldo := declarado.value, movimientos := k.movimientos + [Apertura(declarado.value)]))
  }

  function CerrarParcial(k: Caja, conteo: Option<real>): Result<Caja, Error> {
    if Rechazo(k, conteo).Some? then Err(Rechazo(k, conteo).value)
    else Ok(k.(movimientos := k.movimientos + [CierreParcial(conteo.value, k.saldo, conteo.value - k.saldo)]))
  }

  const CUENTA_CAJA := CuentaCodigo("caja")
  const CUENTA_DIFERENCIA := CuentaCodigo("diferencia")

  /** Adjustment entry of a discrepancy: a shortage debits the cash account, a surplus credits it. */
  function AsientoDeAjuste(discrepancia: real, hoy: Date): Asiento {
    var monto := Abs(discrepancia);
    var debito, credito := if discrepancia < 0.0 then monto else 0.0, if discrepancia > 0.0 then monto else 0.0;
    Asiento("", AjusteCaja, hoy, hoy, 0, Pagado, monto, monto,
            [Partida(CUENTA_CAJA, debito, credito, None, 0.0, 0.0),
             Partida(CUENTA_DIFERENCIA, credito, debito, None, 0.0, 0.0)], [])
  }

  function CerrarFinal(k: Caja, conteo: Option<real>, hoy: Date): Result<Caja, Error> {
    if Rechazo(k, conteo).Some? then Err(Rechazo(k, conteo).value)
    else
      var d := conteo.value - k.saldo;
      var ajuste := if d != 0.0 then Some(AsientoDeAjuste(d, hoy)) else None;
      Ok(k.(saldo := conteo.value, movimientos := k.movimientos + [CierreFinal(conteo.value, k.saldo, d, ajuste)]))
  }

  // ---------- the service ----------

  class CashBoxService {
    var tipo: Option<TipoCuenta>
    var saldo: real
    var movimientos: seq<Movimiento>

    constructor (tipo: Option<TipoCuenta>, saldo: real)
      ensures Contenido() == Caja(tipo, saldo, [])
    {
      this.tipo, this.saldo, movimientos := tipo, saldo, [];
    }

    function Contenido(): Caja
      reads this
    {
      Caja(tipo, saldo, movimientos)
    }

    method CreateOpening(declarado: Option<real>) returns (r: Result<Movimiento, Error>)
      modifies this
      ensures var paso := Abrir(old(Contenido()), declarado);
              if paso.Ok? then Contenido() == paso.value && r == Ok(movimientos[|movimientos| - 1])
              else Contenido() == old(Contenido()) && r == Err(paso.error)
    {
      var rechazo := Rechazo(Contenido(), declarado);
      if rechazo.Some? { return Err(rechazo.value); }
      if movimientos != [] && !movimientos[|movimientos| - 1].CierreFinal? { return Err(CajaSinCerrar); }
      saldo := declarado.value;
      var m := Apertura(declarado.value);
      movimientos := movimientos + [m];
      r := Ok(m);
    }

    method CreatePartialClosure(conteo: Option<real>) returns (r: Result<Movimiento, Error>)
      modifies this`movimientos
      ensures var paso := CerrarParcial(old(Contenido()), conteo);
              if paso.Ok? then Contenido() == paso.value && r == Ok(movimientos[|movimientos| - 1])
              else Contenido() == old(Contenido()) && r == Err(paso.error)
    {
      var rechazo := Rechazo(Contenido(), conteo);
      if rechazo.Some? { return Err(rechazo.value); }
      var m := CierreParcial(conteo.value, saldo, conteo.value - saldo);
      movimientos := movimientos + [m];
      r := Ok(m);
    }

    method CreateFinalClosure(conteo: Option<real>, hoy: Date) returns (r: Result<Movimiento, Error>)
      modifies this
      ensures var paso := CerrarFinal(old(Contenido()), conteo, hoy);
              if paso.Ok? then Contenido() == paso.value && r == Ok(movimientos[|movimientos| - 1])
              else Contenido() == old(Contenido()) && r == Err(paso.error)
    {
      var rechazo := Rechazo(Contenido(), conteo);
      if rechazo.Some? { return Err(rechazo.value); }
      var esperado := saldo;
      var discrepancia := conteo.value - esperado;
      var ajuste: Option<Asiento> := None;
      if discrepancia != 0.0 { ajuste := Some(AsientoDeAjuste(discrepancia, hoy)); }
      saldo := conteo.value;
      var m := CierreFinal(conteo.value, esperado, discrepancia, ajuste);
      movimientos := movimientos + [m];
      r := Ok(m);
    }
  }

  // ---------- runs ----------

  /** OpMover is cash entering or leaving the account through other services. */
  datatype Op =
    | OpAbrir(declarado: Option<real>)
    | OpParcial(conteo: Option<real>)
    | OpFinal(conteo: Option<real>, hoy: Date)
    | OpMover(monto: real)

  function Intento(k: Caja, op: Op): Result<Caja, Error> {
    match op
    case OpAbrir(declarado) => Abrir(k, declarado)
    case OpParcial(conteo) => CerrarParcial(k, conteo)
    case OpFinal(conteo, hoy) => CerrarFinal(k, conteo, hoy)
    case OpMover(monto) => if k.tipo.None? then Err(CuentaNoEncontrada) else Ok(k.(saldo := k.saldo + monto))
  }

  function Paso(k: Caja, op: Op): Caja {
    match Intento(k, op)
    case Ok(nueva) => nueva
    case Err(_) => k
  }

  function Correr(k: Caja, ops: seq<Op>): Caja {
    if ops == [] then k else Paso(Correr(k, ops[..|ops| - 1]), ops[|ops| - 1])
  }

  /** Every opening but the first follows a final closure. */
  predicate AperturasTrasCierre(movimientos: seq<Movimiento>) {
    forall i :: 0 < i < |movimientos| && movimientos[i].Apertura? ==> movimientos[i - 1].CierreFinal?
  }

  lemma {:induction false} CorridaOrdenada(k: Caja, ops: seq<Op>)
    requires AperturasTrasCierre(k.movimientos)
    ensures AperturasTrasCierre(Correr(k, ops).movimientos)
  {
    if ops != [] {
      CorridaOrdenada(k, ops[..|ops| - 1]);
    }
  }

  /** Cash that moved during the operations. */
  function Flujo(op: Op): real {
    if op.OpMover? then op.monto else 0.0
  }

  /** No final closure goes through: none is asked for with a usable count. */
  predicate SinCierreFinal(ops: seq<Op>) {
    forall i :: 0 <= i < |ops| ==> ops[i].OpFinal? ==> Invalido(ops[i].conteo)
  }

  /** From an opening on, and until a final closure, the balance is what was declared plus the cash that moved:
      partial closures and rejected operations leave it alone, and no second opening gets in. */
  lemma {:induction false} SesionAbierta(k: Caja, declarado: Option<real>, ops: seq<Op>)
    requires Abrir(k, declarado).Ok? && SinCierreFinal(ops)
    ensures var z := Correr(Abrir(k, declarado).value, ops);
            && z.saldo == declarado.value + Total(Flujo, ops)
            && z.tipo == Some(CajaEfectivo) && SinCerrar(z)
  {
    if ops != [] { SesionAbierta(k, declarado, ops[..|ops| - 1]); }
  }

  /** The first final closure after an opening records the count against declared amount plus cash moved, books
      an adjustment exactly when they differ, and leaves the balance at the count. */
  lemma {:induction false} PrimerCierre(k: Caja, declarado: Option<real>, ops: seq<Op>, conteo: real, hoy: Date)
    requires Abrir(k, declarado).Ok? && SinCierreFinal(ops) && conteo >= 0.0
    ensures var z := Correr(Abrir(k, declarado).value, ops);
            var r := CerrarFinal(z, Some(conteo), hoy);
            && r.Ok? && r.value.saldo == conteo
            && var m := UltimoMovimiento(r.value).value;
            && m.CierreFinal? && m.conteo == conteo
            && m.esperado == declarado.value + Total(Flujo, ops)
            && m.discrepancia == conteo - (declarado.value + Total(Flujo, ops))
            && (m.ajuste.Some? <==> m.discrepancia != 0.0)
            && (m.ajuste.Some? ==>
                  && Balanceado(m.ajuste.value.partidas)
                  && m.ajuste.value.montoOriginal == Abs(m.discrepancia))
  {
    SesionAbierta(k, declarado, ops);
    AjusteBalanceado(conteo - (declarado.value + Total(Flujo, ops)), hoy);
  }

  /** The adjustment balances, but on the cash line it books the opposite of what happened to the cash. */
  lemma {:induction false} AjusteBalanceado(discrepancia: real, hoy: Date)
    ensures var ps := AsientoDeAjuste(discrepancia, hoy).partidas;
            && Balanceado(ps) && LineasOk(ps)
            && ps[0].debe - ps[0].haber == -discrepancia
  {
    var ps := AsientoDeAjuste(discrepancia, hoy).partidas;
    assert ps[..1] == [ps[0]];
    TotalSingle(DebeOf, ps[0]);
    TotalSingle(HaberOf, ps[0]);
  }

  // ---------- what explains the balance ----------

  /** Balance changes that a movement record accounts for. */
  function Registrada(m: Movimiento): real {
    if m.CierreFinal? then m.discrepancia else 0.0
  }

  /** Change of balance by operation i that nothing records: an opening that declares another amount. */
  function Salto(k: Caja, op: Op): real {
    if op.OpAbrir? && Abrir(k, op.declarado).Ok? then op.declarado.value - k.saldo else 0.0
  }

  function Saltos(k: Caja, ops: seq<Op>): real {
    if ops == [] then 0.0
    else Saltos(k, ops[..|ops| - 1]) + Salto(Correr(k, ops[..|ops| - 1]), ops[|ops| - 1])
  }

  lemma {:induction false} PasoExplicado(k: Caja, op: Op)
    requires k.tipo.Some?
    ensures var z := Paso(k, op);
            && z.tipo == k.tipo
            && z.saldo - k.saldo ==
               Flujo(op) + Total(Registrada, z.movimientos) - Total(Registrada, k.movimientos) + Salto(k, op)
  {
    var z := Paso(k, op);
    if z.movimientos != k.movimientos {
      var m := z.movimientos[|z.movimientos| - 1];
      assert z.movimientos == k.movimientos + [m];
      TotalConcat(Registrada, k.movimientos, [m]);
      TotalSingle(Registrada, m);
    }
  }

  /** In every run the balance moves by the cash that moved, the recorded final discrepancies, and the jumps at
      openings: cash and records explain it exactly when the jumps cancel out. */
  lemma {:induction false} SaldoExplicado(k: Caja, ops: seq<Op>)
    requires k.tipo.Some?
    ensures var z := Correr(k, ops);
            var explicado := Total(Flujo, ops) + Total(Registrada, z.movimientos) - Total(Registrada, k.movimientos);
            && z.tipo == k.tipo
            && z.saldo - k.saldo == explicado + Saltos(k, ops)
  {
    if ops != [] {
      var n := |ops| - 1;
      SaldoExplicado(k, ops[..n]);
      PasoExplicado(Correr(k, ops[..n]), ops[n]);
    }
  }

  // ---------- what each operation answers ----------

  /** The answers of an opening: the checks in order, and what it stores. */
  lemma {:induction false} AperturaResponde(k: Caja, declarado: Option<real>)
    ensures var r := Abrir(k, declarado);
            if declarado == None || declarado.value < 0.0 then r == Err(MontoInvalido)
            else if k.tipo == None then r == Err(CuentaNoEncontrada)
            else if k.tipo == Some(OtraCuenta) then r == Err(NoEsCaja)
            else if k.movimientos != [] && !k.movimientos[|k.movimientos| - 1].CierreFinal? then r == Err(CajaSinCerrar)
            else r == Ok(Caja(k.tipo, declarado.value, k.movimientos + [Apertura(declarado.value)]))
  {
  }

  /** The closures make the same checks but the last. */
  lemma {:induction false} CierreResponde(k: Caja, conteo: Option<real>, hoy: Date)
    ensures var p, f := CerrarParcial(k, conteo), CerrarFinal(k, conteo, hoy);
            if conteo == None || conteo.value < 0.0 then p == f == Err(MontoInvalido)
            else if k.tipo == None then p == f == Err(CuentaNoEncontrada)
            else if k.tipo == Some(OtraCuenta) then p == f == Err(NoEsCaja)
            else p.Ok? && f.Ok? && p.value.saldo == k.saldo && f.value.saldo == conteo.value
  {
  }

  /** In an open session a partial closure records as expected what was declared plus the cash moved since, and as
      discrepancy the count less that, and leaves the balance there. */
  lemma {:induction false} CierreParcialDeSesion(k: Caja, declarado: Option<real>, ops: seq<Op>, conteo: real)
    requires Abrir(k, declarado).Ok? && SinCierreFinal(ops) && conteo >= 0.0
    ensures var z := Correr(Abrir(k, declarado).value, ops);
            var r, esperado := CerrarParcial(z, Some(conteo)), declarado.value + Total(Flujo, ops);
            && r.Ok? && r.value.saldo == esperado
            && r.value.movimientos == z.movimientos + [CierreParcial(conteo, esperado, conteo - esperado)]
  {
    SesionAbierta(k, declarado, ops);
  }

  /** The lines of the adjustment: a shortage is a DEBE of the cash account against the account of differences, a
      surplus its HABER; it is stored as PAGADO. */
  lemma {:induction false} AjusteEnLineas(discrepancia: real, hoy: Date)
    ensures var a := AsientoDeAjuste(discrepancia, hoy);
            && a.estado == Pagado && a.tipo == AjusteCaja && a.imputacion == hoy && |a.partidas| == 2
            && a.partidas[0].cuenta == CuentaCodigo("caja") && a.partidas[1].cuenta == CuentaCodigo("diferencia")
            && (discrepancia < 0.0 ==> a.partidas[0].debe == a.partidas[1].haber == -discrepancia)
            && (discrepancia > 0.0 ==> a.partidas[0].haber == a.partidas[1].debe == discrepancia)
            && a.partidas[0].debe * a.partidas[0].haber == 0.0 && a.partidas[1].debe * a.partidas[1].haber == 0.0
  {
  }
}
