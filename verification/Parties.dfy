/** Who owes and who is due what in the generated entries, when, and how much: stated on their lines. */
module Parties {
  import opened Common
  import opened Dates
  import opened Entries
  import opened Adjustment
  import opened Generator
  import DirectGenerator
  import GeneratedEntries
  import Ledger
  import Operations

  function Debe(cuenta: Cuenta, monto: real, agente: Option<string>): Partida {
    Partida(cuenta, monto, 0.0, agente, 0.0, 0.0)
  }

  function Haber(cuenta: Cuenta, monto: real, agente: Option<string>): Partida {
    Partida(cuenta, 0.0, monto, agente, 0.0, 0.0)
  }

  /** The tenant owes the rent. The landlord is due what the commission leaves of it, and the agency the commission,
      each to half a centavo. */
  predicate EsRenta(c: Contrato, renta: real, ps: seq<Partida>) {
    && |ps| == 3
    && ps[0] == Debe(CxcAlq, renta, Some(c.locatario))
    && ps[1] == Haber(CxpLoc, ps[1].haber, Some(c.locador))
    && ps[2] == Haber(IngHnr, ps[2].haber, None)
    && Abs(ps[1].haber - renta * (100.0 - c.comisionPct) / 100.0) <= 0.5
    && Abs(ps[2].haber - renta * c.comisionPct / 100.0) <= 0.5
  }

  lemma {:induction false} RentaEnPartes(c: Contrato, renta: real)
    requires Whole(renta)
    ensures EsRenta(c, renta, LineasDeRenta(c, renta, renta)) && Round(renta) == renta
  {
    var x, comision := Times(renta, Over(c.comisionPct, 100.0)), Comision(c, renta);
    RoundIsNearest(x);
    WholeAdd(renta, comision);
    RoundWhole(renta - comision);
    RoundWhole(renta);
    PorCientos(renta, c.comisionPct);
  }

  lemma {:induction false} PorCientos(renta: real, pct: real)
    ensures Times(renta, Over(pct, 100.0)) == renta * pct / 100.0
    ensures renta * (100.0 - pct) / 100.0 == renta - renta * pct / 100.0
  {
  }

  /** Due ten days later. */
  predicate Vence(a: Asiento) {
    a.vencimiento == DaysAfter(a.imputacion, 10)
  }

  /** What each kind of entry charges and credits. */
  predicate EntradaCorrecta(c: Contrato, a: Asiento) {
    && a.contrato == c.id && a.estado == Pendiente && a.historial == [] && a.montoActual == a.montoOriginal
    && match a.tipo
       case Alquiler => EsRenta(c, a.montoOriginal, a.partidas) && Vence(a)
       case AlquilerMensual => EsRenta(c, a.montoOriginal, a.partidas) && Vence(a)
       case SaldoApertura => EsRenta(c, a.montoOriginal, a.partidas) && a.vencimiento == a.imputacion
       case HonorariosLocador =>
         Vence(a) &&
         a.partidas == [Debe(CxpLoc, a.montoOriginal, Some(c.locador)), Haber(IngHnr, a.montoOriginal, None)]
       case HonorariosLocatario =>
         Vence(a) &&
         a.partidas == [Debe(CxcAlq, a.montoOriginal, Some(c.locatario)), Haber(IngHnr, a.montoOriginal, None)]
       case DepositoCobro =>
         a.imputacion == a.vencimiento == c.inicio &&
         a.partidas == [Debe(CxcAlq, a.montoOriginal, Some(c.locatario)), Haber(ActFid, a.montoOriginal, None)]
       case DepositoDevolucion =>
         a.imputacion == a.vencimiento == c.fin &&
         a.partidas == [Debe(ActFid, a.montoOriginal, None), Haber(PasDep, a.montoOriginal, Some(c.locador))]
       case _ => false
  }

  lemma {:induction false} RentaCorrecta(c: Contrato, fecha: Date, periodo: int, renta: real)
    requires Whole(renta) && Valid(fecha)
    ensures EntradaCorrecta(c, AsientoAlquiler(c, fecha, periodo, renta))
    ensures EntradaCorrecta(c, AsientoFuturo(c, fecha, renta))
    ensures EntradaCorrecta(c, AsientoApertura(c, fecha, renta))
  {
    RentaEnPartes(c, renta);
    DiezDias(fecha);
  }

  lemma {:induction false} HonorarioCorrecto(c: Contrato, tipo: TipoAsiento, cuota: real, i: nat, periodo: int)
    requires Valid(c.inicio) && (tipo == HonorariosLocador || tipo == HonorariosLocatario)
    ensures EntradaCorrecta(c, AsientoHonorario(c, tipo, cuota, i, periodo))
  {
    DiezDias(PlusMonths(c.inicio, i));
  }

  lemma {:induction false} DepositosCorrectos(c: Contrato, monto: real)
    ensures EntradaCorrecta(c, AsientoCobroDeposito(c, monto))
    ensures EntradaCorrecta(c, AsientoDevolucionDeposito(c, monto))
  {
  }

  lemma {:induction false} AlquileresCorrectos(c: Contrato, indice: Indice)
    requires FechasValidas(c) && Whole(c.base)
    ensures forall a :: a in Alquileres(c, indice) ==> EntradaCorrecta(c, a)
  {
    forall k | 0 <= k < NumCuotas(c.inicio, c.fin) ensures EntradaCorrecta(c, AlquilerEn(c, PeriodosDe(c), indice, k)) {
      GeneratedEntries.VigenciaEntera(c, PeriodosDe(c), indice, k);
      FechaCuotaPorMes(c.inicio, k);
      RentaCorrecta(c, FechaCuota(c.inicio, k), k + 1, VigenciaEn(c, PeriodosDe(c), indice, k).monto);
    }
  }

  lemma {:induction false} CuotasCorrectas(c: Contrato, tipo: TipoAsiento, cuota: real, n: nat)
    requires Valid(c.inicio) && (tipo == HonorariosLocador || tipo == HonorariosLocatario)
    ensures forall a :: a in EnCuotas(c, tipo, cuota, n) ==> EntradaCorrecta(c, a)
    ensures forall a :: a in DirectGenerator.EnCuotasDirectas(c, tipo, cuota, n) ==> EntradaCorrecta(c, a)
  {
    forall i, periodo | 0 <= i < n ensures EntradaCorrecta(c, AsientoHonorario(c, tipo, cuota, i, periodo)) {
      HonorarioCorrecto(c, tipo, cuota, i, periodo);
    }
  }

  lemma {:induction false} HonorariosCorrectos(c: Contrato, tipo: TipoAsiento, pct: Option<real>, cuotas: Option<nat>)
    requires FechasValidas(c) && (tipo == HonorariosLocador || tipo == HonorariosLocatario)
    ensures forall a :: a in Honorarios(c, tipo, pct, cuotas) ==> EntradaCorrecta(c, a)
    ensures forall a :: a in DirectGenerator.HonorariosDirectos(c, tipo, pct, cuotas) ==> EntradaCorrecta(c, a)
  {
    var n := CuotasServicio(cuotas);
    CuotasCorrectas(c, tipo, MontoCuota(HonorarioTotal(MontoContrato(c), ValueOr(pct, 0.0)), n), n);
    var m := ValueOr(cuotas, 1);
    if m > 0 { CuotasCorrectas(c, tipo, MontoCuota(DirectGenerator.HonorarioDirecto(c, ValueOr(pct, 0.0)), m), m); }
  }

  lemma {:induction false} FuturosCorrectos(c: Contrato, hoy: Date, n: nat)
    requires FechasValidas(c) && Whole(c.base)
    ensures forall a :: a in Futuros(c, hoy, n) ==> EntradaCorrecta(c, a)
  {
    forall k | 0 <= k < n ensures EntradaCorrecta(c, FuturoEn(c, hoy, k)) {
      FechaCuotaPorMes(Date(hoy.month + 1, 1), k);
      RentaCorrecta(c, FechaCuota(Date(hoy.month + 1, 1), k), 0, c.base);
    }
  }

  /** Every entry of the service, by either strategy, charges and credits whom it should; a deposit is the agreed one
      to the centavo. */
  lemma {:induction false} EntradasCorrectas(c: Contrato, apertura: bool, hoy: Date, indice: Indice)
    requires FechasValidas(c) && Valid(hoy) && Whole(c.base)
    ensures forall a :: a in Entradas(c, apertura, hoy, indice) ==> EntradaCorrecta(c, a)
    ensures forall a :: a in Depositos(c) ==> Abs(a.montoOriginal - c.deposito) <= 0.5
  {
    DepositosCorrectos(c, Round(c.deposito));
    RoundIsNearest(c.deposito);
    if apertura {
      GeneratedEntries.DevengadoEntero(c, hoy, indice);
      RentaCorrecta(c, hoy, 0, DevengadoHasta(c, hoy, indice));
      FuturosCorrectos(c, hoy, NumFuturos(c, hoy));
    } else {
      AlquileresCorrectos(c, indice);
      HonorariosCorrectos(c, HonorariosLocador, c.locadorPct, c.locadorCuotas);
      HonorariosCorrectos(c, HonorariosLocatario, c.locatarioPct, c.locatarioCuotas);
    }
  }

  /** So does every entry of the script. */
  lemma {:induction false} DirectasCorrectas(c: Contrato)
    requires FechasValidas(c) && Whole(c.base)
    ensures forall a :: a in DirectGenerator.Directo(c) ==> EntradaCorrecta(c, a)
    ensures forall a :: a in DirectGenerator.DepositosDirectos(c) ==> a.montoOriginal == c.deposito
  {
    DepositosCorrectos(c, c.deposito);
    AlquileresDirectosCorrectos(c, NumCuotas(c.inicio, c.fin));
    HonorariosCorrectos(c, HonorariosLocador, c.locadorPct, c.locadorCuotas);
    HonorariosCorrectos(c, HonorariosLocatario, c.locatarioPct, c.locatarioCuotas);
  }

  lemma {:induction false} AlquileresDirectosCorrectos(c: Contrato, n: nat)
    requires FechasValidas(c) && Whole(c.base)
    ensures forall a :: a in DirectGenerator.AlquileresDirectos(c, n) ==> EntradaCorrecta(c, a)
  {
    forall k | 0 <= k < n ensures EntradaCorrecta(c, DirectGenerator.AlquilerDirecto(c, k)) {
      FechaCuotaPorMes(c.inicio, k);
      RentaEnPartes(c, c.base);
      DiezDias(FechaCuota(c.inicio, k));
    }
  }

  // ---------- when and how much ----------

  /** The contract is worth its base for each month begun: k months added to the start reach the end, and no fewer
      do. The fee is its percentage of that, to half a centavo. */
  lemma {:induction false} HonorarioPactado(c: Contrato, pct: real, k: int)
    requires FechasValidas(c) && Whole(c.base) && NotAfter(c.inicio, c.fin) && k >= 0
    requires NotAfter(c.fin, PlusMonths(c.inicio, k)) && (k > 0 ==> Before(PlusMonths(c.inicio, k - 1), c.fin))
    ensures MontoContrato(c) == Times(c.base, k as real)
    ensures Abs(HonorarioTotal(MontoContrato(c), pct) - Over(Times(Times(c.base, k as real), pct), 100.0)) <= 0.5
  {
    assert MesesContrato(c) == k;
    WholeTimes(c.base, k);
    RoundWhole(Times(c.base, k as real));
    RoundIsNearest(Over(Times(MontoContrato(c), pct), 100.0));
  }

  /** One instalment a month from the start, numbered from 1, all of the same amount; one if no number or zero was
      agreed. */
  lemma {:induction false} HonorariosPorMes(c: Contrato, tipo: TipoAsiento, pct: Option<real>, cuotas: Option<nat>)
    requires FechasValidas(c)
    ensures var hs := Honorarios(c, tipo, pct, cuotas);
            && (hs != [] ==> |hs| == if cuotas == None || cuotas == Some(0) then 1 else cuotas.value)
            && forall i :: 0 <= i < |hs| ==>
                 && hs[i].tipo == tipo && hs[i].periodo == i + 1 && hs[i].imputacion == PlusMonths(c.inicio, i)
                 && hs[i].montoOriginal == hs[0].montoOriginal > 0.0
  {
    var n := CuotasServicio(cuotas);
    CuotasPorMes(c, tipo, MontoCuota(HonorarioTotal(MontoContrato(c), ValueOr(pct, 0.0)), n), n);
  }

  lemma {:induction false} CuotasPorMes(c: Contrato, tipo: TipoAsiento, cuota: real, n: nat)
    ensures var hs := EnCuotas(c, tipo, cuota, n);
            forall i :: 0 <= i < |hs| ==>
              && hs[i].tipo == tipo && hs[i].periodo == i + 1 && hs[i].imputacion == PlusMonths(c.inicio, i)
              && hs[i].montoOriginal == cuota
  {
  }

  /** The projection has one rent for the first day of each month after today and before the end, at the base rent,
      and no more. */
  lemma {:induction false} FuturosPorMes(c: Contrato, hoy: Date)
    requires FechasValidas(c) && Valid(hoy) && Whole(c.base)
    ensures var n := NumFuturos(c, hoy);
            && (forall k :: 0 <= k < n ==>
                  var a := Futuros(c, hoy, n)[k];
                  && a.imputacion == Date(hoy.month + 1 + k, 1) && Before(hoy, a.imputacion)
                  && Before(a.imputacion, c.fin) && a.montoOriginal == c.base)
            && NotAfter(c.fin, Date(hoy.month + 1 + n, 1))
  {
    var inicio, n := Date(hoy.month + 1, 1), NumFuturos(c, hoy);
    RoundWhole(c.base);
    forall k: nat
      ensures FechaCuota(inicio, k) == Date(hoy.month + 1 + k, 1)
      ensures Before(FechaCuota(inicio, k), c.fin) <==> k < NumCuotas(inicio, c.fin)
    {
      FechaCuotaPorMes(inicio, k);
      CuotasAntesDelFin(inicio, c.fin, k);
    }
    assert FechaCuota(inicio, n) == Date(hoy.month + 1 + n, 1);
  }

  // ---------- a fee of the landlord is settled against it ----------

  /** Settling the landlord on an instalment of its fee is accepted although nothing there is due to it: the debt is
      cleared, and the amount is taken from the account. */
  lemma {:induction false} HonorarioLiquidado(c: Contrato, l: Ledger.Libro, id: string, cuenta: string)
    requires FechasValidas(c) && id in l.asientos && cuenta in l.cuentas
    requires l.asientos[id] in Honorarios(c, HonorariosLocador, c.locadorPct, c.locadorCuotas)
    ensures var a, r := l.asientos[id], Ledger.LiquidarAPropietario(l, id, c.locador, None, cuenta);
            && r.Ok? && id in r.value.asientos
            && r.value.asientos[id].partidas ==
               [Debe(CxpLoc, a.montoOriginal, Some(c.locador)).(pagado := a.montoOriginal),
                Haber(IngHnr, a.montoOriginal, None)]
            && r.value.cuentas == l.cuentas[cuenta := l.cuentas[cuenta] - a.montoOriginal]
  {
    EsCuotaDelLocador(c, l.asientos[id]);
    CuotaDelLocador(l, id, c.locador, l.asientos[id].montoOriginal, cuenta);
  }

  lemma {:induction false} EsCuotaDelLocador(c: Contrato, a: Asiento)
    requires FechasValidas(c) && a in Honorarios(c, HonorariosLocador, c.locadorPct, c.locadorCuotas)
    ensures a.montoOriginal > 0.0
    ensures a.partidas == [Debe(CxpLoc, a.montoOriginal, Some(c.locador)), Haber(IngHnr, a.montoOriginal, None)]
  {
    var hs := Honorarios(c, HonorariosLocador, c.locadorPct, c.locadorCuotas);
    HonorariosPorMes(c, HonorariosLocador, c.locadorPct, c.locadorCuotas);
    var i :| 0 <= i < |hs| && hs[i] == a;
    HonorariosCorrectos(c, HonorariosLocador, c.locadorPct, c.locadorCuotas);
  }

  lemma {:induction false} CuotaDelLocador(l: Ledger.Libro, id: string, locador: string, cuota: real, cuenta: string)
    requires id in l.asientos && cuenta in l.cuentas && cuota > 0.0
    requires l.asientos[id].partidas == [Debe(CxpLoc, cuota, Some(locador)), Haber(IngHnr, cuota, None)]
    ensures var r := Ledger.LiquidarAPropietario(l, id, locador, None, cuenta);
            && r.Ok? && id in r.value.asientos
            && r.value.asientos[id].partidas ==
               [Debe(CxpLoc, cuota, Some(locador)).(pagado := cuota), Haber(IngHnr, cuota, None)]
            && r.value.cuentas == l.cuentas[cuenta := l.cuentas[cuenta] - cuota]
  {
    var ps := l.asientos[id].partidas;
    TotalPair(Operations.AFavor(locador), ps[0], ps[1]);
    Operations.LiquidacionResponde(l, id, locador, None, cuenta);
    assert Operations.Nombra(locador, ps[0]);
    assert Operations.Saldadas(locador, ps) ==
           [Debe(CxpLoc, cuota, Some(locador)).(pagado := cuota), Haber(IngHnr, cuota, None)];
  }
}
