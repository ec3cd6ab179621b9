/** What the generated entries guarantee: they balance to the centavo, the ledger may start from them, the
    instalments add up to the fee, and the rent follows (or fails to follow) the index. */
module GeneratedEntries {
  import opened Common
  import opened Dates
  import opened Entries
  import opened Adjustment
  import opened Generator
  import Runs
  import Ledger

  lemma {:induction false} DosLineas(p: Partida, q: Partida)
    ensures Total(DebeOf, [p, q]) == p.debe + q.debe
    ensures Total(HaberOf, [p, q]) == p.haber + q.haber
  {
    TotalPair(DebeOf, p, q);
    TotalPair(HaberOf, p, q);
  }

  lemma {:induction false} TresLineas(p: Partida, q: Partida, r: Partida)
    ensures Total(DebeOf, [p, q, r]) == p.debe + q.debe + r.debe
    ensures Total(HaberOf, [p, q, r]) == p.haber + q.haber + r.haber
  {
    TotalTriple(DebeOf, p, q, r);
    TotalTriple(HaberOf, p, q, r);
  }

  /** Taking whole centavos off an amount and rounding is rounding first: no centavo is lost between the
      commission and the landlord's net. */
  lemma {:induction false} RedondeoDelNeto(x: real, w: real)
    requires Whole(w)
    ensures Round(x - w) + w == Round(x)
  {
    RoundIsNearest(x - w);
    WholeAdd(Round(x - w), w);
    RoundUnique(x, Round(x - w) + w);
  }

  /** The HABER of a rent is always its rounded amount, so it balances whenever its DEBE is that. */
  lemma {:induction false} HaberDeRenta(c: Contrato, debe: real, monto: real)
    ensures var ps := LineasDeRenta(c, debe, monto);
            Total(DebeOf, ps) == debe && Total(HaberOf, ps) == Round(monto)
  {
    var ps := LineasDeRenta(c, debe, monto);
    TresLineas(ps[0], ps[1], ps[2]);
    RoundIsNearest(Times(monto, Over(c.comisionPct, 100.0)));
    RedondeoDelNeto(monto, Comision(c, monto));
  }

  /** A full-history rent balances exactly when the rent is whole centavos; projected rents and the opening
      balance always do. */
  lemma {:induction false} RentaBalanceada(c: Contrato, fecha: Date, periodo: int, monto: real)
    ensures Balanceado(AsientoAlquiler(c, fecha, periodo, monto).partidas) <==> Whole(monto)
    ensures Balanceado(AsientoFuturo(c, fecha, monto).partidas)
    ensures Balanceado(AsientoApertura(c, fecha, monto).partidas)
    ensures AsientoFuturo(c, fecha, monto).montoOriginal == Total(DebeOf, AsientoFuturo(c, fecha, monto).partidas)
  {
    HaberDeRenta(c, monto, monto);
    HaberDeRenta(c, Round(monto), monto);
    RoundIsNearest(monto);
    if Whole(monto) { RoundWhole(monto); }
  }

  lemma {:induction false} HonorarioBalanceado(c: Contrato, tipo: TipoAsiento, cuota: real, i: nat, periodo: int)
    ensures var a := AsientoHonorario(c, tipo, cuota, i, periodo);
            Balanceado(a.partidas) && Total(DebeOf, a.partidas) == cuota == a.montoOriginal
  {
    var ps := AsientoHonorario(c, tipo, cuota, i, periodo).partidas;
    DosLineas(ps[0], ps[1]);
  }

  lemma {:induction false} DepositosBalanceados(c: Contrato, monto: real)
    ensures Balanceado(AsientoCobroDeposito(c, monto).partidas)
    ensures Balanceado(AsientoDevolucionDeposito(c, monto).partidas)
  {
    var ps, qs := AsientoCobroDeposito(c, monto).partidas, AsientoDevolucionDeposito(c, monto).partidas;
    DosLineas(ps[0], ps[1]);
    DosLineas(qs[0], qs[1]);
  }

  lemma {:induction false} AjustadaEntera(monto: real, b: Option<real>, a: Option<real>)
    requires Whole(monto)
    ensures Whole(Ajustada(monto, b, a))
  {
    if Utilizable(b) && Utilizable(a) { RoundIsNearest(monto * Over(a.value, b.value)); }
  }

  lemma {:induction false} VigenciaEntera(c: Contrato, ps: seq<Periodo>, indice: Indice, k: nat)
    requires Whole(c.base)
    ensures Whole(VigenciaEn(c, ps, indice, k).monto)
  {
    if k > 0 { VigenciaEntera(c, ps, indice, k - 1); }
    var v := VigenciaAntes(c, ps, indice, k);
    if ps != [] && v.periodo < |ps| - 1 {
      AjustadaEntera(v.monto, indice(ps[v.periodo].start), indice(ps[v.periodo + 1].adjustment));
    }
  }

  /** Whatever the index does, every entry generated from a whole-centavo rent balances. */
  lemma {:induction false} HistorialBalanceado(c: Contrato, indice: Indice)
    requires FechasValidas(c) && Whole(c.base)
    ensures forall a :: a in Historial(c, indice) + Depositos(c) ==> Balanceado(a.partidas)
  {
    forall a | a in Historial(c, indice) + Depositos(c) ensures Balanceado(a.partidas) {
      if a in Alquileres(c, indice) {
        var k :| 0 <= k < NumCuotas(c.inicio, c.fin) && a == Alquileres(c, indice)[k];
        var v := VigenciaEn(c, PeriodosDe(c), indice, k);
        VigenciaEntera(c, PeriodosDe(c), indice, k);
        RentaBalanceada(c, FechaCuota(c.inicio, k), k + 1, v.monto);
      } else if a in Depositos(c) {
        DepositosBalanceados(c, Round(c.deposito));
      } else if a in Honorarios(c, HonorariosLocador, c.locadorPct, c.locadorCuotas) {
        HonorariosBalanceados(c, HonorariosLocador, c.locadorPct, c.locadorCuotas, a);
      } else {
        HonorariosBalanceados(c, HonorariosLocatario, c.locatarioPct, c.locatarioCuotas, a);
      }
    }
  }

  lemma {:induction false} HonorariosBalanceados(
    c: Contrato, tipo: TipoAsiento, pct: Option<real>, cuotas: Option<nat>, a: Asiento)
    requires FechasValidas(c) && a in Honorarios(c, tipo, pct, cuotas)
    ensures Balanceado(a.partidas)
  {
    var n := CuotasServicio(cuotas);
    CuotaBalanceada(c, tipo, MontoCuota(HonorarioTotal(MontoContrato(c), ValueOr(pct, 0.0)), n), n, a);
  }

  lemma {:induction false} CuotaBalanceada(c: Contrato, tipo: TipoAsiento, cuota: real, n: nat, a: Asiento)
    requires a in EnCuotas(c, tipo, cuota, n)
    ensures Balanceado(a.partidas)
  {
    var i :| 0 <= i < n && a == EnCuotas(c, tipo, cuota, n)[i];
    HonorarioBalanceado(c, tipo, cuota, i, i + 1);
  }

  // ---------- the ledger may start from them ----------

  predicate Razonable(c: Contrato) {
    FechasValidas(c) && Whole(c.base) && c.base >= 0.0 && 0.0 <= c.comisionPct <= 100.0
  }

  ghost predicate NoNegativo(indice: Indice) {
    forall d :: indice(d).Some? ==> indice(d).value >= 0.0
  }

  lemma {:induction false} RoundMonotone(x: real, y: real)
    requires x <= y
    ensures Round(x) <= Round(y)
  {
    var n, m := (x + 0.5).Floor, (y + 0.5).Floor;
    assert n as real <= x + 0.5 && y + 0.5 < m as real + 1.0;
    assert n <= m;
  }

  lemma {:induction false} Fraccion(m: real, pct: real)
    requires m >= 0.0 && 0.0 <= pct <= 100.0
    ensures 0.0 <= Times(m, Over(pct, 100.0)) <= m
  {
    var q := pct / 100.0;
    assert 0.0 <= q <= 1.0;
    assert m * q >= 0.0 && m * (1.0 - q) >= 0.0;
  }

  lemma {:induction false} LineasIniciales(c: Contrato, monto: real)
    requires Razonable(c) && Whole(monto) && monto >= 0.0
    ensures LineasOk(LineasDeRenta(c, monto, monto)) && Round(monto) == monto
  {
    Fraccion(monto, c.comisionPct);
    var x := Times(monto, Over(c.comisionPct, 100.0));
    WholeInt(0);
    RoundWhole(0.0);
    RoundWhole(monto);
    RoundMonotone(0.0, x);
    RoundMonotone(x, monto);
    RoundMonotone(0.0, monto - Comision(c, monto));
  }

  lemma {:induction false} RentaInicial(c: Contrato, fecha: Date, periodo: int, monto: real)
    requires Razonable(c) && Whole(monto) && monto >= 0.0
    ensures Inicial(AsientoAlquiler(c, fecha, periodo, monto))
    ensures Inicial(AsientoFuturo(c, fecha, monto)) && Inicial(AsientoApertura(c, fecha, monto))
  {
    LineasIniciales(c, monto);
  }

  lemma {:induction false} VigenciaNoNegativa(c: Contrato, ps: seq<Periodo>, indice: Indice, k: nat)
    requires c.base >= 0.0 && NoNegativo(indice)
    ensures VigenciaEn(c, ps, indice, k).monto >= 0.0
  {
    if k > 0 { VigenciaNoNegativa(c, ps, indice, k - 1); }
    var v := VigenciaAntes(c, ps, indice, k);
    if ps != [] && v.periodo < |ps| - 1 {
      AjustadaNoNegativa(v.monto, indice(ps[v.periodo].start), indice(ps[v.periodo + 1].adjustment));
    }
  }

  lemma {:induction false} AjustadaNoNegativa(monto: real, b: Option<real>, a: Option<real>)
    requires monto >= 0.0 && (b.Some? ==> b.value >= 0.0) && (a.Some? ==> a.value >= 0.0)
    ensures Ajustada(monto, b, a) >= 0.0
  {
    if Utilizable(b) && Utilizable(a) {
      CadenaDeRazones(b.value, a.value, 1.0);
      assert monto * Over(a.value, b.value) >= 0.0;
      RoundWhole(0.0);
      RoundMonotone(0.0, monto * Over(a.value, b.value));
    }
  }

  lemma {:induction false} AlquileresIniciales(c: Contrato, indice: Indice)
    requires Razonable(c) && NoNegativo(indice)
    ensures forall a :: a in Alquileres(c, indice) ==> Inicial(a)
  {
    var ps := PeriodosDe(c);
    forall k | 0 <= k < NumCuotas(c.inicio, c.fin) ensures Inicial(AlquilerEn(c, ps, indice, k)) {
      VigenciaEntera(c, ps, indice, k);
      VigenciaNoNegativa(c, ps, indice, k);
      RentaInicial(c, FechaCuota(c.inicio, k), k + 1, VigenciaEn(c, ps, indice, k).monto);
    }
  }

  lemma {:induction false} HonorariosIniciales(c: Contrato, tipo: TipoAsiento, pct: Option<real>, cuotas: Option<nat>)
    requires FechasValidas(c)
    ensures forall a :: a in Honorarios(c, tipo, pct, cuotas) ==> Inicial(a)
  {
  }

  lemma {:induction false} DepositosIniciales(c: Contrato)
    ensures forall a :: a in Depositos(c) ==> Inicial(a)
  {
    RoundWhole(0.0);
    if c.deposito > 0.0 { RoundMonotone(0.0, c.deposito); }
  }

  lemma {:induction false} RentaEnNoNegativa(base: real, ps: seq<Periodo>, indice: Indice, k: nat)
    requires base >= 0.0 && NoNegativo(indice) && k < |ps|
    ensures RentaEn(base, ps, indice, k) >= 0.0
  {
    if k > 0 {
      RentaEnNoNegativa(base, ps, indice, k - 1);
      AjustadaNoNegativa(RentaEn(base, ps, indice, k - 1), indice(ps[k - 1].start), indice(ps[k - 1].adjustment));
    }
  }

  lemma {:induction false} ProductoNoNegativo(x: real, y: real)
    requires x >= 0.0 && y >= 0.0
    ensures Times(x, y) >= 0.0 && Round(Times(x, y)) >= 0.0
  {
    RoundWhole(0.0);
    RoundMonotone(0.0, Times(x, y));
  }

  lemma {:induction false} PeriodosNoNegativos(base: real, ps: seq<Periodo>, indice: Indice)
    requires base >= 0.0 && NoNegativo(indice) && forall i :: 0 <= i < |ps| ==> ps[i].months > 0
    ensures Round(Total(Round, RentaPorMes(base, ps, indice))) >= 0.0
  {
    var xs := RentaPorMes(base, ps, indice);
    forall k | 0 <= k < |ps| ensures Round(xs[k]) >= 0.0 {
      RentaEnNoNegativa(base, ps, indice, k);
      ProductoNoNegativo(RentaEn(base, ps, indice, k), MesesDe(ps[k]));
    }
    TotalNonNegative(Round, xs);
    RoundWhole(0.0);
    RoundMonotone(0.0, Total(Round, xs));
  }

  lemma {:induction false} DevengadoNoNegativo(c: Contrato, hoy: Date, indice: Indice)
    requires Razonable(c) && Valid(hoy) && NoNegativo(indice)
    ensures DevengadoHasta(c, hoy, indice) >= 0.0
  {
    if !Before(hoy, c.inicio) {
      var ajuste := ValueOr(c.ajuste, hoy);
      if c.indexado {
        PeriodosEncadenados(c.inicio, ajuste, hoy);
        PeriodosNoNegativos(c.base, PeriodosDesde(c.inicio, ajuste, hoy), indice);
      } else {
        ProductoNoNegativo(c.base, FloorMonths(c.inicio, hoy) as real);
      }
    }
  }

  /** Every generated entry, by either strategy, is a sound starting point for the ledger, so all that holds of its
      runs holds of the life of a generated contract. */
  lemma {:induction false} EntradasIniciales(c: Contrato, apertura: bool, hoy: Date, indice: Indice)
    requires Razonable(c) && Valid(hoy) && NoNegativo(indice)
    ensures forall a :: a in Entradas(c, apertura, hoy, indice) ==> Inicial(a)
  {
    DepositosIniciales(c);
    if apertura {
      AperturaInicial(c, hoy, indice);
      FuturosIniciales(c, hoy, NumFuturos(c, hoy));
    } else {
      AlquileresIniciales(c, indice);
      HonorariosIniciales(c, HonorariosLocador, c.locadorPct, c.locadorCuotas);
      HonorariosIniciales(c, HonorariosLocatario, c.locatarioPct, c.locatarioCuotas);
    }
  }

  lemma {:induction false} AperturaInicial(c: Contrato, hoy: Date, indice: Indice)
    requires Razonable(c) && Valid(hoy) && NoNegativo(indice)
    ensures forall a :: a in Apertura(c, hoy, indice) ==> Inicial(a)
  {
    DevengadoEntero(c, hoy, indice);
    DevengadoNoNegativo(c, hoy, indice);
    RentaInicial(c, hoy, 0, DevengadoHasta(c, hoy, indice));
  }

  lemma {:induction false} FuturosIniciales(c: Contrato, hoy: Date, n: nat)
    requires Razonable(c)
    ensures forall a :: a in Futuros(c, hoy, n) ==> Inicial(a)
  {
    forall k | 0 <= k < n ensures Inicial(FuturoEn(c, hoy, k)) {
      RentaInicial(c, FechaCuota(Date(hoy.month + 1, 1), k), 0, c.base);
    }
  }

  lemma {:induction false} VidaDelContrato(
    c: Contrato, apertura: bool, hoy: Date, indice: Indice, l: Ledger.Libro, ops: seq<Runs.Op>)
    requires Razonable(c) && Valid(hoy) && NoNegativo(indice)
    requires forall id :: id in l.asientos ==> l.asientos[id] in Entradas(c, apertura, hoy, indice)
    requires forall i :: 0 <= i < |ops| ==> Runs.Admisible(ops[i])
    ensures Runs.LibroSano(Runs.Correr(l, ops)) && Runs.LibroAvanza(l, Runs.Correr(l, ops))
  {
    EntradasIniciales(c, apertura, hoy, indice);
    forall id | id in l.asientos ensures Runs.Sano(l.asientos[id]) { Runs.InicialEsSano(l.asientos[id]); }
    Runs.CorridaSana(l, ops);
  }

  // ---------- fees ----------

  /** The instalments add up to the fee within half a centavo each. */
  lemma {:induction false} CuotasSumanHonorario(honorario: real, n: nat)
    requires n > 0
    ensures Abs(Times(n as real, MontoCuota(honorario, n)) - honorario) <= 0.5 * n as real
  {
    var q, r := honorario / n as real, n as real;
    RoundIsNearest(q);
    assert q * r == honorario;
    MulBound(Round(q) - q, 0.5, r);
    assert (Round(q) - q) * r == r * Round(q) - q * r;
  }

  lemma {:induction false} CuotaPositiva(honorario: real, n: nat)
    requires n > 0
    ensures MontoCuota(honorario, n) > 0.0 <==> honorario >= 0.5 * n as real
  {
    var q, r := honorario / n as real, n as real;
    assert q * r == honorario;
    assert q >= 0.5 <==> honorario >= 0.5 * r by {
      if q >= 0.5 { assert (q - 0.5) * r >= 0.0; } else { assert (0.5 - q) * r > 0.0; }
    }
    assert Round(q) > 0.0 <==> q >= 0.5 by {
      var m := (q + 0.5).Floor;
      assert m as real <= q + 0.5 < m as real + 1.0;
    }
  }

  function MontoDe(a: Asiento): real {
    a.montoOriginal
  }

  lemma {:induction false} SumaIguales(xs: seq<Asiento>, cuota: real)
    requires forall i :: 0 <= i < |xs| ==> xs[i].montoOriginal == cuota
    ensures Total(MontoDe, xs) == Times(|xs| as real, cuota)
  {
    if xs != [] { SumaIguales(xs[..|xs| - 1], cuota); }
  }

  lemma {:induction false} DesvioDeCuotas(honorario: real, n: nat)
    requires n > 0
    ensures var cuota := MontoCuota(honorario, n);
            var generado := if cuota > 0.0 then Times(n as real, cuota) else 0.0;
            Abs(generado - honorario) <= 0.5 * n as real <==> honorario >= -0.5 * n as real
  {
    CuotasSumanHonorario(honorario, n);
    CuotaPositiva(honorario, n);
  }

  lemma {:induction false} SumaDeCuotas(c: Contrato, tipo: TipoAsiento, cuota: real, n: nat)
    ensures Total(MontoDe, EnCuotas(c, tipo, cuota, n)) == Times(n as real, cuota)
  {
    SumaIguales(EnCuotas(c, tipo, cuota, n), cuota);
  }

  /** So do the generated fee entries, or none at all, exactly when the fee is no rebate beyond that bound: no
      instalment is generated unless it rounds to something positive. */
  lemma {:induction false} HonorariosSuman(c: Contrato, tipo: TipoAsiento, pct: Option<real>, cuotas: Option<nat>)
    requires FechasValidas(c)
    ensures var hs, n := Honorarios(c, tipo, pct, cuotas), CuotasServicio(cuotas);
            var total := HonorarioTotal(MontoContrato(c), ValueOr(pct, 0.0));
            && (hs != [] ==> |hs| == n)
            && (Abs(Total(MontoDe, hs) - total) <= 0.5 * n as real <==> total >= -0.5 * n as real)
  {
    var total, n := HonorarioTotal(MontoContrato(c), ValueOr(pct, 0.0)), CuotasServicio(cuotas);
    SumaDeCuotas(c, tipo, MontoCuota(total, n), n);
    DesvioDeCuotas(total, n);
  }

  // ---------- what the migration reports ----------

  /** Rents and the opening balance; fees and deposits are not reported. */
  function MontoInformado(a: Asiento): real {
    if a.tipo == Alquiler || a.tipo == SaldoApertura then a.montoOriginal else 0.0
  }

  /** One more entry, its amount added to the running total. */
  lemma {:induction false} UnaEntradaMas(xs: seq<Asiento>, a: Asiento, total: real, monto: real)
    requires total == Total(MontoInformado, xs) && Whole(total)
    requires MontoInformado(a) == Round(monto) && Whole(monto)
    ensures Sumado(total, monto) == Total(MontoInformado, xs + [a]) && Whole(Sumado(total, monto))
  {
    RoundWhole(monto);
    WholeAdd(total, monto);
    RoundWhole(total + monto);
    TotalConcat(MontoInformado, xs, [a]);
    TotalSingle(MontoInformado, a);
  }

  lemma {:induction false} AcumuladoExacto(c: Contrato, ps: seq<Periodo>, indice: Indice, n: nat)
    requires Whole(c.base)
    ensures Acumulado(c, ps, indice, n) == Total(MontoInformado, PrimerosAlquileres(c, ps, indice, n))
    ensures Whole(Acumulado(c, ps, indice, n))
  {
    if n == 0 {
      WholeInt(0);
    } else {
      AcumuladoExacto(c, ps, indice, n - 1);
      UnAlquilerMas(c, ps, indice, n - 1);
      AlquilerInformado(c, ps, indice, n - 1);
      UnaEntradaMas(PrimerosAlquileres(c, ps, indice, n - 1), AlquilerEn(c, ps, indice, n - 1),
                    Acumulado(c, ps, indice, n - 1), VigenciaEn(c, ps, indice, n - 1).monto);
    }
  }

  lemma {:induction false} AlquilerInformado(c: Contrato, ps: seq<Periodo>, indice: Indice, k: nat)
    requires Whole(c.base)
    ensures var monto := VigenciaEn(c, ps, indice, k).monto;
            Whole(monto) && MontoInformado(AlquilerEn(c, ps, indice, k)) == Round(monto)
  {
    VigenciaEntera(c, ps, indice, k);
  }

  lemma {:induction false} FuturoExacto(c: Contrato, hoy: Date, n: nat)
    requires Whole(c.base)
    ensures TotalFuturo(c, n) == Total(MontoInformado, Futuros(c, hoy, n))
    ensures Whole(TotalFuturo(c, n))
  {
    if n == 0 {
      WholeInt(0);
    } else {
      FuturoExacto(c, hoy, n - 1);
      UnFuturoMas(c, hoy, n - 1);
      UnaEntradaMas(Futuros(c, hoy, n - 1), FuturoEn(c, hoy, n - 1), TotalFuturo(c, n - 1), c.base);
    }
  }

  lemma {:induction false} NadaInformado(c: Contrato, tipo: TipoAsiento, pct: Option<real>, cuotas: Option<nat>)
    requires FechasValidas(c) && (tipo == HonorariosLocador || tipo == HonorariosLocatario)
    ensures Total(MontoInformado, Honorarios(c, tipo, pct, cuotas)) == 0.0
    ensures Total(MontoInformado, Depositos(c)) == 0.0
  {
    TotalZero(MontoInformado, Honorarios(c, tipo, pct, cuotas));
    TotalZero(MontoInformado, Depositos(c));
  }

  lemma {:induction false} HistorialInformado(c: Contrato, indice: Indice)
    requires FechasValidas(c) && Whole(c.base)
    ensures var total := Acumulado(c, PeriodosDe(c), indice, NumCuotas(c.inicio, c.fin));
            Whole(total) && total == Total(MontoInformado, Historial(c, indice))
  {
    var hs := Honorarios(c, HonorariosLocador, c.locadorPct, c.locadorCuotas);
    var ts := Honorarios(c, HonorariosLocatario, c.locatarioPct, c.locatarioCuotas);
    AcumuladoExacto(c, PeriodosDe(c), indice, NumCuotas(c.inicio, c.fin));
    NadaInformado(c, HonorariosLocador, c.locadorPct, c.locadorCuotas);
    NadaInformado(c, HonorariosLocatario, c.locatarioPct, c.locatarioCuotas);
    TotalConcat(MontoInformado, Alquileres(c, indice), hs);
    TotalConcat(MontoInformado, Alquileres(c, indice) + hs, ts);
  }

  lemma {:induction false} AperturaInformada(c: Contrato, hoy: Date, indice: Indice)
    requires FechasValidas(c) && Valid(hoy)
    ensures Whole(DevengadoHasta(c, hoy, indice))
    ensures DevengadoHasta(c, hoy, indice) == Total(MontoInformado, Apertura(c, hoy, indice))
  {
    var d := DevengadoHasta(c, hoy, indice);
    DevengadoEntero(c, hoy, indice);
    RoundWhole(d);
    if d != 0.0 { TotalSingle(MontoInformado, AsientoApertura(c, hoy, d)); }
  }

  lemma {:induction false} DevengadoEntero(c: Contrato, hoy: Date, indice: Indice)
    requires FechasValidas(c) && Valid(hoy)
    ensures Whole(DevengadoHasta(c, hoy, indice))
  {
    WholeInt(0);
    RoundIsNearest(Times(c.base, FloorMonths(c.inicio, hoy) as real));
    RoundIsNearest(Total(Round, RentaPorMes(c.base, PeriodosDesde(c.inicio, ValueOr(c.ajuste, hoy), hoy), indice)));
  }

  lemma {:induction false} AperturaYFuturos(c: Contrato, hoy: Date, indice: Indice)
    requires FechasValidas(c) && Valid(hoy) && Whole(c.base)
    ensures InformeDe(c, true, hoy, indice).montoTotal == Total(MontoInformado, Entradas(c, true, hoy, indice))
  {
    var as_, fs := Apertura(c, hoy, indice), Futuros(c, hoy, NumFuturos(c, hoy));
    NadaInformado(c, HonorariosLocador, None, None);
    AperturaInformada(c, hoy, indice);
    FuturoExacto(c, hoy, NumFuturos(c, hoy));
    TotalConcat(MontoInformado, as_, fs);
    TotalConcat(MontoInformado, as_ + fs, Depositos(c));
    DosRedondeos(DevengadoHasta(c, hoy, indice), TotalFuturo(c, NumFuturos(c, hoy)));
  }

  lemma {:induction false} HistorialYDeposito(c: Contrato, hoy: Date, indice: Indice)
    requires FechasValidas(c) && Valid(hoy) && Whole(c.base)
    ensures InformeDe(c, false, hoy, indice).montoTotal == Total(MontoInformado, Entradas(c, false, hoy, indice))
  {
    NadaInformado(c, HonorariosLocador, None, None);
    HistorialInformado(c, indice);
    TotalConcat(MontoInformado, Historial(c, indice), Depositos(c));
    RoundWhole(Acumulado(c, PeriodosDe(c), indice, NumCuotas(c.inicio, c.fin)));
  }

  /** The money reported for a contract with a whole-centavo base is exactly that of its rents and opening
      balance. The entries reported are those generated exactly when either a deposit makes up for an opening
      balance that is not there, or neither is the case. */
  lemma {:induction false} InformeExacto(c: Contrato, apertura: bool, hoy: Date, indice: Indice)
    requires FechasValidas(c) && Valid(hoy) && Whole(c.base)
    ensures InformeDe(c, apertura, hoy, indice).montoTotal == Total(MontoInformado, Entradas(c, apertura, hoy, indice))
    ensures InformeDe(c, apertura, hoy, indice).generados == |Entradas(c, apertura, hoy, indice)| <==>
            (c.deposito > 0.0 <==> apertura && DevengadoHasta(c, hoy, indice) == 0.0)
  {
    if apertura { AperturaYFuturos(c, hoy, indice); } else { HistorialYDeposito(c, hoy, indice); }
  }

  lemma {:induction false} DosRedondeos(x: real, y: real)
    requires Whole(x) && Whole(y)
    ensures Round(Round(Round(Round(x)) + Round(y))) == x + y
  {
    RoundWhole(x);
    RoundWhole(y);
    WholeAdd(x, y);
    RoundWhole(x + y);
  }

  // ---------- rents against the index ----------

  /** Index when period p starts, and when it is adjusted. */
  function Inicio(ps: seq<Periodo>, indice: Indice, p: nat): real
    requires p < |ps| && indice(ps[p].start).Some?
  {
    indice(ps[p].start).value
  }

  predicate TodosPublicados(ps: seq<Periodo>, indice: Indice) {
    forall i :: 0 <= i < |ps| ==>
      && indice(ps[i].start).Some? && indice(ps[i].start).value > 0.0
      && indice(ps[i].adjustment).Some? && indice(ps[i].adjustment).value > 0.0
  }

  /** Index when period i starts times index at its adjustment date. The full history runs through the ratios of
      these products, as the accrual runs through those of the index itself. */
  function Productos(ps: seq<Periodo>, indice: Indice): (xs: seq<real>)
    requires TodosPublicados(ps, indice)
    ensures |xs| == |ps| && Positivos(xs)
  {
    ProductosPositivos(ps, indice);
    seq(|ps|, i requires 0 <= i < |ps| => Times(indice(ps[i].start).value, indice(ps[i].adjustment).value))
  }

  lemma {:induction false} ProductosPositivos(ps: seq<Periodo>, indice: Indice)
    requires TodosPublicados(ps, indice)
    ensures forall i :: 0 <= i < |ps| ==> Times(indice(ps[i].start).value, indice(ps[i].adjustment).value) > 0.0
  {
    forall i | 0 <= i < |ps|
      ensures Times(indice(ps[i].start).value, indice(ps[i].adjustment).value) > 0.0
    {
      ProductoPositivo(indice(ps[i].start).value, indice(ps[i].adjustment).value);
    }
  }

  lemma {:induction false} ProductoPositivo(x: real, y: real)
    requires x > 0.0 && y > 0.0
    ensures Times(x, y) > 0.0
  {
  }

  /** The ratio on entering a period, from the start of the one left to the adjustment of the one entered. */
  lemma {:induction false} RazonDeProductos(x: real, y: real, z: real)
    requires x > 0.0 && y > 0.0
    ensures Times(x, y) > 0.0 && Over(Times(y, z), Times(x, y)) == Over(z, x)
  {
    var d := x * y;
    assert d > 0.0;
    var u, v := (y * z) / d, z / x;
    assert u * d == y * z && v * x == z;
    assert (u - v) * d == 0.0;
  }

  lemma {:induction false} UnaRazonMas(base: real, ps: seq<Periodo>, indice: Indice, v: Vigencia)
    requires Encadenados(ps) && v.periodo + 1 < |ps| && TodosPublicados(ps, indice)
    requires v.monto == RentaEnSerie(base, Productos(ps, indice), v.periodo)
    ensures Ajustada(v.monto, indice(ps[v.periodo].start), indice(ps[v.periodo + 1].adjustment)) ==
            RentaEnSerie(base, Productos(ps, indice), v.periodo + 1)
  {
    var p := v.periodo;
    SeriePaso(base, Productos(ps, indice), p);
    assert indice(ps[p].adjustment) == indice(ps[p + 1].start);
    RazonDeProductos(indice(ps[p].start).value, indice(ps[p + 1].start).value, indice(ps[p + 1].adjustment).value);
  }

  lemma {:induction false} AvanzarEsCadena(base: real, ps: seq<Periodo>, indice: Indice, v: Vigencia, fecha: Date)
    requires Encadenados(ps) && v.periodo < |ps| && TodosPublicados(ps, indice)
    requires v.monto == RentaEnSerie(base, Productos(ps, indice), v.periodo)
    ensures var w := Avanzar(v, ps, indice, fecha);
            w.periodo < |ps| && w.monto == RentaEnSerie(base, Productos(ps, indice), w.periodo)
  {
    if v.periodo < |ps| - 1 { UnaRazonMas(base, ps, indice, v); }
  }

  /** The rent of any month is the base taken through the ratios of the periods entered so far. */
  lemma {:induction false} VigenciaEsCadena(c: Contrato, ps: seq<Periodo>, indice: Indice, k: nat)
    requires ps != [] && Encadenados(ps) && TodosPublicados(ps, indice)
    ensures var v := VigenciaEn(c, ps, indice, k);
            v.monto == RentaEnSerie(c.base, Productos(ps, indice), v.periodo)
  {
    if k > 0 { VigenciaEsCadena(c, ps, indice, k - 1); }
    SerieInicio(c.base, Productos(ps, indice));
    AvanzarEsCadena(c.base, ps, indice, VigenciaAntes(c, ps, indice, k), FechaCuota(c.inicio, k));
  }

  /** The rent charged for a month in period p is base * W_p / W_0 up to half a centavo for each adjustment so
      far, carried on by the later ones: 1/2 * sum of W_p / W_j for j = 1..p, where W_j is the index at the start
      of period j times the index at its adjustment date. */
  lemma {:induction false} RentaDelHistorial(c: Contrato, indice: Indice, k: nat)
    requires FechasValidas(c) && PeriodosDe(c) != [] && TodosPublicados(PeriodosDe(c), indice)
    ensures var v := VigenciaEn(c, PeriodosDe(c), indice, k);
            SigueAlIndice(c.base, v.monto, Productos(PeriodosDe(c), indice), v.periodo)
  {
    var ps := PeriodosDe(c);
    var p := VigenciaEn(c, ps, indice, k).periodo;
    PeriodosEncadenados(c.inicio, c.ajuste.value, c.fin);
    VigenciaEsCadena(c, ps, indice, k);
    CadenaSigueALaSerie(c.base, Productos(ps, indice), p);
  }

  /** After p adjustments the exact factor of the full history is I_p * J_p / (I_0 * I_1), where J_p is the index
      at the adjustment date of the period entered: one step ahead of the accrual's I_p / I_0. */
  lemma {:induction false} FactorDelHistorial(ps: seq<Periodo>, indice: Indice, p: nat)
    requires Encadenados(ps) && TodosPublicados(ps, indice) && 1 <= p < |ps|
    ensures Times(Inicio(ps, indice, 0), Inicio(ps, indice, 1)) > 0.0
    ensures Factor(Razones(Productos(ps, indice)[..p + 1])) ==
            Over(Times(Inicio(ps, indice, p), indice(ps[p].adjustment).value),
                 Times(Inicio(ps, indice, 0), Inicio(ps, indice, 1)))
  {
    var xs := Productos(ps, indice);
    FactorTelescopico(xs[..p + 1]);
    assert xs[0] == Times(Inicio(ps, indice, 0), Inicio(ps, indice, 1));
  }

  lemma {:induction false} MismoFactor(i0: real, i1: real, ip: real, j: real)
    requires i0 > 0.0 && i1 > 0.0 && ip > 0.0
    ensures Times(i0, i1) > 0.0
    ensures Over(Times(ip, j), Times(i0, i1)) == Over(ip, i0) <==> j == i1
  {
    var d := i0 * i1;
    assert d > 0.0;
    var u, w := (ip * j) / d, ip / i0;
    assert u * d == ip * j && w * i0 == ip;
    assert w * d == ip * i1;
    if j == i1 { assert (u - w) * d == 0.0; }
    if u == w { assert ip * (j - i1) == 0.0; }
  }

  /** So the two strategies follow the same exact rent in period p only when the index at that period's own
      adjustment date is what it was at the first adjustment. */
  lemma {:induction false} HistorialContraDevengado(ps: seq<Periodo>, indice: Indice, p: nat)
    requires Encadenados(ps) && TodosPublicados(ps, indice) && 1 <= p < |ps|
    ensures Factor(Razones(Productos(ps, indice)[..p + 1])) == Factor(Razones(Valores(ps, indice)[..p + 1])) <==>
            indice(ps[p].adjustment).value == Inicio(ps, indice, 1)
  {
    FactorDelHistorial(ps, indice, p);
    FactorTelescopico(Valores(ps, indice)[..p + 1]);
    MismoFactor(Inicio(ps, indice, 0), Inicio(ps, indice, 1), Inicio(ps, indice, p), indice(ps[p].adjustment).value);
  }

  // ---------- rent and period, month by month ----------

  /** Periods of month-aligned dates tile the contract: each starts where the previous one ends, the first at
      the start and the last ending at the end. */
  predicate Cubren(ps: seq<Periodo>, start: Date, end: Date) {
    && ps != [] && ps[0].start == start && ps[|ps| - 1].end == end
    && (forall i :: 0 <= i < |ps| ==> Tramo(ps[i], start.day))
    && forall i :: 0 <= i < |ps| - 1 ==> ps[i].end == ps[i + 1].start
  }

  predicate Tramo(p: Periodo, dia: int) {
    p.start.day == p.end.day == dia && p.start.month < p.end.month
  }

  lemma {:induction false} PeriodosCubren(start: Date, primerAjuste: Date, end: Date)
    requires Alineadas(start, primerAjuste, end) && Before(start, end) && !Before(primerAjuste, start)
    ensures Cubren(PeriodosDesde(start, primerAjuste, end), start, end)
    decreases if primerAjuste.month <= end.month then end.month - primerAjuste.month + 1 else 0
  {
    var siguiente := PlusMonths(primerAjuste, INTERVALO);
    var hasta := if Before(primerAjuste, end) then primerAjuste else end;
    var resto := PeriodosDesde(primerAjuste, siguiente, end);
    if Before(primerAjuste, end) {
      PeriodosCubren(primerAjuste, siguiente, end);
      if start != primerAjuste { UnTramoMas(start, primerAjuste, end, resto, FloorMonths(start, hasta)); }
    }
  }

  lemma {:induction false} UnTramoMas(start: Date, corte: Date, end: Date, resto: seq<Periodo>, meses: int)
    requires Cubren(resto, corte, end) && start.day == corte.day && start.month < corte.month
    ensures Cubren([Periodo(start, corte, corte, meses)] + resto, start, end)
  {
    var ps := [Periodo(start, corte, corte, meses)] + resto;
    forall i | 0 <= i < |ps| ensures Tramo(ps[i], start.day) {
      if i > 0 { assert ps[i] == resto[i - 1]; }
    }
    forall i | 0 <= i < |ps| - 1 ensures ps[i].end == ps[i + 1].start {
      if i > 0 { assert ps[i] == resto[i - 1] && ps[i + 1] == resto[i]; }
    }
  }

  predicate Dentro(p: Periodo, fecha: Date) {
    NotAfter(p.start, fecha) && Before(fecha, p.end)
  }

  /** One check keeps the rent in the period of the month, if it was in the period of the month before. */
  lemma {:induction false} AvanzarDentro(
    ps: seq<Periodo>, start: Date, end: Date, v: Vigencia, indice: Indice, previa: Date, fecha: Date)
    requires Cubren(ps, start, end) && v.periodo < |ps| && fecha.day == start.day && Before(fecha, end)
    requires (fecha == start && v.periodo == 0) ||
             (previa.month + 1 == fecha.month && previa.day == fecha.day && Dentro(ps[v.periodo], previa))
    ensures Dentro(ps[Avanzar(v, ps, indice, fecha).periodo], fecha)
  {
    assert Tramo(ps[v.periodo], start.day);
    if v.periodo < |ps| - 1 { assert Tramo(ps[v.periodo + 1], start.day); }
  }

  lemma {:induction false} VigenciaHasta(c: Contrato, ps: seq<Periodo>, indice: Indice, k: nat)
    requires Cubren(ps, c.inicio, c.fin) && Valid(c.inicio) && c.inicio.day <= 28
    requires Before(FechaCuota(c.inicio, k), c.fin)
    ensures VigenciaEn(c, ps, indice, k).periodo < |ps|
    ensures Dentro(ps[VigenciaEn(c, ps, indice, k).periodo], FechaCuota(c.inicio, k))
  {
    var fecha := FechaCuota(c.inicio, k);
    FechaCuotaPorMes(c.inicio, k);
    if k == 0 {
      AvanzarDentro(ps, c.inicio, c.fin, Vigencia(0, c.base), indice, fecha, fecha);
    } else {
      var previa := FechaCuota(c.inicio, k - 1);
      FechaCuotaPorMes(c.inicio, k - 1);
      VigenciaHasta(c, ps, indice, k - 1);
      AvanzarDentro(ps, c.inicio, c.fin, VigenciaEn(c, ps, indice, k - 1), indice, previa, fecha);
    }
  }

  /** Every month is charged the rent of the period it lies in: one check per month never falls behind. */
  lemma {:induction false} VigenciaDentro(c: Contrato, indice: Indice, k: nat)
    requires c.indexado && c.ajuste.Some? && Alineadas(c.inicio, c.ajuste.value, c.fin) && FechasValidas(c)
    requires !Before(c.ajuste.value, c.inicio) && k < NumCuotas(c.inicio, c.fin)
    ensures var ps := PeriodosDe(c);
            Cubren(ps, c.inicio, c.fin)
            && Dentro(ps[VigenciaEn(c, ps, indice, k).periodo], FechaCuota(c.inicio, k))
  {
    PeriodosCubren(c.inicio, c.ajuste.value, c.fin);
    CuotasAntesDelFin(c.inicio, c.fin, k);
    VigenciaHasta(c, PeriodosDe(c), indice, k);
  }
}
