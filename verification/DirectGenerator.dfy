/** The second, independent generator, which writes the entries of a contract straight to the database, and
    when it produces the same entries as the service. */
module DirectGenerator {
  import opened Common
  import opened Dates
  import opened Entries
  import opened Adjustment
  import opened Generator

  function MontoBruto(c: Contrato): real
    requires FechasValidas(c)
  {
    Times(MesesContrato(c) as real, c.base)
  }

  /** A rent at the base amount; its month number is counted from the date, not from the loop. */
  function AsientoDirecto(c: Contrato, fecha: Date): Asiento
    requires FechasValidas(c) && Valid(fecha) && NotAfter(c.inicio, fecha)
  {
    Nuevo(c, AlquilerMensual, fecha, PlusTenDays(fecha), CeilMonths(c.inicio, fecha) + 1, c.base,
          LineasDeRenta(c, c.base, c.base))
  }

  function AlquilerDirecto(c: Contrato, k: nat): Asiento
    requires FechasValidas(c)
  {
    FechaCuotaPorMes(c.inicio, k);
    AsientoDirecto(c, FechaCuota(c.inicio, k))
  }

  function AlquileresDirectos(c: Contrato, n: nat): (r: seq<Asiento>)
    requires FechasValidas(c)
    ensures |r| == n
  {
    seq(n, k requires 0 <= k < n => AlquilerDirecto(c, k))
  }

  function DepositosDirectos(c: Contrato): seq<Asiento> {
    if c.deposito > 0.0 then
      [AsientoCobroDeposito(c, c.deposito), AsientoDevolucionDeposito(c, c.deposito)]
    else []
  }

  /** `montoTotal * (porcentaje / 100)`, rounded. */
  function HonorarioDirecto(c: Contrato, pct: real): real
    requires FechasValidas(c)
  {
    Round(Times(MontoBruto(c), Over(pct, 100.0)))
  }

  function HonorariosDirectos(c: Contrato, tipo: TipoAsiento, pct: Option<real>, cuotas: Option<nat>): seq<Asiento>
    requires FechasValidas(c)
  {
    var n := ValueOr(cuotas, 1);
    if Over(ValueOr(pct, 0.0), 100.0) > 0.0 && n > 0 then
      EnCuotasDirectas(c, tipo, MontoCuota(HonorarioDirecto(c, ValueOr(pct, 0.0)), n), n)
    else []
  }

  /** The script does not number the instalments. */
  function EnCuotasDirectas(c: Contrato, tipo: TipoAsiento, cuota: real, n: nat): (r: seq<Asiento>)
    ensures |r| == n
  {
    seq(n, i requires 0 <= i < n => AsientoHonorario(c, tipo, cuota, i, 0))
  }

  function Directo(c: Contrato): seq<Asiento>
    requires FechasValidas(c)
  {
    AlquileresDirectos(c, NumCuotas(c.inicio, c.fin)) + DepositosDirectos(c)
    + HonorariosDirectos(c, HonorariosLocador, c.locadorPct, c.locadorCuotas)
    + HonorariosDirectos(c, HonorariosLocatario, c.locatarioPct, c.locatarioCuotas)
  }

  lemma {:induction false} UnAlquilerDirectoMas(c: Contrato, n: nat)
    requires FechasValidas(c)
    ensures AlquileresDirectos(c, n + 1) == AlquileresDirectos(c, n) + [AlquilerDirecto(c, n)]
  {
  }

  method GenerarHonorariosDirectos(c: Contrato, tipo: TipoAsiento, pct: Option<real>, cuotas: Option<nat>)
    returns (asientos: seq<Asiento>)
    requires FechasValidas(c)
    ensures asientos == HonorariosDirectos(c, tipo, pct, cuotas)
  {
    asientos := [];
    var n := ValueOr(cuotas, 1);
    if Over(ValueOr(pct, 0.0), 100.0) > 0.0 && n > 0 {
      asientos := GenerarCuotasDirectas(c, tipo, MontoCuota(HonorarioDirecto(c, ValueOr(pct, 0.0)), n), n);
    }
  }

  method GenerarCuotasDirectas(c: Contrato, tipo: TipoAsiento, cuota: real, n: nat) returns (asientos: seq<Asiento>)
    ensures asientos == EnCuotasDirectas(c, tipo, cuota, n)
  {
    asientos := [];
    for i := 0 to n
      invariant asientos == EnCuotasDirectas(c, tipo, cuota, i)
    {
      asientos := asientos + [AsientoHonorario(c, tipo, cuota, i, 0)];
    }
  }

  method RecorrerMesesDirecto(c: Contrato, ghost n: nat) returns (asientos: seq<Asiento>)
    requires FechasValidas(c) && SonCuotas(c.inicio, c.fin, n)
    ensures asientos == AlquileresDirectos(c, n)
  {
    asientos := [];
    var fecha := c.inicio;
    ghost var count := 0;
    while Before(fecha, c.fin)
      invariant count <= n
      invariant fecha == FechaCuota(c.inicio, count)
      invariant asientos == AlquileresDirectos(c, count)
      decreases n - count
    {
      FechaCuotaPorMes(c.inicio, count);
      UnAlquilerDirectoMas(c, count);
      asientos := asientos + [AsientoDirecto(c, fecha)];
      fecha := PlusMonths(fecha, 1);
      count := count + 1;
    }
  }

  /** generateFullHistoryForContract. */
  method GenerarDirecto(c: Contrato) returns (asientos: seq<Asiento>)
    requires FechasValidas(c)
    ensures asientos == Directo(c)
  {
    NumCuotasSon(c.inicio, c.fin);
    asientos := RecorrerMesesDirecto(c, NumCuotas(c.inicio, c.fin));
    asientos := asientos + DepositosDirectos(c);
    var locador := GenerarHonorariosDirectos(c, HonorariosLocador, c.locadorPct, c.locadorCuotas);
    var locatario := GenerarHonorariosDirectos(c, HonorariosLocatario, c.locatarioPct, c.locatarioCuotas);
    asientos := asientos + locador + locatario;
  }

  // ---------- comparison ----------

  /** What is compared: the rent entries carry different type names, and only the service numbers the fee
      instalments. Everything else counts. */
  function Concepto(a: Asiento): Asiento {
    if a.tipo == AlquilerMensual then a.(tipo := Alquiler)
    else if a.tipo == Alquiler then a
    else a.(periodo := 0)
  }

  function Conceptos(xs: seq<Asiento>): (ys: seq<Asiento>)
    ensures |ys| == |xs|
  {
    seq(|xs|, i requires 0 <= i < |xs| => Concepto(xs[i]))
  }

  lemma {:induction false} ConceptosConcat(xs: seq<Asiento>, ys: seq<Asiento>)
    ensures Conceptos(xs + ys) == Conceptos(xs) + Conceptos(ys)
  {
  }

  lemma {:induction false} VigenciaFija(c: Contrato, indice: Indice, k: nat)
    requires FechasValidas(c) && !c.indexado
    ensures VigenciaEn(c, PeriodosDe(c), indice, k).monto == c.base
  {
    if k > 0 { VigenciaFija(c, indice, k - 1); }
  }

  lemma {:induction false} MismaRenta(c: Contrato, indice: Indice, k: nat)
    requires FechasValidas(c) && !c.indexado && Whole(c.base)
    ensures Concepto(AlquilerDirecto(c, k)) == AlquilerEn(c, PeriodosDe(c), indice, k)
  {
    VigenciaFija(c, indice, k);
    RoundWhole(c.base);
    FechaCuotaPorMes(c.inicio, k);
    if k > 0 { FechaCuotaPorMes(c.inicio, k - 1); }
  }

  /** The two rent loops agree entry by entry, month number included, even when the day is clipped. */
  lemma {:induction false} MismosAlquileres(c: Contrato, indice: Indice)
    requires FechasValidas(c) && !c.indexado && Whole(c.base)
    ensures Conceptos(AlquileresDirectos(c, NumCuotas(c.inicio, c.fin))) == Conceptos(Alquileres(c, indice))
  {
    forall k | 0 <= k < NumCuotas(c.inicio, c.fin)
      ensures Conceptos(AlquileresDirectos(c, NumCuotas(c.inicio, c.fin)))[k] == Conceptos(Alquileres(c, indice))[k]
    {
      MismaRenta(c, indice, k);
    }
  }

  lemma {:induction false} MismoHonorario(c: Contrato, pct: real)
    requires FechasValidas(c) && Whole(c.base)
    ensures HonorarioDirecto(c, pct) == HonorarioTotal(MontoContrato(c), pct)
  {
    var m, b := MesesContrato(c) as real, c.base;
    WholeTimes(b, MesesContrato(c));
    RoundWhole(Times(b, m));
    TimesCommutes(m, b);
    PorCiento(Times(b, m), pct);
  }

  lemma {:induction false} TimesCommutes(x: real, y: real)
    ensures Times(x, y) == Times(y, x)
  {
  }

  lemma {:induction false} PorCiento(x: real, pct: real)
    ensures Times(x, Over(pct, 100.0)) == Over(Times(x, pct), 100.0)
  {
  }

  /** Service and script charge the same instalments exactly when the instalment is positive just for a
      positive percentage and, if zero instalments were agreed, there is nothing to charge: the service then
      charges one, the script none. */
  predicate CuotasCoinciden(c: Contrato, pct: Option<real>, cuotas: Option<nat>)
    requires FechasValidas(c)
  {
    var cuota := MontoCuota(HonorarioTotal(MontoContrato(c), ValueOr(pct, 0.0)), CuotasServicio(cuotas));
    if cuotas == Some(0) then cuota <= 0.0 else (ValueOr(pct, 0.0) > 0.0 <==> cuota > 0.0)
  }

  lemma {:induction false} MismasCuotas(c: Contrato, tipo: TipoAsiento, cuota: real, n: nat)
    requires tipo == HonorariosLocador || tipo == HonorariosLocatario
    ensures Conceptos(EnCuotasDirectas(c, tipo, cuota, n)) == Conceptos(EnCuotas(c, tipo, cuota, n))
  {
  }

  lemma {:induction false} MismosHonorarios(c: Contrato, tipo: TipoAsiento, pct: Option<real>, cuotas: Option<nat>)
    requires FechasValidas(c) && Whole(c.base) && (tipo == HonorariosLocador || tipo == HonorariosLocatario)
    ensures CuotasCoinciden(c, pct, cuotas) ==>
              Conceptos(HonorariosDirectos(c, tipo, pct, cuotas)) == Conceptos(Honorarios(c, tipo, pct, cuotas))
    ensures !CuotasCoinciden(c, pct, cuotas) ==>
              (HonorariosDirectos(c, tipo, pct, cuotas) == [] <==> Honorarios(c, tipo, pct, cuotas) != [])
  {
    var n := CuotasServicio(cuotas);
    MismoHonorario(c, ValueOr(pct, 0.0));
    MismasCuotas(c, tipo, MontoCuota(HonorarioTotal(MontoContrato(c), ValueOr(pct, 0.0)), n), n);
    assert Over(ValueOr(pct, 0.0), 100.0) > 0.0 <==> ValueOr(pct, 0.0) > 0.0;
  }

  /** The deposit is rounded by the service only. */
  predicate DepositoCoincide(c: Contrato) {
    c.deposito > 0.0 ==> Whole(c.deposito)
  }

  lemma {:induction false} MismosDepositos(c: Contrato)
    ensures DepositoCoincide(c) ==> DepositosDirectos(c) == Depositos(c)
    ensures !DepositoCoincide(c) ==> Conceptos(Depositos(c))[0] !in Conceptos(DepositosDirectos(c))
  {
    RoundIsNearest(c.deposito);
    if Whole(c.deposito) { RoundWhole(c.deposito); }
  }

  function Servicio(c: Contrato, indice: Indice): seq<Asiento>
    requires FechasValidas(c)
  {
    Historial(c, indice) + Depositos(c)
  }

  predicate Iguales(c: Contrato)
    requires FechasValidas(c)
  {
    CuotasCoinciden(c, c.locadorPct, c.locadorCuotas) && CuotasCoinciden(c, c.locatarioPct, c.locatarioCuotas)
    && DepositoCoincide(c)
  }

  lemma {:induction false} CuatroPartes(a: seq<Asiento>, b: seq<Asiento>, c: seq<Asiento>, d: seq<Asiento>)
    ensures Conceptos(a + b + c + d) == Conceptos(a) + Conceptos(b) + Conceptos(c) + Conceptos(d)
  {
    ConceptosConcat(a, b);
    ConceptosConcat(a + b, c);
    ConceptosConcat(a + b + c, d);
  }

  /** Entries of one kind only. */
  predicate SoloTipo(xs: seq<Asiento>, tipos: set<TipoAsiento>) {
    forall a :: a in xs ==> a.tipo in tipos
  }

  lemma {:induction false} TipoDeAlquileres(c: Contrato, indice: Indice)
    requires FechasValidas(c)
    ensures SoloTipo(Conceptos(Alquileres(c, indice)), {Alquiler})
  {
  }

  lemma {:induction false} TipoDeHonorarios(c: Contrato, tipo: TipoAsiento, pct: Option<real>, cuotas: Option<nat>)
    requires FechasValidas(c) && (tipo == HonorariosLocador || tipo == HonorariosLocatario)
    ensures SoloTipo(Conceptos(Honorarios(c, tipo, pct, cuotas)), {tipo})
    ensures SoloTipo(Conceptos(HonorariosDirectos(c, tipo, pct, cuotas)), {tipo})
  {
  }

  lemma {:induction false} TipoDeDepositos(c: Contrato)
    ensures SoloTipo(Conceptos(Depositos(c)), {DepositoCobro, DepositoDevolucion})
    ensures SoloTipo(Conceptos(DepositosDirectos(c)), {DepositoCobro, DepositoDevolucion})
  {
  }

  /** Four parts with their kinds apart, put together in two orders: membership decides part by part. */
  lemma {:induction false} PartesAparte(
    r: seq<Asiento>, h: seq<Asiento>, t: seq<Asiento>, d: seq<Asiento>,
    h': seq<Asiento>, t': seq<Asiento>, d': seq<Asiento>)
    requires SoloTipo(r, {Alquiler})
    requires SoloTipo(h, {HonorariosLocador}) && SoloTipo(h', {HonorariosLocador})
    requires SoloTipo(t, {HonorariosLocatario}) && SoloTipo(t', {HonorariosLocatario})
    requires SoloTipo(d, {DepositoCobro, DepositoDevolucion}) && SoloTipo(d', {DepositoCobro, DepositoDevolucion})
    requires multiset(r + h + t + d) == multiset(r + d' + h' + t')
    ensures forall a :: (a in h <==> a in h') && (a in t <==> a in t') && (a in d <==> a in d')
  {
    forall a ensures (a in h <==> a in h') && (a in t <==> a in t') && (a in d <==> a in d') {
      assert a in multiset(r + h + t + d) <==> a in multiset(r + d' + h' + t');
      assert a in r + h + t + d <==> a in r || a in h || a in t || a in d;
      assert a in r + d' + h' + t' <==> a in r || a in d' || a in h' || a in t';
    }
  }

  /** For a FIJO contract both generators produce the same entries (concept, dates, rent month number, accounts,
      agents and amounts, each as many times) exactly when the fee instalments and the deposit coincide. */
  lemma {:induction false} MismosAsientos(c: Contrato, indice: Indice)
    requires FechasValidas(c) && !c.indexado && Whole(c.base)
    ensures multiset(Conceptos(Directo(c))) == multiset(Conceptos(Servicio(c, indice))) <==> Iguales(c)
  {
    var rs, ds := Alquileres(c, indice), Depositos(c);
    var hs := Honorarios(c, HonorariosLocador, c.locadorPct, c.locadorCuotas);
    var ts := Honorarios(c, HonorariosLocatario, c.locatarioPct, c.locatarioCuotas);
    var rd, dd := AlquileresDirectos(c, NumCuotas(c.inicio, c.fin)), DepositosDirectos(c);
    var hd := HonorariosDirectos(c, HonorariosLocador, c.locadorPct, c.locadorCuotas);
    var td := HonorariosDirectos(c, HonorariosLocatario, c.locatarioPct, c.locatarioCuotas);
    CuatroPartes(rs, hs, ts, ds);
    CuatroPartes(rd, dd, hd, td);
    MismosAlquileres(c, indice);
    MismosHonorarios(c, HonorariosLocador, c.locadorPct, c.locadorCuotas);
    MismosHonorarios(c, HonorariosLocatario, c.locatarioPct, c.locatarioCuotas);
    MismosDepositos(c);
    var r, h, t, d := Conceptos(rs), Conceptos(hs), Conceptos(ts), Conceptos(ds);
    var h', t', d' := Conceptos(hd), Conceptos(td), Conceptos(dd);
    assert Conceptos(Servicio(c, indice)) == r + h + t + d && Conceptos(Directo(c)) == r + d' + h' + t';
    if Iguales(c) {
      assert multiset(r + h + t + d) == multiset(r + d + h + t);
    }
    if multiset(r + h + t + d) == multiset(r + d' + h' + t') {
      TipoDeAlquileres(c, indice);
      TipoDeHonorarios(c, HonorariosLocador, c.locadorPct, c.locadorCuotas);
      TipoDeHonorarios(c, HonorariosLocatario, c.locatarioPct, c.locatarioCuotas);
      TipoDeDepositos(c);
      PartesAparte(r, h, t, d, h', t', d');
      MismosMiembros(h, h');
      MismosMiembros(t, t');
      if c.deposito > 0.0 { assert d[0] in d; }
    }
  }

  lemma {:induction false} MismosMiembros(xs: seq<Asiento>, ys: seq<Asiento>)
    requires forall a :: a in xs <==> a in ys
    ensures xs == [] <==> ys == []
  {
    if xs != [] { assert xs[0] in ys; }
    if ys != [] { assert ys[0] in xs; }
  }

  /** A fee of under half a centavo per instalment: the script books entries of zero, the service none. */
  lemma {:induction false} HonorarioInfimo(c: Contrato, indice: Indice)
    requires FechasValidas(c) && !c.indexado && Whole(c.base)
    requires ValueOr(c.locadorPct, 0.0) > 0.0 && ValueOr(c.locadorCuotas, 1) > 0
    requires MontoCuota(HonorarioTotal(MontoContrato(c), c.locadorPct.value), ValueOr(c.locadorCuotas, 1)) == 0.0
    ensures multiset(Conceptos(Directo(c))) != multiset(Conceptos(Servicio(c, indice)))
  {
    MismosAsientos(c, indice);
  }
}
