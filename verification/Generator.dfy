/** Entries of a contract as the service generates them: the month-by-month rent history, the fee
    instalments, the deposit, the opening balance and the future rents. */
module Generator {
  import opened Common
  import opened Dates
  import opened Entries
  import opened Adjustment

  /** A contract with both parties. `indexado` is any index type but FIJO; an absent deposit is 0. */
  datatype Contrato = Contrato(
    id: string,
    locador: string,
    locatario: string,
    inicio: Date,
    fin: Date,
    base: real,
    comisionPct: real,
    indexado: bool,
    ajuste: Option<Date>,
    deposito: real,
    locadorPct: Option<real>,
    locadorCuotas: Option<nat>,
    locatarioPct: Option<real>,
    locatarioCuotas: Option<nat>)

  predicate FechasValidas(c: Contrato) {
    Valid(c.inicio) && Valid(c.fin) && (c.ajuste.Some? ==> Valid(c.ajuste.value))
  }

  // ---------- the calendar of instalments ----------

  /** Date of instalment k: one month added k times, so a clipped day stays clipped. */
  function FechaCuota(inicio: Date, k: nat): Date {
    if k == 0 then inicio else PlusMonths(FechaCuota(inicio, k - 1), 1)
  }

  /** One instalment per calendar month, never later than adding the months at once. */
  lemma {:induction false} FechaCuotaPorMes(inicio: Date, k: nat)
    requires Valid(inicio)
    ensures var f := FechaCuota(inicio, k);
            && Valid(f) && f.month == inicio.month + k
            && f.day <= PlusMonths(inicio, k).day
            && (inicio.day <= 28 ==> f == PlusMonths(inicio, k))
  {
    if k > 0 { FechaCuotaPorMes(inicio, k - 1); }
  }

  function NumCuotas(inicio: Date, fin: Date): nat {
    if !Before(inicio, fin) then 0
    else
      var d := fin.month - inicio.month;
      if Before(FechaCuota(inicio, d), fin) then d + 1 else d
  }

  /** The loop runs while the instalment date is before the end, and this is how many times it does. */
  lemma {:induction false} CuotasAntesDelFin(inicio: Date, fin: Date, k: nat)
    requires Valid(inicio) && Valid(fin)
    ensures Before(FechaCuota(inicio, k), fin) <==> k < NumCuotas(inicio, fin)
  {
    FechaCuotaPorMes(inicio, k);
    if Before(inicio, fin) { FechaCuotaPorMes(inicio, fin.month - inicio.month); }
  }

  /** n is the number of instalments: the dates before the end are exactly those of the first n. */
  ghost predicate SonCuotas(inicio: Date, fin: Date, n: nat) {
    forall k: nat :: Before(FechaCuota(inicio, k), fin) <==> k < n
  }

  lemma {:induction false} NumCuotasSon(inicio: Date, fin: Date)
    requires Valid(inicio) && Valid(fin)
    ensures SonCuotas(inicio, fin, NumCuotas(inicio, fin))
  {
    forall k: nat ensures Before(FechaCuota(inicio, k), fin) <==> k < NumCuotas(inicio, fin) {
      CuotasAntesDelFin(inicio, fin, k);
    }
  }

  lemma {:induction false} CuotaAnteriorAntesDelFin(inicio: Date, fin: Date, n: nat)
    requires Valid(inicio) && Valid(fin) && 0 < n && Before(PlusMonths(inicio, n - 1), fin)
    ensures n - 1 < NumCuotas(inicio, fin)
  {
    FechaCuotaPorMes(inicio, n - 1);
    CuotasAntesDelFin(inicio, fin, n - 1);
  }

  /** The rents number `totalMesesContrato` exactly when the clipped day does not fall short of the end in the
      last month. */
  lemma {:induction false} CuotasSonMeses(inicio: Date, fin: Date)
    requires Valid(inicio) && Valid(fin) && NotAfter(inicio, fin)
    ensures var n := CeilMonths(inicio, fin);
            NumCuotas(inicio, fin) == n <==>
            (fin.month == inicio.month + n ==> fin.day <= FechaCuota(inicio, n).day)
  {
    var n := CeilMonths(inicio, fin);
    FechaCuotaPorMes(inicio, n);
    CuotasAntesDelFin(inicio, fin, n);
    if n > 0 { CuotaAnteriorAntesDelFin(inicio, fin, n); }
  }

  /** Up to day 28 they always do. */
  lemma {:induction false} CuotasSinRecorte(inicio: Date, fin: Date)
    requires Valid(inicio) && Valid(fin) && NotAfter(inicio, fin) && inicio.day <= 28
    ensures NumCuotas(inicio, fin) == CeilMonths(inicio, fin)
  {
    CuotasSonMeses(inicio, fin);
    FechaCuotaPorMes(inicio, CeilMonths(inicio, fin));
  }

  /** From January 31 to March 30 there are three rents for two months. */
  lemma {:induction false} CuotasDeMas()
    ensures exists inicio, fin :: Valid(inicio) && Valid(fin) && NotAfter(inicio, fin)
              && NumCuotas(inicio, fin) == CeilMonths(inicio, fin) + 1
  {
    var inicio, fin := Date(24276, 31), Date(24278, 30);
    assert DaysIn(24276) == 31 && DaysIn(24277) == 28 && DaysIn(24278) == 31;
    assert FechaCuota(inicio, 1) == Date(24277, 28);
    assert FechaCuota(inicio, 2) == Date(24278, 28);
    assert NumCuotas(inicio, fin) == 3;
    assert CeilMonths(inicio, fin) == 2;
  }

  // ---------- entries ----------

  function LineaDebe(cuenta: Cuenta, monto: real, agente: Option<string>): Partida {
    Partida(cuenta, monto, 0.0, agente, 0.0, 0.0)
  }

  function LineaHaber(cuenta: Cuenta, monto: real, agente: Option<string>): Partida {
    Partida(cuenta, 0.0, monto, agente, 0.0, 0.0)
  }

  function Nuevo(c: Contrato, tipo: TipoAsiento, imputacion: Date, vencimiento: Date, periodo: int, monto: real,
                 ps: seq<Partida>): Asiento {
    Asiento(c.id, tipo, imputacion, vencimiento, periodo, Pendiente, monto, monto, ps, [])
  }

  /** Commission on an amount: the percentage is divided by 100 first. */
  function Comision(c: Contrato, monto: real): real {
    Round(Times(monto, Over(c.comisionPct, 100.0)))
  }

  /** DEBE to the tenant, HABER to the landlord net of commission, commission to the agency. */
  function LineasDeRenta(c: Contrato, debe: real, monto: real): seq<Partida> {
    [LineaDebe(CxcAlq, debe, Some(c.locatario)),
     LineaHaber(CxpLoc, Round(monto - Comision(c, monto)), Some(c.locador)),
     LineaHaber(IngHnr, Comision(c, monto), None)]
  }

  /** A rent of the full history: its DEBE is the rent as it stands, not rounded. */
  function AsientoAlquiler(c: Contrato, fecha: Date, periodo: int, monto: real): Asiento {
    Nuevo(c, Alquiler, fecha, PlusTenDays(fecha), periodo, Round(monto), LineasDeRenta(c, monto, monto))
  }

  /** A projected rent, and the opening balance: both round the DEBE. */
  function AsientoFuturo(c: Contrato, fecha: Date, monto: real): Asiento {
    Nuevo(c, Alquiler, fecha, PlusTenDays(fecha), 0, Round(monto), LineasDeRenta(c, Round(monto), monto))
  }

  function AsientoApertura(c: Contrato, hoy: Date, devengado: real): Asiento {
    Nuevo(c, SaldoApertura, hoy, hoy, 0, Round(devengado), LineasDeRenta(c, Round(devengado), devengado))
  }

  /** One fee instalment: charged to the landlord's payable or to the tenant's receivable. */
  function AsientoHonorario(c: Contrato, tipo: TipoAsiento, cuota: real, i: nat, periodo: int): Asiento {
    var fecha := PlusMonths(c.inicio, i);
    var debe := if tipo == HonorariosLocador then LineaDebe(CxpLoc, cuota, Some(c.locador))
                else LineaDebe(CxcAlq, cuota, Some(c.locatario));
    Nuevo(c, tipo, fecha, PlusTenDays(fecha), periodo, cuota, [debe, LineaHaber(IngHnr, cuota, None)])
  }

  function AsientoCobroDeposito(c: Contrato, monto: real): Asiento {
    Nuevo(c, DepositoCobro, c.inicio, c.inicio, 0, monto,
          [LineaDebe(CxcAlq, monto, Some(c.locatario)), LineaHaber(ActFid, monto, None)])
  }

  function AsientoDevolucionDeposito(c: Contrato, monto: real): Asiento {
    Nuevo(c, DepositoDevolucion, c.fin, c.fin, 0, monto,
          [LineaDebe(ActFid, monto, None), LineaHaber(PasDep, monto, Some(c.locador))])
  }

  // ---------- amounts ----------

  /** `Math.ceil` of the months from start to end, negative for an end before the start. */
  function MesesContrato(c: Contrato): int
    requires FechasValidas(c)
  {
    if NotAfter(c.inicio, c.fin) then CeilMonths(c.inicio, c.fin) else -WholeMonths(c.fin, c.inicio)
  }

  function MontoContrato(c: Contrato): real
    requires FechasValidas(c)
  {
    Round(Times(c.base, MesesContrato(c) as real))
  }

  function ValueOr<T>(x: Option<T>, d: T): T {
    match x
    case Some(v) => v
    case None => d
  }

  /** `cuotas || 1`. */
  function CuotasServicio(cuotas: Option<nat>): nat {
    if ValueOr(cuotas, 1) == 0 then 1 else ValueOr(cuotas, 1)
  }

  function HonorarioTotal(total: real, pct: real): real {
    Round(Over(Times(total, pct), 100.0))
  }

  function MontoCuota(honorario: real, n: nat): real
    requires n > 0
  {
    Round(Over(honorario, n as real))
  }

  // ---------- the rent in force month by month ----------

  /** Adjustment period in force and its rent. */
  datatype Vigencia = Vigencia(periodo: nat, monto: real)

  function PeriodosDe(c: Contrato): seq<Periodo>
    requires FechasValidas(c)
  {
    if c.indexado && c.ajuste.Some? then PeriodosDesde(c.inicio, c.ajuste.value, c.fin) else []
  }

  /** At most one period further each month; the ratio runs from the start of the period left to the
      adjustment date of the period entered. */
  function Avanzar(v: Vigencia, ps: seq<Periodo>, indice: Indice, fecha: Date): Vigencia
    requires v.periodo < |ps| || ps == []
  {
    if ps != [] && !Before(fecha, ps[v.periodo].end) && v.periodo < |ps| - 1 then
      Vigencia(v.periodo + 1, Ajustada(v.monto, indice(ps[v.periodo].start), indice(ps[v.periodo + 1].adjustment)))
    else v
  }

  /** In force before the check of month k. */
  function VigenciaAntes(c: Contrato, ps: seq<Periodo>, indice: Indice, k: nat): (v: Vigencia)
    ensures v.periodo < |ps| || (ps == [] && v.periodo == 0)
    decreases k, 0
  {
    if k == 0 then Vigencia(0, c.base) else VigenciaEn(c, ps, indice, k - 1)
  }

  /** In force for the rent of month k. */
  function VigenciaEn(c: Contrato, ps: seq<Periodo>, indice: Indice, k: nat): (v: Vigencia)
    ensures v.periodo < |ps| || (ps == [] && v.periodo == 0)
    decreases k, 1
  {
    Avanzar(VigenciaAntes(c, ps, indice, k), ps, indice, FechaCuota(c.inicio, k))
  }

  function AlquilerEn(c: Contrato, ps: seq<Periodo>, indice: Indice, k: nat): Asiento {
    AsientoAlquiler(c, FechaCuota(c.inicio, k), k + 1, VigenciaEn(c, ps, indice, k).monto)
  }

  function PrimerosAlquileres(c: Contrato, ps: seq<Periodo>, indice: Indice, n: nat): (r: seq<Asiento>)
    ensures |r| == n
  {
    seq(n, k requires 0 <= k < n => AlquilerEn(c, ps, indice, k))
  }

  /** Rents of the full history, one for each instalment. */
  function Alquileres(c: Contrato, indice: Indice): seq<Asiento>
    requires FechasValidas(c)
  {
    PrimerosAlquileres(c, PeriodosDe(c), indice, NumCuotas(c.inicio, c.fin))
  }

  function EnCuotas(c: Contrato, tipo: TipoAsiento, cuota: real, n: nat): (r: seq<Asiento>)
    ensures |r| == n
  {
    seq(n, i requires 0 <= i < n => AsientoHonorario(c, tipo, cuota, i, i + 1))
  }

  function Honorarios(c: Contrato, tipo: TipoAsiento, pct: Option<real>, cuotas: Option<nat>): seq<Asiento>
    requires FechasValidas(c)
  {
    var n := CuotasServicio(cuotas);
    var cuota := MontoCuota(HonorarioTotal(MontoContrato(c), ValueOr(pct, 0.0)), n);
    if cuota > 0.0 then EnCuotas(c, tipo, cuota, n) else []
  }

  function Historial(c: Contrato, indice: Indice): seq<Asiento>
    requires FechasValidas(c)
  {
    Alquileres(c, indice)
    + Honorarios(c, HonorariosLocador, c.locadorPct, c.locadorCuotas)
    + Honorarios(c, HonorariosLocatario, c.locatarioPct, c.locatarioCuotas)
  }

  function Depositos(c: Contrato): seq<Asiento> {
    if c.deposito > 0.0 then
      [AsientoCobroDeposito(c, Round(c.deposito)), AsientoDevolucionDeposito(c, Round(c.deposito))]
    else []
  }

  /** Exactly one rent for each consecutive month from the start, numbered from 1, however days are clipped. */
  lemma {:induction false} AlquileresPorMes(c: Contrato, indice: Indice)
    requires FechasValidas(c)
    ensures |Alquileres(c, indice)| == NumCuotas(c.inicio, c.fin)
    ensures forall k :: 0 <= k < |Alquileres(c, indice)| ==>
              var a := Alquileres(c, indice)[k];
              && a.periodo == k + 1 && a.imputacion.month == c.inicio.month + k
              && Valid(a.imputacion) && Before(a.imputacion, c.fin) && Before(a.imputacion, a.vencimiento)
  {
    forall k | 0 <= k < |Alquileres(c, indice)|
      ensures Alquileres(c, indice)[k].imputacion.month == c.inicio.month + k
      ensures Valid(FechaCuota(c.inicio, k)) && Before(FechaCuota(c.inicio, k), c.fin)
    {
      FechaCuotaPorMes(c.inicio, k);
      CuotasAntesDelFin(c.inicio, c.fin, k);
    }
  }

  lemma {:induction false} UnAlquilerMas(c: Contrato, ps: seq<Periodo>, indice: Indice, n: nat)
    ensures PrimerosAlquileres(c, ps, indice, n + 1) ==
            PrimerosAlquileres(c, ps, indice, n) + [AlquilerEn(c, ps, indice, n)]
  {
  }

  method AvanzarVigencia(v: Vigencia, ps: seq<Periodo>, indice: Indice, fecha: Date) returns (w: Vigencia)
    requires v.periodo < |ps| || ps == []
    ensures w == Avanzar(v, ps, indice, fecha)
  {
    var periodo, monto := v.periodo, v.monto;
    if ps != [] && !Before(fecha, ps[periodo].end) && periodo < |ps| - 1 {
      periodo := periodo + 1;
      monto := Ajustada(monto, indice(ps[periodo - 1].start), indice(ps[periodo].adjustment));
    }
    w := Vigencia(periodo, monto);
  }

  function Sumado(total: real, monto: real): real {
    Round(total + monto)
  }

  /** Running total of the first n rents, rounded as each is added. */
  function Acumulado(c: Contrato, ps: seq<Periodo>, indice: Indice, n: nat): real {
    if n == 0 then 0.0 else Sumado(Acumulado(c, ps, indice, n - 1), VigenciaEn(c, ps, indice, n - 1).monto)
  }

  method GenerarAlquileres(c: Contrato, indice: Indice) returns (asientos: seq<Asiento>, total: real)
    requires FechasValidas(c)
    ensures asientos == Alquileres(c, indice)
    ensures total == Acumulado(c, PeriodosDe(c), indice, NumCuotas(c.inicio, c.fin))
  {
    var ps: seq<Periodo> := [];
    if c.indexado && c.ajuste.Some? { ps := CalcularPeriodos(c.inicio, c.fin, c.ajuste.value); }
    NumCuotasSon(c.inicio, c.fin);
    asientos, total := RecorrerMeses(c, ps, indice, NumCuotas(c.inicio, c.fin));
  }

  /** The month loop. It ends because each turn moves one month on: it runs once for each month before the end. */
  method RecorrerMeses(c: Contrato, ps: seq<Periodo>, indice: Indice, ghost n: nat)
    returns (asientos: seq<Asiento>, total: real)
    requires SonCuotas(c.inicio, c.fin, n)
    ensures asientos == PrimerosAlquileres(c, ps, indice, n)
    ensures total == Acumulado(c, ps, indice, n)
  {
    asientos, total := [], 0.0;
    var fecha, vigencia, count := c.inicio, Vigencia(0, c.base), 0;
    while Before(fecha, c.fin)
      invariant count <= n
      invariant fecha == FechaCuota(c.inicio, count)
      invariant vigencia == VigenciaAntes(c, ps, indice, count)
      invariant asientos == PrimerosAlquileres(c, ps, indice, count)
      invariant total == Acumulado(c, ps, indice, count)
      decreases n - count
    {
      UnAlquilerMas(c, ps, indice, count);
      vigencia := AvanzarVigencia(vigencia, ps, indice, fecha);
      asientos := asientos + [AsientoAlquiler(c, fecha, count + 1, vigencia.monto)];
      total := Sumado(total, vigencia.monto);
      fecha := PlusMonths(fecha, 1);
      count := count + 1;
    }
  }

  method GenerarHonorarios(c: Contrato, tipo: TipoAsiento, pct: Option<real>, cuotas: Option<nat>)
    returns (asientos: seq<Asiento>)
    requires FechasValidas(c)
    ensures asientos == Honorarios(c, tipo, pct, cuotas)
  {
    asientos := [];
    var total := MontoContrato(c);
    var n := CuotasServicio(cuotas);
    var cuota := MontoCuota(HonorarioTotal(total, ValueOr(pct, 0.0)), n);
    if cuota > 0.0 { asientos := GenerarCuotas(c, tipo, cuota, n); }
  }

  method GenerarCuotas(c: Contrato, tipo: TipoAsiento, cuota: real, n: nat) returns (asientos: seq<Asiento>)
    ensures asientos == EnCuotas(c, tipo, cuota, n)
  {
    asientos := [];
    for i := 0 to n
      invariant asientos == EnCuotas(c, tipo, cuota, i)
    {
      asientos := asientos + [AsientoHonorario(c, tipo, cuota, i, i + 1)];
    }
  }

  /** generateFullHistoricalEntries. The total it reports is that of the rents. */
  method GenerarHistorial(c: Contrato, indice: Indice) returns (asientos: seq<Asiento>, count: nat, total: real)
    requires FechasValidas(c)
    ensures asientos == Historial(c, indice) && count == |asientos|
    ensures total == Round(Acumulado(c, PeriodosDe(c), indice, NumCuotas(c.inicio, c.fin)))
  {
    asientos, total := GenerarAlquileres(c, indice);
    var locador := GenerarHonorarios(c, HonorariosLocador, c.locadorPct, c.locadorCuotas);
    var locatario := GenerarHonorarios(c, HonorariosLocatario, c.locatarioPct, c.locatarioCuotas);
    asientos := asientos + locador + locatario;
    count, total := |asientos|, Round(total);
  }

  // ---------- opening balance and projection ----------

  function FuturoEn(c: Contrato, hoy: Date, k: nat): Asiento {
    AsientoFuturo(c, FechaCuota(Date(hoy.month + 1, 1), k), c.base)
  }

  /** Rents from the first day of next month to the end of the contract, at the base rent. */
  function Futuros(c: Contrato, hoy: Date, n: nat): (r: seq<Asiento>)
    ensures |r| == n
  {
    seq(n, k requires 0 <= k < n => FuturoEn(c, hoy, k))
  }

  function TotalFuturo(c: Contrato, n: nat): real {
    if n == 0 then 0.0 else Sumado(TotalFuturo(c, n - 1), c.base)
  }

  function NumFuturos(c: Contrato, hoy: Date): nat {
    if Before(hoy, c.fin) then NumCuotas(Date(hoy.month + 1, 1), c.fin) else 0
  }

  method GenerarFuturos(c: Contrato, hoy: Date) returns (asientos: seq<Asiento>, total: real)
    requires FechasValidas(c) && Valid(hoy)
    ensures asientos == Futuros(c, hoy, NumFuturos(c, hoy))
    ensures total == Round(TotalFuturo(c, NumFuturos(c, hoy)))
  {
    asientos, total := [], 0.0;
    if Before(hoy, c.fin) {
      NumCuotasSon(Date(hoy.month + 1, 1), c.fin);
      asientos, total := RecorrerFuturos(c, hoy, NumFuturos(c, hoy));
    }
    total := Round(total);
  }

  method RecorrerFuturos(c: Contrato, hoy: Date, ghost n: nat) returns (asientos: seq<Asiento>, total: real)
    requires SonCuotas(Date(hoy.month + 1, 1), c.fin, n)
    ensures asientos == Futuros(c, hoy, n) && total == TotalFuturo(c, n)
  {
    asientos, total := [], 0.0;
    var fecha, count := Date(hoy.month + 1, 1), 0;
    while Before(fecha, c.fin)
      invariant count <= n
      invariant fecha == FechaCuota(Date(hoy.month + 1, 1), count)
      invariant asientos == Futuros(c, hoy, count)
      invariant total == TotalFuturo(c, count)
      decreases n - count
    {
      UnFuturoMas(c, hoy, count);
      asientos := asientos + [AsientoFuturo(c, fecha, c.base)];
      total := Sumado(total, c.base);
      fecha := PlusMonths(fecha, 1);
      count := count + 1;
    }
  }

  lemma {:induction false} UnFuturoMas(c: Contrato, hoy: Date, n: nat)
    ensures Futuros(c, hoy, n + 1) == Futuros(c, hoy, n) + [FuturoEn(c, hoy, n)]
  {
  }

  /** Accrued from the start until today, nothing if that is still to come. Without an adjustment date the whole
      time is one period, as with a date that does not come before today. */
  function DevengadoHasta(c: Contrato, hoy: Date, indice: Indice): real
    requires FechasValidas(c) && Valid(hoy)
  {
    if Before(hoy, c.inicio) then 0.0
    else Devengado(c.base, !c.indexado, c.inicio, hoy, ValueOr(c.ajuste, hoy), indice)
  }

  /** One entry for everything accrued; none when nothing is. */
  function Apertura(c: Contrato, hoy: Date, indice: Indice): seq<Asiento>
    requires FechasValidas(c) && Valid(hoy)
  {
    var devengado := DevengadoHasta(c, hoy, indice);
    if devengado == 0.0 then [] else [AsientoApertura(c, hoy, devengado)]
  }

  method GenerarApertura(c: Contrato, hoy: Date, indice: Indice) returns (asientos: seq<Asiento>, devengado: real)
    requires FechasValidas(c) && Valid(hoy)
    ensures asientos == Apertura(c, hoy, indice) && devengado == Round(DevengadoHasta(c, hoy, indice))
  {
    asientos, devengado := [], 0.0;
    if !Before(hoy, c.inicio) {
      devengado := CalcularDevengado(c.base, !c.indexado, c.inicio, hoy, ValueOr(c.ajuste, hoy), indice);
      if devengado != 0.0 { asientos := [AsientoApertura(c, hoy, devengado)]; }
    }
    devengado := Round(devengado);
  }

  // ---------- a whole contract ----------

  datatype Informe = Informe(generados: nat, montoTotal: real)

  function Entradas(c: Contrato, apertura: bool, hoy: Date, indice: Indice): seq<Asiento>
    requires FechasValidas(c) && Valid(hoy)
  {
    (if apertura then Apertura(c, hoy, indice) + Futuros(c, hoy, NumFuturos(c, hoy)) else Historial(c, indice))
    + Depositos(c)
  }

  /** What the migration reports: it counts an opening entry even if there is none, and the two entries of a
      deposit once. */
  function InformeDe(c: Contrato, apertura: bool, hoy: Date, indice: Indice): Informe
    requires FechasValidas(c) && Valid(hoy)
  {
    var deposito := if c.deposito > 0.0 then 1 else 0;
    if apertura then
      Informe(1 + NumFuturos(c, hoy) + deposito,
              Round(Round(Round(Round(DevengadoHasta(c, hoy, indice))) + Round(TotalFuturo(c, NumFuturos(c, hoy))))))
    else
      Informe(|Historial(c, indice)| + deposito,
              Round(Round(Round(Acumulado(c, PeriodosDe(c), indice, NumCuotas(c.inicio, c.fin))))))
  }

  datatype Rechazo = YaTieneAsientos

  /** processContract. A contract that has entries is rejected unless they may be deleted; a simulation deletes and
      stores nothing, and reports the same. */
  method ProcesarContrato(
    c: Contrato, previos: seq<Asiento>, borrar: bool, simular: bool, apertura: bool, hoy: Date, indice: Indice)
    returns (guardados: seq<Asiento>, r: Result<Informe, Rechazo>)
    requires FechasValidas(c) && Valid(hoy)
    ensures r.Err? <==> previos != [] && !borrar
    ensures guardados == if r.Err? || simular then previos else Entradas(c, apertura, hoy, indice)
    ensures r.Ok? ==> r.value == InformeDe(c, apertura, hoy, indice)
  {
    guardados := previos;
    if previos != [] && !borrar { return previos, Err(YaTieneAsientos); }
    var asientos, informe := GenerarEntradas(c, apertura, hoy, indice);
    if !simular { guardados := asientos; }
    r := Ok(informe);
  }

  /** Both strategies and the deposit. */
  method GenerarEntradas(c: Contrato, apertura: bool, hoy: Date, indice: Indice)
    returns (asientos: seq<Asiento>, informe: Informe)
    requires FechasValidas(c) && Valid(hoy)
    ensures asientos == Entradas(c, apertura, hoy, indice)
    ensures informe == InformeDe(c, apertura, hoy, indice)
  {
    var generados, monto := 0, 0.0;
    if apertura {
      var futuros, total;
      asientos, monto := GenerarApertura(c, hoy, indice);
      generados, monto := generados + 1, Round(monto);
      futuros, total := GenerarFuturos(c, hoy);
      asientos, generados, monto := asientos + futuros, generados + |futuros|, Round(monto + total);
    } else {
      asientos, generados, monto := GenerarHistorial(c, indice);
      monto := Round(monto);
    }
    var depositos := GenerarDeposito(c);
    asientos := asientos + depositos;
    if c.deposito > 0.0 { generados := generados + 1; }
    informe := Informe(generados, Round(monto));
  }

  method GenerarDeposito(c: Contrato) returns (asientos: seq<Asiento>)
    ensures asientos == Depositos(c)
  {
    asientos := [];
    if c.deposito > 0.0 {
      var monto := Round(c.deposito);
      asientos := [AsientoCobroDeposito(c, monto), AsientoDevolucionDeposito(c, monto)];
    }
  }
}
