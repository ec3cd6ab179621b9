/** Rent adjustment by index: the six-month periods of a contract, the rent in force in each, and the amount
    accrued over them. */
module Adjustment {
  import opened Common
  import opened Dates

  datatype Periodo = Periodo(start: Date, end: Date, adjustment: Date, months: int)

  const INTERVALO := 6

  /** Value of the index in force on a date; a missing or zero value means no adjustment. */
  type Indice = Date -> Option<real>

  predicate Utilizable(v: Option<real>) {
    v.Some? && v.value != 0.0
  }

  // ---------- periods ----------

  function PeriodosDesde(actual: Date, proximo: Date, fin: Date): seq<Periodo>
    requires Valid(actual) && Valid(proximo) && Valid(fin)
    decreases if proximo.month <= fin.month then fin.month - proximo.month + 1 else 0,
              if Before(actual, fin) then 1 else 0
  {
    if !Before(actual, fin) then []
    else
      var hasta := if Before(proximo, fin) then proximo else fin;
      var meses := FloorMonths(actual, hasta);
      var resto := PeriodosDesde(proximo, PlusMonths(proximo, INTERVALO), fin);
      if meses > 0 then [Periodo(actual, hasta, proximo, meses)] + resto else resto
  }

  lemma {:induction false} UnTurno(previos: seq<Periodo>, actual: Date, proximo: Date, fin: Date)
    requires Valid(actual) && Valid(proximo) && Valid(fin) && Before(actual, fin)
    ensures var hasta := if Before(proximo, fin) then proximo else fin;
            var meses := FloorMonths(actual, hasta);
            var nuevos := if meses > 0 then previos + [Periodo(actual, hasta, proximo, meses)] else previos;
            nuevos + PeriodosDesde(proximo, PlusMonths(proximo, INTERVALO), fin) ==
            previos + PeriodosDesde(actual, proximo, fin)
  {
  }

  /** getAdjustmentPeriods: the loop ends because the adjustment date moves six months on each turn. */
  method CalcularPeriodos(start: Date, end: Date, primerAjuste: Date) returns (periodos: seq<Periodo>)
    requires Valid(start) && Valid(end) && Valid(primerAjuste)
    ensures periodos == PeriodosDesde(start, primerAjuste, end)
  {
    periodos := [];
    var actual, proximo := start, primerAjuste;
    while Before(actual, end)
      invariant Valid(actual) && Valid(proximo)
      invariant periodos + PeriodosDesde(actual, proximo, end) == PeriodosDesde(start, primerAjuste, end)
      decreases if proximo.month <= end.month then end.month - proximo.month + 1 else 0,
                if Before(actual, end) then 1 else 0
    {
      var hasta := if Before(proximo, end) then proximo else end;
      var meses := FloorMonths(actual, hasta);
      UnTurno(periodos, actual, proximo, end);
      if meses > 0 { periodos := periodos + [Periodo(actual, hasta, proximo, meses)]; }
      actual := proximo;
      proximo := PlusMonths(proximo, INTERVALO);
    }
  }

  /** Every period but the last ends on its adjustment date, where the next one starts. */
  predicate Encadenados(ps: seq<Periodo>) {
    forall i :: 0 <= i < |ps| - 1 ==> ps[i].adjustment == ps[i].end == ps[i + 1].start
  }

  /** Whole intervals are never skipped, so from an adjustment date on the first period starts there. */
  lemma {:induction false} PeriodosEncadenados(actual: Date, proximo: Date, fin: Date)
    requires Valid(actual) && Valid(proximo) && Valid(fin)
    ensures var ps := PeriodosDesde(actual, proximo, fin);
            && Encadenados(ps)
            && (forall i :: 0 <= i < |ps| ==> ps[i].months > 0)
            && (ps != [] ==> ps[0].start == actual || ps[0].start == proximo)
            && (ps != [] && proximo == PlusMonths(actual, INTERVALO) ==> ps[0].start == actual)
    decreases if proximo.month <= fin.month then fin.month - proximo.month + 1 else 0,
              if Before(actual, fin) then 1 else 0
  {
    if Before(actual, fin) {
      var siguiente := PlusMonths(proximo, INTERVALO);
      PeriodosEncadenados(proximo, siguiente, fin);
      var hasta := if Before(proximo, fin) then proximo else fin;
      var meses := FloorMonths(actual, hasta);
      var resto := PeriodosDesde(proximo, siguiente, fin);
      if meses > 0 {
        var ps := [Periodo(actual, hasta, proximo, meses)] + resto;
        assert PeriodosDesde(actual, proximo, fin) == ps;
        forall i | 0 <= i < |ps| - 1 ensures ps[i].adjustment == ps[i].end == ps[i + 1].start {
          if i > 0 { assert ps[i] == resto[i - 1] && ps[i + 1] == resto[i]; }
        }
      } else {
        assert PeriodosDesde(actual, proximo, fin) == resto;
      }
    }
  }

  /** Whole months from the start of a period to its end, which is its adjustment date or the end of the contract if
      that comes first. */
  predicate MesesEnteros(p: Periodo, fin: Date) {
    && Valid(p.start) && Valid(p.end) && Valid(p.adjustment) && p.months > 0
    && NotAfter(PlusMonths(p.start, p.months), p.end) && Before(p.end, PlusMonths(p.start, p.months + 1))
    && p.end == (if Before(p.adjustment, fin) then p.adjustment else fin)
  }

  lemma {:induction false} MesesDeCadaPeriodo(actual: Date, proximo: Date, fin: Date)
    requires Valid(actual) && Valid(proximo) && Valid(fin)
    ensures forall p :: p in PeriodosDesde(actual, proximo, fin) ==> MesesEnteros(p, fin)
    decreases if proximo.month <= fin.month then fin.month - proximo.month + 1 else 0,
              if Before(actual, fin) then 1 else 0
  {
    if Before(actual, fin) {
      var siguiente := PlusMonths(proximo, INTERVALO);
      MesesDeCadaPeriodo(proximo, siguiente, fin);
      var hasta := if Before(proximo, fin) then proximo else fin;
      var meses := FloorMonths(actual, hasta);
      assert meses > 0 ==> MesesEnteros(Periodo(actual, hasta, proximo, meses), fin);
    }
  }

  /** The first period, if it is a month long at least, starts where the accrual does and is adjusted on the first
      adjustment date; the later ones every six months. */
  lemma {:induction false} AjustesCadaSeisMeses(actual: Date, proximo: Date, fin: Date)
    requires Valid(actual) && Valid(proximo) && Valid(fin)
    ensures var ps := PeriodosDesde(actual, proximo, fin);
            && (forall i :: 0 <= i < |ps| - 1 ==> ps[i + 1].adjustment == PlusMonths(ps[i].adjustment, 6))
            && (ps != [] && proximo == PlusMonths(actual, INTERVALO) ==> ps[0].adjustment == proximo)
            && (Before(actual, fin) && FloorMonths(actual, if Before(proximo, fin) then proximo else fin) > 0 ==>
                  ps != [] && ps[0].start == actual && ps[0].adjustment == proximo)
    decreases if proximo.month <= fin.month then fin.month - proximo.month + 1 else 0,
              if Before(actual, fin) then 1 else 0
  {
    if Before(actual, fin) {
      var siguiente := PlusMonths(proximo, INTERVALO);
      AjustesCadaSeisMeses(proximo, siguiente, fin);
      var hasta := if Before(proximo, fin) then proximo else fin;
      var meses := FloorMonths(actual, hasta);
      var resto := PeriodosDesde(proximo, siguiente, fin);
      if meses > 0 {
        PrimeroConResto(Periodo(actual, hasta, proximo, meses), resto);
      }
    }
  }

  lemma {:induction false} PrimeroConResto(p: Periodo, resto: seq<Periodo>)
    requires resto != [] ==> resto[0].adjustment == PlusMonths(p.adjustment, 6)
    requires forall i :: 0 <= i < |resto| - 1 ==> resto[i + 1].adjustment == PlusMonths(resto[i].adjustment, 6)
    ensures var ps := [p] + resto;
            forall i :: 0 <= i < |ps| - 1 ==> ps[i + 1].adjustment == PlusMonths(ps[i].adjustment, 6)
  {
    var ps := [p] + resto;
    forall i | 0 <= i < |ps| - 1 ensures ps[i + 1].adjustment == PlusMonths(ps[i].adjustment, 6) {
      if i > 0 { assert ps[i] == resto[i - 1] && ps[i + 1] == resto[i]; }
    }
  }

  function MesesDe(p: Periodo): real {
    p.months as real
  }

  /** Dates on one day of the month that every month has. */
  predicate Alineadas(a: Date, b: Date, c: Date) {
    a.day == b.day == c.day && 1 <= a.day <= 28
  }

  /** For month-aligned dates the periods cover every month up to the end, counted from the start or from the
      first adjustment, whichever is earlier: an adjustment dated before the start adds months before it. */
  lemma {:induction false} MesesCubiertos(start: Date, primerAjuste: Date, end: Date)
    requires Alineadas(start, primerAjuste, end)
    requires Before(start, end)
    ensures Total(MesesDe, PeriodosDesde(start, primerAjuste, end)) ==
            (end.month - (if Before(primerAjuste, start) then primerAjuste.month else start.month)) as real
    decreases if primerAjuste.month <= end.month then end.month - primerAjuste.month + 1 else 0
  {
    var siguiente := PlusMonths(primerAjuste, INTERVALO);
    var hasta := if Before(primerAjuste, end) then primerAjuste else end;
    var meses := FloorMonths(start, hasta);
    var resto := PeriodosDesde(primerAjuste, siguiente, end);
    if Before(primerAjuste, end) {
      MesesCubiertos(primerAjuste, siguiente, end);
    }
    if meses > 0 {
      TotalConcat(MesesDe, [Periodo(start, hasta, primerAjuste, meses)], resto);
      TotalSingle(MesesDe, Periodo(start, hasta, primerAjuste, meses));
    } else {
      assert PeriodosDesde(start, primerAjuste, end) == resto;
    }
  }

  /** So they add up to the months of the contract exactly when no adjustment is dated before the start. */
  lemma {:induction false} MesesDelContrato(start: Date, primerAjuste: Date, end: Date)
    requires Alineadas(start, primerAjuste, end) && Before(start, end)
    ensures Total(MesesDe, PeriodosDesde(start, primerAjuste, end)) == FloorMonths(start, end) as real
            <==> !Before(primerAjuste, start)
  {
    MesesCubiertos(start, primerAjuste, end);
  }

  // ---------- rounding along a chain of ratios ----------

  /** A rent multiplied by a ratio and rounded to the centavo. */
  function ConRazon(monto: real, q: real): real {
    Round(monto * q)
  }

  function RentaTras(base: real, qs: seq<real>): real {
    if qs == [] then base else ConRazon(RentaTras(base, qs[..|qs| - 1]), qs[|qs| - 1])
  }

  function Factor(qs: seq<real>): real {
    if qs == [] then 1.0 else Times(Factor(qs[..|qs| - 1]), qs[|qs| - 1])
  }

  /** A base taken through the ratios of a series, as far as its value k. */
  function RentaEnSerie(base: real, xs: seq<real>, k: nat): real
    requires Positivos(xs) && k < |xs|
  {
    RentaTras(base, Razones(xs[..k + 1]))
  }

  lemma {:induction false} SerieInicio(base: real, xs: seq<real>)
    requires Positivos(xs) && xs != []
    ensures RentaEnSerie(base, xs, 0) == base
  {
    assert Razones(xs[..1]) == [];
  }

  lemma {:induction false} SeriePaso(base: real, xs: seq<real>, k: nat)
    requires Positivos(xs) && k + 1 < |xs|
    ensures RentaEnSerie(base, xs, k + 1) == ConRazon(RentaEnSerie(base, xs, k), Over(xs[k + 1], xs[k]))
  {
    var ys := xs[..k + 2];
    RazonesInicio(ys);
    assert ys[..k + 1] == xs[..k + 1];
    UnaRazonAlFinal(base, Razones(ys[..k + 1]), Over(xs[k + 1], xs[k]));
  }

  lemma {:induction false} UnaRazonAlFinal(base: real, qs: seq<real>, q: real)
    ensures RentaTras(base, qs + [q]) == ConRazon(RentaTras(base, qs), q)
  {
    assert (qs + [q])[..|qs|] == qs;
  }

  /** Amplification of the rounding errors: each one is carried on by the later ratios. */
  function Ruido(qs: seq<real>): real {
    if qs == [] then 0.0 else Times(Ruido(qs[..|qs| - 1]), qs[|qs| - 1]) + 1.0
  }

  predicate Positivos(qs: seq<real>) {
    forall i :: 0 <= i < |qs| ==> qs[i] > 0.0
  }

  lemma {:induction false} MulBound(x: real, b: real, q: real)
    requires -b <= x <= b && q > 0.0
    ensures -(b * q) <= x * q <= b * q
  {
    assert (b - x) * q >= 0.0 && (b + x) * q >= 0.0;
  }

  lemma {:induction false} PasoRedondeado(base: real, r: real, g: real, n: real, q: real)
    requires Abs(r - Times(base, g)) <= 0.5 * n && q > 0.0
    ensures Abs(ConRazon(r, q) - Times(base, Times(g, q))) <= 0.5 * (Times(n, q) + 1.0)
  {
    MulBound(r - base * g, 0.5 * n, q);
    RoundIsNearest(r * q);
    assert (r - base * g) * q == r * q - base * (g * q);
    assert 0.5 * n * q == 0.5 * (n * q);
  }

  /** The rounded rent stays within half a centavo times the amplification of the exact one. */
  lemma {:induction false} RedondeoAcumulado(base: real, qs: seq<real>)
    requires Positivos(qs)
    ensures Abs(RentaTras(base, qs) - Times(base, Factor(qs))) <= 0.5 * Ruido(qs)
  {
    if qs != [] {
      var init, q := qs[..|qs| - 1], qs[|qs| - 1];
      RedondeoAcumulado(base, init);
      PasoRedondeado(base, RentaTras(base, init), Factor(init), Ruido(init), q);
    }
  }

  /** Ratios between consecutive values of a series. */
  function Razones(xs: seq<real>): seq<real>
    requires Positivos(xs)
  {
    if |xs| <= 1 then [] else seq(|xs| - 1, i requires 0 <= i < |xs| - 1 => Over(xs[i + 1], xs[i]))
  }

  function Inverso(x: real): real {
    if x == 0.0 then 0.0 else Over(1.0, x)
  }

  lemma {:induction false} RazonesInicio(xs: seq<real>)
    requires Positivos(xs) && |xs| > 1
    ensures var n := |xs| - 1;
            Razones(xs) == Razones(xs[..n]) + [Over(xs[n], xs[n - 1])]
  {
  }

  lemma {:induction false} RazonesPositivas(xs: seq<real>)
    requires Positivos(xs)
    ensures Positivos(Razones(xs))
  {
    forall i | 0 <= i < |xs| - 1 ensures Razones(xs)[i] > 0.0 {
      CadenaDeRazones(xs[i], xs[i + 1], 1.0);
    }
  }

  lemma {:induction false} FactorPaso(qs: seq<real>, a: real, b: real, z: real)
    requires a > 0.0 && b > 0.0 && z > 0.0 && Factor(qs) == Over(a, z)
    ensures Factor(qs + [Over(b, a)]) == Over(b, z)
  {
    assert (qs + [Over(b, a)])[..|qs|] == qs;
    CadenaDeRazones(a, b, z);
  }

  /** Consecutive ratios telescope: the exact factor is last over first. */
  lemma {:induction false} FactorTelescopico(xs: seq<real>)
    requires Positivos(xs) && xs != []
    ensures Factor(Razones(xs)) == Over(xs[|xs| - 1], xs[0])
  {
    var n := |xs| - 1;
    OverSelf(xs[0]);
    if n > 0 {
      FactorTelescopico(xs[..n]);
      RazonesInicio(xs);
      FactorPaso(Razones(xs[..n]), xs[n - 1], xs[n], xs[0]);
    }
  }

  lemma {:induction false} RuidoPaso(qs: seq<real>, a: real, b: real, h: real, total: real)
    requires a > 0.0 && b > 0.0 && Ruido(qs) == Times(a, h) && total == h + Inverso(b)
    ensures Ruido(qs + [Over(b, a)]) == Times(b, total)
  {
    assert (qs + [Over(b, a)])[..|qs|] == qs;
    RuidoAlgebra(a, b, h);
  }

  lemma {:induction false} SinRuido(x: real)
    ensures Ruido([]) == Times(x, Total(Inverso, []))
  {
  }

  /** And the amplification is the sum of last over each later value. */
  lemma {:induction false} RuidoTelescopico(xs: seq<real>)
    requires Positivos(xs) && xs != []
    ensures Ruido(Razones(xs)) == Times(xs[|xs| - 1], Total(Inverso, xs[1..]))
  {
    var n := |xs| - 1;
    if n == 0 {
      assert xs[1..] == [];
      SinRuido(xs[0]);
    } else {
      RuidoTelescopico(xs[..n]);
      assert xs[..n][n - 1] == xs[n - 1] && xs[1..][n - 1] == xs[n];
      RazonesInicio(xs);
      TotalStep(Inverso, xs[1..], n - 1);
      assert xs[1..][..n - 1] == xs[..n][1..] && xs[1..][..n] == xs[1..];
      RuidoPaso(Razones(xs[..n]), xs[n - 1], xs[n], Total(Inverso, xs[..n][1..]), Total(Inverso, xs[1..]));
    }
  }

  lemma {:induction false} CadenaDeRazones(a: real, b: real, z: real)
    requires a > 0.0 && b > 0.0 && z > 0.0
    ensures Times(Over(a, z), Over(b, a)) == Over(b, z)
    ensures Over(b, a) > 0.0
  {
    var u, v, w := a / z, b / a, b / z;
    assert u * z == a && v * a == b && w * z == b;
    assert (u * v) * z == v * (u * z);
    assert (u * v - w) * z == 0.0;
  }

  lemma {:induction false} RuidoAlgebra(a: real, b: real, h: real)
    requires a > 0.0 && b > 0.0
    ensures Times(Times(a, h), Over(b, a)) + 1.0 == Times(b, h + Inverso(b))
  {
    var v, i := b / a, 1.0 / b;
    assert v * a == b && i * b == 1.0;
    assert a * h * v == h * (v * a);
    assert b * (h + i) == b * h + b * i;
  }

  // ---------- the accrual ----------

  /** `montoActual * (indice de ajuste / indice base)`, when both values are there. */
  function Ajustada(monto: real, baseIdx: Option<real>, ajusteIdx: Option<real>): real {
    if Utilizable(baseIdx) && Utilizable(ajusteIdx) then ConRazon(monto, Over(ajusteIdx.value, baseIdx.value))
    else monto
  }

  /** Rent accrued in period k. */
  function RentaEn(base: real, ps: seq<Periodo>, indice: Indice, k: nat): real
    requires k < |ps|
  {
    if k == 0 then base
    else Ajustada(RentaEn(base, ps, indice, k - 1), indice(ps[k - 1].start), indice(ps[k - 1].adjustment))
  }

  /** Rent times months, before and after rounding. */
  function RentaPorMes(base: real, ps: seq<Periodo>, indice: Indice): (xs: seq<real>)
    ensures |xs| == |ps|
  {
    seq(|ps|, k requires 0 <= k < |ps| => Times(RentaEn(base, ps, indice, k), MesesDe(ps[k])))
  }

  function Devengado(base: real, fijo: bool, start: Date, end: Date, primerAjuste: Date, indice: Indice): real
    requires Valid(start) && Valid(end) && Valid(primerAjuste)
  {
    if fijo then Round(Times(base, FloorMonths(start, end) as real))
    else Round(Total(Round, RentaPorMes(base, PeriodosDesde(start, primerAjuste, end), indice)))
  }

  /** calculateAccruedAmount. */
  method CalcularDevengado(base: real, fijo: bool, start: Date, end: Date, primerAjuste: Date, indice: Indice)
    returns (total: real)
    requires Valid(start) && Valid(end) && Valid(primerAjuste)
    ensures total == Devengado(base, fijo, start, end, primerAjuste, indice)
  {
    if fijo {
      var meses := FloorMonths(start, end);
      return Round(Times(base, meses as real));
    }
    var ps := CalcularPeriodos(start, end, primerAjuste);
    total := DevengarPeriodos(base, ps, indice);
    total := Round(total);
  }

  method DevengarPeriodos(base: real, ps: seq<Periodo>, indice: Indice) returns (total: real)
    ensures total == Total(Round, RentaPorMes(base, ps, indice))
  {
    ghost var xs := RentaPorMes(base, ps, indice);
    total := 0.0;
    var monto := base;
    for i := 0 to |ps|
      invariant total == Total(Round, xs[..i])
      invariant i < |ps| ==> monto == RentaEn(base, ps, indice, i)
    {
      TotalStep(Round, xs, i);
      total := total + Round(Times(monto, MesesDe(ps[i])));
      if i < |ps| - 1 {
        monto := Ajustada(monto, indice(ps[i].start), indice(ps[i].adjustment));
      }
    }
    assert xs[..|ps|] == xs;
  }

  /** Index values at the start of each period, all of them published and positive. */
  predicate Publicados(ps: seq<Periodo>, indice: Indice) {
    forall i :: 0 <= i < |ps| ==> indice(ps[i].start).Some? && indice(ps[i].start).value > 0.0
  }

  function Valores(ps: seq<Periodo>, indice: Indice): (xs: seq<real>)
    requires Publicados(ps, indice)
    ensures |xs| == |ps| && Positivos(xs)
  {
    seq(|ps|, i requires 0 <= i < |ps| => indice(ps[i].start).value)
  }

  lemma {:induction false} UnAjuste(monto: real, desde: real, hasta: real)
    requires desde > 0.0 && hasta > 0.0
    ensures Ajustada(monto, Some(desde), Some(hasta)) == ConRazon(monto, Over(hasta, desde))
  {
  }

  /** Each period starts where the previous one was adjusted, so the ratios run through the index series. */
  lemma {:induction false} RentaEsCadena(base: real, ps: seq<Periodo>, indice: Indice, k: nat)
    requires Encadenados(ps) && Publicados(ps, indice) && k < |ps|
    ensures RentaEn(base, ps, indice, k) == RentaEnSerie(base, Valores(ps, indice), k)
  {
    if k == 0 {
      SerieInicio(base, Valores(ps, indice));
    } else {
      var xs := Valores(ps, indice);
      RentaEsCadena(base, ps, indice, k - 1);
      SeriePaso(base, xs, k - 1);
      assert ps[k - 1].adjustment == ps[k].start;
      UnAjuste(RentaEn(base, ps, indice, k - 1), xs[k - 1], xs[k]);
    }
  }

  /** A rent within 1/2 * sum of I_k / I_j (j = 1..k) of base * I_k / I_0. */
  predicate SigueAlIndice(base: real, renta: real, xs: seq<real>, k: nat)
    requires Positivos(xs) && k < |xs|
  {
    Abs(renta - Times(base, Over(xs[k], xs[0]))) <= 0.5 * Times(xs[k], Total(Inverso, xs[1..k + 1]))
  }

  /** The rent of period k is base * I_k / I_0 up to half a centavo for each adjustment so far, carried on by
      the later ones: 1/2 * sum of I_k / I_j for j = 1..k. */
  lemma {:induction false} RentaSigueAlIndice(
    base: real, start: Date, primerAjuste: Date, end: Date, indice: Indice, k: nat)
    requires Valid(start) && Valid(end) && Valid(primerAjuste)
    requires var ps := PeriodosDesde(start, primerAjuste, end); Publicados(ps, indice) && k < |ps|
    ensures var ps := PeriodosDesde(start, primerAjuste, end);
            var xs := Valores(ps, indice);
            SigueAlIndice(base, RentaEn(base, ps, indice, k), xs, k)
  {
    PeriodosEncadenados(start, primerAjuste, end);
    RentaDeCadena(base, PeriodosDesde(start, primerAjuste, end), indice, k);
  }

  lemma {:induction false} RentaDeCadena(base: real, ps: seq<Periodo>, indice: Indice, k: nat)
    requires Encadenados(ps) && Publicados(ps, indice) && k < |ps|
    ensures var xs := Valores(ps, indice);
            SigueAlIndice(base, RentaEn(base, ps, indice, k), xs, k)
  {
    RentaEsCadena(base, ps, indice, k);
    CadenaSigueALaSerie(base, Valores(ps, indice), k);
  }

  /** A base taken through the ratios of a series follows the series. */
  lemma {:induction false} CadenaSigueALaSerie(base: real, xs: seq<real>, k: nat)
    requires Positivos(xs) && k < |xs|
    ensures SigueAlIndice(base, RentaEnSerie(base, xs, k), xs, k)
  {
    RazonesPositivas(xs[..k + 1]);
    FactorTelescopico(xs[..k + 1]);
    RuidoTelescopico(xs[..k + 1]);
    RedondeoAcumulado(base, Razones(xs[..k + 1]));
    assert xs[..k + 1][1..] == xs[1..k + 1];
  }

  lemma {:induction false} RentaEntera(base: real, ps: seq<Periodo>, indice: Indice, k: nat)
    requires Whole(base) && k < |ps|
    ensures Whole(RentaEn(base, ps, indice, k))
  {
    if k > 0 {
      RentaEntera(base, ps, indice, k - 1);
      var b, a := indice(ps[k - 1].start), indice(ps[k - 1].adjustment);
      if Utilizable(b) && Utilizable(a) {
        RoundIsNearest(RentaEn(base, ps, indice, k - 1) * Over(a.value, b.value));
      }
    }
  }

  lemma {:induction false} RentasEnteras(base: real, ps: seq<Periodo>, indice: Indice)
    requires Whole(base)
    ensures forall k :: 0 <= k < |ps| ==> Whole(RentaPorMes(base, ps, indice)[k])
  {
    forall k | 0 <= k < |ps| ensures Whole(RentaPorMes(base, ps, indice)[k]) {
      RentaEntera(base, ps, indice, k);
      WholeTimes(RentaEn(base, ps, indice, k), ps[k].months);
    }
  }

  lemma {:induction false} SumaSinRedondeo(xs: seq<real>)
    requires forall k :: 0 <= k < |xs| ==> Whole(xs[k])
    ensures Round(Total(Round, xs)) == Total(Same, xs)
  {
    forall k | 0 <= k < |xs| ensures Round(xs[k]) == xs[k] { RoundWhole(xs[k]); }
    TotalEq(Round, xs, Same, xs);
    TotalWhole(Same, xs);
    RoundWhole(Total(Same, xs));
  }

  /** From a whole-centavo base rent the accrued total is exactly the sum of rent times months. */
  lemma {:induction false} DevengadoExacto(base: real, start: Date, end: Date, primerAjuste: Date, indice: Indice)
    requires Whole(base) && Valid(start) && Valid(end) && Valid(primerAjuste)
    ensures Devengado(base, false, start, end, primerAjuste, indice) ==
            Total(Same, RentaPorMes(base, PeriodosDesde(start, primerAjuste, end), indice))
  {
    var ps := PeriodosDesde(start, primerAjuste, end);
    RentasEnteras(base, ps, indice);
    SumaSinRedondeo(RentaPorMes(base, ps, indice));
  }

  lemma {:induction false} RentaConstante(base: real, ps: seq<Periodo>, indice: Indice, v: real, k: nat)
    requires Whole(base) && k < |ps| && (forall d :: indice(d) == Some(v)) && v != 0.0
    ensures RentaEn(base, ps, indice, k) == base
  {
    if k > 0 {
      RentaConstante(base, ps, indice, v, k - 1);
      OverSelf(v);
      RoundWhole(base);
    }
  }

  lemma {:induction false} DevengadoConstante(base: real, ps: seq<Periodo>, indice: Indice, v: real)
    requires Whole(base) && (forall d :: indice(d) == Some(v)) && v != 0.0
    ensures Total(Same, RentaPorMes(base, ps, indice)) == Times(base, Total(MesesDe, ps))
  {
    var ys := RentaPorMes(base, ps, indice);
    forall k | 0 <= k < |ps| ensures ys[k] == Times(base, MesesDe(ps[k])) {
      RentaConstante(base, ps, indice, v, k);
    }
    TotalScale(Same, ys, base, MesesDe, ps);
  }

  lemma {:induction false} TimesInjective(base: real, m: real, n: real)
    requires base > 0.0
    ensures Times(base, m) == Times(base, n) <==> m == n
  {
    if m != n { assert base * (m - n) != 0.0; }
  }

  /** With an index that never moves the indexed accrual is the FIJO one, exactly when no adjustment is dated
      before the start. */
  lemma {:induction false} IndiceConstanteEsFijo(
    base: real, start: Date, end: Date, primerAjuste: Date, indice: Indice, v: real)
    requires Whole(base) && base > 0.0 && (forall d :: indice(d) == Some(v)) && v != 0.0
    requires Alineadas(start, primerAjuste, end) && Before(start, end)
    ensures Devengado(base, false, start, end, primerAjuste, indice) ==
            Devengado(base, true, start, end, primerAjuste, indice)
            <==> !Before(primerAjuste, start)
  {
    var ps := PeriodosDesde(start, primerAjuste, end);
    DevengadoExacto(base, start, end, primerAjuste, indice);
    DevengadoConstante(base, ps, indice, v);
    MesesDelContrato(start, primerAjuste, end);
    var n := FloorMonths(start, end);
    WholeTimes(base, n);
    RoundWhole(Times(base, n as real));
    TimesInjective(base, Total(MesesDe, ps), n as real);
  }

  // ---------- what accrues ----------

  /** A FIJO contract accrues its base for every whole month: the last number of months that, added to the start, does
      not pass the end. */
  lemma {:induction false} DevengadoFijo(base: real, start: Date, end: Date, primerAjuste: Date, indice: Indice, k: int)
    requires Whole(base) && Valid(start) && Valid(end) && Valid(primerAjuste) && NotAfter(start, end)
    requires NotAfter(PlusMonths(start, k), end) && Before(end, PlusMonths(start, k + 1))
    ensures Devengado(base, true, start, end, primerAjuste, indice) == Times(base, k as real)
  {
    MesesUnicos(start, end, k, FloorMonths(start, end));
    WholeTimes(base, k);
    RoundWhole(Times(base, k as real));
  }

  /** A missing or zero index, on either date, leaves the rent as it was. */
  lemma {:induction false} SinIndice(base: real, ps: seq<Periodo>, indice: Indice, k: nat)
    requires k + 1 < |ps|
    requires var b, a := indice(ps[k].start), indice(ps[k].adjustment);
             b == None || a == None || b == Some(0.0) || a == Some(0.0)
    ensures RentaEn(base, ps, indice, k + 1) == RentaEn(base, ps, indice, k)
  {
  }
}
