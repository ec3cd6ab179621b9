/** The linear regression behind the billing projection, and the projection built on it. Points are (0, y0),
    (1, y1), ... */
module Regression {
  import opened Common
  import opened Dates

  // ---------- sums of the points ----------

  function SumX(n: nat): real {
    if n == 0 then 0.0 else SumX(n - 1) + (n - 1) as real
  }

  function SumX2(n: nat): real {
    if n == 0 then 0.0 else SumX2(n - 1) + Times((n - 1) as real, (n - 1) as real)
  }

  function SumXY(ys: seq<real>): real {
    if ys == [] then 0.0 else SumXY(ys[..|ys| - 1]) + Times((|ys| - 1) as real, ys[|ys| - 1])
  }

  function SumY2(ys: seq<real>): real {
    if ys == [] then 0.0 else SumY2(ys[..|ys| - 1]) + Times(ys[|ys| - 1], ys[|ys| - 1])
  }

  function SumY(ys: seq<real>): real {
    Total(Same, ys)
  }

  /** n * sumX2 - sumX^2. */
  function Denominador(n: nat): real {
    Times(n as real, SumX2(n)) - Times(SumX(n), SumX(n))
  }

  lemma {:induction false} SumasCerradas(n: nat)
    ensures 2.0 * SumX(n) == n as real * (n as real - 1.0)
    ensures 6.0 * SumX2(n) == (n as real - 1.0) * n as real * (2.0 * n as real - 1.0)
  {
    if n > 0 {
      SumasCerradas(n - 1);
      var m := (n - 1) as real;
      assert n as real == m + 1.0;
      CerradaX2(m);
      CerradaX(m);
    }
  }

  lemma {:induction false} CerradaX(m: real)
    ensures m * (m - 1.0) + 2.0 * m == (m + 1.0) * m
  {
  }

  lemma {:induction false} CerradaX2(m: real)
    ensures (m - 1.0) * m * (2.0 * m - 1.0) + 6.0 * Times(m, m) == m * (m + 1.0) * (2.0 * (m + 1.0) - 1.0)
  {
  }

  function Bicuadrado(n: real): real {
    n * n * (n * n - 1.0)
  }

  lemma {:induction false} DenominadorCerrado(n: real, x: real, x2: real)
    requires 2.0 * x == n * (n - 1.0) && 6.0 * x2 == (n - 1.0) * n * (2.0 * n - 1.0)
    ensures 12.0 * (Times(n, x2) - Times(x, x)) == Bicuadrado(n)
  {
    var p := n * (n - 1.0);
    assert 4.0 * (x * x) == p * p;
    assert 6.0 * x2 == p * (2.0 * n - 1.0);
    assert 6.0 * (n * x2) == n * (p * (2.0 * n - 1.0));
    assert 12.0 * (n * x2 - x * x) == 2.0 * (n * (p * (2.0 * n - 1.0))) - 3.0 * (p * p);
  }

  lemma {:induction false} BicuadradoPositivo(n: real)
    requires n >= 2.0
    ensures Bicuadrado(n) > 0.0
  {
    assert n * n >= 2.0 * n >= 4.0;
    var s := n * n;
    assert s * (s - 1.0) > 0.0;
  }

  /** Two points or more never make the denominator zero. */
  lemma {:induction false} DenominadorPositivo(n: nat)
    requires n >= 2
    ensures Denominador(n) > 0.0
  {
    SumasCerradas(n);
    DenominadorCerrado(n as real, SumX(n), SumX2(n));
    BicuadradoPositivo(n as real);
  }

  // ---------- the fit ----------

  datatype Recta = Recta(slope: real, intercept: real)

  function Pendiente(ys: seq<real>): real
    requires |ys| >= 2
  {
    DenominadorPositivo(|ys|);
    Over(Times(|ys| as real, SumXY(ys)) - Times(SumX(|ys|), SumY(ys)), Denominador(|ys|))
  }

  function Ordenada(ys: seq<real>): real
    requires |ys| >= 2
  {
    Over(SumY(ys) - Times(Pendiente(ys), SumX(|ys|)), |ys| as real)
  }

  /** calculateLinearRegression: fewer than two points give the zero line. */
  method RegresionLineal(ys: seq<real>) returns (r: Recta)
    ensures |ys| < 2 ==> r == Recta(0.0, 0.0)
    ensures |ys| >= 2 ==> r == Recta(Pendiente(ys), Ordenada(ys))
  {
    var n := |ys|;
    if n < 2 { return Recta(0.0, 0.0); }
    var sumX, sumY, sumXY, sumX2 := 0.0, 0.0, 0.0, 0.0;
    for i := 0 to n
      invariant sumX == SumX(i) && sumX2 == SumX2(i)
      invariant sumY == SumY(ys[..i]) && sumXY == SumXY(ys[..i])
    {
      assert ys[..i + 1][..i] == ys[..i];
      var x, y := i as real, ys[i];
      sumX := sumX + x;
      sumY := sumY + y;
      sumXY := sumXY + Times(x, y);
      sumX2 := sumX2 + Times(x, x);
    }
    assert ys[..n] == ys;
    DenominadorPositivo(n);
    var slope := Over(Times(n as real, sumXY) - Times(sumX, sumY), Times(n as real, sumX2) - Times(sumX, sumX));
    var intercept := Over(sumY - Times(slope, sumX), n as real);
    r := Recta(slope, intercept);
  }

  function Cuadrado(x: real): real {
    x * x
  }

  /** Sum of the squared vertical distances to a line. */
  function ErrorCuadratico(ys: seq<real>, r: Recta): real {
    if ys == [] then 0.0
    else
      var i := |ys| - 1;
      ErrorCuadratico(ys[..i], r) + Cuadrado(ys[i] - (Times(r.slope, i as real) + r.intercept))
  }

  /** The error as a polynomial in slope and intercept. */
  function ErrorDesarrollado(n: real, x: real, x2: real, y: real, xy: real, y2: real, r: Recta): real {
    var m, b := r.slope, r.intercept;
    y2 - 2.0 * Times(m, xy) - 2.0 * Times(b, y) + Times(m * m, x2) + 2.0 * Times(m * b, x) + Times(b * b, n)
  }

  lemma {:induction false} UnPuntoMas(
    n: real, x: real, x2: real, y: real, xy: real, y2: real, r: Recta, v: real,
    n': real, x': real, x2': real, y': real, xy': real, y2': real)
    requires n' == n + 1.0 && x' == x + n && x2' == x2 + Times(n, n)
    requires y' == y + v && xy' == xy + Times(n, v) && y2' == y2 + Times(v, v)
    ensures ErrorDesarrollado(n', x', x2', y', xy', y2', r) ==
            ErrorDesarrollado(n, x, x2, y, xy, y2, r) + Cuadrado(v - (Times(r.slope, n) + r.intercept))
  {
    var m, b := r.slope, r.intercept;
    TimesAdd(m, xy, Times(n, v));
    TimesAdd(b, y, v);
    TimesAdd(m * m, x2, Times(n, n));
    TimesAdd(m * b, x, n);
    TimesAdd(b * b, n, 1.0);
    CuadradoDesarrollado(m, b, n, v);
  }

  lemma {:induction false} CuadradoDesarrollado(m: real, b: real, n: real, v: real)
    ensures Cuadrado(v - (Times(m, n) + b)) ==
            Times(v, v) - 2.0 * Times(m, Times(n, v)) - 2.0 * Times(b, v)
            + Times(m * m, Times(n, n)) + 2.0 * Times(m * b, n) + Times(b * b, 1.0)
  {
    assert Cuadrado(v - (m * n + b)) ==
           v * v - 2.0 * m * (n * v) - 2.0 * b * v + m * m * (n * n) + 2.0 * m * b * n + b * b;
  }

  function Desarrollado(ys: seq<real>, r: Recta): real {
    ErrorDesarrollado(|ys| as real, SumX(|ys|), SumX2(|ys|), SumY(ys), SumXY(ys), SumY2(ys), r)
  }

  lemma {:induction false} DesarrolladoPaso(ys: seq<real>, r: Recta)
    requires ys != []
    ensures var i := |ys| - 1;
            Desarrollado(ys, r) ==
            Desarrollado(ys[..i], r) + Cuadrado(ys[i] - (Times(r.slope, i as real) + r.intercept))
  {
    var i := |ys| - 1;
    var init := ys[..i];
    UnPuntoMas(i as real, SumX(i), SumX2(i), SumY(init), SumXY(init), SumY2(init), r, ys[i],
               |ys| as real, SumX(|ys|), SumX2(|ys|), SumY(ys), SumXY(ys), SumY2(ys));
  }

  lemma {:induction false} ErrorEnSumas(ys: seq<real>, r: Recta)
    ensures ErrorCuadratico(ys, r) == Desarrollado(ys, r)
  {
    if ys != [] {
      ErrorEnSumas(ys[..|ys| - 1], r);
      DesarrolladoPaso(ys, r);
    }
  }

  /** The normal equations, from the two formulas of the code. */
  lemma {:induction false} EcuacionesNormales(n: real, x: real, x2: real, y: real, xy: real, m: real, b: real)
    requires n > 0.0
    requires Times(m, Times(n, x2) - Times(x, x)) == Times(n, xy) - Times(x, y)
    requires Times(b, n) == y - Times(m, x)
    ensures m * x + b * n == y
    ensures m * x2 + b * x == xy
  {
    assert (b * n) * x == (y - m * x) * x;
    assert n * (m * x2 + b * x - xy) == (m * (n * x2 - x * x) - (n * xy - x * y)) + ((b * n) * x - (y - m * x) * x);
    assert n * (m * x2 + b * x - xy) == 0.0;
  }

  /** Off the fitted line the error grows by a quadratic form in the two differences. */
  lemma {:induction false} ErrorPorEncima(
    n: real, x: real, x2: real, y: real, xy: real, y2: real, a: Recta, r: Recta)
    requires a.slope * x + a.intercept * n == y && a.slope * x2 + a.intercept * x == xy
    ensures var u, w := r.slope - a.slope, r.intercept - a.intercept;
            ErrorDesarrollado(n, x, x2, y, xy, y2, r) - ErrorDesarrollado(n, x, x2, y, xy, y2, a) ==
            u * u * x2 + 2.0 * u * w * x + w * w * n
  {
    var m, b, u, w := a.slope, a.intercept, r.slope - a.slope, r.intercept - a.intercept;
    assert r.slope == m + u && r.intercept == b + w;
    assert ErrorDesarrollado(n, x, x2, y, xy, y2, r) - ErrorDesarrollado(n, x, x2, y, xy, y2, a) ==
      -2.0 * u * xy - 2.0 * w * y + 2.0 * m * u * x2 + u * u * x2 + 2.0 * (m * w + u * b + u * w) * x
      + 2.0 * b * w * n + w * w * n;
    assert -2.0 * u * xy == -2.0 * u * (m * x2 + b * x);
    assert -2.0 * w * y == -2.0 * w * (m * x + b * n);
  }

  lemma {:induction false} FormaDefinida(n: real, x: real, x2: real, u: real, w: real)
    requires n > 0.0 && Times(n, x2) - Times(x, x) > 0.0
    ensures var q := u * u * x2 + 2.0 * u * w * x + w * w * n;
            q >= 0.0 && (q == 0.0 <==> u == 0.0 && w == 0.0)
  {
    var q, d, t := u * u * x2 + 2.0 * u * w * x + w * w * n, Times(n, x2) - Times(x, x), Times(w, n) + Times(u, x);
    assert n * q == t * t + u * u * d;
    SumaDeCuadrados(n, q, t, u, d);
    ProductoNulo(w, n);
    ProductoNulo(u, x);
  }

  lemma {:induction false} SumaDeCuadrados(n: real, q: real, t: real, u: real, d: real)
    requires n > 0.0 && d > 0.0 && n * q == t * t + u * u * d
    ensures q >= 0.0
    ensures q == 0.0 ==> t == 0.0 && u == 0.0
  {
    var uu, tt := Times(u, u), Times(t, t);
    assert tt >= 0.0 && uu >= 0.0;
    assert Times(uu, d) >= 0.0;
    if q < 0.0 { ProductoNegativo(n, q); }
    ProductoNulo(uu, d);
    ProductoNulo(u, u);
    ProductoNulo(t, t);
  }

  lemma {:induction false} ProductoNegativo(a: real, b: real)
    requires a > 0.0 && b < 0.0
    ensures a * b < 0.0
  {
  }

  lemma {:induction false} ProductoNulo(a: real, b: real)
    ensures Times(a, b) == 0.0 <==> a == 0.0 || b == 0.0
  {
  }

  lemma {:induction false} MinimoDeLasSumas(
    n: real, x: real, x2: real, y: real, xy: real, y2: real, a: Recta, r: Recta)
    requires n > 0.0 && Times(n, x2) - Times(x, x) > 0.0
    requires Times(a.slope, Times(n, x2) - Times(x, x)) == Times(n, xy) - Times(x, y)
    requires Times(a.intercept, n) == y - Times(a.slope, x)
    ensures var ea, er := ErrorDesarrollado(n, x, x2, y, xy, y2, a), ErrorDesarrollado(n, x, x2, y, xy, y2, r);
            ea <= er && (er == ea <==> r == a)
  {
    EcuacionesNormales(n, x, x2, y, xy, a.slope, a.intercept);
    ErrorPorEncima(n, x, x2, y, xy, y2, a, r);
    FormaDefinida(n, x, x2, r.slope - a.slope, r.intercept - a.intercept);
  }

  lemma {:induction false} MinimoDesarrollado(ys: seq<real>, r: Recta)
    requires |ys| >= 2
    ensures var a := Recta(Pendiente(ys), Ordenada(ys));
            Desarrollado(ys, a) <= Desarrollado(ys, r) && (Desarrollado(ys, r) == Desarrollado(ys, a) <==> r == a)
  {
    DenominadorPositivo(|ys|);
    OverTimes(Times(|ys| as real, SumXY(ys)) - Times(SumX(|ys|), SumY(ys)), Denominador(|ys|));
    OverTimes(SumY(ys) - Times(Pendiente(ys), SumX(|ys|)), |ys| as real);
    MinimoDeLasSumas(|ys| as real, SumX(|ys|), SumX2(|ys|), SumY(ys), SumXY(ys), SumY2(ys),
                     Recta(Pendiente(ys), Ordenada(ys)), r);
  }

  /** The fit minimises the squared error over all lines, and no other line does as well. */
  lemma {:induction false} MinimosCuadrados(ys: seq<real>, r: Recta)
    requires |ys| >= 2
    ensures var a := Recta(Pendiente(ys), Ordenada(ys));
            && ErrorCuadratico(ys, a) <= ErrorCuadratico(ys, r)
            && (ErrorCuadratico(ys, r) == ErrorCuadratico(ys, a) <==> r == a)
  {
    ErrorEnSumas(ys, Recta(Pendiente(ys), Ordenada(ys)));
    ErrorEnSumas(ys, r);
    MinimoDesarrollado(ys, r);
  }

  // ---------- the projection ----------

  predicate Lineal(ys: seq<real>, r: Recta) {
    forall i :: 0 <= i < |ys| ==> ys[i] == Times(r.slope, i as real) + r.intercept
  }

  lemma {:induction false} SinError(ys: seq<real>, r: Recta)
    requires Lineal(ys, r)
    ensures ErrorCuadratico(ys, r) == 0.0
  {
    if ys != [] { SinError(ys[..|ys| - 1], r); }
  }

  lemma {:induction false} CuadradoNoNegativo(x: real)
    ensures Cuadrado(x) >= 0.0
  {
  }

  lemma {:induction false} ErrorNoNegativo(ys: seq<real>, r: Recta)
    ensures ErrorCuadratico(ys, r) >= 0.0
  {
    if ys != [] {
      var i := |ys| - 1;
      ErrorNoNegativo(ys[..i], r);
      CuadradoNoNegativo(ys[i] - (Times(r.slope, i as real) + r.intercept));
    }
  }

  /** Data on a line is fitted by that line. */
  lemma {:induction false} AjusteExacto(ys: seq<real>, r: Recta)
    requires |ys| >= 2 && Lineal(ys, r)
    ensures Recta(Pendiente(ys), Ordenada(ys)) == r
  {
    SinError(ys, r);
    ErrorNoNegativo(ys, Recta(Pendiente(ys), Ordenada(ys)));
    MinimosCuadrados(ys, r);
  }

  /** One projected month: the last value of the series, which after the first is itself a projection. */
  function Proyectado(serie: seq<real>, slope: real, i: nat): real
    requires serie != []
  {
    Round(Max(0.0, serie[|serie| - 1] + Times(slope, i as real)))
  }

  function Proyeccion(serie: seq<real>, slope: real, i: nat): (r: seq<real>)
    requires serie != []
    ensures |r| == |serie| + i && r[..|serie|] == serie
  {
    if i == 0 then serie
    else
      var previa := Proyeccion(serie, slope, i - 1);
      previa + [Proyectado(previa, slope, i)]
  }

  /** The projection loop of getBillingProjection: three months after the series. */
  method Proyectar(serie: seq<real>) returns (r: seq<real>)
    requires |serie| >= 2
    ensures r == Proyeccion(serie, Pendiente(serie), 3)
  {
    var recta := RegresionLineal(serie);
    r := serie;
    for i := 1 to 4
      invariant r == Proyeccion(serie, recta.slope, i - 1)
    {
      var valor := Proyectado(r, recta.slope, i);
      r := r + [valor];
    }
  }

  lemma {:induction false} Extremo(serie: seq<real>, slope: real, i: nat)
    requires serie != [] && i > 0
    ensures var previa := Proyeccion(serie, slope, i - 1);
            && Proyeccion(serie, slope, i) == previa + [Proyectado(previa, slope, i)]
            && |previa| == |serie| + i - 1
  {
  }

  /** The three months, each the one before plus the slope times months ahead. */
  lemma {:induction false} TresMeses(serie: seq<real>, slope: real)
    requires serie != []
    ensures var r, n, k := Proyeccion(serie, slope, 3), |serie|, slope;
            && r[..n] == serie
            && r[n] == Round(Max(0.0, r[n - 1] + k))
            && r[n + 1] == Round(Max(0.0, r[n] + 2.0 * k))
            && r[n + 2] == Round(Max(0.0, r[n + 1] + 3.0 * k))
  {
    Extremo(serie, slope, 1);
    Extremo(serie, slope, 2);
    Extremo(serie, slope, 3);
    Multiplos(slope);
  }

  lemma {:induction false} Multiplos(k: real)
    ensures Times(k, 1 as real) == k && Times(k, 2 as real) == 2.0 * k && Times(k, 3 as real) == 3.0 * k
  {
  }

  lemma {:induction false} TresEnteros(u: real, k: real, v: real, w: real, z: real)
    requires Whole(u) && Whole(k) && u >= 0.0
    requires v == Round(Max(0.0, u + k)) && w == Round(Max(0.0, v + 2.0 * k)) && z == Round(Max(0.0, w + 3.0 * k))
    ensures v == Max(0.0, u + k) && w == Max(0.0, u + 3.0 * k) && z == Max(0.0, u + 6.0 * k)
  {
    MesProyectado(u + k);
    MesProyectado(v + 2.0 * k);
    WholeAdd(u, k);
    WholeAdd(k, k);
    WholeAdd(k + k, k);
    WholeAdd(v, k + k);
    WholeAdd(w, k + k + k);
    assert v + 2.0 * k == v + (k + k) && w + 3.0 * k == w + (k + k + k);
    MesEntero(u + k);
    MesEntero(v + 2.0 * k);
    MesEntero(w + 3.0 * k);
  }

  /** On linear data with whole last value and slope that has not fallen below zero the months ahead are last + s,
      last + 3s and last + 6s, or zero where that is negative: the slope is counted again from each projected
      month. */
  lemma {:induction false} ProyeccionEntera(serie: seq<real>, recta: Recta)
    requires |serie| >= 2 && Lineal(serie, recta) && Whole(recta.slope)
    requires Whole(serie[|serie| - 1]) && serie[|serie| - 1] >= 0.0
    ensures var r, u, k := Proyeccion(serie, Pendiente(serie), 3), serie[|serie| - 1], recta.slope;
            r == serie + [Max(0.0, u + k), Max(0.0, u + 3.0 * k), Max(0.0, u + 6.0 * k)]
  {
    AjusteExacto(serie, recta);
    var n, k, r := |serie|, recta.slope, Proyeccion(serie, recta.slope, 3);
    TresMeses(serie, k);
    assert r[n - 1] == serie[n - 1];
    TresEnteros(r[n - 1], k, r[n], r[n + 1], r[n + 2]);
    assert r == r[..n] + [r[n], r[n + 1], r[n + 2]];
  }

  /** The announced last value plus slope times months ahead, which is the line going on, comes out exactly for a
      flat series at a whole amount that is not negative. */
  lemma {:induction false} ProyeccionLineal(serie: seq<real>, recta: Recta)
    requires |serie| >= 2 && Lineal(serie, recta)
    ensures Lineal(Proyeccion(serie, Pendiente(serie), 3), recta) <==>
            recta.slope == 0.0 && recta.intercept >= 0.0 && Whole(recta.intercept)
  {
    AjusteExacto(serie, recta);
    var n, k, a := |serie|, recta.slope, recta.intercept;
    var r := Proyeccion(serie, k, 3);
    TresMeses(serie, k);
    assert r[n - 1] == serie[n - 1];
    Continuacion(k, (n - 1) as real);
    if Lineal(r, recta) {
      assert r[n - 1] == Times(k, (n - 1) as real) + a;
      assert r[n] == Times(k, n as real) + a;
      assert r[n + 1] == Times(k, (n + 1) as real) + a;
      assert r[n + 2] == Times(k, (n + 2) as real) + a;
      SoloPlana(r[n - 1], k, r[n], r[n + 1], r[n + 2]);
      assert Times(k, n as real) == 0.0;
    }
    if k == 0.0 && a >= 0.0 && Whole(a) {
      RoundWhole(a);
      forall i | 0 <= i < |r| ensures r[i] == Times(k, i as real) + a {
        assert Times(k, i as real) == 0.0;
        if i < n { assert r[i] == serie[i]; }
      }
    }
  }

  lemma {:induction false} Continuacion(k: real, x: real)
    ensures Times(k, x + 1.0) == Times(k, x) + k
    ensures Times(k, x + 2.0) == Times(k, x) + 2.0 * k
    ensures Times(k, x + 3.0) == Times(k, x) + 3.0 * k
  {
  }

  /** Projected months on the line through u are whole, so its slope is; then none is rounded, and a slope that
      is counted again stays on the line only if it is zero. */
  lemma {:induction false} SoloPlana(u: real, k: real, v: real, w: real, z: real)
    requires v == Round(Max(0.0, u + k)) == u + k
    requires w == Round(Max(0.0, v + 2.0 * k)) == u + 2.0 * k
    requires z == Round(Max(0.0, w + 3.0 * k)) == u + 3.0 * k
    ensures k == 0.0 && u >= 0.0 && Whole(u)
  {
    MesProyectado(u + k);
    MesProyectado(v + 2.0 * k);
    WholeAdd(w, v);
    WholeAdd(w, k);
    WholeAdd(w + k, k);
    WholeAdd(w + k + k, k);
    assert v + 2.0 * k == w + k && w + 3.0 * k == w + k + k + k;
    MesEntero(v + 2.0 * k);
    MesEntero(w + 3.0 * k);
  }

  lemma {:induction false} MesProyectado(x: real)
    ensures Whole(Round(Max(0.0, x))) && Round(Max(0.0, x)) >= 0.0
  {
    RoundIsNearest(Max(0.0, x));
  }

  lemma {:induction false} MesEntero(x: real)
    requires Whole(x)
    ensures Round(Max(0.0, x)) == Max(0.0, x)
  {
    WholeInt(0);
    RoundWhole(Max(0.0, x));
  }

  // ---------- the monthly series ----------

  /** A contract as the projection reads it. */
  datatype Facturado = Facturado(inicio: Date, fin: Date, monto: real)

  predicate Activo(c: Facturado, mes: Date) {
    NotAfter(c.inicio, mes) && NotAfter(mes, c.fin)
  }

  /** What a contract bills on a date. */
  function Factura(mes: Date): Facturado -> real {
    (c: Facturado) => if Activo(c, mes) then c.monto else 0.0
  }

  /** Today less 11, 10, ..., 0 months. */
  function Mes(hoy: Date, i: nat): Date {
    PlusMonths(hoy, i - 11)
  }

  function Serie(contratos: seq<Facturado>, hoy: Date): (xs: seq<real>)
    ensures |xs| == 12
  {
    seq(12, i requires 0 <= i < 12 => Total(Factura(Mes(hoy, i)), contratos))
  }

  method IngresosDelMes(contratos: seq<Facturado>, mes: Date) returns (total: real)
    ensures total == Total(Factura(mes), contratos)
  {
    total := 0.0;
    for i := 0 to |contratos|
      invariant total == Total(Factura(mes), contratos[..i])
    {
      TotalStep(Factura(mes), contratos, i);
      if Activo(contratos[i], mes) { total := total + contratos[i].monto; }
    }
    assert contratos[..|contratos|] == contratos;
  }

  method SerieMensual(contratos: seq<Facturado>, hoy: Date) returns (serie: seq<real>)
    ensures serie == Serie(contratos, hoy)
  {
    serie := [];
    for i := 0 to 12
      invariant serie == Serie(contratos, hoy)[..i]
    {
      var ingresos := IngresosDelMes(contratos, Mes(hoy, i));
      serie := serie + [ingresos];
    }
  }

  /** getBillingProjection: twelve months of billing and three projected. */
  method ProyectarFacturacion(contratos: seq<Facturado>, hoy: Date) returns (r: seq<real>)
    ensures var serie := Serie(contratos, hoy); r == Proyeccion(serie, Pendiente(serie), 3)
  {
    var serie := SerieMensual(contratos, hoy);
    r := Proyectar(serie);
  }

  /** One for each of the twelve dates on which the contract is active. */
  function Presencias(c: Facturado, hoy: Date): (xs: seq<real>)
    ensures |xs| == 12
  {
    seq(12, i requires 0 <= i < 12 => if Activo(c, Mes(hoy, i)) then 1.0 else 0.0)
  }

  function Facturacion(hoy: Date): Facturado -> real {
    (c: Facturado) => Times(c.monto, Total(Same, Presencias(c, hoy)))
  }

  /** The series adds up to what each contract bills: its amount once for each month it is active. */
  lemma {:induction false} SerieSuma(contratos: seq<Facturado>, hoy: Date)
    ensures Total(Same, Serie(contratos, hoy)) == Total(Facturacion(hoy), contratos)
  {
    if contratos == [] {
      TotalZero(Same, Serie(contratos, hoy));
    } else {
      var n := |contratos| - 1;
      var c, uno := contratos[n], Serie([contratos[n]], hoy);
      SerieSuma(contratos[..n], hoy);
      forall i | 0 <= i < 12
        ensures Same(uno[i]) == Times(c.monto, Same(Presencias(c, hoy)[i]))
      {
        TotalSingle(Factura(Mes(hoy, i)), c);
      }
      TotalAdd(Same, Serie(contratos, hoy), Same, Serie(contratos[..n], hoy), Same, uno);
      TotalScale(Same, uno, c.monto, Same, Presencias(c, hoy));
    }
  }

  /** The last month of the series is this one and each one before it a month earlier, on the same day or the last of
      the month; a month bills the contracts that have started by its date and not ended before it. */
  lemma {:induction false} SerieEnFechas(contratos: seq<Facturado>, c: Facturado, hoy: Date, i: nat)
    requires Valid(hoy) && i < 12
    ensures Mes(hoy, 11) == hoy && Valid(Mes(hoy, i)) && Mes(hoy, i).month == hoy.month - 11 + i
    ensures var mes := Date(hoy.month - 11 + i, if hoy.day <= DaysIn(hoy.month - 11 + i) then hoy.day
                                                else DaysIn(hoy.month - 11 + i));
            Serie(contratos + [c], hoy)[i] == Serie(contratos, hoy)[i] +
              (if Before(mes, c.inicio) || Before(c.fin, mes) then 0.0 else c.monto)
  {
    TotalConcat(Factura(Mes(hoy, i)), contratos, [c]);
    TotalSingle(Factura(Mes(hoy, i)), c);
  }
}
