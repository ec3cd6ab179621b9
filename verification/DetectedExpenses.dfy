/** A detected utility invoice is split over the properties it serves and turned into an entry against the
    provider. */
module DetectedExpenses {
  import opened Common
  import opened Dates
  import opened Entries
  import opened Ledger
  import opened Payments

  /** `Number.EPSILON`, in centavos: the code adds it before rounding. */
  const EPSILON := 100.0 / 4503599627370496.0

  function RedondearConEpsilon(x: real): real {
    Round(x + EPSILON)
  }

  /** A missing or zero percentage counts as none. */
  function Declarado(pct: Option<real>): real {
    match pct
    case Some(v) => v
    case None => 0.0
  }

  /** Equal parts when nothing is declared, the declared parts brought to 100 otherwise. */
  function Porcentajes(pcts: seq<Option<real>>): (xs: seq<real>)
    requires pcts != []
    ensures |xs| == |pcts|
  {
    var total := Total(Declarado, pcts);
    if total == 0.0 then seq(|pcts|, i => Over(100.0, |pcts| as real))
    else seq(|pcts|, i requires 0 <= i < |pcts| => Times(Over(Declarado(pcts[i]), total), 100.0))
  }

  function MontoDeParte(monto: real, pct: real): real {
    RedondearConEpsilon(Times(monto, Over(pct, 100.0)))
  }

  function Propuesta(monto: real, pcts: seq<Option<real>>): (xs: seq<real>)
    requires pcts != []
    ensures |xs| == |pcts|
  {
    var ps := Porcentajes(pcts);
    seq(|ps|, i requires 0 <= i < |ps| => MontoDeParte(monto, ps[i]))
  }

  /** The share loop of processDetectedUtilityInvoices; an invoice with no property gets no proposal. */
  method Prorratear(monto: real, pcts: seq<Option<real>>) returns (r: Option<seq<real>>)
    ensures r == if pcts == [] then None else Some(Propuesta(monto, pcts))
  {
    if pcts == [] { return None; }
    var total := 0.0;
    for i := 0 to |pcts|
      invariant total == Total(Declarado, pcts[..i])
    {
      TotalStep(Declarado, pcts, i);
      if pcts[i].Some? && pcts[i].value != 0.0 { total := total + pcts[i].value; }
    }
    assert pcts[..|pcts|] == pcts;
    var montos := [];
    for i := 0 to |pcts|
      invariant montos == Propuesta(monto, pcts)[..i]
    {
      var pct := if total == 0.0 then Over(100.0, |pcts| as real) else Times(Over(Declarado(pcts[i]), total), 100.0);
      montos := montos + [MontoDeParte(monto, pct)];
    }
    assert Propuesta(monto, pcts)[..|pcts|] == Propuesta(monto, pcts);
    r := Some(montos);
  }

  lemma {:induction false} PorcentajeNormalizado(v: real, total: real)
    requires total != 0.0
    ensures Times(Over(v, total), 100.0) == Times(Over(100.0, total), v)
  {
    var a, b := v / total, 100.0 / total;
    assert a * total == v && b * total == 100.0;
    assert (a * 100.0 - b * v) * total == 0.0;
  }

  lemma {:induction false} SumaConstante(c: real, xs: seq<real>)
    requires forall i :: 0 <= i < |xs| ==> xs[i] == c
    ensures Total(Same, xs) == Times(c, |xs| as real)
  {
    if xs != [] { SumaConstante(c, xs[..|xs| - 1]); }
  }

  /** Declared or not, the percentages of a proposal add up to 100. */
  lemma {:induction false} PorcentajesSuman(pcts: seq<Option<real>>)
    requires pcts != []
    ensures Total(Same, Porcentajes(pcts)) == 100.0
  {
    var xs, total := Porcentajes(pcts), Total(Declarado, pcts);
    if total == 0.0 {
      SumaConstante(Over(100.0, |pcts| as real), xs);
      OverTimes(100.0, |pcts| as real);
    } else {
      forall i | 0 <= i < |xs| ensures xs[i] == Times(Over(100.0, total), Declarado(pcts[i])) {
        PorcentajeNormalizado(Declarado(pcts[i]), total);
      }
      TotalScale(Same, xs, Over(100.0, total), Declarado, pcts);
      OverTimes(100.0, total);
    }
  }

  /** The percentages are in proportion to those declared; when none is declared they are equal. */
  lemma {:induction false} PorcentajesEnProporcion(pcts: seq<Option<real>>, i: nat, j: nat)
    requires i < |pcts| && j < |pcts|
    ensures var xs := Porcentajes(pcts);
            && (Total(Declarado, pcts) != 0.0 ==>
                  Times(xs[i], Declarado(pcts[j])) == Times(xs[j], Declarado(pcts[i])) &&
                  Times(xs[i], Total(Declarado, pcts)) == Times(100.0, Declarado(pcts[i])))
            && (Total(Declarado, pcts) == 0.0 ==> xs[i] == xs[j])
    ensures Declarado(None) == 0.0 && (pcts[i].Some? ==> Declarado(pcts[i]) == pcts[i].value)
  {
    var t := Total(Declarado, pcts);
    if t != 0.0 {
      Proporcionales(Declarado(pcts[i]), Declarado(pcts[j]), t);
    }
  }

  lemma {:induction false} Proporcionales(u: real, v: real, t: real)
    requires t != 0.0
    ensures Times(Times(Over(u, t), 100.0), v) == Times(Times(Over(v, t), 100.0), u)
    ensures Times(Times(Over(u, t), 100.0), t) == Times(100.0, u)
  {
    var a, b := u / t, v / t;
    assert a * t == u && b * t == v;
    assert a * 100.0 * v == a * 100.0 * (b * t) == b * 100.0 * (a * t);
    assert a * 100.0 * t == 100.0 * (a * t);
  }

  lemma {:induction false} UnaParte(monto: real, pct: real)
    ensures Whole(MontoDeParte(monto, pct))
    ensures Abs(MontoDeParte(monto, pct) - Times(Over(monto, 100.0), pct)) <= 0.5 + EPSILON
  {
    RoundIsNearest(Times(monto, Over(pct, 100.0)) + EPSILON);
    assert monto * (pct / 100.0) == monto / 100.0 * pct;
  }

  lemma {:induction false} SumaCercana(xs: seq<real>, ys: seq<real>, k: real, e: real)
    requires |xs| == |ys| && forall i :: 0 <= i < |xs| ==> Abs(xs[i] - Times(k, ys[i])) <= e
    ensures Abs(Total(Same, xs) - Times(k, Total(Same, ys))) <= Times(e, |xs| as real)
  {
    if xs != [] {
      var n := |xs| - 1;
      SumaCercana(xs[..n], ys[..n], k, e);
      TimesAdd(k, Total(Same, ys[..n]), ys[n]);
      TimesAdd(e, n as real, 1.0);
    }
  }

  /** The proposed amounts are whole centavos and add up to the invoice within half a centavo (and the epsilon)
      for each property. */
  lemma {:induction false} PropuestaSuma(monto: real, pcts: seq<Option<real>>)
    requires pcts != []
    ensures Abs(Total(Same, Propuesta(monto, pcts)) - monto) <= Times(0.5 + EPSILON, |pcts| as real)
    ensures forall i :: 0 <= i < |pcts| ==> Whole(Propuesta(monto, pcts)[i])
  {
    var xs, ys := Propuesta(monto, pcts), Porcentajes(pcts);
    forall i | 0 <= i < |pcts|
      ensures Whole(xs[i]) && Abs(xs[i] - Times(Over(monto, 100.0), ys[i])) <= 0.5 + EPSILON
    {
      UnaParte(monto, ys[i]);
    }
    SumaCercana(xs, ys, Over(monto, 100.0), 0.5 + EPSILON);
    PorcentajesSuman(pcts);
    OverTimes(monto, 100.0);
  }

  // ---------- the entry ----------

  function LineaDeGasto(monto: real, agente: Option<string>): Partida {
    Partida(CuentaCodigo("por cobrar"), monto, 0.0, agente, 0.0, 0.0)
  }

  function LineasDeGasto(montos: seq<real>, agentes: seq<Option<string>>): (ps: seq<Partida>)
    requires |montos| == |agentes|
    ensures |ps| == |montos|
  {
    seq(|montos|, i requires 0 <= i < |montos| => LineaDeGasto(montos[i], agentes[i]))
  }

  /** One DEBE per property and one HABER to the provider; the amount of the entry is the invoice's. */
  function AsientoDeGasto(
    monto: real, montos: seq<real>, agentes: seq<Option<string>>, proveedor: string, hoy: Date): Asiento
    requires |montos| == |agentes|
  {
    var total := Total(Same, montos);
    var original := if monto != 0.0 then monto else total;
    Asiento("", GastoServicio, hoy, hoy, 0, Pendiente, original, original,
            LineasDeGasto(montos, agentes) +
            [Partida(CuentaCodigo("por pagar"), 0.0, RedondearConEpsilon(total), Some(proveedor), 0.0, 0.0)], [])
  }

  method CrearAsientoDeGasto(monto: real, montos: seq<real>, agentes: seq<Option<string>>, proveedor: string, hoy: Date)
    returns (a: Asiento)
    requires |montos| == |agentes|
    ensures a == AsientoDeGasto(monto, montos, agentes, proveedor, hoy)
  {
    var partidas: seq<Partida> := [];
    var total := 0.0;
    for i := 0 to |montos|
      invariant partidas == LineasDeGasto(montos, agentes)[..i]
      invariant total == Total(Same, montos[..i])
    {
      TotalStep(Same, montos, i);
      total := total + montos[i];
      partidas := partidas + [LineaDeGasto(montos[i], agentes[i])];
    }
    assert montos[..|montos|] == montos;
    partidas := partidas +
      [Partida(CuentaCodigo("por pagar"), 0.0, RedondearConEpsilon(total), Some(proveedor), 0.0, 0.0)];
    var original := if monto != 0.0 then monto else total;
    a := Asiento("", GastoServicio, hoy, hoy, 0, Pendiente, original, original, partidas, []);
  }

  /** Each part is charged to its own agent, and the provider is due them all. */
  lemma {:induction false} PartesDelGasto(
    monto: real, montos: seq<real>, agentes: seq<Option<string>>, proveedor: string, hoy: Date)
    requires |montos| == |agentes|
    ensures var a := AsientoDeGasto(monto, montos, agentes, proveedor, hoy);
            && a.estado == Pendiente && a.tipo == GastoServicio && a.imputacion == a.vencimiento == hoy
            && a.montoOriginal == a.montoActual == (if monto == 0.0 then Total(Same, montos) else monto)
            && |a.partidas| == |montos| + 1
            && (forall i :: 0 <= i < |montos| ==>
                  && a.partidas[i].agente == agentes[i] && a.partidas[i].debe == montos[i]
                  && a.partidas[i].haber == a.partidas[i].pagado == a.partidas[i].liquidado == 0.0
                  && a.partidas[i].cuenta != a.partidas[|montos|].cuenta)
            && var q := a.partidas[|montos|];
            && q.agente == Some(proveedor) && q.debe == q.pagado == q.liquidado == 0.0
            && Abs(q.haber - Total(Same, montos)) <= 0.5 + EPSILON
  {
    RoundIsNearest(Total(Same, montos) + EPSILON);
  }

  lemma {:induction false} EpsilonNoMueve(w: real)
    requires Whole(w)
    ensures RedondearConEpsilon(w) == w
  {
    RoundUnique(w + EPSILON, w);
  }

  /** From whole centavos the entry balances: the provider is owed exactly what the properties are charged. */
  lemma {:induction false} GastoBalanceado(
    monto: real, montos: seq<real>, agentes: seq<Option<string>>, proveedor: string, hoy: Date)
    requires |montos| == |agentes| && forall i :: 0 <= i < |montos| ==> Whole(montos[i])
    ensures var ps := AsientoDeGasto(monto, montos, agentes, proveedor, hoy).partidas;
            Total(DebeOf, ps) == Total(HaberOf, ps) == Total(Same, montos)
  {
    var lineas := LineasDeGasto(montos, agentes);
    var ultima := AsientoDeGasto(monto, montos, agentes, proveedor, hoy).partidas[|montos|];
    TotalWhole(Same, montos);
    EpsilonNoMueve(Total(Same, montos));
    TotalConcat(DebeOf, lineas, [ultima]);
    TotalConcat(HaberOf, lineas, [ultima]);
    TotalSingle(DebeOf, ultima);
    TotalSingle(HaberOf, ultima);
    TotalEq(DebeOf, lineas, Same, montos);
    TotalZero(HaberOf, lineas);
  }

  /** Paying all that an expense entry has open closes it as collected exactly when the rounded parts do not
      fall short of the invoice. */
  lemma {:induction false} GastoCobrable(
    l: Libro, id: string, cuenta: string,
    monto: real, pcts: seq<Option<real>>, agentes: seq<Option<string>>, proveedor: string, hoy: Date)
    requires pcts != [] && |agentes| == |pcts| && monto > 0.0
    requires id in l.asientos && cuenta in l.cuentas
    requires l.asientos[id] == AsientoDeGasto(monto, Propuesta(monto, pcts), agentes, proveedor, hoy)
    requires DebeAbierto(l.asientos[id].partidas) && LineasOk(l.asientos[id].partidas)
    ensures var saldo := SaldoPendiente(l.asientos[id].partidas);
            && Pagar(l, id, saldo, cuenta).Ok?
            && (Pagar(l, id, saldo, cuenta).value.asientos[id].estado in {Cobrado, Pagado}
                <==> monto <= Total(Same, Propuesta(monto, pcts)))
  {
    PropuestaSuma(monto, pcts);
    GastoBalanceado(monto, Propuesta(monto, pcts), agentes, proveedor, hoy);
    PagoTotalCobra(l, id, cuenta);
  }

  /** One peso over three properties in equal parts: 33 centavos each, one centavo short. */
  lemma {:induction false} TresPartesIguales()
    ensures Total(Same, Propuesta(100.0, [None, None, None])) == 99.0
  {
    var pcts: seq<Option<real>> := [None, None, None];
    TotalZero(Declarado, pcts);
    var p := Over(100.0, 3.0);
    var parte := Times(100.0, Over(p, 100.0));
    assert 33.3 < parte < 33.4;
    WholeInt(33);
    RoundUnique(parte + EPSILON, 33.0);
    SumaConstante(33.0, Propuesta(100.0, pcts));
  }
}
