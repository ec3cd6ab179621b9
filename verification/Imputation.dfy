/** How an amount is spread over the lines of an entry. Each loop of the service works in place on the
    lines; it is proved against a closed form that gives every line's share from the lines before it. */
module Imputation {
  import opened Common
  import opened Entries

  // ---------- collecting: front-to-back fill of the DEBE lines ----------

  /** Share of `monto` that line i takes: what the earlier open lines leave, up to its own debt. */
  function Imputado(ps: seq<Partida>, monto: real, i: nat): real
    requires i < |ps|
  {
    Min(Deuda(ps[i]), Max(0.0, monto - Total(Deuda, ps[..i])))
  }

  function Imputados(ps: seq<Partida>, monto: real): (xs: seq<real>)
    ensures |xs| == |ps|
  {
    seq(|ps|, i requires 0 <= i < |ps| => Imputado(ps, monto, i))
  }

  function Imputar(ps: seq<Partida>, monto: real): (qs: seq<Partida>)
    ensures |qs| == |ps|
  {
    seq(|ps|, i requires 0 <= i < |ps| => ps[i].(pagado := ps[i].pagado + Imputado(ps, monto, i)))
  }

  /** One line of the collection loop. */
  method ImputarLinea(partidas: array<Partida>, n: nat, restante: real) returns (monto: real)
    requires n < partidas.Length
    modifies partidas
    ensures monto == Min(Deuda(old(partidas[n])), Max(0.0, restante))
    ensures partidas[..] == old(partidas[..])[n := old(partidas[n]).(pagado := old(partidas[n]).pagado + monto)]
  {
    monto := 0.0;
    var partida := partidas[n];
    if partida.debe > 0.0 && restante > 0.0 {
      var deudaPartida := partida.debe - partida.pagado;
      if deudaPartida > 0.0 {
        monto := Min(restante, deudaPartida);
        partidas[n] := partida.(pagado := partida.pagado + monto);
      }
    }
  }

  /** The collection loop of registerPayment and condonarDeuda. */
  method ImputarEnDebe(partidas: array<Partida>, monto: real)
    modifies partidas
    ensures partidas[..] == Imputar(old(partidas[..]), monto)
  {
    ghost var ps := partidas[..];
    ghost var qs := Imputar(ps, monto);
    var restante := monto;
    for i := 0 to partidas.Length
      invariant partidas[..] == qs[..i] + ps[i..]
      invariant Max(0.0, restante) == Max(0.0, monto - Total(Deuda, ps[..i]))
    {
      TotalStep(Deuda, ps, i);
      ghost var antes := partidas[..];
      assert partidas[i] == antes[i] == ps[i];
      var aImputar := ImputarLinea(partidas, i, restante);
      assert partidas[..] == antes[i := qs[i]];
      Advance(qs, ps, i);
      restante := restante - aImputar;
    }
    assert qs[..|ps|] == qs;
  }

  /** What a prefix takes in all: the whole amount, or its whole debt when that is less. */
  lemma {:induction false} TotalImputado(ps: seq<Partida>, monto: real, n: nat)
    requires n <= |ps|
    ensures Total(Same, Imputados(ps, monto)[..n]) == Min(Max(0.0, monto), Total(Deuda, ps[..n]))
  {
    if n > 0 {
      TotalNonNegative(Deuda, ps[..n - 1]);
      TotalImputado(ps, monto, n - 1);
      TotalStep(Same, Imputados(ps, monto), n - 1);
      TotalStep(Deuda, ps, n - 1);
    }
  }

  /** The imputed part of `monto` is all that the paid totals grow by. */
  lemma {:induction false} ImputarSuma(ps: seq<Partida>, monto: real)
    ensures Total(PagadoOf, Imputar(ps, monto)) == Total(PagadoOf, ps) + Min(Max(0.0, monto), Total(Deuda, ps))
    ensures Total(PagadoEnDebe, Imputar(ps, monto)) ==
            Total(PagadoEnDebe, ps) + Min(Max(0.0, monto), Total(Deuda, ps))
  {
    var xs := Imputados(ps, monto);
    assert xs[..|ps|] == xs && ps[..|ps|] == ps;
    TotalImputado(ps, monto, |ps|);
    TotalAdd(PagadoOf, Imputar(ps, monto), PagadoOf, ps, Same, xs);
    TotalAdd(PagadoEnDebe, Imputar(ps, monto), PagadoEnDebe, ps, Same, xs);
  }

  lemma {:induction false} ImputarConserva(ps: seq<Partida>, monto: real)
    requires LineasOk(ps)
    ensures LineasOk(Imputar(ps, monto))
  {
  }

  /** What the lines before n still owe after the fill. */
  lemma {:induction false} DeudaTrasImputar(ps: seq<Partida>, monto: real, n: nat)
    requires n <= |ps|
    ensures Total(Deuda, Imputar(ps, monto)[..n]) ==
            Total(Deuda, ps[..n]) - Min(Max(0.0, monto), Total(Deuda, ps[..n]))
  {
    var xs := Imputados(ps, monto);
    TotalImputado(ps, monto, n);
    TotalAdd(Deuda, ps[..n], Deuda, Imputar(ps, monto)[..n], Same, xs[..n]);
  }

  /** Two fills in a row are one fill of the sum, line by line. */
  lemma {:induction false} ImputarComposicion(ps: seq<Partida>, a: real, b: real)
    requires 0.0 <= a && 0.0 <= b
    ensures Imputar(Imputar(ps, a), b) == Imputar(ps, a + b)
  {
    var qs := Imputar(ps, a);
    forall i | 0 <= i < |ps|
      ensures Imputar(qs, b)[i] == Imputar(ps, a + b)[i]
    {
      DeudaTrasImputar(ps, a, i);
      TotalNonNegative(Deuda, ps[..i]);
      assert Deuda(qs[i]) == Deuda(ps[i]) - Imputado(ps, a, i);
    }
  }

  // ---------- settling: the agent's HABER lines up to a request, its DEBE lines in full ----------

  predicate HaberDe(agente: string, p: Partida) {
    p.haber > 0.0 && p.agente == Some(agente)
  }

  predicate DebeDe(agente: string, p: Partida) {
    p.debe > 0.0 && p.agente == Some(agente)
  }

  predicate TieneLineas(ps: seq<Partida>, agente: string) {
    exists i :: 0 <= i < |ps| && (HaberDe(agente, ps[i]) || DebeDe(agente, ps[i]))
  }

  /** Open credit of a line in favour of the agent. */
  function Disponible(agente: string): Partida -> real {
    p => if HaberDe(agente, p) && p.haber - p.liquidado > 0.0 then p.haber - p.liquidado else 0.0
  }

  /** Open debt of the agent on a line. */
  function Compensable(agente: string): Partida -> real {
    p => if DebeDe(agente, p) then Deuda(p) else 0.0
  }

  /** `monto_a_liquidar || Infinity`: an absent or zero request settles everything. */
  predicate Todo(pedido: Option<real>) {
    pedido == None || pedido == Some(0.0)
  }

  /** What a settlement adds to line i. A negative request falls whole on the first open line. */
  function ALiquidar(ps: seq<Partida>, agente: string, pedido: Option<real>, i: nat): real
    requires i < |ps|
  {
    var disponible := Disponible(agente)(ps[i]);
    var previo := Total(Disponible(agente), ps[..i]);
    if Todo(pedido) then disponible
    else if pedido.value > 0.0 then Min(disponible, Max(0.0, pedido.value - previo))
    else if disponible > 0.0 && previo == 0.0 then pedido.value
    else 0.0
  }

  function Liquidados(ps: seq<Partida>, agente: string, pedido: Option<real>): (xs: seq<real>)
    ensures |xs| == |ps|
  {
    seq(|ps|, i requires 0 <= i < |ps| => ALiquidar(ps, agente, pedido, i))
  }

  function LiquidarHaber(ps: seq<Partida>, agente: string, pedido: Option<real>): (qs: seq<Partida>)
    ensures |qs| == |ps|
  {
    seq(|ps|, i requires 0 <= i < |ps| =>
        ps[i].(liquidado := ps[i].liquidado + ALiquidar(ps, agente, pedido, i)))
  }

  function CompensarDebe(ps: seq<Partida>, agente: string): (qs: seq<Partida>)
    ensures |qs| == |ps|
  {
    seq(|ps|, i requires 0 <= i < |ps| =>
        ps[i].(pagado := ps[i].pagado + Compensable(agente)(ps[i])))
  }

  /** Lines after a whole settlement. */
  function Liquidar(ps: seq<Partida>, agente: string, pedido: Option<real>): (qs: seq<Partida>)
    ensures |qs| == |ps|
  {
    CompensarDebe(LiquidarHaber(ps, agente, pedido), agente)
  }

  /** What the request still asks for once the lines before n are done. */
  function Restante(ps: seq<Partida>, agente: string, pedido: real, n: nat): real
    requires n <= |ps|
  {
    var previo := Total(Disponible(agente), ps[..n]);
    if pedido > 0.0 then Max(0.0, pedido - previo)
    else if previo == 0.0 then pedido
    else 0.0
  }

  lemma {:induction false} PasoLiquidado(ps: seq<Partida>, agente: string, pedido: real, n: nat)
    requires n < |ps| && Restante(ps, agente, pedido, n) != 0.0
    ensures ALiquidar(ps, agente, Some(pedido), n) ==
            (var d := Disponible(agente)(ps[n]);
             if d > 0.0 then Min(d, Restante(ps, agente, pedido, n)) else 0.0)
    ensures Restante(ps, agente, pedido, n + 1) ==
            Restante(ps, agente, pedido, n) - ALiquidar(ps, agente, Some(pedido), n)
    ensures Disponible(agente)(ps[n]) > 0.0 && Restante(ps, agente, pedido, n + 1) <= 0.0 ==>
              Restante(ps, agente, pedido, n + 1) == 0.0
  {
    TotalStep(Disponible(agente), ps, n);
    TotalNonNegative(Disponible(agente), ps[..n]);
  }

  /** A request used up before line n leaves the rest of the lines alone. */
  lemma {:induction false} SinResto(ps: seq<Partida>, agente: string, pedido: real, n: nat)
    requires n <= |ps| && pedido != 0.0
    requires Restante(ps, agente, pedido, n) == 0.0
    ensures LiquidarHaber(ps, agente, Some(pedido))[n..] == ps[n..]
    ensures Total(Same, Liquidados(ps, agente, Some(pedido))) == Total(Same, Liquidados(ps, agente, Some(pedido))[..n])
  {
    forall k | n <= k < |ps|
      ensures ALiquidar(ps, agente, Some(pedido), k) == 0.0
    {
      assert ps[..k] == ps[..n] + ps[n..k];
      TotalConcat(Disponible(agente), ps[..n], ps[n..k]);
      TotalNonNegative(Disponible(agente), ps[..n]);
      TotalNonNegative(Disponible(agente), ps[n..k]);
    }
    var xs := Liquidados(ps, agente, Some(pedido));
    assert xs == xs[..n] + xs[n..];
    TotalConcat(Same, xs[..n], xs[n..]);
    TotalZero(Same, xs[n..]);
  }

  /** One step of the settlement loop: line n takes what it can of `restante` (None is no limit). */
  method LiquidarLinea(partidas: array<Partida>, n: nat, agente: string, restante: Option<real>)
    returns (abierta: bool, monto: real)
    requires n < partidas.Length
    modifies partidas
    ensures abierta <==> Disponible(agente)(old(partidas[n])) > 0.0
    ensures monto == (var d := Disponible(agente)(old(partidas[n]));
                      if d > 0.0 && restante.Some? then Min(d, restante.value) else d)
    ensures partidas[..] == old(partidas[..])[n := old(partidas[n]).(liquidado := old(partidas[n]).liquidado + monto)]
  {
    var partida := partidas[n];
    abierta := HaberDe(agente, partida) && partida.haber - partida.liquidado > 0.0;
    monto := 0.0;
    if abierta {
      var disponible := partida.haber - partida.liquidado;
      monto := if restante.None? then disponible else Min(disponible, restante.value);
      partidas[n] := partida.(liquidado := partida.liquidado + monto);
    }
  }

  /** `restante` is what the request leaves for line n on, with something still to ask (None is no limit). */
  predicate Queda(ps: seq<Partida>, agente: string, pedido: Option<real>, n: nat, restante: Option<real>)
    requires n <= |ps|
  {
    && (restante.None? <==> Todo(pedido))
    && (restante.Some? ==> Restante(ps, agente, pedido.value, n) == restante.value != 0.0)
  }

  /** One turn of the settlement loop; `fin` when the request is used up. */
  method LiquidarTurno(partidas: array<Partida>, n: nat, agente: string, pedido: Option<real>, restante: Option<real>,
                       ghost ps: seq<Partida>) returns (monto: real, resto: Option<real>, fin: bool)
    requires n < partidas.Length == |ps|
    requires partidas[..] == LiquidarHaber(ps, agente, pedido)[..n] + ps[n..]
    requires Queda(ps, agente, pedido, n, restante)
    modifies partidas
    ensures partidas[..] == LiquidarHaber(ps, agente, pedido)[..n + 1] + ps[n + 1..]
    ensures monto == Liquidados(ps, agente, pedido)[n]
    ensures !fin ==> Queda(ps, agente, pedido, n + 1, resto)
    ensures fin ==> !Todo(pedido) && Restante(ps, agente, pedido.value, n + 1) == 0.0
  {
    ghost var qs, antes := LiquidarHaber(ps, agente, pedido), partidas[..];
    if restante.Some? { PasoLiquidado(ps, agente, pedido.value, n); }
    assert partidas[n] == antes[n] == ps[n];
    var abierta: bool;
    abierta, monto := LiquidarLinea(partidas, n, agente, restante);
    assert qs[n] == ps[n].(liquidado := ps[n].liquidado + monto);
    assert partidas[..] == antes[n := qs[n]];
    Advance(qs, ps, n);
    resto := if restante.None? then None else Some(restante.value - monto);
    fin := abierta && resto.Some? && resto.value <= 0.0;
  }

  /** First loop of liquidarAPropietario: it stops once the request is used up. */
  method LiquidarEnHaber(partidas: array<Partida>, agente: string, pedido: Option<real>) returns (total: real)
    modifies partidas
    ensures partidas[..] == LiquidarHaber(old(partidas[..]), agente, pedido)
    ensures total == Total(Same, Liquidados(old(partidas[..]), agente, pedido))
  {
    ghost var ps := partidas[..];
    ghost var xs, qs := Liquidados(ps, agente, pedido), LiquidarHaber(ps, agente, pedido);
    total := 0.0;
    var restante := if Todo(pedido) then None else pedido;
    var i := 0;
    while i < partidas.Length
      invariant 0 <= i <= partidas.Length
      invariant partidas[..] == qs[..i] + ps[i..]
      invariant total == Total(Same, xs[..i])
      invariant Queda(ps, agente, pedido, i, restante)
    {
      TotalStep(Same, xs, i);
      var monto, resto, fin := LiquidarTurno(partidas, i, agente, pedido, restante, ps);
      total := total + monto;
      restante := resto;
      i := i + 1;
      if fin { break; }
    }
    LiquidacionCompleta(ps, agente, pedido, i);
  }

  /** The loop may stop at line n: the lines from there on take nothing. */
  lemma {:induction false} LiquidacionCompleta(ps: seq<Partida>, agente: string, pedido: Option<real>, n: nat)
    requires n <= |ps|
    requires n == |ps| || (!Todo(pedido) && Restante(ps, agente, pedido.value, n) == 0.0)
    ensures var xs, qs := Liquidados(ps, agente, pedido), LiquidarHaber(ps, agente, pedido);
            qs[..n] + ps[n..] == qs && Total(Same, xs[..n]) == Total(Same, xs)
  {
    var xs, qs := Liquidados(ps, agente, pedido), LiquidarHaber(ps, agente, pedido);
    if n < |ps| {
      SinResto(ps, agente, pedido.value, n);
      SplitAt(qs, n);
    } else {
      assert xs[..n] == xs && qs[..n] == qs;
    }
  }

  /** Second loop of liquidarAPropietario: the agent's debts are discounted in full. */
  method CompensarEnDebe(partidas: array<Partida>, agente: string) returns (total: real)
    modifies partidas
    ensures partidas[..] == CompensarDebe(old(partidas[..]), agente)
    ensures total == Total(Compensable(agente), old(partidas[..]))
  {
    ghost var ps := partidas[..];
    total := 0.0;
    var i := 0;
    while i < partidas.Length
      invariant 0 <= i <= partidas.Length
      invariant forall k :: 0 <= k < i ==> partidas[k] == CompensarDebe(ps, agente)[k]
      invariant forall k :: i <= k < partidas.Length ==> partidas[k] == ps[k]
      invariant total == Total(Compensable(agente), ps[..i])
    {
      TotalStep(Compensable(agente), ps, i);
      var partida := partidas[i];
      i := i + 1;
      if !DebeDe(agente, partida) || partida.debe - partida.pagado <= 0.0 { continue; }
      var disponible := partida.debe - partida.pagado;
      partidas[i - 1] := partida.(pagado := partida.pagado + disponible);
      total := total + disponible;
    }
    assert partidas[..] == CompensarDebe(ps, agente);
    assert ps[..|ps|] == ps;
  }

  /** Net cash of a settlement: settled HABER minus compensated DEBE. */
  function Neto(ps: seq<Partida>, agente: string, pedido: Option<real>): real {
    Total(Same, Liquidados(ps, agente, pedido)) - Total(Compensable(agente), ps)
  }

  lemma {:induction false} LiquidarEnLinea(ps: seq<Partida>, agente: string, pedido: Option<real>, i: nat)
    requires i < |ps|
    ensures Liquidar(ps, agente, pedido)[i] ==
            ps[i].(liquidado := ps[i].liquidado + ALiquidar(ps, agente, pedido, i),
                   pagado := ps[i].pagado + Compensable(agente)(ps[i]))
  {
  }

  // ---------- what a request may be ----------

  /** The request only asks for what can be taken back: it is not negative, or no credit of the agent is
      open, or the first open line has that much settled. */
  predicate PedidoSano(ps: seq<Partida>, agente: string, pedido: Option<real>) {
    Todo(pedido) || pedido.value > 0.0 ||
    forall i :: 0 <= i < |ps| && PrimeraAbierta(ps, agente, i) ==> 0.0 <= ps[i].liquidado + pedido.value
  }

  predicate PrimeraAbierta(ps: seq<Partida>, agente: string, i: nat)
    requires i < |ps|
  {
    Disponible(agente)(ps[i]) > 0.0 && forall j :: 0 <= j < i ==> Disponible(agente)(ps[j]) == 0.0
  }

  /** Settlement keeps every line within its amounts exactly for such requests. */
  lemma {:induction false} LiquidarConserva(ps: seq<Partida>, agente: string, pedido: Option<real>)
    requires LineasOk(ps)
    ensures LineasOk(Liquidar(ps, agente, pedido)) <==> PedidoSano(ps, agente, pedido)
  {
    var qs := Liquidar(ps, agente, pedido);
    forall i | 0 <= i < |ps|
      ensures LineaOk(qs[i]) <==> 0.0 <= qs[i].liquidado
    {
      LiquidarEnLinea(ps, agente, pedido, i);
    }
    if !Todo(pedido) && pedido.value < 0.0 {
      forall i | 0 <= i < |ps|
        ensures LineaOk(qs[i]) <==> (PrimeraAbierta(ps, agente, i) ==> 0.0 <= ps[i].liquidado + pedido.value)
      {
        LiquidarEnLinea(ps, agente, pedido, i);
        TotalNonNegative(Disponible(agente), ps[..i]);
        if forall j :: 0 <= j < i ==> Disponible(agente)(ps[j]) == 0.0 {
          assert forall j :: 0 <= j < i ==> ps[..i][j] == ps[j];
        } else {
          assert exists j :: 0 <= j < i && ps[..i][j] == ps[j] && Disponible(agente)(ps[j]) != 0.0;
        }
      }
    } else {
      forall i | 0 <= i < |ps|
        ensures LineaOk(qs[i])
      {
        LiquidarEnLinea(ps, agente, pedido, i);
      }
    }
  }

  /** A negative request un-settles a line below zero: the request field carries no lower bound. */
  lemma {:induction false} PedidoNegativoRompe()
    ensures exists ps: seq<Partida>, agente, pedido ::
              LineasOk(ps) && !LineasOk(Liquidar(ps, agente, pedido))
  {
    var ps := [Partida(CxpLoc, 0.0, 10.0, Some("a"), 0.0, 0.0)];
    LiquidarConserva(ps, "a", Some(-1.0));
    assert PrimeraAbierta(ps, "a", 0);
    assert !LineasOk(Liquidar(ps, "a", Some(-1.0)));
  }
}
