/** Import of legacy payments: each payment is resolved to an entry (through a cache), payments of one entry,
    agent and side are added up, and one increment per group is applied to the stored lines. */
module ImportPayments {
  import opened Common
  import opened Entries
  import opened Ledger

  datatype Pago = Pago(cuenta: Option<string>, monto: real, agente: Option<string>)

  /** A stored entry and the legacy accounts linked to it. */
  datatype Documento = Documento(id: string, partidas: seq<Partida>, debitos: seq<string>, creditos: seq<string>)

  /** Entry a legacy account leads to, and the side it pays. */
  datatype Destino = Destino(asiento: string, debito: bool)

  datatype Clave = Clave(asiento: string, agente: string, debito: bool)

  datatype Grupo = Grupo(clave: Clave, monto: real)

  datatype Transaccion = Transaccion(asiento: string, monto: real)

  // ---------- resolution ----------

  function BuscarId(db: seq<Documento>, cuenta: string): Option<Destino> {
    if db == [] then None
    else if db[0].id == cuenta then Some(Destino(cuenta, true))
    else BuscarId(db[1..], cuenta)
  }

  function BuscarVinculo(db: seq<Documento>, cuenta: string): Option<Destino> {
    if db == [] then None
    else if cuenta in db[0].debitos || cuenta in db[0].creditos then Some(Destino(db[0].id, cuenta in db[0].debitos))
    else BuscarVinculo(db[1..], cuenta)
  }

  /** By id first (ad hoc entries), then by link (contract entries). */
  function Resolver(db: seq<Documento>, cuenta: string): Option<Destino> {
    var directo := BuscarId(db, cuenta);
    if directo.Some? then directo else BuscarVinculo(db, cuenta)
  }

  /** An account leads to the entry of that id, to be paid on its DEBE; failing that, to the first entry linked to it,
      on its DEBE if it is among its debits and on its HABER otherwise; failing that, nowhere. */
  lemma {:induction false} Destinos(db: seq<Documento>, cuenta: string)
    ensures (exists k :: 0 <= k < |db| && db[k].id == cuenta) ==> Resolver(db, cuenta) == Some(Destino(cuenta, true))
    ensures (forall k :: 0 <= k < |db| ==> db[k].id != cuenta) ==>
              forall k: nat :: PrimerVinculo(db, cuenta, k) ==>
                Resolver(db, cuenta) == Some(Destino(db[k].id, cuenta in db[k].debitos))
    ensures Resolver(db, cuenta) == None <==>
            forall k :: 0 <= k < |db| ==>
              db[k].id != cuenta && cuenta !in db[k].debitos && cuenta !in db[k].creditos
  {
    PorId(db, cuenta);
    PorVinculo(db, cuenta);
  }

  predicate PrimerVinculo(db: seq<Documento>, cuenta: string, k: nat) {
    && k < |db| && (cuenta in db[k].debitos || cuenta in db[k].creditos)
    && forall j :: 0 <= j < k ==> cuenta !in db[j].debitos && cuenta !in db[j].creditos
  }

  lemma {:induction false} PorId(db: seq<Documento>, cuenta: string)
    ensures BuscarId(db, cuenta) ==
            if exists k :: 0 <= k < |db| && db[k].id == cuenta then Some(Destino(cuenta, true)) else None
  {
    if db != [] {
      PorId(db[1..], cuenta);
      if k :| 0 <= k < |db| && db[k].id == cuenta {
        if k > 0 { assert db[1..][k - 1].id == cuenta; }
      }
      assert forall k :: 0 <= k < |db[1..]| ==> db[1..][k] == db[k + 1];
    }
  }

  lemma {:induction false} PorVinculo(db: seq<Documento>, cuenta: string)
    ensures forall k: nat :: PrimerVinculo(db, cuenta, k) ==>
              BuscarVinculo(db, cuenta) == Some(Destino(db[k].id, cuenta in db[k].debitos))
    ensures BuscarVinculo(db, cuenta) == None <==>
            forall k :: 0 <= k < |db| ==> cuenta !in db[k].debitos && cuenta !in db[k].creditos
  {
    if db != [] {
      PorVinculo(db[1..], cuenta);
      assert forall k :: 0 <= k < |db[1..]| ==> db[1..][k] == db[k + 1];
      forall k: nat | PrimerVinculo(db, cuenta, k) && k > 0
        ensures PrimerVinculo(db[1..], cuenta, k - 1) && db[1..][k - 1] == db[k]
      {
      }
      if cuenta !in db[0].debitos && cuenta !in db[0].creditos {
        assert BuscarVinculo(db, cuenta) == BuscarVinculo(db[1..], cuenta);
        if forall k :: 0 <= k < |db[1..]| ==> cuenta !in db[1..][k].debitos && cuenta !in db[1..][k].creditos {
          forall k | 0 <= k < |db| ensures cuenta !in db[k].debitos && cuenta !in db[k].creditos {
            if k > 0 { assert db[1..][k - 1] == db[k]; }
          }
        }
      }
    }
  }

  /** Group of a payment that is imported; None for one not found or skipped. */
  function ClaveDe(db: seq<Documento>, p: Pago): Option<Clave> {
    if p.cuenta.None? then None
    else
      var destino := Resolver(db, p.cuenta.value);
      if destino.None? || p.monto <= 0.0 || p.agente.None? then None
      else Some(Clave(destino.value.asiento, p.agente.value, destino.value.debito))
  }

  // ---------- consolidation ----------

  /** Adds to the group of the key, or opens a new one at the end: the map keeps insertion order. */
  function Agregar(gs: seq<Grupo>, clave: Clave, monto: real): seq<Grupo> {
    if gs == [] then [Grupo(clave, monto)]
    else if gs[0].clave == clave then [Grupo(clave, gs[0].monto + monto)] + gs[1..]
    else [gs[0]] + Agregar(gs[1..], clave, monto)
  }

  function Consolidar(db: seq<Documento>, pagos: seq<Pago>): seq<Grupo> {
    if pagos == [] then []
    else
      var previos, p := Consolidar(db, pagos[..|pagos| - 1]), pagos[|pagos| - 1];
      match ClaveDe(db, p)
      case None => previos
      case Some(clave) => Agregar(previos, clave, p.monto)
  }

  function Transacciones(db: seq<Documento>, pagos: seq<Pago>): seq<Transaccion> {
    if pagos == [] then []
    else
      var previas, p := Transacciones(db, pagos[..|pagos| - 1]), pagos[|pagos| - 1];
      match ClaveDe(db, p)
      case None => previas
      case Some(clave) => previas + [Transaccion(clave.asiento, p.monto)]
  }

  datatype Conteo = Conteo(procesados: nat, noEncontrados: nat, omitidos: nat)

  /** A payment whose account leads nowhere; one that is found and then skipped. A payment without an account is
      neither. */
  predicate NoEncontrado(db: seq<Documento>, p: Pago) {
    p.cuenta.Some? && Resolver(db, p.cuenta.value).None?
  }

  predicate Omitido(db: seq<Documento>, p: Pago) {
    p.cuenta.Some? && Resolver(db, p.cuenta.value).Some? && (p.monto <= 0.0 || p.agente.None?)
  }

  /** How many payments pass a test. */
  function Cuantos(f: Pago -> bool, pagos: seq<Pago>): nat {
    if pagos == [] then 0
    else Cuantos(f, pagos[..|pagos| - 1]) + (if f(pagos[|pagos| - 1]) then 1 else 0)
  }

  function Contado(db: seq<Documento>, pagos: seq<Pago>): Conteo {
    Conteo(Cuantos((p: Pago) => ClaveDe(db, p).Some?, pagos), Cuantos((p: Pago) => NoEncontrado(db, p), pagos),
           Cuantos((p: Pago) => Omitido(db, p), pagos))
  }

  /** Every payment with an account is counted once, and one transaction goes with each that is processed. */
  lemma {:induction false} CuentaCompleta(db: seq<Documento>, pagos: seq<Pago>)
    ensures var c := Contado(db, pagos);
            && c.procesados == |Transacciones(db, pagos)|
            && c.procesados + c.noEncontrados + c.omitidos == Cuantos((p: Pago) => p.cuenta.Some?, pagos)
  {
    if pagos != [] { CuentaCompleta(db, pagos[..|pagos| - 1]); }
  }

  /** The import loop with its cache of resolved accounts: the cache never changes the outcome, which is that
      of a fresh lookup for every payment. */
  method ImportarPagos(db: seq<Documento>, pagos: seq<Pago>)
    returns (grupos: seq<Grupo>, transacciones: seq<Transaccion>, conteo: Conteo)
    ensures grupos == Consolidar(db, pagos)
    ensures transacciones == Transacciones(db, pagos)
    ensures conteo.procesados == |transacciones|
    ensures conteo == Contado(db, pagos)
  {
    var cache: map<string, Destino> := map[];
    grupos, transacciones := [], [];
    var procesados, noEncontrados, omitidos := 0, 0, 0;
    for i := 0 to |pagos|
      invariant forall k :: k in cache ==> Resolver(db, k) == Some(cache[k])
      invariant grupos == Consolidar(db, pagos[..i])
      invariant transacciones == Transacciones(db, pagos[..i])
      invariant Conteo(procesados, noEncontrados, omitidos) == Contado(db, pagos[..i])
    {
      assert pagos[..i + 1][..i] == pagos[..i];
      var p := pagos[i];
      if p.cuenta.None? { continue; }
      var cuenta := p.cuenta.value;
      var destino: Option<Destino>;
      if cuenta in cache {
        destino := Some(cache[cuenta]);
      } else {
        destino := Resolver(db, cuenta);
        if destino.Some? { cache := cache[cuenta := destino.value]; }
      }
      if destino.None? {
        noEncontrados := noEncontrados + 1;
        continue;
      }
      if p.monto <= 0.0 || p.agente.None? {
        omitidos := omitidos + 1;
        continue;
      }
      var clave := Clave(destino.value.asiento, p.agente.value, destino.value.debito);
      grupos := Agregar(grupos, clave, p.monto);
      transacciones := transacciones + [Transaccion(clave.asiento, p.monto)];
      procesados := procesados + 1;
    }
    assert pagos[..|pagos|] == pagos;
    CuentaCompleta(db, pagos);
    conteo := Conteo(procesados, noEncontrados, omitidos);
  }

  /** One group per key. */
  predicate ClavesDistintas(gs: seq<Grupo>) {
    forall i, j :: 0 <= i < j < |gs| ==> gs[i].clave != gs[j].clave
  }

  lemma {:induction false} AgregarDistintas(gs: seq<Grupo>, clave: Clave, monto: real)
    requires ClavesDistintas(gs)
    ensures ClavesDistintas(Agregar(gs, clave, monto))
    ensures forall g :: g in Agregar(gs, clave, monto) ==> g.clave == clave || exists h :: h in gs && h.clave == g.clave
  {
    if gs != [] && gs[0].clave != clave {
      AgregarDistintas(gs[1..], clave, monto);
    }
  }

  /** No two groups share a key: a line takes at most one increment on each side. */
  lemma {:induction false} GruposDistintos(db: seq<Documento>, pagos: seq<Pago>)
    ensures ClavesDistintas(Consolidar(db, pagos))
  {
    if pagos != [] {
      var n := |pagos| - 1;
      GruposDistintos(db, pagos[..n]);
      var clave := ClaveDe(db, pagos[n]);
      if clave.Some? { AgregarDistintas(Consolidar(db, pagos[..n]), clave.value, pagos[n].monto); }
    }
  }

  /** Money of the groups, and of the payments, whose key passes a test. */
  function EnGrupo(f: Clave -> bool): Grupo -> real {
    (g: Grupo) => if f(g.clave) then g.monto else 0.0
  }

  function EnPago(db: seq<Documento>, f: Clave -> bool): Pago -> real {
    (p: Pago) => var k := ClaveDe(db, p); if k.Some? && f(k.value) then p.monto else 0.0
  }

  lemma {:induction false} SumaAgregada(f: Clave -> bool, gs: seq<Grupo>, clave: Clave, monto: real)
    ensures Total(EnGrupo(f), Agregar(gs, clave, monto)) ==
            Total(EnGrupo(f), gs) + (if f(clave) then monto else 0.0)
  {
    var h := EnGrupo(f);
    if gs == [] {
      TotalSingle(h, Grupo(clave, monto));
    } else {
      var resto := gs[1..];
      assert gs == [gs[0]] + resto;
      TotalConcat(h, [gs[0]], resto);
      TotalSingle(h, gs[0]);
      if gs[0].clave == clave {
        var g := Grupo(clave, gs[0].monto + monto);
        TotalConcat(h, [g], resto);
        TotalSingle(h, g);
      } else {
        SumaAgregada(f, resto, clave, monto);
        TotalConcat(h, [gs[0]], Agregar(resto, clave, monto));
      }
    }
  }

  /** Grouping keeps every partial sum: for any set of keys, groups and payments carry the same money. */
  lemma {:induction false} GruposConservan(db: seq<Documento>, pagos: seq<Pago>, f: Clave -> bool)
    ensures Total(EnGrupo(f), Consolidar(db, pagos)) == Total(EnPago(db, f), pagos)
  {
    if pagos != [] {
      var n := |pagos| - 1;
      GruposConservan(db, pagos[..n], f);
      var clave := ClaveDe(db, pagos[n]);
      if clave.Some? { SumaAgregada(f, Consolidar(db, pagos[..n]), clave.value, pagos[n].monto); }
    }
  }

  function MontoDe(t: Transaccion): real {
    t.monto
  }

  function MontoDeGrupo(g: Grupo): real {
    g.monto
  }

  /** All the money of the groups is all the money of the cash transactions. */
  lemma {:induction false} GruposSonTransacciones(db: seq<Documento>, pagos: seq<Pago>)
    ensures Total(MontoDeGrupo, Consolidar(db, pagos)) == Total(MontoDe, Transacciones(db, pagos))
  {
    var todas := (k: Clave) => true;
    GruposConservan(db, pagos, todas);
    TotalEq(MontoDeGrupo, Consolidar(db, pagos), EnGrupo(todas), Consolidar(db, pagos));
    TransaccionesSuman(db, pagos, todas);
  }

  lemma {:induction false} TransaccionesSuman(db: seq<Documento>, pagos: seq<Pago>, todas: Clave -> bool)
    requires forall k :: todas(k)
    ensures Total(MontoDe, Transacciones(db, pagos)) == Total(EnPago(db, todas), pagos)
  {
    if pagos != [] {
      var n := |pagos| - 1;
      TransaccionesSuman(db, pagos[..n], todas);
      var clave := ClaveDe(db, pagos[n]);
      if clave.Some? {
        TotalConcat(MontoDe, Transacciones(db, pagos[..n]), [Transaccion(clave.value.asiento, pagos[n].monto)]);
        TotalSingle(MontoDe, Transaccion(clave.value.asiento, pagos[n].monto));
      }
    }
  }

  // ---------- increments ----------

  /** The array filter: every line of the agent on that side, of the entry with that id. */
  predicate Corresponde(clave: Clave, id: string, p: Partida) {
    clave.asiento == id && p.agente == Some(clave.agente) && (if clave.debito then p.debe > 0.0 else p.haber > 0.0)
  }

  function IncrementarLinea(p: Partida, id: string, g: Grupo): Partida {
    if !Corresponde(g.clave, id, p) then p
    else if g.clave.debito then p.(pagado := p.pagado + g.monto)
    else p.(liquidado := p.liquidado + g.monto)
  }

  /** A debit adds to what is paid on the agent's lines with DEBE, a credit to what is settled on those with HABER, of
      the entry of the key; nothing else moves. */
  lemma {:induction false} IncrementoDeLinea(p: Partida, id: string, g: Grupo)
    ensures var q, suya := IncrementarLinea(p, id, g), g.clave.asiento == id && p.agente == Some(g.clave.agente);
            && q.pagado - p.pagado == (if suya && g.clave.debito && p.debe > 0.0 then g.monto else 0.0)
            && q.liquidado - p.liquidado == (if suya && !g.clave.debito && p.haber > 0.0 then g.monto else 0.0)
            && p.(pagado := q.pagado, liquidado := q.liquidado) == q
  {
  }

  function IncrementarLineas(ps: seq<Partida>, id: string, g: Grupo): (qs: seq<Partida>)
    ensures |qs| == |ps|
  {
    seq(|ps|, i requires 0 <= i < |ps| => IncrementarLinea(ps[i], id, g))
  }

  function Incrementar(db: seq<Documento>, g: Grupo): (r: seq<Documento>)
    ensures |r| == |db|
  {
    seq(|db|, n requires 0 <= n < |db| => db[n].(partidas := IncrementarLineas(db[n].partidas, db[n].id, g)))
  }

  /** Increments applied one after the other. */
  function IncrementarTodos(db: seq<Documento>, gs: seq<Grupo>): (r: seq<Documento>)
    ensures |r| == |db|
  {
    if gs == [] then db else Incrementar(IncrementarTodos(db, gs[..|gs| - 1]), gs[|gs| - 1])
  }

  method AplicarGrupos(db: seq<Documento>, gs: seq<Grupo>) returns (r: seq<Documento>)
    ensures r == IncrementarTodos(db, gs)
  {
    r := db;
    for i := 0 to |gs|
      invariant r == IncrementarTodos(db, gs[..i])
    {
      assert gs[..i + 1][..i] == gs[..i];
      r := Incrementar(r, gs[i]);
    }
    assert gs[..|gs|] == gs;
  }

  function ALaLinea(id: string, p: Partida, debito: bool): Clave -> bool {
    (k: Clave) => k.debito == debito && Corresponde(k, id, p)
  }

  /** What a list of increments does to one line: each side grows by the money of the keys that match it. */
  function LineaFinal(p: Partida, id: string, gs: seq<Grupo>): Partida {
    p.(pagado := p.pagado + Total(EnGrupo(ALaLinea(id, p, true)), gs),
       liquidado := p.liquidado + Total(EnGrupo(ALaLinea(id, p, false)), gs))
  }

  lemma {:induction false} UnaLineaMas(p: Partida, id: string, gs: seq<Grupo>, n: nat)
    requires n < |gs|
    ensures IncrementarLinea(LineaFinal(p, id, gs[..n]), id, gs[n]) == LineaFinal(p, id, gs[..n + 1])
  {
    TotalStep(EnGrupo(ALaLinea(id, p, true)), gs, n);
    TotalStep(EnGrupo(ALaLinea(id, p, false)), gs, n);
  }

  function DocumentoFinal(d: Documento, gs: seq<Grupo>): Documento {
    d.(partidas := seq(|d.partidas|, i requires 0 <= i < |d.partidas| => LineaFinal(d.partidas[i], d.id, gs)))
  }

  lemma {:induction false} IncrementosHasta(db: seq<Documento>, gs: seq<Grupo>, n: nat, k: nat)
    requires n <= |gs| && k < |db|
    ensures IncrementarTodos(db, gs[..n])[k] == DocumentoFinal(db[k], gs[..n])
  {
    var d := db[k];
    if n == 0 {
      assert DocumentoFinal(d, gs[..0]).partidas == d.partidas;
    } else {
      IncrementosHasta(db, gs, n - 1, k);
      assert gs[..n][..n - 1] == gs[..n - 1];
      forall i | 0 <= i < |d.partidas|
        ensures IncrementarTodos(db, gs[..n])[k].partidas[i] == LineaFinal(d.partidas[i], d.id, gs[..n])
      {
        UnaLineaMas(d.partidas[i], d.id, gs, n - 1);
      }
    }
  }

  /** The payments as increments of their own, in order. */
  function UnoPorPago(db: seq<Documento>, pagos: seq<Pago>): seq<Grupo> {
    if pagos == [] then []
    else
      var previos, p := UnoPorPago(db, pagos[..|pagos| - 1]), pagos[|pagos| - 1];
      match ClaveDe(db, p)
      case None => previos
      case Some(clave) => previos + [Grupo(clave, p.monto)]
  }

  lemma {:induction false} UnoPorPagoConserva(db: seq<Documento>, pagos: seq<Pago>, f: Clave -> bool)
    ensures Total(EnGrupo(f), UnoPorPago(db, pagos)) == Total(EnPago(db, f), pagos)
  {
    if pagos != [] {
      var n := |pagos| - 1;
      UnoPorPagoConserva(db, pagos[..n], f);
      var clave := ClaveDe(db, pagos[n]);
      if clave.Some? {
        TotalConcat(EnGrupo(f), UnoPorPago(db, pagos[..n]), [Grupo(clave.value, pagos[n].monto)]);
        TotalSingle(EnGrupo(f), Grupo(clave.value, pagos[n].monto));
      }
    }
  }

  /** One increment per group leaves the stored lines as applying every payment in order would. */
  lemma {:induction false} ConsolidarEsEquivalente(db: seq<Documento>, pagos: seq<Pago>)
    ensures IncrementarTodos(db, Consolidar(db, pagos)) == IncrementarTodos(db, UnoPorPago(db, pagos))
  {
    var gs, hs := Consolidar(db, pagos), UnoPorPago(db, pagos);
    assert gs[..|gs|] == gs && hs[..|hs|] == hs;
    forall k | 0 <= k < |db|
      ensures IncrementarTodos(db, gs)[k] == IncrementarTodos(db, hs)[k]
    {
      IncrementosHasta(db, gs, |gs|, k);
      IncrementosHasta(db, hs, |hs|, k);
      var d := db[k];
      forall i | 0 <= i < |d.partidas|
        ensures LineaFinal(d.partidas[i], d.id, gs) == LineaFinal(d.partidas[i], d.id, hs)
      {
        GruposConservan(db, pagos, ALaLinea(d.id, d.partidas[i], true));
        GruposConservan(db, pagos, ALaLinea(d.id, d.partidas[i], false));
        UnoPorPagoConserva(db, pagos, ALaLinea(d.id, d.partidas[i], true));
        UnoPorPagoConserva(db, pagos, ALaLinea(d.id, d.partidas[i], false));
      }
    }
  }

  function Uno(clave: Clave, id: string): Partida -> real {
    (p: Partida) => if Corresponde(clave, id, p) then 1.0 else 0.0
  }

  /** The accumulator a payment of that side goes to, and the other one. */
  function Acumulado(debito: bool): Partida -> real {
    (p: Partida) => if debito then p.pagado else p.liquidado
  }

  /** An increment reaches every matching line in full, so the entry takes the money on that side as many times
      as it has lines of that agent and side: exactly once if and only if there is exactly one. The other side
      takes nothing. */
  lemma {:induction false} IncrementoPorLinea(ps: seq<Partida>, id: string, g: Grupo)
    requires g.monto > 0.0
    ensures var n, f := Total(Uno(g.clave, id), ps), Acumulado(g.clave.debito);
            var qs := IncrementarLineas(ps, id, g);
            && Total(f, qs) == Total(f, ps) + Times(g.monto, n)
            && (Total(f, qs) == Total(f, ps) + g.monto <==> n == 1.0)
            && forall i :: 0 <= i < |ps| ==> Acumulado(!g.clave.debito)(qs[i]) == Acumulado(!g.clave.debito)(ps[i])
  {
    var qs, f := IncrementarLineas(ps, id, g), Acumulado(g.clave.debito);
    TotalAdd(f, qs, f, ps, Tocado(g, id), ps);
    TocadoSuma(ps, id, g);
    ProductoUno(g.monto, Total(Uno(g.clave, id), ps));
  }

  function Tocado(g: Grupo, id: string): Partida -> real {
    (p: Partida) => if Corresponde(g.clave, id, p) then g.monto else 0.0
  }

  lemma {:induction false} TocadoSuma(ps: seq<Partida>, id: string, g: Grupo)
    ensures Total(Tocado(g, id), ps) == Times(g.monto, Total(Uno(g.clave, id), ps))
  {
    ProductoUno(g.monto, 1.0);
    TotalScale(Tocado(g, id), ps, g.monto, Uno(g.clave, id), ps);
  }

  lemma {:induction false} ProductoUno(m: real, n: real)
    ensures Times(m, 1.0) == m && Times(m, 0.0) == 0.0
    ensures m > 0.0 ==> (Times(m, n) == m <==> n == 1.0)
  {
    if m > 0.0 && m * n == m { assert m * (n - 1.0) == 0.0; }
  }

  // ---------- final estado ----------

  function HaberConAgente(p: Partida): real {
    if p.agente.Some? then p.haber else 0.0
  }

  function LiquidadoConAgente(p: Partida): real {
    if p.agente.Some? then p.liquidado else 0.0
  }

  function EstadoFinal(ps: seq<Partida>): Estado {
    var totalDebe, pagado := Total(DebeOf, ps), Total(PagadoOf, ps);
    var haber, liquidado := Total(HaberConAgente, ps), Total(LiquidadoConAgente, ps);
    var estaCobrado := pagado >= totalDebe && totalDebe > 0.0;
    var estaLiquidado := if haber > 0.0 then liquidado >= haber else true;
    if estaCobrado && estaLiquidado then Liquidado
    else if estaCobrado then Cobrado
    else if pagado > 0.0 then PagadoParcial
    else Pendiente
  }

  /** On sound lines an imported LIQUIDADO means every DEBE line paid and every named HABER line settled. By the
      ledger's own rule, which looks at all HABER lines, it is settled only if no line without an agent (the
      commission) is a peso or more short. */
  lemma {:induction false} LiquidadoImportado(ps: seq<Partida>)
    requires LineasOk(ps) && EstadoFinal(ps) == Liquidado
    ensures forall i :: 0 <= i < |ps| ==> ps[i].pagado == ps[i].debe
    ensures forall i :: 0 <= i < |ps| && ps[i].agente.Some? ==> ps[i].liquidado == ps[i].haber
    ensures TodasLiquidadas(ps) <==>
            forall i :: 0 <= i < |ps| && ps[i].agente.None? ==> ps[i].haber - ps[i].liquidado < UN_PESO
  {
    TotalSaturated(PagadoOf, DebeOf, ps);
    TotalNonNegative(HaberConAgente, ps);
    TotalNonNegative(LiquidadoConAgente, ps);
    TotalSaturated(LiquidadoConAgente, HaberConAgente, ps);
    forall i | 0 <= i < |ps| && ps[i].agente.Some? ensures ps[i].liquidado == ps[i].haber {
      assert LiquidadoConAgente(ps[i]) == HaberConAgente(ps[i]);
    }
  }

  /** When lines are sound the final estado is LIQUIDADO if everything is paid and every named HABER line settled,
      COBRADO if only the first, PAGADO_PARCIAL if something is paid, PENDIENTE if nothing is; an entry without DEBE is
      PENDIENTE whatever is settled. */
  lemma {:induction false} EstadoImportado(ps: seq<Partida>)
    requires LineasOk(ps)
    ensures var cobrado := (exists i :: 0 <= i < |ps| && ps[i].debe > 0.0)
                           && forall i :: 0 <= i < |ps| ==> ps[i].pagado == ps[i].debe;
            var liquidado := forall i :: 0 <= i < |ps| && ps[i].agente.Some? ==> ps[i].liquidado == ps[i].haber;
            var algo := exists i :: 0 <= i < |ps| && ps[i].pagado > 0.0;
            EstadoFinal(ps) ==
            if cobrado then (if liquidado then Liquidado else Cobrado) else if algo then PagadoParcial else Pendiente
  {
    HayDebe(ps);
    HayPagado(ps);
    TodoPagado(ps);
    TodoLiquidado(ps);
  }

  lemma {:induction false} HayDebe(ps: seq<Partida>)
    requires LineasOk(ps)
    ensures Total(DebeOf, ps) > 0.0 <==> exists i :: 0 <= i < |ps| && ps[i].debe > 0.0
  {
    TotalNonNegative(DebeOf, ps);
    if Total(DebeOf, ps) > 0.0 {
      assert exists i :: 0 <= i < |ps| && DebeOf(ps[i]) != 0.0;
    }
    if i :| 0 <= i < |ps| && ps[i].debe > 0.0 { assert DebeOf(ps[i]) != 0.0; }
  }

  lemma {:induction false} HayPagado(ps: seq<Partida>)
    requires LineasOk(ps)
    ensures Total(PagadoOf, ps) > 0.0 <==> exists i :: 0 <= i < |ps| && ps[i].pagado > 0.0
  {
    TotalNonNegative(PagadoOf, ps);
    if Total(PagadoOf, ps) > 0.0 {
      assert exists i :: 0 <= i < |ps| && PagadoOf(ps[i]) != 0.0;
    }
    if i :| 0 <= i < |ps| && ps[i].pagado > 0.0 { assert PagadoOf(ps[i]) != 0.0; }
  }

  lemma {:induction false} TodoPagado(ps: seq<Partida>)
    requires LineasOk(ps)
    ensures Total(PagadoOf, ps) >= Total(DebeOf, ps) <==> forall i :: 0 <= i < |ps| ==> ps[i].pagado == ps[i].debe
  {
    if Total(PagadoOf, ps) >= Total(DebeOf, ps) {
      TotalSaturated(PagadoOf, DebeOf, ps);
      forall i | 0 <= i < |ps| ensures ps[i].pagado == ps[i].debe {
        assert PagadoOf(ps[i]) == DebeOf(ps[i]);
      }
    } else if forall i :: 0 <= i < |ps| ==> ps[i].pagado == ps[i].debe {
      TotalEq(PagadoOf, ps, DebeOf, ps);
    }
  }

  lemma {:induction false} TodoLiquidado(ps: seq<Partida>)
    requires LineasOk(ps)
    ensures Total(LiquidadoConAgente, ps) >= Total(HaberConAgente, ps) <==>
            forall i :: 0 <= i < |ps| && ps[i].agente.Some? ==> ps[i].liquidado == ps[i].haber
    ensures Total(HaberConAgente, ps) >= 0.0 && Total(LiquidadoConAgente, ps) >= 0.0
  {
    TotalNonNegative(HaberConAgente, ps);
    TotalNonNegative(LiquidadoConAgente, ps);
    if Total(LiquidadoConAgente, ps) >= Total(HaberConAgente, ps) {
      TotalSaturated(LiquidadoConAgente, HaberConAgente, ps);
      forall i | 0 <= i < |ps| && ps[i].agente.Some? ensures ps[i].liquidado == ps[i].haber {
        assert LiquidadoConAgente(ps[i]) == HaberConAgente(ps[i]);
      }
    } else if forall i :: 0 <= i < |ps| && ps[i].agente.Some? ==> ps[i].liquidado == ps[i].haber {
      TotalEq(LiquidadoConAgente, ps, HaberConAgente, ps);
    }
  }
}
