/** The operations that change stored entries and cash accounts. Each service method is proved against a
    step function on the whole stored state, errors included; a failed operation stores nothing. */
module Ledger {
  import opened Common
  import opened Entries
  import opened Imputation

  datatype Error =
    | AsientoNoEncontrado
    | EstadoInvalido
    | ExcedeSaldo
    | CuentaNoEncontrada
    | SinPartidasDelAgente
    | RequiereAgente

  /** Everything stored: entries by id and cash balances (`saldo_inicial`) by account id. */
  datatype Libro = Libro(asientos: map<string, Asiento>, cuentas: map<string, real>)

  const UN_PESO := 100.0

  /** Balances after `monto` enters an account; nothing happens to a missing one. */
  function Mover(cuentas: map<string, real>, cuenta: string, monto: real): map<string, real> {
    if cuenta in cuentas then cuentas[cuenta := cuentas[cuenta] + monto] else cuentas
  }

  lemma {:induction false} MoverDos(cuentas: map<string, real>, cuenta: string, m: real, n: real)
    ensures Mover(Mover(cuentas, cuenta, m), cuenta, n) == Mover(cuentas, cuenta, m + n)
    ensures Mover(cuentas, cuenta, 0.0) == cuentas
  {
  }

  /** Balances after a net is paid out, whichever its sign. */
  function TrasEgreso(cuentas: map<string, real>, cuenta: string, neto: real): map<string, real> {
    Mover(cuentas, cuenta, -Abs(neto))
  }

  // ---------- registerPayment ----------

  /** What may still be paid: the open DEBE, or once that is full the HABER not yet paid. */
  function SaldoPendiente(ps: seq<Partida>): real {
    var totalDebe, totalHaber := Total(DebeOf, ps), Total(HaberOf, ps);
    if totalDebe > 0.0 && Total(PagadoEnDebe, ps) < totalDebe then totalDebe - Total(PagadoEnDebe, ps)
    else if totalHaber > 0.0 && Total(PagadoEnHaber, ps) < totalHaber then totalHaber - Total(PagadoEnHaber, ps)
    else 0.0
  }

  predicate HaberLiquidado(ps: seq<Partida>) {
    Total(HaberPositivo, ps) == 0.0 || Total(LiquidadoEnHaber, ps) >= Total(HaberPositivo, ps)
  }

  function EstadoTrasPago(ps: seq<Partida>, montoActual: real): Estado {
    if Total(PagadoEnDebe, ps) >= montoActual then (if HaberLiquidado(ps) then Pagado else Cobrado)
    else PagadoParcial
  }

  /** The entry with new lines, a new estado and that change logged. */
  function Registrar(a: Asiento, ps: seq<Partida>, estado: Estado, accion: Accion, monto: real): Asiento {
    a.(partidas := ps, estado := estado, historial := a.historial + [Cambio(accion, a.estado, estado, monto)])
  }

  function AccionDePago(estado: Estado): Accion {
    if estado == PagadoParcial then PagoParcial else PagoCompleto
  }

  function ConPago(a: Asiento, monto: real): Asiento {
    var ps := Imputar(a.partidas, monto);
    var estado := EstadoTrasPago(ps, a.montoActual);
    Registrar(a, ps, estado, AccionDePago(estado), monto)
  }

  predicate PagoAceptable(a: Asiento, monto: real) {
    a.estado != Anulado && a.estado != Condonado && monto <= SaldoPendiente(a.partidas)
  }

  function Pagar(l: Libro, id: string, monto: real, cuenta: string): Result<Libro, Error> {
    if id !in l.asientos then Err(AsientoNoEncontrado)
    else
      var a := l.asientos[id];
      if a.estado == Anulado || a.estado == Condonado then Err(EstadoInvalido)
      else if monto > SaldoPendiente(a.partidas) then Err(ExcedeSaldo)
      else
        // Only an entry with DEBE moves cash.
        var conDebe := Total(DebeOf, a.partidas) > 0.0;
        if conDebe && cuenta !in l.cuentas then Err(CuentaNoEncontrada)
        else Ok(Libro(l.asientos[id := ConPago(a, monto)], Mover(l.cuentas, cuenta, if conDebe then monto else 0.0)))
  }

  // ---------- condonarDeuda ----------

  function SaldoCondonable(a: Asiento): real {
    a.montoOriginal - Total(PagadoOf, a.partidas)
  }

  /** `monto_condonado || saldoPendiente`. */
  function MontoACondonar(a: Asiento, pedido: Option<real>): real {
    if pedido == None || pedido == Some(0.0) then SaldoCondonable(a) else pedido.value
  }

  function ConCondonacion(a: Asiento, monto: real): Asiento {
    var ps := Imputar(a.partidas, monto);
    var estado := if Total(PagadoOf, ps) >= a.montoOriginal then Condonado else PagadoParcial;
    Registrar(a, ps, estado, Condonacion, monto)
  }

  function Condonar(l: Libro, id: string, pedido: Option<real>): Result<Libro, Error> {
    if id !in l.asientos then Err(AsientoNoEncontrado)
    else
      var a := l.asientos[id];
      if a.estado == Anulado || a.estado == Condonado then Err(EstadoInvalido)
      else if MontoACondonar(a, pedido) > SaldoCondonable(a) then Err(ExcedeSaldo)
      else Ok(l.(asientos := l.asientos[id := ConCondonacion(a, MontoACondonar(a, pedido))]))
  }

  // ---------- liquidarAPropietario ----------

  /** Every HABER line settled to within one peso. */
  predicate TodasLiquidadas(ps: seq<Partida>) {
    forall i :: 0 <= i < |ps| && ps[i].haber > 0.0 ==> Abs(ps[i].liquidado - ps[i].haber) < UN_PESO
  }

  function EstadoTrasLiquidar(ps: seq<Partida>, anterior: Estado): Estado {
    if !TodasLiquidadas(ps) then anterior else if anterior == Cobrado then Pagado else Liquidado
  }

  function ConLiquidacion(a: Asiento, agente: string, pedido: Option<real>): Asiento {
    var ps := Liquidar(a.partidas, agente, pedido);
    Registrar(a, ps, EstadoTrasLiquidar(ps, a.estado), Liquidacion, Abs(Neto(a.partidas, agente, pedido)))
  }

  function LiquidarAPropietario(l: Libro, id: string, agente: string, pedido: Option<real>, cuenta: string)
    : Result<Libro, Error>
  {
    if id !in l.asientos then Err(AsientoNoEncontrado)
    else
      var a := l.asientos[id];
      var monto := Abs(Neto(a.partidas, agente, pedido));
      if !TieneLineas(a.partidas, agente) then Err(SinPartidasDelAgente)
      else if monto > 0.0 && cuenta !in l.cuentas then Err(CuentaNoEncontrada)
      else Ok(Libro(l.asientos[id := ConLiquidacion(a, agente, pedido)], Mover(l.cuentas, cuenta, -monto)))
  }

  /** The agent has a line of the entry, and the account exists if there is anything to pay. */
  predicate LiquidacionAceptable(l: Libro, id: string, agente: string, pedido: Option<real>, cuenta: string) {
    && id in l.asientos && TieneLineas(l.asientos[id].partidas, agente)
    && (Neto(l.asientos[id].partidas, agente, pedido) != 0.0 ==> cuenta in l.cuentas)
  }

  // ---------- anularAsiento ----------

  function Anular(l: Libro, id: string): Result<Libro, Error> {
    if id !in l.asientos then Err(AsientoNoEncontrado)
    else
      var a := l.asientos[id];
      if a.estado == Pagado || a.estado == Anulado then Err(EstadoInvalido)
      else Ok(l.(asientos := l.asientos[id := Registrar(a, a.partidas, Anulado, Anulacion, 0.0)]))
  }

  // ---------- actualizarAsientosPendientesAjuste ----------

  /** An index value published for a month. */
  datatype Indice = Indice(mes: int, valor: real)

  /** The first index of the list for that month. */
  predicate EsPrimero(indices: seq<Indice>, mes: int, k: nat) {
    k < |indices| && indices[k].mes == mes && forall j :: 0 <= j < k ==> indices[j].mes != mes
  }

  function Buscar(indices: seq<Indice>, mes: int): (r: Option<real>)
    ensures r.None? <==> forall k :: 0 <= k < |indices| ==> indices[k].mes != mes
    ensures r.Some? ==> exists k: nat :: EsPrimero(indices, mes, k) && r.value == indices[k].valor
  {
    if indices == [] then None
    else if indices[0].mes == mes then
      assert EsPrimero(indices, mes, 0);
      Some(indices[0].valor)
    else
      var r := Buscar(indices[1..], mes);
      assert r.Some? ==> exists k: nat :: EsPrimero(indices, mes, k) && r.value == indices[k].valor by {
        if r.Some? {
          var k: nat :| EsPrimero(indices[1..], mes, k) && r.value == indices[1..][k].valor;
          assert EsPrimero(indices, mes, k + 1);
        }
      }
      r
  }

  function ConAjuste(a: Asiento, contrato: string, indices: seq<Indice>): Asiento {
    if a.contrato == contrato && a.estado == PendienteAjuste then
      match Buscar(indices, a.vencimiento.month)
      case None => a
      case Some(valor) =>
        Registrar(a.(montoActual := Times(a.montoOriginal, valor)), a.partidas, Pendiente, AjusteIndice,
                  Times(a.montoOriginal, valor))
    else a
  }

  function Ajustar(l: Libro, contrato: string, indices: seq<Indice>): Libro {
    l.(asientos := map id | id in l.asientos :: ConAjuste(l.asientos[id], contrato, indices))
  }

  // ---------- accepted steps, with the cash written as one update ----------

  lemma {:induction false} PasoDePago(l: Libro, id: string, monto: real, cuenta: string)
    requires id in l.asientos
    ensures var a := l.asientos[id];
            var conDebe := Total(DebeOf, a.partidas) > 0.0;
            var r := Pagar(l, id, monto, cuenta);
            && (r.Ok? <==> PagoAceptable(a, monto) && (conDebe ==> cuenta in l.cuentas))
            && (r.Err? && PagoAceptable(a, monto) ==> r.error == CuentaNoEncontrada)
            && (r.Err? && a.estado != Anulado && a.estado != Condonado && !PagoAceptable(a, monto) ==>
                  r.error == ExcedeSaldo)
            && (r.Ok? ==>
                  && r.value.asientos == l.asientos[id := ConPago(a, monto)]
                  && r.value.cuentas == Mover(l.cuentas, cuenta, if conDebe then monto else 0.0))
  {
  }

  /** When a settlement is accepted and what it stores, with the cash written as one update. */
  lemma {:induction false} PasoDeLiquidacion(l: Libro, id: string, agente: string, pedido: Option<real>, cuenta: string)
    requires id in l.asientos
    ensures var ps := l.asientos[id].partidas;
            var r := LiquidarAPropietario(l, id, agente, pedido, cuenta);
            && (r.Ok? <==> LiquidacionAceptable(l, id, agente, pedido, cuenta))
            && (r.Ok? ==>
                  && r.value.asientos == l.asientos[id := ConLiquidacion(l.asientos[id], agente, pedido)]
                  && r.value.cuentas == TrasEgreso(l.cuentas, cuenta, Neto(ps, agente, pedido)))
  {
  }

  // ---------- the service ----------

  datatype Movimiento = Ingreso | Egreso | Fijar

  /** The stored state and the operations on it. A method reads an entry, works on a copy of its lines and
      saves; a failure before the save leaves the store as it was. */
  class LedgerService {
    var asientos: map<string, Asiento>
    var cuentas: map<string, real>

    constructor (asientos: map<string, Asiento>, cuentas: map<string, real>)
      ensures Contenido() == Libro(asientos, cuentas)
    {
      this.asientos := asientos;
      this.cuentas := cuentas;
    }

    function Contenido(): Libro
      reads this
    {
      Libro(asientos, cuentas)
    }

    method UpdateBalance(cuenta: string, monto: real, tipo: Movimiento) returns (ok: bool)
      modifies this`cuentas
      ensures ok <==> cuenta in old(cuentas)
      ensures !ok ==> cuentas == old(cuentas)
      ensures ok ==> cuentas == old(cuentas)[cuenta :=
                match tipo
                case Ingreso => old(cuentas)[cuenta] + monto
                case Egreso => old(cuentas)[cuenta] - monto
                case Fijar => monto]
    {
      ok := cuenta in cuentas;
      if !ok { return; }
      var saldo := match tipo
        case Ingreso => cuentas[cuenta] + monto
        case Egreso => cuentas[cuenta] - monto
        case Fijar => monto;
      cuentas := cuentas[cuenta := saldo];
    }

    /** Cash enters only for an entry with DEBE. */
    method Ingresar(conDebe: bool, cuenta: string, monto: real) returns (ok: bool)
      modifies this`cuentas
      ensures ok <==> !conDebe || cuenta in old(cuentas)
      ensures cuentas == if ok then Mover(old(cuentas), cuenta, if conDebe then monto else 0.0) else old(cuentas)
    {
      ok := true;
      MoverDos(cuentas, cuenta, 0.0, 0.0);
      if conDebe { ok := UpdateBalance(cuenta, monto, Ingreso); }
    }

    /** Takes an amount from an account; nothing to take needs no account. */
    method Descontar(cuenta: string, monto: real) returns (ok: bool)
      requires monto >= 0.0
      modifies this`cuentas
      ensures ok <==> monto == 0.0 || cuenta in old(cuentas)
      ensures cuentas == if ok then Mover(old(cuentas), cuenta, -monto) else old(cuentas)
    {
      ok := true;
      MoverDos(cuentas, cuenta, 0.0, 0.0);
      if monto > 0.0 { ok := UpdateBalance(cuenta, monto, Egreso); }
    }

    method RegisterPayment(id: string, monto: real, cuenta: string) returns (r: Result<Asiento, Error>)
      modifies this
      ensures var paso := Pagar(old(Contenido()), id, monto, cuenta);
              if paso.Ok? then Contenido() == paso.value && r == Ok(asientos[id])
              else Contenido() == old(Contenido()) && r == Err(paso.error)
    {
      if id !in asientos { return Err(AsientoNoEncontrado); }
      var asiento := asientos[id];
      if asiento.estado == Anulado || asiento.estado == Condonado {
        r := Err(EstadoInvalido);
      } else if monto > SaldoPendiente(asiento.partidas) {
        r := Err(ExcedeSaldo);
      } else {
        var ok := Ingresar(Total(DebeOf, asiento.partidas) > 0.0, cuenta, monto);
        if ok {
          asiento := ImputarPago(asiento, monto);
          asientos := asientos[id := asiento];
        }
        r := if ok then Ok(asiento) else Err(CuentaNoEncontrada);
      }
    }

    method CondonarDeuda(id: string, pedido: Option<real>) returns (r: Result<Asiento, Error>)
      modifies this`asientos
      ensures var paso := Condonar(old(Contenido()), id, pedido);
              if paso.Ok? then Contenido() == paso.value && r == Ok(asientos[id])
              else Contenido() == old(Contenido()) && r == Err(paso.error)
    {
      if id !in asientos { return Err(AsientoNoEncontrado); }
      var asiento := asientos[id];
      if asiento.estado == Anulado || asiento.estado == Condonado { return Err(EstadoInvalido); }
      var saldo := SaldoCondonable(asiento);
      var monto := if pedido == None || pedido == Some(0.0) then saldo else pedido.value;
      if monto > saldo { return Err(ExcedeSaldo); }
      asiento := ImputarCondonacion(asiento, monto);
      asientos := asientos[id := asiento];
      r := Ok(asiento);
    }

    method LiquidarPropietario(id: string, agente: string, pedido: Option<real>, cuenta: string)
      returns (r: Result<Asiento, Error>)
      modifies this
      ensures var paso := LiquidarAPropietario(old(Contenido()), id, agente, pedido, cuenta);
              if paso.Ok? then Contenido() == paso.value && r == Ok(asientos[id])
              else Contenido() == old(Contenido()) && r == Err(paso.error)
    {
      if id !in asientos { return Err(AsientoNoEncontrado); }
      var asiento := asientos[id];
      if !TieneLineas(asiento.partidas, agente) {
        r := Err(SinPartidasDelAgente);
      } else {
        var nuevo, monto := LiquidarAsiento(asiento, agente, pedido);
        var ok := Descontar(cuenta, monto);
        if ok { asientos := asientos[id := nuevo]; }
        r := if ok then Ok(nuevo) else Err(CuentaNoEncontrada);
      }
    }

    method AnularAsiento(id: string) returns (r: Result<Asiento, Error>)
      modifies this`asientos
      ensures var paso := Anular(old(Contenido()), id);
              if paso.Ok? then Contenido() == paso.value && r == Ok(asientos[id])
              else Contenido() == old(Contenido()) && r == Err(paso.error)
    {
      if id !in asientos { return Err(AsientoNoEncontrado); }
      var asiento := asientos[id];
      if asiento.estado == Pagado || asiento.estado == Anulado { return Err(EstadoInvalido); }
      asiento := Registrar(asiento, asiento.partidas, Anulado, Anulacion, 0.0);
      asientos := asientos[id := asiento];
      r := Ok(asiento);
    }

    /** Visits the pending entries one by one, in whatever order the store gives them, and lists those it
        changed. */
    method ActualizarPendientesAjuste(contrato: string, indices: seq<Indice>) returns (actualizados: seq<string>)
      modifies this`asientos
      ensures Contenido() == Ajustar(old(Contenido()), contrato, indices)
      ensures Cambiados(old(asientos), asientos, actualizados)
    {
      actualizados := [];
      var pendientes := set id | id in asientos && asientos[id].contrato == contrato
                                 && asientos[id].estado == PendienteAjuste;
      ghost var antes := asientos;
      while pendientes != {}
        invariant AjusteEnCurso(antes, asientos, pendientes, contrato, indices)
        invariant Cambiados(antes, asientos, actualizados)
        decreases pendientes
      {
        var id :| id in pendientes;
        UnAjusteMas(antes, asientos, pendientes, contrato, indices, id);
        pendientes := pendientes - {id};
        var ajustado, cambia := AjustarAsiento(asientos[id], contrato, indices);
        UnCambioMas(antes, asientos, actualizados, id, ajustado);
        asientos := asientos[id := ajustado];
        if cambia { actualizados := actualizados + [id]; }
      }
      AjusteTerminado(antes, asientos, contrato, indices);
    }
  }

  /** Entries still to visit are as they were; the others are as the adjustment leaves them. */
  ghost predicate AjusteEnCurso(antes: map<string, Asiento>, ahora: map<string, Asiento>, pendientes: set<string>,
                                contrato: string, indices: seq<Indice>) {
    && ahora.Keys == antes.Keys && pendientes <= antes.Keys
    && (forall id :: id in pendientes ==>
          ahora[id] == antes[id] && antes[id].contrato == contrato && antes[id].estado == PendienteAjuste)
    && (forall id :: id in antes && id !in pendientes ==> ahora[id] == ConAjuste(antes[id], contrato, indices))
  }

  /** `ids` are the entries that are not as before, each once. */
  ghost predicate Cambiados(antes: map<string, Asiento>, ahora: map<string, Asiento>, ids: seq<string>) {
    && ahora.Keys == antes.Keys
    && (forall i, j :: 0 <= i < j < |ids| ==> ids[i] != ids[j])
    && (forall id :: id in ids <==> id in antes && ahora[id] != antes[id])
  }

  lemma {:induction false} UnCambioMas(
    antes: map<string, Asiento>, ahora: map<string, Asiento>, ids: seq<string>, id: string, nuevo: Asiento)
    requires Cambiados(antes, ahora, ids) && id in antes && ahora[id] == antes[id]
    ensures Cambiados(antes, ahora[id := nuevo], if nuevo == ahora[id] then ids else ids + [id])
  {
    var m, js := ahora[id := nuevo], if nuevo == ahora[id] then ids else ids + [id];
    forall k ensures k in js <==> k in antes && m[k] != antes[k] {
      if k != id { assert k in js <==> k in ids; }
    }
  }

  lemma {:induction false} UnAjusteMas(
    antes: map<string, Asiento>, ahora: map<string, Asiento>, pendientes: set<string>,
    contrato: string, indices: seq<Indice>, id: string)
    requires AjusteEnCurso(antes, ahora, pendientes, contrato, indices) && id in pendientes
    ensures ahora[id].contrato == contrato && ahora[id].estado == PendienteAjuste
    ensures AjusteEnCurso(antes, ahora[id := ConAjuste(ahora[id], contrato, indices)], pendientes - {id},
                          contrato, indices)
  {
  }

  lemma {:induction false} AjusteTerminado(
    antes: map<string, Asiento>, ahora: map<string, Asiento>, contrato: string, indices: seq<Indice>)
    requires AjusteEnCurso(antes, ahora, {}, contrato, indices)
    ensures ahora == map id | id in antes :: ConAjuste(antes[id], contrato, indices)
  {
  }

  /** An entry with no index for its month stays as it is. */
  method AjustarAsiento(asiento: Asiento, contrato: string, indices: seq<Indice>) returns (r: Asiento, cambia: bool)
    requires asiento.contrato == contrato && asiento.estado == PendienteAjuste
    ensures r == ConAjuste(asiento, contrato, indices)
    ensures cambia <==> r != asiento
  {
    r, cambia := asiento, false;
    var indice := Buscar(indices, asiento.vencimiento.month);
    if indice.None? { return; }
    var ajustado := Times(asiento.montoOriginal, indice.value);
    r := Registrar(asiento.(montoActual := ajustado), asiento.partidas, Pendiente, AjusteIndice, ajustado);
    cambia := true;
  }

  /** The lines of a stored entry as the document read from the store. */
  method Copia(ps: seq<Partida>) returns (a: array<Partida>)
    ensures fresh(a) && a[..] == ps
  {
    a := new Partida[|ps|](i requires 0 <= i < |ps| => ps[i]);
  }

  /** The collection loop on a copy of the lines, and the new estado of a payment or of a forgiveness. */
  method ImputarPago(a: Asiento, monto: real) returns (b: Asiento)
    ensures b == ConPago(a, monto)
  {
    var partidas := Copia(a.partidas);
    ImputarEnDebe(partidas, monto);
    var ps := partidas[..];
    var estado := EstadoTrasPago(ps, a.montoActual);
    b := Registrar(a, ps, estado, AccionDePago(estado), monto);
  }

  method ImputarCondonacion(a: Asiento, monto: real) returns (b: Asiento)
    ensures b == ConCondonacion(a, monto)
  {
    var partidas := Copia(a.partidas);
    ImputarEnDebe(partidas, monto);
    var ps := partidas[..];
    var estado := if Total(PagadoOf, ps) >= a.montoOriginal then Condonado else PagadoParcial;
    b := Registrar(a, ps, estado, Condonacion, monto);
  }

  /** Both settlement loops on a copy of the lines, and the net they leave to pay. */
  method LiquidarLineas(ps: seq<Partida>, agente: string, pedido: Option<real>) returns (qs: seq<Partida>, neto: real)
    ensures qs == Liquidar(ps, agente, pedido)
    ensures neto == Neto(ps, agente, pedido)
  {
    var partidas := Copia(ps);
    var haberTotal := LiquidarEnHaber(partidas, agente, pedido);
    CompensacionNoVeLiquidado(ps, agente, pedido);
    var debeTotal := CompensarEnDebe(partidas, agente);
    qs := partidas[..];
    neto := haberTotal - debeTotal;
  }

  method LiquidarAsiento(a: Asiento, agente: string, pedido: Option<real>) returns (b: Asiento, monto: real)
    ensures b == ConLiquidacion(a, agente, pedido)
    ensures monto == Abs(Neto(a.partidas, agente, pedido))
  {
    var ps, neto := LiquidarLineas(a.partidas, agente, pedido);
    monto := Abs(neto);
    b := Registrar(a, ps, EstadoTrasLiquidar(ps, a.estado), Liquidacion, monto);
  }

  /** Settling HABER leaves what the agent owes untouched. */
  lemma {:induction false} CompensacionNoVeLiquidado(ps: seq<Partida>, agente: string, pedido: Option<real>)
    ensures Total(Compensable(agente), LiquidarHaber(ps, agente, pedido)) == Total(Compensable(agente), ps)
  {
    TotalEq(Compensable(agente), LiquidarHaber(ps, agente, pedido), Compensable(agente), ps);
  }
}
