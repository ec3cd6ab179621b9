/** The journal entry (asiento), its lines (partidas) and its change log (historial). */
module Entries {
  import opened Common
  import opened Dates

  datatype Estado =
    | Pendiente
    | PendienteAjuste
    | Pagado
    | PagadoParcial
    | Cobrado
    | Anulado
    | Condonado
    | PendienteAprobacion
    | Liquidado
    | AnuladoPorRescision
    | PendienteFacturar
    | Facturado

  datatype Accion = AjusteIndice | PagoCompleto | PagoParcial | Anulacion | Condonacion | Liquidacion

  /** One record of the change log; annulments carry no amount and log 0. */
  datatype Cambio = Cambio(accion: Accion, anterior: Estado, nuevo: Estado, monto: real)

  datatype Cuenta = CxcAlq | CxpLoc | IngHnr | PasDep | ActFid | CuentaCodigo(codigo: string)

  datatype TipoAsiento =
    | Alquiler
    | AlquilerMensual
    | DepositoCobro
    | DepositoDevolucion
    | SaldoApertura
    | HonorariosLocador
    | HonorariosLocatario
    | GastoServicio
    | AjusteCaja
    | OtroTipo(nombre: string)

  /** A line: `debe` is collected into `pagado`, `haber` is settled into `liquidado`. */
  datatype Partida = Partida(
    cuenta: Cuenta,
    debe: real,
    haber: real,
    agente: Option<string>,
    pagado: real,
    liquidado: real)

  datatype Asiento = Asiento(
    contrato: string,
    tipo: TipoAsiento,
    imputacion: Date,
    vencimiento: Date,
    periodo: int,
    estado: Estado,
    montoOriginal: real,
    montoActual: real,
    partidas: seq<Partida>,
    historial: seq<Cambio>)

  /** Fields and filtered fields of a line, as the reductions over `partidas` read them. */
  function DebeOf(p: Partida): real {
    p.debe
  }

  function HaberOf(p: Partida): real {
    p.haber
  }

  function PagadoOf(p: Partida): real {
    p.pagado
  }

  function PagadoEnDebe(p: Partida): real {
    if p.debe > 0.0 then p.pagado else 0.0
  }

  function PagadoEnHaber(p: Partida): real {
    if p.haber > 0.0 then p.pagado else 0.0
  }

  function HaberPositivo(p: Partida): real {
    if p.haber > 0.0 then p.haber else 0.0
  }

  function LiquidadoEnHaber(p: Partida): real {
    if p.haber > 0.0 then p.liquidado else 0.0
  }

  /** What is still owed on a DEBE line. */
  function Deuda(p: Partida): (d: real)
    ensures d >= 0.0
  {
    if p.debe > 0.0 && p.debe - p.pagado > 0.0 then p.debe - p.pagado else 0.0
  }

  /** One side only, nonnegative, and neither side beyond its amount. */
  predicate LineaOk(p: Partida) {
    && 0.0 <= p.debe && 0.0 <= p.haber && (p.debe == 0.0 || p.haber == 0.0)
    && 0.0 <= p.pagado <= p.debe
    && 0.0 <= p.liquidado <= p.haber
  }

  predicate LineasOk(ps: seq<Partida>) {
    forall i :: 0 <= i < |ps| ==> LineaOk(ps[i])
  }

  /** An entry as its creators store it: untouched lines, no log. */
  predicate Inicial(a: Asiento) {
    && (a.estado == Pendiente || a.estado == PendienteAjuste)
    && a.historial == []
    && LineasOk(a.partidas)
    && forall i :: 0 <= i < |a.partidas| ==> a.partidas[i].pagado == 0.0 && a.partidas[i].liquidado == 0.0
  }

  predicate Balanceado(ps: seq<Partida>) {
    Total(DebeOf, ps) == Total(HaberOf, ps)
  }

  /** On sound lines the filtered reductions agree with the plain ones. */
  lemma {:induction false} FiltrosCoinciden(ps: seq<Partida>)
    requires LineasOk(ps)
    ensures Total(PagadoEnDebe, ps) == Total(PagadoOf, ps)
    ensures Total(PagadoEnHaber, ps) == 0.0
    ensures Total(HaberPositivo, ps) == Total(HaberOf, ps)
    ensures Total(Deuda, ps) == Total(DebeOf, ps) - Total(PagadoEnDebe, ps)
  {
    TotalEq(PagadoEnDebe, ps, PagadoOf, ps);
    TotalZero(PagadoEnHaber, ps);
    TotalEq(HaberPositivo, ps, HaberOf, ps);
    TotalAdd(DebeOf, ps, Deuda, ps, PagadoEnDebe, ps);
  }
}
