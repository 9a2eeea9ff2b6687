/** The schedule generator: a single pass over periods 1..nroCuotas that
    carries the previous balance and the previous due date forward and emits
    one instalment record per period. */
module Generador {

  /** Month of the year as JavaScript's `Date.getMonth` numbers it (0 = January). */
  type Mes = m: int | 0 <= m < 12

  /** A calendar date reduced to what the schedule changes: year, month and
      day of month. The time of day plays no part. */
  datatype Fecha = Fecha(anio: int, mes: Mes, dia: int)

  /** Months elapsed since January of year 0: the date as a month counter. */
  function IndiceMes(f: Fecha): int
  {
    f.anio * 12 + f.mes
  }

  /** The same day of the following month (`setMonth(getMonth() + 1)`), rolling
      December over into January of the next year. */
  function SiguienteMes(f: Fecha): (g: Fecha)
    ensures IndiceMes(g) == IndiceMes(f) + 1
    ensures g.dia == f.dia
  {
    if f.mes == 11 then Fecha(f.anio + 1, 0, f.dia) else Fecha(f.anio, f.mes + 1, f.dia)
  }

  /** The due date k months after disbursement, reached one month at a time. */
  function Vencimiento(fechaDesembolso: Fecha, k: nat): Fecha
  {
    if k == 0 then fechaDesembolso else SiguienteMes(Vencimiento(fechaDesembolso, k - 1))
  }

  /** Advancing k times by one month moves the month counter by exactly k and
      keeps the day of month. */
  lemma {:induction false} VencimientoAvanzaKMeses(fechaDesembolso: Fecha, k: nat)
    ensures IndiceMes(Vencimiento(fechaDesembolso, k)) == IndiceMes(fechaDesembolso) + k
    ensures Vencimiento(fechaDesembolso, k).dia == fechaDesembolso.dia
  {
    if k > 0 {
      VencimientoAvanzaKMeses(fechaDesembolso, k - 1);
    }
  }

  /** One instalment of the schedule (the object `cuota` the loop pushes). */
  datatype Cuota = Cuota(
    nroCuota: nat,
    fechaVencimiento: Fecha,
    amortizacion: real,
    interes: real,
    seguroDesgravamen: real,
    seguroBien: real,
    montoCuota: real,
    saldoCapital: real)

  /** The seven arguments the generator receives. */
  datatype Credito = Credito(
    montoCredito: real,
    fechaDesembolso: Fecha,
    nroCuotas: nat,
    seguroDesgravamenMensual: real,
    cuotaBaseSinSeguros: real,
    seguroBienMensual: real,
    tasaMensual: real)

  /** Interest of one period on the balance the period starts with. */
  function Interes(saldo: real, tasaMensual: real): real
  {
    saldo * tasaMensual
  }

  /** Outstanding balance after k periods: starts at the financed amount and
      each period subtracts the payment net of the interest on the balance. */
  function Saldo(montoCredito: real, tasaMensual: real, cuotaBase: real, k: nat): real
  {
    if k == 0 then montoCredito
    else
      var anterior := Saldo(montoCredito, tasaMensual, cuotaBase, k - 1);
      anterior - (cuotaBase - Interes(anterior, tasaMensual))
  }

  /** Balance of credit `c` after k periods. */
  function SaldoTras(c: Credito, k: nat): real
  {
    Saldo(c.montoCredito, c.tasaMensual, c.cuotaBaseSinSeguros, k)
  }

  /** The record whose fields satisfy the per-period equations for a period
      entered with balance `saldoAnterior`. */
  ghost predicate CuotaCoherente(cuota: Cuota, saldoAnterior: real, c: Credito)
  {
    && cuota.interes == saldoAnterior * c.tasaMensual
    && cuota.seguroDesgravamen == saldoAnterior * c.seguroDesgravamenMensual
    && cuota.amortizacion == c.cuotaBaseSinSeguros - cuota.interes
    && cuota.saldoCapital == saldoAnterior - cuota.amortizacion
    && cuota.seguroBien == c.seguroBienMensual
    && cuota.montoCuota == c.cuotaBaseSinSeguros + cuota.seguroDesgravamen + c.seguroBienMensual
  }

  /** The record of period k (k >= 1) of credit `c`. */
  function CuotaDelPeriodo(c: Credito, k: nat): Cuota
    requires k >= 1
  {
    var saldoAnterior := SaldoTras(c, k - 1);
    var seguroDesgravamen := saldoAnterior * c.seguroDesgravamenMensual;
    var interes := Interes(saldoAnterior, c.tasaMensual);
    var amortizacion := c.cuotaBaseSinSeguros - interes;
    Cuota(k, Vencimiento(c.fechaDesembolso, k), amortizacion, interes, seguroDesgravamen,
          c.seguroBienMensual, c.cuotaBaseSinSeguros + seguroDesgravamen + c.seguroBienMensual,
          saldoAnterior - amortizacion)
  }

  /** The record of period k carries the balance after k periods and satisfies
      the per-period equations against the balance after k - 1. */
  lemma CuotaDelPeriodoCoherente(c: Credito, k: nat)
    requires k >= 1
    ensures CuotaDelPeriodo(c, k).saldoCapital == SaldoTras(c, k)
    ensures CuotaDelPeriodo(c, k).fechaVencimiento == SiguienteMes(Vencimiento(c.fechaDesembolso, k - 1))
    ensures CuotaCoherente(CuotaDelPeriodo(c, k), SaldoTras(c, k - 1), c)
  {
  }

  /** The whole schedule of credit `c`: periods 1..nroCuotas in order. */
  function Cronograma(c: Credito): seq<Cuota>
  {
    seq(c.nroCuotas, j requires 0 <= j < c.nroCuotas => CuotaDelPeriodo(c, j + 1))
  }

  /** Record k (0-based) of the schedule falls due k + 1 months after
      disbursement, on the same day of the month. */
  lemma VencimientosDelCronograma(c: Credito, k: nat)
    requires k < c.nroCuotas
    ensures Cronograma(c)[k].fechaVencimiento == Vencimiento(c.fechaDesembolso, k + 1)
    ensures IndiceMes(Cronograma(c)[k].fechaVencimiento) == IndiceMes(c.fechaDesembolso) + k + 1
    ensures Cronograma(c)[k].fechaVencimiento.dia == c.fechaDesembolso.dia
  {
    assert Cronograma(c)[k] == CuotaDelPeriodo(c, k + 1);
    VencimientoAvanzaKMeses(c.fechaDesembolso, k + 1);
  }

  /** Record k (0-based) of the schedule: numbered k + 1, due one month after
      the due date k months after disbursement, carrying the balance after
      k + 1 periods and satisfying the per-period equations against the
      balance after k. */
  lemma CuotaDelCronograma(c: Credito, k: nat)
    requires k < c.nroCuotas
    ensures Cronograma(c)[k].nroCuota == k + 1
    ensures Cronograma(c)[k].fechaVencimiento == SiguienteMes(Vencimiento(c.fechaDesembolso, k))
    ensures Cronograma(c)[k].saldoCapital == SaldoTras(c, k + 1)
    ensures CuotaCoherente(Cronograma(c)[k], SaldoTras(c, k), c)
  {
    assert Cronograma(c)[k] == CuotaDelPeriodo(c, k + 1);
    CuotaDelPeriodoCoherente(c, k + 1);
  }

  /** Every record of the schedule is numbered by its period, falls due one
      month after the previous due date (the first one month after
      disbursement) on the disbursement day, and satisfies the per-period
      equations against the balance the previous record leaves (the first
      against the financed amount). */
  lemma CronogramaCoherente(c: Credito)
    ensures |Cronograma(c)| == c.nroCuotas
    ensures forall k :: 0 <= k < c.nroCuotas ==> Cronograma(c)[k].nroCuota == k + 1
    ensures forall k :: 0 <= k < c.nroCuotas ==>
              IndiceMes(Cronograma(c)[k].fechaVencimiento) == IndiceMes(c.fechaDesembolso) + k + 1
              && Cronograma(c)[k].fechaVencimiento.dia == c.fechaDesembolso.dia
    ensures forall k :: 0 < k < c.nroCuotas ==>
              Cronograma(c)[k].fechaVencimiento == SiguienteMes(Cronograma(c)[k - 1].fechaVencimiento)
    ensures c.nroCuotas > 0 ==> Cronograma(c)[0].fechaVencimiento == SiguienteMes(c.fechaDesembolso)
    ensures c.nroCuotas > 0 ==> CuotaCoherente(Cronograma(c)[0], c.montoCredito, c)
    ensures forall k :: 0 < k < c.nroCuotas ==>
              CuotaCoherente(Cronograma(c)[k], Cronograma(c)[k - 1].saldoCapital, c)
  {
    forall k | 0 <= k < c.nroCuotas
      ensures Cronograma(c)[k].nroCuota == k + 1
      ensures IndiceMes(Cronograma(c)[k].fechaVencimiento) == IndiceMes(c.fechaDesembolso) + k + 1
      ensures Cronograma(c)[k].fechaVencimiento.dia == c.fechaDesembolso.dia
    {
      VencimientosDelCronograma(c, k);
      CuotaDelCronograma(c, k);
    }
    if c.nroCuotas > 0 {
      CuotaDelCronograma(c, 0);
    }
    forall k | 0 < k < c.nroCuotas
      ensures Cronograma(c)[k].fechaVencimiento == SiguienteMes(Cronograma(c)[k - 1].fechaVencimiento)
      ensures CuotaCoherente(Cronograma(c)[k], Cronograma(c)[k - 1].saldoCapital, c)
    {
      CuotaDelCronograma(c, k - 1);
      CuotaDelCronograma(c, k);
      VencimientosDelCronograma(c, k - 1);
    }
  }

  /** Builds the schedule period by period, carrying the previous balance and
      the previous due date, as `simularCronograma` does. */
  method SimularCronograma(montoCredito: real, fechaDesembolso: Fecha, nroCuotas: nat,
                           seguroDesgravamenMensual: real, cuotaBaseSinSeguros: real,
                           seguroBienMensual: real, tasaMensual: real)
    returns (cuotas: seq<Cuota>)
    ensures cuotas == Cronograma(Credito(montoCredito, fechaDesembolso, nroCuotas,
                                         seguroDesgravamenMensual, cuotaBaseSinSeguros,
                                         seguroBienMensual, tasaMensual))
    ensures |cuotas| == nroCuotas
    ensures forall k :: 0 <= k < |cuotas| ==> cuotas[k].nroCuota == k + 1
    ensures forall k :: 0 <= k < |cuotas| ==>
              IndiceMes(cuotas[k].fechaVencimiento) == IndiceMes(fechaDesembolso) + k + 1
              && cuotas[k].fechaVencimiento.dia == fechaDesembolso.dia
    ensures forall k :: 0 < k < |cuotas| ==>
              cuotas[k].fechaVencimiento == SiguienteMes(cuotas[k - 1].fechaVencimiento)
    ensures nroCuotas > 0 ==> cuotas[0].fechaVencimiento == SiguienteMes(fechaDesembolso)
    ensures nroCuotas > 0 ==>
              CuotaCoherente(cuotas[0], montoCredito,
                             Credito(montoCredito, fechaDesembolso, nroCuotas,
                                     seguroDesgravamenMensual, cuotaBaseSinSeguros,
                                     seguroBienMensual, tasaMensual))
    ensures forall k :: 0 < k < |cuotas| ==>
              CuotaCoherente(cuotas[k], cuotas[k - 1].saldoCapital,
                             Credito(montoCredito, fechaDesembolso, nroCuotas,
                                     seguroDesgravamenMensual, cuotaBaseSinSeguros,
                                     seguroBienMensual, tasaMensual))
  {
    ghost var credito := Credito(montoCredito, fechaDesembolso, nroCuotas,
                                 seguroDesgravamenMensual, cuotaBaseSinSeguros,
                                 seguroBienMensual, tasaMensual);
    cuotas := [];
    var saldoCapitalAnterior := montoCredito;
    var fechaVencimientoAnterior := fechaDesembolso;
    for nroCuota := 1 to nroCuotas + 1
      invariant |cuotas| == nroCuota - 1
      invariant saldoCapitalAnterior == SaldoTras(credito, nroCuota - 1)
      invariant fechaVencimientoAnterior == Vencimiento(fechaDesembolso, nroCuota - 1)
      invariant forall j :: 0 <= j < |cuotas| ==> cuotas[j] == CuotaDelPeriodo(credito, j + 1)
    {
      var seguroDesgravamen := saldoCapitalAnterior * seguroDesgravamenMensual;
      var montoCuota := cuotaBaseSinSeguros + seguroDesgravamen + seguroBienMensual;
      var interes := saldoCapitalAnterior * tasaMensual;
      var amortizacion := cuotaBaseSinSeguros - interes;
      var saldoCapital := saldoCapitalAnterior - amortizacion;
      var fechaVencimiento := SiguienteMes(fechaVencimientoAnterior);
      var cuota := Cuota(nroCuota, fechaVencimiento, amortizacion, interes, seguroDesgravamen,
                         seguroBienMensual, montoCuota, saldoCapital);
      cuotas := cuotas + [cuota];
      saldoCapitalAnterior := saldoCapital;
      fechaVencimientoAnterior := fechaVencimiento;
    }
    assert cuotas == Cronograma(credito);
    CronogramaCoherente(credito);
  }
}
