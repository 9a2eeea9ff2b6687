/** The computing part of the simulator's driver: the chain of input checks,
    the derived scalars handed to the generator, and what a schedule built from
    accepted inputs is guaranteed to satisfy. */
module Simulador {
  import opened Finanzas
  import opened Validaciones
  import opened Generador
  import opened Amortizacion

  /** The six numbers the user enters. */
  datatype DatosCredito = DatosCredito(
    valorInmueble: real,
    cuotaInicial: real,
    teaPorcentaje: real,
    nroCuotas: real,
    seguroDesgravamenMensualPorcentaje: real,
    seguroBienAnualPorcentaje: real)

  // The messages the driver's checks print on rejection.
  const MensajeValorInmueble := "El valor del inmueble debe ser mayor a 0."
  const MensajeCuotaInicial := "La cuota inicial debe ser mayor a 0."
  const MensajeCuotaInicialExcede := "La cuota inicial no puede ser mayor o igual al valor del inmueble."
  const MensajeTea := "La TEA (%) debe ser mayor a 0."
  const MensajeNroCuotas := "El número de cuotas debe ser entre 12 y 360)."
  const MensajeDesgravamen := "El porcentaje del desgravamen mensual (%) debe ser mayor a 0."
  const MensajeSeguroBien := "El porcentaje de seguro del inmueble (%) debe ser mayor a 0."

  /** The conditions the six inputs must meet together. */
  predicate DatosValidos(d: DatosCredito)
  {
    && d.valorInmueble > 0.0
    && d.cuotaInicial > 0.0
    && d.cuotaInicial < d.valorInmueble
    && d.teaPorcentaje > 0.0
    && NroCuotasRangoInicial <= d.nroCuotas <= NroCuotasRangoFinal
    && d.nroCuotas.Floor as real == d.nroCuotas
    && d.seguroDesgravamenMensualPorcentaje > 0.0
    && d.seguroBienAnualPorcentaje > 0.0
  }

  /** The input checks in the order the driver runs them; the first one that
      fails decides the message. The instalment count uses the whole-number
      check `ValidarNroCuotas`. */
  function ValidarDatos(d: DatosCredito): (v: Veredicto)
    ensures v.Aceptado? <==> DatosValidos(d)
    ensures d.valorInmueble <= 0.0 ==> v == Rechazado(MensajeValorInmueble)
    ensures d.valorInmueble > 0.0 && d.cuotaInicial <= 0.0 ==> v == Rechazado(MensajeCuotaInicial)
    ensures d.valorInmueble > 0.0 && d.cuotaInicial > 0.0 && d.cuotaInicial >= d.valorInmueble ==>
              v == Rechazado(MensajeCuotaInicialExcede)
  {
    var valor := ValidarNumeroMayorACero(d.valorInmueble, MensajeValorInmueble);
    if valor.Rechazado? then valor else
    var inicial := ValidarNumeroMayorACero(d.cuotaInicial, MensajeCuotaInicial);
    if inicial.Rechazado? then inicial else
    var menor := ValidarCuotaInicial(d.valorInmueble, d.cuotaInicial, MensajeCuotaInicialExcede);
    if menor.Rechazado? then menor else
    var tea := ValidarNumeroMayorACero(d.teaPorcentaje, MensajeTea);
    if tea.Rechazado? then tea else
    var cuotas := ValidarNroCuotas(d.nroCuotas, MensajeNroCuotas);
    if cuotas.Rechazado? then cuotas else
    var desgravamen := ValidarNumeroMayorACero(d.seguroDesgravamenMensualPorcentaje, MensajeDesgravamen);
    if desgravamen.Rechazado? then desgravamen else
    ValidarNumeroMayorACero(d.seguroBienAnualPorcentaje, MensajeSeguroBien)
  }

  /** The generator's arguments derived from accepted inputs (those for which
      `ValidarDatos` answers `Aceptado`), given the monthly rate equivalent to
      the annual rate. */
  function CreditoDe(d: DatosCredito, tasaMensual: real, fechaDesembolso: Fecha): (c: Credito)
    requires DatosValidos(d)
    requires EsTasaMensual(tasaMensual, d.teaPorcentaje, BasePorcentual)
    ensures c.montoCredito > 0.0 && c.montoCredito + d.cuotaInicial == d.valorInmueble
    ensures c.tasaMensual > 0.0
    ensures c.nroCuotas as real == d.nroCuotas && 12 <= c.nroCuotas <= 360
    ensures c.cuotaBaseSinSeguros == CuotaBase(c.montoCredito, c.tasaMensual, c.nroCuotas)
    ensures c.seguroDesgravamenMensual * BasePorcentual == d.seguroDesgravamenMensualPorcentaje
    ensures MesesPorAnio as real * c.seguroBienMensual * BasePorcentual
            == d.valorInmueble * d.seguroBienAnualPorcentaje
    ensures c.fechaDesembolso == fechaDesembolso
  {
    TasaMensualPositiva(tasaMensual, d.teaPorcentaje, BasePorcentual);
    var nroCuotas: nat := d.nroCuotas.Floor;
    var montoCredito := MontoCredito(d.valorInmueble, d.cuotaInicial);
    Credito(montoCredito, fechaDesembolso, nroCuotas,
            SeguroDesgravamenMensual(d.seguroDesgravamenMensualPorcentaje, BasePorcentual),
            CuotaBase(montoCredito, tasaMensual, nroCuotas),
            SeguroBienMensual(d.valorInmueble, d.seguroBienAnualPorcentaje, BasePorcentual),
            tasaMensual)
  }

  /** For accepted inputs the schedule has one record per instalment entered,
      is fully repaid at the last one, and its balance and interest fall
      strictly while the principal repaid grows by the factor (1 + i). */
  lemma DatosAceptadosAmortizan(d: DatosCredito, tasaMensual: real, fechaDesembolso: Fecha)
    requires DatosValidos(d)
    requires EsTasaMensual(tasaMensual, d.teaPorcentaje, BasePorcentual)
    ensures var cuotas := Cronograma(CreditoDe(d, tasaMensual, fechaDesembolso));
            && |cuotas| as real == d.nroCuotas
            && cuotas[|cuotas| - 1].saldoCapital == 0.0
            && (forall j :: 0 <= j < |cuotas| ==>
                  cuotas[j].saldoCapital >= 0.0 && cuotas[j].amortizacion > 0.0)
            && (forall j :: 0 < j < |cuotas| ==>
                  cuotas[j].saldoCapital < cuotas[j - 1].saldoCapital
                  && cuotas[j].interes < cuotas[j - 1].interes
                  && CrecePorTasa(cuotas[j - 1].amortizacion, cuotas[j].amortizacion, tasaMensual))
            && TotalAmortizado(cuotas) == d.valorInmueble - d.cuotaInicial
  {
    var c := CreditoDe(d, tasaMensual, fechaDesembolso);
    CronogramaAmortizaCompletamente(c);
    TotalesDelCronograma(c);
  }

  /** The driver's built-in test data: a 400000 property, 100000 down, 8 % a
      year over 240 months, 0.03 % monthly life insurance and 0.3 % yearly
      property insurance. */
  function DatosDePrueba(): DatosCredito
  {
    DatosCredito(400000.0, 100000.0, 8.0, 240.0, 0.03, 0.3)
  }

  /** The test data would pass every check (the driver skips them on that
      path); 300000 is financed, property insurance
      is 100 a month, and the 240-record schedule starts with the interest on
      300000 and ends fully repaid. */
  lemma EscenarioDePrueba(tasaMensual: real, fechaDesembolso: Fecha)
    requires EsTasaMensual(tasaMensual, 8.0, BasePorcentual)
    ensures ValidarDatos(DatosDePrueba()).Aceptado?
    ensures CreditoDe(DatosDePrueba(), tasaMensual, fechaDesembolso).montoCredito == 300000.0
    ensures var cuotas := Cronograma(CreditoDe(DatosDePrueba(), tasaMensual, fechaDesembolso));
            && |cuotas| == 240
            && cuotas[0].interes == 300000.0 * tasaMensual
            && cuotas[0].seguroBien == 100.0
            && cuotas[0].seguroDesgravamen == 300000.0 * 0.0003
            && cuotas[239].saldoCapital == 0.0
  {
    var d := DatosDePrueba();
    assert DatosValidos(d);
    DatosAceptadosAmortizan(d, tasaMensual, fechaDesembolso);
    SeguroBienDeEjemplo();
    var c := CreditoDe(d, tasaMensual, fechaDesembolso);
    CuotaDelPeriodoCoherente(c, 1);
  }

  /** Disbursed on 15 January 2024, the test schedule falls due on 15 February
      2024 first and on 15 January 2044 last. */
  lemma FechasDelEscenario(tasaMensual: real, fecha: Fecha)
    requires EsTasaMensual(tasaMensual, 8.0, BasePorcentual)
    requires fecha == Fecha(2024, 0, 15)
    ensures var cuotas := Cronograma(CreditoDe(DatosDePrueba(), tasaMensual, fecha));
            && |cuotas| == 240
            && cuotas[0].fechaVencimiento == Fecha(2024, 1, 15)
            && cuotas[239].fechaVencimiento == Fecha(2044, 0, 15)
  {
    assert DatosValidos(DatosDePrueba());
    var c := CreditoDe(DatosDePrueba(), tasaMensual, fecha);
    VencimientosDelCronograma(c, 0);
    VencimientosDelCronograma(c, 239);
  }
}
