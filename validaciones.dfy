/** Range validators of the simulator's input step. Each one either accepts
    its input or rejects it with the message it would print. */
module Validaciones {

  /** Outcome of a validator: the source returns `null` on rejection (after
      printing `mensaje`) and nothing on acceptance. */
  datatype Veredicto = Aceptado | Rechazado(mensaje: string)

  /** Bounds of the number of instalments (NRO_CUOTAS_RANGO_INICIAL/FINAL). */
  const NroCuotasRangoInicial: real := 12.0
  const NroCuotasRangoFinal: real := 360.0

  /** Rejects a number that is not strictly positive. */
  function ValidarNumeroMayorACero(numero: real, mensaje: string): (v: Veredicto)
    ensures v.Rechazado? <==> numero <= 0.0
    ensures v.Rechazado? ==> v.mensaje == mensaje
  {
    if numero <= 0.0 then Rechazado(mensaje) else Aceptado
  }

  /** Rejects a number outside the closed range [limiteInferior, limiteSuperior]. */
  function ValidarNumeroRango(numero: real, limiteInferior: real, limiteSuperior: real,
                              mensaje: string): (v: Veredicto)
    ensures v.Rechazado? <==> numero < limiteInferior || numero > limiteSuperior
    ensures v.Aceptado? <==> limiteInferior <= numero <= limiteSuperior
    ensures v.Rechazado? ==> v.mensaje == mensaje
  {
    if numero < limiteInferior || numero > limiteSuperior then Rechazado(mensaje) else Aceptado
  }

  /** Rejects a down payment that is not below the property value. */
  function ValidarCuotaInicial(valorInmueble: real, cuotaInicial: real, mensaje: string): (v: Veredicto)
    ensures v.Rechazado? <==> cuotaInicial >= valorInmueble
    ensures v.Rechazado? ==> v.mensaje == mensaje
  {
    if cuotaInicial >= valorInmueble then Rechazado(mensaje) else Aceptado
  }

  /** How many times the schedule loop `for (k = 1; k <= nroCuotas; k++)`
      runs when its bound is an arbitrary number: the largest whole k with
      1 <= k <= nroCuotas, or none. */
  function IteracionesDelBucle(nroCuotas: real): (pasadas: nat)
    ensures pasadas >= 1 ==> pasadas as real <= nroCuotas
    ensures (pasadas + 1) as real > nroCuotas
  {
    if nroCuotas < 1.0 then 0 else nroCuotas.Floor
  }

  /** The range check accepts a fractional number of instalments, for which the
      loop makes fewer passes than the number accepted. */
  lemma RangoAceptaCuotasFraccionarias(mensaje: string)
    ensures ValidarNumeroRango(12.5, NroCuotasRangoInicial, NroCuotasRangoFinal, mensaje) == Aceptado
    ensures IteracionesDelBucle(12.5) == 12
    ensures IteracionesDelBucle(12.5) as real != 12.5
  {
  }

  /** Instalment-count validation as intended: within range and whole. */
  function ValidarNroCuotas(nroCuotas: real, mensaje: string): (v: Veredicto)
    ensures v.Aceptado? <==>
              NroCuotasRangoInicial <= nroCuotas <= NroCuotasRangoFinal
              && nroCuotas.Floor as real == nroCuotas
    ensures v.Aceptado? ==> IteracionesDelBucle(nroCuotas) as real == nroCuotas
    ensures v.Rechazado? ==> v.mensaje == mensaje
  {
    var enRango := ValidarNumeroRango(nroCuotas, NroCuotasRangoInicial, NroCuotasRangoFinal, mensaje);
    if enRango.Rechazado? then enRango
    else if nroCuotas.Floor as real != nroCuotas then Rechazado(mensaje)
    else Aceptado
  }
}
