/** Scalar derivations of the mortgage simulator: financed amount, insurance
    rates, the effective monthly rate and the fixed annuity payment, over exact
    real arithmetic. */
module Finanzas {

  /** The percentage base every rate is divided by (BASE_100_PORCENTUAL). */
  const BasePorcentual: real := 100.0

  /** Months per year, used to spread annual figures over the schedule. */
  const MesesPorAnio: nat := 12

  /** x raised to a natural power. */
  function Pow(x: real, n: nat): (r: real)
    ensures x > 0.0 ==> r > 0.0
    ensures x >= 1.0 ==> r >= 1.0
    ensures x > 1.0 && n >= 1 ==> r > 1.0
  {
    if n == 0 then 1.0
    else
      var p := Pow(x, n - 1);
      assert x >= 1.0 ==> x * p >= p;
      p * x
  }

  lemma {:induction false} PowUno(n: nat)
    ensures Pow(1.0, n) == 1.0
  {
    if n > 0 { PowUno(n - 1); }
  }

  /** Raising to a positive power is strictly increasing on positive bases. */
  lemma {:induction false} PowMonotono(x: real, y: real, n: nat)
    requires 0.0 < x < y
    ensures Pow(x, n) <= Pow(y, n)
    ensures n >= 1 ==> Pow(x, n) < Pow(y, n)
  {
    if n > 0 {
      PowMonotono(x, y, n - 1);
      ProductoCreciente(Pow(x, n - 1), Pow(y, n - 1), x, y);
    }
  }

  /** Products of ordered positive factors are ordered. */
  lemma ProductoCreciente(a: real, b: real, x: real, y: real)
    requires 0.0 < a <= b && 0.0 < x < y
    ensures a * x < b * y
  {
    assert a * x <= b * x;
  }

  /** Financed amount: property value minus down payment. */
  function MontoCredito(valorInmueble: real, cuotaInicial: real): (monto: real)
    ensures monto + cuotaInicial == valorInmueble
    ensures cuotaInicial < valorInmueble <==> monto > 0.0
  {
    valorInmueble - cuotaInicial
  }

  /** Monthly life-insurance rate as a fraction of the outstanding balance. */
  function SeguroDesgravamenMensual(porcentaje: real, basePorcentual: real): (fraccion: real)
    requires basePorcentual != 0.0
    ensures fraccion * basePorcentual == porcentaje
  {
    porcentaje / basePorcentual
  }

  /** `tasaMensual` is the effective monthly rate equivalent to the annual
      effective rate `teaPorcentaje` percent: compounding it over twelve months
      gives the annual factor, and it is the positive (principal) root. */
  predicate EsTasaMensual(tasaMensual: real, teaPorcentaje: real, basePorcentual: real)
    requires basePorcentual != 0.0
  {
    tasaMensual > -1.0 &&
    Pow(1.0 + tasaMensual, MesesPorAnio) == 1.0 + teaPorcentaje / basePorcentual
  }

  /** A positive annual rate yields a positive monthly rate. */
  lemma TasaMensualPositiva(tasaMensual: real, teaPorcentaje: real, basePorcentual: real)
    requires basePorcentual > 0.0 && teaPorcentaje > 0.0
    requires EsTasaMensual(tasaMensual, teaPorcentaje, basePorcentual)
    ensures tasaMensual > 0.0
  {
    assert teaPorcentaje / basePorcentual > 0.0;
    if tasaMensual < 0.0 {
      PowMonotono(1.0 + tasaMensual, 1.0, MesesPorAnio);
      PowUno(MesesPorAnio);
      assert false;
    } else if tasaMensual == 0.0 {
      PowUno(MesesPorAnio);
      assert false;
    }
  }

  /** The monthly rate is determined by the annual rate. */
  lemma TasaMensualUnica(i: real, j: real, teaPorcentaje: real, basePorcentual: real)
    requires basePorcentual != 0.0
    requires EsTasaMensual(i, teaPorcentaje, basePorcentual)
    requires EsTasaMensual(j, teaPorcentaje, basePorcentual)
    ensures i == j
  {
    if i < j {
      PowMonotono(1.0 + i, 1.0 + j, MesesPorAnio);
      assert false;
    } else if j < i {
      PowMonotono(1.0 + j, 1.0 + i, MesesPorAnio);
      assert false;
    }
  }

  /** The level-payment equation: a payment `cuota` repays `montoCredito` at
      rate `tasaMensual` when cuota * (factor - 1) == montoCredito * tasaMensual * factor,
      where factor is (1 + tasaMensual) raised to the number of periods. */
  predicate EsCuotaNivelada(cuota: real, montoCredito: real, tasaMensual: real, factor: real)
  {
    cuota * (factor - 1.0) == montoCredito * tasaMensual * factor
  }

  /** Fixed annuity payment (principal and interest, no insurance) that pays
      off `montoCredito` in `nroCuotas` periods at `tasaMensual`. The formula
      divides by (1+i)^n - 1, so it is defined exactly when that is not zero. */
  function CuotaBase(montoCredito: real, tasaMensual: real, nroCuotas: nat): (cuota: real)
    requires Pow(1.0 + tasaMensual, nroCuotas) != 1.0
    ensures EsCuotaNivelada(cuota, montoCredito, tasaMensual, Pow(1.0 + tasaMensual, nroCuotas))
  {
    var factor := Pow(1.0 + tasaMensual, nroCuotas);
    montoCredito * tasaMensual * factor / (factor - 1.0)
  }

  /** The payment exceeds the first period's interest, so the first period
      already repays principal; and it is positive. */
  lemma CuotaBaseSuperaInteres(montoCredito: real, tasaMensual: real, nroCuotas: nat)
    requires montoCredito > 0.0 && tasaMensual > 0.0 && nroCuotas >= 1
    ensures CuotaBase(montoCredito, tasaMensual, nroCuotas) > montoCredito * tasaMensual > 0.0
  {
    CuotaNiveladaSuperaInteres(CuotaBase(montoCredito, tasaMensual, nroCuotas), montoCredito,
                               tasaMensual, Pow(1.0 + tasaMensual, nroCuotas));
  }

  lemma CuotaNiveladaSuperaInteres(cuota: real, montoCredito: real, tasaMensual: real, factor: real)
    requires EsCuotaNivelada(cuota, montoCredito, tasaMensual, factor)
    requires montoCredito > 0.0 && tasaMensual > 0.0 && factor > 1.0
    ensures cuota > montoCredito * tasaMensual > 0.0
  {
    var pi := montoCredito * tasaMensual;
    assert pi > 0.0;
    assert (cuota - pi) * factor == cuota;
    assert cuota * (factor - 1.0) > 0.0;
  }

  /** Fixed monthly property-insurance amount: an annual percentage of the
      property value spread over twelve months. */
  function SeguroBienMensual(valorInmueble: real, seguroBienAnualPorcentaje: real,
                             basePorcentual: real): (monto: real)
    requires basePorcentual != 0.0
    ensures MesesPorAnio as real * monto * basePorcentual == valorInmueble * seguroBienAnualPorcentaje
  {
    var seguroBienAnual := seguroBienAnualPorcentaje / basePorcentual;
    (valorInmueble * seguroBienAnual) / (MesesPorAnio as real)
  }

  /** The driver's test data: 0.3 % a year on a property of 400000 is 100 a
      month. */
  lemma SeguroBienDeEjemplo()
    ensures SeguroBienMensual(400000.0, 0.3, BasePorcentual) == 100.0
  {
  }
}
