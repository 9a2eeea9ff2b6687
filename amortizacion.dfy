/** What the schedule promises once the payment is the annuity payment: the
    balance reaches exactly zero after the last period, principal repaid grows
    by the factor (1 + i) each period, and the balance falls strictly. */
module Amortizacion {
  import opened Finanzas
  import opened Generador

  // Relations between plain reals that the balance recurrence satisfies, and
  // the algebra that carries them from one period to the next.

  /** `siguiente` is the balance one period after `anterior`, for a payment
      `cuota` at rate `tasa`. */
  predicate SigueRecurrencia(anterior: real, siguiente: real, tasa: real, cuota: real)
  {
    siguiente == anterior - (cuota - Interes(anterior, tasa))
  }

  /** Closed form of the balance, multiplied through by the rate:
      saldo * i == monto * i * factor - cuota * (factor - 1), with factor = (1 + i)^k. */
  predicate FormaCerrada(saldo: real, monto: real, tasa: real, cuota: real, factor: real)
  {
    Interes(saldo, tasa) == Interes(monto, tasa) * factor - cuota * (factor - 1.0)
  }

  /** The principal repaid on balance `saldo` is `inicial` scaled by `factor`. */
  predicate AmortizacionEscalada(saldo: real, tasa: real, cuota: real, inicial: real, factor: real)
  {
    cuota - Interes(saldo, tasa) == inicial * factor
  }

  /** `siguiente` is `anterior` grown by the rate: (1 + tasa) * anterior. */
  predicate CrecePorTasa(anterior: real, siguiente: real, tasa: real)
  {
    siguiente == (1.0 + tasa) * anterior
  }

  /** `q1` is the compounding factor one period after `q`. */
  predicate FactorSiguiente(q: real, q1: real, tasa: real)
  {
    q1 == q * (1.0 + tasa)
  }

  lemma PasoFormaCerrada(s: real, s1: real, p: real, i: real, c: real, q: real, q1: real)
    requires SigueRecurrencia(s, s1, i, c) && FactorSiguiente(q, q1, i)
    requires FormaCerrada(s, p, i, c, q)
    ensures FormaCerrada(s1, p, i, c, q1)
  {
  }

  lemma PasoEscalado(s: real, s1: real, i: real, c: real, a: real, q: real, q1: real)
    requires SigueRecurrencia(s, s1, i, c) && FactorSiguiente(q, q1, i)
    requires AmortizacionEscalada(s, i, c, a, q)
    ensures AmortizacionEscalada(s1, i, c, a, q1)
  {
  }

  lemma NuloConCuotaNivelada(s: real, p: real, i: real, c: real, q: real)
    requires FormaCerrada(s, p, i, c, q) && EsCuotaNivelada(c, p, i, q) && i != 0.0
    ensures s == 0.0
  {
  }

  lemma PositivaSiEscalada(s: real, i: real, c: real, a: real, q: real)
    requires AmortizacionEscalada(s, i, c, a, q) && a > 0.0 && q > 0.0
    ensures c - Interes(s, i) > 0.0
  {
  }

  lemma InteresMonotono(a: real, b: real, i: real)
    requires a < b && i > 0.0
    ensures Interes(a, i) < Interes(b, i)
  {
  }

  lemma PasoAmortizacion(s: real, s1: real, i: real, c: real, a0: real, a1: real)
    requires SigueRecurrencia(s, s1, i, c)
    requires a0 == c - Interes(s, i) && a1 == c - Interes(s1, i)
    ensures CrecePorTasa(a0, a1, i)
  {
  }

  /** One step of the balance recurrence. */
  lemma SaldoPaso(montoCredito: real, tasaMensual: real, cuotaBase: real, k: nat)
    ensures SigueRecurrencia(Saldo(montoCredito, tasaMensual, cuotaBase, k),
                             Saldo(montoCredito, tasaMensual, cuotaBase, k + 1),
                             tasaMensual, cuotaBase)
  {
  }

  lemma FactorPaso(tasaMensual: real, k: nat)
    ensures FactorSiguiente(Pow(1.0 + tasaMensual, k), Pow(1.0 + tasaMensual, k + 1), tasaMensual)
  {
  }

  lemma SaldoFormaCerradaPaso(montoCredito: real, tasaMensual: real, cuotaBase: real, k: nat)
    requires FormaCerrada(Saldo(montoCredito, tasaMensual, cuotaBase, k), montoCredito, tasaMensual,
                          cuotaBase, Pow(1.0 + tasaMensual, k))
    ensures FormaCerrada(Saldo(montoCredito, tasaMensual, cuotaBase, k + 1), montoCredito, tasaMensual,
                         cuotaBase, Pow(1.0 + tasaMensual, k + 1))
  {
    SaldoPaso(montoCredito, tasaMensual, cuotaBase, k);
    FactorPaso(tasaMensual, k);
    PasoFormaCerrada(Saldo(montoCredito, tasaMensual, cuotaBase, k),
                     Saldo(montoCredito, tasaMensual, cuotaBase, k + 1), montoCredito, tasaMensual,
                     cuotaBase, Pow(1.0 + tasaMensual, k), Pow(1.0 + tasaMensual, k + 1));
  }

  /** The balance after k periods satisfies the closed form with factor (1+i)^k. */
  lemma {:induction false} SaldoFormaCerrada(montoCredito: real, tasaMensual: real, cuotaBase: real, k: nat)
    ensures FormaCerrada(Saldo(montoCredito, tasaMensual, cuotaBase, k), montoCredito, tasaMensual,
                         cuotaBase, Pow(1.0 + tasaMensual, k))
  {
    if k > 0 {
      SaldoFormaCerrada(montoCredito, tasaMensual, cuotaBase, k - 1);
      SaldoFormaCerradaPaso(montoCredito, tasaMensual, cuotaBase, k - 1);
    }
  }

  /** With the annuity payment the balance after the last period is exactly zero. */
  lemma SaldoFinalNulo(montoCredito: real, tasaMensual: real, nroCuotas: nat, cuotaBase: real)
    requires tasaMensual > 0.0 && nroCuotas >= 1
    requires cuotaBase == CuotaBase(montoCredito, tasaMensual, nroCuotas)
    ensures Saldo(montoCredito, tasaMensual, cuotaBase, nroCuotas) == 0.0
  {
    SaldoFormaCerrada(montoCredito, tasaMensual, cuotaBase, nroCuotas);
    NuloConCuotaNivelada(Saldo(montoCredito, tasaMensual, cuotaBase, nroCuotas), montoCredito,
                         tasaMensual, cuotaBase, Pow(1.0 + tasaMensual, nroCuotas));
  }

  /** A level payment below the annuity payment for n periods leaves a
      positive balance after n periods. */
  lemma PagoInsuficienteDejaSaldo(montoCredito: real, tasaMensual: real, nroCuotas: nat, cuotaBase: real)
    requires tasaMensual > 0.0 && nroCuotas >= 1
    requires cuotaBase < CuotaBase(montoCredito, tasaMensual, nroCuotas)
    ensures Saldo(montoCredito, tasaMensual, cuotaBase, nroCuotas) > 0.0
  {
    SaldoFormaCerrada(montoCredito, tasaMensual, cuotaBase, nroCuotas);
    PositivoConPagoMenor(Saldo(montoCredito, tasaMensual, cuotaBase, nroCuotas), montoCredito,
                         tasaMensual, cuotaBase, CuotaBase(montoCredito, tasaMensual, nroCuotas),
                         Pow(1.0 + tasaMensual, nroCuotas));
  }

  lemma PositivoConPagoMenor(s: real, p: real, i: real, c: real, nivelada: real, q: real)
    requires FormaCerrada(s, p, i, c, q) && EsCuotaNivelada(nivelada, p, i, q)
    requires c < nivelada && q > 1.0 && i > 0.0
    ensures s > 0.0
  {
    assert Interes(s, i) == (nivelada - c) * (q - 1.0);
    ProductoPositivo(nivelada - c, q - 1.0);
    if s <= 0.0 {
      ProductoPositivo(-s, i);
      assert false;
    }
  }

  lemma ProductoPositivo(a: real, b: real)
    requires a >= 0.0 && b > 0.0
    ensures a * b >= 0.0
    ensures a > 0.0 ==> a * b > 0.0
  {
  }

  lemma AmortizacionGeometricaPaso(montoCredito: real, tasaMensual: real, cuotaBase: real, k: nat)
    requires AmortizacionEscalada(Saldo(montoCredito, tasaMensual, cuotaBase, k), tasaMensual, cuotaBase,
                                  cuotaBase - Interes(montoCredito, tasaMensual), Pow(1.0 + tasaMensual, k))
    ensures AmortizacionEscalada(Saldo(montoCredito, tasaMensual, cuotaBase, k + 1), tasaMensual, cuotaBase,
                                 cuotaBase - Interes(montoCredito, tasaMensual), Pow(1.0 + tasaMensual, k + 1))
  {
    SaldoPaso(montoCredito, tasaMensual, cuotaBase, k);
    FactorPaso(tasaMensual, k);
    PasoEscalado(Saldo(montoCredito, tasaMensual, cuotaBase, k),
                 Saldo(montoCredito, tasaMensual, cuotaBase, k + 1), tasaMensual, cuotaBase,
                 cuotaBase - Interes(montoCredito, tasaMensual),
                 Pow(1.0 + tasaMensual, k), Pow(1.0 + tasaMensual, k + 1));
  }

  /** Principal repaid in period k + 1 (payment minus the interest on the
      balance after k periods) is (1+i)^k times the first period's. */
  lemma {:induction false} AmortizacionGeometrica(montoCredito: real, tasaMensual: real, cuotaBase: real, k: nat)
    ensures AmortizacionEscalada(Saldo(montoCredito, tasaMensual, cuotaBase, k), tasaMensual, cuotaBase,
                                 cuotaBase - Interes(montoCredito, tasaMensual), Pow(1.0 + tasaMensual, k))
  {
    if k > 0 {
      AmortizacionGeometrica(montoCredito, tasaMensual, cuotaBase, k - 1);
      AmortizacionGeometricaPaso(montoCredito, tasaMensual, cuotaBase, k - 1);
    }
  }

  /** With the annuity payment every period repays a positive amount of principal. */
  lemma AmortizacionPositiva(montoCredito: real, tasaMensual: real, nroCuotas: nat, cuotaBase: real, k: nat)
    requires montoCredito > 0.0 && tasaMensual > 0.0 && nroCuotas >= 1
    requires cuotaBase == CuotaBase(montoCredito, tasaMensual, nroCuotas)
    ensures cuotaBase - Interes(Saldo(montoCredito, tasaMensual, cuotaBase, k), tasaMensual) > 0.0
  {
    CuotaBaseSuperaInteres(montoCredito, tasaMensual, nroCuotas);
    AmortizacionGeometrica(montoCredito, tasaMensual, cuotaBase, k);
    PositivaSiEscalada(Saldo(montoCredito, tasaMensual, cuotaBase, k), tasaMensual, cuotaBase,
                       cuotaBase - Interes(montoCredito, tasaMensual), Pow(1.0 + tasaMensual, k));
  }

  /** With the annuity payment the balance falls strictly every period. */
  lemma SaldoDecrece(montoCredito: real, tasaMensual: real, nroCuotas: nat, cuotaBase: real, k: nat)
    requires montoCredito > 0.0 && tasaMensual > 0.0 && nroCuotas >= 1
    requires cuotaBase == CuotaBase(montoCredito, tasaMensual, nroCuotas)
    ensures Saldo(montoCredito, tasaMensual, cuotaBase, k + 1) < Saldo(montoCredito, tasaMensual, cuotaBase, k)
  {
    AmortizacionPositiva(montoCredito, tasaMensual, nroCuotas, cuotaBase, k);
    SaldoPaso(montoCredito, tasaMensual, cuotaBase, k);
  }

  /** With the annuity payment the balance stays positive before the last period. */
  lemma SaldoPositivoAntesDelFinal(montoCredito: real, tasaMensual: real, nroCuotas: nat, cuotaBase: real, k: nat)
    requires montoCredito > 0.0 && tasaMensual > 0.0 && nroCuotas >= 1
    requires cuotaBase == CuotaBase(montoCredito, tasaMensual, nroCuotas)
    requires k < nroCuotas
    ensures Saldo(montoCredito, tasaMensual, cuotaBase, k) > 0.0
    decreases nroCuotas - k
  {
    SaldoDecrece(montoCredito, tasaMensual, nroCuotas, cuotaBase, k);
    if k + 1 == nroCuotas {
      SaldoFinalNulo(montoCredito, tasaMensual, nroCuotas, cuotaBase);
    } else {
      SaldoPositivoAntesDelFinal(montoCredito, tasaMensual, nroCuotas, cuotaBase, k + 1);
    }
  }

  /** The numeric fields of record j (0-based) in terms of the balance recurrence. */
  lemma CamposDeLaCuota(c: Credito, j: nat)
    requires j < c.nroCuotas
    ensures Cronograma(c)[j].interes == Interes(SaldoTras(c, j), c.tasaMensual)
    ensures Cronograma(c)[j].amortizacion == c.cuotaBaseSinSeguros - Interes(SaldoTras(c, j), c.tasaMensual)
    ensures Cronograma(c)[j].saldoCapital == SaldoTras(c, j + 1)
  {
    assert Cronograma(c)[j] == CuotaDelPeriodo(c, j + 1);
    SaldoPaso(c.montoCredito, c.tasaMensual, c.cuotaBaseSinSeguros, j);
  }

  /** Record j of a schedule generated with the annuity payment repays
      principal and leaves a balance that is not negative, and zero at the end. */
  lemma CuotaAmortiza(c: Credito, j: nat)
    requires c.montoCredito > 0.0 && c.tasaMensual > 0.0 && c.nroCuotas >= 1
    requires c.cuotaBaseSinSeguros == CuotaBase(c.montoCredito, c.tasaMensual, c.nroCuotas)
    requires j < c.nroCuotas
    ensures Cronograma(c)[j].amortizacion > 0.0
    ensures Cronograma(c)[j].saldoCapital >= 0.0
    ensures j + 1 == c.nroCuotas ==> Cronograma(c)[j].saldoCapital == 0.0
  {
    var p, i, n, cb := c.montoCredito, c.tasaMensual, c.nroCuotas, c.cuotaBaseSinSeguros;
    CamposDeLaCuota(c, j);
    AmortizacionPositiva(p, i, n, cb, j);
    if j + 1 < n {
      SaldoPositivoAntesDelFinal(p, i, n, cb, j + 1);
    } else {
      SaldoFinalNulo(p, i, n, cb);
    }
  }

  /** Between consecutive records of a schedule generated with the annuity
      payment the balance and the interest fall and the principal repaid grows
      by the factor (1 + i). */
  lemma CuotasConsecutivas(c: Credito, j: nat)
    requires c.montoCredito > 0.0 && c.tasaMensual > 0.0 && c.nroCuotas >= 1
    requires c.cuotaBaseSinSeguros == CuotaBase(c.montoCredito, c.tasaMensual, c.nroCuotas)
    requires j + 1 < c.nroCuotas
    ensures Cronograma(c)[j + 1].saldoCapital < Cronograma(c)[j].saldoCapital
    ensures Cronograma(c)[j + 1].interes < Cronograma(c)[j].interes
    ensures CrecePorTasa(Cronograma(c)[j].amortizacion, Cronograma(c)[j + 1].amortizacion, c.tasaMensual)
  {
    var p, i, n, cb := c.montoCredito, c.tasaMensual, c.nroCuotas, c.cuotaBaseSinSeguros;
    CamposDeLaCuota(c, j);
    CamposDeLaCuota(c, j + 1);
    SaldoDecrece(p, i, n, cb, j);
    SaldoDecrece(p, i, n, cb, j + 1);
    InteresMonotono(SaldoTras(c, j + 1), SaldoTras(c, j), i);
    SaldoPaso(p, i, cb, j);
    PasoAmortizacion(SaldoTras(c, j), SaldoTras(c, j + 1), i, cb,
                     Cronograma(c)[j].amortizacion, Cronograma(c)[j + 1].amortizacion);
  }

  /** The properties of a schedule generated with the annuity payment, stated
      on its records. */
  lemma CronogramaAmortizaCompletamente(c: Credito)
    requires c.montoCredito > 0.0 && c.tasaMensual > 0.0 && c.nroCuotas >= 1
    requires c.cuotaBaseSinSeguros == CuotaBase(c.montoCredito, c.tasaMensual, c.nroCuotas)
    ensures Cronograma(c)[c.nroCuotas - 1].saldoCapital == 0.0
    ensures forall j :: 0 <= j < c.nroCuotas ==>
              Cronograma(c)[j].saldoCapital >= 0.0 && Cronograma(c)[j].amortizacion > 0.0
    ensures forall j :: 0 < j < c.nroCuotas ==>
              Cronograma(c)[j].saldoCapital < Cronograma(c)[j - 1].saldoCapital
    ensures forall j :: 0 < j < c.nroCuotas ==>
              Cronograma(c)[j].interes < Cronograma(c)[j - 1].interes
    ensures forall j :: 0 < j < c.nroCuotas ==>
              CrecePorTasa(Cronograma(c)[j - 1].amortizacion, Cronograma(c)[j].amortizacion, c.tasaMensual)
  {
    var s := Cronograma(c);
    CuotaAmortiza(c, c.nroCuotas - 1);
    forall j | 0 <= j < c.nroCuotas
      ensures s[j].saldoCapital >= 0.0 && s[j].amortizacion > 0.0
    {
      CuotaAmortiza(c, j);
    }
    forall j | 0 < j < c.nroCuotas
      ensures s[j].saldoCapital < s[j - 1].saldoCapital
      ensures s[j].interes < s[j - 1].interes
      ensures CrecePorTasa(s[j - 1].amortizacion, s[j].amortizacion, c.tasaMensual)
    {
      CuotasConsecutivas(c, j - 1);
    }
  }

  /** Principal repaid over the first periods of a schedule. */
  function TotalAmortizado(cuotas: seq<Cuota>): real
  {
    if cuotas == [] then 0.0
    else TotalAmortizado(cuotas[..|cuotas| - 1]) + cuotas[|cuotas| - 1].amortizacion
  }

  /** Interest paid over the first periods of a schedule. */
  function TotalIntereses(cuotas: seq<Cuota>): real
  {
    if cuotas == [] then 0.0
    else TotalIntereses(cuotas[..|cuotas| - 1]) + cuotas[|cuotas| - 1].interes
  }

  /** The last record of the first k + 1 periods, and the principal and
      interest it contributes. */
  lemma UltimaCuotaDelTramo(c: Credito, k: nat)
    requires k < c.nroCuotas
    ensures Cronograma(c)[..k + 1][..k] == Cronograma(c)[..k]
    ensures Cronograma(c)[..k + 1][k].amortizacion == SaldoTras(c, k) - SaldoTras(c, k + 1)
    ensures Cronograma(c)[..k + 1][k].interes
            == c.cuotaBaseSinSeguros - (SaldoTras(c, k) - SaldoTras(c, k + 1))
  {
    CamposDeLaCuota(c, k);
    SaldoPaso(c.montoCredito, c.tasaMensual, c.cuotaBaseSinSeguros, k);
  }

  /** Over the first k periods the principal repaid is the drop in the balance. */
  lemma {:induction false} TotalAmortizadoParcial(c: Credito, k: nat)
    requires k <= c.nroCuotas
    ensures TotalAmortizado(Cronograma(c)[..k]) == c.montoCredito - SaldoTras(c, k)
  {
    if k > 0 {
      TotalAmortizadoParcial(c, k - 1);
      UltimaCuotaDelTramo(c, k - 1);
    }
  }

  /** Sum of the base payments of k periods. */
  function PagosBase(cuotaBase: real, k: nat): real
  {
    if k == 0 then 0.0 else PagosBase(cuotaBase, k - 1) + cuotaBase
  }

  /** The k base payments sum to k * cuotaBase. */
  lemma {:induction false} PagosBaseProducto(cuotaBase: real, k: nat)
    ensures PagosBase(cuotaBase, k) == k as real * cuotaBase
  {
    if k > 0 {
      PagosBaseProducto(cuotaBase, k - 1);
    }
  }

  /** Over the first k periods the interest is the base payments minus the
      principal repaid. */
  lemma {:induction false} TotalInteresesParcial(c: Credito, k: nat)
    requires k <= c.nroCuotas
    ensures TotalIntereses(Cronograma(c)[..k])
            == PagosBase(c.cuotaBaseSinSeguros, k) - (c.montoCredito - SaldoTras(c, k))
  {
    if k > 0 {
      TotalInteresesParcial(c, k - 1);
      UltimaCuotaDelTramo(c, k - 1);
    }
  }

  /** A schedule whose balance ends at zero repays exactly the financed amount. */
  lemma AmortizadoSiSaldaDeuda(c: Credito)
    requires SaldoTras(c, c.nroCuotas) == 0.0
    ensures TotalAmortizado(Cronograma(c)) == c.montoCredito
  {
    TotalAmortizadoParcial(c, c.nroCuotas);
    assert Cronograma(c)[..c.nroCuotas] == Cronograma(c);
  }

  /** Over the whole schedule the interest is the base payments minus the
      principal repaid. */
  lemma TotalInteresesCompleto(c: Credito)
    ensures TotalIntereses(Cronograma(c))
            == PagosBase(c.cuotaBaseSinSeguros, c.nroCuotas) - (c.montoCredito - SaldoTras(c, c.nroCuotas))
  {
    TotalInteresesParcial(c, c.nroCuotas);
    assert Cronograma(c)[..c.nroCuotas] == Cronograma(c);
  }

  /** In a schedule whose balance ends at zero the interest is everything else
      the nroCuotas base payments cover. */
  lemma InteresesSiSaldaDeuda(c: Credito)
    requires SaldoTras(c, c.nroCuotas) == 0.0
    ensures TotalIntereses(Cronograma(c)) == c.nroCuotas as real * c.cuotaBaseSinSeguros - c.montoCredito
  {
    TotalInteresesCompleto(c);
    PagosBaseProducto(c.cuotaBaseSinSeguros, c.nroCuotas);
  }

  /** A schedule generated with the annuity payment repays exactly the financed
      amount, and its interest is everything else the nroCuotas base payments
      cover: nroCuotas * cuotaBase - montoCredito. */
  lemma TotalesDelCronograma(c: Credito)
    requires c.montoCredito > 0.0 && c.tasaMensual > 0.0 && c.nroCuotas >= 1
    requires c.cuotaBaseSinSeguros == CuotaBase(c.montoCredito, c.tasaMensual, c.nroCuotas)
    ensures TotalAmortizado(Cronograma(c)) == c.montoCredito
    ensures TotalIntereses(Cronograma(c)) == c.nroCuotas as real * c.cuotaBaseSinSeguros - c.montoCredito
  {
    SaldoFinalNulo(c.montoCredito, c.tasaMensual, c.nroCuotas, c.cuotaBaseSinSeguros);
    AmortizadoSiSaldaDeuda(c);
    InteresesSiSaldaDeuda(c);
  }
}
