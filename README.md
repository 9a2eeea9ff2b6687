# Mortgage schedule simulator — a Dafny model

The simulator asks for six numbers:

- the property value;
- the down payment;
- the annual effective rate (TEA, in percent);
- the number of monthly instalments;
- the monthly life-insurance percentage (*desgravamen*);
- the yearly property-insurance percentage.

It checks them one by one, derives the figures the schedule needs, and generates the schedule period by period. The derived figures are:

- the financed amount;
- the monthly insurance rates;
- the effective monthly rate;
- the fixed annuity payment (*cuota base*).

Each record of the schedule carries:

- its number and due date;
- the principal repaid and the interest;
- both insurance amounts;
- the total instalment;
- the remaining balance.

The model uses exact `real` arithmetic. It has five modules:

- `Finanzas` (`finanzas.dfy`): the scalar formulas. These are the financed amount, the life-insurance rate, the monthly rate and the annuity payment, with a recursive natural power `Pow`, plus the monthly property insurance.
- `Validaciones` (`validaciones.dfy`): the three range validators. Each returns `Aceptado` or `Rechazado(message)`. The module also holds the corrected whole-number check for the instalment count.
- `Generador` (`cronograma.dfy`): the schedule generator. `SimularCronograma` is a method with the source's loop, which carries the previous balance and due date. It is proved equal to the specification function `Cronograma`, which is built from the balance recurrence `Saldo` and the one-month date step `SiguienteMes`.
- `Amortizacion` (`amortizacion.dfy`): what a schedule built with the annuity payment guarantees:
  - the balance reaches exactly zero at the last record;
  - principal repaid is positive and grows by the factor (1 + i);
  - balance and interest fall strictly;
  - the principal totals the financed amount.
- `Simulador` (`simulador.dfy`): the driver's computing part. This is the check chain with its messages, the derivation of the generator's arguments, and the driver's built-in test data.

The monthly rate comes from a fractional power (`(1 + tea) ** (1/12) - 1`). The model does not compute it. Instead it characterizes the rate by the relation `EsTasaMensual`: (1 + i)^12 = 1 + tea/100, with i > -1. The model proves this relation determines i uniquely, and that i is positive when the TEA is.

The program's own text treats the instalment count as a whole number between 12 and 360. The prompt at line 296 of `assets/js/app.js` asks for "el número de cuotas" between `NRO_CUOTAS_RANGO_INICIAL` and `NRO_CUOTAS_RANGO_FINAL` (12 and 360), and the loop at line 199 counts whole instalments from 1. Yet `validarNumeroRango` (lines 84-89) only checks the range (see Findings). `Validaciones.RangoAceptaCuotasFraccionarias` models the code as written. The driver model uses the corrected check `ValidarNroCuotas`.

## Model

| member | source | states |
|---|---|---|
| Finanzas.Pow | assets/js/app.js:159 | Natural power used for (1+i)^n: it is positive on a positive base, at least 1 on a base of at least 1, and above 1 for a base above 1 and a positive exponent |
| Finanzas.PowMonotono | assets/js/app.js:144 | Raising to a power is monotone on positive bases and strictly so for positive exponents, which makes the twelfth root of the rate relation unique |
| Finanzas.MontoCredito | assets/js/app.js:115-118 | The financed amount plus the down payment is the property value; it is positive exactly when the down payment is below the property value |
| Finanzas.SeguroDesgravamenMensual | assets/js/app.js:128-131 | The monthly life-insurance fraction times the percentage base gives back the entered percentage |
| Finanzas.EsTasaMensual | assets/js/app.js:141-146 | Defines the monthly rate the source computes as (1 + TEA/100)^(1/12) - 1: a rate above -1 whose twelve-fold compounding equals 1 + TEA/100 |
| Finanzas.TasaMensualPositiva | assets/js/app.js:141-146 | A monthly rate whose twelve-fold compounding equals 1 + TEA/100 is positive when the TEA is positive |
| Finanzas.TasaMensualUnica | assets/js/app.js:141-146 | At most one monthly rate above -1 compounds over twelve months to the annual factor, so the relation pins down the source's root |
| Finanzas.CuotaBase | assets/js/app.js:157-161 | The payment solves the level-payment equation cuota * ((1+i)^n - 1) == P * i * (1+i)^n; it is defined exactly when (1+i)^n is not 1 |
| Finanzas.CuotaBaseSuperaInteres | assets/js/app.js:157-161 | For a positive amount, rate and count, the annuity payment exceeds the first period's interest P * i, which is positive |
| Finanzas.SeguroBienMensual | assets/js/app.js:172-177 | Twelve monthly property-insurance amounts, scaled by the percentage base, equal value times yearly percentage |
| Finanzas.SeguroBienDeEjemplo | assets/js/app.js:172-177 | The test data's 0.3 % a year on a 400000 property gives 100 a month |
| Validaciones.ValidarNumeroMayorACero | assets/js/app.js:67-72 | Rejects exactly the numbers <= 0, with the given message |
| Validaciones.ValidarNumeroRango | assets/js/app.js:84-89 | Rejects exactly the numbers below the lower or above the upper limit, with the given message; accepts exactly the closed range |
| Validaciones.ValidarCuotaInicial | assets/js/app.js:100-105 | Rejects exactly a down payment greater than or equal to the property value, with the given message |
| Validaciones.IteracionesDelBucle | assets/js/app.js:199 | The number of passes of `for (k = 1; k <= n; k++)` for a real bound n: the largest whole count not above n, and no fewer |
| Validaciones.RangoAceptaCuotasFraccionarias | assets/js/app.js:296-300 | As written, the range check accepts a fractional count of 12.5, for which the loop makes 12 passes, a count that differs from the accepted one |
| Validaciones.ValidarNroCuotas | assets/js/app.js:84-89 | Corrected count check: accepts exactly whole numbers in 12..360, for which the loop's pass count equals the entered count; rejects with the range message otherwise |
| Generador.Interes | assets/js/app.js:205 | Defines a period's interest as the balance the period starts with times the monthly rate |
| Generador.Saldo | assets/js/app.js:195-209 | Defines the balance after k periods: the financed amount at first, then each period's previous balance minus the payment net of that period's interest |
| Generador.Vencimiento | assets/js/app.js:197-231 | Defines the due date after k periods: the disbursement date, then one `SiguienteMes` step per period |
| Generador.CuotaDelPeriodo | assets/js/app.js:199-223 | Defines period k's record: life insurance and interest on the previous balance, principal as the payment minus interest, the instalment total, and the new balance |
| Generador.Cronograma | assets/js/app.js:192-234 | Defines the schedule as the records of periods 1..n in order |
| Generador.SiguienteMes | assets/js/app.js:211 | The same day of the next month: the month counter advances by one and the day is kept, December rolling into January |
| Generador.VencimientoAvanzaKMeses | assets/js/app.js:211-231 | Starting from disbursement and stepping one month k times advances the month counter by exactly k and keeps the day |
| Generador.VencimientosDelCronograma | assets/js/app.js:197-231 | Record k of the schedule falls due k + 1 months after disbursement on the disbursement day |
| Generador.CronogramaCoherente | assets/js/app.js:192-234 | The schedule has one record per period, numbered 1..n; each falls due one month after the previous one (the first one month after disbursement) on the same day; each satisfies the per-period equations against the previous record's balance (the first against the financed amount) |
| Generador.SimularCronograma | assets/js/app.js:192-234 | The loop builds exactly the specification schedule: n records numbered 1..n, due dates one month apart from disbursement, and every record coherent with the balance the previous record left |
| Amortizacion.SaldoFormaCerrada | assets/js/app.js:195-209 | The balance after k periods satisfies the closed form S_k * i == P * i * (1+i)^k - cuota * ((1+i)^k - 1) |
| Amortizacion.SaldoFinalNulo | assets/js/app.js:157-209 | With the annuity payment and a positive rate, the balance after the last period is exactly zero |
| Amortizacion.PagoInsuficienteDejaSaldo | assets/js/app.js:157-209 | With a positive rate, any level payment below the n-period annuity payment leaves a positive balance after n periods |
| Amortizacion.AmortizacionGeometrica | assets/js/app.js:205-209 | Principal repaid in period k + 1 is the first period's principal times (1+i)^k |
| Amortizacion.AmortizacionPositiva | assets/js/app.js:205-207 | With the annuity payment every period repays a positive amount of principal |
| Amortizacion.SaldoDecrece | assets/js/app.js:207-209 | With the annuity payment the balance falls strictly from each period to the next |
| Amortizacion.SaldoPositivoAntesDelFinal | assets/js/app.js:209 | With the annuity payment the balance stays positive before the last period |
| Amortizacion.CuotaAmortiza | assets/js/app.js:199-222 | Each record repays positive principal and leaves a non-negative balance, and the last one leaves zero |
| Amortizacion.CuotasConsecutivas | assets/js/app.js:199-229 | From one record to the next the balance and the interest fall strictly and the principal grows by the factor (1 + i) |
| Amortizacion.CronogramaAmortizaCompletamente | assets/js/app.js:192-234 | The whole schedule built with the annuity payment: it ends at zero; balances are non-negative and principal positive throughout; balance and interest fall and principal grows by (1 + i) between consecutive records |
| Amortizacion.TotalAmortizadoParcial | assets/js/app.js:205-209 | The principal repaid over the first k records is the drop from the financed amount to the balance after k |
| Amortizacion.TotalInteresesParcial | assets/js/app.js:205-209 | The interest over the first k records is the base payments made minus the principal repaid |
| Amortizacion.TotalesDelCronograma | assets/js/app.js:192-234 | In a full schedule with the annuity payment, the principal repaid totals the financed amount, and the interest totals nroCuotas * cuotaBase minus the financed amount |
| Simulador.DatosValidos | assets/js/app.js:280-310 | Defines the conditions the six inputs must meet together, with the instalment count whole |
| Simulador.DatosDePrueba | assets/js/app.js:265-277 | Defines the driver's built-in test data: 400000, 100000, 8 %, 240, 0.03 % and 0.3 % |
| Simulador.ValidarDatos | assets/js/app.js:280-310 | The driver's check chain accepts exactly the inputs meeting all conditions (with the whole-number instalment count); the first failing check's message is returned, as shown for the property value and down-payment checks |
| Simulador.CreditoDe | assets/js/app.js:313-324 | For accepted inputs and the monthly rate equivalent to the TEA, the generator receives: a positive financed amount; a positive rate; the entered count (in 12..360); the annuity payment; the insurance figures; the disbursement date |
| Simulador.DatosAceptadosAmortizan | assets/js/app.js:313-324 | For every accepted input, the generated schedule has the entered number of records and ends at zero. Balances are non-negative and falling, interest falls, principal is positive and grows by the factor (1 + i), and total principal equals value minus down payment |
| Simulador.EscenarioDePrueba | assets/js/app.js:265-278 | The built-in test data pass every check and finance 300000. The schedule has 240 records: the first has interest 300000 * i, property insurance 100 and life insurance 90; the last leaves zero |
| Simulador.FechasDelEscenario | assets/js/app.js:258-278 | Disbursed on 15 January 2024, the test schedule falls due first on 15 February 2024 and last on 15 January 2044 |

## Left out

- `ingresarNumero`, `validarIngreso` and the `NRO_INTENTOS` retry loop: these are interactive `prompt` input with retries. The model starts from the six numbers already read.
- `mostrarIngreso` and `mostrarCronograma`: console output only, with no computation of their own beyond formatting.
- The validators' `console.log` of the message. The message is returned inside `Rechazado` instead.
- `confirm` and `new Date()` in the driver. The choice of test data is modelled by `DatosDePrueba`, and the disbursement date is a parameter.
- The driver's test-data branch does not run the checks. `EscenarioDePrueba` shows that those data would pass them anyway.
- `obtenerTeaMensual`: the fractional power `(1 + tea) ** (1/12) - 1` is not computed. The monthly rate is a parameter constrained by `EsTasaMensual`, which holds for the exact real root.
- Finanzas.CuotaBase: it requires (1+i)^n != 1. The source divides anyway and yields Infinity or NaN. With the driver's accepted inputs (i > 0, n >= 12) the requirement always holds.
- Finanzas.SeguroDesgravamenMensual, Finanzas.SeguroBienMensual: they require a non-zero percentage base. The source would yield Infinity or NaN on a zero base, but the driver always passes 100.
- Non-finite numbers: an entry such as `Infinity` or `1e400` passes the `isNaN` test at line 27 and every `> 0` check, after which the source produces Infinity or NaN figures. The model's reals are always finite, so it does not capture this path.
- IEEE 754 double rounding: all arithmetic is exact over `real`. This makes the final balance exactly zero, where the source's doubles leave a tiny residue.
- Generador.SimularCronograma: it takes the instalment count as a natural number. The loop's behaviour on a fractional count is captured separately by `IteracionesDelBucle` and the finding below.
- `Date.setMonth` day-of-month overflow (31 January plus one month is 2 or 3 March in JavaScript) is not modelled. So are the time of day and time zones. A date keeps its day of month, and only year and month change.
- The doc comment of `validarNumeroRango` shows limits 12 and 240, and that of `obtenerCuotaBase` says the payment is without interest. The model follows the code: the limits are 360, and the payment includes interest.

## Findings

| source | as written | input that shows it | evidently intended | confidence | as-written member | corrected member |
|---|---|---|---|---|---|---|
| assets/js/app.js:296-300 | the instalment count is only range-checked with `validarNumeroRango`, so non-integer counts are accepted; the schedule loop then runs floor(n) times while `obtenerCuotaBase` uses the fractional exponent n | nroCuotas = 12.5: accepted, the loop makes 12 passes, and the payment is computed for 12.5 periods. A payment for the longer term is lower, and `Amortizacion.PagoInsuficienteDejaSaldo` shows that any payment below the 12-period annuity payment leaves a positive balance after 12 passes | accept only whole numbers between 12 and 360: the prompt at line 296 asks for "el número de cuotas" between 12 and 360, and the loop at line 199 counts whole instalments |  not executed | Validaciones.RangoAceptaCuotasFraccionarias | Validaciones.ValidarNroCuotas |
