/**
 * The dialog that pays an amount straight into one jar
 * (frontend/src/components/DirectIncomeForm.jsx): the amount box, the submit
 * guard and the default description of the `addDirectIncome` call.
 *
 * `addDirectIncome` itself is not part of this model; the model stops at the
 * arguments the dialog passes to it.
 */
module DirectIncomeForm {
  import opened Jars
  import opened AmountInput

  /** The arguments of an `addDirectIncome` call. */
  datatype DirectIncomeRequest = DirectIncomeRequest(monto: real, descripcion: string, jar: Jar)

  /** The description sent when the box is left empty: `Ingreso extra - <jar name>`. */
  function DefaultDescription(jar: Jar): (r: string)
    ensures |r| > 0
  {
    "Ingreso extra - " + Name(jar)
  }

  /** `handleSubmit`: reject a non-positive amount, otherwise call `addDirectIncome`. */
  function Submit(monto: string, descripcion: string, jar: Jar): (r: Submission<DirectIncomeRequest>)
    requires Accepts(monto)
    ensures r.Submitted? <==> ParseAmount(monto) > 0.0
    ensures r.Rejected? ==> r.reason == AmountNotPositive
    ensures r.Submitted? ==> r.request.monto > 0.0 && r.request.jar == jar
  {
    var montoNum := ParseAmount(monto);
    if montoNum <= 0.0 then Rejected(AmountNotPositive)
    else Submitted(DirectIncomeRequest(montoNum, DescriptionOr(descripcion, DefaultDescription(jar)), jar))
  }

  /**
   * A submit calls `addDirectIncome` exactly when the text holds a nonzero
   * digit, which is when the idle button is enabled; the call carries the amount
   * read from the box, the chosen jar, and the typed description or the default.
   */
  lemma SubmitCallsProvider(monto: string, descripcion: string, jar: Jar)
    requires Accepts(monto)
    requires |descripcion| <= MaxDescription
    ensures var r := Submit(monto, descripcion, jar);
      && (r.Submitted? <==> HasNonzeroDigit(monto))
      && (r.Submitted? <==> !IncomeSubmitDisabled(monto, false))
      && (r.Submitted? ==>
            && r.request.monto == ParseAmount(monto)
            && r.request.descripcion == (if descripcion == "" then "Ingreso extra - " + Name(jar) else descripcion)
            && 0 < |r.request.descripcion| <= MaxDescription)
  {
    ParseAmountPositive(monto);
  }
}
