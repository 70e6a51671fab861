/**
 * The income dialog (frontend/src/components/AddIncomeForm.jsx): the amount
 * box with its live distribution preview, the submit guard and the default
 * description of the `addIncome` call, which dispatches ADD_INCOME.
 */
module AddIncomeForm {
  import opened Jars
  import opened AmountInput
  import opened FinanceContext
  import FinanceProperties

  /** The description sent when the box is left empty. */
  const DefaultDescription: string := "Ingreso"

  /** The fields `handleMontoChange` writes: the amount text and whether the preview is shown. */
  datatype AmountBox = AmountBox(monto: string, showPreview: bool)

  /**
   * `handleMontoChange`: an accepted value is stored and the preview is shown
   * iff it reads as a positive number; any other value leaves both fields as they were.
   */
  function OnMontoChange(box: AmountBox, value: string): (r: AmountBox)
    ensures Accepts(box.monto) ==> Accepts(r.monto)
    ensures Accepts(value) ==> r.monto == value && (r.showPreview <==> HasNonzeroDigit(value))
    ensures !Accepts(value) ==> r == box
  {
    if Accepts(value) then
      ParseAmountPositive(value);
      AmountBox(value, ParseAmount(value) > 0.0)
    else box
  }

  /** One line of the distribution preview. */
  datatype PreviewRow = PreviewRow(key: Jar, name: string, amount: real, percentage: real)

  /** `distribution`: one row per jar, in `JAR_PERCENTAGES` order. */
  function Preview(montoNum: real): (rows: seq<PreviewRow>)
    ensures |rows| == |AllJars|
  {
    seq(|AllJars|, i requires 0 <= i < |AllJars| =>
      PreviewRow(AllJars[i], Name(AllJars[i]), montoNum * Weight(AllJars[i]), Weight(AllJars[i]) * 100.0))
  }

  /** Sum of the amounts of some preview rows. */
  function RowsTotal(rows: seq<PreviewRow>): real
  {
    if rows == [] then 0.0 else rows[0].amount + RowsTotal(rows[1..])
  }

  /**
   * The preview lists the six jars in order, each with its name, the share
   * ADD_INCOME would credit to it and the percentage shown in the jar's card.
   */
  lemma PreviewMatchesDistribution(montoNum: real)
    ensures forall i :: 0 <= i < |AllJars| ==>
      && Preview(montoNum)[i].key == AllJars[i]
      && Preview(montoNum)[i].name == Name(AllJars[i])
      && Preview(montoNum)[i].amount == Distribution(montoNum)[AllJars[i]]
      && Preview(montoNum)[i].percentage == InfoPercentage(AllJars[i]) as real
  {
    forall i | 0 <= i < |AllJars|
      ensures Preview(montoNum)[i].key == AllJars[i]
      ensures Preview(montoNum)[i].name == Name(AllJars[i])
      ensures Preview(montoNum)[i].amount == Distribution(montoNum)[AllJars[i]]
      ensures Preview(montoNum)[i].percentage == InfoPercentage(AllJars[i]) as real
    {
      PreviewRowAt(montoNum, i);
    }
  }

  /** One row of the preview. */
  lemma PreviewRowAt(montoNum: real, i: nat)
    requires i < |AllJars|
    ensures AllJars[i] in Distribution(montoNum)
    ensures Preview(montoNum)[i].key == AllJars[i]
    ensures Preview(montoNum)[i].name == Name(AllJars[i])
    ensures Preview(montoNum)[i].amount == Distribution(montoNum)[AllJars[i]]
    ensures Preview(montoNum)[i].percentage == InfoPercentage(AllJars[i]) as real
  {
    FinanceProperties.DistributionAt(montoNum, AllJars[i]);
    WeightsAgreeWithInfo(AllJars[i]);
  }

  /** The preview's rows add up to the amount of its Total line. */
  lemma PreviewTotal(montoNum: real)
    ensures RowsTotal(Preview(montoNum)) == montoNum
  {
    var rows := Preview(montoNum);
    var r1, r2, r3, r4, r5 := rows[1..], rows[2..], rows[3..], rows[4..], rows[5..];
    assert RowsTotal(r5) == rows[5].amount by { assert r5[1..] == []; }
    assert RowsTotal(r4) == rows[4].amount + RowsTotal(r5) by { assert r4[1..] == r5; }
    assert RowsTotal(r3) == rows[3].amount + RowsTotal(r4) by { assert r3[1..] == r4; }
    assert RowsTotal(r2) == rows[2].amount + RowsTotal(r3) by { assert r2[1..] == r3; }
    assert RowsTotal(r1) == rows[1].amount + RowsTotal(r2) by { assert r1[1..] == r2; }
    assert RowsTotal(rows) == rows[0].amount + RowsTotal(r1);
    var d := Distribution(montoNum);
    PreviewMatchesDistribution(montoNum);
    FinanceProperties.DistributionSplitsAmount(montoNum);
    FinanceProperties.TotalOfSix(d);
    assert rows[0].amount == Get(d, NEC) && rows[1].amount == Get(d, LF) && rows[2].amount == Get(d, ALP);
    assert rows[3].amount == Get(d, EDU) && rows[4].amount == Get(d, PLAY) && rows[5].amount == Get(d, DAR);
  }

  /** `handleSubmit`: reject a non-positive amount, otherwise dispatch ADD_INCOME. */
  function Submit(monto: string, descripcion: string): (r: Submission<Action>)
    requires Accepts(monto)
    ensures r.Submitted? <==> ParseAmount(monto) > 0.0
    ensures r.Rejected? ==> r.reason == AmountNotPositive
    ensures r.Submitted? ==> r.request.AddIncome? && r.request.monto > 0.0
  {
    var montoNum := ParseAmount(monto);
    if montoNum <= 0.0 then Rejected(AmountNotPositive)
    else Submitted(AddIncome(montoNum, DescriptionOr(descripcion, DefaultDescription)))
  }

  /**
   * Submitting dispatches exactly when the text holds a nonzero digit, which is
   * when the idle button is enabled; the dispatched income carries the amount read
   * from the box and the typed description, or 'Ingreso', within the 50-character cap.
   */
  lemma SubmitDispatchesIncome(monto: string, descripcion: string)
    requires Accepts(monto)
    requires |descripcion| <= MaxDescription
    ensures Submit(monto, descripcion).Submitted? <==> HasNonzeroDigit(monto)
    ensures Submit(monto, descripcion).Submitted? <==> !IncomeSubmitDisabled(monto, false)
    ensures Submit(monto, descripcion).Submitted? ==>
      var a := Submit(monto, descripcion).request;
      && a.monto == ParseAmount(monto)
      && a.descripcion == (if descripcion == "" then "Ingreso" else descripcion)
      && 0 < |a.descripcion| <= MaxDescription
  {
    ParseAmountPositive(monto);
  }

  /**
   * An income submitted through the form, recorded under a fresh id, keeps the
   * ledger consistent and raises the total balance by the amount typed.
   */
  lemma SubmittedIncomeKeepsLedger(s: State, monto: string, descripcion: string, id: string, now: string)
    requires Accepts(monto) && Submit(monto, descripcion).Submitted?
    requires FinanceProperties.Consistent(s)
    requires forall k :: 0 <= k < |s.historialTransacciones| ==> s.historialTransacciones[k].id != id
    ensures var r := Reduce(s, Submit(monto, descripcion).request, id, now);
      FinanceProperties.Consistent(r) && TotalBalance(r.saldos) == TotalBalance(s.saldos) + ParseAmount(monto)
  {
    var a := Submit(monto, descripcion).request;
    FinanceProperties.ReducePreservesConsistency(s, a, id, now);
    FinanceProperties.AddIncomeRaisesTotal(s, a.monto, a.descripcion, id, now);
  }
}
