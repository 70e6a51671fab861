/**
 * The withdrawal dialog of one jar (frontend/src/components/WithdrawForm.jsx):
 * the amount box, the balance it is checked against, the two submit guards,
 * the "Retirar todo" shortcut and the reset after the provider's answer.
 *
 * `withdrawFromJar` itself is not part of this model; its boolean answer is a
 * parameter of `Finish`.
 */
module WithdrawForm {
  import opened Jars
  import opened AmountInput
  import opened FinanceContext

  /** The arguments of a `withdrawFromJar` call. */
  datatype WithdrawRequest = WithdrawRequest(monto: real, descripcion: string, jar: Jar)

  /** The dialog's own state. */
  datatype Fields = Fields(monto: string, descripcion: string, open: bool, isSubmitting: bool)

  /** `saldoActual`: the jar's balance, an absent key read as zero. */
  function SaldoActual(saldos: Balances, jar: Jar): real
  {
    Get(saldos, jar)
  }

  /** `excedeSaldo`: the typed amount is above the jar's balance. */
  predicate ExcedeSaldo(monto: string, saldos: Balances, jar: Jar)
    requires Accepts(monto)
  {
    ParseAmount(monto) > SaldoActual(saldos, jar)
  }

  /** The description sent when the box is left empty: `Retiro - <jar name>`. */
  function DefaultDescription(jar: Jar): (r: string)
    ensures |r| > 0
  {
    "Retiro - " + Name(jar)
  }

  /**
   * `handleSubmit`: a non-positive amount is rejected first, then an amount
   * above the balance; otherwise `withdrawFromJar` is called.
   */
  function Submit(monto: string, descripcion: string, jar: Jar, saldos: Balances): (r: Submission<WithdrawRequest>)
    requires Accepts(monto)
    ensures r.Rejected? && r.reason == AmountNotPositive <==> ParseAmount(monto) <= 0.0
    ensures r.Rejected? && r.reason == InsufficientBalance <==> 0.0 < ParseAmount(monto) && ExcedeSaldo(monto, saldos, jar)
    ensures r.Submitted? ==> 0.0 < r.request.monto <= SaldoActual(saldos, jar) && r.request.jar == jar
  {
    var montoNum := ParseAmount(monto);
    if montoNum <= 0.0 then Rejected(AmountNotPositive)
    else if ExcedeSaldo(monto, saldos, jar) then Rejected(InsufficientBalance)
    else Submitted(WithdrawRequest(montoNum, DescriptionOr(descripcion, DefaultDescription(jar)), jar))
  }

  /** The submit button's `disabled`: `montoNum <= 0 || excedeSaldo || isSubmitting`. */
  function SubmitDisabled(monto: string, saldos: Balances, jar: Jar, isSubmitting: bool): (r: bool)
    requires Accepts(monto)
    ensures r <==> !HasNonzeroDigit(monto) || ParseAmount(monto) > Get(saldos, jar) || isSubmitting
  {
    ParseAmountPositive(monto);
    ParseAmount(monto) <= 0.0 || ExcedeSaldo(monto, saldos, jar) || isSubmitting
  }

  /** The "Retirar todo" button's `disabled`: `saldoActual <= 0`. */
  predicate RetirarTodoDisabled(saldos: Balances, jar: Jar)
  {
    SaldoActual(saldos, jar) <= 0.0
  }

  /**
   * Every call that reaches the provider asks for a positive amount no larger
   * than the jar's balance, with the typed description or the default one; and
   * a submit goes through exactly when the idle button is enabled.
   */
  lemma SubmitWithinBalance(monto: string, descripcion: string, jar: Jar, saldos: Balances)
    requires Accepts(monto)
    requires |descripcion| <= MaxDescription
    ensures var r := Submit(monto, descripcion, jar, saldos);
      && (r.Submitted? <==> !SubmitDisabled(monto, saldos, jar, false))
      && (r.Submitted? <==> HasNonzeroDigit(monto) && ParseAmount(monto) <= Get(saldos, jar))
      && (r.Submitted? ==>
            && r.request.monto == ParseAmount(monto)
            && r.request.descripcion == (if descripcion == "" then "Retiro - " + Name(jar) else descripcion)
            && 0 < |r.request.descripcion| <= MaxDescription)
  {
    ParseAmountPositive(monto);
  }

  /**
   * The state after the provider answers: on success the amount and
   * description are cleared and the dialog closes; on failure they stay. Either
   * way the button is released.
   */
  function Finish(f: Fields, success: bool): (r: Fields)
    ensures !r.isSubmitting
    ensures success ==> r.monto == "" && r.descripcion == "" && !r.open
    ensures !success ==> r.monto == f.monto && r.descripcion == f.descripcion && r.open == f.open
  {
    if success then Fields("", "", false, false) else f.(isSubmitting := false)
  }

  /**
   * After a failed call the dialog holds the same text, so submitting again
   * against the same balances issues the same request; after a success the
   * cleared box is rejected as non-positive.
   */
  lemma FinishThenResubmit(f: Fields, success: bool, jar: Jar, saldos: Balances)
    requires Accepts(f.monto)
    ensures Accepts(Finish(f, success).monto)
    ensures !success ==> Submit(Finish(f, success).monto, Finish(f, success).descripcion, jar, saldos)
                         == Submit(f.monto, f.descripcion, jar, saldos)
    ensures success ==> Submit(Finish(f, success).monto, Finish(f, success).descripcion, jar, saldos)
                        == Rejected(AmountNotPositive)
  {
    if success {
      ParseAmountPositive("");
    }
  }

  // ---------------------------------------------------------------------------
  // "Retirar todo"

  /** `handleRetirarTodo` as written: the box receives `saldoActual.toFixed(2)`. */
  function RetirarTodo(f: Fields, saldos: Balances, jar: Jar): (r: Fields)
    requires !RetirarTodoDisabled(saldos, jar)
    ensures Accepts(r.monto)
    ensures SaldoActual(saldos, jar) - 0.005 < ParseAmount(r.monto) <= SaldoActual(saldos, jar) + 0.005
    ensures r == f.(monto := r.monto)
  {
    ToFixed2ReadsBack(SaldoActual(saldos, jar));
    f.(monto := ToFixed2(SaldoActual(saldos, jar)))
  }

  /**
   * The shortcut as written can fill the box with more than the balance. An
   * income of 10.03 leaves 5.5165 in NEC; `toFixed(2)` rounds it up to "5.52",
   * which exceeds the balance, so the submit button stays disabled.
   */
  lemma RetirarTodoCanExceed(f: Fields)
    ensures var saldos := map[NEC := 5.5165];
      && !RetirarTodoDisabled(saldos, NEC)
      && RetirarTodo(f, saldos, NEC).monto == "5.52"
      && ExcedeSaldo("5.52", saldos, NEC)
      && SubmitDisabled(RetirarTodo(f, saldos, NEC).monto, saldos, NEC, false)
      && Submit(RetirarTodo(f, saldos, NEC).monto, f.descripcion, NEC, saldos) == Rejected(InsufficientBalance)
  {
    var saldos := map[NEC := 5.5165];
    assert SaldoActual(saldos, NEC) == 5.5165;
    var c := RoundCents(5.5165);
    assert c == 552;
    assert NatDigits(5) == "5" && DigitChar(5) == '5' && DigitChar(2) == '2';
    assert RenderCents(552) == "5" + "." + ['5', '2'];
    assert "5" + "." + ['5', '2'] == "5.52";
    RenderCentsRoundTrip(552);
    ParseAmountPositive("5.52");
    assert "5.52"[0] == '5';
  }

  /** The cents of an amount, rounded down: the largest whole number of cents it covers. */
  function FloorCents(x: real): (c: nat)
    requires x >= 0.0
    ensures c as real <= 100.0 * x < c as real + 1.0
  {
    (100.0 * x).Floor
  }

  /**
   * `handleRetirarTodo` as evidently intended: the box receives the balance cut
   * to whole cents, which never exceeds it.
   */
  function RetirarTodoFloor(f: Fields, saldos: Balances, jar: Jar): (r: Fields)
    requires !RetirarTodoDisabled(saldos, jar)
    ensures Accepts(r.monto)
    ensures SaldoActual(saldos, jar) - 0.01 < ParseAmount(r.monto) <= SaldoActual(saldos, jar)
    ensures r == f.(monto := r.monto)
  {
    var c := FloorCents(SaldoActual(saldos, jar));
    RenderCentsRoundTrip(c);
    f.(monto := RenderCents(c))
  }

  /**
   * With the corrected shortcut a balance of at least one cent always leaves an
   * enabled button, and the withdrawal empties the jar to less than a cent.
   */
  lemma RetirarTodoFloorSubmits(f: Fields, saldos: Balances, jar: Jar)
    requires SaldoActual(saldos, jar) >= 0.01
    ensures var r := RetirarTodoFloor(f, saldos, jar);
      && !ExcedeSaldo(r.monto, saldos, jar)
      && !SubmitDisabled(r.monto, saldos, jar, false)
      && Submit(r.monto, r.descripcion, jar, saldos).Submitted?
      && SaldoActual(saldos, jar) - Submit(r.monto, r.descripcion, jar, saldos).request.monto < 0.01
  {
    var c := FloorCents(SaldoActual(saldos, jar));
    assert c >= 1;
    RenderCentsRoundTrip(c);
  }
}
