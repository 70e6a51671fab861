/**
 * What the ledger reducer of FinanceContext promises: exact distribution,
 * conservation of the total, the shape of both histories, the floor-at-zero
 * reversal, add-then-delete as an undo, and the invariant every guarded
 * action preserves.
 */
module FinanceProperties {
  import opened Wrappers
  import opened Jars
  import opened FinanceContext

  // ---------------------------------------------------------------------------
  // Sums over the jars

  /** A pointwise sum of balance maps sums to the sum of the totals. */
  lemma {:induction false} SumOverPointwise(js: seq<Jar>, b1: Balances, b2: Balances, d: Balances)
    requires forall j :: j in js ==> Get(b2, j) == Get(b1, j) + Get(d, j)
    ensures SumOver(js, b2) == SumOver(js, b1) + SumOver(js, d)
  {
    if js != [] {
      SumOverPointwise(js[1..], b1, b2, d);
    }
  }

  /** A pointwise lower bound on balances bounds their sum. */
  lemma {:induction false} SumOverAtLeast(js: seq<Jar>, b1: Balances, b2: Balances, d: Balances)
    requires forall j :: j in js ==> Get(b2, j) >= Get(b1, j) - Get(d, j)
    ensures SumOver(js, b2) >= SumOver(js, b1) - SumOver(js, d)
  {
    if js != [] {
      SumOverAtLeast(js[1..], b1, b2, d);
    }
  }

  /** The total balance written out jar by jar. */
  lemma TotalOfSix(b: Balances)
    ensures TotalBalance(b) == Get(b, NEC) + Get(b, LF) + Get(b, ALP) + Get(b, EDU) + Get(b, PLAY) + Get(b, DAR)
  {
    var s5: seq<Jar> := [DAR];
    var s4: seq<Jar> := [PLAY, DAR];
    var s3: seq<Jar> := [EDU, PLAY, DAR];
    var s2: seq<Jar> := [ALP, EDU, PLAY, DAR];
    var s1: seq<Jar> := [LF, ALP, EDU, PLAY, DAR];
    assert SumOver(s5, b) == Get(b, DAR) by { assert s5[1..] == []; }
    assert SumOver(s4, b) == Get(b, PLAY) + SumOver(s5, b) by { assert s4[1..] == s5; }
    assert SumOver(s3, b) == Get(b, EDU) + SumOver(s4, b) by { assert s3[1..] == s4; }
    assert SumOver(s2, b) == Get(b, ALP) + SumOver(s3, b) by { assert s2[1..] == s3; }
    assert SumOver(s1, b) == Get(b, LF) + SumOver(s2, b) by { assert s1[1..] == s2; }
    assert SumOver(AllJars, b) == Get(b, NEC) + SumOver(s1, b) by { assert AllJars[1..] == s1; }
  }

  /** The share of one jar. */
  lemma DistributionAt(monto: real, j: Jar)
    ensures j in Distribution(monto) && Distribution(monto)[j] == monto * Weight(j)
  {
    InAllJars(j);
  }

  // ---------------------------------------------------------------------------
  // Distribution (JAR_PERCENTAGES and the first forEach of ADD_INCOME)

  /** Every jar gets `monto * weight`, and the six deltas add up to exactly `monto`. */
  lemma DistributionSplitsAmount(monto: real)
    ensures Complete(Distribution(monto))
    ensures forall j: Jar :: Distribution(monto)[j] == monto * Weight(j)
    ensures TotalBalance(Distribution(monto)) == monto
  {
    forall j: Jar ensures j in Distribution(monto) && Distribution(monto)[j] == monto * Weight(j) {
      DistributionAt(monto, j);
    }
    TotalOfSix(Distribution(monto));
  }

  /** A positive amount gives every jar a positive share. */
  lemma DistributionPositive(monto: real)
    requires monto > 0.0
    ensures forall j: Jar :: j in Distribution(monto) && Distribution(monto)[j] > 0.0
  {
    forall j: Jar ensures j in Distribution(monto) && Distribution(monto)[j] > 0.0 {
      DistributionAt(monto, j);
      WeightsAgreeWithInfo(j);
    }
  }

  // ---------------------------------------------------------------------------
  // ADD_INCOME

  /** The balances after an income: every jar is present and has grown by its share. */
  lemma AddIncomeBalances(s: State, monto: real, descripcion: string, id: string, now: string)
    ensures var r := Reduce(s, AddIncome(monto, descripcion), id, now);
      Complete(r.saldos) && forall j: Jar :: r.saldos[j] == Get(s.saldos, j) + monto * Weight(j)
  {
    var r := Reduce(s, AddIncome(monto, descripcion), id, now);
    forall j: Jar ensures j in r.saldos && r.saldos[j] == Get(s.saldos, j) + monto * Weight(j) {
      DistributionAt(monto, j);
    }
  }

  /** An income raises the total balance by exactly the amount. */
  lemma AddIncomeRaisesTotal(s: State, monto: real, descripcion: string, id: string, now: string)
    ensures TotalBalance(Reduce(s, AddIncome(monto, descripcion), id, now).saldos) == TotalBalance(s.saldos) + monto
  {
    var r := Reduce(s, AddIncome(monto, descripcion), id, now);
    AddIncomeBalances(s, monto, descripcion, id, now);
    DistributionSplitsAmount(monto);
    SumOverPointwise(AllJars, s.saldos, r.saldos, Distribution(monto));
  }

  /**
   * An income prepends exactly one record carrying the amount, description and
   * distribution, keeps the older records in order, appends exactly one LF point
   * holding the new LF balance, and leaves the theme alone.
   */
  lemma AddIncomeHistories(s: State, monto: real, descripcion: string, id: string, now: string)
    ensures var r := Reduce(s, AddIncome(monto, descripcion), id, now);
      && |r.historialTransacciones| == |s.historialTransacciones| + 1
      && r.historialTransacciones[0] == Transaction(id, now, monto, descripcion, Distribution(monto))
      && r.historialTransacciones[1..] == s.historialTransacciones
      && |r.historialLF| == |s.historialLF| + 1
      && r.historialLF[..|s.historialLF|] == s.historialLF
      && r.historialLF[|s.historialLF|] == LFPoint(now, Some(Get(s.saldos, LF) + monto * 0.10))
      && r.theme == s.theme
  {
    AddIncomeState(s, monto, descripcion, id, now);
    DistributionAt(monto, LF);
    var r := Reduce(s, AddIncome(monto, descripcion), id, now);
    assert r.historialTransacciones[1..] == s.historialTransacciones;
    assert r.historialLF[..|s.historialLF|] == s.historialLF;
  }

  // ---------------------------------------------------------------------------
  // DELETE_TRANSACTION

  /** Deleting an id that no record carries returns the state unchanged. */
  lemma DeleteUnknownIsNoOp(s: State, transactionId: string, id: string, now: string)
    requires forall k :: 0 <= k < |s.historialTransacciones| ==> s.historialTransacciones[k].id != transactionId
    ensures Reduce(s, DeleteTransaction(transactionId), id, now) == s
  {
  }

  /**
   * Deleting a recorded id floors each reversed jar at zero, leaves the other
   * jars alone, removes every record with that id and keeps all others, and
   * appends exactly one LF point holding the post-reversal LF balance.
   */
  lemma DeleteReverses(s: State, transactionId: string, id: string, now: string)
    requires exists k :: 0 <= k < |s.historialTransacciones| && s.historialTransacciones[k].id == transactionId
    ensures Find(s.historialTransacciones, transactionId).Some?
    ensures var t := Find(s.historialTransacciones, transactionId).value;
      var r := Reduce(s, DeleteTransaction(transactionId), id, now);
      && t in s.historialTransacciones && t.id == transactionId
      && (forall j :: j in t.distribution ==> j in r.saldos && r.saldos[j] == Max0(Get(s.saldos, j) - t.distribution[j]))
      && (forall j :: j !in t.distribution ==> Lookup(r.saldos, j) == Lookup(s.saldos, j))
      && (forall x :: x in r.historialTransacciones <==> x in s.historialTransacciones && x.id != transactionId)
      && r.historialLF == s.historialLF + [LFPoint(now, Lookup(r.saldos, LF))]
      && r.theme == s.theme
  {
    var t := Find(s.historialTransacciones, transactionId).value;
    DeleteFoundState(s, transactionId, t, id, now);
    ReverseAt(s.saldos, t.distribution);
  }

  /** The floored subtraction, jar by jar: each delta's jar floored at zero, every other jar as it was. */
  lemma ReverseAt(b: Balances, d: Balances)
    ensures forall j :: j in d ==> j in Reverse(b, d) && Reverse(b, d)[j] == Max0(Get(b, j) - d[j])
    ensures forall j :: j !in d ==> Lookup(Reverse(b, d), j) == Lookup(b, j)
  {
  }

  /** Deleting never produces a negative balance from non-negative ones. */
  lemma DeleteKeepsNonNegative(s: State, transactionId: string, id: string, now: string)
    requires NonNegative(s.saldos)
    ensures NonNegative(Reduce(s, DeleteTransaction(transactionId), id, now).saldos)
  {
  }

  /**
   * The total after a delete falls by at most the sum of the record's
   * distribution, and by exactly that when every jar still covers its delta.
   */
  lemma DeleteLowersTotal(s: State, transactionId: string, id: string, now: string)
    requires Find(s.historialTransacciones, transactionId).Some?
    ensures var d := Find(s.historialTransacciones, transactionId).value.distribution;
      var r := Reduce(s, DeleteTransaction(transactionId), id, now);
      && TotalBalance(r.saldos) >= TotalBalance(s.saldos) - TotalBalance(d)
      && ((forall j :: j in d ==> d[j] <= Get(s.saldos, j)) ==> TotalBalance(r.saldos) == TotalBalance(s.saldos) - TotalBalance(d))
  {
    var d := Find(s.historialTransacciones, transactionId).value.distribution;
    assert Reduce(s, DeleteTransaction(transactionId), id, now).saldos == Reverse(s.saldos, d);
    ReverseTotal(s.saldos, d);
  }

  /** The floored subtraction lowers the total by at most the deltas, and by exactly them when each jar covers its delta. */
  lemma ReverseTotal(b: Balances, d: Balances)
    ensures TotalBalance(Reverse(b, d)) >= TotalBalance(b) - TotalBalance(d)
    ensures (forall j :: j in d ==> d[j] <= Get(b, j)) ==> TotalBalance(Reverse(b, d)) == TotalBalance(b) - TotalBalance(d)
  {
    var r := Reverse(b, d);
    assert forall j :: Get(r, j) >= Get(b, j) - Get(d, j);
    SumOverAtLeast(AllJars, b, r, d);
    if forall j :: j in d ==> d[j] <= Get(b, j) {
      assert forall j :: Get(b, j) == Get(r, j) + Get(d, j);
      SumOverPointwise(AllJars, r, b, d);
    }
  }

  // ---------------------------------------------------------------------------
  // ADD_INCOME followed by DELETE_TRANSACTION

  /**
   * From non-negative balances, an income followed by the deletion of its own id
   * restores every balance (the whole map when all six keys were present) and,
   * when the id was fresh, the original transaction history; the LF history ends
   * two points longer with its earlier points untouched.
   */
  lemma AddThenDeleteUndoes(s: State, monto: real, descripcion: string, id: string, now: string, id2: string, now2: string)
    requires NonNegative(s.saldos)
    ensures var s1 := Reduce(s, AddIncome(monto, descripcion), id, now);
      var s2 := Reduce(s1, DeleteTransaction(id), id2, now2);
      && (forall j :: Get(s2.saldos, j) == Get(s.saldos, j))
      && (Complete(s.saldos) ==> s2.saldos == s.saldos)
      && ((forall k :: 0 <= k < |s.historialTransacciones| ==> s.historialTransacciones[k].id != id) ==> s2.historialTransacciones == s.historialTransacciones)
      && |s2.historialLF| == |s.historialLF| + 2
      && s2.historialLF[..|s.historialLF|] == s.historialLF
      && s2.theme == s.theme
  {
    var d := Distribution(monto);
    DeleteAfterAdd(s, monto, descripcion, id, now, id2, now2);
    CreditThenReverse(s.saldos, d);
    if Complete(s.saldos) {
      ReverseCreditComplete(s.saldos, d);
    }
    var s2 := Reduce(Reduce(s, AddIncome(monto, descripcion), id, now), DeleteTransaction(id), id2, now2);
    assert s2.historialLF[..|s.historialLF|] == s.historialLF;
  }

  /** The state an income followed by the deletion of its own id leaves, field by field. */
  lemma DeleteAfterAdd(s: State, monto: real, descripcion: string, id: string, now: string, id2: string, now2: string)
    ensures var s1 := Reduce(s, AddIncome(monto, descripcion), id, now);
      var s2 := Reduce(s1, DeleteTransaction(id), id2, now2);
      && s2.saldos == Reverse(Credit(s.saldos, Distribution(monto)), Distribution(monto))
      && s2.historialTransacciones == Remove(s.historialTransacciones, id)
      && s2.historialLF == s.historialLF + [s1.historialLF[|s.historialLF|], LFPoint(now2, Lookup(s2.saldos, LF))]
      && s2.theme == s.theme
  {
    var t := Transaction(id, now, monto, descripcion, Distribution(monto));
    AddIncomeState(s, monto, descripcion, id, now);
    var s1 := Reduce(s, AddIncome(monto, descripcion), id, now);
    assert s1.historialTransacciones[0] == t;
    DeleteFoundState(s1, id, t, id2, now2);
    assert Remove(s1.historialTransacciones, id) == Remove(s.historialTransacciones, id) by {
      assert s1.historialTransacciones[1..] == s.historialTransacciones;
    }
  }

  /** ADD_INCOME unfolded: the credited balances, the record in front, one LF point at the end. */
  lemma AddIncomeState(s: State, monto: real, descripcion: string, id: string, now: string)
    ensures var d := Distribution(monto);
      Reduce(s, AddIncome(monto, descripcion), id, now)
      == s.(saldos := Credit(s.saldos, d),
            historialTransacciones := [Transaction(id, now, monto, descripcion, d)] + s.historialTransacciones,
            historialLF := s.historialLF + [LFPoint(now, Lookup(Credit(s.saldos, d), LF))])
  {
  }

  /** DELETE_TRANSACTION of a found record unfolded: reversed balances, filtered history, one LF point. */
  lemma DeleteFoundState(s: State, transactionId: string, t: Transaction, id: string, now: string)
    requires Find(s.historialTransacciones, transactionId) == Some(t)
    ensures Reduce(s, DeleteTransaction(transactionId), id, now)
      == s.(saldos := Reverse(s.saldos, t.distribution),
            historialTransacciones := Remove(s.historialTransacciones, transactionId),
            historialLF := s.historialLF + [LFPoint(now, Lookup(Reverse(s.saldos, t.distribution), LF))])
  {
  }

  /** On complete balances the floored round trip gives back the very same map. */
  lemma ReverseCreditComplete(b: Balances, d: Balances)
    requires NonNegative(b) && Complete(b)
    ensures Reverse(Credit(b, d), d) == b
  {
    CreditThenReverse(b, d);
    var r := Reverse(Credit(b, d), d);
    assert r.Keys == b.Keys;
    forall j | j in b ensures r[j] == b[j] {
      assert Get(r, j) == Get(b, j);
    }
  }

  /** Subtracting with a floor what was just added gives back every non-negative balance. */
  lemma CreditThenReverse(b: Balances, d: Balances)
    requires NonNegative(b)
    ensures Reverse(Credit(b, d), d).Keys == b.Keys + d.Keys
    ensures forall j :: Get(Reverse(Credit(b, d), d), j) == Get(b, j)
  {
  }

  // ---------------------------------------------------------------------------
  // SET_THEME, toggleTheme, LOAD_STATE, unknown actions

  /** SET_THEME replaces the theme and nothing else. */
  lemma SetThemeOnlyTheme(s: State, theme: string, id: string, now: string)
    ensures var r := Reduce(s, SetTheme(theme), id, now);
      r.theme == theme && r.saldos == s.saldos && r.historialTransacciones == s.historialTransacciones
      && r.historialLF == s.historialLF
  {
  }

  /**
   * The toggle always yields 'light' or 'dark' and never the theme it started
   * from; from either of those two it is an involution.
   */
  lemma ToggleThemeFlips(theme: string)
    ensures ToggleTheme(theme) == "light" || ToggleTheme(theme) == "dark"
    ensures ToggleTheme(theme) != theme
    ensures ToggleTheme(theme) == "dark" <==> theme == "light"
    ensures theme == "light" || theme == "dark" ==> ToggleTheme(ToggleTheme(theme)) == theme
  {
  }

  /** The payload a stored state parses to: every top-level field present. */
  function Snapshot(s: State): Payload
  {
    Payload(Some(s.saldos), Some(s.historialTransacciones), Some(s.historialLF), Some(s.theme))
  }

  /**
   * LOAD_STATE does not depend on the current state, an empty payload yields
   * `initialState`, and loading the snapshot of a state restores it exactly.
   */
  lemma LoadStateReplaces(s: State, s0: State, p: Payload, id: string, now: string)
    ensures Reduce(s, LoadState(p), id, now) == Reduce(s0, LoadState(p), id, "")
    ensures Reduce(s, LoadState(Payload(None, None, None, None)), id, now) == InitialState
    ensures Reduce(s, LoadState(Snapshot(s0)), id, now) == s0
  {
  }

  /**
   * `{ ...initialState, ...payload }` field by field: a present field is taken
   * as it is (a `saldos` missing keys included), an absent one comes from
   * `initialState` (six zero balances, empty histories, 'light').
   */
  lemma LoadStateBalances(s: State, p: Payload, id: string, now: string)
    ensures var r := Reduce(s, LoadState(p), id, now);
      && (p.saldos.Some? ==> r.saldos == p.saldos.value)
      && (p.saldos.None? ==> r.saldos == InitialState.saldos && Complete(r.saldos) && TotalBalance(r.saldos) == 0.0)
      && (p.saldos.None? ==> forall j :: j in r.saldos && r.saldos[j] == 0.0)
      && (p.historialTransacciones.Some? ==> r.historialTransacciones == p.historialTransacciones.value)
      && (p.historialTransacciones.None? ==> r.historialTransacciones == [])
      && (p.historialLF.Some? ==> r.historialLF == p.historialLF.value)
      && (p.historialLF.None? ==> r.historialLF == [])
      && (p.theme.Some? ==> r.theme == p.theme.value)
      && (p.theme.None? ==> r.theme == "light")
  {
    forall j: Jar ensures j in InitialState.saldos {
      match j
      case NEC => case LF => case ALP => case EDU => case PLAY => case DAR =>
    }
    InitialTotalIsZero();
  }

  /** `initialState`: all six jars at zero, both histories empty, the light theme. */
  lemma InitialStateIsEmpty()
    ensures Complete(InitialState.saldos) && NonNegative(InitialState.saldos)
    ensures forall j :: Get(InitialState.saldos, j) == 0.0
    ensures InitialState.historialTransacciones == [] && InitialState.historialLF == []
    ensures InitialState.theme == "light"
  {
    forall j: Jar ensures j in InitialState.saldos && InitialState.saldos[j] == 0.0 {
      match j
      case NEC => case LF => case ALP => case EDU => case PLAY => case DAR =>
    }
  }

  /** The balances of `initialState` sum to zero. */
  lemma InitialTotalIsZero()
    ensures TotalBalance(InitialState.saldos) == 0.0
  {
    var z := InitialState.saldos;
    assert forall j :: Get(z, j) == Get(z, j) + Get(z, j);
    SumOverPointwise(AllJars, z, z, z);
  }

  /** An action of another type returns the state unchanged. */
  lemma UnrecognizedIsNoOp(s: State, kind: string, id: string, now: string)
    ensures Reduce(s, Unrecognized(kind), id, now) == s
  {
  }

  // ---------------------------------------------------------------------------
  // Derived views

  /** The three growth bands of the LF balance, and 'tree' for an undefined LF. */
  lemma PlantStageBands(b: Balances)
    ensures LF in b ==> (PlantStageOf(b) == Seed <==> b[LF] <= 100.0)
    ensures LF in b ==> (PlantStageOf(b) == Sprout <==> 100.0 < b[LF] <= 1000.0)
    ensures LF in b ==> (PlantStageOf(b) == Tree <==> b[LF] > 1000.0)
    ensures LF !in b ==> PlantStageOf(b) == Tree
  {
  }

  /** The total of non-negative balances is non-negative. */
  lemma {:induction false} SumOverNonNegative(js: seq<Jar>, b: Balances)
    requires NonNegative(b)
    ensures SumOver(js, b) >= 0.0
  {
    if js != [] {
      SumOverNonNegative(js[1..], b);
    }
  }

  /** One salary of 1000 from the initial state fills the jars with 550/100/100/100/100/50. */
  lemma FirstSalaryBalances(descripcion: string, id: string, now: string)
    ensures Reduce(InitialState, AddIncome(1000.0, descripcion), id, now).saldos
         == map[NEC := 550.0, LF := 100.0, ALP := 100.0, EDU := 100.0, PLAY := 100.0, DAR := 50.0]
  {
    AddIncomeState(InitialState, 1000.0, descripcion, id, now);
    ThousandSplit();
    CreditFromZero(Distribution(1000.0));
  }

  /** The shares of 1000: 550 for NEC, 100 for each of LF, ALP, EDU and PLAY, 50 for DAR. */
  lemma ThousandSplit()
    ensures Complete(Distribution(1000.0))
    ensures Distribution(1000.0) == map[NEC := 550.0, LF := 100.0, ALP := 100.0, EDU := 100.0, PLAY := 100.0, DAR := 50.0]
  {
    var d := Distribution(1000.0);
    assert Complete(d) by {
      forall j ensures j in d { DistributionAt(1000.0, j); }
    }
    assert d[NEC] == 550.0 by { DistributionAt(1000.0, NEC); }
    assert d[LF] == 100.0 by { DistributionAt(1000.0, LF); }
    assert d[ALP] == 100.0 by { DistributionAt(1000.0, ALP); }
    assert d[EDU] == 100.0 by { DistributionAt(1000.0, EDU); }
    assert d[PLAY] == 100.0 by { DistributionAt(1000.0, PLAY); }
    assert d[DAR] == 50.0 by { DistributionAt(1000.0, DAR); }
    SixBalances(d, 550.0, 100.0, 100.0, 100.0, 100.0, 50.0);
  }

  /** Crediting a complete delta map to the zero balances of `initialState` gives the deltas themselves. */
  lemma CreditFromZero(d: Balances)
    requires Complete(d)
    ensures Credit(InitialState.saldos, d) == d
  {
    var r := Credit(InitialState.saldos, d);
    forall j ensures j in r && r[j] == d[j] {
      match j
      case NEC => case LF => case ALP => case EDU => case PLAY => case DAR =>
    }
    assert r.Keys == d.Keys;
  }

  /** A map holding all six jars is the display of its six values. */
  lemma SixBalances(b: Balances, nec: real, lf: real, alp: real, edu: real, play: real, dar: real)
    requires Complete(b)
    requires b[NEC] == nec && b[LF] == lf && b[ALP] == alp && b[EDU] == edu && b[PLAY] == play && b[DAR] == dar
    ensures b == map[NEC := nec, LF := lf, ALP := alp, EDU := edu, PLAY := play, DAR := dar]
  {
    var m := map[NEC := nec, LF := lf, ALP := alp, EDU := edu, PLAY := play, DAR := dar];
    forall j ensures j in m && m[j] == b[j] {
      match j
      case NEC => case LF => case ALP => case EDU => case PLAY => case DAR =>
    }
    assert b.Keys == m.Keys;
  }

  /** After that salary the total is 1000 and LF = 100 is still a seed (the band is inclusive). */
  lemma FirstSalaryScenario(descripcion: string, id: string, now: string)
    ensures var r := Reduce(InitialState, AddIncome(1000.0, descripcion), id, now);
      TotalBalance(r.saldos) == 1000.0 && r.saldos[LF] == 100.0 && PlantStageOf(r.saldos) == Seed
  {
    FirstSalaryBalances(descripcion, id, now);
    AddIncomeRaisesTotal(InitialState, 1000.0, descripcion, id, now);
    InitialTotalIsZero();
  }

  // ---------------------------------------------------------------------------
  // The ledger invariant

  /** A record as ADD_INCOME makes it: positive amount, all six deltas, deltas summing to the amount. */
  predicate WellFormed(t: Transaction)
  {
    t.monto > 0.0 && Complete(t.distribution) && TotalBalance(t.distribution) == t.monto
  }

  /** No two records share an id. */
  predicate UniqueIds(h: seq<Transaction>)
  {
    forall a, b :: 0 <= a < b < |h| ==> h[a].id != h[b].id
  }

  /** Non-negative balances, well-formed records with distinct ids. */
  predicate Consistent(s: State)
  {
    NonNegative(s.saldos) && UniqueIds(s.historialTransacciones)
    && forall t :: t in s.historialTransacciones ==> WellFormed(t)
  }

  /** The actions the forms and the provider issue: positive incomes under a fresh id, consistent loads. */
  predicate Admissible(s: State, a: Action, id: string)
  {
    match a
    case AddIncome(monto, _) =>
      monto > 0.0 && forall k :: 0 <= k < |s.historialTransacciones| ==> s.historialTransacciones[k].id != id
    case LoadState(p) => Consistent(Loaded(p))
    case _ => true
  }

  /** Filtering by id keeps the remaining ids distinct. */
  lemma {:induction false} RemoveKeepsUniqueIds(h: seq<Transaction>, id: string)
    requires UniqueIds(h)
    ensures UniqueIds(Remove(h, id))
  {
    if h != [] {
      assert UniqueIds(h[1..]) by {
        forall a, b | 0 <= a < b < |h[1..]| ensures h[1..][a].id != h[1..][b].id {
          assert h[1..][a] == h[a + 1] && h[1..][b] == h[b + 1];
        }
      }
      RemoveKeepsUniqueIds(h[1..], id);
      if h[0].id != id {
        var rest := Remove(h[1..], id);
        forall k | 0 <= k < |rest| ensures rest[k].id != h[0].id {
          assert rest[k] in h[1..];
          var m :| 0 <= m < |h[1..]| && h[1..][m] == rest[k];
          assert h[m + 1] == rest[k];
        }
      }
    }
  }

  /** The initial state is consistent. */
  lemma InitialConsistent()
    ensures Consistent(InitialState)
  {
  }

  /** Every admissible action keeps the state consistent. */
  lemma ReducePreservesConsistency(s: State, a: Action, id: string, now: string)
    requires Consistent(s) && Admissible(s, a, id)
    ensures Consistent(Reduce(s, a, id, now))
  {
    match a {
      case AddIncome(monto, descripcion) =>
        var r := Reduce(s, a, id, now);
        DistributionSplitsAmount(monto);
        DistributionPositive(monto);
        AddIncomeBalances(s, monto, descripcion, id, now);
        assert WellFormed(r.historialTransacciones[0]);
        assert r.historialTransacciones[1..] == s.historialTransacciones;
        forall t | t in r.historialTransacciones ensures WellFormed(t) {
          if t != r.historialTransacciones[0] {
            assert t in s.historialTransacciones;
          }
        }
        forall x, y | 0 <= x < y < |r.historialTransacciones| ensures r.historialTransacciones[x].id != r.historialTransacciones[y].id {
          assert r.historialTransacciones[y] == s.historialTransacciones[y - 1];
          if x > 0 {
            assert r.historialTransacciones[x] == s.historialTransacciones[x - 1];
          }
        }
      case DeleteTransaction(transactionId) =>
        RemoveKeepsUniqueIds(s.historialTransacciones, transactionId);
      case _ =>
    }
  }
}
