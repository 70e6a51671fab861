/**
 * The ledger state machine of the budget (`financeReducer` and the derived
 * views of frontend/src/context/FinanceContext.js).
 *
 * Money is exact: every amount is a `real`. The identifier (`generateId`) and
 * the ISO timestamp (`new Date().toISOString()`) that the reducer draws from
 * the environment are parameters.
 */
module FinanceContext {
  import opened Wrappers
  import opened Jars

  /** The balance map `saldos`. A key can be missing: LOAD_STATE installs whatever map it is given. */
  type Balances = map<Jar, real>

  /** A record of `historial_transacciones`, as ADD_INCOME creates it. */
  datatype Transaction = Transaction(
    id: string,
    fecha: string,
    monto: real,
    descripcion: string,
    distribution: Balances)

  /** A point of `historial_lf`; `saldo` is `None` when the LF key was undefined. */
  datatype LFPoint = LFPoint(fecha: string, saldo: Option<real>)

  /** The whole state held by the provider. */
  datatype State = State(
    saldos: Balances,
    historialTransacciones: seq<Transaction>,
    historialLF: seq<LFPoint>,
    theme: string)

  /** An already-parsed LOAD_STATE payload: each top-level field may be absent. */
  datatype Payload = Payload(
    saldos: Option<Balances>,
    historialTransacciones: Option<seq<Transaction>>,
    historialLF: Option<seq<LFPoint>>,
    theme: Option<string>)

  /** The actions `financeReducer` dispatches on; any other `type` is `Unrecognized`. */
  datatype Action =
    | AddIncome(monto: real, descripcion: string)
    | DeleteTransaction(transactionId: string)
    | SetTheme(newTheme: string)
    | LoadState(payload: Payload)
    | Unrecognized(kind: string)

  /** The growth stage drawn for the LF jar. */
  datatype PlantStage = Seed | Sprout | Tree

  /** `initialState`: all six balances zero, empty histories, light theme. */
  const InitialState: State := State(
    map[NEC := 0.0, LF := 0.0, ALP := 0.0, EDU := 0.0, PLAY := 0.0, DAR := 0.0],
    [], [], "light")

  /** `b[j] || 0`: the balance of a jar, an absent key read as zero. */
  function Get(b: Balances, j: Jar): real
  {
    if j in b then b[j] else 0.0
  }

  /** `b[j]`, with `undefined` as `None`. */
  function Lookup(b: Balances, j: Jar): Option<real>
  {
    if j in b then Some(b[j]) else None
  }

  /** `Math.max(0, x)`. */
  function Max0(x: real): real
  {
    if x < 0.0 then 0.0 else x
  }

  /** No jar holds a negative balance. */
  predicate NonNegative(b: Balances)
  {
    forall j :: j in b ==> b[j] >= 0.0
  }

  /** All six keys are present. */
  predicate Complete(b: Balances)
  {
    forall j: Jar :: j in b
  }

  /** Sum of the balances of the listed jars. */
  function SumOver(js: seq<Jar>, b: Balances): real
  {
    if js == [] then 0.0 else Get(b, js[0]) + SumOver(js[1..], b)
  }

  /** `totalBalance`: the sum of the values of `saldos`. */
  function TotalBalance(b: Balances): real
  {
    SumOver(AllJars, b)
  }

  /** The `distribution` of an ADD_INCOME: each jar's share, `monto * JAR_PERCENTAGES[jar]`. */
  function Distribution(monto: real): Balances
  {
    map j | j in AllJars :: monto * Weight(j)
  }

  /** The balances after adding each delta of `d` to its jar. */
  function Credit(b: Balances, d: Balances): Balances
  {
    b + map j | j in d :: Get(b, j) + d[j]
  }

  /** The balances after subtracting each delta of `d` from its jar, floored at zero. */
  function Reverse(b: Balances, d: Balances): Balances
  {
    b + map j | j in d :: Max0(Get(b, j) - d[j])
  }

  /** `historial.find(t => t.id === id)`: the first record carrying the id. */
  function Find(h: seq<Transaction>, id: string): (r: Option<Transaction>)
    ensures r.None? <==> forall k :: 0 <= k < |h| ==> h[k].id != id
    ensures r.Some? ==> r.value.id == id && exists k :: 0 <= k < |h| && h[k] == r.value && forall i :: 0 <= i < k ==> h[i].id != id
  {
    if h == [] then None
    else if h[0].id == id then Some(h[0])
    else
      var r := Find(h[1..], id);
      assert r.Some? ==> exists k :: 0 <= k < |h| && h[k] == r.value && forall i :: 0 <= i < k ==> h[i].id != id by {
        if r.Some? {
          var k :| 0 <= k < |h[1..]| && h[1..][k] == r.value && forall i :: 0 <= i < k ==> h[1..][i].id != id;
          assert h[k + 1] == r.value;
        }
      }
      r
  }

  /** `historial.filter(t => t.id !== id)`: every record with another id, in order. */
  function Remove(h: seq<Transaction>, id: string): (r: seq<Transaction>)
    ensures forall t :: t in r <==> t in h && t.id != id
    ensures |r| <= |h|
    ensures (forall k :: 0 <= k < |h| ==> h[k].id != id) ==> r == h
  {
    if h == [] then []
    else if h[0].id == id then Remove(h[1..], id)
    else [h[0]] + Remove(h[1..], id)
  }

  /**
   * `filter` works record by record: the kept records of a concatenation are
   * the kept records of each part, in the same order.
   */
  lemma {:induction false} RemoveConcat(p: seq<Transaction>, q: seq<Transaction>, id: string)
    ensures Remove(p + q, id) == Remove(p, id) + Remove(q, id)
  {
    if p == [] {
      assert p + q == q;
    } else {
      assert (p + q)[1..] == p[1..] + q;
      RemoveConcat(p[1..], q, id);
    }
  }

  /** `initialState[f]` unless the payload supplies the field. */
  function OrElse<T>(o: Option<T>, fallback: T): T
  {
    match o
    case Some(v) => v
    case None => fallback
  }

  /**
   * `financeReducer(state, action)`, with `id` the fresh identifier and `now`
   * the timestamp the reducer would draw.
   */
  function Reduce(s: State, a: Action, id: string, now: string): State
  {
    match a
    case AddIncome(monto, descripcion) =>
      var d := Distribution(monto);
      var saldos := Credit(s.saldos, d);
      s.(saldos := saldos,
         historialTransacciones := [Transaction(id, now, monto, descripcion, d)] + s.historialTransacciones,
         historialLF := s.historialLF + [LFPoint(now, Lookup(saldos, LF))])
    case DeleteTransaction(transactionId) =>
      var found := Find(s.historialTransacciones, transactionId);
      if found.None? then s
      else
        var saldos := Reverse(s.saldos, found.value.distribution);
        s.(saldos := saldos,
           historialTransacciones := Remove(s.historialTransacciones, transactionId),
           historialLF := s.historialLF + [LFPoint(now, Lookup(saldos, LF))])
    case SetTheme(theme) => s.(theme := theme)
    case LoadState(p) => Loaded(p)
    case Unrecognized(_) => s
  }

  /** `{ ...initialState, ...payload }`: each top-level field from the payload when present. */
  function Loaded(p: Payload): State
  {
    State(OrElse(p.saldos, InitialState.saldos),
          OrElse(p.historialTransacciones, InitialState.historialTransacciones),
          OrElse(p.historialLF, InitialState.historialLF),
          OrElse(p.theme, InitialState.theme))
  }

  /** The theme `toggleTheme` dispatches: 'dark' after 'light', 'light' after anything else. */
  function ToggleTheme(theme: string): string
  {
    if theme == "light" then "dark" else "light"
  }

  /**
   * `getPlantStage`: the band of the LF balance. An undefined LF compares false
   * with both bounds in JavaScript, so it falls through to 'tree'.
   */
  function PlantStageOf(b: Balances): PlantStage
  {
    match Lookup(b, LF)
    case None => Tree
    case Some(lf) => if lf <= 100.0 then Seed else if lf <= 1000.0 then Sprout else Tree
  }

  /** A map holding every jar with its `monto * weight` is the distribution of `monto`. */
  lemma DistributionPointwise(d: Balances, monto: real)
    requires forall j :: j in d
    requires forall j :: d[j] == monto * Weight(j)
    ensures d == Distribution(monto)
  {
    forall j ensures j in Distribution(monto) && Distribution(monto)[j] == monto * Weight(j) {
      InAllJars(j);
    }
    assert d.Keys == Distribution(monto).Keys;
  }

  /** The `forEach` of ADD_INCOME that writes one distribution entry per jar. */
  method BuildDistribution(monto: real) returns (d: Balances)
    ensures d == Distribution(monto)
  {
    d := map[];
    for i := 0 to |AllJars|
      invariant forall j :: j in d <==> Position(j) < i
      invariant forall j :: j in d ==> d[j] == monto * Weight(j)
    {
      PositionOfIndex(i);
      d := d[AllJars[i] := monto * Weight(AllJars[i])];
    }
    DistributionPointwise(d, monto);
  }

  /** A map that agrees with `Credit(b, d)` on every key and on every value is that map. */
  lemma CreditPointwise(nb: Balances, b: Balances, d: Balances)
    requires forall j :: j in nb <==> j in b || j in d
    requires forall j :: j in nb ==> nb[j] == if j in d then Get(b, j) + d[j] else b[j]
    ensures nb == Credit(b, d)
  {
    assert nb.Keys == Credit(b, d).Keys;
  }

  /** The `forEach` of ADD_INCOME that adds each distribution entry to a copy of the balances. */
  method CreditBalances(b: Balances, d: Balances) returns (nb: Balances)
    ensures nb == Credit(b, d)
  {
    nb := b;
    for i := 0 to |AllJars|
      invariant forall j :: j in nb <==> j in b || (j in d && Position(j) < i)
      invariant forall j :: j in nb ==> nb[j] == if j in d && Position(j) < i then Get(b, j) + d[j] else b[j]
    {
      var jar := AllJars[i];
      PositionOfIndex(i);
      if jar in d {
        nb := nb[jar := Get(nb, jar) + d[jar]];
      }
    }
    CreditPointwise(nb, b, d);
  }

  /** A map that agrees with `Reverse(b, d)` on every key and on every value is that map. */
  lemma ReversePointwise(nb: Balances, b: Balances, d: Balances)
    requires forall j :: j in nb <==> j in b || j in d
    requires forall j :: j in nb ==> nb[j] == if j in d then Max0(Get(b, j) - d[j]) else b[j]
    ensures nb == Reverse(b, d)
  {
    assert nb.Keys == Reverse(b, d).Keys;
  }

  /** The `forEach` of DELETE_TRANSACTION that subtracts each entry, floored at zero. */
  method ReverseBalances(b: Balances, d: Balances) returns (nb: Balances)
    ensures nb == Reverse(b, d)
  {
    nb := b;
    for i := 0 to |AllJars|
      invariant forall j :: j in nb <==> j in b || (j in d && Position(j) < i)
      invariant forall j :: j in nb ==> nb[j] == if j in d && Position(j) < i then Max0(Get(b, j) - d[j]) else b[j]
    {
      var jar := AllJars[i];
      PositionOfIndex(i);
      if jar in d {
        nb := nb[jar := Max0(Get(nb, jar) - d[jar])];
      }
    }
    ReversePointwise(nb, b, d);
  }

  /** `financeReducer`, building its dictionaries with the loops above. */
  method FinanceReducer(s: State, a: Action, id: string, now: string) returns (r: State)
    ensures r == Reduce(s, a, id, now)
  {
    match a {
      case AddIncome(monto, descripcion) =>
        var distribution := BuildDistribution(monto);
        var transaction := Transaction(id, now, monto, descripcion, distribution);
        var saldos := CreditBalances(s.saldos, distribution);
        r := s.(saldos := saldos,
                historialTransacciones := [transaction] + s.historialTransacciones,
                historialLF := s.historialLF + [LFPoint(now, Lookup(saldos, LF))]);
      case DeleteTransaction(transactionId) =>
        var found := Find(s.historialTransacciones, transactionId);
        if found.None? {
          r := s;
        } else {
          var saldos := ReverseBalances(s.saldos, found.value.distribution);
          r := s.(saldos := saldos,
                  historialTransacciones := Remove(s.historialTransacciones, transactionId),
                  historialLF := s.historialLF + [LFPoint(now, Lookup(saldos, LF))]);
        }
      case SetTheme(theme) =>
        r := s.(theme := theme);
      case LoadState(p) =>
        r := Loaded(p);
      case Unrecognized(_) =>
        r := s;
    }
  }
}
