# 6 Jars ledger: a Dafny model

This project models the core of a personal budget that uses the "6 Jars" method.

Every income is split across six jars with fixed weights:

| jar | name | weight |
|---|---|---|
| NEC | Necesidades | 55 % |
| LF | Libertad Financiera | 10 % |
| ALP | Ahorro Largo Plazo | 10 % |
| EDU | Educación | 10 % |
| PLAY | Ocio | 10 % |
| DAR | Dar | 5 % |

Each jar keeps a running balance. The ledger also keeps a newest-first history of incomes and a history of LF balances for the growth chart.

The model covers two parts:

- The ledger state machine `financeReducer` and its derived views, from `frontend/src/context/FinanceContext.js`. The derived views are the total balance, the growth stage of the LF plant and the theme toggle.
- The three dialogs in front of the ledger: the income form, the withdrawal form and the direct-income form. For each, the model covers the amount box, the submit guards, the disabled conditions and the default descriptions.

Modules:

- `Wrappers` has `Option`.
- `Jars` has the six jars, their weights (which sum to 1), names and displayed percentages.
- `FinanceContext` has the state, the actions and the pure transition function `Reduce`. It also has the method `FinanceReducer`, which builds the distribution and the new balances with the per-jar loops the source uses. It is proved equal to `Reduce`.
- `FinanceProperties` has the lemmas about the reducer:
  - the totals;
  - the histories;
  - floor-at-zero reversal;
  - add-then-delete is an undo;
  - theme, load and unknown actions;
  - plant bands;
  - a ledger invariant that every admissible action preserves.
- `AmountInput` has the amount-box language `value === '' || /^\d*\.?\d{0,2}$/`, written two ways: as a recognizer and as a declarative language, proved equal. It also has:
  - a parser for accepted text, which replaces `parseFloat(value) || 0`, so that `''` and `'.'` read as 0;
  - the two-decimal rendering `toFixed(2)`, with round trips.
- `AddIncomeForm`, `WithdrawForm` and `DirectIncomeForm` model one dialog each.

Money is an exact `real`, never an IEEE double.

The fresh identifier (`generateId`) and the ISO timestamp (`new Date().toISOString()`) are parameters of the reducer. The provider's answer to `withdrawFromJar` is a boolean parameter.

The code differs from a fuller 6-Jars ledger in these ways, and the model follows the code:

- The reducer credits an ADD_INCOME of any amount; only the forms reject amounts ≤ 0.
- DELETE_TRANSACTION always subtracts the recorded distribution with a floor at zero. It has no per-kind policy: the records ADD_INCOME creates carry no kind.
- LOAD_STATE does no shape validation: `{ ...initialState, ...payload }` takes each present top-level field as it is.
- `getPlantStage` on balances without an LF key gives `tree`. `undefined <= 100` is false in JavaScript, so `PlantStageOf` reads a missing key as `tree`.

## Model

| member | source | states |
|---|---|---|
| Jars.Weight | frontend/src/context/FinanceContext.js:28-35 | Defines `JAR_PERCENTAGES`: 0.55 for NEC, 0.10 for LF, ALP, EDU and PLAY, 0.05 for DAR. Its properties are stated by `Jars.WeightsSumToOne` and `Jars.WeightsAgreeWithInfo`. |
| Jars.Name | frontend/src/context/FinanceContext.js:38-81 | Defines the `name` of each jar in `JAR_INFO`. |
| Jars.InfoPercentage | frontend/src/context/FinanceContext.js:38-81 | Defines the integer `percentage` of each jar in `JAR_INFO`. `Jars.WeightsAgreeWithInfo` ties it to the weight. |
| Jars.WeightsSumToOne | frontend/src/context/FinanceContext.js:28-35 | The six jar weights add up to exactly 1. |
| Jars.WeightsAgreeWithInfo | frontend/src/context/FinanceContext.js:28-81 | Each weight lies strictly between 0 and 1, and 100 times the weight is the percentage shown in the jar's metadata. |
| FinanceProperties.InitialStateIsEmpty | frontend/src/context/FinanceContext.js:9-25 | `initialState` holds all six jars at zero, both histories empty and the light theme. |
| FinanceContext.TotalBalance | frontend/src/context/FinanceContext.js:253 | Defines `totalBalance` as the sum of the six balances. `FinanceProperties.TotalOfSix` and `FinanceProperties.SumOverNonNegative` state its properties. |
| FinanceContext.Distribution | frontend/src/context/FinanceContext.js:99-102 | Defines the `distribution` of an ADD_INCOME as `jar -> monto * weight` over the six jars. `FinanceProperties.DistributionSplitsAmount` states its properties. |
| FinanceContext.Credit | frontend/src/context/FinanceContext.js:114-117 | Defines the balances after adding each delta to its jar, a missing jar read as 0. `FinanceProperties.AddIncomeBalances` and `FinanceProperties.AddIncomeRaisesTotal` state its properties. |
| FinanceContext.Reverse | frontend/src/context/FinanceContext.js:143-146 | Defines the balances after subtracting each delta from its jar with a floor at zero. `FinanceProperties.ReverseTotal` and `FinanceProperties.CreditThenReverse` state its properties. |
| FinanceContext.Find | frontend/src/context/FinanceContext.js:138 | Finding a record by id returns nothing exactly when no record has that id. Otherwise it returns a record with that id and no earlier record has it. |
| FinanceContext.Remove | frontend/src/context/FinanceContext.js:149 | The filtered history holds exactly the records whose id differs. It is no longer than before, and it is unchanged when no record has the id. |
| FinanceContext.RemoveConcat | frontend/src/context/FinanceContext.js:149 | `filter` keeps records in their order, one at a time: the filtered concatenation of two histories is the concatenation of their filtered parts. |
| FinanceContext.BuildDistribution | frontend/src/context/FinanceContext.js:99-102 | The per-jar loop builds exactly the distribution map `jar -> monto * weight` over the six jars. |
| FinanceContext.CreditBalances | frontend/src/context/FinanceContext.js:114-117 | The per-delta loop over a copy of the balances yields the old balances, with each delta's jar raised by its delta (a missing jar counts as 0). |
| FinanceContext.ReverseBalances | frontend/src/context/FinanceContext.js:143-146 | The per-delta loop yields the old balances, with each delta's jar set to `max(0, old - delta)`. |
| FinanceContext.Reduce | frontend/src/context/FinanceContext.js:92-186 | Defines `financeReducer` as a pure transition function of the state, the action, the fresh id and the timestamp. The `FinanceProperties` rows below state its properties. |
| FinanceContext.Loaded | frontend/src/context/FinanceContext.js:176-181 | Defines `{ ...initialState, ...payload }` field by field. `FinanceProperties.LoadStateBalances` and `FinanceProperties.LoadStateReplaces` state its properties. |
| FinanceContext.ToggleTheme | frontend/src/context/FinanceContext.js:248 | Defines the theme `toggleTheme` dispatches. `FinanceProperties.ToggleThemeFlips` states its properties. |
| FinanceContext.PlantStageOf | frontend/src/context/FinanceContext.js:256-261 | Defines `getPlantStage`. `FinanceProperties.PlantStageBands` states its bands. |
| FinanceContext.FinanceReducer | frontend/src/context/FinanceContext.js:92-186 | The loop-based reducer computes the same next state as the transition function `Reduce` for every action. |
| FinanceProperties.TotalOfSix | frontend/src/context/FinanceContext.js:253 | The total balance is the sum of the six jar balances, a missing jar counting as 0. |
| FinanceProperties.DistributionSplitsAmount | frontend/src/context/FinanceContext.js:99-102 | The distribution of an income has all six jars, gives each jar `monto * weight`, and its deltas sum to exactly `monto`. |
| FinanceProperties.DistributionPositive | frontend/src/context/FinanceContext.js:99-102 | A positive income gives every jar a positive share. |
| FinanceProperties.AddIncomeBalances | frontend/src/context/FinanceContext.js:114-117 | After ADD_INCOME all six balances are present, and each equals the old balance (or 0) plus that jar's share. |
| FinanceProperties.AddIncomeRaisesTotal | frontend/src/context/FinanceContext.js:114-117 | ADD_INCOME raises the total balance by exactly the amount. |
| FinanceProperties.AddIncomeHistories | frontend/src/context/FinanceContext.js:105-133 | ADD_INCOME prepends exactly one record with the given id, timestamp, amount, description and distribution, and keeps the rest of the history in order. It appends exactly one LF point holding the new LF balance, keeps the earlier points and does not touch the theme. |
| FinanceProperties.DeleteUnknownIsNoOp | frontend/src/context/FinanceContext.js:138-140 | Deleting an id that no record carries returns the state unchanged. |
| FinanceProperties.DeleteReverses | frontend/src/context/FinanceContext.js:143-166 | Deleting a present id reverses the first matching record's distribution with a floor at zero and leaves the other jars alone. It removes every record with that id, keeps the theme, and appends exactly one LF point holding the post-reversal LF balance. |
| FinanceProperties.DeleteKeepsNonNegative | frontend/src/context/FinanceContext.js:143-146 | From non-negative balances, DELETE_TRANSACTION leaves every balance non-negative. |
| FinanceProperties.ReverseTotal | frontend/src/context/FinanceContext.js:143-146 | The floored subtraction lowers the total by at most the sum of the deltas, and by exactly that when each jar covers its delta. |
| FinanceProperties.DeleteLowersTotal | frontend/src/context/FinanceContext.js:143-146 | Deleting a record lowers the total balance by at most the record's deltas, and by exactly them when every jar still covers its delta. |
| FinanceProperties.CreditThenReverse | frontend/src/context/FinanceContext.js:114-146 | From non-negative balances, crediting and then reversing the same deltas gives every jar its old balance back. |
| FinanceProperties.AddThenDeleteUndoes | frontend/src/context/FinanceContext.js:114-159 | From non-negative balances, ADD_INCOME followed by deleting its id restores every jar balance, and the whole map when it was complete. It restores the history when the id was fresh, keeps the theme, and leaves the LF history longer by two points with the old points as its prefix. |
| FinanceProperties.DeleteAfterAdd | frontend/src/context/FinanceContext.js:94-167 | Deleting the id of the income just added gives the credited-then-reversed balances and the old history filtered by that id. The LF history gains the income's point and the delete's point, and the theme is kept. |
| FinanceProperties.SetThemeOnlyTheme | frontend/src/context/FinanceContext.js:169-174 | SET_THEME sets the theme and changes nothing else. |
| FinanceProperties.ToggleThemeFlips | frontend/src/context/FinanceContext.js:245-250 | The toggle always yields 'light' or 'dark', never the current theme, and yields 'dark' exactly after 'light'. Applied twice, it returns 'light' and 'dark' to themselves. |
| FinanceProperties.LoadStateReplaces | frontend/src/context/FinanceContext.js:176-181 | LOAD_STATE does not depend on the current state. An empty payload gives the initial state, and a payload carrying every field of a state reproduces that state. |
| FinanceProperties.LoadStateBalances | frontend/src/context/FinanceContext.js:176-181 | After LOAD_STATE each field is the payload's value when present and `initialState`'s otherwise. A present `saldos` map is taken whole, even with keys missing. An absent one gives six zero balances, and an absent history gives the empty list. An absent theme gives 'light'. |
| FinanceProperties.InitialTotalIsZero | frontend/src/context/FinanceContext.js:9-25 | The initial balances total 0. |
| FinanceProperties.UnrecognizedIsNoOp | frontend/src/context/FinanceContext.js:183-184 | An action of any other type returns the state unchanged. |
| FinanceProperties.PlantStageBands | frontend/src/context/FinanceContext.js:256-261 | The stage is seed iff LF ≤ 100, sprout iff 100 < LF ≤ 1000, and tree iff LF > 1000; a missing LF gives tree. |
| FinanceProperties.SumOverNonNegative | frontend/src/context/FinanceContext.js:253 | Non-negative balances have a non-negative total. |
| FinanceProperties.ThousandSplit | frontend/src/context/FinanceContext.js:99-102 | An income of 1000 splits into 550 for NEC, 100 each for LF, ALP, EDU and PLAY, and 50 for DAR. |
| FinanceProperties.CreditFromZero | frontend/src/context/FinanceContext.js:114-117 | Crediting a complete delta map to the zero initial balances yields the deltas themselves. |
| FinanceProperties.FirstSalaryBalances | frontend/src/context/FinanceContext.js:94-134 | A first income of 1000 on the initial state yields balances 550, 100, 100, 100, 100 and 50. |
| FinanceProperties.FirstSalaryScenario | frontend/src/context/FinanceContext.js:253-261 | A first income of 1000 yields a total of 1000, LF 100 and the seed stage. |
| FinanceProperties.RemoveKeepsUniqueIds | frontend/src/context/FinanceContext.js:149 | Filtering a history with distinct ids keeps the ids distinct. |
| FinanceProperties.InitialConsistent | frontend/src/context/FinanceContext.js:9-25 | The initial state satisfies the ledger invariant. The invariant requires non-negative balances, distinct ids, and records with a positive amount and six deltas summing to it. |
| FinanceProperties.ReducePreservesConsistency | frontend/src/context/FinanceContext.js:92-186 | Every admissible action keeps the ledger invariant. Admissible means a positive income under a fresh id, a consistent load, or any delete, theme or unknown action. |
| AmountInput.PatternTestIsLanguage | frontend/src/components/AddIncomeForm.jsx:68 | The regular expression's recognizer accepts a text exactly when it is digits, or digits then one '.' followed by at most two digits. |
| AmountInput.PatternTest | frontend/src/components/AddIncomeForm.jsx:68 | Defines the left-to-right recognizer of `/^\d*\.?\d{0,2}$/`. `AmountInput.PatternTestIsLanguage` proves it equal to the declarative language. |
| AmountInput.Accepts | frontend/src/components/AddIncomeForm.jsx:68 | Defines the guard `value === '' \|\| regex` of `handleMontoChange`. `AmountInput.AcceptsIsPattern` proves the first alternative redundant. |
| AmountInput.AcceptsIsPattern | frontend/src/components/AddIncomeForm.jsx:68 | The box's test `value === '' \|\| regex` is equivalent to the regex alone and to the declarative language. |
| AmountInput.OnChange | frontend/src/components/AddIncomeForm.jsx:65-72 | The same `handleMontoChange` appears in frontend/src/components/WithdrawForm.jsx:66-71 and frontend/src/components/DirectIncomeForm.jsx:52-57. An accepted value replaces the text and any other value is dropped, so the box only ever holds accepted text. |
| AmountInput.Split | frontend/src/components/AddIncomeForm.jsx:28 | Accepted text splits into integer digits and at most two fraction digits that rebuild it. With no '.', the whole text is the integer part. |
| AmountInput.ParseAmount | frontend/src/components/AddIncomeForm.jsx:28 | The amount `parseFloat(monto) \|\| 0` reads from accepted text is never negative. |
| AmountInput.ParseAmountIsCents | frontend/src/components/AddIncomeForm.jsx:28 | The amount read is the text's whole number of cents divided by 100. |
| AmountInput.ParseAmountPositive | frontend/src/components/AddIncomeForm.jsx:28 | The amount read is positive iff the text holds a nonzero digit. |
| AmountInput.ParseDigits | frontend/src/components/AddIncomeForm.jsx:28 | A text of digits only, such as "1000", is accepted and reads as the integer it writes. |
| AmountInput.ParseWholeExamples | frontend/src/components/AddIncomeForm.jsx:28 | Sample readings: '' and '.' give 0, '007' gives 7 and '5.' gives 5. |
| AmountInput.ParseFractionExamples | frontend/src/components/AddIncomeForm.jsx:28 | Sample readings: '.05' gives 0.05 and '12.5' gives 12.5. |
| AmountInput.NatDigits | frontend/src/components/WithdrawForm.jsx:74 | The decimal digits written for a whole number read back as that number. |
| AmountInput.RenderCentsRoundTrip | frontend/src/components/WithdrawForm.jsx:74 | A number of cents written with two decimals is accepted by the box and reads back as the same amount. |
| AmountInput.RoundCents | frontend/src/components/WithdrawForm.jsx:74 | `toFixed(2)` picks the number of cents nearest to the amount, the larger one on a tie. |
| AmountInput.ToFixed2ReadsBack | frontend/src/components/WithdrawForm.jsx:74 | `toFixed(2)` of a non-negative amount is accepted and reads back within half a cent of it. |
| AmountInput.ToFixed2 | frontend/src/components/WithdrawForm.jsx:74 | Defines `toFixed(2)` on non-negative exact amounts as the nearest number of cents written with two decimals. `AmountInput.ToFixed2ReadsBack` states its properties. |
| AmountInput.DescriptionOr | frontend/src/components/AddIncomeForm.jsx:51 | An empty description gives way to the default, any other is kept, and the result is non-empty when either one is. |
| AmountInput.IncomeSubmitDisabled | frontend/src/components/AddIncomeForm.jsx:188 | The income dialogs' submit button is disabled exactly when the text has no nonzero digit (the amount reads as 0) or a submit is in progress. The same expression is frontend/src/components/DirectIncomeForm.jsx:123. |
| AddIncomeForm.OnMontoChange | frontend/src/components/AddIncomeForm.jsx:65-72 | An accepted value is stored, and the preview is shown iff the value holds a nonzero digit. Any other value leaves both fields as they were. |
| AddIncomeForm.Preview | frontend/src/components/AddIncomeForm.jsx:31-36 | Defines the preview rows, one per jar in `JAR_PERCENTAGES` order, and has exactly six of them. `AddIncomeForm.PreviewMatchesDistribution` and `AddIncomeForm.PreviewTotal` state the rest. |
| AddIncomeForm.PreviewMatchesDistribution | frontend/src/components/AddIncomeForm.jsx:31-36 | The preview lists the six jars in order, each with its `JAR_INFO` name, the amount ADD_INCOME would credit and a label of 100 times the weight, which is the jar's displayed percentage. |
| AddIncomeForm.PreviewTotal | frontend/src/components/AddIncomeForm.jsx:31-36 | The preview amounts add up to the typed amount. |
| AddIncomeForm.Submit | frontend/src/components/AddIncomeForm.jsx:41-51 | A submit is rejected as non-positive exactly when the amount read is ≤ 0. Otherwise it dispatches ADD_INCOME with a positive amount. |
| AddIncomeForm.SubmitDispatchesIncome | frontend/src/components/AddIncomeForm.jsx:41-51 | A submit dispatches exactly when the text has a nonzero digit, which is exactly when the idle button is enabled. The income carries the amount read, and the typed description or 'Ingreso', at most 50 characters. |
| AddIncomeForm.SubmittedIncomeKeepsLedger | frontend/src/components/AddIncomeForm.jsx:51 | An income submitted through the form under a fresh id keeps the ledger invariant and raises the total by exactly the amount typed. |
| WithdrawForm.SaldoActual | frontend/src/components/WithdrawForm.jsx:28 | Defines `saldoActual` as the jar's balance, a missing key read as 0. |
| WithdrawForm.ExcedeSaldo | frontend/src/components/WithdrawForm.jsx:29 | Defines `excedeSaldo`: the amount read exceeds `saldoActual`. |
| WithdrawForm.RetirarTodoDisabled | frontend/src/components/WithdrawForm.jsx:116 | Defines the shortcut button's `disabled` as `saldoActual <= 0`. |
| WithdrawForm.DefaultDescription | frontend/src/components/WithdrawForm.jsx:49 | The default description `Retiro - <jar name>` is never empty. |
| WithdrawForm.Submit | frontend/src/components/WithdrawForm.jsx:27-49 | A submit is rejected as non-positive iff the amount is ≤ 0, and rejected for insufficient balance iff it is positive and above the jar's balance (a missing jar counting as 0). Any call asks for `0 < monto <= saldoActual` from the chosen jar. |
| WithdrawForm.SubmitDisabled | frontend/src/components/WithdrawForm.jsx:168 | The submit button is disabled exactly when the text has no nonzero digit, the amount exceeds the jar's balance (a missing jar counting as 0), or a submit is in progress. |
| WithdrawForm.SubmitWithinBalance | frontend/src/components/WithdrawForm.jsx:27-49 | A withdrawal goes through exactly when the idle button is enabled, and exactly when the text has a nonzero digit and the amount is within the balance. The call carries the amount read and the typed or default description, at most 50 characters. |
| WithdrawForm.Finish | frontend/src/components/WithdrawForm.jsx:51-63 | After the provider answers, the button is released. On success the amount and description are cleared and the dialog closes. On failure the fields stay as they were. |
| WithdrawForm.FinishThenResubmit | frontend/src/components/WithdrawForm.jsx:51-63 | After a failure, submitting again on the same balances issues the same request. After a success, the cleared box is rejected as non-positive. |
| WithdrawForm.RetirarTodo | frontend/src/components/WithdrawForm.jsx:73-75 | With a positive balance, the shortcut fills the box with accepted text within half a cent of the balance and changes no other field. |
| WithdrawForm.RetirarTodoCanExceed | frontend/src/components/WithdrawForm.jsx:73-75 | With 5.5165 in NEC the shortcut writes "5.52", which exceeds the balance, so the button is disabled and a submit is rejected for insufficient balance. |
| WithdrawForm.FloorCents | frontend/src/components/WithdrawForm.jsx:74 | The whole number of cents an amount covers, rounded down. |
| WithdrawForm.RetirarTodoFloor | frontend/src/components/WithdrawForm.jsx:73-75 | The corrected shortcut fills the box with accepted text that never exceeds the balance and is less than a cent below it. |
| WithdrawForm.RetirarTodoFloorSubmits | frontend/src/components/WithdrawForm.jsx:73-75 | With the corrected shortcut, a balance of at least one cent leaves the button enabled, and the withdrawal takes all but less than a cent. |
| DirectIncomeForm.DefaultDescription | frontend/src/components/DirectIncomeForm.jsx:40 | The default description `Ingreso extra - <jar name>` is never empty. |
| DirectIncomeForm.Submit | frontend/src/components/DirectIncomeForm.jsx:32-40 | A submit is rejected as non-positive exactly when the amount is ≤ 0. Otherwise it calls `addDirectIncome` with a positive amount for the chosen jar. |
| DirectIncomeForm.SubmitCallsProvider | frontend/src/components/DirectIncomeForm.jsx:32-40 | A submit calls the provider exactly when the text has a nonzero digit, which is exactly when the idle button is enabled. The call carries the amount read, the jar, and the typed description or the default, at most 50 characters. |

## Findings

| source | as written | input that shows it | evidently intended | confidence | as-written member | corrected member |
|---|---|---|---|---|---|---|
| frontend/src/components/WithdrawForm.jsx:73-75 | "Retirar todo" writes `saldoActual.toFixed(2)`, which rounds to the nearest cent and can round above the balance. | An income of 10.03 leaves 5.5165 in NEC; the box receives "5.52" > 5.5165, so `excedeSaldo` holds and the submit button is disabled. | Fill the box with an amount the form lets the user withdraw, e.g. the balance rounded down to whole cents. | medium, not executed | WithdrawForm.RetirarTodoCanExceed (about WithdrawForm.RetirarTodo) | WithdrawForm.RetirarTodoFloor, WithdrawForm.RetirarTodoFloorSubmits |

## Left out

- `addDirectIncome`, `withdrawFromJar`, `exportBackup` and `importBackup` are not part of this model. The forms take them from `useFinance()`, but frontend/src/context/FinanceContext.js defines none of them and `financeReducer` (lines 92-186) has no action for them. Only the form-side guards and the arguments the forms pass are modelled.
- Loading and saving the state through `localStorage` and `JSON.parse`/`JSON.stringify` is browser I/O. LOAD_STATE takes an already-parsed payload whose four top-level fields are each optional.
- A payload carrying other top-level keys, or values of other types, is not modelled: the payload's fields are typed.
- `Object.values(saldos)` would also sum keys other than the six jars. Balances here are keyed by the six jars only.
- A record whose `distribution` is missing would make the JavaScript throw. Records here always carry a map.
- `generateId` and `new Date()` are parameters of `Reduce` and `FinanceReducer`. Freshness of the id is an assumption where a lemma needs it.
- The theme's DOM effect, the context and hook plumbing, the dialogs' open/close wiring, the `async`/`setTimeout` delays and the toasts are not modelled.
- The reset of the two income dialogs after submitting is left out. It clears the fields unconditionally and has no branch.
- Dialog state other than the withdrawal form's fields and the income form's amount box (`AddIncomeForm.AmountBox`) is left out.
- Binary floating-point drift is not reproduced: money is an exact `real`. One visible effect is therefore not modelled (not executed): in IEEE doubles `0.55 * 100` is `55.00000000000001`, and frontend/src/components/AddIncomeForm.jsx:160 prints `item.percentage` unformatted, so the NEC preview label would read "55.00000000000001%" where `AddIncomeForm.PreviewMatchesDistribution` proves 55.
- AmountInput.ParseAmount: models `parseFloat(value) || 0` only on text the box accepts, because the box never holds anything else (AmountInput.OnChange). On other text `parseFloat` reads a longest numeric prefix, which is not modelled.
- AmountInput.RoundCents: models `toFixed(2)` on exact non-negative amounts. Exponent notation at 1e21 and above, and rounding of the binary double, are left out.
- `toLocaleString` currency formatting in the toasts and labels is left out.
- Description lengths count Dafny characters. `maxLength` counts UTF-16 code units, which can differ outside the Basic Multilingual Plane.
