# FinResp dashboard and session state, modelled in Dafny

FinResp is a personal-finance mobile client. Its only real logic lives in two Redux slices:

- **`dashboard`** (`src/store/slices/dashboardSlice.ts`). The `fetchDashboardData` thunk takes one user's
  transaction records (`registros`, newest first) and computes a summary:
  - the all-time balance;
  - the all-time expense total per category (`categoryExpenses`);
  - the income and expense totals and counts of the current month;
  - the three largest income and expense categories (`getTopCategories`);
  - the ten most recent records.

  The slice stores that summary together with a loading flag and an error message.
- **`auth`** (`src/store/slices/authSlice.ts`). It holds the signed-in user, a loading flag and an error
  message. Three plain reducers and the lifecycle actions of the signIn, signUp and signOut thunks change it.

The project has seven modules:

- `Optional` (`optional.dfy`): optional values, thunk outcomes, and JavaScript's `x || fallback` as the source uses it.
- `Dictionary` (`dictionary.dfy`): reading a dictionary of numbers with `m[k] || 0`, and the sum of its values.
- `Records` (`records.dfy`): the transaction record, its `tipo`, and the filters and sums the aggregation is built from.
- `CategoryRanking` (`category_ranking.dfy`): `getTopCategories`. Its loop builds an insertion-ordered
  dictionary in place. It is proved against a functional specification (tally, stable descending sort, first
  three labels), whose properties are proved as lemmas.
- `Aggregation` (`aggregation.dfy`): the body of `fetchDashboardData`.
  - Its two `forEach` loops are methods. Each loop's running values are tied to a function that replays the
    loop (`AllTime`, `ThisMonth`), which a lemma proves equal to the filtered totals and counts.
  - `ComputeDashboard` assembles the summary and is proved equal to `Summarize`.
  - `FetchDashboardData` adds the thunk's two failure paths.
- `DashboardSlice` (`dashboard_slice.dfy`) and `AuthSlice` (`auth_slice.dfy`): each slice has two forms.
  - A class whose fields the handler methods assign in place.
  - A pure reducer `Reduce` with its fold `Run`, used to state properties of action sequences.

  Each class's `Dispatch` method is proved to agree with `Reduce`.

Modelling choices that follow the code rather than the idealised description:

- **The month window.** The source computes `endOfMonth` as `new Date(y, m + 1, 0)`: midnight at the *start*
  of the month's last day, not the month's last instant. Both bounds are inclusive.
  - The window is a parameter (`Window(startOfMonth, endOfMonth)`) and is used exactly as given.
  - As a result, a record timestamped after 00:00 on the last day of the month is not monthly.
- **Kinds.** `tipo` is compared with `'Entrada'` for the totals: everything else is an expense. The top-expense
  ranking instead keeps exactly `'Saída'`.
  - To keep this difference, `Kind` has a third case, `Unrecognised(raw)`, for any other stored string.
  - `Records.RecognisedKindsAgree` shows the two filters coincide when every kind is one of the two declared
    values. `Records.UnrecognisedKindSplits` shows where they part.
- **Missing or empty categories.** An expense with no category is summed under `'Outros'` in
  `categoryExpenses`. The ranking skips every record whose category is empty or missing.
- **Missing amounts.** A missing amount (`valor || 0`) counts as 0. Amounts are integers, for example cents.
- **Ranking order and ties.** `Object.entries` lists keys in insertion order, and `Array.prototype.sort` is
  stable.
  - The ranking is therefore a stable descending sort of the categories in the order they first occur.
  - The lemmas do not constrain the order of ties, which the source leaves unspecified.
- **Failure paths.** The thunk's failures are modelled as error results, not preconditions:
  - no signed-in user gives `'User not authenticated'`;
  - a failed query gives the query's message.

  A rejection with an empty or missing message stores the slice's default text.

## Model

| member | source | states |
|---|---|---|
| Records.FilterMembers | src/store/slices/dashboardSlice.ts:89-92 | a record is kept by a filter exactly when it occurs in the list and satisfies the predicate |
| Records.KindsPartition | src/store/slices/dashboardSlice.ts:60-68 | every record is counted either as an income or as an expense: counts and amounts split exactly |
| Records.IncomeMinusExpensesIsNet | src/store/slices/dashboardSlice.ts:56-69 | income total minus expense total equals the record-by-record signed sum (incomes added, every other kind subtracted, missing amount 0) |
| Records.RecognisedKindsAgree | src/store/slices/dashboardSlice.ts:61-92 | when every `tipo` is 'Entrada' or 'Saída', the expense records of the totals are exactly the 'Saída' records of the ranking |
| Records.UnrecognisedKindSplits | src/store/slices/dashboardSlice.ts:61-92 | a record of any other `tipo` counts as an expense but is not an outflow for the ranking |
| CategoryRanking.GetTopCategories | src/store/slices/dashboardSlice.ts:109-124 | the loop's result equals the specification; at most 3 distinct non-empty labels, each occurring in the input, ordered by non-increasing category total; any occurring category left out totals no more than each returned one, and exists only when 3 were returned |
| CategoryRanking.TallyOfSound | src/store/slices/dashboardSlice.ts:110-118 | the dictionary lists each key once, its keys are exactly the non-empty categories that occur, and each holds the total of its category |
| CategoryRanking.TallyOfKeys | src/store/slices/dashboardSlice.ts:110-118 | the dictionary's key order lists each key once and holds exactly its keys, which are the non-empty categories that occur in the input |
| CategoryRanking.TallyOfTotals | src/store/slices/dashboardSlice.ts:113-117 | under each non-empty category the dictionary holds the summed amount of the records carrying exactly that category |
| CategoryRanking.SortDescFacts | src/store/slices/dashboardSlice.ts:120-121 | the sort returns a permutation of the entries in non-increasing order of totals, keeping labels distinct |
| CategoryRanking.RankedSound | src/store/slices/dashboardSlice.ts:110-121 | the sorted entries are in non-increasing order with distinct labels, each a non-empty category that occurs in the input, carrying that category's total |
| CategoryRanking.RankedComplete | src/store/slices/dashboardSlice.ts:110-121 | every non-empty category that occurs in the input has an entry among the sorted entries |
| CategoryRanking.TopCategoriesWellFormed | src/store/slices/dashboardSlice.ts:113-123 | at most 3 distinct labels, none empty, each a category that occurs in the input |
| CategoryRanking.TopCategoriesOrdered | src/store/slices/dashboardSlice.ts:120-123 | labels come in non-increasing order of their category totals |
| CategoryRanking.TopCategoriesMaximal | src/store/slices/dashboardSlice.ts:120-123 | an occurring category that is not returned totals no more than each returned one, and 3 labels were returned |
| Aggregation.AllTimeIsTotals | src/store/slices/dashboardSlice.ts:56-69 | the values the all-time loop carries after any prefix are the income total, the expense total and the per-category expense map of that prefix |
| Aggregation.AllTimeTotals | src/store/slices/dashboardSlice.ts:56-69 | the all-time loop yields the income total, the expense total and the per-category expense map of the whole list |
| Aggregation.ThisMonthIsTotals | src/store/slices/dashboardSlice.ts:72-85 | the values the monthly loop carries after any prefix are the total and the number of records of each kind in that prefix |
| Aggregation.MonthlyTotals | src/store/slices/dashboardSlice.ts:72-85 | the monthly loop yields the total and the count of each kind among the windowed records |
| Aggregation.ComputeDashboard | src/store/slices/dashboardSlice.ts:49-105 | the summary equals `Summarize` of the records and the window; `recentTransactions` is the prefix of length min(10, n) |
| Aggregation.FetchDashboardData | src/store/slices/dashboardSlice.ts:31-47 | no signed-in user fails with 'User not authenticated'; a failed query fails with its message; otherwise the result is the summary of the fetched rows |
| Aggregation.MonthlyMembers | src/store/slices/dashboardSlice.ts:50-53 | a record is monthly exactly when it is in the list and `startOfMonth <= created_at <= endOfMonth` |
| Aggregation.BalanceIsNet | src/store/slices/dashboardSlice.ts:96 | `totalBalance` is the signed sum of all records, whatever their timestamps |
| Aggregation.CategoryExpensesSum | src/store/slices/dashboardSlice.ts:58-67 | the values of `categoryExpenses` add up to the all-time expense total |
| Aggregation.CategoryExpensesPerKey | src/store/slices/dashboardSlice.ts:64-67 | a key is present exactly when some expense is filed under it (its category, or 'Outros' when empty or missing), and holds the total of those expenses |
| Aggregation.MonthlyCountsPartition | src/store/slices/dashboardSlice.ts:72-85 | the two monthly counts add up to the number of windowed records, and the two monthly totals to their total |
| Aggregation.RecordEffectAllTime | src/store/slices/dashboardSlice.ts:56-69 | inserting a record anywhere moves the balance by its signed amount and the sum of `categoryExpenses` by its amount if it is an expense, even outside the window |
| Aggregation.RecordEffectMonthly | src/store/slices/dashboardSlice.ts:50-85 | inserting a record changes the monthly totals and counts iff its timestamp lies in the window (both ends inclusive), and then only those of its own kind |
| Aggregation.UncategorisedExpense | src/store/slices/dashboardSlice.ts:60-118 | an expense with empty or missing category adds its amount under 'Outros' but leaves both top-category lists unchanged |
| Aggregation.ExampleTotals | src/store/slices/dashboardSlice.ts:95-102 | on a three-record example: balance 500, monthly income 1000 and expenses 300, one record of each kind this month, all three recent |
| Aggregation.ExampleCategories | src/store/slices/dashboardSlice.ts:100-104 | on the same example: `categoryExpenses` is {Food: 500}, the top expense list is ["Food"], and the uncategorised income is not ranked |
| DashboardSlice.DashboardStore.constructor | src/store/slices/dashboardSlice.ts:23-27 | the slice starts with no data, not loading, no error |
| DashboardSlice.DashboardStore.Pending | src/store/slices/dashboardSlice.ts:132-135 | sets loading, clears the error, keeps the data |
| DashboardSlice.DashboardStore.Fulfilled | src/store/slices/dashboardSlice.ts:136-140 | stores the payload, clears loading and the error |
| DashboardSlice.DashboardStore.Rejected | src/store/slices/dashboardSlice.ts:141-144 | clears loading, keeps the data, stores the message or 'Erro ao carregar dados' when it is empty or missing |
| DashboardSlice.DashboardStore.Refresh | src/store/slices/dashboardSlice.ts:29-144 | a full refresh ends not loading; without a user it keeps the data with 'User not authenticated'; a failed query keeps the data with its message or the default; success stores the summary and clears the error |
| DashboardSlice.DashboardStore.Dispatch | src/store/slices/dashboardSlice.ts:130-145 | each action's handler changes the state exactly as the reducer does |
| DashboardSlice.DataIsLatestPayload | src/store/slices/dashboardSlice.ts:132-144 | after any action sequence, `data` is the payload of the latest fulfilled action, or the initial data if none |
| DashboardSlice.ErrorAlwaysReadable | src/store/slices/dashboardSlice.ts:141-144 | no action sequence stores an empty error message |
| AuthSlice.AuthStore.constructor | src/store/slices/authSlice.ts:11-15 | the slice starts with no user, not loading, no error |
| AuthSlice.AuthStore.SetUser | src/store/slices/authSlice.ts:72-76 | stores the user, clears loading and the error |
| AuthSlice.AuthStore.ClearUser | src/store/slices/authSlice.ts:77-81 | returns to the initial state |
| AuthSlice.AuthStore.SetLoading | src/store/slices/authSlice.ts:82-84 | changes only the loading flag |
| AuthSlice.AuthStore.SignInPending | src/store/slices/authSlice.ts:88-91 | sets loading, clears the error, keeps the user |
| AuthSlice.AuthStore.SignInFulfilled | src/store/slices/authSlice.ts:92-96 | stores the payload user, clears loading and the error |
| AuthSlice.AuthStore.SignInRejected | src/store/slices/authSlice.ts:97-100 | keeps the user, clears loading, stores the message or 'Erro ao fazer login' |
| AuthSlice.AuthStore.SignUpPending | src/store/slices/authSlice.ts:101-104 | sets loading, clears the error, keeps the user |
| AuthSlice.AuthStore.SignUpFulfilled | src/store/slices/authSlice.ts:105-109 | stores the payload user (possibly null), clears loading and the error |
| AuthSlice.AuthStore.SignUpRejected | src/store/slices/authSlice.ts:110-113 | keeps the user, clears loading, stores the message or 'Erro ao criar conta' |
| AuthSlice.AuthStore.SignOutFulfilled | src/store/slices/authSlice.ts:114-118 | returns to the initial state |
| AuthSlice.AuthStore.Dispatch | src/store/slices/authSlice.ts:68-120 | each action changes the state exactly as the reducer does; signOut pending and rejected, which have no handler, change nothing |
| AuthSlice.ErrorAlwaysReadable | src/store/slices/authSlice.ts:97-113 | no action sequence stores an empty error message |
| AuthSlice.UserKeptWithoutAssignment | src/store/slices/authSlice.ts:68-120 | only setUser, clearUser and the fulfilled actions change the user; any other sequence keeps it |
| AuthSlice.SignOutResets | src/store/slices/authSlice.ts:114-118 | a completed signOut or a clearUser returns any reachable state to the initial one |
| AuthSlice.FailedAttemptKeepsUser | src/store/slices/authSlice.ts:88-113 | a pending then rejected signIn or signUp keeps the user and ends not loading, with the message or the default |

## Left out

- The Supabase calls are not modelled. The `registros` query, the sign-in, sign-up and sign-out requests, and
  the `usuarios` profile insert are network I/O to a library that is not part of this model. The query's rows
  or its error are an input to `FetchDashboardData`. The signIn and signUp results are the payloads of their
  fulfilled and rejected actions.
- The query's filter by `user_id` and its newest-first order are assumed of the input. Nothing checks `userId`.
- The clock and the date arithmetic are not modelled: `new Date()`, local time zone, month rollover. The
  window bounds are parameters.
- Parsing `created_at` is not modelled. Timestamps are integers, so an unparseable date (an Invalid Date,
  which never falls in the window) cannot be expressed.
- Amounts are integers, not JavaScript floating-point numbers, so NaN and rounding are not modelled.
- The `Object.entries` key order is modelled as insertion order. Integer-like keys, which JavaScript lists
  first in ascending order, and a `__proto__` key are not modelled.
- Dictionary.Lookup, Aggregation.CategoryExpenses and CategoryRanking.TallyOf: a category named after a
  property inherited from `Object.prototype` is not modelled; `toString`, `constructor`, `valueOf` and
  `hasOwnProperty` are examples. Both dictionaries are `{}` literals, so in the source `m[k] || 0` reads
  the inherited function for such a key, `+` joins it into a string, and the sort comparator gets NaN.
  The model reads every absent key as 0. `CategoryExpensesSum`, `CategoryExpensesPerKey`,
  `TallyOfTotals` and the ranking lemmas therefore hold only for categories that name no inherited
  property.
- CategoryRanking.TopCategoriesOrdered: says nothing about the order of categories with equal totals. The
  model keeps first-occurrence order there, but the source does not promise any order.
- The rest of the `createAsyncThunk` machinery is not modelled: request ids, `meta`, and how a thrown error is
  serialized. The rejected action carries the message as an optional string.
- Overlapping refreshes are not modelled. Nothing in the source fences them, and ordering them is up to the UI.
- `src/utils/currency.ts` (number formatting), the screens, components, navigators, theme and `App.tsx` are
  presentation and are not part of this model.
- The redux-persist wiring in `src/store/index.ts` is not part of this model.
