# Banker's algorithm safety check, in Dafny

This project models `banquero`, the safety check of the banker's algorithm
in `banker-algorithm.py`, and proves what it guarantees.

The check takes three inputs:

- a maximum-demand matrix `maximo`;
- an allocation matrix `asignado`;
- the pool of available resources `disponible`.

It computes the need matrix `maximo - asignado`. Then it makes passes over
the processes in ascending index order. An unfinished process whose need fits
the current pool is marked finished (`terminado`) and appended to the order
`orden`, and its label `"P" + str(i)` is appended to `secuencia`. Its
allocation goes back into the pool at once, so later processes in the same
pass see it. The passes stop when every process is finished, or after a pass
that finished nobody. The verdict is `len(orden) == n_procesos`.

The project has seven modules:

- `Vectors` holds resource vectors and matrices, elementwise `+` and `-`, and the test `all(pool >= need)`.
- `SafetySpec` is the check as a pure state machine. `Step` is one iteration of the `for` loop, and `PassTo`/`Pass` are the `for` loop. `Run` is the `while` loop with its `break`, and `Check` is the whole call.
- `Completion` holds the pool left by a sequence of finishing processes, valid orders, and safe sequences.
- `SafetyProperties` holds the theorems about `Check`: validity of the order, the final pool, the stall on an unsafe verdict, and greedy completeness.
- `Labels` holds the labels `"P" + str(i)` and decimal numerals.
- `BankerAlgorithm` is the imperative check, with the loops of `banker-algorithm.py`. `terminado` is a fresh `array<bool>`. The caller's `disponible` is an `array<int>` updated in place (`modifies available`), and holds the final working pool on return, as the numpy `+=` leaves it. `orden` and `secuencia` are sequences that the loops append to. Each method is proved equal to its counterpart in `SafetySpec` or `Vectors`.
- `Scenarios` holds the three configurations of the demonstration driver.

The matrices are only read by the source. They are passed as values
(`seq<seq<int>>`), so they are unchanged by construction. Integers are
unbounded.

## Model

| member | source | states |
|---|---|---|
| Vectors.Sub | banker-algorithm.py:26 | numpy's `-` on one row: same length, each entry the difference of the two entries |
| Vectors.Add | banker-algorithm.py:40 | numpy's `+` on the pool: same length, each entry the sum of the two entries |
| Vectors.Covers | banker-algorithm.py:38 | `np.all(disponible >= necesidad[i])`: every kind of the pool holds at least the need; with no resource kinds it holds, as `np.all` of nothing does |
| SafetySpec.NeedMatrix | banker-algorithm.py:26 | the need matrix has one row per process, and row `i` is `maximo[i] - asignado[i]` |
| SafetySpec.NeedNonNegativeIff | banker-algorithm.py:26 | every need entry is non-negative exactly when no allocation entry exceeds its maximum |
| SafetySpec.Start | banker-algorithm.py:25-28 | the state before the loops: `n` flags all false (so `n` processes unfinished), the pool as given, and an empty order |
| SafetySpec.UnfinishedZero | banker-algorithm.py:34 | no process is left unfinished exactly when the unfinished count is zero |
| SafetySpec.Step | banker-algorithm.py:38-44 | one iteration of the pass keeps the dimensions, appends at most one process, and keeps the count "finished + unfinished = n" |
| SafetySpec.PassTo | banker-algorithm.py:37-48 | the first `j` iterations of a pass append at most `j` processes and keep the count |
| SafetySpec.Pass | banker-algorithm.py:37-48 | one full `for` pass keeps the dimensions, appends at most `n` processes and keeps the count |
| SafetySpec.Run | banker-algorithm.py:34-57 | the outer loop terminates, because each repeated pass finishes someone; it never shortens the order and keeps the count |
| SafetySpec.Check | banker-algorithm.py:7-59 | the whole check yields one flag per process and a pool of the input's width, with the count kept |
| Completion.PoolAfterAt | banker-algorithm.py:40 | the pool left by a sequence is the initial pool plus the column sums of its processes' allocations |
| Completion.ColSumSubset | banker-algorithm.py:40 | with non-negative allocations, a duplicate-free subset of processes holds no more of a resource kind than the whole set |
| Completion.PoolAfterSubset | banker-algorithm.py:40 | with non-negative allocations, the pool left by a duplicate-free subset is elementwise below the pool left by the set |
| Completion.PoolAfterGrows | banker-algorithm.py:40 | with non-negative allocations, the pool never falls along a sequence: initial ≤ after any prefix ≤ after a longer prefix |
| SafetyProperties.StepRecorded | banker-algorithm.py:38-43 | an admission keeps the order distinct and in range, and keeps "finished exactly when in the order" |
| SafetyProperties.AppendReplayed | banker-algorithm.py:38-43 | appending a process whose need fits the current pool keeps the order valid and adds its allocation row to the pool |
| SafetyProperties.StepReplayed | banker-algorithm.py:38-43 | a step keeps the pool equal to what the order leaves behind and keeps the order valid |
| SafetyProperties.PassToRecorded | banker-algorithm.py:37-44 | a pass keeps the first half of the invariant |
| SafetyProperties.PassToReplayed | banker-algorithm.py:37-44 | a pass keeps the second half of the invariant |
| SafetyProperties.RunInv | banker-algorithm.py:34-57 | both halves of the invariant hold when the loops end |
| SafetyProperties.PassToStalled | banker-algorithm.py:37-42 | a pass that finished nobody changed nothing, and every process it looked at was finished or did not fit |
| SafetyProperties.RunStalls | banker-algorithm.py:50-57 | if the loops end with processes left, each one left does not fit the final pool |
| SafetyProperties.CheckInv | banker-algorithm.py:34-57 | both invariant halves hold of the final state of the check |
| SafetyProperties.OrderIsValid | banker-algorithm.py:37-44 | `orden` is duplicate-free and in `0..n-1`, so `orden` has at most `n` entries; a process is finished exactly when listed; each listed process's need fitted the initial pool plus the allocations of the processes before it |
| SafetyProperties.FinalPool | banker-algorithm.py:26-40 | the final pool is the initial pool plus the allocation rows of the finished processes; with non-negative allocations it never drops below the initial pool at any point of the order |
| SafetySpec.Safe | banker-algorithm.py:59 | the verdict `len(orden) == n_procesos` holds exactly when no process is left unfinished |
| SafetyProperties.SafeIffAllFinished | banker-algorithm.py:59 | the verdict is true exactly when every process is marked finished |
| SafetyProperties.UnsafeStall | banker-algorithm.py:50-57 | on an unsafe verdict, every process not in `orden` needs more of some resource kind than the final pool holds |
| SafetyProperties.StalledFinishesCompletion | banker-algorithm.py:19-22 | a stalled state reached by a valid order cannot leave unfinished a process of any safe sequence |
| SafetyProperties.GreedyComplete | banker-algorithm.py:19-22 | with non-negative allocations, if any permutation of the processes is a valid completion sequence, the verdict is true |
| SafetyProperties.SafeOrderIsCompletion | banker-algorithm.py:19-22 | for any allocations, a safe verdict comes with a safe sequence: `orden` lists every process once, each fitting the pool left by those before it |
| SafetyProperties.SafeIffCompletionExists | banker-algorithm.py:19-22 | with non-negative allocations, the verdict is true exactly when a safe sequence exists, and `orden` is then one |
| Labels.DecimalString | banker-algorithm.py:44 | `str(i)` is a non-empty string of digits, a single digit exactly for `i < 10`, and without a leading zero otherwise |
| Labels.ParseDecimalString | banker-algorithm.py:44 | reading the numeral back gives `i` |
| Labels.Label | banker-algorithm.py:44 | the label `'P' + str(i)` starts with `'P'` and has at least one character after it |
| Labels.LabelInjective | banker-algorithm.py:44 | two processes get the same label exactly when they are the same process |
| BankerAlgorithm.ComputeNeed | banker-algorithm.py:26 | the loops build exactly the need matrix `maximo - asignado` |
| BankerAlgorithm.Fits | banker-algorithm.py:38 | the result is `np.all(disponible >= necesidad[i])` |
| BankerAlgorithm.Release | banker-algorithm.py:40 | the pool becomes the old pool plus the row, in place |
| BankerAlgorithm.PassOver | banker-algorithm.py:35-48 | one `for` pass leaves flags, pool and order equal to `Pass` of the old state; `seguro` is true exactly when the order grew; each label is `"P" + str` of its entry |
| BankerAlgorithm.Passes | banker-algorithm.py:34-57 | the `while` loop, with its `break`, ends in the state `Run` gives from the start state; it makes at most `n_procesos` passes |
| BankerAlgorithm.SafetyCheck | banker-algorithm.py:25-57 | on a fresh `terminado`, the order and the pool left in `disponible` are those of `Check`; with non-negative allocations that pool is nowhere below the initial one; if some process is left over, none of those left fits it |
| BankerAlgorithm.Banker | banker-algorithm.py:7-68 | `(seguro, orden, secuencia)` with `disponible` left holding the final pool. It states: the result equals `Check`; `seguro` iff `orden` has all `n` processes; `n == 0` gives safe with an empty order; `secuencia[j] == "P" + str(orden[j])`; the order is distinct, in range and valid; on safe, `orden` is a safe sequence for any allocations; the final pool is the initial pool plus the finished allocations and, with non-negative allocations, not below the initial pool; on unsafe, every process left does not fit; with non-negative allocations, safe iff a safe sequence exists; at most `n` passes |
| Scenarios.NeedOfDemo | banker-algorithm.py:79-81 | the need matrix of the demonstration data |
| Scenarios.AmplePoolIsSafe | banker-algorithm.py:84-87 | with pool `[6,6,6,6,6]` the check is safe with order `[0,1,2,3,4,5,6]` and final pool `[12,11,12,11,11]` |
| Scenarios.TighterPoolIsSafe | banker-algorithm.py:90-92 | with pool `[6,5,5,5,5]` the check is safe with order `[1,2,3,4,5,6,0]` |
| Scenarios.ScarcePoolIsUnsafe | banker-algorithm.py:95-97 | with pool `[6,5,2,3,2]` the check is unsafe with order `[1,6]` |

## Left out

- All `print` output and the `verbose` flag (banker-algorithm.py:31-32, 45-48, 51-55, 61-66). This is console output only. The `" -> "` join of `secuencia` exists only inside a `print`.
- numpy. The matrix subtraction, the elementwise `>=` with `np.all`, and the in-place `+=` are written out as loops over sequences and an `array<int>`.
- Fixed-width integer overflow of numpy arrays. The model uses unbounded `int`.
- Input validation. The source does none. Matching dimensions are a `requires` (`Input`, and `available.Length == nResources`). Non-negative allocations are assumed only by the lemmas that need them: pool growth, greedy completeness, and the direction "a safe sequence exists, so the verdict is safe". A safe verdict yields a safe sequence for any allocations. `asignado <= maximo` is never needed.
- `n_recursos` is not used by the source, since numpy works from the array shapes. `Banker` takes it and requires it to equal the pool's length.
- BankerAlgorithm.Banker: the bound of at most `n_procesos` passes is stated about a ghost counter of passes, not about a value the source returns.
- The `__main__` driver (banker-algorithm.py:71-97) is used only as the data of `Scenarios`. Each scenario is stated about `Check`, and `Banker` is proved equal to `Check`.
