# Array manipulation of daily calorie intake — Dafny model

This project models the analysis core of a small diet web page. The user enters a
number of days and one calorie value per day. The `ArrayManipulator` class then
answers two questions about that sequence:

- **maximum product of adjacent elements**: the largest `a[i] * a[i+1]` over all
  consecutive days;
- **increasing sequence**: for every strictly increasing pair of consecutive days,
  both calorie values and both 1-based day numbers are collected. Each list is then
  de-duplicated in first-occurrence order (`Array.from(new Set(...))`). A day count
  starts at 1 and grows by one per increasing pair.

The `DietApp` handlers only call the analyses after two checks pass. The number of
calorie values must equal the day count. A day count of 0 or 1 is refused.

Modules:

- `Sequences` (`sequences.dfy`): ordered-unique sequences. `Dedup` is the functional
  definition. `DedupInsertionOrder` is the set-insertion loop, proved equal to it.
- `ArrayManipulator` (`array_manipulator.dfy`): both analyses. Each is written as a
  functional specification plus a loop method proved equal to it.
- `DietApp` (`diet_app.dfy`): the handler guards, returning a `Response` that is
  either `Shown(result)` or `Alerted(reason)`.

Calorie values are mathematical integers (`seq<int>`). The class stores its array and
only reads it. Dafny sequences are values, so no analysis can change the array it is
given.

The loop in `getIncreasingSequence` runs to `i < length`. On the last step it compares
`a[n-1] < a[n]`, and `a[n]` is `undefined` in JavaScript. Any comparison with
`undefined` is false. `GetIncreasingSequenceScan` keeps that loop bound and models the
comparison as `LessThanNext`. Its contract proves the result equals
`GetIncreasingSequence`, which scans only the pairs `i < |a| - 1`.

The handlers' alert text says "Number of days should be more than 2". The guard only
refuses 0 and 1, so two days are accepted. The model follows the guard.

## Model

| member | source | states |
|---|---|---|
| ArrayManipulator.MaxAdjacentProduct | src/index.ts:85-94 | given at least two values, the result is the product of some adjacent pair `a[i]*a[i+1]` with `i` in `[0, n-2]`, and no adjacent product exceeds it |
| ArrayManipulator.GetMaxProductOfAdjacentElements | src/index.ts:85-94 | the running-maximum loop over `i < n-1`, seeded with the first pair's product, reads only `a[i]`, `a[i+1]` inside the array and returns the largest adjacent product |
| ArrayManipulator.GetMaxProductAsWritten | src/index.ts:88-93 | with `maxProduct` declared, the loop with `Math.max` of one argument returns the product of the last adjacent pair |
| ArrayManipulator.AsWrittenMissesMaximum | src/index.ts:90 | there is an input (`[5,2,8,1]`) on which the last pair's product is below the largest adjacent product |
| Sequences.Dedup | src/index.ts:107-111 | `Array.from(new Set(xs))` keeps exactly the values of `xs`, each once, ordered by where each first occurs in `xs` |
| Sequences.DedupInsertionOrder | src/index.ts:107-111 | inserting values one by one and skipping those already in the set yields the first-occurrence de-duplication |
| Sequences.DedupOfNonDecreasingAscends | src/index.ts:103-111 | de-duplicating a non-decreasing list yields a strictly ascending list |
| ArrayManipulator.PushedDays | src/index.ts:100-103 | the day numbers pushed before de-duplication all lie in `[1, n]` and never decrease, because pairs are pushed in increasing position |
| ArrayManipulator.IncreasingCount | src/index.ts:99-105 | the number of `dayCount++` steps equals the number of positions `i < n-1` with `a[i] < a[i+1]` |
| ArrayManipulator.PushedValuesMembers | src/index.ts:100-102 | a value is pushed onto the sequence list exactly when it is one of the two values of some strictly increasing adjacent pair |
| ArrayManipulator.PushedDaysMembers | src/index.ts:100-103 | a day number is pushed exactly when it is `i+1` or `i+2` for some strictly increasing pair at `i` |
| ArrayManipulator.GetIncreasingSequence | src/index.ts:96-114 | `sequence` holds exactly the values of increasing pairs, each once, in the order they were first pushed; `indices` holds exactly their 1-based days, each once, within `[1, n]` and strictly ascending; `dayCount` is 1 plus the number of increasing pairs, so at least 1 |
| ArrayManipulator.NoIncreaseIffEmpty | src/index.ts:97-105 | both lists are empty and `dayCount` is 1 exactly when no adjacent pair strictly increases, which includes arrays shorter than two |
| ArrayManipulator.GetIncreasingSequenceScan | src/index.ts:96-114 | the loop as written, up to `i < length` with a comparison against `undefined` that is always false, returns the same result as the scan over `i < n-1` |
| DietApp.AnalyzeCalories | src/index.ts:35-57 | after the length check of `validateInput` (lines 35-38), a result is shown exactly when the lengths match and the day count is at least 2, and it is then the largest adjacent product; a mismatch and a day count of 0 or 1 each raise their own alert |
| DietApp.ShowIncreasingSequence | src/index.ts:59-74 | the same guards as `AnalyzeCalories`, including the length check of `validateInput` at lines 35-38; when shown, the result is the increasing-pair analysis of the validated values, with a day count of at least 1 |

## Left out

- The Joi schema check (`src/index.ts:21-31`): it calls an external library whose behaviour is not visible here. The model takes the day count and the calorie list as already parsed.
- The `parseInt`/`split` conversion (`src/index.ts:17`, `src/index.ts:33`): the calorie values are given as `seq<int>`, not as text.
- The DOM lookups, `alert` dialogs, `innerText` formatting and event-listener wiring (`src/index.ts:3-14`, `src/index.ts:118-120`): page glue. An alert becomes `Alerted(reason)` and displayed text becomes `Shown(result)`.
- JavaScript number semantics: values are unbounded integers. Double rounding of large products is not modelled. The only `undefined` read, past the end in `getIncreasingSequence`, is modelled as a comparison that is always false.
- An `InsufficientDataError` result for fewer than two values: the source has no such error. The max-product analysis instead carries `requires |a| >= 2`. Its only caller, `analyzeCalories`, guarantees this before calling it. `getIncreasingSequence` has no such requirement and is modelled for every length.
- DietApp.AnalyzeCalories: shows the corrected maximum. The source as written does not: `maxProduct` is never declared, and the file is an ES module, so its code is strict. The assignment at `src/index.ts:90` therefore throws a ReferenceError on the first iteration, and nothing is shown. The model does not include that throw.
- Non-mutation of the stored array is not stated as a contract: sequences are immutable values in Dafny, so the property holds by construction.

## Findings

| source | as written | input that shows it | evidently intended | confidence | as-written member | corrected member |
|---|---|---|---|---|---|---|
| src/index.ts:90 | the accumulator `maxProduct` is never declared, and `Math.max(product)` gets one argument, so even with a declaration each iteration overwrites the accumulator with the current product | `[5, 2, 8, 1]` (day count 4): with `maxProduct` declared, the loop ends with 8, the last pair's product (undeclared, it throws) | 16, the largest adjacent product, as the method name says | high; not executed | ArrayManipulator.GetMaxProductAsWritten, ArrayManipulator.AsWrittenMissesMaximum | ArrayManipulator.MaxAdjacentProduct, ArrayManipulator.GetMaxProductOfAdjacentElements |
