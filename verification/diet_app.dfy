/** The guards of the `DietApp` handlers (`src/index.ts`) that decide whether
    an analysis runs at all. Parsing, the schema check, the DOM and the text
    written to the page are outside this model: a handler either shows an
    analysis result or raises an alert.
 */
module DietApp {
  import opened ArrayManipulator

  /** Why a handler raised an alert instead of showing a result. */
  datatype Alert =
    | LengthMismatch  // the number of calorie values differs from the day count
    | TooFewDays      // the day count is 0 or 1

  /** What a handler does with one request. */
  datatype Response<T> = Shown(value: T) | Alerted(alert: Alert)

  /** `analyzeCalories`: `validateInput` refuses a calorie list whose length
      differs from the day count, then a day count of 0 or 1 is refused, so
      the maximum product is only ever asked of at least two values. */
  function AnalyzeCalories(numDays: int, caloriesArray: seq<int>): (r: Response<int>)
    ensures r.Shown? <==> |caloriesArray| == numDays && numDays >= 2
    ensures r == Alerted(LengthMismatch) <==> |caloriesArray| != numDays
    ensures r == Alerted(TooFewDays) <==> |caloriesArray| == numDays && numDays < 2
    ensures r.Shown? ==>
      && (exists i :: 0 <= i < |caloriesArray| - 1 && r.value == AdjacentProduct(caloriesArray, i))
      && (forall i :: 0 <= i < |caloriesArray| - 1 ==> AdjacentProduct(caloriesArray, i) <= r.value)
  {
    if |caloriesArray| != numDays then Alerted(LengthMismatch)
    else if numDays == 1 || numDays == 0 then Alerted(TooFewDays)
    else Shown(MaxAdjacentProduct(caloriesArray))
  }

  /** `showIncreasingSequence`: the same guards, then the increasing-pair
      analysis of the validated values. */
  function ShowIncreasingSequence(numDays: int, caloriesArray: seq<int>): (r: Response<IncreasingSequence>)
    ensures r.Shown? <==> |caloriesArray| == numDays && numDays >= 2
    ensures r == Alerted(LengthMismatch) <==> |caloriesArray| != numDays
    ensures r == Alerted(TooFewDays) <==> |caloriesArray| == numDays && numDays < 2
    ensures r.Shown? ==> r.value == GetIncreasingSequence(caloriesArray) && r.value.dayCount >= 1
  {
    if |caloriesArray| != numDays then Alerted(LengthMismatch)
    else if numDays == 1 || numDays == 0 then Alerted(TooFewDays)
    else Shown(GetIncreasingSequence(caloriesArray))
  }
}
