/**
 * The total-amount field of the create-request card: the input handler
 * stores only the raw digits, and the field displays them grouped by
 * thousands.
 */
module CreateRequestCard {
  import opened Text
  import opened NumberFormat

  /** `handleTotalChange(value)`: the raw value it passes to `setTotal`. */
  function HandleTotalChange(value: string): (stored: string)
    ensures AllDigits(stored)
    ensures Digits(stored) == Digits(value)
  {
    DigitsIdempotent(value);
    Digits(value)
  }

  /** `displayTotal`: nothing for an empty total, else the total grouped by thousands. */
  function DisplayTotal(total: string): (shown: string)
    ensures total == [] ==> shown == []
    ensures Digits(shown) == Digits(total)
  {
    FormatKeepsDigits(total);
    if total == [] then [] else FormatNumber(total)
  }

  /** Whatever is typed, the field then shows the typed digits grouped by thousands. */
  lemma TypedThenShown(value: string)
    ensures DisplayTotal(HandleTotalChange(value)) == FormatNumber(value)
    ensures DisplayTotal(HandleTotalChange(value)) == DisplayTotal(HandleTotalChange(DisplayTotal(HandleTotalChange(value))))
  {
    var raw := HandleTotalChange(value);
    DigitsIdempotent(value);
    assert FormatNumber(raw) == FormatNumber(value);
    if raw == [] {
      assert FormatNumber(value) == Group([]) == [];
    }
    FormatKeepsDigits(value);
  }
}
