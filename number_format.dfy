/**
 * The thousands-separator helpers of the client: `formatNumber`
 * (`value.replace(/\D/g, '').replace(/\B(?=(\d{3})+(?!\d))/g, ',')`), the
 * digit-stripping `parseNumber` of the create-request card and the numeric
 * `parseNumber` of the admin dashboard.
 */
module NumberFormat {
  import opened Text

  /** `value.replace(/\D/g, '')`: the digit characters of `s`, in order. */
  function Digits(s: string): (r: string)
    ensures AllDigits(r) && |r| <= |s|
  {
    if s == [] then [] else (if IsDigit(s[0]) then [s[0]] else []) + Digits(s[1..])
  }

  lemma {:induction false} DigitsAppend(a: string, b: string)
    ensures Digits(a + b) == Digits(a) + Digits(b)
  {
    if a == [] {
      assert a + b == b;
    } else {
      assert (a + b)[1..] == a[1..] + b;
      DigitsAppend(a[1..], b);
    }
  }

  /** Stripping non-digits keeps a string of digits as it is. */
  lemma {:induction false} DigitsOfDigits(s: string)
    requires AllDigits(s)
    ensures Digits(s) == s
  {
    if s != [] {
      DigitsOfDigits(s[1..]);
    }
  }

  /** Stripping non-digits is idempotent. */
  lemma DigitsIdempotent(s: string)
    ensures Digits(Digits(s)) == Digits(s)
  {
    DigitsOfDigits(Digits(s));
  }

  /** The regular expression `\B(?=(\d{3})+(?!\d))` matches before position `p` of a digit string of length `len`. */
  predicate CommaBefore(len: int, p: int) {
    0 < p < len && (len - p) % 3 == 0
  }

  /**
   * The left-to-right reading of the regular-expression replacement on a
   * digit string `d`: each character from position `i` on, preceded by a
   * comma exactly where the pattern matches.
   */
  function CommaScan(d: string, i: nat): string
    requires i <= |d|
    decreases |d| - i
  {
    if i == |d| then [] else (if CommaBefore(|d|, i) then [','] else []) + [d[i]] + CommaScan(d, i + 1)
  }

  /** Grouping by threes from the right: the comma insertion `formatNumber` performs on digits. */
  function Group(d: string): (r: string)
    decreases |d|
  {
    if |d| <= 3 then d else Group(d[..|d| - 3]) + [','] + d[|d| - 3..]
  }

  /** `formatNumber(value)` */
  function FormatNumber(value: string): string {
    Group(Digits(value))
  }

  lemma {:induction false} ScanShort(d: string, i: nat)
    requires |d| <= 3 && i <= |d|
    ensures CommaScan(d, i) == d[i..]
    decreases |d| - i
  {
    if i < |d| {
      ScanShort(d, i + 1);
    }
  }

  /** Appending a group of three digits to a non-empty digit string adds a comma and that group. */
  lemma {:induction false} ScanAppendGroup(a: string, b: string, i: nat)
    requires |a| >= 1 && |b| == 3 && i <= |a|
    ensures CommaScan(a + b, i) == CommaScan(a, i) + [','] + b
    decreases |a| - i
  {
    var d := a + b;
    if i == |a| {
      assert CommaScan(d, i + 3) == [];
      assert CommaScan(d, i + 2) == [d[i + 2]];
      assert CommaScan(d, i + 1) == [d[i + 1], d[i + 2]];
      assert CommaBefore(|d|, i);
      assert CommaScan(d, i) == [',', d[i], d[i + 1], d[i + 2]];
      assert b == [d[i], d[i + 1], d[i + 2]];
    } else {
      ScanAppendGroup(a, b, i + 1);
      assert d[i] == a[i];
      assert CommaBefore(|d|, i) == CommaBefore(|a|, i);
    }
  }

  /**
   * Grouping by threes from the right puts a comma before position `p` of a
   * digit string exactly when `0 < p < |d|` and `(|d| - p) % 3 == 0`, as the
   * regular expression does.
   */
  lemma {:induction false} GroupIsScan(d: string)
    ensures Group(d) == CommaScan(d, 0)
    decreases |d|
  {
    if |d| <= 3 {
      ScanShort(d, 0);
    } else {
      var a, b := d[..|d| - 3], d[|d| - 3..];
      assert d == a + b;
      GroupIsScan(a);
      ScanAppendGroup(a, b, 0);
    }
  }

  /** The output consists of digits and commas only, with no comma at either end, and one comma per full group of three after the first. */
  lemma {:induction false} GroupShape(d: string)
    requires AllDigits(d)
    ensures forall k :: 0 <= k < |Group(d)| ==> IsDigit(Group(d)[k]) || Group(d)[k] == ','
    ensures |d| >= 1 ==> |Group(d)| == |d| + (|d| - 1) / 3
    ensures |d| >= 1 ==> IsDigit(Group(d)[0]) && IsDigit(Group(d)[|Group(d)| - 1])
    decreases |d|
  {
    if |d| > 3 {
      var a := d[..|d| - 3];
      GroupShape(a);
      var g := Group(d);
      assert g == Group(a) + [','] + d[|d| - 3..];
      forall k | 0 <= k < |g| ensures IsDigit(g[k]) || g[k] == ',' {
        if k > |Group(a)| {
          assert g[k] == d[|d| - 3 + (k - |Group(a)| - 1)];
        }
      }
    }
  }

  /** Removing the commas of a grouped digit string gives the digits back. */
  lemma {:induction false} DigitsOfGroup(d: string)
    requires AllDigits(d)
    ensures Digits(Group(d)) == d
    decreases |d|
  {
    if |d| <= 3 {
      DigitsOfDigits(d);
    } else {
      var a, b := d[..|d| - 3], d[|d| - 3..];
      DigitsOfGroup(a);
      DigitsAppend(Group(a) + [','], b);
      DigitsAppend(Group(a), [',']);
      DigitsOfDigits(b);
      assert Digits([',']) == [];
      assert a + b == d;
    }
  }

  /** Round trip: the digits of the formatted text are the digits of the input. */
  lemma FormatKeepsDigits(value: string)
    ensures Digits(FormatNumber(value)) == Digits(value)
  {
    DigitsOfGroup(Digits(value));
  }

  /** Formatting already formatted text changes nothing. */
  lemma FormatIdempotent(value: string)
    ensures FormatNumber(FormatNumber(value)) == FormatNumber(value)
  {
    FormatKeepsDigits(value);
  }

  /** The numeric value of a string of decimal digits. */
  function Value(d: string): (v: nat)
    requires AllDigits(d)
  {
    if d == [] then 0 else 10 * Value(d[..|d| - 1]) + (d[|d| - 1] as int - '0' as int)
  }

  /** `value.replace(/,/g, '')` */
  function RemoveCommas(s: string): (r: string)
    ensures |r| <= |s|
  {
    if s == [] then [] else (if s[0] == ',' then [] else [s[0]]) + RemoveCommas(s[1..])
  }

  predicate DigitsAndCommas(s: string) {
    forall i :: 0 <= i < |s| ==> IsDigit(s[i]) || s[i] == ','
  }

  /** On digits and commas, removing the commas is keeping the digits. */
  lemma {:induction false} RemoveCommasIsDigits(s: string)
    requires DigitsAndCommas(s)
    ensures RemoveCommas(s) == Digits(s)
  {
    if s != [] {
      RemoveCommasIsDigits(s[1..]);
    }
  }

  /**
   * The admin dashboard's `parseNumber`: `Number(value.replace(/,/g, '')) || 0`
   * on text made of digits and commas, its only inputs; the empty text reads as 0.
   */
  function ParseAmount(value: string): (v: nat)
    requires DigitsAndCommas(value)
    ensures v == Value(Digits(value))
  {
    RemoveCommasIsDigits(value);
    Value(RemoveCommas(value))
  }

  /** Parsing formatted text gives the numeric value of the input's digits. */
  lemma ParseFormatted(value: string)
    ensures DigitsAndCommas(FormatNumber(value))
    ensures ParseAmount(FormatNumber(value)) == Value(Digits(value))
  {
    GroupShape(Digits(value));
    FormatKeepsDigits(value);
  }
}
