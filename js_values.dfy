/**
 * JSON records as the dashboard reads them, and the sum-reductions every
 * aggregator is built from.
 *
 * A record is a map from field name to a decoded value. `Number(d[k]) || 0`
 * becomes `FieldNum`: a numeric field gives its value, a missing field or a
 * field that does not decode to a number gives 0.
 */
module JsValues {

  datatype Option<+T> = None | Some(value: T) {
    /** `x || []`-style defaulting of an absent value */
    function GetOr(default: T): T {
      match this
      case Some(v) => v
      case None => default
    }
  }

  /** A decoded JSON field: a number, or a text that does not read as a number. */
  datatype Value = Num(n: int) | Text(s: string)

  type Record = map<string, Value>

  /** JavaScript truthiness of a present field value. */
  predicate Truthy(v: Value) {
    match v
    case Num(n) => n != 0
    case Text(s) => s != ""
  }

  /** `Number(d[key]) || 0` */
  function FieldNum(d: Record, key: string): int {
    if key in d && d[key].Num? then d[key].n else 0
  }

  /** `a || b || c` over record fields: the first truthy value, or None when every one is falsy or missing. */
  function FirstTruthy(d: Record, fields: seq<string>): (r: Option<Value>)
    ensures r.Some? ==> Truthy(r.value)
    ensures r.Some? <==> exists i :: 0 <= i < |fields| && fields[i] in d && Truthy(d[fields[i]])
  {
    if |fields| == 0 then None
    else if fields[0] in d && Truthy(d[fields[0]]) then Some(d[fields[0]])
    else
      var rest := FirstTruthy(d, fields[1..]);
      assert forall i :: 1 <= i < |fields| ==> fields[i] == fields[1..][i - 1];
      rest
  }

  function DigitChar(n: nat): char
    requires n < 10
  {
    "0123456789"[n]
  }

  function NatDigits(n: nat): (r: string)
    ensures |r| >= 1
    ensures forall i :: 0 <= i < |r| ==> '0' <= r[i] <= '9'
  {
    if n < 10 then [DigitChar(n)] else NatDigits(n / 10) + [DigitChar(n % 10)]
  }

  /** `String(n)` for an integer */
  function DecimalString(n: int): (r: string)
    ensures r != ""
  {
    if n < 0 then "-" + NatDigits(-n) else NatDigits(n)
  }

  /** The string a value turns into under `toString()` */
  function ToDisplay(v: Value): string {
    match v
    case Num(n) => DecimalString(n)
    case Text(s) => s
  }

  /** Every numeric field of the record is non-negative. */
  ghost predicate NonNegRecord(d: Record) {
    forall k :: FieldNum(d, k) >= 0
  }

  ghost predicate NonNegRecords(arr: seq<Record>) {
    forall i :: 0 <= i < |arr| ==> NonNegRecord(arr[i])
  }

  /**
   * `arr.reduce((a, b) => a + (Number(b[key]) || 0), 0)`, the `sumT` of the
   * source, as a left fold.
   */
  function SumField(arr: seq<Record>, key: string): int {
    if |arr| == 0 then 0 else SumField(arr[..|arr| - 1], key) + FieldNum(arr[|arr| - 1], key)
  }

  /** The per-record subtotal `keys.forEach(k => sub += Number(d[k]) || 0)`. */
  function RecordKeySum(d: Record, keys: seq<string>): int {
    if |keys| == 0 then 0 else RecordKeySum(d, keys[..|keys| - 1]) + FieldNum(d, keys[|keys| - 1])
  }

  /**
   * `sumUciMultiKey(arr, keys)`: every listed spelling of every record is
   * added, record by record.
   */
  function KeySum(arr: seq<Record>, keys: seq<string>): int {
    if |arr| == 0 then 0 else KeySum(arr[..|arr| - 1], keys) + RecordKeySum(arr[|arr| - 1], keys)
  }

  /** The sum is zero on the empty array, whatever the key. */
  lemma SumFieldEmpty(key: string)
    ensures SumField([], key) == 0
  {
  }

  /** `sumT` is additive over concatenation: a monoid homomorphism from arrays to integers. */
  lemma {:induction false} SumFieldAppend(a: seq<Record>, b: seq<Record>, key: string)
    ensures SumField(a + b, key) == SumField(a, key) + SumField(b, key)
  {
    if |b| == 0 {
      assert a + b == a;
    } else {
      assert (a + b)[..|a + b| - 1] == a + b[..|b| - 1];
      SumFieldAppend(a, b[..|b| - 1], key);
    }
  }

  /** A field that no record holds as a number sums to 0: missing and non-numeric fields contribute nothing. */
  lemma {:induction false} SumFieldAbsent(arr: seq<Record>, key: string)
    requires forall i :: 0 <= i < |arr| ==> key !in arr[i] || arr[i][key].Text?
    ensures SumField(arr, key) == 0
  {
    if |arr| > 0 {
      SumFieldAbsent(arr[..|arr| - 1], key);
    }
  }

  /** The sum of non-negative fields is non-negative. */
  lemma {:induction false} SumFieldNonNeg(arr: seq<Record>, key: string)
    requires NonNegRecords(arr)
    ensures SumField(arr, key) >= 0
  {
    if |arr| > 0 {
      assert NonNegRecord(arr[|arr| - 1]);
      SumFieldNonNeg(arr[..|arr| - 1], key);
    }
  }

  lemma {:induction false} RecordKeySumNonNeg(d: Record, keys: seq<string>)
    requires NonNegRecord(d)
    ensures RecordKeySum(d, keys) >= 0
  {
    if |keys| > 0 {
      RecordKeySumNonNeg(d, keys[..|keys| - 1]);
    }
  }

  /** `sumUciMultiKey` is additive over concatenation of arrays. */
  lemma {:induction false} KeySumAppend(a: seq<Record>, b: seq<Record>, keys: seq<string>)
    ensures KeySum(a + b, keys) == KeySum(a, keys) + KeySum(b, keys)
  {
    if |b| == 0 {
      assert a + b == a;
    } else {
      assert (a + b)[..|a + b| - 1] == a + b[..|b| - 1];
      KeySumAppend(a, b[..|b| - 1], keys);
    }
  }

  /** Summing several spellings at once is the same as summing each spelling separately. */
  lemma {:induction false} KeySumByField(arr: seq<Record>, keys: seq<string>)
    requires |keys| > 0
    ensures KeySum(arr, keys) == KeySum(arr, keys[..|keys| - 1]) + SumField(arr, keys[|keys| - 1])
  {
    if |arr| > 0 {
      KeySumByField(arr[..|arr| - 1], keys);
    }
  }

  /** With a single key `sumUciMultiKey` is `sumT`. */
  lemma {:induction false} KeySumSingle(arr: seq<Record>, key: string)
    ensures KeySum(arr, [key]) == SumField(arr, key)
  {
    if |arr| > 0 {
      KeySumSingle(arr[..|arr| - 1], key);
      assert [key][..0] == [];
      assert RecordKeySum(arr[|arr| - 1], [key]) == FieldNum(arr[|arr| - 1], key);
    }
  }

  lemma {:induction false} KeySumNonNeg(arr: seq<Record>, keys: seq<string>)
    requires NonNegRecords(arr)
    ensures KeySum(arr, keys) >= 0
  {
    if |arr| > 0 {
      RecordKeySumNonNeg(arr[|arr| - 1], keys);
      KeySumNonNeg(arr[..|arr| - 1], keys);
    }
  }

  lemma NonNegRecordsAppend(a: seq<Record>, b: seq<Record>)
    requires NonNegRecords(a) && NonNegRecords(b)
    ensures NonNegRecords(a + b)
  {
    forall i | 0 <= i < |a + b| ensures NonNegRecord((a + b)[i]) {
      if i < |a| { assert (a + b)[i] == a[i]; } else { assert (a + b)[i] == b[i - |a|]; }
    }
  }
}
