/**
 * The `filterArray` closure of the filter-change handler: keep the records
 * of one source array that belong to the selected health centre and whose
 * array's year matches the selected year.
 */
module RecordFilter {
  import opened JsValues
  import opened Normalizer

  /** The sentinel value of the health-centre, year and category selectors. */
  const ALL: string := "all"

  /** The three spellings of the health-centre field, in the order they are tried. */
  const NAME_FIELDS: seq<string> := ["Pukesmas", "Puskesmas", "puskesmas"]

  /** `normalizePuskesmasName(x)` for whatever `a || b || c` produced; a number is turned into its decimal text. */
  function NormalizeValue(v: Option<Value>): string {
    match v
    case None => ""
    case Some(x) => Normalize(ToDisplay(x))
  }

  /** The normalised health-centre name of a record, read through the given field spellings. */
  function NameKeyOf(d: Record, fields: seq<string>): string {
    NormalizeValue(FirstTruthy(d, fields))
  }

  /** The filter's captured selection: `selectedPuskesmas`, `normalizedSelected` and `selectedYear`. */
  datatype Selection = Selection(puskesmas: string, normalized: string, year: string)

  predicate MatchPusk(d: Record, sel: Selection) {
    sel.puskesmas == ALL || NameKeyOf(d, NAME_FIELDS) == sel.normalized
  }

  predicate MatchYear(sel: Selection, yearContext: string) {
    sel.year == ALL || yearContext == ALL || yearContext == sel.year
  }

  predicate Keep(d: Record, sel: Selection, yearContext: string) {
    MatchPusk(d, sel) && MatchYear(sel, yearContext)
  }

  /** `arr.filter(d => matchPusk && matchYear)` on a present array, in order. */
  function FilterRecords(arr: seq<Record>, sel: Selection, yearContext: string): (r: seq<Record>)
    ensures |r| <= |arr|
    ensures forall d :: d in r <==> d in arr && Keep(d, sel, yearContext)
  {
    if |arr| == 0 then []
    else
      var rest := FilterRecords(arr[1..], sel, yearContext);
      assert forall d :: d in arr <==> d == arr[0] || d in arr[1..];
      if Keep(arr[0], sel, yearContext) then [arr[0]] + rest else rest
  }

  /** `filterArray(arr, yearContext)`: a null or undefined array is filtered as `[]`. */
  function FilterArray(arr: Option<seq<Record>>, sel: Selection, yearContext: string): seq<Record> {
    FilterRecords(arr.GetOr([]), sel, yearContext)
  }

  /** `sub` is `s` with some elements left out, order kept. */
  predicate IsSubsequence(sub: seq<Record>, s: seq<Record>)
    decreases |s|
  {
    if |sub| == 0 then true
    else if |s| == 0 then false
    else if sub[0] == s[0] then IsSubsequence(sub[1..], s[1..])
    else IsSubsequence(sub, s[1..])
  }

  // ---------------------------------------------------------------------
  // Properties

  /** The filter fabricates nothing and keeps the input order. */
  lemma {:induction false} FilterIsSubsequence(arr: seq<Record>, sel: Selection, yearContext: string)
    ensures IsSubsequence(FilterRecords(arr, sel, yearContext), arr)
  {
    if |arr| > 0 {
      FilterIsSubsequence(arr[1..], sel, yearContext);
      var rest := FilterRecords(arr[1..], sel, yearContext);
      if !Keep(arr[0], sel, yearContext) && |rest| > 0 {
        SubsequenceSkip(rest, arr);
      }
    }
  }

  lemma {:induction false} SubsequenceSkip(sub: seq<Record>, s: seq<Record>)
    requires |s| > 0 && IsSubsequence(sub, s[1..])
    ensures IsSubsequence(sub, s)
    decreases |s|, 1
  {
    if |sub| > 0 && sub[0] == s[0] {
      SubsequenceTail(sub, s[1..]);
    }
  }

  lemma {:induction false} SubsequenceTail(sub: seq<Record>, s: seq<Record>)
    requires |sub| > 0 && IsSubsequence(sub, s)
    ensures IsSubsequence(sub[1..], s)
    decreases |s| + 1, 0
  {
    if |s| > 0 {
      if sub[0] == s[0] {
        if |sub| > 1 { SubsequenceSkip(sub[1..], s); }
      } else {
        SubsequenceTail(sub, s[1..]);
        if |sub| > 1 { SubsequenceSkip(sub[1..], s); }
      }
    }
  }

  /** A null or undefined array is treated as the empty array. */
  lemma FilterMissingArray(sel: Selection, yearContext: string)
    ensures FilterArray(None, sel, yearContext) == []
  {
  }

  /** Filtering twice with the same selection and year is filtering once. */
  lemma {:induction false} FilterIdempotent(arr: seq<Record>, sel: Selection, yearContext: string)
    ensures FilterRecords(FilterRecords(arr, sel, yearContext), sel, yearContext) == FilterRecords(arr, sel, yearContext)
  {
    if |arr| > 0 {
      FilterIdempotent(arr[1..], sel, yearContext);
      var rest := FilterRecords(arr[1..], sel, yearContext);
      if Keep(arr[0], sel, yearContext) {
        assert ([arr[0]] + rest)[1..] == rest;
      }
    }
  }

  /** Selecting every centre in a matching year keeps every record. */
  lemma {:induction false} FilterAllIsIdentity(arr: seq<Record>, sel: Selection, yearContext: string)
    requires sel.puskesmas == ALL && MatchYear(sel, yearContext)
    ensures FilterRecords(arr, sel, yearContext) == arr
  {
    if |arr| > 0 {
      FilterAllIsIdentity(arr[1..], sel, yearContext);
      assert [arr[0]] + arr[1..] == arr;
    }
  }

  /** Two concrete, different years: the array is dropped whatever the centre. */
  lemma {:induction false} FilterOtherYearIsEmpty(arr: seq<Record>, sel: Selection, yearContext: string)
    requires sel.year != ALL && yearContext != ALL && sel.year != yearContext
    ensures FilterRecords(arr, sel, yearContext) == []
  {
    if |arr| > 0 {
      FilterOtherYearIsEmpty(arr[1..], sel, yearContext);
    }
  }

  /** Unless every centre is selected, every kept record's first truthy name field normalises to the selection. */
  lemma FilterKeepsOnlySelectedCentre(arr: seq<Record>, sel: Selection, yearContext: string)
    requires sel.puskesmas != ALL
    ensures forall d :: d in FilterRecords(arr, sel, yearContext) ==> NameKeyOf(d, NAME_FIELDS) == sel.normalized
  {
  }

  /** Filtering commutes with concatenation. */
  lemma {:induction false} FilterAppend(a: seq<Record>, b: seq<Record>, sel: Selection, yearContext: string)
    ensures FilterRecords(a + b, sel, yearContext) == FilterRecords(a, sel, yearContext) + FilterRecords(b, sel, yearContext)
  {
    if |a| == 0 {
      assert a + b == b;
    } else {
      assert (a + b)[1..] == a[1..] + b;
      FilterAppend(a[1..], b, sel, yearContext);
    }
  }

  /** Totals are unchanged by a filter that selects every centre in a matching year. */
  lemma FilterAllKeepsSums(arr: Option<seq<Record>>, sel: Selection, yearContext: string, key: string)
    requires sel.puskesmas == ALL && MatchYear(sel, yearContext)
    ensures SumField(FilterArray(arr, sel, yearContext), key) == SumField(arr.GetOr([]), key)
  {
    FilterAllIsIdentity(arr.GetOr([]), sel, yearContext);
  }

  /** With every year selected, the year an array is read at does not change what is kept. */
  lemma {:induction false} FilterYearContextIrrelevant(arr: seq<Record>, sel: Selection, y1: string, y2: string)
    requires sel.year == ALL
    ensures FilterRecords(arr, sel, y1) == FilterRecords(arr, sel, y2)
  {
    if |arr| > 0 {
      FilterYearContextIrrelevant(arr[1..], sel, y1, y2);
    }
  }

  /** Filtering one more record at the end. */
  lemma FilterSnoc(arr: seq<Record>, d: Record, sel: Selection, yearContext: string)
    ensures FilterRecords(arr + [d], sel, yearContext)
         == FilterRecords(arr, sel, yearContext) + (if Keep(d, sel, yearContext) then [d] else [])
  {
    FilterAppend(arr, [d], sel, yearContext);
    assert [d][1..] == [];
  }
}
