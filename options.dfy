/**
 * The health-centre selector's options (`populatePuskesmasFilter`): the
 * names `d.Pukesmas || d.Puskesmas` of the measles records are collected in
 * a Set, the falsy ones dropped, and the rest sorted by their text.
 */
module FilterOptions {
  import opened JsValues
  import opened BarChart

  /** `d.Pukesmas || d.Puskesmas`; None stands for `undefined`. */
  function OrName(d: Record): (r: Option<Value>)
    ensures (r.Some? && Truthy(r.value)) <==> FirstTruthy(d, BAR_NAME_FIELDS).Some?
    ensures FirstTruthy(d, BAR_NAME_FIELDS).Some? ==> r == FirstTruthy(d, BAR_NAME_FIELDS)
  {
    assert BAR_NAME_FIELDS[1..] == ["Puskesmas"] && BAR_NAME_FIELDS[1..][1..] == [];
    if "Pukesmas" in d && Truthy(d["Pukesmas"]) then Some(d["Pukesmas"])
    else if "Puskesmas" in d then Some(d["Puskesmas"])
    else None
  }

  /** The Set after every `puskSet.add`, in insertion order. */
  function NameSet(arr: seq<Record>): (r: seq<Option<Value>>)
    ensures forall i, j :: 0 <= i < j < |r| ==> r[i] != r[j]
    ensures forall o :: o in r <==> exists d :: d in arr && OrName(d) == o
  {
    if |arr| == 0 then []
    else
      var init := arr[..|arr| - 1];
      var acc := NameSet(init);
      var name := OrName(arr[|arr| - 1]);
      assert forall d :: d in arr <==> d in init || d == arr[|arr| - 1];
      if name in acc then acc else acc + [name]
  }

  /** `.filter(Boolean)` */
  function TruthyNames(s: seq<Option<Value>>): (r: seq<Value>)
    ensures forall v :: v in r <==> Some(v) in s && Truthy(v)
  {
    if |s| == 0 then []
    else
      var rest := TruthyNames(s[..|s| - 1]);
      var o := s[|s| - 1];
      assert forall x :: x in s <==> x in s[..|s| - 1] || x == o;
      if o.Some? && Truthy(o.value) then rest + [o.value] else rest
  }

  /** The order of `Array.prototype.sort` without a comparator: code unit by code unit on the text. */
  predicate LexLe(a: string, b: string) {
    if |a| == 0 then true
    else if |b| == 0 then false
    else if a[0] != b[0] then a[0] < b[0]
    else LexLe(a[1..], b[1..])
  }

  /** Each element is at most its successor, compared by text. */
  predicate Sorted(s: seq<Value>) {
    forall i :: 0 <= i < |s| - 1 ==> LexLe(ToDisplay(s[i]), ToDisplay(s[i + 1]))
  }

  /** Put `x` after every element not greater than it, so equal texts keep their order. */
  function Insert(x: Value, s: seq<Value>): (r: seq<Value>)
    ensures multiset(r) == multiset(s) + multiset{x}
  {
    if |s| == 0 then [x]
    else if LexLe(ToDisplay(s[0]), ToDisplay(x)) then
      assert s == [s[0]] + s[1..];
      [s[0]] + Insert(x, s[1..])
    else [x] + s
  }

  lemma {:induction false} InsertSorted(x: Value, s: seq<Value>)
    requires Sorted(s)
    ensures Sorted(Insert(x, s))
    ensures Insert(x, s)[0] == x || Insert(x, s)[0] == s[0]
  {
    if |s| > 0 {
      if LexLe(ToDisplay(s[0]), ToDisplay(x)) {
        assert Sorted(s[1..]) by {
          forall i | 0 <= i < |s[1..]| - 1 ensures LexLe(ToDisplay(s[1..][i]), ToDisplay(s[1..][i + 1])) {
            assert s[1..][i] == s[i + 1] && s[1..][i + 1] == s[i + 2];
          }
        }
        InsertSorted(x, s[1..]);
      } else {
        LexLeTotal(ToDisplay(s[0]), ToDisplay(x));
      }
    }
  }

  /** `.sort()`, as an insertion sort. */
  function SortByText(s: seq<Value>): (r: seq<Value>)
    ensures Sorted(r)
    ensures multiset(r) == multiset(s)
  {
    if |s| == 0 then []
    else
      assert s == s[..|s| - 1] + [s[|s| - 1]];
      InsertSorted(s[|s| - 1], SortByText(s[..|s| - 1]));
      Insert(s[|s| - 1], SortByText(s[..|s| - 1]))
  }

  function OptionsOf(arr: seq<Record>): seq<Value> {
    SortByText(TruthyNames(NameSet(arr)))
  }

  /** `populatePuskesmasFilter` without the DOM: the option values in order; None when reading the measles array throws. */
  method PopulatePuskesmasFilter(campak: Option<seq<Record>>) returns (opts: Option<seq<Value>>)
    ensures opts.None? <==> campak.None?
    ensures campak.Some? ==> opts == Some(OptionsOf(campak.value))
  {
    if campak.None? {
      return None;
    }
    var arr := campak.value;
    var puskSet: seq<Option<Value>> := [];
    for i := 0 to |arr|
      invariant puskSet == NameSet(arr[..i])
    {
      var name := OrName(arr[i]);
      assert arr[..i + 1][..i] == arr[..i];
      if name !in puskSet {
        puskSet := puskSet + [name];
      }
    }
    assert arr[..|arr|] == arr;
    opts := Some(SortByText(TruthyNames(puskSet)));
  }

  // ---------------------------------------------------------------------
  // Properties

  lemma {:induction false} LexLeTotal(a: string, b: string)
    ensures LexLe(a, b) || LexLe(b, a)
  {
    if |a| > 0 && |b| > 0 && a[0] == b[0] {
      LexLeTotal(a[1..], b[1..]);
    }
  }

  lemma {:induction false} LexLeTrans(a: string, b: string, c: string)
    requires LexLe(a, b) && LexLe(b, c)
    ensures LexLe(a, c)
  {
    if |a| > 0 && |b| > 0 && |c| > 0 && a[0] == b[0] && b[0] == c[0] {
      LexLeTrans(a[1..], b[1..], c[1..]);
    }
  }

  /** Sorted by neighbours means sorted pairwise. */
  lemma {:induction false} SortedPairwise(s: seq<Value>, i: int, j: int)
    requires Sorted(s) && 0 <= i < j < |s|
    ensures LexLe(ToDisplay(s[i]), ToDisplay(s[j]))
    decreases j - i
  {
    if j > i + 1 {
      SortedPairwise(s, i + 1, j);
      LexLeTrans(ToDisplay(s[i]), ToDisplay(s[i + 1]), ToDisplay(s[j]));
    }
  }

  /** The options are sorted by their text, any two of them. */
  lemma OptionsSorted(arr: seq<Record>)
    ensures forall i, j :: 0 <= i < j < |OptionsOf(arr)| ==> LexLe(ToDisplay(OptionsOf(arr)[i]), ToDisplay(OptionsOf(arr)[j]))
  {
    forall i, j | 0 <= i < j < |OptionsOf(arr)|
      ensures LexLe(ToDisplay(OptionsOf(arr)[i]), ToDisplay(OptionsOf(arr)[j]))
    {
      SortedPairwise(OptionsOf(arr), i, j);
    }
  }

  /** Before sorting, the options are exactly the bar chart's labels for every centre, in the same order. */
  lemma {:induction false} NamesAreBarLabels(arr: seq<Record>)
    ensures TruthyNames(NameSet(arr)) == RawLabels(arr)
  {
    if |arr| > 0 {
      var init := arr[..|arr| - 1];
      var last := arr[|arr| - 1];
      NamesAreBarLabels(init);
      var acc := NameSet(init);
      var name := OrName(last);
      if name.Some? && Truthy(name.value) {
        assert name in acc <==> name.value in RawLabels(init);
      }
      if name !in acc {
        assert acc + [name] == NameSet(arr);
        assert (acc + [name])[..|acc|] == acc;
      }
    }
  }

  /** The options are the bar chart's labels for every centre, reordered. */
  lemma OptionsPermuteBarLabels(arr: seq<Record>)
    ensures multiset(OptionsOf(arr)) == multiset(RawLabels(arr))
  {
    NamesAreBarLabels(arr);
  }

  /** A value is offered exactly when it is the first truthy name of some measles record. */
  lemma OptionsMembers(arr: seq<Record>, v: Value)
    ensures v in OptionsOf(arr) <==> exists d :: d in arr && FirstTruthy(d, BAR_NAME_FIELDS) == Some(v)
  {
    OptionsPermuteBarLabels(arr);
    assert v in OptionsOf(arr) <==> v in multiset(OptionsOf(arr));
    assert v in RawLabels(arr) <==> v in multiset(RawLabels(arr));
  }
}
