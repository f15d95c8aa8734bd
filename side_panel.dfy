/**
 * frontend/src/components/SidePanel/SidePanel.tsx: the side panel's click handler, a
 * loading / error / content state machine, and the ordering of the received arguments
 * by their total number of manipulation instances, most first.
 */
module SidePanel {
  import opened Wrappers
  import opened AnalysisTypes
  import Score

  // ---------------------------------------------------------------------------
  // Counting and comparing
  // ---------------------------------------------------------------------------

  /** The `reduce` over `Object.values(manipulations)`: the summed lengths of all technique lists. */
  function TotalInstances(cols: seq<Column>): nat {
    if cols == [] then 0 else |cols[0].instances| + TotalInstances(cols[1..])
  }

  function Count(a: ApiArgument): nat {
    TotalInstances(a.manipulations)
  }

  /** The sort comparator: negative puts a first, positive puts b first, zero keeps them. */
  function Compare(a: ApiArgument, b: ApiArgument): (r: int)
    ensures r == -1 || r == 0 || r == 1
    ensures r < 0 <==> Count(a) > Count(b)
    ensures r > 0 <==> Count(a) < Count(b)
    ensures r == 0 <==> Count(a) == Count(b)
  {
    var lenManA := Count(a);
    var lenManB := Count(b);
    if lenManA > lenManB then -1
    else if lenManA < lenManB then 1
    else 0
  }

  /**
   * The back end's score counts the technique lists that are non-empty, the panel sums
   * their lengths: the first never exceeds the second, they vanish together, and they
   * differ as soon as a list holds two instances.
   */
  lemma {:induction false} CountingRules(cols: seq<Column>)
    ensures Score.TechniquesUsed(cols) <= TotalInstances(cols)
    ensures Score.TechniquesUsed(cols) == 0 <==> TotalInstances(cols) == 0
    ensures (exists k :: 0 <= k < |cols| && |cols[k].instances| >= 2) ==>
      Score.TechniquesUsed(cols) < TotalInstances(cols)
  {
    if cols != [] {
      CountingRules(cols[1..]);
      if exists k :: 0 <= k < |cols| && |cols[k].instances| >= 2 {
        var k :| 0 <= k < |cols| && |cols[k].instances| >= 2;
        if k > 0 {
          assert cols[1..][k - 1] == cols[k];
        }
      }
    }
  }

  // ---------------------------------------------------------------------------
  // The order `Array.prototype.sort` produces (a stable sort)
  // ---------------------------------------------------------------------------

  // The sort is stated for any element type and key, so that proofs about the order
  // never look inside the key; the panel sorts arguments by `Count`.

  /** Places x before the first element whose key does not exceed its own. */
  function Insert<T>(x: T, t: seq<T>, key: T -> nat): (r: seq<T>)
    ensures |r| == |t| + 1
  {
    if t == [] then [x]
    else if key(t[0]) <= key(x) then [x] + t
    else [t[0]] + Insert(x, t[1..], key)
  }

  /** The stable descending order by key. */
  function SortByKey<T>(s: seq<T>, key: T -> nat): (r: seq<T>)
    ensures |r| == |s|
  {
    if s == [] then [] else Insert(s[0], SortByKey(s[1..], key), key)
  }

  predicate SortedByKey<T>(s: seq<T>, key: T -> nat) {
    forall i, j :: 0 <= i < j < |s| ==> key(s[i]) >= key(s[j])
  }

  /** The elements of s with key c, in their order in s. */
  function WithKey<T>(s: seq<T>, key: T -> nat, c: nat): seq<T> {
    if s == [] then []
    else (if key(s[0]) == c then [s[0]] else []) + WithKey(s[1..], key, c)
  }

  lemma {:induction false} InsertPermutes<T>(x: T, t: seq<T>, key: T -> nat)
    ensures multiset(Insert(x, t, key)) == multiset(t) + multiset{x}
  {
    if t != [] && key(t[0]) > key(x) {
      InsertPermutes(x, t[1..], key);
      assert t == [t[0]] + t[1..];
    }
  }

  lemma {:induction false} InsertBounded<T>(x: T, t: seq<T>, key: T -> nat, b: nat)
    requires key(x) <= b && forall k :: 0 <= k < |t| ==> key(t[k]) <= b
    ensures forall k :: 0 <= k < |Insert(x, t, key)| ==> key(Insert(x, t, key)[k]) <= b
  {
    if t != [] && key(t[0]) > key(x) {
      InsertBounded(x, t[1..], key, b);
      var r := Insert(x, t, key);
      assert forall k :: 1 <= k < |r| ==> r[k] == Insert(x, t[1..], key)[k - 1];
    }
  }

  lemma {:induction false} InsertSorted<T>(x: T, t: seq<T>, key: T -> nat)
    requires SortedByKey(t, key)
    ensures SortedByKey(Insert(x, t, key), key)
  {
    if t == [] {
    } else if key(t[0]) <= key(x) {
      var r := [x] + t;
      assert forall j :: 1 <= j < |r| ==> r[j] == t[j - 1];
    } else {
      var tail := t[1..];
      assert forall j :: 0 <= j < |tail| ==> tail[j] == t[j + 1];
      InsertSorted(x, tail, key);
      InsertBounded(x, tail, key, key(t[0]));
      var rest := Insert(x, tail, key);
      var r := [t[0]] + rest;
      assert forall j :: 1 <= j < |r| ==> r[j] == rest[j - 1];
    }
  }

  lemma {:induction false} InsertWithKey<T>(x: T, t: seq<T>, key: T -> nat, c: nat)
    ensures WithKey(Insert(x, t, key), key, c) == (if key(x) == c then [x] else []) + WithKey(t, key, c)
  {
    var r := Insert(x, t, key);
    if t == [] {
      assert r == [x] && r[1..] == [];
    } else if key(t[0]) <= key(x) {
      assert r == [x] + t && r[1..] == t;
    } else {
      var rest := Insert(x, t[1..], key);
      assert r == [t[0]] + rest && r[1..] == rest;
      InsertWithKey(x, t[1..], key, c);
      assert WithKey(r, key, c) == (if key(t[0]) == c then [t[0]] else []) + WithKey(rest, key, c);
      assert WithKey(t, key, c) == (if key(t[0]) == c then [t[0]] else []) + WithKey(t[1..], key, c);
      if key(x) == c {
        assert key(t[0]) != c;
      }
    }
  }

  lemma {:induction false} SortByKeySorted<T>(s: seq<T>, key: T -> nat)
    ensures SortedByKey(SortByKey(s, key), key)
  {
    if s != [] {
      SortByKeySorted(s[1..], key);
      InsertSorted(s[0], SortByKey(s[1..], key), key);
    }
  }

  lemma {:induction false} SortByKeyPermutes<T>(s: seq<T>, key: T -> nat)
    ensures multiset(SortByKey(s, key)) == multiset(s)
  {
    if s != [] {
      SortByKeyPermutes(s[1..], key);
      InsertPermutes(s[0], SortByKey(s[1..], key), key);
      assert s == [s[0]] + s[1..];
    }
  }

  lemma {:induction false} SortByKeyStable<T>(s: seq<T>, key: T -> nat, c: nat)
    ensures WithKey(SortByKey(s, key), key, c) == WithKey(s, key, c)
  {
    if s != [] {
      SortByKeyStable(s[1..], key, c);
      InsertWithKey(s[0], SortByKey(s[1..], key), key, c);
    }
  }

  /** x lands right after the leading elements whose keys exceed its own. */
  lemma {:induction false} InsertAfterLarger<T>(x: T, t: seq<T>, key: T -> nat, d: nat)
    requires d <= |t|
    requires forall k :: 0 <= k < d ==> key(t[k]) > key(x)
    requires d == |t| || key(t[d]) <= key(x)
    ensures Insert(x, t, key) == t[..d] + [x] + t[d..]
  {
    if d > 0 {
      InsertAfterLarger(x, t[1..], key, d - 1);
      assert t[1..][..d - 1] == t[1..d] && t[1..][d - 1..] == t[d..];
      assert t[..d] == [t[0]] + t[1..d];
    }
  }

  /** Element k of t with x placed after its first d elements, behind the prefix p. */
  function PlacedAt<T>(p: seq<T>, t: seq<T>, x: T, d: nat, k: nat): T
    requires d <= |t| && k < |p| + |t| + 1
  {
    if k < |p| then p[k]
    else if k < |p| + d then t[k - |p|]
    else if k == |p| + d then x
    else t[k - |p| - 1]
  }

  /** A sequence that agrees with PlacedAt everywhere is p, then the first d of t, then x, then the rest of t. */
  lemma PlacedSeq<T>(p: seq<T>, t: seq<T>, x: T, d: nat, s: seq<T>)
    requires d <= |t| && |s| == |p| + |t| + 1
    requires forall k :: 0 <= k < |s| ==> s[k] == PlacedAt(p, t, x, d, k)
    ensures s == p + (t[..d] + [x] + t[d..])
  {
    var r := p + (t[..d] + [x] + t[d..]);
    forall k | 0 <= k < |s| ensures s[k] == r[k] {
      assert s[k] == PlacedAt(p, t, x, d, k);
    }
  }

  /** An in-place insertion sort from the back that inserts each element into the sorted tail by adjacent swaps. */
  method SortInPlace<T>(a: array<T>, key: T -> nat)
    modifies a
    ensures a[..] == SortByKey(old(a[..]), key)
  {
    ghost var s := a[..];
    var i := a.Length;
    while i > 0
      invariant 0 <= i <= a.Length
      invariant a[..] == s[..i] + SortByKey(s[i..], key)
    {
      i := i - 1;
      assert s[i..][1..] == s[i + 1..];
      assert a[..i] == s[..i] && a[i] == s[i] && a[i + 1..] == SortByKey(s[i + 1..], key) by {
        assert s[..i + 1] == s[..i] + [s[i]];
      }
      InsertIntoTail(a, i, key);
    }
    assert s[..0] == [] && s[0..] == s;
  }

  /** One pass of the sort: a[i] moves right, by adjacent swaps, past every element of the tail with a larger key. */
  method InsertIntoTail<T>(a: array<T>, i: nat, key: T -> nat)
    requires i < a.Length
    modifies a
    ensures a[..] == old(a[..i]) + Insert(old(a[i]), old(a[i + 1..]), key)
  {
    ghost var p := a[..i];
    ghost var t := a[i + 1..];
    var x := a[i];
    var j := i;
    while j + 1 < a.Length && key(a[j + 1]) > key(x)
      invariant i <= j < a.Length && |p| == i && |t| == a.Length - i - 1
      invariant forall k :: 0 <= k < a.Length ==> a[k] == PlacedAt(p, t, x, j - i, k)
      invariant forall k :: 0 <= k < j - i ==> key(t[k]) > key(x)
    {
      a[j], a[j + 1] := a[j + 1], a[j];
      j := j + 1;
    }
    ghost var d := j - i;
    PlacedSeq(p, t, x, d, a[..]);
    InsertAfterLarger(x, t, key, d);
    assert a[..] == p + Insert(x, t, key);
  }

  /** The order `response.arguments.sort(comparator)` leaves: by total instance count, most first, ties in received order. */
  function SortByCount(s: seq<ApiArgument>): seq<ApiArgument> {
    SortByKey(s, Count)
  }

  /** The sorted arguments are ordered by count: the comparator never puts a later argument first. */
  lemma SortByCountSorted(s: seq<ApiArgument>)
    ensures forall i, j :: 0 <= i < j < |SortByCount(s)| ==> Compare(SortByCount(s)[i], SortByCount(s)[j]) <= 0
  {
    SortByKeySorted(s, Count);
  }

  /** The sorted arguments are a permutation of the received ones. */
  lemma SortByCountPermutes(s: seq<ApiArgument>)
    ensures multiset(SortByCount(s)) == multiset(s)
  {
    SortByKeyPermutes(s, Count);
  }

  /** Arguments with equal counts, which the comparator calls equal, keep their received order. */
  lemma SortByCountStable(s: seq<ApiArgument>, c: nat)
    ensures WithKey(SortByCount(s), Count, c) == WithKey(s, Count, c)
  {
    SortByKeyStable(s, Count, c);
  }

  /** `response.arguments.sort(comparator)`, in place. */
  method SortArguments(a: array<ApiArgument>)
    modifies a
    ensures a[..] == SortByCount(old(a[..]))
  {
    SortInPlace(a, Count);
  }

  // ---------------------------------------------------------------------------
  // The panel's state
  // ---------------------------------------------------------------------------

  /** The response the background script passes back; `score` stands for its other fields. */
  datatype Response = Response(thesis: Option<string>, arguments: seq<ApiArgument>, score: Option<Score.ScoreDetails>)

  /** The stored content: the string "undefined", or a response. */
  datatype Content = Undefined | Loaded(response: Response)

  class SidePanel {
    var loading: bool
    var isError: bool
    var content: Content

    /** A fresh panel: not loading, no error, the content kept in local storage. */
    constructor (stored: Content)
      ensures !loading && !isError && content == stored
    {
      loading := false;
      isError := false;
      content := stored;
    }

    /** What the panel renders below its button: the analysis, exactly when content is not "undefined". */
    function RenderedAnalysis(): (r: Option<Response>)
      reads this
      ensures r.Some? <==> content != Undefined
      ensures r.Some? ==> content == Loaded(r.value)
    {
      if content.Loaded? then Some(content.response) else None
    }

    /** The start of `handleClick`. */
    method HandleClick()
      modifies this
      ensures loading && !isError && content == Undefined
    {
      loading := true;
      isError := false;
      content := Undefined;
    }

    /** The `then` branch: store the response with its arguments sorted in place; nothing else of it changes. */
    method OnResponse(response: Response)
      modifies this
      ensures content == Loaded(response.(arguments := SortByCount(response.arguments)))
      ensures !loading && isError == old(isError)
    {
      var args := response.arguments;
      var a := new ApiArgument[|args|](k requires 0 <= k < |args| => args[k]);
      assert a[..] == args;
      SortArguments(a);
      content := Loaded(response.(arguments := a[..]));
      loading := false;
    }

    /** The `catch` branch: report the error and stop loading; the content is left as it is. */
    method OnFailure()
      modifies this
      ensures isError && !loading && content == old(content)
    {
      isError := true;
      loading := false;
    }
  }

  /**
   * A click answered by a response: the panel then shows that response with its
   * arguments ordered by count, most first, a permutation of those received.
   */
  method ClickThenRespond(panel: SidePanel, response: Response)
    modifies panel
    ensures !panel.loading && !panel.isError
    ensures panel.RenderedAnalysis() == Some(response.(arguments := SortByCount(response.arguments)))
    ensures forall i, j :: 0 <= i < j < |panel.content.response.arguments| ==>
      Compare(panel.content.response.arguments[i], panel.content.response.arguments[j]) <= 0
    ensures multiset(panel.content.response.arguments) == multiset(response.arguments)
    ensures panel.content.response.thesis == response.thesis && panel.content.response.score == response.score
  {
    panel.HandleClick();
    panel.OnResponse(response);
    SortByCountSorted(response.arguments);
    SortByCountPermutes(response.arguments);
  }

  /** A click whose request fails: the error is shown and nothing is rendered, whatever was stored before. */
  method ClickThenFail(panel: SidePanel)
    modifies panel
    ensures panel.isError && !panel.loading
    ensures panel.RenderedAnalysis() == None
  {
    panel.HandleClick();
    panel.OnFailure();
  }
}
