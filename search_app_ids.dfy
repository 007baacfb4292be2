/** The registry search view of components/SearchAppIds.tsx: it fetches
    every registered application key, sorts the records ascending by id,
    and shows those whose lower-cased name, or whose id written in decimal,
    contains the lower-cased filter term. */
module SearchAppIds {
  import opened JsValues
  import opened JsString
  import opened JsArray
  import opened Types

  /** One entry of `api.query.dataAvailability.appKeys.entries()`: the key's
      name (`key.args[0].toHuman()`), and the owner and `Number(id)` of its
      value. */
  datatype AppKeyEntry = AppKeyEntry(key: string, owner: string, id: int)

  /** The mapping step of `fetchData`: one record per entry, in entry order. */
  function ToRecords(entries: seq<AppKeyEntry>): (r: seq<ApplicationData>)
    ensures |r| == |entries|
    ensures forall i :: 0 <= i < |entries| ==>
              r[i].name == entries[i].key && r[i].owner == entries[i].owner && r[i].id == entries[i].id
  {
    seq(|entries|, i requires 0 <= i < |entries| =>
      ApplicationData(id := entries[i].id, owner := entries[i].owner, name := entries[i].key))
  }

  /** Ascending by id, the order `(a, b) => a.id - b.id` asks for. */
  ghost predicate SortedById(s: seq<ApplicationData>)
  {
    forall i, j :: 0 <= i < j < |s| ==> s[i].id <= s[j].id
  }

  /** `x` placed after every leading record whose id is not larger. */
  function InsertById(x: ApplicationData, s: seq<ApplicationData>): (r: seq<ApplicationData>)
    ensures |r| == |s| + 1
    ensures multiset(r) == multiset(s) + multiset{x}
    decreases |s|
  {
    if s == [] then [x]
    else if x.id < s[0].id then [x] + s
    else
      assert s == [s[0]] + s[1..];
      [s[0]] + InsertById(x, s[1..])
  }

  /** The stable ascending sort by id: each record, in input order, is
      inserted behind the records with the same id that came before it. */
  function SortById(s: seq<ApplicationData>): (r: seq<ApplicationData>)
    ensures |r| == |s|
    ensures multiset(r) == multiset(s)
    decreases |s|
  {
    if s == [] then []
    else
      var init, last := s[..|s| - 1], s[|s| - 1];
      assert s == init + [last];
      InsertById(last, SortById(init))
  }

  /** Every record of a sorted, non-empty list has an id at least the first one's. */
  lemma HeadIsLeast(s: seq<ApplicationData>, y: ApplicationData)
    requires SortedById(s) && s != [] && y in s
    ensures s[0].id <= y.id
  {
    var k :| 0 <= k < |s| && s[k] == y;
    if k > 0 {
      assert s[0].id <= s[k].id;
    }
  }

  /** A record with an id not above any id of a sorted list can head it. */
  lemma SortedCons(h: ApplicationData, t: seq<ApplicationData>)
    requires SortedById(t)
    requires forall k :: 0 <= k < |t| ==> h.id <= t[k].id
    ensures SortedById([h] + t)
  {
    var r := [h] + t;
    forall i, j | 0 <= i < j < |r| ensures r[i].id <= r[j].id {
      if i > 0 {
        assert r[i] == t[i - 1];
      }
      assert r[j] == t[j - 1];
    }
  }

  /** Inserting into a sorted list keeps it sorted. */
  lemma {:induction false} InsertByIdSorted(x: ApplicationData, s: seq<ApplicationData>)
    requires SortedById(s)
    ensures SortedById(InsertById(x, s))
    decreases |s|
  {
    if s == [] {
    } else if x.id < s[0].id {
      assert InsertById(x, s) == [x] + s;
      forall k | 0 <= k < |s| ensures x.id <= s[k].id {
        HeadIsLeast(s, s[k]);
      }
      SortedCons(x, s);
    } else {
      var t := InsertById(x, s[1..]);
      SortedTail(s);
      InsertByIdSorted(x, s[1..]);
      InsertBehindHead(x, s);
      forall k | 0 <= k < |t| ensures s[0].id <= t[k].id {
        var y := t[k];
        assert y in multiset(t);
        assert y == x || y in multiset(s[1..]);
        if y != x {
          assert y in s;
          HeadIsLeast(s, y);
        }
      }
      SortedCons(s[0], t);
    }
  }

  /** The sort returns its input, reordered, in ascending id order. */
  lemma {:induction false} SortByIdSorted(s: seq<ApplicationData>)
    ensures SortedById(SortById(s))
    decreases |s|
  {
    if s != [] {
      var init := s[..|s| - 1];
      SortByIdSorted(init);
      InsertByIdSorted(s[|s| - 1], SortById(init));
    }
  }

  /** The test "carries this id", as one function value. */
  function IdIs(id: int): ApplicationData -> bool
  {
    (x: ApplicationData) => x.id == id
  }

  /** The records that carry a given id, in order. */
  function WithId(s: seq<ApplicationData>, id: int): (r: seq<ApplicationData>)
    ensures forall x :: x in r ==> x in s && x.id == id
  {
    Filter(s, IdIs(id))
  }

  /** A sorted list whose first id is above `id` has no record with `id`. */
  lemma NoneBelowHead(s: seq<ApplicationData>, id: int)
    requires SortedById(s) && s != [] && id < s[0].id
    ensures WithId(s, id) == []
  {
    var w := WithId(s, id);
    if w != [] {
      assert w[0] in w;
      HeadIsLeast(s, w[0]);
    }
  }

  /** A record placed in front of a sorted list with larger ids comes
      after the (no) records with its id. */
  lemma InsertAtFrontWithId(x: ApplicationData, s: seq<ApplicationData>, id: int)
    requires SortedById(s) && s != [] && x.id < s[0].id
    ensures WithId(InsertById(x, s), id) == WithId(s, id) + (if x.id == id then [x] else [])
  {
    var p := IdIs(id);
    assert Filter([x], p) == if x.id == id then [x] else [];
    assert InsertById(x, s) == [x] + s;
    FilterAppend([x], s, p);
    if x.id == id {
      NoneBelowHead(s, id);
    }
  }

  /** The tail of a sorted list is sorted. */
  lemma SortedTail(s: seq<ApplicationData>)
    requires SortedById(s) && s != []
    ensures SortedById(s[1..])
  {
    forall i, j | 0 <= i < j < |s| - 1 ensures s[1..][i].id <= s[1..][j].id {
      assert s[1..][i] == s[i + 1] && s[1..][j] == s[j + 1];
    }
  }

  /** Inserting a record appends it to the run of records with its id. */
  lemma {:induction false} InsertByIdStable(x: ApplicationData, s: seq<ApplicationData>, id: int)
    requires SortedById(s)
    ensures WithId(InsertById(x, s), id) == WithId(s, id) + (if x.id == id then [x] else [])
    decreases |s|
  {
    if s == [] {
      assert Filter([x], IdIs(id)) == if x.id == id then [x] else [];
    } else if x.id < s[0].id {
      InsertAtFrontWithId(x, s, id);
    } else {
      var rest, e := s[1..], if x.id == id then [x] else [];
      SortedTail(s);
      InsertByIdStable(x, rest, id);
      InsertBehindHead(x, s);
      assert s == [s[0]] + rest;
      FilterConsStep(s[0], rest, InsertById(x, rest), IdIs(id), e);
    }
  }

  /** Past a head whose id is not larger, insertion goes on in the tail. */
  lemma InsertBehindHead(x: ApplicationData, s: seq<ApplicationData>)
    requires s != [] && s[0].id <= x.id
    ensures InsertById(x, s) == [s[0]] + InsertById(x, s[1..])
  {
  }

  /** Stability: records with the same id keep their relative order. */
  lemma {:induction false} SortByIdStable(s: seq<ApplicationData>, id: int)
    ensures WithId(SortById(s), id) == WithId(s, id)
    decreases |s|
  {
    if s != [] {
      var p := IdIs(id);
      var init, last := s[..|s| - 1], s[|s| - 1];
      var e := if last.id == id then [last] else [];
      assert Filter([last], p) == e;
      calc {
        Filter(SortById(s), p);
        Filter(InsertById(last, SortById(init)), p);
        { SortByIdSorted(init); InsertByIdStable(last, SortById(init), id); }
        Filter(SortById(init), p) + e;
        { SortByIdStable(init, id); }
        Filter(init, p) + e;
        { FilterAppend(init, [last], p); assert s == init + [last]; }
        Filter(s, p);
      }
    }
  }

  /** Where the insertion sort's inner loop stops, the insertion lands:
      behind the records whose id is not larger, before the larger ones. */
  lemma {:induction false} InsertByIdAt(x: ApplicationData, s: seq<ApplicationData>, j: nat)
    requires j <= |s|
    requires forall k :: 0 <= k < j ==> s[k].id <= x.id
    requires forall k :: j <= k < |s| ==> s[k].id > x.id
    ensures InsertById(x, s) == s[..j] + [x] + s[j..]
    decreases j
  {
    if j == 0 {
      if s != [] {
        assert x.id < s[0].id;
        assert s[..0] + [x] + s[0..] == [x] + s;
      }
    } else {
      assert s[0].id <= x.id;
      var t := s[1..];
      forall k | 0 <= k < j - 1 ensures t[k].id <= x.id {
        assert t[k] == s[k + 1];
      }
      forall k | j - 1 <= k < |t| ensures t[k].id > x.id {
        assert t[k] == s[k + 1];
      }
      InsertByIdAt(x, t, j - 1);
      InsertBehindHead(x, s);
      SplitPastHead(s, x, j);
    }
  }

  /** Cutting a list at `j > 0` and cutting its tail at `j - 1` agree. */
  lemma SplitPastHead<T>(s: seq<T>, x: T, j: nat)
    requires 0 < j <= |s|
    ensures [s[0]] + (s[1..][..j - 1] + [x] + s[1..][j - 1..]) == s[..j] + [x] + s[j..]
  {
    assert s[1..][..j - 1] == s[1..j] && s[1..][j - 1..] == s[j..];
    assert s[..j] == [s[0]] + s[1..j];
  }

  /** What the inner loop leaves behind: the records up to `j`, then `x`,
      then the rest shifted right by one, is the insertion of `x`. */
  lemma ShiftedIsInserted(b: seq<ApplicationData>, sorted: seq<ApplicationData>, x: ApplicationData, j: nat)
    requires j <= |sorted| && |b| == |sorted| + 1
    requires forall k :: 0 <= k < j ==> sorted[k].id <= x.id
    requires forall k :: j <= k < |sorted| ==> sorted[k].id > x.id
    requires forall k :: 0 <= k < j ==> b[k] == sorted[k]
    requires b[j] == x
    requires forall k :: j < k < |b| ==> b[k] == sorted[k - 1]
    ensures b == InsertById(x, sorted)
  {
    InsertByIdAt(x, sorted, j);
    var want := sorted[..j] + [x] + sorted[j..];
    assert |want| == |b|;
    forall k | 0 <= k < |b| ensures b[k] == want[k] {
      if k < j {
        assert want[k] == sorted[k];
      } else if k > j {
        assert want[k] == sorted[k - 1];
      }
    }
  }

  /** What one pass of the insertion sort does to the array, from
      `before` to `after`: `before[i]` lands at `j`, behind the records
      whose id is not larger and in front of those (up to `i`) whose id is
      larger, which shift right by one; the records past `i` stay. */
  ghost predicate ShiftedPass(before: seq<ApplicationData>, after: seq<ApplicationData>, i: nat, j: nat)
  {
    |after| == |before| && j <= i < |before| && after[j] == before[i] &&
    (j > 0 ==> before[j - 1].id <= before[i].id) &&
    (forall k :: j <= k < i ==> before[k].id > before[i].id) &&
    (forall k :: 0 <= k < j ==> after[k] == before[k]) &&
    (forall k :: j < k <= i ==> after[k] == before[k - 1]) &&
    after[i + 1..] == before[i + 1..]
  }

  /** One pass of the insertion sort: `a[i]` moves left past the records
      before it whose id is larger, which shift right by one; the result
      is where it lands. */
  method ShiftInsert(a: array<ApplicationData>, i: nat) returns (j: nat)
    requires i < a.Length
    modifies a
    ensures ShiftedPass(old(a[..]), a[..], i, j)
  {
    var x := a[i];
    j := i;
    while j > 0 && a[j - 1].id > x.id
      invariant 0 <= j <= i
      invariant forall k :: 0 <= k < j ==> a[k] == old(a[k])
      invariant forall k :: j < k <= i ==> a[k] == old(a[k - 1])
      invariant forall k :: j <= k < i ==> old(a[k]).id > x.id
      invariant forall k :: i < k < a.Length ==> a[k] == old(a[k])
    {
      a[j] := a[j - 1];
      j := j - 1;
    }
    a[j] := x;
  }

  /** One pass turns a sorted prefix of length `i` into a sorted prefix of
      length `i + 1`: the prefix of the input, one element longer, sorted. */
  lemma PassExtendsSortedPrefix(orig: seq<ApplicationData>, before: seq<ApplicationData>,
                                after: seq<ApplicationData>, i: nat, j: nat)
    requires |before| == |orig| && ShiftedPass(before, after, i, j)
    requires before[..i] == SortById(orig[..i]) && before[i] == orig[i]
    ensures after[..i + 1] == SortById(orig[..i + 1])
  {
    var sorted, x := before[..i], orig[i];
    SortedSplitsAt(orig, sorted, x, i, j);
    forall k | j <= k < |sorted| ensures sorted[k].id > x.id {
      assert sorted[k] == before[k];
    }
    ShiftedIsInserted(after[..i + 1], sorted, x, j);
    PrefixStep(orig, i);
  }

  /** The sorted prefix splits at `j`: ids up to `x` before it. */
  lemma SortedSplitsAt(orig: seq<ApplicationData>, sorted: seq<ApplicationData>, x: ApplicationData, i: nat, j: nat)
    requires i <= |orig| && sorted == SortById(orig[..i]) && j <= |sorted|
    requires j > 0 ==> sorted[j - 1].id <= x.id
    ensures forall k :: 0 <= k < j ==> sorted[k].id <= x.id
  {
    SortByIdSorted(orig[..i]);
    NotAboveBelowSplit(sorted, x, j);
  }

  /** Sorting one more record of the input inserts it into the sorted prefix. */
  lemma PrefixStep(orig: seq<ApplicationData>, i: nat)
    requires i < |orig|
    ensures SortById(orig[..i + 1]) == InsertById(orig[i], SortById(orig[..i]))
  {
    SortByIdSnoc(orig[..i + 1]);
    assert orig[..i + 1][..i] == orig[..i];
  }

  /** In a sorted list, every record before position `j` has an id no
      larger than a record that is not below the one at `j - 1`. */
  lemma NotAboveBelowSplit(sorted: seq<ApplicationData>, x: ApplicationData, j: nat)
    requires SortedById(sorted) && j <= |sorted|
    requires j > 0 ==> sorted[j - 1].id <= x.id
    ensures forall k :: 0 <= k < j ==> sorted[k].id <= x.id
  {
    forall k | 0 <= k < j ensures sorted[k].id <= x.id {
      assert sorted[k].id <= sorted[j - 1].id;
    }
  }

  /** Sorting a non-empty list inserts its last record into the sorted rest. */
  lemma SortByIdSnoc(s: seq<ApplicationData>)
    requires s != []
    ensures SortById(s) == InsertById(s[|s| - 1], SortById(s[..|s| - 1]))
  {
  }

  /** `Array.prototype.sort` with the comparator `(a, b) => a.id - b.id`,
      in place: a stable insertion sort. */
  method SortInPlace(a: array<ApplicationData>)
    modifies a
    ensures a[..] == SortById(old(a[..]))
  {
    ghost var orig := a[..];
    var i := 0;
    while i < a.Length
      invariant 0 <= i <= a.Length
      invariant a[..i] == SortById(orig[..i])
      invariant a[i..] == orig[i..]
    {
      ghost var before := a[..];
      var j := ShiftInsert(a, i);
      PassExtendsSortedPrefix(orig, before, a[..], i, j);
      assert a[i + 1..] == orig[i + 1..] by {
        assert before[i + 1..] == before[i..][1..];
        assert orig[i + 1..] == orig[i..][1..];
      }
      i := i + 1;
    }
    assert orig[..a.Length] == orig;
  }

  /** The `filteredData` test for one record: the lower-cased filter term
      occurs in the lower-cased name or in the decimal id. */
  predicate Matches(app: ApplicationData, filterTerm: string)
  {
    var term := ToLowerCase(filterTerm);
    Includes(ToLowerCase(app.name), term) || Includes(NumberToString(app.id), term)
  }

  /** `filteredData`: the records that match, in display order. */
  function FilteredData(appData: seq<ApplicationData>, filterTerm: string): (r: seq<ApplicationData>)
    ensures |r| <= |appData|
    ensures forall app :: app in r ==> app in appData && Matches(app, filterTerm)
  {
    Filter(appData, (app: ApplicationData) => Matches(app, filterTerm))
  }

  /** The filtered view keeps the order of `appData` and loses no record
      that matches. */
  lemma FilteredDataOrderAndCompleteness(appData: seq<ApplicationData>, filterTerm: string)
    ensures IsSubsequence(FilteredData(appData, filterTerm), appData)
    ensures forall app :: app in appData && Matches(app, filterTerm) ==> app in FilteredData(appData, filterTerm)
  {
    var p := (app: ApplicationData) => Matches(app, filterTerm);
    FilterIsSubsequence(appData, p);
    forall app | app in appData && Matches(app, filterTerm)
      ensures app in FilteredData(appData, filterTerm)
    {
      FilterComplete(appData, p, app);
    }
  }

  /** A sorted list stays sorted under filtering. */
  lemma {:induction false} FilteredDataSorted(appData: seq<ApplicationData>, filterTerm: string)
    requires SortedById(appData)
    ensures SortedById(FilteredData(appData, filterTerm))
    decreases |appData|
  {
    if appData != [] {
      var rest := appData[1..];
      FilteredDataSorted(rest, filterTerm);
      var r := FilteredData(appData, filterTerm);
      var t := FilteredData(rest, filterTerm);
      forall k | 0 <= k < |t| ensures appData[0].id <= t[k].id {
        assert t[k] in rest;
      }
    }
  }

  /** An empty filter term shows every record. */
  lemma FilteredDataEmptyTerm(appData: seq<ApplicationData>)
    ensures FilteredData(appData, "") == appData
  {
    forall i | 0 <= i < |appData| ensures Matches(appData[i], "") {
      IncludesEmpty(ToLowerCase(appData[i].name));
    }
    FilterAllPass(appData, (app: ApplicationData) => Matches(app, ""));
  }

  /** A two-record registry fetched as beta(2), alpha(1) is shown as
      alpha, beta. */
  lemma TwoRecordScenarioSorted()
    ensures SortById(ToRecords([AppKeyEntry("beta", "0xB", 2), AppKeyEntry("alpha", "0xA", 1)]))
              == [ApplicationData(1, "0xA", "alpha"), ApplicationData(2, "0xB", "beta")]
  {
    var alpha, beta := ApplicationData(1, "0xA", "alpha"), ApplicationData(2, "0xB", "beta");
    var fetched := ToRecords([AppKeyEntry("beta", "0xB", 2), AppKeyEntry("alpha", "0xA", 1)]);
    assert fetched == [beta, alpha];
    assert fetched[..1] == [beta];
    assert [beta][..0] == [];
    assert SortById([beta]) == [beta];
    assert InsertById(alpha, [beta]) == [alpha, beta];
  }

  /** Over alpha(1), beta(2) the term "1" finds only the record whose id is
      1: neither name contains it, and only one id does. */
  lemma TwoRecordScenarioFiltered()
    ensures FilteredData([ApplicationData(1, "0xA", "alpha"), ApplicationData(2, "0xB", "beta")], "1")
              == [ApplicationData(1, "0xA", "alpha")]
  {
    var alpha, beta := ApplicationData(1, "0xA", "alpha"), ApplicationData(2, "0xB", "beta");
    assert NumberToString(1) == "1";
    assert NumberToString(2) == "2";
    assert Includes("1", "1");
    assert !Includes("2", "1");
    assert !Includes("beta", "1");
    assert Matches(alpha, "1");
    assert !Matches(beta, "1");
    var p := (app: ApplicationData) => Matches(app, "1");
    assert [alpha, beta][1..] == [beta];
    assert Filter([beta], p) == [];
    assert Filter([alpha, beta], p) == [alpha] + Filter([beta], p);
  }

  /** The state of the search view. */
  class SearchView {
    var appData: seq<ApplicationData>
    var filterTerm: string

    constructor ()
      ensures appData == [] && filterTerm == ""
    {
      appData := [];
      filterTerm := "";
    }

    /** The records the table shows. */
    function Shown(): (r: seq<ApplicationData>)
      reads this
      ensures forall app :: app in r ==> app in appData && Matches(app, filterTerm)
    {
      FilteredData(appData, filterTerm)
    }

    /** Typing in the filter box. */
    method SetFilterTerm(term: string)
      modifies this`filterTerm
      ensures filterTerm == term
    {
      filterTerm := term;
    }

    /** `fetchData`: with no `api` nothing is fetched; a failure of
        `api.isReady` (awaited outside the `try`) rejects the effect; a
        failing query is caught and logged; otherwise the entries are mapped
        to records, sorted in place and stored. */
    method FetchData(api: Option<Api>, isReady: Outcome<()>, entries: Outcome<seq<AppKeyEntry>>)
      returns (completion: Completion)
      modifies this`appData
      ensures api.None? ==> appData == old(appData) && completion == Resolved
      ensures api.Some? && isReady.Threw? ==>
                appData == old(appData) && completion == Rejected
      ensures api.Some? && isReady.Returned? && entries.Threw? ==>
                appData == old(appData) && completion == Resolved
      ensures api.Some? && isReady.Returned? && entries.Returned? ==>
                appData == SortById(ToRecords(entries.value)) && completion == Resolved
      ensures api.Some? && isReady.Returned? && entries.Returned? ==>
                SortedById(appData) && multiset(appData) == multiset(ToRecords(entries.value))
    {
      completion := Resolved;
      if api.None? {
        return;
      }
      if isReady.Threw? {
        completion := Rejected;
        return;
      }
      if entries.Threw? {
        return;
      }
      var data := ToRecords(entries.value);
      var arr := new ApplicationData[|data|](i requires 0 <= i < |data| => data[i]);
      assert arr[..] == data;
      SortInPlace(arr);
      appData := arr[..];
      SortByIdSorted(data);
    }
  }
}
