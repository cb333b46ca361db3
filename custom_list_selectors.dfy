/**
 * The custom-list selectors: the comparator that pins the mobile list
 * first and otherwise orders names case-insensitively, the sorted list
 * view with the mobile list inserted when missing, the decorated results
 * and the name of the list selected by the list filter.
 *
 * Lowercasing is a parameter `lower`: any total function on strings, so
 * every property below holds whatever `toLowerCase` does.
 */
module CustomListSelectors {
  import opened Wrappers
  import opened JsBuiltins

  /** MOBILE_LIST_NAME, the name of the list that collects pages saved from the mobile app. */
  const MobileListName: string := "Saved from Mobile"

  /** A custom list as held in the store: its name and numeric id. */
  datatype CustomList = CustomList(name: string, id: int)

  /** `String.prototype.toLowerCase`, left abstract. */
  type Lowercase = string -> string

  predicate IsMobile(l: CustomList) {
    l.name == MobileListName
  }

  // ---------------------------------------------------------------------
  // The comparator
  // ---------------------------------------------------------------------

  /**
   * `sortAlphabetically(a, b)`: negative when `a` is the mobile list,
   * positive when only `b` is, otherwise -1, 1 or 0 by lowercased name.
   */
  function SortAlphabetically(lower: Lowercase, a: CustomList, b: CustomList): (r: int)
    ensures IsMobile(a) ==> r < 0
    ensures !IsMobile(a) && IsMobile(b) ==> r > 0
    ensures !IsMobile(a) && !IsMobile(b) ==>
              (r == -1 || r == 0 || r == 1) &&
              (r < 0 <==> StringLess(lower(a.name), lower(b.name))) &&
              (r > 0 <==> StringLess(lower(b.name), lower(a.name))) &&
              (r == 0 <==> lower(a.name) == lower(b.name))
  {
    StringLessTotal(lower(a.name), lower(b.name));
    StringLessIrreflexive(lower(a.name));
    if IsMobile(a) then -100
    else if IsMobile(b) then 100
    else if StringLess(lower(a.name), lower(b.name)) then
      StringLessAsymmetric(lower(a.name), lower(b.name));
      -1
    else if StringLess(lower(b.name), lower(a.name)) then 1
    else 0
  }

  /** `a` may come before `b` in the sorted view: mobile lists first, then by lowercased name. */
  predicate SortedBefore(lower: Lowercase, a: CustomList, b: CustomList) {
    IsMobile(a) || (!IsMobile(b) && !StringLess(lower(b.name), lower(a.name)))
  }

  lemma SortedBeforeTransitive(lower: Lowercase, a: CustomList, b: CustomList, c: CustomList)
    requires SortedBefore(lower, a, b) && SortedBefore(lower, b, c)
    ensures SortedBefore(lower, a, c)
  {
    if !IsMobile(a) && StringLess(lower(c.name), lower(a.name)) {
      StringLessTotal(lower(a.name), lower(b.name));
      if StringLess(lower(a.name), lower(b.name)) {
        StringLessTransitive(lower(c.name), lower(a.name), lower(b.name));
      }
    }
  }

  /**
   * On every pair other than two mobile lists the comparator is consistent:
   * `a` sorts no later than `b` exactly when `SortedBefore` says so, and in
   * any case a positive answer means `b` may come before `a`.
   */
  lemma ComparatorMatchesOrder(lower: Lowercase, a: CustomList, b: CustomList)
    ensures SortAlphabetically(lower, a, b) <= 0 ==> SortedBefore(lower, a, b)
    ensures SortAlphabetically(lower, a, b) > 0 ==> SortedBefore(lower, b, a)
    ensures !(IsMobile(a) && IsMobile(b)) ==>
              (SortAlphabetically(lower, a, b) <= 0 <==> SortedBefore(lower, a, b))
  {
  }

  predicate Sorted(lower: Lowercase, s: seq<CustomList>) {
    forall i, j :: 0 <= i < j < |s| ==> SortedBefore(lower, s[i], s[j])
  }

  // ---------------------------------------------------------------------
  // Sorting: `lists.sort(sortAlphabetically)`, modelled as a stable
  // insertion sort returning a new sequence
  // ---------------------------------------------------------------------

  /** Put `x` in front of the first element it does not sort after. */
  function Insert(lower: Lowercase, x: CustomList, s: seq<CustomList>): (r: seq<CustomList>)
    ensures |r| == |s| + 1
    ensures multiset(r) == multiset(s) + multiset{x}
    decreases |s|
  {
    if s == [] then [x]
    else if SortAlphabetically(lower, x, s[0]) <= 0 then [x] + s
    else
      assert s == [s[0]] + s[1..];
      [s[0]] + Insert(lower, x, s[1..])
  }

  /** A sorted sequence stays sorted with a head that may precede all its elements. */
  lemma ConsSorted(lower: Lowercase, h: CustomList, rest: seq<CustomList>)
    requires Sorted(lower, rest)
    requires forall k :: 0 <= k < |rest| ==> SortedBefore(lower, h, rest[k])
    ensures Sorted(lower, [h] + rest)
  {
    var r := [h] + rest;
    forall i, j | 0 <= i < j < |r|
      ensures SortedBefore(lower, r[i], r[j])
    {
      if i > 0 {
        assert r[i] == rest[i - 1] && r[j] == rest[j - 1];
      }
    }
  }

  /** An element that may precede `x` and every element of `s` may precede all of `Insert(x, s)`. */
  lemma InsertKeepsLowerBound(lower: Lowercase, y: CustomList, x: CustomList, s: seq<CustomList>)
    requires SortedBefore(lower, y, x)
    requires forall k :: 0 <= k < |s| ==> SortedBefore(lower, y, s[k])
    ensures forall k :: 0 <= k < |s| + 1 ==> SortedBefore(lower, y, Insert(lower, x, s)[k])
  {
    var r := Insert(lower, x, s);
    forall k | 0 <= k < |r|
      ensures SortedBefore(lower, y, r[k])
    {
      assert r[k] in multiset(r);
      if r[k] != x {
        assert r[k] in multiset(s);
        var j :| 0 <= j < |s| && s[j] == r[k];
      }
    }
  }

  lemma {:induction false} InsertSorted(lower: Lowercase, x: CustomList, s: seq<CustomList>)
    requires Sorted(lower, s)
    ensures Sorted(lower, Insert(lower, x, s))
    decreases |s|
  {
    if s == [] {
    } else if SortAlphabetically(lower, x, s[0]) <= 0 {
      ComparatorMatchesOrder(lower, x, s[0]);
      forall j | 0 <= j < |s|
        ensures SortedBefore(lower, x, s[j])
      {
        if j > 0 {
          SortedBeforeTransitive(lower, x, s[0], s[j]);
        }
      }
      ConsSorted(lower, x, s);
    } else {
      ComparatorMatchesOrder(lower, x, s[0]);
      var tail := s[1..];
      assert forall k :: 0 <= k < |tail| ==> SortedBefore(lower, s[0], tail[k]);
      assert Sorted(lower, tail);
      InsertSorted(lower, x, tail);
      InsertKeepsLowerBound(lower, s[0], x, tail);
      ConsSorted(lower, s[0], Insert(lower, x, tail));
    }
  }

  function SortLists(lower: Lowercase, s: seq<CustomList>): (r: seq<CustomList>)
    ensures |r| == |s|
    ensures multiset(r) == multiset(s)
    decreases |s|
  {
    if s == [] then []
    else
      assert s == [s[0]] + s[1..];
      Insert(lower, s[0], SortLists(lower, s[1..]))
  }

  lemma {:induction false} SortListsSorted(lower: Lowercase, s: seq<CustomList>)
    ensures Sorted(lower, SortLists(lower, s))
    decreases |s|
  {
    if s != [] {
      SortListsSorted(lower, s[1..]);
      InsertSorted(lower, s[0], SortLists(lower, s[1..]));
    }
  }

  // ---------------------------------------------------------------------
  // Counting mobile lists
  // ---------------------------------------------------------------------

  function CountMobile(s: seq<CustomList>): nat
    decreases |s|
  {
    if s == [] then 0 else (if IsMobile(s[0]) then 1 else 0) + CountMobile(s[1..])
  }

  lemma {:induction false} CountMobileZero(s: seq<CustomList>)
    ensures CountMobile(s) == 0 <==> forall j :: 0 <= j < |s| ==> !IsMobile(s[j])
    decreases |s|
  {
    if s != [] {
      CountMobileZero(s[1..]);
      assert forall j :: 0 < j < |s| ==> s[j] == s[1..][j - 1];
    }
  }

  lemma {:induction false} CountMobileAppend(s: seq<CustomList>, x: CustomList)
    ensures CountMobile(s + [x]) == CountMobile(s) + (if IsMobile(x) then 1 else 0)
    decreases |s|
  {
    if s != [] {
      assert (s + [x])[1..] == s[1..] + [x];
      CountMobileAppend(s[1..], x);
    }
  }

  lemma {:induction false} CountMobileInsert(lower: Lowercase, x: CustomList, s: seq<CustomList>)
    ensures CountMobile(Insert(lower, x, s)) == CountMobile(s) + (if IsMobile(x) then 1 else 0)
    decreases |s|
  {
    if s != [] && SortAlphabetically(lower, x, s[0]) > 0 {
      CountMobileInsert(lower, x, s[1..]);
      assert ([s[0]] + Insert(lower, x, s[1..]))[1..] == Insert(lower, x, s[1..]);
    } else if s != [] {
      assert ([x] + s)[1..] == s;
    }
  }

  lemma {:induction false} CountMobileSort(lower: Lowercase, s: seq<CustomList>)
    ensures CountMobile(SortLists(lower, s)) == CountMobile(s)
    decreases |s|
  {
    if s != [] {
      CountMobileSort(lower, s[1..]);
      CountMobileInsert(lower, s[0], SortLists(lower, s[1..]));
    }
  }

  // ---------------------------------------------------------------------
  // getSortedLists
  // ---------------------------------------------------------------------

  /** `lists.findIndex(({name}) => name === MOBILE_LIST_NAME)`. */
  function FindMobileIndex(s: seq<CustomList>): (i: int)
    ensures -1 <= i < |s|
    ensures i == -1 <==> forall j :: 0 <= j < |s| ==> !IsMobile(s[j])
    ensures i >= 0 ==> IsMobile(s[i]) && forall j :: 0 <= j < i ==> !IsMobile(s[j])
    decreases |s|
  {
    if s == [] then -1
    else if IsMobile(s[0]) then 0
    else
      var k := FindMobileIndex(s[1..]);
      assert forall j :: 0 < j < |s| ==> s[j] == s[1..][j - 1];
      if k == -1 then -1 else k + 1
  }

  /** The entry added when no mobile list exists. */
  const MobileListPlaceholder: CustomList := CustomList(MobileListName, -1)

  /** The lists with the mobile list appended when none is present. */
  function WithMobileList(lists: seq<CustomList>): (r: seq<CustomList>)
    ensures CountMobile(r) >= 1
    ensures CountMobile(lists) == 0 ==> r == lists + [MobileListPlaceholder] && CountMobile(r) == 1
    ensures CountMobile(lists) > 0 ==> r == lists
  {
    CountMobileZero(lists);
    if FindMobileIndex(lists) == -1 then
      CountMobileAppend(lists, MobileListPlaceholder);
      lists + [MobileListPlaceholder]
    else
      lists
  }

  /**
   * `getSortedLists`: a sorted permutation of the lists, extended with the
   * mobile list when missing, so it always holds a mobile list.
   */
  function GetSortedLists(lower: Lowercase, lists: seq<CustomList>): (r: seq<CustomList>)
    ensures multiset(r) == multiset(WithMobileList(lists))
    ensures CountMobile(lists) == 0 ==> multiset(r) == multiset(lists + [MobileListPlaceholder])
    ensures Sorted(lower, r)
    ensures CountMobile(r) >= 1 && exists i :: 0 <= i < |r| && IsMobile(r[i])
  {
    var extended := WithMobileList(lists);
    SortListsSorted(lower, extended);
    CountMobileSort(lower, extended);
    CountMobileZero(SortLists(lower, extended));
    SortLists(lower, extended)
  }

  /** In a sorted view every mobile list comes before every other list. */
  lemma MobileListsComeFirst(lower: Lowercase, r: seq<CustomList>, i: int, j: int)
    requires Sorted(lower, r) && 0 <= i < j < |r| && IsMobile(r[j])
    ensures IsMobile(r[i])
  {
    assert SortedBefore(lower, r[i], r[j]);
  }

  /**
   * With at most one mobile list in the store, the sorted view starts with
   * the (only) mobile list and the rest are in nondecreasing lowercased order.
   */
  lemma MobileListFirstThenAlphabetical(lower: Lowercase, lists: seq<CustomList>)
    requires CountMobile(lists) <= 1
    ensures var r := GetSortedLists(lower, lists);
            |r| > 0 && IsMobile(r[0]) &&
            (forall j :: 0 < j < |r| ==> !IsMobile(r[j])) &&
            (forall i, j :: 1 <= i < j < |r| ==> !StringLess(lower(r[j].name), lower(r[i].name)))
  {
    var extended := WithMobileList(lists);
    var r := GetSortedLists(lower, lists);
    CountMobileSort(lower, extended);
    assert CountMobile(r) == 1;
    var k :| 0 <= k < |r| && IsMobile(r[k]);
    if k > 0 {
      MobileListsComeFirst(lower, r, 0, k);
    }
    CountMobileZero(r[1..]);
    assert forall j :: 0 < j < |r| ==> r[j] == r[1..][j - 1];
    forall i, j | 1 <= i < j < |r|
      ensures !StringLess(lower(r[j].name), lower(r[i].name))
    {
      assert SortedBefore(lower, r[i], r[j]);
    }
  }

  // ---------------------------------------------------------------------
  // results
  // ---------------------------------------------------------------------

  /** The list filter as the search filters hold it: undefined, null, a number or a string. */
  datatype FilterValue = Undefined | Null | Num(n: int) | Text(s: string)

  predicate FilterTruthy(f: FilterValue) {
    (f.Num? && f.n != 0) || (f.Text? && f.s != "")
  }

  /** `Number(listFilter)`; `None` is NaN, which equals no id. */
  function FilterNumber(f: FilterValue): Option<int> {
    match f
    case Undefined => None
    case Null => Some(0)
    case Num(n) => Some(n)
    case Text(s) => StringToNumber(s)
  }

  /** A list decorated for display. */
  datatype ListEntry = ListEntry(name: string, id: int, isEditing: bool, isFilterIndex: bool, isMobileList: bool)

  /** The `map` step of `results`. */
  function Decorate(lists: seq<CustomList>, activeListIndex: int, listFilter: FilterValue): (r: seq<ListEntry>)
    ensures |r| == |lists|
    ensures forall i :: 0 <= i < |r| ==> r[i].name == lists[i].name && r[i].id == lists[i].id
    ensures forall i :: 0 <= i < |r| ==> (r[i].isEditing <==> i == activeListIndex)
    ensures forall i :: 0 <= i < |r| ==> (r[i].isFilterIndex <==> FilterNumber(listFilter) == Some(lists[i].id))
    ensures forall i :: 0 <= i < |r| ==> (r[i].isMobileList <==> IsMobile(lists[i]))
  {
    var filterId := FilterNumber(listFilter);
    seq(|lists|, i requires 0 <= i < |lists| =>
      ListEntry(lists[i].name, lists[i].id, i == activeListIndex, filterId == Some(lists[i].id), IsMobile(lists[i])))
  }

  /**
   * `results`: the sorted lists, each with its flags. At most one entry is
   * being edited and at least one is the mobile list.
   */
  function Results(lower: Lowercase, lists: seq<CustomList>, activeListIndex: int, listFilter: FilterValue)
    : (r: seq<ListEntry>)
    ensures |r| == |GetSortedLists(lower, lists)|
    ensures forall i :: 0 <= i < |r| ==>
              r[i].name == GetSortedLists(lower, lists)[i].name && r[i].id == GetSortedLists(lower, lists)[i].id
    ensures forall i, j :: 0 <= i < |r| && 0 <= j < |r| && r[i].isEditing && r[j].isEditing ==> i == j
    ensures exists i :: 0 <= i < |r| && r[i].isMobileList
    ensures CountMobile(lists) <= 1 ==> r[0].isMobileList
  {
    var entries := Decorate(GetSortedLists(lower, lists), activeListIndex, listFilter);
    assert CountMobile(lists) <= 1 ==> entries[0].isMobileList by {
      if CountMobile(lists) <= 1 {
        MobileListFirstThenAlphabetical(lower, lists);
      }
    }
    entries
  }

  // ---------------------------------------------------------------------
  // activeCollectionName
  // ---------------------------------------------------------------------

  /** `lists.filter(list => list.id === id)`. */
  function WithId(lists: seq<CustomList>, id: int): (r: seq<CustomList>)
    ensures forall x :: x in r <==> x in lists && x.id == id
    ensures r == [] <==> forall j :: 0 <= j < |lists| ==> lists[j].id != id
    ensures r != [] ==> exists j :: 0 <= j < |lists| && lists[j] == r[0] &&
                                   forall k :: 0 <= k < j ==> lists[k].id != id
    decreases |lists|
  {
    if lists == [] then []
    else
      var rest := WithId(lists[1..], id);
      assert forall j :: 0 < j < |lists| ==> lists[j] == lists[1..][j - 1];
      assert forall x :: x in lists <==> x == lists[0] || x in lists[1..];
      if lists[0].id == id then [lists[0]] + rest else rest
  }

  /** `.map(list => list.name)`. */
  function Names(lists: seq<CustomList>): (r: seq<string>)
    ensures |r| == |lists| && forall k :: 0 <= k < |r| ==> r[k] == lists[k].name
  {
    seq(|lists|, k requires 0 <= k < |lists| => lists[k].name)
  }

  /**
   * `activeCollectionName`: undefined for a falsy filter; otherwise the name
   * of the first list whose id is `Number(listFilter)`, or undefined if none.
   */
  function ActiveCollectionName(listFilter: FilterValue, lists: seq<CustomList>): (r: Option<string>)
    ensures !FilterTruthy(listFilter) ==> r.None?
    ensures FilterTruthy(listFilter) ==>
              (r.None? <==> forall j :: 0 <= j < |lists| ==> FilterNumber(listFilter) != Some(lists[j].id))
    ensures r.Some? ==>
              && FilterTruthy(listFilter)
              && exists j :: 0 <= j < |lists| && FilterNumber(listFilter) == Some(lists[j].id) &&
                             lists[j].name == r.value &&
                             forall k :: 0 <= k < j ==> FilterNumber(listFilter) != Some(lists[k].id)
  {
    if !FilterTruthy(listFilter) then None
    else match FilterNumber(listFilter)
      case None => None
      case Some(id) =>
        var names := Names(WithId(lists, id));
        if names == [] then None else Some(names[0])
  }

  /**
   * The two selectors read a falsy filter differently: `null` or `""` is
   * `Number` 0, so `results` flags every list with id 0, while
   * `activeCollectionName` names no list.
   */
  lemma FalsyFilterFlagsListZero(lists: seq<CustomList>, activeListIndex: int, listFilter: FilterValue)
    requires listFilter == Null || listFilter == Text("")
    ensures forall i :: 0 <= i < |lists| ==>
              (Decorate(lists, activeListIndex, listFilter)[i].isFilterIndex <==> lists[i].id == 0)
    ensures ActiveCollectionName(listFilter, lists) == None
  {
  }
}
