/** The `Flavors` collection: the loaded records, the five filter fields, the
    three filter facets, their set intersection and the sorted listing. */
module FlavorCollection {
  import opened Wrappers
  import opened Seqs
  import opened Strings
  import opened FlavorRecord

  /** The five filter fields of the collection. `None` is Python's `None`. */
  datatype Filters = Filters(
    filterName: Option<string>,
    vcpusMin: Option<int>,
    vcpusMax: Option<int>,
    memMin: Option<int>,
    memMax: Option<int>)

  /** The filters a freshly built collection has. */
  const NoFilters := Filters(None, None, None, None, None)

  /** A numeric bound constrains only when it is truthy: `None` and `0` do not. */
  predicate IsSet(bound: Option<int>): (r: bool)
    ensures r <==> bound !in {None, Some(0)}
  {
    bound.Some? && bound.value != 0
  }

  /** A name filter constrains only when it is truthy: `None` and `""` do not. */
  predicate NameIsSet(filterName: Option<string>): (r: bool)
    ensures r <==> filterName !in {None, Some("")}
  {
    filterName.Some? && filterName.value != ""
  }

  /** The vcpus facet's condition on one record. */
  predicate VcpusWithin(fs: Filters, f: Flavor)
  {
    && (IsSet(fs.vcpusMin) ==> f.vcpus >= fs.vcpusMin.value)
    && (IsSet(fs.vcpusMax) ==> f.vcpus <= fs.vcpusMax.value)
  }

  /** The memory facet's condition on one record (bounds in GiB). */
  predicate MemoryWithin(fs: Filters, f: Flavor)
  {
    && (IsSet(fs.memMin) ==> f.memory >= fs.memMin.value as real)
    && (IsSet(fs.memMax) ==> f.memory <= fs.memMax.value as real)
  }

  /** The name facet's condition on one record. */
  predicate NameMatches(fs: Filters, f: Flavor)
  {
    NameIsSet(fs.filterName) ==> Contains(f.name, fs.filterName.value)
  }

  /** The conditions of the comprehensions in the three facets. */
  function VcpusAtLeast(bound: int): Flavor -> bool { (f: Flavor) => f.vcpus >= bound }
  function VcpusAtMost(bound: int): Flavor -> bool { (f: Flavor) => f.vcpus <= bound }
  function MemoryAtLeast(bound: int): Flavor -> bool { (f: Flavor) => f.memory >= bound as real }
  function MemoryAtMost(bound: int): Flavor -> bool { (f: Flavor) => f.memory <= bound as real }
  function NameContains(text: string): Flavor -> bool { (f: Flavor) => Contains(f.name, text) }

  /** `filter_by_vcpu`: the records within both vcpus bounds; an unset bound
      keeps everything. */
  function FilterByVcpu(items: seq<Flavor>, fs: Filters): (r: seq<Flavor>)
    ensures forall f {:trigger f in r} :: f in r <==> f in items && VcpusWithin(fs, f)
    ensures !IsSet(fs.vcpusMin) && !IsSet(fs.vcpusMax) ==> r == items
  {
    var t := if IsSet(fs.vcpusMin) then Filter(items, VcpusAtLeast(fs.vcpusMin.value)) else items;
    var t := if IsSet(fs.vcpusMax) then Filter(t, VcpusAtMost(fs.vcpusMax.value)) else t;
    t
  }

  /** `filter_by_mem`: the same over `memory` and the memory bounds. */
  function FilterByMem(items: seq<Flavor>, fs: Filters): (r: seq<Flavor>)
    ensures forall f {:trigger f in r} :: f in r <==> f in items && MemoryWithin(fs, f)
    ensures !IsSet(fs.memMin) && !IsSet(fs.memMax) ==> r == items
  {
    var t := if IsSet(fs.memMin) then Filter(items, MemoryAtLeast(fs.memMin.value)) else items;
    var t := if IsSet(fs.memMax) then Filter(t, MemoryAtMost(fs.memMax.value)) else t;
    t
  }

  /** `filter_by_name`: the records whose name contains the filter text; an
      unset filter keeps everything. */
  function FilterByName(items: seq<Flavor>, fs: Filters): (r: seq<Flavor>)
    ensures forall f {:trigger f in r} :: f in r <==> f in items && NameMatches(fs, f)
    ensures !NameIsSet(fs.filterName) ==> r == items
  {
    if NameIsSet(fs.filterName) then Filter(items, NameContains(fs.filterName.value))
    else items
  }

  /** Each facet keeps its records in their original order and with their
      original multiplicity. */
  lemma FilterByVcpuKeepsOrder(items: seq<Flavor>, fs: Filters)
    ensures IsSubsequence(FilterByVcpu(items, fs), items)
    ensures forall f {:trigger multiset(FilterByVcpu(items, fs))[f]} ::
      multiset(FilterByVcpu(items, fs))[f] == if VcpusWithin(fs, f) then multiset(items)[f] else 0
  {
    if IsSet(fs.vcpusMin) && IsSet(fs.vcpusMax) {
      var p, q := VcpusAtLeast(fs.vcpusMin.value), VcpusAtMost(fs.vcpusMax.value);
      FilterTwiceKeepsOrder(items, p, q);
    } else if IsSet(fs.vcpusMin) {
      FilterKeepsOrder(items, VcpusAtLeast(fs.vcpusMin.value));
    } else if IsSet(fs.vcpusMax) {
      FilterKeepsOrder(items, VcpusAtMost(fs.vcpusMax.value));
    } else {
      SubsequenceReflexive(items);
    }
  }

  lemma FilterByMemKeepsOrder(items: seq<Flavor>, fs: Filters)
    ensures IsSubsequence(FilterByMem(items, fs), items)
    ensures forall f {:trigger multiset(FilterByMem(items, fs))[f]} ::
      multiset(FilterByMem(items, fs))[f] == if MemoryWithin(fs, f) then multiset(items)[f] else 0
  {
    if IsSet(fs.memMin) && IsSet(fs.memMax) {
      var p, q := MemoryAtLeast(fs.memMin.value), MemoryAtMost(fs.memMax.value);
      FilterTwiceKeepsOrder(items, p, q);
    } else if IsSet(fs.memMin) {
      FilterKeepsOrder(items, MemoryAtLeast(fs.memMin.value));
    } else if IsSet(fs.memMax) {
      FilterKeepsOrder(items, MemoryAtMost(fs.memMax.value));
    } else {
      SubsequenceReflexive(items);
    }
  }

  lemma FilterByNameKeepsOrder(items: seq<Flavor>, fs: Filters)
    ensures IsSubsequence(FilterByName(items, fs), items)
    ensures forall f {:trigger multiset(FilterByName(items, fs))[f]} ::
      multiset(FilterByName(items, fs))[f] == if NameMatches(fs, f) then multiset(items)[f] else 0
  {
    if NameIsSet(fs.filterName) {
      FilterKeepsOrder(items, NameContains(fs.filterName.value));
    } else {
      SubsequenceReflexive(items);
    }
  }

  /** The elements of a list, as Python's `set(...)`. */
  function Elems(s: seq<Flavor>): set<Flavor>
  {
    set f | f in s
  }

  /** `list_flavors`: `list(set(vcpu) & set(mem) & set(name))`. Python's set
      order is unspecified; this enumeration follows the records' order. */
  function ListFlavors(items: seq<Flavor>, fs: Filters): (r: seq<Flavor>)
    ensures forall f {:trigger f in r} :: f in r <==>
      f in FilterByVcpu(items, fs) && f in FilterByMem(items, fs) && f in FilterByName(items, fs)
    ensures forall f {:trigger f in r} :: f in r <==>
      f in items && VcpusWithin(fs, f) && MemoryWithin(fs, f) && NameMatches(fs, f)
    ensures NoDuplicates(r)
  {
    var common := Elems(FilterByVcpu(items, fs)) * Elems(FilterByMem(items, fs))
                  * Elems(FilterByName(items, fs));
    Dedup(Filter(items, (f: Flavor) => f in common))
  }

  /** `list_flavors` is `set(...)` listed: every record that passes all three
      facets occurs exactly once, every other record not at all. */
  lemma ListFlavorsCounts(items: seq<Flavor>, fs: Filters)
    ensures forall f {:trigger multiset(ListFlavors(items, fs))[f]} ::
      multiset(ListFlavors(items, fs))[f] ==
        if f in items && VcpusWithin(fs, f) && MemoryWithin(fs, f) && NameMatches(fs, f)
        then 1 else 0
  {
    NoDuplicatesCount(ListFlavors(items, fs));
  }

  /** Records that share `(name, flavor_id)`, the hash key, but differ in
      another field are different set elements: both are listed. */
  lemma SameHashKeyBothListed(items: seq<Flavor>, fs: Filters, a: Flavor, b: Flavor)
    requires a in items && b in items && a != b && HashKey(a) == HashKey(b)
    requires VcpusWithin(fs, a) && MemoryWithin(fs, a) && NameMatches(fs, a)
    requires VcpusWithin(fs, b) && MemoryWithin(fs, b) && NameMatches(fs, b)
    ensures multiset(ListFlavors(items, fs))[a] == 1 && multiset(ListFlavors(items, fs))[b] == 1
    ensures |ListFlavors(items, fs)| >= 2
  {
    var r := ListFlavors(items, fs);
    ListFlavorsCounts(items, fs);
    assert multiset{a, b} <= multiset(r);
  }

  /** The order `sorted(..., key=attrgetter(c, "name"), reverse=reverse)`
      establishes between an earlier record `a` and a later record `b`. */
  predicate Before(c: Column, reverse: bool, a: Flavor, b: Flavor)
  {
    if reverse then KeyLe(c, b, a) else KeyLe(c, a, b)
  }

  /** Every pair of records can be compared on column `c`. */
  predicate Orderable(c: Column, s: seq<Flavor>)
  {
    forall a, b | a in s && b in s :: Comparable(c, a, b)
  }

  predicate SortedAdjacent(c: Column, reverse: bool, s: seq<Flavor>)
  {
    forall i :: 0 < i < |s| ==> Before(c, reverse, s[i - 1], s[i])
  }

  /** Non-decreasing in `(column, name)`, or non-increasing when `reverse`. */
  predicate SortedBy(c: Column, reverse: bool, s: seq<Flavor>)
  {
    forall i, j :: 0 <= i < j < |s| ==> Before(c, reverse, s[i], s[j])
  }

  /** A record in order with the head of a sorted list can be put in front. */
  lemma ConsSorted(c: Column, reverse: bool, y: Flavor, t: seq<Flavor>)
    requires SortedAdjacent(c, reverse, t)
    requires t != [] ==> Before(c, reverse, y, t[0])
    ensures SortedAdjacent(c, reverse, [y] + t)
  {
    forall i | 1 < i < |t| + 1
      ensures Before(c, reverse, ([y] + t)[i - 1], ([y] + t)[i])
    {
      assert ([y] + t)[i - 1] == t[i - 2] && ([y] + t)[i] == t[i - 1];
    }
  }

  /** Adjacent order carries over to the tail of a list. */
  lemma TailSorted(c: Column, reverse: bool, s: seq<Flavor>)
    requires s != [] && SortedAdjacent(c, reverse, s)
    ensures SortedAdjacent(c, reverse, s[1..])
  {
    forall i | 0 < i < |s[1..]|
      ensures Before(c, reverse, s[1..][i - 1], s[1..][i])
    {
      assert s[1..][i - 1] == s[i] && s[1..][i] == s[i + 1];
    }
  }

  /** Insert `x` before the first element it is `Before`. */
  function Insert(c: Column, reverse: bool, x: Flavor, s: seq<Flavor>): (r: seq<Flavor>)
    ensures multiset(r) == multiset(s) + multiset{x}
    ensures |r| == |s| + 1
  {
    if s == [] || Before(c, reverse, x, s[0]) then [x] + s
    else
      assert s == [s[0]] + s[1..];
      [s[0]] + Insert(c, reverse, x, s[1..])
  }

  /** Inserting into a sorted list keeps it sorted; the new head is `x` or
      the old one. */
  lemma {:induction false} InsertSorted(c: Column, reverse: bool, x: Flavor, s: seq<Flavor>)
    requires forall y | y in s :: Comparable(c, x, y)
    requires SortedAdjacent(c, reverse, s)
    ensures SortedAdjacent(c, reverse, Insert(c, reverse, x, s))
    ensures Insert(c, reverse, x, s)[0] == x || (s != [] && Insert(c, reverse, x, s)[0] == s[0])
    decreases |s|
  {
    if s == [] || Before(c, reverse, x, s[0]) {
      ConsSorted(c, reverse, x, s);
    } else {
      TailSorted(c, reverse, s);
      KeyLeTotal(c, x, s[0]);
      InsertSorted(c, reverse, x, s[1..]);
      ConsSorted(c, reverse, s[0], Insert(c, reverse, x, s[1..]));
    }
  }

  /** Insertion sort by `Before`: stable, as Python's `sorted` is. */
  function SortBy(c: Column, reverse: bool, s: seq<Flavor>): (r: seq<Flavor>)
    ensures multiset(r) == multiset(s)
  {
    if s == [] then []
    else
      assert s == [s[0]] + s[1..];
      Insert(c, reverse, s[0], SortBy(c, reverse, s[1..]))
  }

  /** When every pair is comparable the result is sorted. */
  lemma {:induction false} SortBySorted(c: Column, reverse: bool, s: seq<Flavor>)
    requires Orderable(c, s)
    ensures SortedAdjacent(c, reverse, SortBy(c, reverse, s))
  {
    if s != [] {
      var t := SortBy(c, reverse, s[1..]);
      assert forall y | y in s[1..] :: y in s;
      SortBySorted(c, reverse, s[1..]);
      assert forall y | y in t :: y in multiset(s[1..]);
      InsertSorted(c, reverse, s[0], t);
    }
  }

  /** Adjacent pairs in order puts every pair in order. */
  lemma {:induction false} AdjacentToSorted(c: Column, reverse: bool, s: seq<Flavor>)
    requires SortedAdjacent(c, reverse, s)
    ensures SortedBy(c, reverse, s)
  {
    if |s| > 1 {
      AdjacentToSorted(c, reverse, s[1..]);
      forall j | 1 < j < |s|
        ensures Before(c, reverse, s[0], s[j])
      {
        assert Before(c, reverse, s[1], s[j]);
        if reverse {
          KeyLeTransitive(c, s[j], s[1], s[0]);
        } else {
          KeyLeTransitive(c, s[0], s[1], s[j]);
        }
      }
    }
  }

  /** Between two records with equal column values, ascending order puts the
      smaller name first and `reverse` the larger one: the whole key is
      reversed, not only the column. */
  lemma ReverseFlipsNameTieBreak(c: Column, a: Flavor, b: Flavor)
    requires ColumnEq(c, a, b) && StrLt(a.name, b.name)
    ensures Before(c, false, a, b) && !Before(c, false, b, a)
    ensures Before(c, true, b, a) && !Before(c, true, a, b)
  {
    ColumnTrichotomy(c, a, b);
    ColumnTrichotomy(c, b, a);
    StrLtTrichotomy(a.name, b.name);
  }

  /** Why `sort_flavors` raises instead of returning. */
  datatype SortError =
    | InvalidSortKey(column: string)   // `attrgetter` finds no such attribute
    | Unorderable                      // two different dicts were compared

  /** `sort_flavors(column, reverse)`: `list_flavors` ordered by
      `(column, name)`, or the error Python raises. `sorted` calls the
      `attrgetter` key once per element, so an unknown column raises only
      when there is something to sort. */
  function SortFlavors(items: seq<Flavor>, fs: Filters, column: string, reverse: bool)
    : (r: Result<seq<Flavor>, SortError>)
    ensures ColumnOf(column).None? && ListFlavors(items, fs) != [] ==>
      r == Err(InvalidSortKey(column))
    ensures ListFlavors(items, fs) == [] ==> r == Ok([])
    ensures r.Err? <==>
      ListFlavors(items, fs) != [] &&
      (ColumnOf(column).None? || !Orderable(ColumnOf(column).value, ListFlavors(items, fs)))
  {
    var listed := ListFlavors(items, fs);
    match ColumnOf(column)
    case None => if listed == [] then Ok([]) else Err(InvalidSortKey(column))
    case Some(c) =>
      if !Orderable(c, listed) then Err(Unorderable) else Ok(SortBy(c, reverse, listed))
  }

  /** A successful sort is a permutation of `list_flavors`, non-decreasing in
      `(column, name)`, or non-increasing in the whole pair when `reverse`. */
  lemma SortFlavorsSorts(items: seq<Flavor>, fs: Filters, column: string, reverse: bool)
    requires SortFlavors(items, fs, column, reverse).Ok?
    ensures var sorted := SortFlavors(items, fs, column, reverse).value;
      && multiset(sorted) == multiset(ListFlavors(items, fs))
      && (ColumnOf(column).Some? ==> SortedBy(ColumnOf(column).value, reverse, sorted))
      && (ColumnOf(column).None? ==> sorted == [])
  {
    if ColumnOf(column).Some? {
      var c := ColumnOf(column).value;
      SortBySorted(c, reverse, ListFlavors(items, fs));
      AdjacentToSorted(c, reverse, SortBy(c, reverse, ListFlavors(items, fs)));
    }
  }

  /** No two different records share the whole key `(column, name)`. */
  predicate DistinctKeys(c: Column, s: seq<Flavor>)
  {
    forall a, b | a in s && b in s && a != b :: !(ColumnEq(c, a, b) && a.name == b.name)
  }

  /** Order on every pair carries over to the tail. */
  lemma SortedTail(c: Column, reverse: bool, s: seq<Flavor>)
    requires s != [] && SortedBy(c, reverse, s)
    ensures SortedBy(c, reverse, s[1..])
  {
    forall i, j | 0 <= i < j < |s[1..]|
      ensures Before(c, reverse, s[1..][i], s[1..][j])
    {
      assert s[1..][i] == s[i + 1] && s[1..][j] == s[j + 1];
    }
  }

  /** Two sorted arrangements of the same records with distinct keys start
      with the same record. */
  lemma SortedHeads(c: Column, reverse: bool, t: seq<Flavor>, u: seq<Flavor>)
    requires t != [] && SortedBy(c, reverse, t) && SortedBy(c, reverse, u)
    requires multiset(t) == multiset(u)
    requires Orderable(c, t) && DistinctKeys(c, t)
    ensures u != [] && t[0] == u[0]
  {
    assert t[0] in multiset(u);
    var x, y := t[0], u[0];
    if x != y {
      assert y in multiset(t);
      var j :| 0 <= j < |t| && t[j] == y;
      var k :| 0 <= k < |u| && u[k] == x;
      assert j > 0 && k > 0;
      assert Before(c, reverse, x, y) && Before(c, reverse, y, x);
      assert x in t && y in t;
      KeyLeAntisymmetric(c, x, y);
      assert false;
    }
  }

  /** With distinct keys there is only one sorted arrangement of a multiset. */
  lemma {:induction false} SortedUnique(c: Column, reverse: bool, t: seq<Flavor>, u: seq<Flavor>)
    requires SortedBy(c, reverse, t) && SortedBy(c, reverse, u)
    requires multiset(t) == multiset(u)
    requires Orderable(c, t) && DistinctKeys(c, t)
    ensures t == u
    decreases |t|
  {
    if t == [] {
      assert |u| == |multiset(u)| == 0;
    } else {
      SortedHeads(c, reverse, t, u);
      var x := t[0];
      assert t == [x] + t[1..] && u == [x] + u[1..];
      assert multiset(t[1..]) == multiset(t) - multiset{x};
      assert multiset(u[1..]) == multiset(u) - multiset{x};
      SortedTail(c, reverse, t);
      SortedTail(c, reverse, u);
      assert forall z | z in t[1..] :: z in t;
      SortedUnique(c, reverse, t[1..], u[1..]);
    }
  }

  /** Read back to front, an ascending list is descending. */
  lemma ReverseSorted(c: Column, s: seq<Flavor>)
    requires SortedBy(c, false, s)
    ensures SortedBy(c, true, Reverse(s))
  {
    var r := Reverse(s);
    forall i, j | 0 <= i < j < |r|
      ensures Before(c, true, r[i], r[j])
    {
      assert r[i] == s[|s| - 1 - i] && r[j] == s[|s| - 1 - j];
    }
  }

  /** An ascending and a descending arrangement of the same records with
      distinct keys are each other's reverse. */
  lemma MirrorOfSorted(c: Column, listed: seq<Flavor>, up: seq<Flavor>, down: seq<Flavor>)
    requires multiset(up) == multiset(listed) && multiset(down) == multiset(listed)
    requires SortedBy(c, false, up) && SortedBy(c, true, down)
    requires Orderable(c, listed) && DistinctKeys(c, listed)
    ensures down == Reverse(up)
  {
    ReverseSorted(c, up);
    assert forall z | z in down :: z in multiset(listed);
    SortedUnique(c, true, down, Reverse(up));
  }

  /** When no two listed records share the whole key, `reverse=True` yields
      exactly the ascending result read back to front. */
  lemma ReverseSortMirrors(items: seq<Flavor>, fs: Filters, column: string)
    requires SortFlavors(items, fs, column, false).Ok?
    requires ColumnOf(column).Some? ==> DistinctKeys(ColumnOf(column).value, ListFlavors(items, fs))
    ensures SortFlavors(items, fs, column, true).Ok?
    ensures SortFlavors(items, fs, column, true).value == Reverse(SortFlavors(items, fs, column, false).value)
  {
    var listed := ListFlavors(items, fs);
    if ColumnOf(column).Some? && listed != [] {
      var c := ColumnOf(column).value;
      SortFlavorsSorts(items, fs, column, false);
      SortFlavorsSorts(items, fs, column, true);
      MirrorOfSorted(c, listed, SortFlavors(items, fs, column, false).value,
                     SortFlavors(items, fs, column, true).value);
    }
  }

  /** Only `extra_specs` can make a sort fail once the column exists. */
  lemma OnlyDictsAreUnorderable(c: Column, s: seq<Flavor>)
    requires c != ExtraSpecs
    ensures Orderable(c, s)
  {
  }

  /** The collection object: the loaded records and the filter fields
      callers assign between queries. */
  class Flavors {
    var filterName: Option<string>
    var vcpusMin: Option<int>
    var vcpusMax: Option<int>
    var memMin: Option<int>
    var memMax: Option<int>
    var flavors: seq<Flavor>

    /** The current values of the five filter fields. */
    function CurrentFilters(): Filters
      reads this
    {
      Filters(filterName, vcpusMin, vcpusMax, memMin, memMax)
    }

    constructor(filterName: Option<string> := None, vcpusMin: Option<int> := None,
                vcpusMax: Option<int> := None, memMin: Option<int> := None,
                memMax: Option<int> := None)
      ensures CurrentFilters() == Filters(filterName, vcpusMin, vcpusMax, memMin, memMax)
      ensures flavors == []
    {
      this.vcpusMin := vcpusMin;
      this.vcpusMax := vcpusMax;
      this.memMin := memMin;
      this.memMax := memMax;
      this.filterName := filterName;
      this.flavors := [];
    }

    /** `add_flavor(*args)`: append one record built from the arguments in
        field order; no uniqueness check. */
    method AddFlavor(flavorId: string, name: string, vcpus: int, memory: real,
                     disk: int, swap: int, ephemeral: int, description: string,
                     isPublic: bool, rxtxFactor: real, extraSpecs: map<string, string>)
      modifies this
      ensures flavors == old(flavors) + [Flavor(flavorId, name, vcpus, memory, disk, swap,
                                                ephemeral, description, isPublic,
                                                rxtxFactor, extraSpecs)]
      ensures CurrentFilters() == old(CurrentFilters())
    {
      flavors := flavors + [Flavor(flavorId, name, vcpus, memory, disk, swap, ephemeral,
                                   description, isPublic, rxtxFactor, extraSpecs)];
    }
  }

  /** `get_flavors`, given the provider's records: one `Flavor` per record, in
      the provider's order, and no filter set. */
  method GetFlavors(provided: seq<RawFlavor>) returns (c: Flavors)
    ensures fresh(c)
    ensures |c.flavors| == |provided|
    ensures forall k :: 0 <= k < |provided| ==> c.flavors[k] == ToFlavor(provided[k])
    ensures c.CurrentFilters() == NoFilters
  {
    c := new Flavors();
    for i := 0 to |provided|
      invariant |c.flavors| == i
      invariant forall k :: 0 <= k < i ==> c.flavors[k] == ToFlavor(provided[k])
      invariant c.CurrentFilters() == NoFilters
    {
      var raw := provided[i];
      c.AddFlavor(raw.id, raw.name, raw.vcpus, raw.ram as real / 1024.0, raw.disk,
                  raw.swap, raw.ephemeral, raw.description, raw.isPublic,
                  raw.rxtxFactor, raw.extraSpecs);
    }
  }
}
