# openstack-flavor-selector, modelled in Dafny

This project models the in-memory core of `os-flavor-selector`, a small
command-line tool. The tool lists the compute flavors of an OpenStack cloud,
filters them by name, VCPUs and memory, and sorts them. The model covers:

- `flavors.py`:
  - the frozen `Flavor` record;
  - the `Flavors` collection: its five filter fields, `add_flavor`, the three
    filter facets, `list_flavors` and `sort_flavors`;
  - the record mapping of `get_flavors`.
- `os_flavor_selector.py`:
  - the clamp of `ask_user_int`;
  - the table shape built by `create_table`;
  - the `interactive` loop, taken as a state machine over the answers typed
    at its prompts;
  - the filter assignment and batch output of `main`.

Layout:

- `wrappers.dfy`: `Option` and `Result`.
- `seqs.dfy`: list comprehensions (`Filter`), set conversion (`Dedup`),
  subsequences and duplicate-freedom.
- `strings.dfy`: Python's substring test (`in`) and string order (`<`).
- `flavor.dfy`: `Flavor`, the provider record, `getattr` on a column name and
  the `(column, name)` sort key.
- `flavors.dfy`: the facets, `list_flavors`, `sort_flavors`, the `Flavors`
  class and `get_flavors`.
- `selector.dfy`: `ask_user_int`, `create_table`, `interactive` and `main`.

In these places the code behaves differently from what one might expect at
first sight, and the model follows the code:

- **Records are equal when all their fields are equal.** `Flavor` is a frozen
  dataclass, so its generated `__eq__` compares every field. Its `__hash__`
  uses only `(name, flavor_id)`, but a hash only picks the bucket. So
  `set(...)` in `list_flavors` merges identical records only. Two records with
  the same name and id that differ elsewhere are both listed
  (`SameHashKeyBothListed`). The model does not use a `(name, id)` identity.
- **`reverse=True` reverses the whole key.** `sorted(..., key=attrgetter(column,
  "name"), reverse=True)` puts the larger name first among records with equal
  column values (`ReverseFlipsNameTieBreak`). Sorting `a:2, b:4, c:4` by vcpus
  in descending order gives `c, b, a`, not `b, c, a`.
- **A name that is not a field fails the sort only when something is listed.**
  `sorted` calls the `attrgetter` key once per element, and the key raises for
  such a name; an empty listing calls it never and sorts to `[]`. Sorting on
  `extra_specs` raises `TypeError` as soon as two different dicts are
  compared. Both are errors of `SortFlavors`: `InvalidSortKey` and
  `Unorderable`.

Conventions:

- A bound is *set* when it is truthy. `None` and `0` (or `""` for the name)
  impose nothing, and a negative bound given on the command line is set.
- `memory` is `ram / 1024` as a `real`. A bound of `b` GiB is the same test as
  `ram` against `b * 1024` MiB (`ToFlavor`).
- The answers of one pass of the `interactive` loop form one `Turn`: the menu
  key and, for `f`, the filter dialog. When the answers run out, the session
  ends at the next prompt, after that pass's table has been drawn.

## Model

| member | source | states |
|---|---|---|
| FlavorRecord.ToFlavor | src/os_flavor_selector/flavors.py:110-122 | the record `get_flavors` adds copies every provider field in order; `memory * 1024 == ram`, so a GiB bound on `memory` is the same test as the bound times 1024 on `ram` |
| FlavorRecord.ColumnOf | src/os_flavor_selector/flavors.py:89 | `attrgetter` finds `name`, `vcpus` and `memory` exactly for those three names (every other field name also resolves; anything else is no column) |
| FlavorRecord.ColumnTrichotomy | src/os_flavor_selector/flavors.py:89 | two comparable column values are less, equal or greater, and exactly one of less and greater-or-equal holds |
| FlavorRecord.ColumnLtTransitive | src/os_flavor_selector/flavors.py:89 | the column order is transitive |
| FlavorRecord.KeyLeTotal | src/os_flavor_selector/flavors.py:89 | the `(column, name)` key orders any two comparable records one way or the other |
| FlavorRecord.KeyLeTransitive | src/os_flavor_selector/flavors.py:89 | the `(column, name)` key order is transitive |
| FlavorRecord.KeyLeAntisymmetric | src/os_flavor_selector/flavors.py:89 | two comparable records ordered both ways by the key have equal column values and equal names |
| FlavorRecord.ColumnLt | src/os_flavor_selector/flavors.py:89 | Python's `<` on the column's values is strict: it never holds between equal values (`False < True`, dicts never) |
| FlavorRecord.Comparable | src/os_flavor_selector/flavors.py:89 | only `extra_specs` can fail to compare, and only between two different records |
| FlavorRecord.KeyLe | src/os_flavor_selector/flavors.py:89 | the `(column, name)` tuple comparison is reflexive and puts a smaller column value first regardless of the names |
| Strings.Contains | src/os_flavor_selector/flavors.py:77 | `text in name` holds iff `text` occurs contiguously in `name` at some position |
| Strings.StrLtIrreflexive | src/os_flavor_selector/flavors.py:89 | no string is smaller than itself |
| Strings.StrLtTrichotomy | src/os_flavor_selector/flavors.py:89 | of two different strings exactly one is smaller |
| Strings.StrLtTransitive | src/os_flavor_selector/flavors.py:89 | the string order is transitive |
| Seqs.Filter | src/os_flavor_selector/flavors.py:60-62 | a comprehension `[i for i in s if p(i)]` holds exactly the elements of `s` satisfying `p` |
| Seqs.FilterKeepsOrder | src/os_flavor_selector/flavors.py:60-62 | a comprehension's result is a subsequence of its input, keeps each passing element's multiplicity, and is the input when every element passes |
| Seqs.FilterTwice | src/os_flavor_selector/flavors.py:59-62 | two comprehensions in a row equal one comprehension on the conjunction |
| Seqs.FilterTwiceKeepsOrder | src/os_flavor_selector/flavors.py:59-62 | two comprehensions in a row keep order and the multiplicity of elements passing both |
| Seqs.Dedup | src/os_flavor_selector/flavors.py:85 | `list(set(s))` holds exactly the elements of `s`, none twice |
| Seqs.Reverse | src/os_flavor_selector/flavors.py:88-90 | the reversed list has the same length and elements, position `i` holding the element at `n-1-i` |
| Seqs.NoDuplicatesCount | src/os_flavor_selector/flavors.py:85 | a list without duplicates holds each of its elements exactly once |
| FlavorCollection.IsSet | src/os_flavor_selector/flavors.py:59-72 | a numeric bound constrains iff it is neither `None` nor `0` (Python truthiness) |
| FlavorCollection.NameIsSet | src/os_flavor_selector/flavors.py:76 | a name filter constrains iff it is neither `None` nor `""` |
| FlavorCollection.FilterByVcpu | src/os_flavor_selector/flavors.py:57-64 | a record is kept iff it is loaded and satisfies each set vcpus bound; with both bounds unset all records are returned |
| FlavorCollection.FilterByVcpuKeepsOrder | src/os_flavor_selector/flavors.py:57-64 | the vcpus facet is a subsequence of the records, with each kept record's multiplicity |
| FlavorCollection.FilterByMem | src/os_flavor_selector/flavors.py:66-73 | a record is kept iff it is loaded and satisfies each set memory bound; with both bounds unset all records are returned |
| FlavorCollection.FilterByMemKeepsOrder | src/os_flavor_selector/flavors.py:66-73 | the memory facet is a subsequence of the records, with each kept record's multiplicity |
| FlavorCollection.FilterByName | src/os_flavor_selector/flavors.py:75-78 | a record is kept iff it is loaded and its name contains the filter text; with `None` or `""` all records are returned |
| FlavorCollection.FilterByNameKeepsOrder | src/os_flavor_selector/flavors.py:75-78 | the name facet is a subsequence of the records, with each kept record's multiplicity |
| FlavorCollection.ListFlavors | src/os_flavor_selector/flavors.py:80-85 | a record is listed iff it is in all three facets, i.e. iff it is loaded and passes every set filter (a conjunction, so facet order is irrelevant); no record is listed twice |
| FlavorCollection.ListFlavorsCounts | src/os_flavor_selector/flavors.py:80-85 | every record passing all facets is listed exactly once, every other record never |
| FlavorCollection.SameHashKeyBothListed | src/os_flavor_selector/flavors.py:14-31 | two passing records with the same `(name, flavor_id)` that differ elsewhere are both listed, once each |
| FlavorCollection.ConsSorted | src/os_flavor_selector/flavors.py:88-90 | a record in order with the head of a sorted list can be put in front of it |
| FlavorCollection.TailSorted | src/os_flavor_selector/flavors.py:88-90 | the tail of a sorted list is sorted |
| FlavorCollection.Insert | src/os_flavor_selector/flavors.py:88-90 | insertion adds exactly the one record |
| FlavorCollection.InsertSorted | src/os_flavor_selector/flavors.py:88-90 | inserting a record comparable with all others into a sorted list keeps it sorted |
| FlavorCollection.SortBy | src/os_flavor_selector/flavors.py:88-90 | the sort is a permutation of its input |
| FlavorCollection.SortBySorted | src/os_flavor_selector/flavors.py:88-90 | when every pair is comparable, the sort leaves each adjacent pair in key order |
| FlavorCollection.AdjacentToSorted | src/os_flavor_selector/flavors.py:88-90 | adjacent pairs in order put every pair in order |
| FlavorCollection.ReverseFlipsNameTieBreak | src/os_flavor_selector/flavors.py:88-90 | between equal column values, ascending order puts the smaller name first and `reverse=True` the larger one |
| FlavorCollection.SortFlavors | src/os_flavor_selector/flavors.py:87-90 | an empty listing sorts to `[]` whatever the column; otherwise an unknown column is `InvalidSortKey`; the sort fails iff something is listed and the column is unknown or two listed records hold values that cannot be compared |
| FlavorCollection.SortFlavorsSorts | src/os_flavor_selector/flavors.py:87-90 | a successful sort is a permutation of `list_flavors`, non-decreasing in `(column, name)`, or non-increasing in the pair when reversed; with an unknown column it is `[]` |
| FlavorCollection.SortedTail | src/os_flavor_selector/flavors.py:88-90 | the tail of a list sorted by the key is sorted |
| FlavorCollection.SortedHeads | src/os_flavor_selector/flavors.py:88-90 | two sorted permutations of a list with distinct `(column, name)` keys start with the same record |
| FlavorCollection.SortedUnique | src/os_flavor_selector/flavors.py:88-90 | with distinct `(column, name)` keys, a list has only one sorted permutation |
| FlavorCollection.ReverseSorted | src/os_flavor_selector/flavors.py:88-90 | the reverse of an ascending list is descending in the key |
| FlavorCollection.MirrorOfSorted | src/os_flavor_selector/flavors.py:88-90 | with distinct keys, the descending sort of a list is the reverse of its ascending sort |
| FlavorCollection.ReverseSortMirrors | src/os_flavor_selector/flavors.py:87-90 | when no two listed records share the `(column, name)` key, `reverse=True` succeeds exactly when `reverse=False` does and gives the reverse listing |
| FlavorCollection.OnlyDictsAreUnorderable | src/os_flavor_selector/flavors.py:89 | every column other than `extra_specs` orders any records |
| FlavorCollection.Flavors.constructor | src/os_flavor_selector/flavors.py:37-51 | the filter fields take the given values (default `None`) and the list starts empty |
| FlavorCollection.Flavors.AddFlavor | src/os_flavor_selector/flavors.py:53-55 | exactly one record, built from the arguments in field order, is appended; earlier records and the filters are unchanged |
| FlavorCollection.GetFlavors | src/os_flavor_selector/flavors.py:105-123 | a new collection with one record per provider record, in order, each `ToFlavor` of it, and no filter set |
| Selector.AskUserInt | src/os_flavor_selector/os_flavor_selector.py:101-103 | the typed number is returned iff it is positive, otherwise `None` |
| Selector.ClampMatchesTruthiness | src/os_flavor_selector/os_flavor_selector.py:101-103 | the clamped bound is set iff the number is positive; the clamp differs from storing the number only for negative numbers |
| Selector.Row | src/os_flavor_selector/os_flavor_selector.py:78-92 | a row has one cell per column |
| Selector.Rows | src/os_flavor_selector/os_flavor_selector.py:77-92 | one row per record, in the records' order, each as wide as the header and starting with id and name |
| Selector.AddRows | src/os_flavor_selector/os_flavor_selector.py:77-92 | the loop adds exactly `Rows` of the sorted records |
| Selector.TableOf | src/os_flavor_selector/os_flavor_selector.py:59-94 | the table fails iff the sort fails, with the sort's own error |
| Selector.TableShape | src/os_flavor_selector/os_flavor_selector.py:59-94 | a table exists iff the sort succeeds; it has 11 columns with details and 8 without, every row has as many cells as there are columns, and row `k` is the row of the `k`-th sorted record |
| Selector.CreateTable | src/os_flavor_selector/os_flavor_selector.py:59-94 | `create_table` returns that table, or the sort's error |
| Selector.InitialSession | src/os_flavor_selector/os_flavor_selector.py:110-117 | the loop starts sorting by name, ascending, without details, with the collection's filters |
| Selector.ToggleOrder | src/os_flavor_selector/os_flavor_selector.py:165-166 | `o` flips the sort order and nothing else; twice is a no-op |
| Selector.ToggleDetails | src/os_flavor_selector/os_flavor_selector.py:167-168 | `d` negates `long` and nothing else; twice is a no-op |
| Selector.SelectColumn | src/os_flavor_selector/os_flavor_selector.py:169-170 | `1`, `2`, `3` select name, vcpus, memory and change nothing else |
| Selector.FilterDialog | src/os_flavor_selector/os_flavor_selector.py:152-164 | `f` changes only the filters: `n` only the name, `c` only the vcpus bounds, `m` only the memory bounds; each bound is the clamp of its typed number, so it is set iff that number is positive |
| Selector.ApplyFilterAnswer | src/os_flavor_selector/os_flavor_selector.py:152-164 | the chosen facet takes the typed name, or the clamps of the two typed numbers; every other facet keeps its value |
| Selector.Step | src/os_flavor_selector/os_flavor_selector.py:152-170 | `f` changes only the filters, `o` only the order, flipping whether it is `desc`, `d` only the details flag; any other answer, `q` included, becomes the sort key |
| Selector.RenderedSteps | src/os_flavor_selector/os_flavor_selector.py:118-170 | the drawn states start with the given one and are one answer apart; none of the answers between them is `q`; they end at `q` or when the answers run out |
| Selector.FinalAfterRendered | src/os_flavor_selector/os_flavor_selector.py:118-170 | the loop stops in the last drawn state, after the `q` that ended it if one was answered |
| Selector.StepKeepsRenderable | src/os_flavor_selector/os_flavor_selector.py:118-126 | an answer other than `q` leaves both map keys valid |
| Selector.RenderedAreRenderable | src/os_flavor_selector/os_flavor_selector.py:118-126 | in every state a table is drawn, the sort column key is `1`, `2` or `3` and the order key is `asc` or `desc` |
| Selector.ScreenNeverFails | src/os_flavor_selector/os_flavor_selector.py:122-126 | a table drawn by the loop never fails, since name, vcpus and memory always sort |
| Selector.RenderedUnfold | src/os_flavor_selector/os_flavor_selector.py:118-170 | one pass of the loop: the state is drawn, then the loop stops at `q` or goes on from the next state |
| Selector.DrawnInEach | src/os_flavor_selector/os_flavor_selector.py:122-126 | the record of drawn tables, read table by table |
| Selector.ChangeFilter | src/os_flavor_selector/os_flavor_selector.py:152-164 | the filter dialog sets the filter fields to `ApplyFilterAnswer` of the old ones and leaves the records alone |
| Selector.Answer | src/os_flavor_selector/os_flavor_selector.py:152-170 | the branch on one answer moves the loop's variables and filter fields to `Step` of the old state |
| Selector.DrawScreen | src/os_flavor_selector/os_flavor_selector.py:122-126 | the call of `create_table` with the two map lookups yields the state's table |
| Selector.Interactive | src/os_flavor_selector/os_flavor_selector.py:109-170 | the records are unchanged; one table is drawn per state in `Rendered`, each the sorted listing of that state; the filters left behind are those of the final state |
| Selector.PrintListing | src/os_flavor_selector/os_flavor_selector.py:196-201 | one line per element of `list_flavors`, in that order, unsorted, no line twice |
| Selector.Loaded | src/os_flavor_selector/flavors.py:108-122 | one loaded record per provider record, the `k`-th being `ToFlavor` of the `k`-th provider record |
| Selector.RunMain | src/os_flavor_selector/os_flavor_selector.py:187-203 | the command-line bounds and name become the filters unchanged (no clamp); `json` and `text` print one line per listed record and draw nothing; any other output mode runs the interactive loop on those filters |

## Left out

- The OpenStack connection and `os_conn.compute.flavors()` are not modelled. `get_flavors` takes the provider's records as a given sequence.
- The `rich` terminal interface is not modelled: `Console`, styling, `console.clear`, the status line printed by `console.rule`, and the menu text. Prompts become the given `Turn` sequence.
- `cli_args`/argparse is not modelled, nor its validation of `--output`. `RunMain` receives the parsed values.
- Logging is not modelled: `utils.setup_logging`, `logging.disable` and the `LOG.debug` calls. They do not affect the results.
- Serialisation is not modelled. `json.dumps(vars(f))` and `asdict(f)` become a `JsonLine`/`TextLine` holding the record.
- Row: a cell holds the field's value, not its `str()` text, and the table's title and column styles are left out.
- AskUserInt: `IntPrompt.ask` re-prompts on input that is not an integer. The model receives the integer finally accepted.
- Dedup: Python's set order is unspecified. The model lists the last occurrence of each record in load order. The contracts of `ListFlavors` and `PrintListing` promise only membership, multiplicity and order relative to that list, not a particular set order.
- Floating point is not modelled. `memory` and `rxtx_factor` are exact reals, so NaN and rounding do not arise. `ram / 1024` is exact for realistic sizes.
- `description` is always a string in the model. A provider `None` description, which would make a sort on `description` raise, is not modelled.
- ColumnOf: attributes of a `Flavor` that are not fields (dunder names, methods) are treated as unknown columns. Python's `attrgetter` would return them and then fail or misbehave when comparing.
- End of input at a prompt is not modelled. When the turns run out, the session simply ends after the last table.
- The dataclass's generated field-wise ordering (`order=True`) is not modelled. It is never used, because sorting always goes through an explicit key.
