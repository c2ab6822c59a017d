/** The command-line front end: the integer prompt's clamp, the table built
    for each screen, the interactive session loop and the batch listings. */
module Selector {
  import opened Wrappers
  import opened Seqs
  import opened FlavorRecord
  import opened FlavorCollection

  /** `ask_user_int`, given the number the user typed: a positive number is
      kept, anything else resets the bound to `None`. */
  function AskUserInt(entered: int): (bound: Option<int>)
    ensures bound.Some? <==> entered > 0
    ensures bound.Some? ==> bound.value == entered
  {
    if entered > 0 then Some(entered) else None
  }

  /** The clamp differs from storing the number itself only for negative
      numbers: `0` is unset either way, a negative number would be a set bound. */
  lemma ClampMatchesTruthiness(entered: int)
    ensures IsSet(AskUserInt(entered)) <==> entered > 0
    ensures entered >= 0 ==> AskUserInt(entered) == Some(entered) || !IsSet(Some(entered))
    ensures entered < 0 ==> IsSet(Some(entered)) && !IsSet(AskUserInt(entered))
  {
  }

  /** One table cell: the field's value (its `str()` text is not modelled). */
  datatype Cell =
    | Text(text: string)
    | Number(number: int)
    | Decimal(decimal: real)
    | Flag(flag: bool)
    | Specs(specs: map<string, string>)

  /** A table: its column headers and its rows, in the order they were added. */
  datatype Table = Table(columns: seq<string>, rows: seq<seq<Cell>>)

  const BaseColumns: seq<string> :=
    ["ID", "Name", "VCPUs", "Mem (GiB)", "Disk", "Swap", "Ephemeral", "Is_public"]
  const DetailColumns: seq<string> := ["Description", "rxtx_factor", "extra_specs"]

  function Columns(long: bool): seq<string>
  {
    if long then BaseColumns + DetailColumns else BaseColumns
  }

  /** The row shown for one record. */
  function Row(f: Flavor, long: bool): (row: seq<Cell>)
    ensures |row| == |Columns(long)|
  {
    var base := [Text(f.flavorId), Text(f.name), Number(f.vcpus), Decimal(f.memory),
                 Number(f.disk), Number(f.swap), Number(f.ephemeral), Flag(f.isPublic)];
    if long then base + [Text(f.description), Decimal(f.rxtxFactor), Specs(f.extraSpecs)]
    else base
  }

  /** One row per record, in the records' order. */
  function Rows(sorted: seq<Flavor>, long: bool): (rows: seq<seq<Cell>>)
    ensures |rows| == |sorted|
    ensures forall k | 0 <= k < |sorted| ::
      && |rows[k]| == |Columns(long)|
      && rows[k][0] == Text(sorted[k].flavorId) && rows[k][1] == Text(sorted[k].name)
  {
    seq(|sorted|, k requires 0 <= k < |sorted| => Row(sorted[k], long))
  }

  /** The table `create_table` builds, or the error its sort raises: the
      sort's error passes through unchanged. */
  function TableOf(items: seq<Flavor>, fs: Filters, long: bool, sortColumn: string,
                   sortOrder: bool): (r: Result<Table, SortError>)
    ensures r.Err? <==> SortFlavors(items, fs, sortColumn, sortOrder).Err?
    ensures r.Err? ==> r.error == SortFlavors(items, fs, sortColumn, sortOrder).error
  {
    match SortFlavors(items, fs, sortColumn, sortOrder)
    case Err(e) => Err(e)
    case Ok(sorted) => Ok(Table(Columns(long), Rows(sorted, long)))
  }

  /** The table has 8 columns, or 11 with details; every row has one cell per
      column; there is one row per sorted record, in the sorted order. */
  lemma TableShape(items: seq<Flavor>, fs: Filters, long: bool, sortColumn: string,
                   sortOrder: bool)
    ensures var r := TableOf(items, fs, long, sortColumn, sortOrder);
      && (r.Err? <==> SortFlavors(items, fs, sortColumn, sortOrder).Err?)
      && (r.Ok? ==>
            var sorted := SortFlavors(items, fs, sortColumn, sortOrder).value;
            && |r.value.columns| == (if long then 11 else 8)
            && (forall row | row in r.value.rows :: |row| == |r.value.columns|)
            && |r.value.rows| == |sorted|
            && forall k | 0 <= k < |sorted| :: r.value.rows[k] == Row(sorted[k], long))
  {
  }

  /** The loop of `create_table` over the sorted records: one row each, in order. */
  method AddRows(sorted: seq<Flavor>, long: bool) returns (rows: seq<seq<Cell>>)
    ensures rows == Rows(sorted, long)
  {
    rows := [];
    for k := 0 to |sorted|
      invariant |rows| == k
      invariant forall j :: 0 <= j < k ==> rows[j] == Row(sorted[j], long)
    {
      var f := sorted[k];
      var row := [Text(f.flavorId), Text(f.name), Number(f.vcpus), Decimal(f.memory),
                  Number(f.disk), Number(f.swap), Number(f.ephemeral), Flag(f.isPublic)];
      if long {
        row := row + [Text(f.description), Decimal(f.rxtxFactor), Specs(f.extraSpecs)];
      }
      rows := rows + [row];
    }
  }

  /** `create_table`: the header row, then one row per record of
      `sort_flavors(sortColumn, sortOrder)`, in that order. */
  method CreateTable(flavors: Flavors, long: bool, sortColumn: string, sortOrder: bool)
    returns (r: Result<Table, SortError>)
    ensures r == TableOf(flavors.flavors, flavors.CurrentFilters(), long, sortColumn, sortOrder)
  {
    var columns := BaseColumns;
    if long {
      columns := columns + DetailColumns;
    }
    var sorted := SortFlavors(flavors.flavors, flavors.CurrentFilters(), sortColumn, sortOrder);
    if sorted.Err? {
      return Err(sorted.error);
    }
    var rows := AddRows(sorted.value, long);
    r := Ok(Table(columns, rows));
  }

  /** The menu keys that select a sort column, and the sort orders. */
  const SortColumnMap: map<string, string> := map["1" := "name", "2" := "vcpus", "3" := "memory"]
  const SortOrderMap: map<string, bool> := map["asc" := false, "desc" := true]

  /** The answers the menu prompt accepts. */
  const MenuChoices: seq<string> := ["1", "2", "3", "f", "o", "d", "q"]

  /** The answers of the "change filter" dialog, one alternative per facet
      (`n`, `c`, `m`); the numbers are the raw integers typed.
      `NoFilterAnswer` stands for a pass in which the dialog is not opened. */
  datatype FilterAnswer =
    | NoFilterAnswer
    | ByName(text: string)
    | ByVcpus(vcpusMin: int, vcpusMax: int)
    | ByMemory(memMin: int, memMax: int)

  /** What the user answers in one pass of the loop: the menu choice and, for
      `f`, the filter dialog. */
  datatype Turn = Turn(option: string, filter: FilterAnswer)

  /** The prompts accept only the listed menu keys, and the filter dialog
      only `n`, `c` or `m`. */
  predicate ValidTurn(t: Turn)
  {
    t.option in MenuChoices && (t.option == "f" ==> !t.filter.NoFilterAnswer?)
  }

  /** The state the loop carries from one screen to the next. */
  datatype Session = Session(sortByColumn: string, sortOrder: string, long: bool, filters: Filters)

  /** The loop can build a screen in this state: both map lookups succeed. */
  predicate Renderable(s: Session)
  {
    s.sortByColumn in SortColumnMap && s.sortOrder in SortOrderMap
  }

  /** The state before the first screen: by name, ascending, short columns. */
  function InitialSession(fs: Filters): (s: Session)
    ensures Renderable(s)
    ensures SortColumnMap[s.sortByColumn] == "name" && !SortOrderMap[s.sortOrder] && !s.long
    ensures s.filters == fs
  {
    Session("1", "asc", false, fs)
  }

  /** The filter fields after the filter dialog: the chosen facet is
      replaced, the name as typed and the bounds through the clamp; the other
      facets keep their values. */
  function ApplyFilterAnswer(fs: Filters, a: FilterAnswer): (r: Filters)
    ensures r.filterName == if a.ByName? then Some(a.text) else fs.filterName
    ensures a.ByVcpus? ==> r.vcpusMin == AskUserInt(a.vcpusMin) && r.vcpusMax == AskUserInt(a.vcpusMax)
    ensures !a.ByVcpus? ==> r.vcpusMin == fs.vcpusMin && r.vcpusMax == fs.vcpusMax
    ensures a.ByMemory? ==> r.memMin == AskUserInt(a.memMin) && r.memMax == AskUserInt(a.memMax)
    ensures !a.ByMemory? ==> r.memMin == fs.memMin && r.memMax == fs.memMax
  {
    match a
    case NoFilterAnswer => fs
    case ByName(text) => fs.(filterName := Some(text))
    case ByVcpus(lo, hi) => fs.(vcpusMin := AskUserInt(lo), vcpusMax := AskUserInt(hi))
    case ByMemory(lo, hi) => fs.(memMin := AskUserInt(lo), memMax := AskUserInt(hi))
  }

  /** The state after one answered menu prompt: `f` changes only the
      filters, `o` only the order, `d` only the details flag, and any other
      answer becomes the sort key. */
  function Step(s: Session, t: Turn): (r: Session)
    ensures r.filters == if t.option == "f" then ApplyFilterAnswer(s.filters, t.filter) else s.filters
    ensures t.option != "o" ==> r.sortOrder == s.sortOrder
    ensures t.option == "o" ==> (r.sortOrder == "desc" <==> s.sortOrder != "desc")
    ensures r.long == (if t.option == "d" then !s.long else s.long)
    ensures r.sortByColumn == if t.option in {"f", "o", "d"} then s.sortByColumn else t.option
  {
    if t.option == "f" then s.(filters := ApplyFilterAnswer(s.filters, t.filter))
    else if t.option == "o" then s.(sortOrder := if s.sortOrder == "desc" then "asc" else "desc")
    else if t.option == "d" then s.(long := !s.long)
    else s.(sortByColumn := t.option)
  }

  /** The states in which a screen is drawn, from `s` on: one before every
      prompt, until `q` is answered or the answers run out. */
  function Rendered(s: Session, turns: seq<Turn>): seq<Session>
    decreases |turns|
  {
    [s] + if turns == [] || turns[0].option == "q" then []
          else Rendered(Step(s, turns[0]), turns[1..])
  }

  /** The state when the loop stops: the last screen's state, after the
      `q` that ended the loop if one was answered. */
  function Final(s: Session, turns: seq<Turn>): (r: Session)
    decreases |turns|
  {
    if turns == [] then s
    else if turns[0].option == "q" then Step(s, turns[0])
    else Final(Step(s, turns[0]), turns[1..])
  }

  /** Consecutive screens are one answered prompt apart, no answer before the
      last screen is `q`, and the screens stop either at `q` or when the
      answers run out. */
  lemma {:induction false} RenderedSteps(s: Session, turns: seq<Turn>)
    ensures var r := Rendered(s, turns);
      && 1 <= |r| <= |turns| + 1
      && r[0] == s
      && (forall k | 0 <= k < |r| - 1 :: turns[k].option != "q" && r[k + 1] == Step(r[k], turns[k]))
      && (|r| == |turns| + 1 || turns[|r| - 1].option == "q")
    decreases |turns|
  {
    if turns != [] && turns[0].option != "q" {
      var next := Rendered(Step(s, turns[0]), turns[1..]);
      RenderedSteps(Step(s, turns[0]), turns[1..]);
      var r := Rendered(s, turns);
      assert r == [s] + next;
      forall k | 0 <= k < |r| - 1
        ensures turns[k].option != "q" && r[k + 1] == Step(r[k], turns[k])
      {
        if k > 0 {
          assert turns[k] == turns[1..][k - 1];
        }
      }
    }
  }

  /** The loop stops in the last screen's state, after the `q` that ended it
      if one was answered. */
  lemma {:induction false} FinalAfterRendered(s: Session, turns: seq<Turn>)
    ensures var shown := Rendered(s, turns);
      Final(s, turns) ==
        if |shown| <= |turns| then Step(shown[|shown| - 1], turns[|shown| - 1])
        else shown[|shown| - 1]
    decreases |turns|
  {
    if turns != [] && turns[0].option != "q" {
      FinalAfterRendered(Step(s, turns[0]), turns[1..]);
      var next := Rendered(Step(s, turns[0]), turns[1..]);
      assert Rendered(s, turns) == [s] + next;
      if |next| <= |turns[1..]| {
        assert turns[|next|] == turns[1..][|next| - 1];
      }
    }
  }

  /** The screen drawn in state `s`. */
  function Screen(items: seq<Flavor>, s: Session): Result<Table, SortError>
    requires Renderable(s)
  {
    TableOf(items, s.filters, s.long, SortColumnMap[s.sortByColumn], SortOrderMap[s.sortOrder])
  }

  /** `o` flips the order and nothing else; doing it twice is a no-op. */
  lemma ToggleOrder(s: Session)
    requires s.sortOrder in SortOrderMap
    ensures var o := Step(s, Turn("o", NoFilterAnswer));
      && o == s.(sortOrder := o.sortOrder)
      && o.sortOrder in SortOrderMap
      && SortOrderMap[o.sortOrder] == !SortOrderMap[s.sortOrder]
      && Step(o, Turn("o", NoFilterAnswer)) == s
  {
  }

  /** `d` negates `long` and nothing else; doing it twice is a no-op. */
  lemma ToggleDetails(s: Session, a: FilterAnswer)
    ensures Step(s, Turn("d", a)) == s.(long := !s.long)
    ensures Step(Step(s, Turn("d", a)), Turn("d", a)) == s
  {
  }

  /** `1`, `2`, `3` select name, vcpus, memory and change nothing else. */
  lemma SelectColumn(s: Session, t: Turn)
    requires t.option in SortColumnMap
    ensures Step(s, t) == s.(sortByColumn := t.option)
    ensures SortColumnMap[Step(s, t).sortByColumn] ==
      if t.option == "1" then "name" else if t.option == "2" then "vcpus" else "memory"
  {
  }

  /** The filter dialog replaces only the chosen facet, bounds through the clamp. */
  lemma FilterDialog(s: Session, a: FilterAnswer)
    ensures var r := Step(s, Turn("f", a));
      && r.sortByColumn == s.sortByColumn && r.sortOrder == s.sortOrder && r.long == s.long
      && (a.ByName? ==> r.filters == s.filters.(filterName := Some(a.text)))
      && (a.ByVcpus? ==>
            && r.filters == s.filters.(vcpusMin := r.filters.vcpusMin, vcpusMax := r.filters.vcpusMax)
            && r.filters.vcpusMin == AskUserInt(a.vcpusMin)
            && r.filters.vcpusMax == AskUserInt(a.vcpusMax)
            && (IsSet(r.filters.vcpusMin) <==> a.vcpusMin > 0)
            && (IsSet(r.filters.vcpusMax) <==> a.vcpusMax > 0))
      && (a.ByMemory? ==>
            && r.filters == s.filters.(memMin := r.filters.memMin, memMax := r.filters.memMax)
            && r.filters.memMin == AskUserInt(a.memMin)
            && r.filters.memMax == AskUserInt(a.memMax)
            && (IsSet(r.filters.memMin) <==> a.memMin > 0)
            && (IsSet(r.filters.memMax) <==> a.memMax > 0))
  {
  }

  /** A menu answer other than `q` keeps the state renderable. */
  lemma StepKeepsRenderable(s: Session, t: Turn)
    requires Renderable(s) && ValidTurn(t) && t.option != "q"
    ensures Renderable(Step(s, t))
  {
  }

  /** Every screen is drawn with a sort key among `1`, `2`, `3`: the `q`
      written into it ends the loop before the next lookup. */
  lemma {:induction false} RenderedAreRenderable(s: Session, turns: seq<Turn>)
    requires Renderable(s)
    requires forall k :: 0 <= k < |turns| ==> ValidTurn(turns[k])
    ensures forall x | x in Rendered(s, turns) :: Renderable(x)
    decreases |turns|
  {
    if turns != [] && turns[0].option != "q" {
      StepKeepsRenderable(s, turns[0]);
      RenderedAreRenderable(Step(s, turns[0]), turns[1..]);
    }
  }

  /** A screen never fails: the three menu columns are always sortable. */
  lemma ScreenNeverFails(items: seq<Flavor>, s: Session)
    requires Renderable(s)
    ensures Screen(items, s).Ok?
  {
    var c := ColumnOf(SortColumnMap[s.sortByColumn]);
    assert c.Some? && c.value != ExtraSpecs;
    OnlyDictsAreUnorderable(c.value, ListFlavors(items, s.filters));
  }

  /** One pass of the loop, seen from the specification: with the screens
      `shown` drawn and the answers `rest` still to come in state `s`, the
      screen drawn now joins `shown`, then the loop either ends in the state
      `q` leaves or goes on from the next state with the remaining answers. */
  lemma {:induction false} RenderedUnfold(start: Session, turns: seq<Turn>, shown: seq<Session>,
                                          s: Session, rest: seq<Turn>)
    requires rest != []
    requires Rendered(start, turns) == shown + Rendered(s, rest)
    requires Final(start, turns) == Final(s, rest)
    ensures rest[0].option == "q" ==>
      && Rendered(start, turns) == shown + [s]
      && Final(start, turns) == Step(s, rest[0])
    ensures rest[0].option != "q" ==>
      && Rendered(start, turns) == (shown + [s]) + Rendered(Step(s, rest[0]), rest[1..])
      && Final(start, turns) == Final(Step(s, rest[0]), rest[1..])
  {
    if rest[0].option == "q" {
      assert Rendered(s, rest) == [s];
    } else {
      var later := Rendered(Step(s, rest[0]), rest[1..]);
      assert Rendered(s, rest) == [s] + later;
      assert shown + ([s] + later) == (shown + [s]) + later;
    }
  }

  /** The filter dialog of one `f` answer: the chosen facet's fields are
      replaced, the bounds through `ask_user_int`'s clamp. */
  method ChangeFilter(flavors: Flavors, answer: FilterAnswer)
    modifies flavors
    ensures flavors.flavors == old(flavors.flavors)
    ensures flavors.CurrentFilters() == ApplyFilterAnswer(old(flavors.CurrentFilters()), answer)
  {
    match answer
    case NoFilterAnswer =>
    case ByName(text) =>
      flavors.filterName := Some(text);
    case ByVcpus(lo, hi) =>
      flavors.vcpusMin := AskUserInt(lo);
      flavors.vcpusMax := AskUserInt(hi);
    case ByMemory(lo, hi) =>
      flavors.memMin := AskUserInt(lo);
      flavors.memMax := AskUserInt(hi);
  }

  /** The branch on one menu answer, on the loop's variables and the
      collection's filter fields. */
  method Answer(flavors: Flavors, sortByColumn: string, sortOrder: string, long: bool, turn: Turn)
    returns (sortByColumn': string, sortOrder': string, long': bool)
    modifies flavors
    ensures flavors.flavors == old(flavors.flavors)
    ensures Session(sortByColumn', sortOrder', long', flavors.CurrentFilters())
      == Step(Session(sortByColumn, sortOrder, long, old(flavors.CurrentFilters())), turn)
  {
    sortByColumn', sortOrder', long' := sortByColumn, sortOrder, long;
    if turn.option == "f" {
      ChangeFilter(flavors, turn.filter);
    } else if turn.option == "o" {
      sortOrder' := if sortOrder == "desc" then "asc" else "desc";
    } else if turn.option == "d" {
      long' := !long;
    } else {
      sortByColumn' := turn.option;
    }
  }

  /** The relation between a state and the table drawn in it. */
  function DrawnIn(items: seq<Flavor>): (Session, Table) -> bool
  {
    (s: Session, t: Table) => Renderable(s) && Screen(items, s) == Ok(t)
  }

  /** Read screen by screen: the `k`-th table is drawn in the `k`-th state. */
  lemma DrawnInEach(items: seq<Flavor>, shown: seq<Session>, tables: seq<Table>)
    requires Matched(DrawnIn(items), shown, tables)
    ensures |tables| == |shown|
    ensures forall k | 0 <= k < |shown| ::
      Renderable(shown[k]) && Screen(items, shown[k]) == Ok(tables[k])
  {
    MatchedEach(DrawnIn(items), shown, tables);
    forall k | 0 <= k < |shown|
      ensures Renderable(shown[k]) && Screen(items, shown[k]) == Ok(tables[k])
    {
      assert DrawnIn(items)(shown[k], tables[k]);
    }
  }

  /** The table of one pass of the loop, built with the sort column and
      order the two maps give for the current answers; it always succeeds. */
  method DrawScreen(flavors: Flavors, sortByColumn: string, sortOrder: string, long: bool)
    returns (table: Table)
    requires sortByColumn in SortColumnMap && sortOrder in SortOrderMap
    ensures Screen(flavors.flavors, Session(sortByColumn, sortOrder, long, flavors.CurrentFilters()))
      == Ok(table)
  {
    var r := CreateTable(flavors, long, SortColumnMap[sortByColumn], SortOrderMap[sortOrder]);
    ScreenNeverFails(flavors.flavors, Session(sortByColumn, sortOrder, long, flavors.CurrentFilters()));
    table := r.value;
  }

  /** `interactive`, given the answers to its prompts: the screens it draws,
      and the filters it leaves on the collection. */
  method Interactive(flavors: Flavors, turns: seq<Turn>) returns (tables: seq<Table>)
    requires forall k :: 0 <= k < |turns| ==> ValidTurn(turns[k])
    modifies flavors
    ensures flavors.flavors == old(flavors.flavors)
    ensures var shown := Rendered(InitialSession(old(flavors.CurrentFilters())), turns);
      && |tables| == |shown|
      && forall k | 0 <= k < |shown| ::
           Renderable(shown[k]) && Screen(flavors.flavors, shown[k]) == Ok(tables[k])
    ensures flavors.CurrentFilters() == Final(InitialSession(old(flavors.CurrentFilters())), turns).filters
  {
    var sortByColumn := "1";
    var sortOrder := "asc";
    var long := false;
    var userOption := "";  // no answer yet
    ghost var start := InitialSession(flavors.CurrentFilters());
    ghost var cur := start;
    var rest := turns;  // the answers not yet read
    ghost var shown: seq<Session> := [];
    ghost var items := flavors.flavors;
    tables := [];
    while userOption != "q"
      invariant flavors.flavors == items
      invariant cur == Session(sortByColumn, sortOrder, long, flavors.CurrentFilters())
      invariant forall k :: 0 <= k < |rest| ==> ValidTurn(rest[k])
      invariant Matched(DrawnIn(items), shown, tables)
      invariant userOption != "q" ==>
        && Renderable(cur)
        && Rendered(start, turns) == shown + Rendered(cur, rest)
        && Final(start, turns) == Final(cur, rest)
      invariant userOption == "q" ==>
        && Rendered(start, turns) == shown
        && Final(start, turns) == cur
      decreases |rest|
    {
      var table := DrawScreen(flavors, sortByColumn, sortOrder, long);
      MatchedAppend(DrawnIn(items), shown, tables, cur, table);
      tables := tables + [table];
      if rest == [] {
        assert Rendered(cur, rest) == [cur];
        shown := shown + [cur];
        break;  // no further answer: the session ends at the prompt
      }
      var turn := rest[0];
      RenderedUnfold(start, turns, shown, cur, rest);
      shown := shown + [cur];
      userOption := turn.option;
      sortByColumn, sortOrder, long := Answer(flavors, sortByColumn, sortOrder, long, turn);
      if userOption != "q" {
        StepKeepsRenderable(cur, turn);
      }
      cur := Step(cur, turn);
      rest := rest[1..];
    }
    DrawnInEach(items, shown, tables);
  }

  /** One line of batch output: `json.dumps` or `asdict` of one record (the
      serialisation itself is not modelled). */
  datatype Line = JsonLine(record: Flavor) | TextLine(record: Flavor)

  /** The batch listing: one line per element of `list_flavors`, unsorted. */
  method PrintListing(flavors: Flavors, json: bool) returns (lines: seq<Line>)
    ensures var listed := ListFlavors(flavors.flavors, flavors.CurrentFilters());
      && |lines| == |listed|
      && forall k | 0 <= k < |lines| ::
           lines[k] == if json then JsonLine(listed[k]) else TextLine(listed[k])
    ensures NoDuplicates(lines)
  {
    var listed := ListFlavors(flavors.flavors, flavors.CurrentFilters());
    lines := [];
    for k := 0 to |listed|
      invariant |lines| == k
      invariant forall j | 0 <= j < k :: lines[j] == if json then JsonLine(listed[j]) else TextLine(listed[j])
    {
      lines := lines + [if json then JsonLine(listed[k]) else TextLine(listed[k])];
    }
    forall i, j | 0 <= i < j < |lines|
      ensures lines[i] != lines[j]
    {
      assert listed[i] != listed[j];
    }
  }

  /** The parsed command line. */
  datatype Args = Args(
    output: string,
    memoryMin: Option<int>,
    memoryMax: Option<int>,
    vcpusMin: Option<int>,
    vcpusMax: Option<int>,
    name: Option<string>)

  /** The records `get_flavors` loads from the provider's records. */
  function Loaded(provided: seq<RawFlavor>): (items: seq<Flavor>)
    ensures |items| == |provided|
    ensures forall k | 0 <= k < |provided| :: items[k] == ToFlavor(provided[k])
  {
    seq(|provided|, k requires 0 <= k < |provided| => ToFlavor(provided[k]))
  }

  /** `main`, given the provider's records, the parsed command line and the
      answers to the interactive prompts: the lines printed and the screens
      drawn. The command-line bounds are used as given, without the clamp. */
  method RunMain(provided: seq<RawFlavor>, args: Args, turns: seq<Turn>)
    returns (lines: seq<Line>, tables: seq<Table>)
    requires forall k :: 0 <= k < |turns| ==> ValidTurn(turns[k])
    ensures var fs := Filters(args.name, args.vcpusMin, args.vcpusMax, args.memoryMin, args.memoryMax);
      var listed := ListFlavors(Loaded(provided), fs);
      if args.output == "json" || args.output == "text" then
        && tables == []
        && |lines| == |listed|
        && forall k | 0 <= k < |lines| ::
             lines[k] == if args.output == "json" then JsonLine(listed[k]) else TextLine(listed[k])
      else
        var shown := Rendered(InitialSession(fs), turns);
        && lines == []
        && |tables| == |shown|
        && forall k | 0 <= k < |shown| ::
             Renderable(shown[k]) && Screen(Loaded(provided), shown[k]) == Ok(tables[k])
  {
    var flavors := GetFlavors(provided);
    assert flavors.flavors == Loaded(provided);
    flavors.vcpusMin := args.vcpusMin;
    flavors.vcpusMax := args.vcpusMax;
    flavors.memMin := args.memoryMin;
    flavors.memMax := args.memoryMax;
    flavors.filterName := args.name;
    lines, tables := [], [];
    if args.output == "json" {
      lines := PrintListing(flavors, true);
    } else if args.output == "text" {
      lines := PrintListing(flavors, false);
    } else {
      tables := Interactive(flavors, turns);
    }
  }
}
