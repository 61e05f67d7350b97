/**
 The `Tabulator` builder (Tabulator.php) as pure state transformers.

 Every chainable method, which mutates `$this` and returns it, becomes a
 function from the builder state before the call to the state after it.
 */
module Tabulator {
  import opened Results
  import opened Dict
  import opened Values

  /** A column definition: `title`, `field` and any widget-specific keys. */
  type Column = Dict<Value>

  /** An inline data row: field name to value. */
  type Row = Dict<Value>

  /** The four properties of the builder: columns, options, inline data and the endpoint field. */
  datatype State = State(columns: seq<Column>, options: Dict<Value>, data: Option<seq<Row>>, ajaxUrl: string)

  /** Default arguments of the source's setters. */
  const DefaultPageSize: int := 20
  const DefaultInitialPage: int := 1
  const DefaultSortDirection: string := "asc"
  const DefaultSelectableMode: string := "highlight"
  const DefaultVertAlign: string := "top"
  const DefaultActionTitle: string := "Actions"

  /** A fresh builder: no columns, no options, no data, empty endpoint. */
  function Make(): State {
    State([], [], None, "")
  }

  // ---------------------------------------------------------------------
  // Columns
  // ---------------------------------------------------------------------

  /** The `['title' => ..., 'field' => ...]` head of every column `addColumn` creates. */
  function Head(title: string, field: string): Column {
    [("title", Str(title)), ("field", Str(field))]
  }

  /**
   `col` is what `array_merge(['title' => title, 'field' => field], opts)`
   yields: `title` and `field` come first, the keys of `opts` new to them
   follow in order, and every key of `opts` (including `title` or `field`)
   takes its value from `opts`.
   */
  ghost predicate ColumnFrom(col: Column, title: string, field: string, opts: Dict<Value>) {
    && Keys(col) == AppendNew(["title", "field"], Keys(opts))
    && forall k :: Lookup(col, k) ==
         if k in Keys(opts) then Lookup(opts, k)
         else if k == "title" then Some(Str(title))
         else if k == "field" then Some(Str(field))
         else None
  }

  /** The column `addColumn(title, field, opts)` appends. */
  function NewColumn(title: string, field: string, opts: Dict<Value>): Column {
    Merge(Head(title, field), opts)
  }

  /** The new column is `array_merge(['title' => title, 'field' => field], opts)`, key by key. */
  lemma NewColumnShape(title: string, field: string, opts: Dict<Value>)
    ensures ColumnFrom(NewColumn(title, field, opts), title, field, opts)
  {
    MergeLookups(Head(title, field), opts);
    assert Keys(Head(title, field)) == ["title", "field"];
  }

  /** When the options name neither `title` nor `field`, the new column is the head followed by the options. */
  lemma NewColumnDisjoint(title: string, field: string, opts: Dict<Value>)
    requires "title" !in Keys(opts) && "field" !in Keys(opts)
    ensures NewColumn(title, field, opts) == Head(title, field) + opts
  {
    assert Keys(Head(title, field)) == ["title", "field"];
    MergeDisjoint(Head(title, field), opts);
  }

  /**
   `addColumn`: appends one column and leaves the earlier columns, the
   options, the data and the endpoint as they were.
   */
  function AddColumn(s: State, title: string, field: string, opts: Dict<Value>): (r: State)
    ensures |r.columns| == |s.columns| + 1
    ensures r.columns[..|s.columns|] == s.columns
    ensures r.options == s.options && r.data == s.data && r.ajaxUrl == s.ajaxUrl
  {
    s.(columns := s.columns + [NewColumn(title, field, opts)])
  }

  /**
   `addColumn` appends one column that holds `title` and `field` unless
   `opts` supplies those keys, in which case the caller's values win, plus
   every key of `opts`; earlier columns and all other state are unchanged.
   */
  lemma AddColumnAppends(s: State, title: string, field: string, opts: Dict<Value>)
    ensures var r := AddColumn(s, title, field, opts);
      && r.columns[..|s.columns|] == s.columns
      && ColumnFrom(r.columns[|s.columns|], title, field, opts)
  {
    NewColumnShape(title, field, opts);
  }

  /** One entry of the list `addColumns` takes; any of its keys may be missing. */
  datatype ColumnSpec = ColumnSpec(title: Option<string>, field: Option<string>, options: Option<Dict<Value>>) {

    /** Both required keys are present. */
    predicate Complete() {
      title.Some? && field.Some?
    }
  }

  /**
   A missing `title` or `field` in entry `index` makes the source pass
   `null` to `addColumn`'s string parameter, a `TypeError`; the columns of
   the entries before it have already been appended by then (`partial`).
   */
  datatype ColumnsError = MissingKey(index: nat, key: string, partial: State)

  /** The column an entry describes, with a missing `options` read as `[]`. */
  function SpecColumn(c: ColumnSpec): Column
    requires c.Complete()
  {
    NewColumn(c.title.value, c.field.value, c.options.GetOr([]))
  }

  /** The first `n` entries all have `title` and `field`. */
  predicate CompleteUpTo(specs: seq<ColumnSpec>, n: nat)
    requires n <= |specs|
  {
    forall i :: 0 <= i < n ==> specs[i].Complete()
  }

  /** The columns the first `n` entries describe, one per entry, in order. */
  function SpecColumns(specs: seq<ColumnSpec>, n: nat): (cols: seq<Column>)
    requires n <= |specs| && CompleteUpTo(specs, n)
    ensures |cols| == n
    decreases n
  {
    if n == 0 then [] else SpecColumns(specs, n - 1) + [SpecColumn(specs[n - 1])]
  }

  /** Entry `i` describes column `i`: a missing `options` entry is read as no options. */
  lemma {:induction false} SpecColumnsAt(specs: seq<ColumnSpec>, n: nat, i: nat)
    requires n <= |specs| && CompleteUpTo(specs, n)
    requires i < n
    ensures SpecColumns(specs, n)[i] == SpecColumn(specs[i])
    decreases n
  {
    if i < n - 1 {
      SpecColumnsAt(specs, n - 1, i);
    }
  }

  /** `addColumn` called with a complete entry's title, field and options. */
  function AddSpec(st: State, c: ColumnSpec): (r: State)
    requires c.Complete()
    ensures r.columns == st.columns + [SpecColumn(c)]
    ensures r.options == st.options && r.data == st.data && r.ajaxUrl == st.ajaxUrl
  {
    AddColumn(st, c.title.value, c.field.value, c.options.GetOr([]))
  }

  /** One more complete entry appends its column after those of the entries before it. */
  lemma SpecColumnsStep(prefix: seq<Column>, specs: seq<ColumnSpec>, i: nat)
    requires i < |specs| && CompleteUpTo(specs, i) && specs[i].Complete()
    ensures CompleteUpTo(specs, i + 1)
    ensures prefix + SpecColumns(specs, i) + [SpecColumn(specs[i])] == prefix + SpecColumns(specs, i + 1)
  {
    assert prefix + SpecColumns(specs, i) + [SpecColumn(specs[i])] == prefix + (SpecColumns(specs, i) + [SpecColumn(specs[i])]);
  }

  /**
   `addColumns`: adds the entries in order. It fails on the first entry
   missing `title` (checked first) or `field`, reporting the state reached
   by the entries before it.
   */
  method AddColumns(s: State, specs: seq<ColumnSpec>) returns (r: Result<State, ColumnsError>)
    ensures r.Success? <==> (forall i :: 0 <= i < |specs| ==> specs[i].Complete())
    ensures r.Success? ==> (CompleteUpTo(specs, |specs|) && r.value.columns == s.columns + SpecColumns(specs, |specs|))
    ensures r.Success? ==> (r.value.options == s.options && r.value.data == s.data && r.value.ajaxUrl == s.ajaxUrl)
    ensures r.Failure? ==> (r.error.index < |specs| && !specs[r.error.index].Complete())
    ensures r.Failure? ==> r.error.key == (if specs[r.error.index].title.None? then "title" else "field")
    ensures r.Failure? ==>
              (CompleteUpTo(specs, r.error.index)
               && r.error.partial.columns == s.columns + SpecColumns(specs, r.error.index))
    ensures r.Failure? ==>
              (r.error.partial.options == s.options && r.error.partial.data == s.data
               && r.error.partial.ajaxUrl == s.ajaxUrl)
  {
    var st := s;
    var i := 0;
    while i < |specs|
      invariant 0 <= i <= |specs|
      invariant CompleteUpTo(specs, i)
      invariant st.columns == s.columns + SpecColumns(specs, i)
      invariant st.options == s.options && st.data == s.data && st.ajaxUrl == s.ajaxUrl
    {
      var c := specs[i];
      if c.title.None? || c.field.None? {
        return Failure(MissingKey(i, if c.title.None? then "title" else "field", st));
      }
      SpecColumnsStep(s.columns, specs, i);
      st := AddSpec(st, c);
      i := i + 1;
    }
    return Success(st);
  }

  /**
   `withColumnOptions`: merges `opts` into the last column. With no columns
   it changes nothing; otherwise the column count and every other column
   stay, and in the last column the keys of `opts` take their new values
   while its other keys keep theirs and its existing keys keep their places.
   */
  function WithColumnOptions(s: State, opts: Dict<Value>): (r: State)
    ensures |s.columns| == 0 ==> r == s
    ensures |r.columns| == |s.columns|
    ensures r.options == s.options && r.data == s.data && r.ajaxUrl == s.ajaxUrl
    ensures forall i :: 0 <= i < |s.columns| - 1 ==> r.columns[i] == s.columns[i]
    ensures |s.columns| > 0 ==>
              var before := s.columns[|s.columns| - 1];
              var after := r.columns[|s.columns| - 1];
              && Keys(after) == AppendNew(Keys(before), Keys(opts))
              && forall k :: Lookup(after, k) == if k in Keys(opts) then Lookup(opts, k) else Lookup(before, k)
  {
    if |s.columns| == 0 then s
    else
      var n := |s.columns| - 1;
      MergeLookups(s.columns[n], opts);
      s.(columns := s.columns[n := Merge(s.columns[n], opts)])
  }

  // ---------------------------------------------------------------------
  // Data and endpoint
  // ---------------------------------------------------------------------

  /** `data`: stores the rows, replacing any earlier rows; nothing else changes. */
  function Data(s: State, rows: seq<Row>): (r: State)
    ensures r.data == Some(rows)
    ensures r.columns == s.columns && r.options == s.options && r.ajaxUrl == s.ajaxUrl
  {
    s.(data := Some(rows))
  }

  // ---------------------------------------------------------------------
  // Options
  // ---------------------------------------------------------------------

  /**
   `r` differs from `s` only in the option keys in `written`: columns, data
   and endpoint are the same, every other key keeps its value, and the keys
   already present keep their positions.
   */
  ghost predicate WritesOnly(s: State, r: State, written: set<string>) {
    && r.columns == s.columns && r.data == s.data && r.ajaxUrl == s.ajaxUrl
    && Keys(s.options) <= Keys(r.options)
    && forall k {:trigger Lookup(r.options, k)} :: k !in written ==> Lookup(r.options, k) == Lookup(s.options, k)
  }

  /** Two writes in a row write the union of their keys. */
  lemma WritesOnlyCompose(s: State, m: State, r: State, w1: set<string>, w2: set<string>)
    requires WritesOnly(s, m, w1) && WritesOnly(m, r, w2)
    ensures WritesOnly(s, r, w1 + w2)
  {
  }

  /** `option`: writes one key, last write wins, and touches nothing else. */
  function SetOption(s: State, key: string, value: Value): (r: State)
    ensures Lookup(r.options, key) == Some(value)
    ensures forall k {:trigger Lookup(r.options, k)} :: k != key ==> Lookup(r.options, k) == Lookup(s.options, k)
    ensures WritesOnly(s, r, {key})
  {
    PutLookups(s.options, key, value);
    s.(options := Put(s.options, key, value))
  }

  /** Two writes to different keys: both hold afterwards, and nothing else is written. */
  lemma TwoWrites(s: State, k1: string, v1: Value, k2: string, v2: Value)
    requires k1 != k2
    ensures var r := SetOption(SetOption(s, k1, v1), k2, v2);
      && Lookup(r.options, k1) == Some(v1) && Lookup(r.options, k2) == Some(v2)
      && WritesOnly(s, r, {k1, k2})
  {
    var s1 := SetOption(s, k1, v1);
    WritesOnlyCompose(s, s1, SetOption(s1, k2, v2), {k1}, {k2});
    assert {k1} + {k2} == {k1, k2};
  }

  /** A third write after two others: together they write exactly the three keys. */
  lemma ThirdWrite(s: State, m: State, k1: string, k2: string, k3: string, v3: Value)
    requires WritesOnly(s, m, {k1, k2})
    ensures WritesOnly(s, SetOption(m, k3, v3), {k1, k2, k3})
  {
    WritesOnlyCompose(s, m, SetOption(m, k3, v3), {k1, k2}, {k3});
    assert {k1, k2} + {k3} == {k1, k2, k3};
  }

  /** Three writes to different keys: all hold afterwards, and nothing else is written. */
  lemma ThreeWrites(s: State, k1: string, v1: Value, k2: string, v2: Value, k3: string, v3: Value)
    requires k1 != k2 && k1 != k3 && k2 != k3
    ensures var r := SetOption(SetOption(SetOption(s, k1, v1), k2, v2), k3, v3);
      && Lookup(r.options, k1) == Some(v1) && Lookup(r.options, k2) == Some(v2) && Lookup(r.options, k3) == Some(v3)
      && WritesOnly(s, r, {k1, k2, k3})
  {
    TwoWrites(s, k1, v1, k2, v2);
    ThirdWrite(s, SetOption(SetOption(s, k1, v1), k2, v2), k1, k2, k3, v3);
  }

  /** `ajaxUrl`: sets the endpoint field and the `ajaxURL` option to the same string. */
  function AjaxUrl(s: State, url: string): (r: State)
    ensures r.ajaxUrl == url
    ensures Lookup(r.options, "ajaxURL") == Some(Str(url))
    ensures WritesOnly(s, r.(ajaxUrl := s.ajaxUrl), {"ajaxURL"})
  {
    SetOption(s, "ajaxURL", Str(url)).(ajaxUrl := url)
  }

  /** `layoutFitColumns`. */
  function LayoutFitColumns(s: State): (r: State)
    ensures Lookup(r.options, "layout") == Some(Str("fitColumns"))
    ensures WritesOnly(s, r, {"layout"})
  {
    SetOption(s, "layout", Str("fitColumns"))
  }

  /** `layoutFitData`. */
  function LayoutFitData(s: State): (r: State)
    ensures Lookup(r.options, "layout") == Some(Str("fitData"))
    ensures WritesOnly(s, r, {"layout"})
  {
    SetOption(s, "layout", Str("fitData"))
  }

  /** `layoutFitDataFill`. */
  function LayoutFitDataFill(s: State): (r: State)
    ensures Lookup(r.options, "layout") == Some(Str("fitDataFill"))
    ensures WritesOnly(s, r, {"layout"})
  {
    SetOption(s, "layout", Str("fitDataFill"))
  }

  /** `paginationLocal(size, page)`: local paging; the `ajaxURL` option is not touched. */
  function PaginationLocal(s: State, size: int, page: int): (r: State)
    ensures Lookup(r.options, "pagination") == Some(Str("local"))
    ensures Lookup(r.options, "paginationSize") == Some(Int(size))
    ensures Lookup(r.options, "paginationInitialPage") == Some(Int(page))
    ensures WritesOnly(s, r, {"pagination", "paginationSize", "paginationInitialPage"})
  {
    ThreeWrites(s, "pagination", Str("local"), "paginationSize", Int(size), "paginationInitialPage", Int(page));
    SetOption(SetOption(SetOption(s, "pagination", Str("local")), "paginationSize", Int(size)), "paginationInitialPage", Int(page))
  }

  /**
   `paginationRemote(url, size)`: remote paging from `url`, written to the
   `ajaxURL` option only; the endpoint field keeps its old value.
   */
  function PaginationRemote(s: State, url: string, size: int): (r: State)
    ensures Lookup(r.options, "pagination") == Some(Str("remote"))
    ensures Lookup(r.options, "paginationSize") == Some(Int(size))
    ensures Lookup(r.options, "ajaxURL") == Some(Str(url))
    ensures WritesOnly(s, r, {"pagination", "paginationSize", "ajaxURL"})
  {
    ThreeWrites(s, "pagination", Str("remote"), "paginationSize", Int(size), "ajaxURL", Str(url));
    SetOption(SetOption(SetOption(s, "pagination", Str("remote")), "paginationSize", Int(size)), "ajaxURL", Str(url))
  }

  /** `sortable`. */
  function Sortable(s: State, enabled: bool): (r: State)
    ensures Lookup(r.options, "sortable") == Some(Bool(enabled))
    ensures WritesOnly(s, r, {"sortable"})
  {
    SetOption(s, "sortable", Bool(enabled))
  }

  /** The `['column' => ..., 'dir' => ...]` entry of an initial sort. */
  function SortEntry(field: string, direction: string): Dict<Value> {
    [("column", Str(field)), ("dir", Str(direction))]
  }

  /** `initialSort`: a one-element list holding the column and the direction. */
  function InitialSort(s: State, field: string, direction: string): (r: State)
    ensures Lookup(r.options, "initialSort") == Some(List([Obj(SortEntry(field, direction))]))
    ensures WritesOnly(s, r, {"initialSort"})
  {
    SetOption(s, "initialSort", List([Obj(SortEntry(field, direction))]))
  }

  /** `headerFilters`. */
  function HeaderFilters(s: State, enabled: bool): (r: State)
    ensures Lookup(r.options, "headerFilter") == Some(Bool(enabled))
    ensures WritesOnly(s, r, {"headerFilter"})
  {
    SetOption(s, "headerFilter", Bool(enabled))
  }

  /** `responsiveLayout`. */
  function ResponsiveLayout(s: State, enabled: bool): (r: State)
    ensures Lookup(r.options, "responsiveLayout") == Some(Bool(enabled))
    ensures WritesOnly(s, r, {"responsiveLayout"})
  {
    SetOption(s, "responsiveLayout", Bool(enabled))
  }

  /** `responsiveLayoutCollapseStartOpen`. */
  function ResponsiveLayoutCollapseStartOpen(s: State, enabled: bool): (r: State)
    ensures Lookup(r.options, "responsiveLayoutCollapseStartOpen") == Some(Bool(enabled))
    ensures WritesOnly(s, r, {"responsiveLayoutCollapseStartOpen"})
  {
    SetOption(s, "responsiveLayoutCollapseStartOpen", Bool(enabled))
  }

  /** `height`. */
  function Height(s: State, height: string): (r: State)
    ensures Lookup(r.options, "height") == Some(Str(height))
    ensures WritesOnly(s, r, {"height"})
  {
    SetOption(s, "height", Str(height))
  }

  /** `maxHeight`. */
  function MaxHeight(s: State, maxHeight: string): (r: State)
    ensures Lookup(r.options, "maxHeight") == Some(Str(maxHeight))
    ensures WritesOnly(s, r, {"maxHeight"})
  {
    SetOption(s, "maxHeight", Str(maxHeight))
  }

  /** `selectable`: writes exactly `selectable` and `selectableRangeMode`. */
  function Selectable(s: State, enabled: bool, mode: string): (r: State)
    ensures Lookup(r.options, "selectable") == Some(Bool(enabled))
    ensures Lookup(r.options, "selectableRangeMode") == Some(Str(mode))
    ensures WritesOnly(s, r, {"selectable", "selectableRangeMode"})
  {
    TwoWrites(s, "selectable", Bool(enabled), "selectableRangeMode", Str(mode));
    SetOption(SetOption(s, "selectable", Bool(enabled)), "selectableRangeMode", Str(mode))
  }

  /** `tooltips`. */
  function Tooltips(s: State, enabled: bool): (r: State)
    ensures Lookup(r.options, "tooltips") == Some(Bool(enabled))
    ensures WritesOnly(s, r, {"tooltips"})
  {
    SetOption(s, "tooltips", Bool(enabled))
  }

  /** `movableColumns`. */
  function MovableColumns(s: State, enabled: bool): (r: State)
    ensures Lookup(r.options, "movableColumns") == Some(Bool(enabled))
    ensures WritesOnly(s, r, {"movableColumns"})
  {
    SetOption(s, "movableColumns", Bool(enabled))
  }

  /** `resizableColumns`. */
  function ResizableColumns(s: State, enabled: bool): (r: State)
    ensures Lookup(r.options, "resizableColumns") == Some(Bool(enabled))
    ensures WritesOnly(s, r, {"resizableColumns"})
  {
    SetOption(s, "resizableColumns", Bool(enabled))
  }

  /** `columnHeaderVertAlign`. */
  function ColumnHeaderVertAlign(s: State, align: string): (r: State)
    ensures Lookup(r.options, "columnHeaderVertAlign") == Some(Str(align))
    ensures WritesOnly(s, r, {"columnHeaderVertAlign"})
  {
    SetOption(s, "columnHeaderVertAlign", Str(align))
  }

  // ---------------------------------------------------------------------
  // Export
  // ---------------------------------------------------------------------

  /** PHP finds the inline data truthy: it was set and is not the empty array. */
  predicate HasData(s: State) {
    s.data.Some? && |s.data.value| > 0
  }

  /** A list of PHP arrays as a list value. */
  function Objects(ds: seq<Dict<Value>>): seq<Value> {
    seq(|ds|, i requires 0 <= i < |ds| => Obj(ds[i]))
  }

  /** The `$config` array `toArray` builds before merging the options over it. */
  function Base(s: State): Dict<Value> {
    if HasData(s) then [("columns", List(Objects(s.columns))), ("data", List(Objects(s.data.value)))]
    else [("columns", List(Objects(s.columns)))]
  }

  /** `toArray`: `columns`, then `data` when truthy, with the options merged on top. */
  function ToArray(s: State): Dict<Value> {
    Merge(Base(s), s.options)
  }

  /** The keys `toArray` always starts from. */
  function BaseKeys(s: State): seq<string> {
    if HasData(s) then ["columns", "data"] else ["columns"]
  }

  /**
   What `toArray` exports: `columns` is always the first key; `data`
   appears only for truthy data or when an option is named `data`; an
   option named `columns` or `data` overrides the built-in entry; every
   other key is exactly an option, in the options' order.
   */
  lemma ToArrayShape(s: State)
    ensures var r := ToArray(s);
      && Keys(r) == AppendNew(BaseKeys(s), Keys(s.options))
      && |Keys(r)| > 0 && Keys(r)[0] == "columns"
      && ("data" in Keys(r) <==> HasData(s) || "data" in Keys(s.options))
      && forall k :: Lookup(r, k) ==
           if k in Keys(s.options) then Lookup(s.options, k)
           else if k == "columns" then Some(List(Objects(s.columns)))
           else if k == "data" && HasData(s) then Some(List(Objects(s.data.value)))
           else None
  {
    var b := Base(s);
    assert Keys(b) == BaseKeys(s);
    MergeLookups(b, s.options);
    AppendNewPrefix(BaseKeys(s), Keys(s.options));
  }

  // ---------------------------------------------------------------------
  // Quick column types
  // ---------------------------------------------------------------------

  /**
   When the options name neither `title` nor `field`, `addColumn` appends
   the head followed by the options, in that order.
   */
  lemma AddColumnDisjoint(s: State, title: string, field: string, opts: Dict<Value>)
    requires "title" !in Keys(opts) && "field" !in Keys(opts)
    ensures AddColumn(s, title, field, opts).columns == s.columns + [Head(title, field) + opts]
  {
    NewColumnDisjoint(title, field, opts);
  }

  /** A two-element head followed by a literal list of options is one literal list. */
  lemma HeadThen<T>(x: T, y: T, rest: seq<T>)
    ensures |rest| == 2 ==> [x, y] + rest == [x, y, rest[0], rest[1]]
    ensures |rest| == 3 ==> [x, y] + rest == [x, y, rest[0], rest[1], rest[2]]
    ensures |rest| == 4 ==> [x, y] + rest == [x, y, rest[0], rest[1], rest[2], rest[3]]
  {
  }

  /** The options `addTextColumn` passes to `addColumn`. */
  function TextOptions(sortable: bool, filterable: bool): Dict<Value> {
    [("sortable", Bool(sortable)), ("headerFilter", if filterable then Str("input") else Bool(false))]
  }

  /** `addTextColumn`. */
  function AddTextColumn(s: State, title: string, field: string, sortable: bool, filterable: bool): State {
    AddColumn(s, title, field, TextOptions(sortable, filterable))
  }

  /**
   `addTextColumn` appends exactly `title`, `field`, `sortable` and a
   `headerFilter` that is `'input'` when filterable and `false` otherwise.
   */
  lemma AddTextColumnShape(s: State, title: string, field: string, sortable: bool, filterable: bool)
    ensures var r := AddTextColumn(s, title, field, sortable, filterable);
      var want: seq<(string, Value)> := [("title", Str(title)), ("field", Str(field)), ("sortable", Bool(sortable)),
       ("headerFilter", if filterable then Str("input") else Bool(false))];
      r.columns == s.columns + [want]
  {
    var opts := TextOptions(sortable, filterable);
    assert Keys(opts) == [opts[0].0, opts[1].0];
    AddColumnDisjoint(s, title, field, opts);
    var want: seq<(string, Value)> := [("title", Str(title)), ("field", Str(field)), ("sortable", Bool(sortable)),
       ("headerFilter", if filterable then Str("input") else Bool(false))];
    HeadThen(("title", Str(title)), ("field", Str(field)), opts);
  }

  /** The options `addNumberColumn` passes to `addColumn`. */
  function NumberOptions(sortable: bool, filterable: bool): Dict<Value> {
    [("sortable", Bool(sortable)), ("headerFilter", if filterable then Str("number") else Bool(false)),
     ("sorter", Str("number"))]
  }

  /** `addNumberColumn`. */
  function AddNumberColumn(s: State, title: string, field: string, sortable: bool, filterable: bool): State {
    AddColumn(s, title, field, NumberOptions(sortable, filterable))
  }

  /**
   `addNumberColumn` appends `title`, `field`, `sortable`, a `headerFilter`
   that is `'number'` when filterable and `false` otherwise, and a numeric
   `sorter`.
   */
  lemma AddNumberColumnShape(s: State, title: string, field: string, sortable: bool, filterable: bool)
    ensures var r := AddNumberColumn(s, title, field, sortable, filterable);
      var want: seq<(string, Value)> := [("title", Str(title)), ("field", Str(field)), ("sortable", Bool(sortable)),
       ("headerFilter", if filterable then Str("number") else Bool(false)), ("sorter", Str("number"))];
      r.columns == s.columns + [want]
  {
    var opts := NumberOptions(sortable, filterable);
    assert Keys(opts) == [opts[0].0, opts[1].0, opts[2].0];
    AddColumnDisjoint(s, title, field, opts);
    var want: seq<(string, Value)> := [("title", Str(title)), ("field", Str(field)), ("sortable", Bool(sortable)),
       ("headerFilter", if filterable then Str("number") else Bool(false)), ("sorter", Str("number"))];
    HeadThen(("title", Str(title)), ("field", Str(field)), opts);
  }

  /** `array_combine($vs, $vs)` written onto `acc`, one assignment per value, in order. */
  function CombineOnto(acc: Dict<Value>, vs: seq<string>): Dict<Value>
    decreases |vs|
  {
    if |vs| == 0 then acc else CombineOnto(Put(acc, vs[0], Str(vs[0])), vs[1..])
  }

  /** Each value written maps to itself; keys keep their first position. */
  lemma {:induction false} CombineOntoShape(acc: Dict<Value>, vs: seq<string>)
    ensures Keys(CombineOnto(acc, vs)) == AppendNew(Keys(acc), vs)
    ensures forall k :: Lookup(CombineOnto(acc, vs), k) == if k in vs then Some(Str(k)) else Lookup(acc, k)
    decreases |vs|
  {
    if |vs| > 0 {
      var acc' := Put(acc, vs[0], Str(vs[0]));
      CombineOntoShape(acc', vs[1..]);
      PutLookups(acc, vs[0], Str(vs[0]));
      forall k
        ensures Lookup(CombineOnto(acc, vs), k) == if k in vs then Some(Str(k)) else Lookup(acc, k)
      {
        assert k in vs <==> k == vs[0] || k in vs[1..];
      }
    }
  }

  /** `array_combine($vs, $vs)`: the identity map on the given values. */
  function IdentityMap(vs: seq<string>): Dict<Value> {
    CombineOnto([], vs)
  }

  /**
   The identity map sends each given value to itself and nothing else; its
   keys are the given values with duplicates collapsed, in order of first
   appearance, so there are never more keys than values.
   */
  lemma IdentityMapShape(vs: seq<string>)
    ensures forall k :: Lookup(IdentityMap(vs), k) == if k in vs then Some(Str(k)) else None
    ensures forall k :: k in Keys(IdentityMap(vs)) <==> k in vs
    ensures Keys(IdentityMap(vs)) == AppendNew([], vs)
    ensures |Keys(IdentityMap(vs))| <= |vs|
  {
    CombineOntoShape([], vs);
    AppendNewLength([], vs);
  }

  /** The options `addSelectColumn` passes to `addColumn`. */
  function SelectOptions(values: seq<string>, sortable: bool): Dict<Value> {
    [("sortable", Bool(sortable)), ("headerFilter", Bool(true)),
     ("headerFilterParams", Obj(Singleton("values", Obj(IdentityMap(values)))))]
  }

  /** `addSelectColumn`. */
  function AddSelectColumn(s: State, title: string, field: string, values: seq<string>, sortable: bool): State {
    AddColumn(s, title, field, SelectOptions(values, sortable))
  }

  /**
   `addSelectColumn` appends `title`, `field`, `sortable`, an enabled
   `headerFilter`, and `headerFilterParams.values` holding the identity map
   of the given values.
   */
  lemma AddSelectColumnShape(s: State, title: string, field: string, values: seq<string>, sortable: bool)
    ensures var r := AddSelectColumn(s, title, field, values, sortable);
      var want: seq<(string, Value)> := [("title", Str(title)), ("field", Str(field)), ("sortable", Bool(sortable)), ("headerFilter", Bool(true)),
       ("headerFilterParams", Obj(Singleton("values", Obj(IdentityMap(values)))))];
      r.columns == s.columns + [want]
    ensures forall k :: Lookup(IdentityMap(values), k) == if k in values then Some(Str(k)) else None
  {
    var opts := SelectOptions(values, sortable);
    assert Keys(opts) == [opts[0].0, opts[1].0, opts[2].0];
    AddColumnDisjoint(s, title, field, opts);
    var want: seq<(string, Value)> := [("title", Str(title)), ("field", Str(field)), ("sortable", Bool(sortable)), ("headerFilter", Bool(true)),
       ("headerFilterParams", Obj(Singleton("values", Obj(IdentityMap(values)))))];
    HeadThen(("title", Str(title)), ("field", Str(field)), opts);
    IdentityMapShape(values);
  }

  /** The options `addCheckboxColumn` passes to `addColumn`. */
  function CheckboxOptions(sortable: bool): Dict<Value> {
    [("formatter", Str("tickCross")), ("sortable", Bool(sortable)), ("headerFilter", Str("tickCross")),
     ("headerFilterParams", Obj(Singleton("tristate", Bool(true))))]
  }

  /** `addCheckboxColumn`. */
  function AddCheckboxColumn(s: State, title: string, field: string, sortable: bool): State {
    AddColumn(s, title, field, CheckboxOptions(sortable))
  }

  /**
   `addCheckboxColumn` appends `title`, `field`, a tick/cross formatter and
   header filter with tristate filtering, and `sortable`.
   */
  lemma AddCheckboxColumnShape(s: State, title: string, field: string, sortable: bool)
    ensures var r := AddCheckboxColumn(s, title, field, sortable);
      var want: seq<(string, Value)> := [("title", Str(title)), ("field", Str(field)), ("formatter", Str("tickCross")), ("sortable", Bool(sortable)),
       ("headerFilter", Str("tickCross")), ("headerFilterParams", Obj(Singleton("tristate", Bool(true))))];
      r.columns == s.columns + [want]
  {
    var opts := CheckboxOptions(sortable);
    assert Keys(opts) == [opts[0].0, opts[1].0, opts[2].0, opts[3].0];
    AddColumnDisjoint(s, title, field, opts);
    var want: seq<(string, Value)> := [("title", Str(title)), ("field", Str(field)), ("formatter", Str("tickCross")), ("sortable", Bool(sortable)),
       ("headerFilter", Str("tickCross")), ("headerFilterParams", Obj(Singleton("tristate", Bool(true))))];
    HeadThen(("title", Str(title)), ("field", Str(field)), opts);
  }

  /** Replacing the third of seven elements. */
  lemma UpdateThird<T>(x0: T, x1: T, x2: T, x3: T, x4: T, x5: T, x6: T, y: T)
    ensures [x0, x1, x2, x3, x4, x5, x6][2 := y] == [x0, x1, y, x3, x4, x5, x6]
  {
  }

  /** The `formatter` of an action column: the callable when supplied, `'html'` otherwise. */
  function ActionFormatter(formatter: Option<nat>): Value {
    match formatter
    case Some(f) => Callback(f)
    case None => Str("html")
  }

  /** The fixed array `addActionColumn` starts from. */
  function ActionDefaults(title: string): Column {
    [("title", Str(title)), ("field", Str("actions")), ("formatter", Str("html")), ("sortable", Bool(false)),
     ("headerFilter", Bool(false)), ("resizable", Bool(false)), ("width", Int(100))]
  }

  /** `addActionColumn`: appended directly, with the callable written over the default formatter. */
  function AddActionColumn(s: State, title: string, formatter: Option<nat>): State {
    var col := match formatter
      case Some(f) => Put(ActionDefaults(title), "formatter", Callback(f))
      case None => ActionDefaults(title);
    s.(columns := s.columns + [col])
  }

  /**
   `addActionColumn` appends one column with `field = 'actions'`, not
   sortable, filterable or resizable, 100 wide, whose `formatter` is the
   supplied callable or else `'html'`, still in third position; nothing
   else changes.
   */
  lemma AddActionColumnShape(s: State, title: string, formatter: Option<nat>)
    ensures var r := AddActionColumn(s, title, formatter);
      var want: seq<(string, Value)> :=
        [("title", Str(title)), ("field", Str("actions")), ("formatter", ActionFormatter(formatter)),
         ("sortable", Bool(false)), ("headerFilter", Bool(false)), ("resizable", Bool(false)), ("width", Int(100))];
      r.columns == s.columns + [want]
      && r.options == s.options && r.data == s.data && r.ajaxUrl == s.ajaxUrl
  {
    var d := ActionDefaults(title);
    var f := ("formatter", ActionFormatter(formatter));
    var col := match formatter
      case Some(g) => Put(d, "formatter", Callback(g))
      case None => d;
    assert AddActionColumn(s, title, formatter).columns == s.columns + [col];
    if formatter.Some? {
      assert d[2].0 == "formatter";
      PutAt(d, 2, Callback(formatter.value));
    }
    assert col == d[2 := f];
    UpdateThird(d[0], d[1], d[2], d[3], d[4], d[5], d[6], f);
  }
}
