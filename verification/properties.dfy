/** Properties of sequences of builder calls. */
module TabulatorProperties {
  import opened Results
  import opened Dict
  import opened Values
  import opened Tabulator

  /** Writing the same option twice leaves the builder as if only the second write happened. */
  lemma OptionLastWriteWins(s: State, key: string, v1: Value, v2: Value)
    ensures SetOption(SetOption(s, key, v1), key, v2) == SetOption(s, key, v2)
  {
    PutTwice(s.options, key, v1, v2);
  }

  /**
   A layout setter overrides whatever `layout` was written before it,
   whether by `option` or by another layout setter: the later call wins
   and leaves no trace of the earlier one.
   */
  lemma LayoutLastCallWins(s: State, earlier: Value)
    ensures LayoutFitColumns(SetOption(s, "layout", earlier)) == LayoutFitColumns(s)
    ensures LayoutFitData(SetOption(s, "layout", earlier)) == LayoutFitData(s)
    ensures LayoutFitDataFill(SetOption(s, "layout", earlier)) == LayoutFitDataFill(s)
  {
    OptionLastWriteWins(s, "layout", earlier, Str("fitColumns"));
    OptionLastWriteWins(s, "layout", earlier, Str("fitData"));
    OptionLastWriteWins(s, "layout", earlier, Str("fitDataFill"));
  }

  /** Three single appends are one append of three. */
  lemma SnocThree<T>(xs: seq<T>, a: T, b: T, c: T)
    ensures xs + [a] + [b] + [c] == xs + [a, b, c]
  {
  }

  /** Three assignments of keys not yet present append the three pairs in order. */
  lemma PutNewThree(d: Dict<Value>, a: (string, Value), b: (string, Value), c: (string, Value))
    requires a.0 != b.0 && a.0 != c.0 && b.0 != c.0
    requires a.0 !in Keys(d) && b.0 !in Keys(d) && c.0 !in Keys(d)
    ensures Put(Put(Put(d, a.0, a.1), b.0, b.1), c.0, c.1) == d + [a, b, c]
  {
    var d1 := Put(d, a.0, a.1);
    PutNew(d, a.0, a.1);
    assert b.0 !in Keys(d1) && c.0 !in Keys(d1);
    var d2 := Put(d1, b.0, b.1);
    PutNew(d1, b.0, b.1);
    assert c.0 !in Keys(d2);
    PutNew(d2, c.0, c.1);
    SnocThree(d, a, b, c);
  }

  /**
   When none of its three keys is set yet, `paginationLocal` appends them to
   the options in call order and changes nothing else.
   */
  lemma PaginationLocalAppends(s: State, size: int, page: int)
    requires "pagination" !in Keys(s.options)
    requires "paginationSize" !in Keys(s.options)
    requires "paginationInitialPage" !in Keys(s.options)
    ensures var r := PaginationLocal(s, size, page);
      && r.options == s.options + [("pagination", Str("local")), ("paginationSize", Int(size)), ("paginationInitialPage", Int(page))]
      && r.columns == s.columns && r.data == s.data && r.ajaxUrl == s.ajaxUrl
  {
    PutNewThree(s.options, ("pagination", Str("local")), ("paginationSize", Int(size)), ("paginationInitialPage", Int(page)));
  }

  /**
   A builder with no columns and no truthy data (none, or the empty array)
   exports an empty `columns` list followed by its options, when none of
   them is named `columns`.
   */
  lemma EmptyExport(s: State)
    requires s.columns == [] && !HasData(s) && "columns" !in Keys(s.options)
    ensures ToArray(s) == [("columns", List([]))] + s.options
  {
    var base := Base(s);
    assert Objects(s.columns) == [];
    assert base == [("columns", List([]))];
    assert Keys(base) == ["columns"];
    MergeDisjoint(base, s.options);
  }

  /** The export of a fresh builder that holds only the three local pagination options. */
  lemma LocalOptionsExport(s: State, size: int, page: int)
    requires s.columns == [] && s.data == None
    requires s.options == [("pagination", Str("local")), ("paginationSize", Int(size)), ("paginationInitialPage", Int(page))]
    ensures ToArray(s) == [("columns", List([])), ("pagination", Str("local")), ("paginationSize", Int(size)),
                           ("paginationInitialPage", Int(page))]
  {
    assert Keys(s.options) == [s.options[0].0, s.options[1].0, s.options[2].0];
    EmptyExport(s);
  }

  /**
   `make()->paginationLocal(size, page)->toArray()` is exactly `columns`
   (empty), `pagination = 'local'`, `paginationSize` and
   `paginationInitialPage`: no `ajaxURL` and no `data` key.
   */
  lemma LocalPaginationExport(size: int, page: int)
    ensures ToArray(PaginationLocal(Make(), size, page))
         == [("columns", List([])), ("pagination", Str("local")), ("paginationSize", Int(size)),
             ("paginationInitialPage", Int(page))]
  {
    PaginationLocalAppends(Make(), size, page);
    LocalOptionsExport(PaginationLocal(Make(), size, page), size, page);
  }

  /**
   After `data(rows)`, `toArray` has a `data` key exactly when the rows are
   non-empty or an option is named `data`; without such an option it holds
   the rows themselves.
   */
  lemma DataExport(s: State, rows: seq<Row>)
    ensures var r := ToArray(Data(s, rows));
      && ("data" in Keys(r) <==> |rows| > 0 || "data" in Keys(s.options))
      && ("data" !in Keys(s.options) && |rows| > 0 ==> Lookup(r, "data") == Some(List(Objects(rows))))
  {
    ToArrayShape(Data(s, rows));
  }

  /**
   `withColumnOptions(o2)` straight after `addColumn(title, field, o1)` is
   the same as one `addColumn` with `array_merge(o1, o2)`.
   */
  lemma ExtendAfterAdd(s: State, title: string, field: string, o1: Dict<Value>, o2: Dict<Value>)
    ensures WithColumnOptions(AddColumn(s, title, field, o1), o2) == AddColumn(s, title, field, Merge(o1, o2))
  {
    var added := AddColumn(s, title, field, o1);
    var col := NewColumn(title, field, o1);
    assert added.columns == s.columns + [col];
    assert WithColumnOptions(added, o2).columns == s.columns + [Merge(col, o2)];
    MergeAssoc(Head(title, field), o1, o2);
  }

  /**
   `paginationRemote` and `ajaxUrl` export the same `ajaxURL`, but only
   `ajaxUrl` updates the endpoint field; `paginationRemote` leaves it as it
   was.
   */
  lemma RemoteEndpointAsymmetry(s: State, url: string, size: int)
    ensures Lookup(ToArray(PaginationRemote(s, url, size)), "ajaxURL") == Some(Str(url))
    ensures Lookup(ToArray(AjaxUrl(s, url)), "ajaxURL") == Some(Str(url))
    ensures PaginationRemote(s, url, size).ajaxUrl == s.ajaxUrl
    ensures AjaxUrl(s, url).ajaxUrl == url
  {
    ToArrayShape(PaginationRemote(s, url, size));
    ToArrayShape(AjaxUrl(s, url));
  }

  /** The endpoint field is never exported: `toArray` does not read it. */
  lemma ExportIgnoresEndpointField(s: State, url: string)
    ensures ToArray(s.(ajaxUrl := url)) == ToArray(s)
  {
  }

  /** With its default arguments, `paginationLocal` shows 20 rows from page 1, and `paginationRemote` 20 rows. */
  lemma PaginationDefaults(s: State, url: string)
    ensures var r := PaginationLocal(s, DefaultPageSize, DefaultInitialPage);
      && Lookup(r.options, "paginationSize") == Some(Int(20))
      && Lookup(r.options, "paginationInitialPage") == Some(Int(1))
    ensures Lookup(PaginationRemote(s, url, DefaultPageSize).options, "paginationSize") == Some(Int(20))
  {
  }

  /** With its default direction, `initialSort(field)` sorts `field` ascending. */
  lemma InitialSortDefault(s: State, field: string)
    ensures Lookup(InitialSort(s, field, DefaultSortDirection).options, "initialSort")
         == Some(List([Obj([("column", Str(field)), ("dir", Str("asc"))])]))
  {
  }

  /** With its default arguments, `selectable()` enables selection in `highlight` range mode. */
  lemma SelectableDefaults(s: State)
    ensures var r := Selectable(s, true, DefaultSelectableMode);
      && Lookup(r.options, "selectable") == Some(Bool(true))
      && Lookup(r.options, "selectableRangeMode") == Some(Str("highlight"))
  {
  }

  /** With its default argument, `columnHeaderVertAlign()` aligns headers to the top. */
  lemma VertAlignDefault(s: State)
    ensures Lookup(ColumnHeaderVertAlign(s, DefaultVertAlign).options, "columnHeaderVertAlign") == Some(Str("top"))
  {
  }

  /**
   With its default arguments, `addActionColumn()` appends a column titled
   `Actions` whose formatter is `'html'`.
   */
  lemma ActionColumnDefaults(s: State)
    ensures AddActionColumn(s, DefaultActionTitle, None).columns
         == s.columns + [[("title", Str("Actions")), ("field", Str("actions")), ("formatter", Str("html")),
                          ("sortable", Bool(false)), ("headerFilter", Bool(false)), ("resizable", Bool(false)),
                          ("width", Int(100))]]
  {
    AddActionColumnShape(s, DefaultActionTitle, None);
  }
}
