# Tabulator builder, modelled in Dafny

`Tabulator` (Tabulator.php) is a fluent PHP builder. It collects the
configuration of a front-end data-table widget and exports it as one nested
PHP array. It keeps four properties: the column definitions, a dictionary of
widget options, optional inline data rows, and an endpoint string. Every
chainable method mutates these properties and returns `$this`. `toArray`
builds `['columns' => ...]`, adds `data` when the data is truthy, and
`array_merge`s the options on top.

The model has five modules:

- `Results` (results.dfy): the `Option` and `Result` wrappers.
- `Dict` (dict.dfy): PHP string-keyed arrays as association lists.
  - The subset type `Dict<V>` requires unique keys, as every PHP array has.
  - `Put` is `$a[$k] = $v`. A present key is overwritten where it stands; a new key is appended.
  - `Merge` is `array_merge` on string keys. It is a left fold of `Put`, so later values win and a key keeps the position where it first appeared.
- `Values` (values.dfy): the value datatype `Null | Str | Int | Float | Bool | List | Obj | Callback(id)`. `Callback` is an opaque tag for a PHP callable, which is stored and never invoked.
- `Tabulator` (tabulator.dfy): the builder.
  - The immutable record `State(columns, options, data, ajaxUrl)`.
  - Every method as a pure function from the state before the call to the state after it. `addColumns` is a method with a loop.
  - `toArray` as `ToArray`.
- `TabulatorProperties` (properties.dfy): properties of sequences of calls. Examples are "last write wins", a full export after `paginationLocal`, and `withColumnOptions` right after `addColumn`.

Design points the model makes explicit:

- **`addColumns` errors.** If an entry lacks `title` or `field`, PHP passes `null` to a `string` parameter and throws a `TypeError`. By then the earlier entries' columns are already appended. `AddColumns` returns `Failure(MissingKey(index, key, partial))`, where:
  - `index` is the first bad entry;
  - `key` is `title` when the title is missing (it is evaluated first), otherwise `field`;
  - `partial` is the state the earlier entries produced.
- **The endpoint field.** `paginationRemote` writes the `ajaxURL` option but leaves the `ajaxUrl` field as it was; only `ajaxUrl()` sets both. `toArray` never reads the field, so the difference cannot be seen in the export.
- **Falsy data.** `data([])` stores an empty list, which PHP treats as falsy. `toArray` then omits the `data` key unless an option of that name exists.

## Model

| member | source | states |
|---|---|---|
| Dict.Lookup | Tabulator.php:31 | reading `$a[$k]` finds a value exactly when `k` is a key, and the value found is the one stored with `k` |
| Dict.Put | Tabulator.php:46 | assigning an existing key keeps the key order; assigning a new key appends it at the end |
| Dict.PutLookup | Tabulator.php:171 | after `$a[$k] = $v`, `k` maps to `v` and every other key keeps its value |
| Dict.PutTwice | Tabulator.php:171 | assigning the same key twice equals assigning only the second value |
| Dict.PutNew | Tabulator.php:72-74 | assigning a key that is not present appends the pair at the end |
| Dict.PutAt | Tabulator.php:255-257 | overwriting a present key replaces the pair in its own position and nothing else |
| Dict.Merge | Tabulator.php:20-23 | the keys of `array_merge(a, b)` are the keys of `a` in order, then the keys of `b` new to `a`, in order |
| Dict.MergeLookup | Tabulator.php:20-23 | in `array_merge(a, b)` a key of `b` takes `b`'s value; any other key takes `a`'s value or is absent |
| Dict.MergeCharacterized | Tabulator.php:196 | any dictionary with those keys and those lookups is exactly `array_merge(a, b)` |
| Dict.MergeDisjoint | Tabulator.php:196 | merging dictionaries with disjoint keys concatenates them |
| Dict.MergeAssoc | Tabulator.php:180 | `array_merge` is associative |
| Dict.Extensionality | Tabulator.php:196 | two dictionaries with the same key order and the same lookups are equal |
| Dict.AppendNewFresh | Tabulator.php:196 | appending keys none of which is present is plain concatenation |
| Dict.AppendNewAssoc | Tabulator.php:180 | appending new keys in two steps equals appending them in one step |
| Tabulator.NewColumnShape | Tabulator.php:20-23 | the new column has `title` and `field` first, then the new keys of the options; a key the options supply takes the options' value, including `title` and `field` |
| Tabulator.NewColumnDisjoint | Tabulator.php:20-23 | when the options name neither `title` nor `field`, the column is the head followed by the options |
| Tabulator.Make | Tabulator.php:7-15 | no contract of its own; a fresh builder has no columns, options or data and an empty endpoint, and `LocalPaginationExport` states what it exports |
| Tabulator.AddColumn | Tabulator.php:18-26 | one column more; every earlier column, the options, the data and the endpoint are unchanged |
| Tabulator.AddColumnAppends | Tabulator.php:18-26 | the appended column is `array_merge` of the head and the options, key by key, and the earlier columns are kept |
| Tabulator.SpecColumn | Tabulator.php:31 | no contract of its own; `SpecColumnsAt` states that entry `i` yields column `i`, with a missing `options` read as `[]` |
| Tabulator.SpecColumnsAt | Tabulator.php:31 | entry `i` describes column `i`; a missing `options` entry is read as the empty array |
| Tabulator.AddColumns | Tabulator.php:28-34 | succeeds exactly when every entry has `title` and `field`, and then appends one column per entry in the entries' order and changes nothing else; otherwise it fails at the first bad entry, names the missing key (`title` when both are missing), and reports the state holding the columns of the entries before it |
| Tabulator.WithColumnOptions | Tabulator.php:176-183 | with no columns nothing changes; otherwise the count and every column but the last are kept, and the last column gains the given keys with the given values while keeping its other keys and their order |
| Tabulator.Data | Tabulator.php:37-41 | the rows replace any earlier data; nothing else changes |
| Tabulator.WritesOnlyCompose | Tabulator.php:72-74 | two writes in a row write only the union of their keys |
| Tabulator.SetOption | Tabulator.php:169-173 | `option(key, value)` makes `key` hold `value`, leaves every other option, the columns, the data and the endpoint alone, and keeps the existing keys in place |
| Tabulator.TwoWrites | Tabulator.php:137-138 | two writes to different keys both hold afterwards, and no other key is written |
| Tabulator.ThreeWrites | Tabulator.php:72-74 | three writes to different keys all hold afterwards, and no other key is written |
| Tabulator.AjaxUrl | Tabulator.php:43-48 | the endpoint field and the `ajaxURL` option both become the URL; no other option is written |
| Tabulator.LayoutFitColumns | Tabulator.php:51-55 | `layout` becomes `fitColumns`; no other option is written |
| Tabulator.LayoutFitData | Tabulator.php:57-61 | `layout` becomes `fitData`; no other option is written |
| Tabulator.LayoutFitDataFill | Tabulator.php:63-67 | `layout` becomes `fitDataFill`; no other option is written |
| Tabulator.PaginationLocal | Tabulator.php:70-76 | `pagination` is `local` and the size and initial page are set; only these three keys are written, so `ajaxURL` is untouched |
| Tabulator.PaginationRemote | Tabulator.php:78-84 | `pagination` is `remote`, the size is set and the `ajaxURL` option is the URL; only these three keys are written, and the endpoint field keeps its value |
| Tabulator.Sortable | Tabulator.php:87-91 | `sortable` holds the flag; no other option is written |
| Tabulator.InitialSort | Tabulator.php:93-99 | `initialSort` holds a one-element list with the column and the direction; no other option is written |
| Tabulator.HeaderFilters | Tabulator.php:102-106 | `headerFilter` holds the flag; no other option is written |
| Tabulator.ResponsiveLayout | Tabulator.php:109-113 | `responsiveLayout` holds the flag; no other option is written |
| Tabulator.ResponsiveLayoutCollapseStartOpen | Tabulator.php:115-119 | `responsiveLayoutCollapseStartOpen` holds the flag; no other option is written |
| Tabulator.Height | Tabulator.php:122-126 | `height` holds the string; no other option is written |
| Tabulator.MaxHeight | Tabulator.php:128-132 | `maxHeight` holds the string; no other option is written |
| Tabulator.Selectable | Tabulator.php:135-140 | `selectable` and `selectableRangeMode` are set, and no other option is written |
| Tabulator.Tooltips | Tabulator.php:143-147 | `tooltips` holds the flag; no other option is written |
| Tabulator.MovableColumns | Tabulator.php:150-154 | `movableColumns` holds the flag; no other option is written |
| Tabulator.ResizableColumns | Tabulator.php:156-160 | `resizableColumns` holds the flag; no other option is written |
| Tabulator.ColumnHeaderVertAlign | Tabulator.php:162-166 | `columnHeaderVertAlign` holds the alignment; no other option is written |
| Tabulator.ToArray | Tabulator.php:186-197 | no contract of its own; `ToArrayShape` fixes its keys, their order and every lookup |
| Tabulator.ToArrayShape | Tabulator.php:186-197 | `columns` is always the first exported key; `data` is exported exactly when the data is non-empty or an option is named `data`; an option named `columns` or `data` overrides the built-in entry; every other exported key is an option, in the options' order |
| Tabulator.AddTextColumn | Tabulator.php:205-211 | no contract of its own; `AddTextColumnShape` gives the exact column it appends |
| Tabulator.AddTextColumnShape | Tabulator.php:205-211 | appends `title`, `field`, `sortable`, and a `headerFilter` that is `input` when filterable and `false` otherwise |
| Tabulator.AddNumberColumn | Tabulator.php:213-220 | no contract of its own; `AddNumberColumnShape` gives the exact column it appends |
| Tabulator.AddNumberColumnShape | Tabulator.php:213-220 | appends `title`, `field`, `sortable`, a `headerFilter` that is `number` or `false`, and `sorter = number` |
| Tabulator.CombineOnto | Tabulator.php:228 | no contract of its own; `CombineOntoShape` gives its keys and lookups |
| Tabulator.CombineOntoShape | Tabulator.php:228 | writing each value onto itself maps every given value to itself, keeps other keys, and keeps keys at their first position |
| Tabulator.IdentityMap | Tabulator.php:228 | no contract of its own; `IdentityMapShape` states that `array_combine(vs, vs)` maps each given value to itself |
| Tabulator.IdentityMapShape | Tabulator.php:228 | `array_combine(vs, vs)` maps each given value to itself and nothing else; duplicates collapse, so there are never more keys than values |
| Tabulator.AddSelectColumn | Tabulator.php:222-231 | no contract of its own; `AddSelectColumnShape` gives the exact column it appends |
| Tabulator.AddSelectColumnShape | Tabulator.php:222-231 | appends `title`, `field`, `sortable`, an enabled `headerFilter`, and `headerFilterParams.values` holding the identity map of the values |
| Tabulator.AddCheckboxColumn | Tabulator.php:233-241 | no contract of its own; `AddCheckboxColumnShape` gives the exact column it appends |
| Tabulator.AddCheckboxColumnShape | Tabulator.php:233-241 | appends `title`, `field`, the `tickCross` formatter and header filter with `tristate`, and `sortable` |
| Tabulator.AddActionColumn | Tabulator.php:243-261 | no contract of its own; `AddActionColumnShape` gives the exact column it appends and the unchanged rest of the state |
| Tabulator.AddActionColumnShape | Tabulator.php:243-261 | appends, without `addColumn`, a column with `field = actions`, not sortable, filterable or resizable, 100 wide; the `formatter` is the callable when one is given and `html` otherwise, still in third position |
| TabulatorProperties.OptionLastWriteWins | Tabulator.php:169-173 | writing an option twice equals writing only the second value |
| TabulatorProperties.LayoutLastCallWins | Tabulator.php:51-67 | a layout setter erases any earlier write of `layout`, so e.g. `option('layout', 'fitData')` then `layoutFitColumns()` leaves `fitColumns` |
| TabulatorProperties.PaginationLocalAppends | Tabulator.php:70-76 | when its keys are new, `paginationLocal` appends exactly `pagination`, `paginationSize`, `paginationInitialPage` in that order and changes nothing else |
| TabulatorProperties.EmptyExport | Tabulator.php:186-197 | with no columns, no truthy data (none, or `data([])`) and no option named `columns`, the export is an empty `columns` list followed by the options |
| TabulatorProperties.LocalPaginationExport | Tabulator.php:70-76 | a fresh builder after `paginationLocal(size, page)` exports exactly `columns`, `pagination`, `paginationSize` and `paginationInitialPage`, with no `ajaxURL` and no `data` |
| TabulatorProperties.DataExport | Tabulator.php:192-194 | after `data(rows)` the export has `data` exactly when the rows are non-empty or an option is named `data`; without such an option it holds the rows |
| TabulatorProperties.ExtendAfterAdd | Tabulator.php:176-183 | `withColumnOptions(o2)` right after `addColumn(t, f, o1)` equals `addColumn(t, f, array_merge(o1, o2))` |
| TabulatorProperties.RemoteEndpointAsymmetry | Tabulator.php:43-48 | `paginationRemote` and `ajaxUrl` export the same `ajaxURL`, but only `ajaxUrl` changes the endpoint field |
| TabulatorProperties.ExportIgnoresEndpointField | Tabulator.php:186-197 | the export does not depend on the endpoint field |
| TabulatorProperties.PaginationDefaults | Tabulator.php:70-84 | with the default arguments, `paginationLocal` sets page size 20 and initial page 1, and `paginationRemote` sets page size 20 |
| TabulatorProperties.InitialSortDefault | Tabulator.php:93-99 | `initialSort(field)` sorts `field` in direction `asc` |
| TabulatorProperties.SelectableDefaults | Tabulator.php:135-140 | `selectable()` enables selection with range mode `highlight` |
| TabulatorProperties.VertAlignDefault | Tabulator.php:162-166 | `columnHeaderVertAlign()` sets the alignment to `top` |
| TabulatorProperties.ActionColumnDefaults | Tabulator.php:243-261 | `addActionColumn()` appends the fixed column titled `Actions` with the `html` formatter |

## Left out

- `toJson` (Tabulator.php:199-202): `json_encode` is a foreign encoder. The model stops at the `toArray` structure.
- The object branch of `data()` (Tabulator.php:39): `$data->toArray()` calls a collaborator outside this class. `Data` takes a row sequence only.
- `make()` and the fluent `return $this`: pure state transformers capture the same behaviour without references. `Make` is kept as the empty starting state.
- The callable `formatter` of `addActionColumn` is never invoked or inspected. It is the opaque tag `Callback(id)`, and "no callable" is `None`. A PHP callable is always truthy, so `if ($formatter)` becomes `Some?`.
- PHP's integer-key behaviour:
  - `array_merge` renumbers numeric keys;
  - `array_combine` turns numeric-string values into integer keys;
  - `$a[] = ...` appends under integer keys.
  All keys are strings in the model, and the column list is a sequence.
- PHP integer width: `Int` holds an unbounded integer, and sizes and pages are not range-checked (nor are they in the source).
- `addColumns` entries whose `title` or `field` is present but not a string: PHP coerces or rejects them by type. `ColumnSpec` only distinguishes present strings from missing keys.
- Default arguments: every default becomes an explicit parameter; the `*Defaults` lemmas state what the defaults write. The values are the constants `DefaultPageSize` (20), `DefaultInitialPage` (1), `DefaultSortDirection` (`asc`), `DefaultSelectableMode` (`highlight`), `DefaultVertAlign` (`top`) and `DefaultActionTitle` (`Actions`).
- PHP values outside `Value`: an object that is neither a callable nor an array (the object branch of `data()` is left out as above) has no constructor. `option(key, value)` and the data rows therefore cannot carry one.
- The one PHP empty array `[]` has two model values, `List([])` and `Obj([])`. The model keeps lists and string-keyed arrays apart, and no property compares the two forms.
- Floats are `Float(r: real)`: exact reals, with no IEEE rounding, infinities or NaN.
- Column values written by `addColumn` with non-string option values are kept as `Value`s. No JSON type coercion is modelled.
