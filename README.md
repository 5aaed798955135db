# OnnxGraphQt: delete-node dialog and node property store, in Dafny

OnnxGraphQt is a desktop editor for ONNX computation graphs built on
NodeGraphQt and PySide2. This project models the two parts of it that hold
logic of their own and proves properties of them.

* **The delete-node dialog** (`DeleteNodeWidgets`, module `DeleteNode`,
  `delete_node.dfy`). The dialog keeps a fixed pool of five name rows, and
  `visible_remove_node_names_count` says how many of them are shown. `+` and
  `-` move the counter with saturating arithmetic. `set_visible` shows a
  prefix of the pool and enables the buttons. `updateUI` refreshes every row's
  suggestions from the graph and pre-fills rows from the names selected on the
  canvas. `get_properties` collects the non-blank texts of the shown rows, and
  `accept` refuses an empty collection. Each combo box is modelled by its
  current text and its suggestion list. Row widgets are modelled by visibility
  flags, the two buttons by enabled flags, and the graph by its node names in
  dictionary order. An error dialog is modelled as an entry appended to
  `errorsShown`.
* **The node property store** (`ONNXNode`, `ONNXInput`, `ONNXOutput`,
  module `OnnxNode`, `onnx_node.dfy`). Each node keeps its editable fields in
  NodeGraphQt's property store. This is modelled as a
  `map<string, Property>`, where each entry holds a value and the kind of
  widget the property panel shows for it. Setters create an entry on the first
  write and update it in place afterwards. They also cache the value in a
  field of the node. Getters re-read the store and refresh that cache. Python
  values are modelled by `Value` (None, string, int, list). `OrderedDict` is
  modelled as its key order plus a map.

`wrappers.dfy` holds the `Option` type both modules use.

## Behaviour of the code to keep in mind

* `get_properties` keeps each collected name as typed. It strips whitespace only
  to test whether a row is blank.
* The pre-fill loop reads only the first five selected names. If fewer than five
  are selected and one is missing from the graph, it raises IndexError, and so
  does the dialog's `__init__` (see Findings).
* The `-` handler clamps the counter to `[0, 5]`, so calling it at 1 gives 0.
  The button is disabled at 1, so clicking keeps at least one row shown
  (`EnabledClicksKeepARow`).

## Model

| member | source | states |
|---|---|---|
| `DeleteNode.AddCount` | onnxgraphqt/widgets/widgets_delete_node.py:107-108 | `+` raises the counter by one below the cap of 5, holds it at 5 from the cap on, and always leaves it in `[0, 5]` |
| `DeleteNode.DelCount` | onnxgraphqt/widgets/widgets_delete_node.py:111-112 | `-` lowers the counter by one from 1..6, gives 0 at or below 1, and always leaves it in `[0, 5]` |
| `DeleteNode.AddClicks` | onnxgraphqt/widgets/widgets_delete_node.py:107-109 | definition: the counter after n clicks on `+`, `AddCount` applied n times |
| `DeleteNode.DelClicks` | onnxgraphqt/widgets/widgets_delete_node.py:111-113 | definition: the counter after n clicks on `-`, `DelCount` applied n times |
| `DeleteNode.AddClicksSaturate` | onnxgraphqt/widgets/widgets_delete_node.py:107-109 | from any count in `[0, 5]`, n clicks on `+` give `min(count + n, 5)` |
| `DeleteNode.DelClicksFloor` | onnxgraphqt/widgets/widgets_delete_node.py:111-113 | from any count in `[0, 5]`, n clicks on `-` give `max(count - n, 0)` |
| `DeleteNode.GrowThenShrink` | onnxgraphqt/widgets/widgets_delete_node.py:97-113 | from 1, four `+` clicks reach 5 and disable `+`, and further clicks stay at 5; from 5, four `-` clicks reach 1 and disable `-` |
| `DeleteNode.EnabledClicksKeepARow` | onnxgraphqt/widgets/widgets_delete_node.py:97-113 | clicking only enabled buttons keeps the counter in `[1, 5]` |
| `DeleteNode.ButtonStates` | onnxgraphqt/widgets/widgets_delete_node.py:97-105 | `+` is enabled exactly when count < 5, and `-` exactly when count != 1 (so count 1 gives add on/delete off, ≥ 5 gives add off/delete on, and anything else, 0 included, gives both on) |
| `DeleteNode.VisibleRows` | onnxgraphqt/widgets/widgets_delete_node.py:95-96 | five flags; row k is shown exactly when k < count |
| `DeleteNode.VisibleRowsArePrefix` | onnxgraphqt/widgets/widgets_delete_node.py:95-96 | the shown rows form a prefix of the pool: `c` shown, then `5 - c` hidden, with `c` the counter clamped to `[0, 5]` |
| `DeleteNode.IsSpace` | onnxgraphqt/widgets/widgets_delete_node.py:121 | definition: the characters `str.strip()` removes, i.e. those for which Python's `str.isspace` holds (U+0009-000D, U+001C-0020, U+0085, U+00A0, U+1680, U+2000-200A, U+2028, U+2029, U+202F, U+205F, U+3000) |
| `DeleteNode.TrimStart` | onnxgraphqt/widgets/widgets_delete_node.py:121 | definition: drops whitespace characters from the front, one at a time |
| `DeleteNode.TrimEnd` | onnxgraphqt/widgets/widgets_delete_node.py:121 | definition: drops whitespace characters from the back, one at a time |
| `DeleteNode.Strip` | onnxgraphqt/widgets/widgets_delete_node.py:121 | definition: `str.strip()` with no argument, the back trim applied to the front trim |
| `DeleteNode.TrimStartSpec` | onnxgraphqt/widgets/widgets_delete_node.py:121 | trimming the front leaves a suffix and removes only whitespace, and what is left starts with a character that is not whitespace |
| `DeleteNode.TrimEndSpec` | onnxgraphqt/widgets/widgets_delete_node.py:121 | trimming the back leaves a prefix and removes only whitespace, and what is left ends with a character that is not whitespace |
| `DeleteNode.StripEmptyIff` | onnxgraphqt/widgets/widgets_delete_node.py:121 | `str.strip(name)` is empty exactly when every character of `name` is Python whitespace |
| `DeleteNode.Collect` | onnxgraphqt/widgets/widgets_delete_node.py:118-122 | collects at most one name per row |
| `DeleteNode.CollectEmptyIff` | onnxgraphqt/widgets/widgets_delete_node.py:118-122 | nothing is collected exactly when every row read is blank (empty after stripping Python whitespace) |
| `DeleteNode.CollectSound` | onnxgraphqt/widgets/widgets_delete_node.py:119-122 | every collected name is the untrimmed text of a row, and that text is not blank |
| `DeleteNode.CollectKeepsDuplicates` | onnxgraphqt/widgets/widgets_delete_node.py:119-122 | a non-blank text is collected exactly as many times as rows hold it |
| `DeleteNode.CollectAppend` | onnxgraphqt/widgets/widgets_delete_node.py:119-122 | collecting keeps row order: the names of `a + b` are those of `a` followed by those of `b` |
| `DeleteNode.CollectOne` | onnxgraphqt/widgets/widgets_delete_node.py:120-122 | one row is collected exactly when its stripped text is non-empty |
| `DeleteNode.CollectDropsBlankKeepsDuplicates` | onnxgraphqt/widgets/widgets_delete_node.py:118-122 | rows `[x, blank, x]` give `[x, x]` |
| `DeleteNode.Present` | onnxgraphqt/widgets/widgets_delete_node.py:84-90 | keeps at most as many names as it is given |
| `DeleteNode.PresentAll` | onnxgraphqt/widgets/widgets_delete_node.py:84-90 | when every name is in the graph, all of them are kept, in order; when as many names are kept as given, every one of them is in the graph |
| `DeleteNode.PresentSound` | onnxgraphqt/widgets/widgets_delete_node.py:88-90 | every pre-filled name is a selected name that is in the graph |
| `DeleteNode.PresentComplete` | onnxgraphqt/widgets/widgets_delete_node.py:88-90 | every name of the list that is in the graph is kept, so each graph name among the first five selected is pre-filled |
| `DeleteNode.Take` | onnxgraphqt/widgets/widgets_delete_node.py:84 | the first `min(len(selected), 5)` selected names |
| `DeleteNode.PrefillScan` | onnxgraphqt/widgets/widgets_delete_node.py:84-90 | definition: the pre-fill loop run from position `index` with the names filled so far. It stops after five positions or when its guard fails, gives `None` when it reads `selected[index]` past the end (IndexError), and otherwise appends the name when the graph has it. The guard is `len(selected) < filled + 1` as written, or `len(selected) < index + 1` when corrected |
| `DeleteNode.PrefillAsWritten` | onnxgraphqt/widgets/widgets_delete_node.py:82-90 | definition: the pre-fill loop as written, from position 0 with nothing filled |
| `DeleteNode.PrefillCorrected` | onnxgraphqt/widgets/widgets_delete_node.py:84-90 | definition: the same loop with its guard testing the index it reads |
| `DeleteNode.PrefillIndexError` | onnxgraphqt/widgets/widgets_delete_node.py:84-88 | definition: the closed form of the raising inputs, fewer than five names selected and one of them missing from the graph |
| `DeleteNode.AsWrittenFrom` | onnxgraphqt/widgets/widgets_delete_node.py:84-90 | from any loop position it reaches, the loop as written raises or fills exactly as `PrefillAsWrittenExact` says |
| `DeleteNode.CorrectedFrom` | onnxgraphqt/widgets/widgets_delete_node.py:84-90 | from any loop position, the index-guarded loop fills the graph's names among the first five selected |
| `DeleteNode.PrefillAsWrittenExact` | onnxgraphqt/widgets/widgets_delete_node.py:82-90 | the loop raises IndexError exactly when fewer than 5 names are selected and one is missing from the graph; otherwise it fills, in order, the graph's names among the first five selected (all of them, `min(len, 5)`, when all exist) |
| `DeleteNode.PrefillCorrectedExact` | onnxgraphqt/widgets/widgets_delete_node.py:82-90 | with its guard testing the index, the loop never raises and fills at most 5 rows, in order, with the graph's names among the first five selected |
| `DeleteNode.PrefillAgreeWithoutError` | onnxgraphqt/widgets/widgets_delete_node.py:82-90 | wherever the loop as written does not raise, it fills the same rows as the corrected loop |
| `DeleteNode.PrefillAsWrittenRaises` | onnxgraphqt/widgets/widgets_delete_node.py:84-88 | graph `{A}` with selection `[B]` makes the loop as written raise, while the corrected loop fills nothing |
| `DeleteNode.OpenWithTwoSelected` | onnxgraphqt/widgets/widgets_delete_node.py:20-27 | a dialog opened with `A` and `B` in the graph and `[A, B]` selected does not raise. Rows 0 and 1 hold `A` and `B`, the other rows are empty, the counter is 3, and exactly rows 0-2 are shown |
| `DeleteNode.OpenWithMissingSelected` | onnxgraphqt/widgets/widgets_delete_node.py:20-27 | a dialog opened on a graph whose only node is `A` with `[B]` selected raises from `__init__`, leaving the counter at 1 and every row empty |
| `DeleteNode.PadRows` | onnxgraphqt/widgets/widgets_delete_node.py:76-90 | the five rows after pre-filling: the filled names first, then empty text |
| `DeleteNode.DeleteNodeWidgets.constructor` | onnxgraphqt/widgets/widgets_delete_node.py:20-27 | the counter starts at 1 with empty rows, and with no graph it stays 1. `__init__` raises (`initRaised`) exactly when a graph is given and `updateUI`'s pre-fill raises. The dialog is then `NotBuilt`, with the rows partly filled and the counter still 1, and none of the dialog's methods may be called on it. Otherwise the dialog is open, and with a graph the rows and the counter are as `updateUI` leaves them. No error has been shown, and what is shown follows the counter |
| `DeleteNode.DeleteNodeWidgets.SetVisible` | onnxgraphqt/widgets/widgets_delete_node.py:94-105 | row visibility and button enablement become `VisibleRows(count)` and `ButtonStates(count)` |
| `DeleteNode.DeleteNodeWidgets.UpdateUI` | onnxgraphqt/widgets/widgets_delete_node.py:74-92 | With no graph, rows and counter are unchanged. With a graph, every row suggests the graph's names. It raises exactly in the `PrefillIndexError` case, leaving the counter unchanged. Otherwise the rows hold the pre-filled names followed by empty text, the counter is `min(filled + 1, 5)`, and what is shown follows the counter |
| `DeleteNode.DeleteNodeWidgets.RefreshRows` | onnxgraphqt/widgets/widgets_delete_node.py:76-80 | every row's suggestion list becomes the graph's names in order, with no current text |
| `DeleteNode.DeleteNodeWidgets.PrefillRows` | onnxgraphqt/widgets/widgets_delete_node.py:82-90 | the loop as written: it raises exactly when `PrefillAsWritten` is None; otherwise it writes the pre-filled names to rows 0, 1, … and returns how many |
| `DeleteNode.DeleteNodeWidgets.BtnAddClicked` | onnxgraphqt/widgets/widgets_delete_node.py:107-109 | the counter becomes `AddCount` of the old one, and what is shown follows it |
| `DeleteNode.DeleteNodeWidgets.BtnDelClicked` | onnxgraphqt/widgets/widgets_delete_node.py:111-113 | the counter becomes `DelCount` of the old one, and what is shown follows it |
| `DeleteNode.DeleteNodeWidgets.EditRow` | onnxgraphqt/widgets/widgets_delete_node.py:47-48 | typing into the editable combo box of row k changes that row's text only |
| `DeleteNode.DeleteNodeWidgets.GetProperties` | onnxgraphqt/widgets/widgets_delete_node.py:116-126 | the result is `Collect` of the shown rows only: untrimmed, in row order, duplicates kept, hidden rows ignored |
| `DeleteNode.DeleteNodeWidgets.Accept` | onnxgraphqt/widgets/widgets_delete_node.py:128-143 | with nothing collected, it shows the single error `- remove_node_names is not set.` and the dialog stays open; otherwise the dialog closes as accepted with no error shown |
| `DeleteNode.DeleteNodeWidgets.Reject` | onnxgraphqt/widgets/widgets_delete_node.py:68 | Cancel closes the dialog with no result |
| `OnnxNode.GetProperty` | onnxgraphqt/graph/onnx_node.py:77 | definition: `get_property`, the stored value of an entry, or None when the store has no such entry |
| `OnnxNode.UpdateProperty` | onnxgraphqt/graph/onnx_node.py:57-58 | `set_property` on an existing entry replaces its value, keeps its widget and leaves every other entry alone |
| `OnnxNode.WriteProperty` | onnxgraphqt/graph/onnx_node.py:71-74 | create-or-update: afterwards the entry exists and reads back as the value written. An entry that existed keeps its widget, a new one gets the requested widget, and nothing else changes |
| `OnnxNode.AttrEntryOf` | onnxgraphqt/graph/onnx_node.py:57-63 | the entry `key + "_"` belongs to a key list exactly when the key does, so distinct attributes never share an entry |
| `OnnxNode.AttrWidget` | onnxgraphqt/graph/onnx_node.py:60-63 | definition: the widget of a newly created attribute entry, a label for key `dtype` and a line edit otherwise |
| `OnnxNode.ApplyAttrs` | onnxgraphqt/graph/onnx_node.py:56-63 | definition: the store after the `set_attrs` loop has written the given keys in order, each by create-or-update of `key + "_"` with the key's value |
| `OnnxNode.ReadAttrs` | onnxgraphqt/graph/onnx_node.py:66-67 | definition: the `get_attrs` comprehension, the given keys in order, each mapped to what `get_property(key + "_")` returns |
| `OnnxNode.ApplyAttrsKeys` | onnxgraphqt/graph/onnx_node.py:54-63 | after `set_attrs`, the store holds exactly its old entries plus `key + "_"` for each key |
| `OnnxNode.ApplyAttrsValue` | onnxgraphqt/graph/onnx_node.py:56-63 | after `set_attrs(A)`, entry `key + "_"` holds `A[key]` for each key of A |
| `OnnxNode.ApplyAttrsWidget` | onnxgraphqt/graph/onnx_node.py:57-63 | an attribute entry that existed keeps its widget; a new one is a label when the key is `dtype` and a line edit otherwise |
| `OnnxNode.ApplyAttrsOthers` | onnxgraphqt/graph/onnx_node.py:54-63 | `set_attrs` leaves every entry that is not one of its attribute entries unchanged |
| `OnnxNode.AttrsRoundTrip` | onnxgraphqt/graph/onnx_node.py:54-67 | `get_attrs` after `set_attrs(A)` returns A: the same keys, in the same order, with the same values |
| `OnnxNode.ApplyAttrsIdempotent` | onnxgraphqt/graph/onnx_node.py:56-63 | repeating `set_attrs` with the same attributes leaves the store as it was: no duplicate entries, no widget change |
| `OnnxNode.StaleAttrsStay` | onnxgraphqt/graph/onnx_node.py:55-67 | after `set_attrs(A)` then `set_attrs(B)`, `get_attrs` returns exactly B while A's entries remain in the store |
| `OnnxNode.ShapeValue` | onnxgraphqt/graph/onnx_node.py:90 | definition: a shape as the Python list of ints stored inside a row |
| `OnnxNode.IORow` | onnxgraphqt/graph/onnx_node.py:90 | definition: one row of the stored list, `[name, dtype, shape, values]` |
| `OnnxNode.IORows` | onnxgraphqt/graph/onnx_node.py:90 | definition: the list comprehension of `set_onnx_inputs`, and identically of `set_onnx_outputs` at line 98, with one row per tensor in order |
| `OnnxNode.IORowRoundTrip` | onnxgraphqt/graph/onnx_node.py:90 | one stored row `[name, dtype, shape, values]` reads back as the tensor it was made from |
| `OnnxNode.ShapeRoundTrip` | onnxgraphqt/graph/onnx_node.py:90 | a stored shape reads back as the same list of ints |
| `OnnxNode.IORowsRoundTrip` | onnxgraphqt/graph/onnx_node.py:88-102 | the list stored under `inputs_` / `outputs_` reads back as exactly the tensors given: same length and order, and the same name, dtype, shape and values for each |
| `OnnxNode.PyStr` | onnxgraphqt/graph/onnx_node.py:157 | definition: Python's `str()` on the modelled values. A string is itself, an int is its decimal form, None is `None`, and a list is `[` + the `repr` of its items joined by `, ` + `]` |
| `OnnxNode.PyRepr` | onnxgraphqt/graph/onnx_node.py:157 | definition: Python's `repr()` as `str()` uses it for list items, the same as `str()` except that a string is wrapped in single quotes |
| `OnnxNode.PyStrOfScalars` | onnxgraphqt/graph/onnx_node.py:156-158 | `str` of a string is the string itself, and `str` of an int is its non-empty decimal form |
| `OnnxNode.TerminalStore` | onnxgraphqt/graph/onnx_node.py:126-129 | a terminal node starts with exactly four entries: `node_name`, `shape`, `dtype` and its names list |
| `OnnxNode.ONNXNode.constructor` | onnxgraphqt/graph/onnx_node.py:39-52 | a new operator node has empty caches and no entries of its own, and its title is `onnxnode` |
| `OnnxNode.ONNXNode.SetAttrs` | onnxgraphqt/graph/onnx_node.py:54-63 | caches A and writes each attribute, in order, by create-or-update; `get_attrs` then returns A |
| `OnnxNode.ONNXNode.GetAttrs` | onnxgraphqt/graph/onnx_node.py:65-67 | a well-formed `OrderedDict` (distinct keys): the keys of the last `set_attrs`, in order, each re-read from the store |
| `OnnxNode.ONNXNode.SetNodeName` | onnxgraphqt/graph/onnx_node.py:69-74 | caches the name, then creates (as a line edit) or updates `node_name` |
| `OnnxNode.ONNXNode.GetNodeName` | onnxgraphqt/graph/onnx_node.py:76-78 | returns what the store holds under `node_name` and refreshes the cache with it |
| `OnnxNode.ONNXNode.SetOp` | onnxgraphqt/graph/onnx_node.py:80-86 | caches the op, sets the view title to it, and creates (as a label) or updates `op` |
| `OnnxNode.ONNXNode.SetOnnxInputs` | onnxgraphqt/graph/onnx_node.py:88-94 | caches the inputs and creates or updates `inputs_` with `IORows` of them |
| `OnnxNode.ONNXNode.SetOnnxOutputs` | onnxgraphqt/graph/onnx_node.py:96-102 | caches the outputs and creates or updates `outputs_` with `IORows` of them |
| `OnnxNode.ONNXNode.EditProperty` | onnxgraphqt/graph/onnx_node.py:72 | an edit in the property panel of an editable entry (not a label such as `op` or `dtype_`) changes only the store, which the getters read back |
| `OnnxNode.ONNXInput.constructor` | onnxgraphqt/graph/onnx_node.py:119-134 | creates `node_name`, `shape`, `dtype` and `output_names` with empty defaults and their widgets, and sets the title to `input` |
| `OnnxNode.ONNXInput.GetNodeName` | onnxgraphqt/graph/onnx_node.py:136-138 | returns the stored `node_name` and refreshes the cache |
| `OnnxNode.ONNXInput.SetNodeName` | onnxgraphqt/graph/onnx_node.py:140-142 | updates `node_name` in place and caches it |
| `OnnxNode.ONNXInput.GetShape` | onnxgraphqt/graph/onnx_node.py:144-146 | returns the stored `shape` and refreshes the cache |
| `OnnxNode.ONNXInput.SetShape` | onnxgraphqt/graph/onnx_node.py:148-150 | updates `shape` in place and caches it |
| `OnnxNode.ONNXInput.GetDtype` | onnxgraphqt/graph/onnx_node.py:152-154 | returns the stored `dtype`, which is always a string, and refreshes the cache |
| `OnnxNode.ONNXInput.SetDtype` | onnxgraphqt/graph/onnx_node.py:156-158 | stores and caches `str(dtype)` |
| `OnnxNode.ONNXInput.GetOutputNames` | onnxgraphqt/graph/onnx_node.py:160-162 | returns the stored `output_names` and refreshes the cache |
| `OnnxNode.ONNXInput.SetOutputNames` | onnxgraphqt/graph/onnx_node.py:164-166 | updates `output_names` in place and caches it |
| `OnnxNode.ONNXInput.EditProperty` | onnxgraphqt/graph/onnx_node.py:126-129 | an edit in the property panel stores text, so the entries stay present and `dtype` stays a string |
| `OnnxNode.ONNXOutput.constructor` | onnxgraphqt/graph/onnx_node.py:182-197 | creates `node_name`, `shape`, `dtype` and `input_names` with empty defaults and their widgets, and sets the title to `output` |
| `OnnxNode.ONNXOutput.GetNodeName` | onnxgraphqt/graph/onnx_node.py:199-201 | returns the stored `node_name` and refreshes the cache |
| `OnnxNode.ONNXOutput.SetNodeName` | onnxgraphqt/graph/onnx_node.py:203-205 | updates `node_name` in place and caches it |
| `OnnxNode.ONNXOutput.GetShape` | onnxgraphqt/graph/onnx_node.py:207-209 | returns the stored `shape` and refreshes the cache |
| `OnnxNode.ONNXOutput.SetShape` | onnxgraphqt/graph/onnx_node.py:211-213 | updates `shape` in place and caches it |
| `OnnxNode.ONNXOutput.GetDtype` | onnxgraphqt/graph/onnx_node.py:215-217 | returns the stored `dtype`, which is always a string, and refreshes the cache |
| `OnnxNode.ONNXOutput.SetDtype` | onnxgraphqt/graph/onnx_node.py:219-221 | stores and caches `str(dtype)` |
| `OnnxNode.ONNXOutput.GetInputNames` | onnxgraphqt/graph/onnx_node.py:223-225 | returns the stored `input_names` and refreshes the cache |
| `OnnxNode.ONNXOutput.SetInputNames` | onnxgraphqt/graph/onnx_node.py:227-229 | updates `input_names` in place and caches it |
| `OnnxNode.ONNXOutput.EditProperty` | onnxgraphqt/graph/onnx_node.py:189-192 | an edit in the property panel stores text, so the entries stay present and `dtype` stays a string |

## Left out

- Qt widget construction, layout, fonts, window title and modality (`initUI` apart from the counter and the rows): these are presentation only. A combo box is its current text and its suggestion list. The model assumes Qt's behaviour that `setCurrentIndex(-1)` on an editable combo box leaves empty text.
- The `print` calls and the `__main__` demo: output only.
- `MessageBox.error`: it is recorded as an entry in `errorsShown`. The modal alert and the joining of lines for display are not modelled. `onnxgraphqt/widgets_message_box.py` is not part of this model.
- The truthiness test `if graph:` is modelled as "a graph was given" (`Option`).
- NodeGraphQt internals: the undo stack behind `push_undo` (ignored), ports, layout direction, rendering and the view's text item.
- NodeGraphQt's built-in node properties (`name`, `color`, `type_`, …): the modelled stores start without them. So an attribute whose `key + "_"` names a built-in entry (an attribute `type` would hit `type_`) is modelled as creating a new entry, not updating the built-in one.
- `create_property` raising on an existing name and `set_property` raising on a missing one: the modelled terminal setters only touch entries their constructor created (their `Valid()`). `ONNXNode` always branches on existence first.
- Colours and fonts (`set_color`, `set_font` on all three classes): cosmetic, and they come from utility modules that are not part of this model. This includes `ONNXOutput.set_color` using the input colour.
- `OnnxNode.PyStr`, `OnnxNode.PyRepr`: `PyRepr` (and so `PyStr` for strings inside a list) always uses single quotes, without Python's escaping or choice of quotes. Floats and other Python types are not values of `Value`.
- Python values are modelled as immutable values, so aliasing is not captured. `set_attrs` keeps the caller's `OrderedDict` object, and `get_attrs` walks its current keys: if the caller later adds a key, Python's `get_attrs` reports it with `None` (no `key_` entry exists), while the model's copied `attrs` still reports the dictionary as it was passed. Likewise `set_shape`, `set_output_names` and `set_input_names` store the caller's list object, so a later in-place change to that list reaches the stored property and the getters' result; the model stores a copy.
- User edits in the panel or in a combo box are modelled as storing text (`EditProperty`, `EditRow`).
- ONNX model parsing and the node deletion the host performs after `accept`: both happen outside the modelled files.

## Findings

| source | as written | input that shows it | evidently intended | confidence | as-written member | corrected member |
|---|---|---|---|---|---|---|
| onnxgraphqt/widgets/widgets_delete_node.py:84-88 | The pre-fill loop stops on `len(selected_nodes) < visible_count + 1` but reads `selected_nodes[index]`. After a selected name that is missing from the graph, `index` runs ahead of `visible_count`, and the read goes past the end of the list. | A graph whose only node is `A`, with `selected_nodes == ["B"]`: the second iteration reads `selected_nodes[1]` and raises IndexError, so the dialog is never built. | The guard tests the index it reads (`len(selected_nodes) < index + 1`): missing names are skipped and the others are pre-filled | high (not executed) | `DeleteNode.PrefillAsWrittenRaises` | `DeleteNode.PrefillCorrectedExact` |

The dialog methods (`UpdateUI`, `PrefillRows`) keep the behaviour as written and
report the IndexError through `raised`, which the constructor records as
`initRaised` (`OpenWithMissingSelected` is the input above at the dialog level). By `PrefillAgreeWithoutError`, on every
input where that loop finishes, its pre-fill is the corrected one.
