/**
 * The ONNX node classes (`ONNXNode`, `ONNXInput`, `ONNXOutput`) over the node
 * graph's property store.
 *
 * Every node keeps its editable fields in a store of named properties, each a
 * value with the kind of widget the property panel shows for it. A setter writes
 * one entry (creating it on the first write, updating it in place afterwards)
 * and caches the value in a field of the node; a getter re-reads the store and
 * refreshes the cache. Python values are modelled by `Value`.
 */
module OnnxNode {
  import opened Wrappers

  /** A Python value as stored in a property: None, a string, an int or a list. */
  datatype Value = NoneValue | Str(s: string) | Int(i: int) | List(items: seq<Value>)

  /** The property-panel widget kinds these nodes ask for. */
  datatype WidgetKind = QLabel | QLineEdit | QTextEdit

  /** One entry of a node's property store. */
  datatype Property = Property(value: Value, widget: WidgetKind)

  type Store = map<string, Property>

  /** `OnnxNodeIO`: one input or output tensor of an operator. */
  datatype OnnxNodeIO = OnnxNodeIO(name: string, dtype: string, shape: seq<int>, values: Value)

  /** A Python `OrderedDict` from attribute names to values: its keys in order. */
  datatype OrderedDict = OrderedDict(keys: seq<string>, entries: map<string, Value>)
  {
    /** Keys are distinct and are exactly the keys of the mapping. */
    ghost predicate Valid()
    {
      (forall i, j :: 0 <= i < j < |keys| ==> keys[i] != keys[j])
      && entries.Keys == set k | k in keys
    }
  }

  // ---------------------------------------------------------------------------
  // The property store: get_property, set_property, create_property
  // ---------------------------------------------------------------------------

  /** `get_property(name)`: the stored value, or None for a name never created. */
  function GetProperty(store: Store, name: string): Value
  {
    if name in store then store[name].value else NoneValue
  }

  /** `set_property(name, v)` on an existing entry: the value changes, the widget stays. */
  function UpdateProperty(store: Store, name: string, v: Value): (r: Store)
    requires name in store
    ensures r.Keys == store.Keys
    ensures r[name] == Property(v, store[name].widget)
    ensures forall p :: p in store && p != name ==> r[p] == store[p]
  {
    store[name := Property(v, store[name].widget)]
  }

  /** The setter discipline: `create_property` when the entry is absent,
      `set_property` when it exists. The entry then holds `v`; a new entry gets
      `kind`, an existing one keeps its widget; nothing else changes. */
  function WriteProperty(store: Store, name: string, v: Value, kind: WidgetKind): (r: Store)
    ensures r.Keys == store.Keys + {name}
    ensures GetProperty(r, name) == v
    ensures r[name].widget == if name in store then store[name].widget else kind
    ensures forall p :: p in store && p != name ==> r[p] == store[p]
  {
    if name in store then UpdateProperty(store, name, v)
    else store[name := Property(v, kind)]
  }

  // ---------------------------------------------------------------------------
  // Attributes: set_attrs and get_attrs
  // ---------------------------------------------------------------------------

  /** The store entry of attribute `key`. */
  function AttrKey(key: string): string
  {
    key + "_"
  }

  /** Whether store entry `p` is the entry of one of the attributes `keys`. */
  predicate IsAttrEntry(p: string, keys: seq<string>)
  {
    |p| > 0 && p[|p| - 1] == '_' && p[..|p| - 1] in keys
  }

  /** The entry of attribute `k` belongs to `keys` exactly when `k` does: distinct
      attributes never share an entry. */
  lemma AttrEntryOf(k: string, keys: seq<string>)
    ensures IsAttrEntry(AttrKey(k), keys) <==> k in keys
  {
    assert AttrKey(k)[..|AttrKey(k)| - 1] == k;
  }

  /** The widget a newly created attribute entry gets. */
  function AttrWidget(key: string): WidgetKind
  {
    if key == "dtype" then QLabel else QLineEdit
  }

  /** The store after `set_attrs` has written `keys` in order. */
  function ApplyAttrs(store: Store, keys: seq<string>, entries: map<string, Value>): Store
    requires forall k :: k in keys ==> k in entries
    decreases |keys|
  {
    if keys == [] then store
    else
      var k := keys[|keys| - 1];
      WriteProperty(ApplyAttrs(store, keys[..|keys| - 1], entries), AttrKey(k), entries[k], AttrWidget(k))
  }

  /** `set_attrs` adds exactly the entries of its keys to the store. */
  lemma {:induction false} ApplyAttrsKeys(store: Store, keys: seq<string>, entries: map<string, Value>, p: string)
    requires forall k :: k in keys ==> k in entries
    ensures p in ApplyAttrs(store, keys, entries) <==> p in store || IsAttrEntry(p, keys)
    decreases |keys|
  {
    if keys != [] {
      var front, k := keys[..|keys| - 1], keys[|keys| - 1];
      assert keys == front + [k];
      ApplyAttrsKeys(store, front, entries, p);
      AttrEntryOf(k, [k]);
      if IsAttrEntry(p, keys) && !IsAttrEntry(p, front) {
        assert p[..|p| - 1] == k;
        assert p == AttrKey(k);
      }
    }
  }

  /** After `set_attrs`, the entry of each of its keys holds that key's value. */
  lemma {:induction false} ApplyAttrsValue(store: Store, keys: seq<string>, entries: map<string, Value>, k: string)
    requires forall j :: j in keys ==> j in entries
    requires k in keys
    ensures GetProperty(ApplyAttrs(store, keys, entries), AttrKey(k)) == entries[k]
    decreases |keys|
  {
    var front, last := keys[..|keys| - 1], keys[|keys| - 1];
    assert keys == front + [last];
    if k != last {
      ApplyAttrsValue(store, front, entries, k);
      assert AttrKey(k) != AttrKey(last) by { AttrEntryOf(k, [last]); }
    }
  }

  /** An attribute entry that existed keeps its widget; a new one is a label for
      `dtype` and a line edit otherwise. */
  lemma {:induction false} ApplyAttrsWidget(store: Store, keys: seq<string>, entries: map<string, Value>, k: string)
    requires forall j :: j in keys ==> j in entries
    requires k in keys
    ensures var r := ApplyAttrs(store, keys, entries);
      AttrKey(k) in r
      && r[AttrKey(k)].widget == if AttrKey(k) in store then store[AttrKey(k)].widget else AttrWidget(k)
    decreases |keys|
  {
    var front, last := keys[..|keys| - 1], keys[|keys| - 1];
    assert keys == front + [last];
    if k in front {
      ApplyAttrsWidget(store, front, entries, k);
    } else {
      assert k == last;
      ApplyAttrsKeys(store, front, entries, AttrKey(k));
      AttrEntryOf(k, front);
      if AttrKey(k) in store {
        ApplyAttrsOthers(store, front, entries, AttrKey(k));
      }
    }
  }

  /** `set_attrs` leaves every other entry of the store as it was. */
  lemma {:induction false} ApplyAttrsOthers(store: Store, keys: seq<string>, entries: map<string, Value>, p: string)
    requires forall j :: j in keys ==> j in entries
    requires p in store && !IsAttrEntry(p, keys)
    ensures var r := ApplyAttrs(store, keys, entries);
      p in r && r[p] == store[p]
    decreases |keys|
  {
    if keys != [] {
      var front, last := keys[..|keys| - 1], keys[|keys| - 1];
      assert keys == front + [last];
      assert !IsAttrEntry(p, front);
      AttrEntryOf(last, keys);
      ApplyAttrsOthers(store, front, entries, p);
    }
  }

  /** `get_attrs`: the given keys, in order, each mapped to the value read back
      from its store entry. */
  function ReadAttrs(store: Store, keys: seq<string>): OrderedDict
  {
    OrderedDict(keys, map k | k in keys :: GetProperty(store, AttrKey(k)))
  }

  /** `get_attrs` after `set_attrs(a)` gives back `a`: same keys, same order,
      same values. */
  lemma AttrsRoundTrip(store: Store, a: OrderedDict)
    requires a.Valid()
    ensures ReadAttrs(ApplyAttrs(store, a.keys, a.entries), a.keys) == a
  {
    var r := ReadAttrs(ApplyAttrs(store, a.keys, a.entries), a.keys);
    forall k | k in a.entries
      ensures r.entries[k] == a.entries[k]
    {
      ApplyAttrsValue(store, a.keys, a.entries, k);
    }
  }

  /** Repeating `set_attrs` with the same keys and values changes nothing: no
      entry is duplicated and no widget kind changes. */
  lemma ApplyAttrsIdempotent(store: Store, keys: seq<string>, entries: map<string, Value>)
    requires forall k :: k in keys ==> k in entries
    ensures var once := ApplyAttrs(store, keys, entries);
      ApplyAttrs(once, keys, entries) == once
  {
    var once := ApplyAttrs(store, keys, entries);
    var twice := ApplyAttrs(once, keys, entries);
    forall p
      ensures p in twice <==> p in once
    {
      ApplyAttrsKeys(once, keys, entries, p);
      ApplyAttrsKeys(store, keys, entries, p);
    }
    forall p | p in once
      ensures twice[p] == once[p]
    {
      ApplyAttrsIdempotentAt(store, keys, entries, p);
    }
  }

  /** One entry of the store after a repeated `set_attrs`. */
  lemma ApplyAttrsIdempotentAt(store: Store, keys: seq<string>, entries: map<string, Value>, p: string)
    requires forall k :: k in keys ==> k in entries
    requires p in ApplyAttrs(store, keys, entries)
    ensures var once := ApplyAttrs(store, keys, entries);
      p in ApplyAttrs(once, keys, entries) && ApplyAttrs(once, keys, entries)[p] == once[p]
  {
    var once := ApplyAttrs(store, keys, entries);
    ApplyAttrsKeys(once, keys, entries, p);
    if IsAttrEntry(p, keys) {
      var k := p[..|p| - 1];
      assert p == AttrKey(k);
      ApplyAttrsValue(store, keys, entries, k);
      ApplyAttrsValue(once, keys, entries, k);
      ApplyAttrsWidget(once, keys, entries, k);
    } else {
      ApplyAttrsOthers(once, keys, entries, p);
    }
  }

  /** After `set_attrs(a)` and then `set_attrs(b)`, `get_attrs` reports `b` only,
      while the entries created for the keys of `a` stay in the store. */
  lemma StaleAttrsStay(store: Store, a: OrderedDict, b: OrderedDict, k: string)
    requires a.Valid() && b.Valid() && k in a.keys
    ensures var r := ApplyAttrs(ApplyAttrs(store, a.keys, a.entries), b.keys, b.entries);
      AttrKey(k) in r && ReadAttrs(r, b.keys) == b
  {
    var first := ApplyAttrs(store, a.keys, a.entries);
    ApplyAttrsWidget(store, a.keys, a.entries, k);
    ApplyAttrsKeys(first, b.keys, b.entries, AttrKey(k));
    AttrsRoundTrip(first, b);
  }

  // ---------------------------------------------------------------------------
  // Inputs and outputs of an operator
  // ---------------------------------------------------------------------------

  /** A shape as a Python list of ints. */
  function ShapeValue(shape: seq<int>): Value
  {
    List(seq(|shape|, i requires 0 <= i < |shape| => Int(shape[i])))
  }

  /** `[io.name, io.dtype, io.shape, io.values]`. */
  function IORow(io: OnnxNodeIO): Value
  {
    List([Str(io.name), Str(io.dtype), ShapeValue(io.shape), io.values])
  }

  /** The list `set_onnx_inputs` / `set_onnx_outputs` store: one row per tensor,
      same length, same order. */
  function IORows(ios: seq<OnnxNodeIO>): seq<Value>
  {
    seq(|ios|, i requires 0 <= i < |ios| => IORow(ios[i]))
  }

  /** Reads a list of ints back. */
  function ParseInts(items: seq<Value>): Option<seq<int>>
  {
    if items == [] then Some([])
    else if !items[0].Int? then None
    else match ParseInts(items[1..])
      case None => None
      case Some(rest) => Some([items[0].i] + rest)
  }

  /** Reads one stored row back into a tensor description. */
  function ParseIORow(v: Value): Option<OnnxNodeIO>
  {
    if v.List? && |v.items| == 4 && v.items[0].Str? && v.items[1].Str? && v.items[2].List? then
      match ParseInts(v.items[2].items)
      case None => None
      case Some(shape) => Some(OnnxNodeIO(v.items[0].s, v.items[1].s, shape, v.items[3]))
    else None
  }

  /** Reads the stored rows back into tensor descriptions. */
  function ParseIORows(rows: seq<Value>): Option<seq<OnnxNodeIO>>
  {
    if rows == [] then Some([])
    else match (ParseIORow(rows[0]), ParseIORows(rows[1..]))
      case (Some(io), Some(rest)) => Some([io] + rest)
      case _ => None
  }

  lemma {:induction false} ShapeRoundTrip(shape: seq<int>)
    ensures ParseInts(ShapeValue(shape).items) == Some(shape)
  {
    if shape != [] {
      var items := ShapeValue(shape).items;
      assert items[1..] == ShapeValue(shape[1..]).items;
      ShapeRoundTrip(shape[1..]);
      assert shape == [shape[0]] + shape[1..];
    }
  }

  /** What `set_onnx_inputs` / `set_onnx_outputs` store loses nothing: every
      tensor's name, dtype, shape and values read back as given, in order. */
  lemma {:induction false} IORowsRoundTrip(ios: seq<OnnxNodeIO>)
    ensures ParseIORows(IORows(ios)) == Some(ios)
  {
    if ios != [] {
      var rows := IORows(ios);
      IORowRoundTrip(ios[0]);
      IORowsRoundTrip(ios[1..]);
      assert rows[1..] == IORows(ios[1..]);
      assert ios == [ios[0]] + ios[1..];
    }
  }

  /** One stored row reads back as the tensor it was made from. */
  lemma IORowRoundTrip(io: OnnxNodeIO)
    ensures ParseIORow(IORow(io)) == Some(io)
  {
    ShapeRoundTrip(io.shape);
  }

  // ---------------------------------------------------------------------------
  // Python's str(), as `set_dtype` applies it
  // ---------------------------------------------------------------------------

  function NatToDecimal(n: nat): (s: string)
    ensures |s| > 0
  {
    if n < 10 then ["0123456789"[n]] else NatToDecimal(n / 10) + ["0123456789"[n % 10]]
  }

  function IntToDecimal(i: int): string
  {
    if i < 0 then "-" + NatToDecimal(-i) else NatToDecimal(i)
  }

  function JoinWithComma(parts: seq<string>): string
  {
    if parts == [] then "" else if |parts| == 1 then parts[0]
    else parts[0] + ", " + JoinWithComma(parts[1..])
  }

  /** `str(v)`. */
  function PyStr(v: Value): string
    decreases v, 1
  {
    match v
    case NoneValue => "None"
    case Str(s) => s
    case Int(i) => IntToDecimal(i)
    case List(items) =>
      "[" + JoinWithComma(seq(|items|, k requires 0 <= k < |items| => PyRepr(items[k]))) + "]"
  }

  /** `repr(v)`: strings in single quotes, everything else as `str`. */
  function PyRepr(v: Value): string
    decreases v, 2
  {
    if v.Str? then "'" + v.s + "'" else PyStr(v)
  }

  /** `str` of a string is that string; of an int, its decimal digits. */
  lemma PyStrOfScalars(s: string, i: int)
    ensures PyStr(Str(s)) == s
    ensures PyStr(Int(i)) == IntToDecimal(i) && PyStr(Int(i)) != []
    ensures PyStr(Int(-7)) == "-7" && PyStr(Int(42)) == "42"
  {
  }

  // ---------------------------------------------------------------------------
  // ONNXNode
  // ---------------------------------------------------------------------------

  /** An operator node. `props` is its property store; the other fields are the
      values its setters cache. */
  class ONNXNode {
    var props: Store
    var attrs: OrderedDict
    var nodeName: Value
    var op: string
    var onnxInputs: seq<OnnxNodeIO>
    var onnxOutputs: seq<OnnxNodeIO>
    /** The title the graph view shows. */
    var viewName: string

    ghost predicate Valid()
      reads this
    {
      attrs.Valid()
    }

    /** A fresh node: empty caches, no entries of its own yet, titled with
        `NODE_NAME`. */
    constructor ()
      ensures Valid() && props == map[] && attrs == OrderedDict([], map[])
      ensures nodeName == Str("") && op == "" && onnxInputs == [] && onnxOutputs == []
      ensures viewName == "onnxnode"
    {
      props := map[];
      attrs := OrderedDict([], map[]);
      nodeName := Str("");
      op := "";
      onnxInputs := [];
      onnxOutputs := [];
      viewName := "onnxnode";
    }

    /** `set_attrs`: caches `a` and writes each attribute to `key + "_"`, in
        order, creating or updating its entry. `get_attrs` then gives `a` back. */
    method SetAttrs(a: OrderedDict)
      requires a.Valid()
      modifies this`attrs, this`props
      ensures Valid() && attrs == a
      ensures props == ApplyAttrs(old(props), a.keys, a.entries)
      ensures GetAttrs() == a
    {
      attrs := a;
      var i := 0;
      while i < |a.keys|
        invariant 0 <= i <= |a.keys| && attrs == a
        invariant props == ApplyAttrs(old(props), a.keys[..i], a.entries)
      {
        var key := a.keys[i];
        var val := a.entries[key];
        assert a.keys[..i + 1] == a.keys[..i] + [key];
        if AttrKey(key) in props {
          props := UpdateProperty(props, AttrKey(key), val);
        } else if key == "dtype" {
          props := props[AttrKey(key) := Property(val, QLabel)];
        } else {
          props := props[AttrKey(key) := Property(val, QLineEdit)];
        }
        i := i + 1;
      }
      assert a.keys[..i] == a.keys;
      AttrsRoundTrip(old(props), a);
    }

    /** `get_attrs`: the keys of the last `set_attrs`, in order, each read back
        from the store. */
    function GetAttrs(): (r: OrderedDict)
      requires Valid()
      reads this
      ensures r.Valid() && r.keys == attrs.keys
      ensures forall k :: k in attrs.keys ==> k in r.entries && r.entries[k] == GetProperty(props, AttrKey(k))
    {
      ReadAttrs(props, attrs.keys)
    }

    /** `set_node_name`: caches the name and creates or updates `node_name`. */
    method SetNodeName(name: string)
      modifies this`nodeName, this`props
      ensures nodeName == Str(name)
      ensures props == WriteProperty(old(props), "node_name", Str(name), QLineEdit)
    {
      nodeName := Str(name);
      if "node_name" !in props {
        props := props["node_name" := Property(nodeName, QLineEdit)];
      } else {
        props := UpdateProperty(props, "node_name", nodeName);
      }
    }

    /** `get_node_name`: re-reads `node_name` from the store and refreshes the cache. */
    method GetNodeName() returns (name: Value)
      modifies this`nodeName
      ensures name == GetProperty(props, "node_name") && nodeName == name
    {
      nodeName := GetProperty(props, "node_name");
      name := nodeName;
    }

    /** `set_op`: caches the operator type, shows it as the node's title and
        creates (as a label) or updates `op`. */
    method SetOp(o: string)
      modifies this`op, this`viewName, this`props
      ensures op == o && viewName == o
      ensures props == WriteProperty(old(props), "op", Str(o), QLabel)
    {
      op := o;
      viewName := o;
      if "op" !in props {
        props := props["op" := Property(Str(op), QLabel)];
      } else {
        props := UpdateProperty(props, "op", Str(op));
      }
    }

    /** `set_onnx_inputs`: caches the inputs and stores one row per input under `inputs_`. */
    method SetOnnxInputs(inputs: seq<OnnxNodeIO>)
      modifies this`onnxInputs, this`props
      ensures onnxInputs == inputs
      ensures props == WriteProperty(old(props), "inputs_", List(IORows(inputs)), QLineEdit)
    {
      onnxInputs := inputs;
      var value := List(IORows(onnxInputs));
      if "inputs_" !in props {
        props := props["inputs_" := Property(value, QLineEdit)];
      } else {
        props := UpdateProperty(props, "inputs_", value);
      }
    }

    /** `set_onnx_outputs`: caches the outputs and stores one row per output under `outputs_`. */
    method SetOnnxOutputs(outputs: seq<OnnxNodeIO>)
      modifies this`onnxOutputs, this`props
      ensures onnxOutputs == outputs
      ensures props == WriteProperty(old(props), "outputs_", List(IORows(outputs)), QLineEdit)
    {
      onnxOutputs := outputs;
      var value := List(IORows(onnxOutputs));
      if "outputs_" !in props {
        props := props["outputs_" := Property(value, QLineEdit)];
      } else {
        props := UpdateProperty(props, "outputs_", value);
      }
    }

    /** The user edits an entry in the property panel: the store changes, the
        cached fields do not. Entries shown as labels (`op`, `dtype_`) are read-only. */
    method EditProperty(name: string, text: string)
      requires name in props && props[name].widget != QLabel
      modifies this`props
      ensures props == UpdateProperty(old(props), name, Str(text))
    {
      props := UpdateProperty(props, name, Str(text));
    }
  }

  // ---------------------------------------------------------------------------
  // ONNXInput and ONNXOutput
  // ---------------------------------------------------------------------------

  /** The entries a terminal node creates at construction: empty name, shape and
      dtype, and an empty list of connected names under `namesKey`. */
  function TerminalStore(namesKey: string): (r: Store)
    ensures r.Keys == {"node_name", "shape", "dtype", namesKey}
  {
    map["node_name" := Property(Str(""), QLineEdit),
        "shape" := Property(List([]), QLineEdit),
        "dtype" := Property(Str(""), QLineEdit),
        namesKey := Property(List([]), QTextEdit)]
  }

  /** The entries a terminal node relies on exist, and its dtype is a string. */
  ghost predicate TerminalValid(store: Store, namesKey: string)
  {
    "node_name" in store && "shape" in store && "dtype" in store && namesKey in store
    && store["dtype"].value.Str?
  }

  /** A graph input: its tensor contract and the names of the nodes it feeds
      (`output_names`). */
  class ONNXInput {
    var props: Store
    var nodeName: Value
    var shape: Value
    var dtype: Value
    var outputNames: Value
    var viewName: string

    ghost predicate Valid()
      reads this
    {
      TerminalValid(props, "output_names")
    }

    constructor ()
      ensures Valid() && props == TerminalStore("output_names")
      ensures nodeName == Str("") && shape == List([]) && dtype == Str("") && outputNames == List([])
      ensures viewName == "input"
    {
      nodeName := Str("");
      shape := List([]);
      dtype := Str("");
      outputNames := List([]);
      props := TerminalStore("output_names");
      viewName := "input";
    }

    method GetNodeName() returns (v: Value)
      requires Valid()
      modifies this`nodeName
      ensures v == props["node_name"].value && nodeName == v
    {
      nodeName := props["node_name"].value;
      v := nodeName;
    }

    method SetNodeName(name: string)
      requires Valid()
      modifies this`nodeName, this`props
      ensures Valid() && nodeName == Str(name)
      ensures props == UpdateProperty(old(props), "node_name", Str(name))
    {
      nodeName := Str(name);
      props := UpdateProperty(props, "node_name", nodeName);
    }

    method GetShape() returns (v: Value)
      requires Valid()
      modifies this`shape
      ensures v == props["shape"].value && shape == v
    {
      shape := props["shape"].value;
      v := shape;
    }

    method SetShape(s: Value)
      requires Valid()
      modifies this`shape, this`props
      ensures Valid() && shape == s
      ensures props == UpdateProperty(old(props), "shape", s)
    {
      shape := s;
      props := UpdateProperty(props, "shape", shape);
    }

    /** `get_dtype`: always a string, since only strings are ever stored there. */
    method GetDtype() returns (v: Value)
      requires Valid()
      modifies this`dtype
      ensures v == props["dtype"].value && dtype == v && v.Str?
    {
      dtype := props["dtype"].value;
      v := dtype;
    }

    /** `set_dtype`: stores `str(d)`. */
    method SetDtype(d: Value)
      requires Valid()
      modifies this`dtype, this`props
      ensures Valid() && dtype == Str(PyStr(d))
      ensures props == UpdateProperty(old(props), "dtype", Str(PyStr(d)))
    {
      dtype := Str(PyStr(d));
      props := UpdateProperty(props, "dtype", dtype);
    }

    method GetOutputNames() returns (v: Value)
      requires Valid()
      modifies this`outputNames
      ensures v == props["output_names"].value && outputNames == v
    {
      outputNames := props["output_names"].value;
      v := outputNames;
    }

    method SetOutputNames(names: Value)
      requires Valid()
      modifies this`outputNames, this`props
      ensures Valid() && outputNames == names
      ensures props == UpdateProperty(old(props), "output_names", names)
    {
      outputNames := names;
      props := UpdateProperty(props, "output_names", outputNames);
    }

    /** The user edits an entry in the property panel; text edits store strings. */
    method EditProperty(name: string, text: string)
      requires Valid() && name in props
      modifies this`props
      ensures Valid() && props == UpdateProperty(old(props), name, Str(text))
    {
      props := UpdateProperty(props, name, Str(text));
    }
  }

  /** A graph output: its tensor contract and the names of the nodes that feed
      it (`input_names`). */
  class ONNXOutput {
    var props: Store
    var nodeName: Value
    var shape: Value
    var dtype: Value
    var inputNames: Value
    var viewName: string

    ghost predicate Valid()
      reads this
    {
      TerminalValid(props, "input_names")
    }

    constructor ()
      ensures Valid() && props == TerminalStore("input_names")
      ensures nodeName == Str("") && shape == List([]) && dtype == Str("") && inputNames == List([])
      ensures viewName == "output"
    {
      nodeName := Str("");
      shape := List([]);
      dtype := Str("");
      inputNames := List([]);
      props := TerminalStore("input_names");
      viewName := "output";
    }

    method GetNodeName() returns (v: Value)
      requires Valid()
      modifies this`nodeName
      ensures v == props["node_name"].value && nodeName == v
    {
      nodeName := props["node_name"].value;
      v := nodeName;
    }

    method SetNodeName(name: string)
      requires Valid()
      modifies this`nodeName, this`props
      ensures Valid() && nodeName == Str(name)
      ensures props == UpdateProperty(old(props), "node_name", Str(name))
    {
      nodeName := Str(name);
      props := UpdateProperty(props, "node_name", nodeName);
    }

    method GetShape() returns (v: Value)
      requires Valid()
      modifies this`shape
      ensures v == props["shape"].value && shape == v
    {
      shape := props["shape"].value;
      v := shape;
    }

    method SetShape(s: Value)
      requires Valid()
      modifies this`shape, this`props
      ensures Valid() && shape == s
      ensures props == UpdateProperty(old(props), "shape", s)
    {
      shape := s;
      props := UpdateProperty(props, "shape", shape);
    }

    /** `get_dtype`: always a string, since only strings are ever stored there. */
    method GetDtype() returns (v: Value)
      requires Valid()
      modifies this`dtype
      ensures v == props["dtype"].value && dtype == v && v.Str?
    {
      dtype := props["dtype"].value;
      v := dtype;
    }

    /** `set_dtype`: stores `str(d)`. */
    method SetDtype(d: Value)
      requires Valid()
      modifies this`dtype, this`props
      ensures Valid() && dtype == Str(PyStr(d))
      ensures props == UpdateProperty(old(props), "dtype", Str(PyStr(d)))
    {
      dtype := Str(PyStr(d));
      props := UpdateProperty(props, "dtype", dtype);
    }

    method GetInputNames() returns (v: Value)
      requires Valid()
      modifies this`inputNames
      ensures v == props["input_names"].value && inputNames == v
    {
      inputNames := props["input_names"].value;
      v := inputNames;
    }

    method SetInputNames(names: Value)
      requires Valid()
      modifies this`inputNames, this`props
      ensures Valid() && inputNames == names
      ensures props == UpdateProperty(old(props), "input_names", names)
    {
      inputNames := names;
      props := UpdateProperty(props, "input_names", inputNames);
    }

    /** The user edits an entry in the property panel; text edits store strings. */
    method EditProperty(name: string, text: string)
      requires Valid() && name in props
      modifies this`props
      ensures Valid() && props == UpdateProperty(old(props), name, Str(text))
    {
      props := UpdateProperty(props, name, Str(text));
    }
  }
}
