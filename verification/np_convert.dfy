/** `convert_np_types`: the value tree produced by the data generator, in which
    numpy scalars and arrays are replaced by plain Python numbers and lists so
    that the tree can be written as JSON. */
module NpConvert {

  /** The Python values that occur in the tree. The `Np` variants are numpy's
      integer and floating scalars, its boolean scalar and its `ndarray` (whose
      elements are again values). Floating values are read as exact reals. */
  datatype PyValue =
    | PyInt(i: int)
    | PyFloat(f: real)
    | PyBool(b: bool)
    | PyStr(s: string)
    | PyNone
    | PyList(items: seq<PyValue>)
    | PyTuple(items: seq<PyValue>)
    | PyDict(entries: seq<DictEntry>)
    | NpInt(i: int)
    | NpFloat(f: real)
    | NpBool(b: bool)
    | NpArray(items: seq<PyValue>)

  /** One key/value pair of a dictionary, in insertion order. */
  datatype DictEntry = DictEntry(key: PyValue, value: PyValue)

  /** A measure that `ndarray.tolist()` does not increase and that drops from an
      array to the list it becomes. */
  function Size(v: PyValue): (n: nat)
    ensures n >= 1
    decreases v
  {
    match v
    case PyList(items) => 1 + SizeSeq(items)
    case PyTuple(items) => 1 + SizeSeq(items)
    case PyDict(entries) => 1 + SizeEntries(entries)
    case NpArray(items) => 2 + SizeSeq(items)
    case _ => 1
  }

  function SizeSeq(s: seq<PyValue>): nat
    decreases s
  {
    if s == [] then 0 else Size(s[0]) + SizeSeq(s[1..])
  }

  function SizeEntries(es: seq<DictEntry>): nat
    decreases es
  {
    if es == [] then 0 else SizeEntry(es[0]) + SizeEntries(es[1..])
  }

  function SizeEntry(e: DictEntry): nat
    decreases e
  {
    Size(e.key) + Size(e.value)
  }

  /** The elements of `ndarray.tolist()`. The elements of an `NpArray` stand
      for the values of a typed (numeric or bool) array: numpy scalars become
      the Python scalars they hold and nested arrays become nested lists.
      Other values are kept. An object array, whose `tolist()` keeps every
      element as it is (an `np.bool_` included), is not modelled. */
  function ToList(items: seq<PyValue>): (r: seq<PyValue>)
    ensures |r| == |items|
    ensures SizeSeq(r) <= SizeSeq(items)
  {
    if items == [] then []
    else
      var x := items[0];
      var y := match x
        case NpInt(i) => PyInt(i)
        case NpFloat(f) => PyFloat(f)
        case NpBool(b) => PyBool(b)
        case NpArray(sub) => PyList(ToList(sub))
        case _ => x;
      [y] + ToList(items[1..])
  }

  /** `convert_np_types`: dictionaries and lists are rebuilt from their converted
      parts, numpy integers and floats become Python ones, an array is converted
      through its `tolist()`, and every other value (strings, Python scalars,
      `None`, tuples, numpy booleans) is returned unchanged. */
  function Convert(v: PyValue): (r: PyValue)
    ensures v.PyDict? ==> (r.PyDict? && |r.entries| == |v.entries| &&
              forall k :: 0 <= k < |v.entries| ==> r.entries[k].key == v.entries[k].key)
    ensures v.PyList? ==> r.PyList? && |r.items| == |v.items|
    ensures v.NpInt? ==> r == PyInt(v.i)
    ensures v.NpFloat? ==> r == PyFloat(v.f)
    ensures v.NpArray? ==> r.PyList? && |r.items| == |v.items|
    ensures !(v.PyDict? || v.PyList? || v.NpInt? || v.NpFloat? || v.NpArray?) ==> r == v
    decreases Size(v), 0
  {
    match v
    case PyDict(entries) => PyDict(ConvertEntries(entries))
    case PyList(items) => PyList(ConvertSeq(items))
    case NpInt(i) => PyInt(i)
    case NpFloat(f) => PyFloat(f)
    case NpArray(items) => Convert(PyList(ToList(items)))
    case _ => v
  }

  function ConvertSeq(s: seq<PyValue>): (r: seq<PyValue>)
    ensures |r| == |s|
    decreases SizeSeq(s), 1
  {
    if s == [] then [] else [Convert(s[0])] + ConvertSeq(s[1..])
  }

  function ConvertEntries(es: seq<DictEntry>): (r: seq<DictEntry>)
    ensures |r| == |es|
    ensures forall k :: 0 <= k < |es| ==> r[k].key == es[k].key
    decreases SizeEntries(es), 1
  {
    if es == [] then []
    else
      assert SizeEntry(es[0]) == Size(es[0].key) + Size(es[0].value);
      [DictEntry(es[0].key, Convert(es[0].value))] + ConvertEntries(es[1..])
  }

  /** A value with no numpy integer, float or array left in it, outside of
      tuples, numpy booleans and dictionary keys (which the conversion does not
      enter). */
  predicate Clean(v: PyValue)
  {
    match v
    case NpInt(_) => false
    case NpFloat(_) => false
    case NpArray(_) => false
    case PyList(items) => forall k :: 0 <= k < |items| ==> Clean(items[k])
    case PyDict(entries) => forall k :: 0 <= k < |entries| ==> Clean(entries[k].value)
    case _ => true
  }

  lemma {:induction false} ConvertSeqAt(s: seq<PyValue>, k: nat)
    requires k < |s|
    ensures ConvertSeq(s)[k] == Convert(s[k])
    decreases |s|
  {
    if k > 0 { ConvertSeqAt(s[1..], k - 1); }
  }

  lemma {:induction false} ConvertEntriesAt(es: seq<DictEntry>, k: nat)
    requires k < |es|
    ensures ConvertEntries(es)[k].value == Convert(es[k].value)
    decreases |es|
  {
    if k > 0 { ConvertEntriesAt(es[1..], k - 1); }
  }

  /** The output of the conversion holds no numpy integer, float or array. */
  lemma {:induction false} ConvertIsClean(v: PyValue)
    ensures Clean(Convert(v))
    decreases Size(v)
  {
    match v
    case PyDict(entries) =>
      forall k | 0 <= k < |entries| ensures Clean(ConvertEntries(entries)[k].value) {
        ConvertEntriesAt(entries, k);
        EntrySmaller(entries, k);
        ConvertIsClean(entries[k].value);
      }
    case PyList(items) =>
      forall k | 0 <= k < |items| ensures Clean(ConvertSeq(items)[k]) {
        ConvertSeqAt(items, k);
        ItemSmaller(items, k);
        ConvertIsClean(items[k]);
      }
    case NpArray(items) =>
      ConvertIsClean(PyList(ToList(items)));
    case _ =>
  }

  /** A clean value is left exactly as it is. */
  lemma {:induction false} ConvertClean(v: PyValue)
    requires Clean(v)
    ensures Convert(v) == v
    decreases Size(v)
  {
    match v
    case PyDict(entries) =>
      forall k | 0 <= k < |entries| ensures ConvertEntries(entries)[k] == entries[k] {
        ConvertEntriesAt(entries, k);
        EntrySmaller(entries, k);
        ConvertClean(entries[k].value);
      }
      assert ConvertEntries(entries) == entries;
    case PyList(items) =>
      forall k | 0 <= k < |items| ensures ConvertSeq(items)[k] == items[k] {
        ConvertSeqAt(items, k);
        ItemSmaller(items, k);
        ConvertClean(items[k]);
      }
      assert ConvertSeq(items) == items;
    case _ =>
  }

  /** Converting twice is the same as converting once. */
  lemma ConvertIdempotent(v: PyValue)
    ensures Convert(Convert(v)) == Convert(v)
  {
    ConvertIsClean(v);
    ConvertClean(Convert(v));
  }

  lemma {:induction false} ItemSmaller(s: seq<PyValue>, k: nat)
    requires k < |s|
    ensures Size(s[k]) <= SizeSeq(s)
    decreases |s|
  {
    if k > 0 { ItemSmaller(s[1..], k - 1); }
  }

  lemma {:induction false} EntrySmaller(es: seq<DictEntry>, k: nat)
    requires k < |es|
    ensures Size(es[k].value) < SizeEntries(es)
    decreases |es|
  {
    assert SizeEntry(es[0]) == Size(es[0].key) + Size(es[0].value);
    if k > 0 { EntrySmaller(es[1..], k - 1); }
  }
}
