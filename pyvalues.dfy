/** The Python values the gateway handles without knowing their types: JSON
    payload fields, engine results and the plain data it sends back.

    A closed set of shapes stands for Python's open world: scalars, lists,
    dicts, dataclass instances and other objects that carry a `__dict__`.
    A dict, a dataclass's fields and an object's `__dict__` are association
    lists, because Python dicts keep insertion order and the JSON the
    gateway writes keeps that order too. */
module PyValues {

  datatype PyValue =
    | PNone
    | PBool(b: bool)
    | PInt(i: int)
    | PFloat(f: real)
    | PStr(s: string)
    | PList(items: seq<PyValue>)
    | PDict(entries: seq<(string, PyValue)>)
    /** A dataclass instance: its fields in declaration order. */
    | PDataclass(entries: seq<(string, PyValue)>)
    /** Any other object with a `__dict__`: its attributes in insertion order. */
    | PObject(entries: seq<(string, PyValue)>)
  {
    /** No `__dict__`, not a list, not a dict: `None`, booleans, numbers, strings. */
    predicate IsScalar() {
      PNone? || PBool? || PInt? || PFloat? || PStr?
    }
  }

  type Dict = seq<(string, PyValue)>

  /** The keys of a dict, in insertion order. */
  function Keys(d: Dict): (ks: seq<string>)
    ensures |ks| == |d|
    ensures forall i :: 0 <= i < |d| ==> ks[i] == d[i].0
  {
    if d == [] then [] else [d[0].0] + Keys(d[1..])
  }

  /** A real Python dict never holds one key twice. */
  predicate DistinctKeys(d: Dict) {
    forall i, j :: 0 <= i < j < |d| ==> d[i].0 != d[j].0
  }

  /** `d.get(k)`: the value stored under `k`, or `None` when `k` is absent. */
  function Get(d: Dict, k: string): (v: PyValue)
    ensures k !in Keys(d) ==> v == PNone
  {
    if d == [] then PNone
    else if d[0].0 == k then d[0].1
    else Get(d[1..], k)
  }

  /** `d.get(d[i].0) == d[i].1`: every stored pair can be looked up again. */
  lemma {:induction false} GetFindsStoredValue(d: Dict, i: int)
    requires DistinctKeys(d)
    requires 0 <= i < |d|
    ensures Get(d, d[i].0) == d[i].1
  {
    if i > 0 {
      assert d[0].0 != d[i].0;
      assert d[1..][i - 1] == d[i];
      GetFindsStoredValue(d[1..], i - 1);
    }
  }

  /** Python's truth value (`bool(v)`): empty and zero values are false. */
  predicate Truthy(v: PyValue) {
    match v
    case PNone => false
    case PBool(b) => b
    case PInt(i) => i != 0
    case PFloat(f) => f != 0.0
    case PStr(s) => s != []
    case PList(items) => items != []
    case PDict(entries) => entries != []
    case PDataclass(_) => true
    case PObject(_) => true
  }
}
