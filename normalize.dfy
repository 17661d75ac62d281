/** Result normalisation: whatever the engine returns, turned into plain data
    (lists, dicts and scalars) and wrapped under one top-level key. */
module Normalize {
  import opened PyValues

  /** Only lists, dicts and scalars, all the way down. */
  predicate Plain(v: PyValue) {
    match v
    case PList(items) => forall i :: 0 <= i < |items| ==> Plain(items[i])
    case PDict(entries) => forall i :: 0 <= i < |entries| ==> Plain(entries[i].1)
    case PDataclass(_) => false
    case PObject(_) => false
    case _ => true
  }

  /** No plain object anywhere (dataclasses allowed). */
  predicate NoObjects(v: PyValue) {
    match v
    case PList(items) => forall i :: 0 <= i < |items| ==> NoObjects(items[i])
    case PDict(entries) => forall i :: 0 <= i < |entries| ==> NoObjects(entries[i].1)
    case PDataclass(entries) => forall i :: 0 <= i < |entries| ==> NoObjects(entries[i].1)
    case PObject(_) => false
    case _ => true
  }

  /** `dataclasses.asdict` (its recursive helper): dataclasses become dicts of
      their fields, lists and dicts are rebuilt from converted parts, and every
      other value, plain objects included, is copied as it is. */
  function AsDict(v: PyValue): (r: PyValue)
    ensures v.PList? ==> r.PList? && |r.items| == |v.items|
    ensures v.PList? ==> forall i :: 0 <= i < |v.items| ==> r.items[i] == AsDict(v.items[i])
    ensures v.PDict? || v.PDataclass? ==> r.PDict? && Keys(r.entries) == Keys(v.entries)
    ensures v.PDict? || v.PDataclass? ==>
              forall i :: 0 <= i < |v.entries| ==> r.entries[i].1 == AsDict(v.entries[i].1)
    ensures v.IsScalar() || v.PObject? ==> r == v
  {
    match v
    case PList(items) => PList(seq(|items|, i requires 0 <= i < |items| => AsDict(items[i])))
    case PDict(entries) => PDict(seq(|entries|, i requires 0 <= i < |entries| => (entries[i].0, AsDict(entries[i].1))))
    case PDataclass(entries) => PDict(seq(|entries|, i requires 0 <= i < |entries| => (entries[i].0, AsDict(entries[i].1))))
    case _ => v
  }

  /** `_to_json`: a dataclass goes through `asdict`; a list converts element by
      element in order; a dict keeps exactly its keys, in order, and converts its
      values; another object converts as the dict of its attributes; any other
      value is returned unchanged. Total on every value. */
  function ToJson(v: PyValue): (r: PyValue)
    ensures v.PList? ==> r.PList? && |r.items| == |v.items|
    ensures v.PList? ==> forall i :: 0 <= i < |v.items| ==> r.items[i] == ToJson(v.items[i])
    ensures !v.PList? && !v.IsScalar() ==> r.PDict? && Keys(r.entries) == Keys(v.entries)
    ensures v.PDict? || v.PObject? ==>
              forall i :: 0 <= i < |v.entries| ==> r.entries[i].1 == ToJson(v.entries[i].1)
    ensures v.PDataclass? ==> r == AsDict(v)
    ensures v.IsScalar() ==> r == v
  {
    match v
    case PDataclass(_) => AsDict(v)
    case PList(items) => PList(seq(|items|, i requires 0 <= i < |items| => ToJson(items[i])))
    case PDict(entries) => PDict(seq(|entries|, i requires 0 <= i < |entries| => (entries[i].0, ToJson(entries[i].1))))
    case PObject(entries) => PDict(seq(|entries|, i requires 0 <= i < |entries| => (entries[i].0, ToJson(entries[i].1))))
    case _ => v
  }

  /** Data that is already plain comes back equal. */
  lemma {:induction false} ToJsonKeepsPlainData(v: PyValue)
    requires Plain(v)
    ensures ToJson(v) == v
  {
    match v
    case PList(items) =>
      forall i | 0 <= i < |items| ensures ToJson(items[i]) == items[i] {
        ToJsonKeepsPlainData(items[i]);
      }
      assert ToJson(v).items == items;
    case PDict(entries) =>
      forall i | 0 <= i < |entries| ensures ToJson(entries[i].1) == entries[i].1 {
        ToJsonKeepsPlainData(entries[i].1);
      }
      assert ToJson(v).entries == entries;
    case _ =>
  }

  /** `asdict` on a value without plain objects yields plain data. */
  lemma {:induction false} AsDictYieldsPlain(v: PyValue)
    requires NoObjects(v)
    ensures Plain(AsDict(v))
  {
    match v
    case PList(items) =>
      forall i | 0 <= i < |items| ensures Plain(AsDict(items[i])) {
        AsDictYieldsPlain(items[i]);
      }
    case PDict(entries) =>
      forall i | 0 <= i < |entries| ensures Plain(AsDict(entries[i].1)) {
        AsDictYieldsPlain(entries[i].1);
      }
    case PDataclass(entries) =>
      forall i | 0 <= i < |entries| ensures Plain(AsDict(entries[i].1)) {
        AsDictYieldsPlain(entries[i].1);
      }
    case _ =>
  }

  /** The values `_to_json` turns fully into plain data: those in which no
      dataclass holds a plain object (`asdict` copies such objects as they are). */
  predicate Convertible(v: PyValue) {
    match v
    case PList(items) => forall i :: 0 <= i < |items| ==> Convertible(items[i])
    case PDict(entries) => forall i :: 0 <= i < |entries| ==> Convertible(entries[i].1)
    case PObject(entries) => forall i :: 0 <= i < |entries| ==> Convertible(entries[i].1)
    case PDataclass(_) => NoObjects(v)
    case _ => true
  }

  lemma {:induction false} ToJsonYieldsPlain(v: PyValue)
    requires Convertible(v)
    ensures Plain(ToJson(v))
  {
    match v
    case PDataclass(_) => AsDictYieldsPlain(v);
    case PList(items) =>
      forall i | 0 <= i < |items| ensures Plain(ToJson(items[i])) {
        ToJsonYieldsPlain(items[i]);
      }
    case PDict(entries) =>
      forall i | 0 <= i < |entries| ensures Plain(ToJson(entries[i].1)) {
        ToJsonYieldsPlain(entries[i].1);
      }
    case PObject(entries) =>
      forall i | 0 <= i < |entries| ensures Plain(ToJson(entries[i].1)) {
        ToJsonYieldsPlain(entries[i].1);
      }
    case _ =>
  }

  /** Converting twice is converting once, on the values it converts fully. */
  lemma ToJsonIdempotent(v: PyValue)
    requires Convertible(v)
    ensures ToJson(ToJson(v)) == ToJson(v)
  {
    ToJsonYieldsPlain(v);
    ToJsonKeepsPlainData(ToJson(v));
  }

  /** A plain object held in a dataclass field survives conversion as an
      object: `asdict` copies it instead of converting it. */
  lemma ObjectInDataclassSurvives()
    ensures var v := PDataclass([("meta", PObject([("k", PInt(1))]))]);
      ToJson(v) == PDict([("meta", PObject([("k", PInt(1))]))]) && !Plain(ToJson(v))
  {
    var v := PDataclass([("meta", PObject([("k", PInt(1))]))]);
    assert ToJson(v).entries == [("meta", PObject([("k", PInt(1))]))];
  }

  /** `_normalize_result`: a list goes under `documents`, anything else under
      `document`; either way the one entry holds the converted value. */
  function NormalizeResult(result: PyValue): (r: Dict)
    ensures |r| == 1
    ensures r[0].0 == "documents" <==> result.PList?
    ensures r[0].0 == "document" <==> !result.PList?
    ensures r[0].1 == ToJson(result)
  {
    if result.PList? then [("documents", ToJson(result))] else [("document", ToJson(result))]
  }

  /** A list of documents keeps its length and order under `documents`. */
  lemma NormalizeKeepsDocumentOrder(docs: seq<PyValue>)
    ensures var r := NormalizeResult(PList(docs));
      && r[0].0 == "documents"
      && r[0].1.PList? && |r[0].1.items| == |docs|
      && forall i :: 0 <= i < |docs| ==> r[0].1.items[i] == ToJson(docs[i])
  {
  }

  /** A single result object, like the one the service's own test returns,
      comes back as its attribute dict under `document`. */
  lemma NormalizeSingleObject()
    ensures var doc := PObject([("document_id", PStr("doc_123")), ("text", PStr("ROMEO meets JULIET.")), ("extractions", PList([]))]);
      NormalizeResult(doc) == [("document", PDict(doc.entries))]
  {
    var doc := PObject([("document_id", PStr("doc_123")), ("text", PStr("ROMEO meets JULIET.")), ("extractions", PList([]))]);
    assert ToJson(PList([])) == PList([]);
    assert ToJson(doc).entries == doc.entries;
  }
}
