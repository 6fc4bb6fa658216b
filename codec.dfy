/** The node codec of api/service/monsti.go: `nodeToData` and `dataToNode`.
    A node's declared fields are stored in a two-level map `group -> name -> raw dump`,
    where group and name come from cutting the field id at its first '.'. */
module Codec {
  import opened Base
  import opened GoStrings

  /** A field slot declared by a node type, e.g. `core.title`. */
  datatype FieldType = FieldType(id: string, kind: string)

  /** A document kind: its global id and its declared fields, in order. */
  datatype NodeType = NodeType(id: string, fields: seq<FieldType>)

  /** The attributes of a node. `fields` maps a field id to the field's value. */
  datatype NodeState<V> = NodeState(
    path: string,
    nodeType: NodeType,
    localFields: seq<FieldType>,
    changed: int,
    fields: map<string, V>)
  {
    /** `append(node.Type.Fields, node.LocalFields...)`. */
    function Declared(): seq<FieldType>
    {
      nodeType.fields + localFields
    }
  }

  /** The raw field dumps of an envelope, grouped: `Fields[group][name]`. */
  type RawFields = map<string, map<string, Bytes>>

  /** The JSON document (`nodeJSON`): the node's attributes, its type by id only,
      and the grouped raw field dumps. */
  datatype Envelope = Envelope(
    path: string,
    changed: int,
    localFields: seq<FieldType>,
    nodeType: string,
    fields: RawFields)

  /** The field implementations, which are not part of this model:
      `init` builds the fresh field values of `InitFields`, `dump` is `Field.Dump`
      followed by `json.Marshal`, `load` is `Field.Load` fed by `json.Unmarshal`. */
  datatype FieldKinds<!V> = FieldKinds(
    init: seq<FieldType> -> Result<map<string, V>>,
    dump: V -> Result<Bytes>,
    load: (V, Bytes) -> V)

  /** The JSON encoding of envelopes (`json.Marshal`/`MarshalIndent`, `json.Unmarshal`).
      The encoder does not copy an embedded raw dump verbatim: `json.Marshal` compacts it and
      `json.MarshalIndent` re-indents it at its depth in the document. `relayout(raw, indent)` is
      the text of the dump as it appears in the output. */
  datatype Json = Json(
    marshal: (Envelope, bool) -> Result<Bytes>,
    unmarshal: Bytes -> Result<Envelope>,
    relayout: (Bytes, bool) -> Bytes)

  /** The law assumed of every field implementation: loading a dump restores the dumped value,
      whatever value the field held before. */
  ghost predicate LoadInvertsDump<V(!new)>(k: FieldKinds<V>)
  {
    forall v :: k.dump(v).Ok? ==> forall d :: k.load(d, k.dump(v).value) == v
  }

  /** The law assumed of loading and the JSON layout: `Field.Load` reads its dump through
      `json.Unmarshal`, which does not see whitespace, so a relaid dump loads as the original. */
  ghost predicate LoadIgnoresLayout<V(!new)>(k: FieldKinds<V>, j: Json)
  {
    forall d, raw, indent :: k.load(d, j.relayout(raw, indent)) == k.load(d, raw)
  }

  /** Every raw dump of `raw` as the encoder lays it out. */
  function Relayout(j: Json, raw: RawFields, indent: bool): (r: RawFields)
    ensures forall g, n :: Stored(r, (g, n)) <==> Stored(raw, (g, n))
  {
    map g | g in raw :: map n | n in raw[g] :: j.relayout(raw[g][n], indent)
  }

  /** The law assumed of the JSON encoding: a marshalled envelope is a non-empty document
      that unmarshals to the same envelope, with every raw dump as the encoder laid it out. */
  ghost predicate UnmarshalInvertsMarshal(j: Json)
  {
    forall e, indent ::
      j.marshal(e, indent).Ok? ==>
        && |j.marshal(e, indent).value| > 0
        && j.unmarshal(j.marshal(e, indent).value) == Ok(e.(fields := Relayout(j, e.fields, indent)))
  }

  /** `strings.SplitN(id, ".", 2)` as a (group, name) key; None when the id has no '.',
      where Go's `parts[1]` would be out of range. The group is free of '.', and
      group '.' name is the id again. */
  function FieldKey(id: string): (r: Option<(string, string)>)
    ensures r.Some? <==> '.' in id
    ensures r.Some? ==> id == r.value.0 + ['.'] + r.value.1 && '.' !in r.value.0
  {
    var parts := SplitN2(id, '.');
    if |parts| == 2 then Some((parts[0], parts[1])) else None
  }

  /** Two ids with the same key are the same id. */
  lemma FieldKeyInjective(a: string, b: string)
    requires FieldKey(a).Some? && FieldKey(a) == FieldKey(b)
    ensures a == b
  {
  }

  /** The set of field ids of a field list. */
  function Ids(fs: seq<FieldType>): set<string>
  {
    set i | 0 <= i < |fs| :: fs[i].id
  }

  /** Store a raw dump at `m[group][name]`, creating the group on first use. */
  function Put(m: RawFields, group: string, name: string, raw: Bytes): RawFields
  {
    m[group := (if group in m then m[group] else map[])[name := raw]]
  }

  /** True when `m[key.0][key.1]` exists. */
  predicate Stored(m: RawFields, key: (string, string))
  {
    key.0 in m && key.1 in m[key.0]
  }

  /** Field `f` can be stored: it has a value, the value dumps, and its id has a key. */
  predicate Encodable<V>(k: FieldKinds<V>, values: map<string, V>, f: FieldType)
  {
    f.id in values && k.dump(values[f.id]).Ok? && FieldKey(f.id).Some?
  }

  /** The loop of `nodeToData` over the first |fs| declared fields: dump each field and
      store it under its key. A field with no value (`nil` Field) or an id without '.'
      panics; a failing dump is reported. The loop succeeds exactly when every field
      can be stored. */
  function EncodeFields<V>(k: FieldKinds<V>, fs: seq<FieldType>, values: map<string, V>): (r: Result<RawFields>)
    ensures r.Ok? <==> forall i :: 0 <= i < |fs| ==> Encodable(k, values, fs[i])
    decreases |fs|
  {
    if fs == [] then Ok(map[])
    else
      match EncodeFields(k, fs[..|fs| - 1], values)
      case Err(e) => Err(e)
      case Ok(m) =>
        var f := fs[|fs| - 1];
        if f.id !in values then Err(Panic("nil field " + f.id))
        else
          match k.dump(values[f.id])
          case Err(e) => Err(Wrapped("Could not marshal field", e))
          case Ok(raw) =>
            match FieldKey(f.id)
            case None => Err(Panic("index out of range splitting " + f.id))
            case Some(key) => Ok(Put(m, key.0, key.1, raw))
  }

  /** Once a prefix of the field list fails, the whole loop fails with that error. */
  lemma {:induction false} EncodeFieldsStops<V>(k: FieldKinds<V>, fs: seq<FieldType>, values: map<string, V>, i: nat)
    requires i <= |fs| && EncodeFields(k, fs[..i], values).Err?
    ensures EncodeFields(k, fs, values) == EncodeFields(k, fs[..i], values)
    decreases |fs| - i
  {
    if i < |fs| {
      assert fs[..i + 1][..i] == fs[..i];
      EncodeFieldsStops(k, fs, values, i + 1);
    } else {
      assert fs[..i] == fs;
    }
  }

  /** Field `f` of `values` is stored, as its dump, at `m[group][name]` of its key. */
  predicate StoresDump<V>(k: FieldKinds<V>, m: RawFields, values: map<string, V>, f: FieldType)
  {
    && f.id in values
    && k.dump(values[f.id]).Ok?
    && FieldKey(f.id).Some?
    && Stored(m, FieldKey(f.id).value)
    && m[FieldKey(f.id).value.0][FieldKey(f.id).value.1] == k.dump(values[f.id]).value
  }

  /** Field `f` comes back as its value from `m`: the entry at its key loads as `values[f.id]`,
      whatever the slot held before. */
  ghost predicate LoadsBack<V(!new)>(k: FieldKinds<V>, m: RawFields, values: map<string, V>, f: FieldType)
  {
    && f.id in values
    && FieldKey(f.id).Some?
    && Stored(m, FieldKey(f.id).value)
    && forall d :: k.load(d, m[FieldKey(f.id).value.0][FieldKey(f.id).value.1]) == values[f.id]
  }

  /** A dump that the encoder relaid still loads back, under the two loading laws. */
  lemma RelaidDumpLoadsBack<V(!new)>(k: FieldKinds<V>, j: Json, m: RawFields, values: map<string, V>, f: FieldType, indent: bool)
    requires LoadInvertsDump(k) && LoadIgnoresLayout(k, j)
    requires StoresDump(k, m, values, f)
    ensures LoadsBack(k, Relayout(j, m, indent), values, f)
  {
  }

  /** The layout `nodeToData` produces: every declared field `g.n` is stored, as its dump,
      at `[g][n]`. */
  lemma {:induction false} EncodeLayout<V>(k: FieldKinds<V>, fs: seq<FieldType>, values: map<string, V>)
    requires EncodeFields(k, fs, values).Ok?
    ensures forall i :: 0 <= i < |fs| ==> StoresDump(k, EncodeFields(k, fs, values).value, values, fs[i])
    decreases |fs|
  {
    if fs != [] {
      var init := fs[..|fs| - 1];
      var f := fs[|fs| - 1];
      EncodeLayout(k, init, values);
      var m0 := EncodeFields(k, init, values).value;
      var m := EncodeFields(k, fs, values).value;
      var key := FieldKey(f.id).value;
      assert m == Put(m0, key.0, key.1, k.dump(values[f.id]).value);
      forall i | 0 <= i < |fs| ensures StoresDump(k, m, values, fs[i]) {
        if i < |fs| - 1 {
          assert fs[i] == init[i];
          assert StoresDump(k, m0, values, fs[i]);
          if FieldKey(fs[i].id) == Some(key) {
            FieldKeyInjective(fs[i].id, f.id);
          }
        }
      }
    }
  }

  /** `nodeToData` stores nothing but declared fields: every entry `[g][n]` is the key
      of some declared field. */
  lemma {:induction false} EncodeOnlyDeclared<V>(k: FieldKinds<V>, fs: seq<FieldType>, values: map<string, V>, g: string, n: string)
    requires EncodeFields(k, fs, values).Ok?
    requires Stored(EncodeFields(k, fs, values).value, (g, n))
    ensures exists i :: 0 <= i < |fs| && FieldKey(fs[i].id) == Some((g, n))
    decreases |fs|
  {
    var init := fs[..|fs| - 1];
    var f := fs[|fs| - 1];
    var m0 := EncodeFields(k, init, values).value;
    var key := FieldKey(f.id).value;
    if (g, n) == key {
      assert FieldKey(fs[|fs| - 1].id) == Some((g, n));
    } else {
      assert Stored(m0, (g, n));
      EncodeOnlyDeclared(k, init, values, g, n);
      var i :| 0 <= i < |init| && FieldKey(init[i].id) == Some((g, n));
      assert fs[i] == init[i];
    }
  }

  /** `nodeToData` as a value: the envelope keeps the node's attributes except its path,
      which is emptied, and records the type by id only. */
  function Encode<V>(k: FieldKinds<V>, j: Json, s: NodeState<V>, indent: bool): (r: Result<Bytes>)
    ensures EncodeFields(k, s.Declared(), s.fields).Err? ==> r == Err(EncodeFields(k, s.Declared(), s.fields).error)
    ensures r.Ok? ==>
      && EncodeFields(k, s.Declared(), s.fields).Ok?
      && j.marshal(Envelope("", s.changed, s.localFields, s.nodeType.id, EncodeFields(k, s.Declared(), s.fields).value), indent) == Ok(r.value)
    ensures EncodeFields(k, s.Declared(), s.fields).Ok?
      && j.marshal(Envelope("", s.changed, s.localFields, s.nodeType.id, EncodeFields(k, s.Declared(), s.fields).value), indent).Err?
      ==> r == Err(Wrapped("service: Could not marshal node",
        j.marshal(Envelope("", s.changed, s.localFields, s.nodeType.id, EncodeFields(k, s.Declared(), s.fields).value), indent).error))
    ensures EncodeFields(k, s.Declared(), s.fields).Ok?
      && j.marshal(Envelope("", s.changed, s.localFields, s.nodeType.id, EncodeFields(k, s.Declared(), s.fields).value), indent).Ok?
      ==> r.Ok?
  {
    match EncodeFields(k, s.Declared(), s.fields)
    case Err(e) => Err(e)
    case Ok(raw) =>
      match j.marshal(Envelope("", s.changed, s.localFields, s.nodeType.id, raw), indent)
      case Err(e) => Err(Wrapped("service: Could not marshal node", e))
      case Ok(data) => Ok(data)
  }

  /** What is encoded never depends on the node's path. */
  lemma EncodeIgnoresPath<V>(k: FieldKinds<V>, j: Json, s: NodeState<V>, indent: bool, p: string)
    ensures Encode(k, j, s.(path := p), indent) == Encode(k, j, s, indent)
  {
  }

  /** The loop of `dataToNode` over the first |fs| declared fields: a field whose raw dump is
      present is loaded from it; an absent one keeps its initialised value. */
  function DecodeFields<V>(k: FieldKinds<V>, raw: RawFields, fs: seq<FieldType>, defaults: map<string, V>): (r: Result<map<string, V>>)
    ensures r.Ok? ==> r.value.Keys == defaults.Keys
    decreases |fs|
  {
    if fs == [] then Ok(defaults)
    else
      match DecodeFields(k, raw, fs[..|fs| - 1], defaults)
      case Err(e) => Err(e)
      case Ok(m) =>
        var f := fs[|fs| - 1];
        match FieldKey(f.id)
        case None => Err(Panic("index out of range splitting " + f.id))
        case Some(key) =>
          if Stored(raw, key) then
            if f.id in m then Ok(m[f.id := k.load(m[f.id], raw[key.0][key.1])])
            else Err(Panic("nil field " + f.id))
          else Ok(m)
  }

  /** Once a prefix of the field list fails, the whole loop fails with that error. */
  lemma {:induction false} DecodeFieldsStops<V>(k: FieldKinds<V>, raw: RawFields, fs: seq<FieldType>, defaults: map<string, V>, i: nat)
    requires i <= |fs| && DecodeFields(k, raw, fs[..i], defaults).Err?
    ensures DecodeFields(k, raw, fs, defaults) == DecodeFields(k, raw, fs[..i], defaults)
    decreases |fs| - i
  {
    if i < |fs| {
      assert fs[..i + 1][..i] == fs[..i];
      DecodeFieldsStops(k, raw, fs, defaults, i + 1);
    } else {
      assert fs[..i] == fs;
    }
  }

  /** A field whose key has no raw entry keeps its initialised default. */
  lemma {:induction false} DecodeMissingKeepsDefault<V>(k: FieldKinds<V>, raw: RawFields, fs: seq<FieldType>, defaults: map<string, V>, id: string)
    requires DecodeFields(k, raw, fs, defaults).Ok?
    requires id in defaults && FieldKey(id).Some? && !Stored(raw, FieldKey(id).value)
    ensures DecodeFields(k, raw, fs, defaults).value[id] == defaults[id]
    decreases |fs|
  {
    if fs != [] {
      var f := fs[|fs| - 1];
      DecodeMissingKeepsDefault(k, raw, fs[..|fs| - 1], defaults, id);
      if f.id == id {
        assert FieldKey(f.id) == FieldKey(id);
      }
    }
  }

  /** A raw entry under a key that no declared field has is ignored. */
  lemma {:induction false} DecodeIgnoresUndeclared<V>(k: FieldKinds<V>, raw: RawFields, fs: seq<FieldType>, defaults: map<string, V>,
                                                     group: string, name: string, extra: Bytes)
    requires forall i :: 0 <= i < |fs| ==> FieldKey(fs[i].id) != Some((group, name))
    ensures DecodeFields(k, Put(raw, group, name, extra), fs, defaults) == DecodeFields(k, raw, fs, defaults)
    decreases |fs|
  {
    if fs != [] {
      var init := fs[..|fs| - 1];
      forall i | 0 <= i < |init| ensures FieldKey(init[i].id) != Some((group, name)) {
        assert init[i] == fs[i];
      }
      DecodeIgnoresUndeclared(k, raw, init, defaults, group, name, extra);
      var f := fs[|fs| - 1];
      var raw' := Put(raw, group, name, extra);
      match FieldKey(f.id)
      case None =>
      case Some(key) =>
        assert Stored(raw', key) == Stored(raw, key);
        if Stored(raw, key) {
          assert raw'[key.0][key.1] == raw[key.0][key.1];
        }
    }
  }

  /** The ids of a list are the ids of all but its last element, plus the last one's. */
  lemma IdsSnoc(fs: seq<FieldType>)
    requires fs != []
    ensures Ids(fs) == Ids(fs[..|fs| - 1]) + {fs[|fs| - 1].id}
  {
  }

  /** Decoding what was encoded: when every declared field has an initialised slot and an entry
      that loads back as its value, each declared field comes back as that value and every
      other slot keeps its default. */
  lemma {:induction false} DecodeEncodedFields<V(!new)>(k: FieldKinds<V>, raw: RawFields, fs: seq<FieldType>,
                                                 defaults: map<string, V>, values: map<string, V>)
    requires forall i :: 0 <= i < |fs| ==> fs[i].id in defaults && LoadsBack(k, raw, values, fs[i])
    ensures DecodeFields(k, raw, fs, defaults).Ok?
    ensures var m := DecodeFields(k, raw, fs, defaults).value;
      && (forall id :: id in m && id in Ids(fs) ==> id in values && m[id] == values[id])
      && (forall id :: id in m && id !in Ids(fs) ==> m[id] == defaults[id])
    decreases |fs|
  {
    if fs != [] {
      var init := fs[..|fs| - 1];
      var f := fs[|fs| - 1];
      forall i | 0 <= i < |init| ensures init[i].id in defaults && LoadsBack(k, raw, values, init[i]) {
        assert init[i] == fs[i];
      }
      DecodeEncodedFields(k, raw, init, defaults, values);
      var m0 := DecodeFields(k, raw, init, defaults).value;
      assert LoadsBack(k, raw, values, f);
      var key := FieldKey(f.id).value;
      var v := values[f.id];
      assert k.load(m0[f.id], raw[key.0][key.1]) == v;
      var m := m0[f.id := v];
      assert DecodeFields(k, raw, fs, defaults) == Ok(m);
      IdsSnoc(fs);
      forall id | id in m && id in Ids(fs) ensures id in values && m[id] == values[id] {
        if id != f.id {
          assert id in Ids(init);
        }
      }
      forall id | id in m && id !in Ids(fs) ensures m[id] == defaults[id] {
        assert id != f.id && id !in Ids(init);
      }
    }
  }

  /** `dataToNode` as a value, with the node type resolver as a parameter.
      Empty data means "no node" and is not an error. */
  function Decode<V>(k: FieldKinds<V>, j: Json, data: Bytes, resolve: string -> Result<NodeType>): (r: Result<Option<NodeState<V>>>)
    ensures |data| == 0 ==> r == Ok(None)
    ensures |data| > 0 && j.unmarshal(data).Ok? && resolve(j.unmarshal(data).value.nodeType).Err? ==>
      r == Err(Wrapped("Could not get node type", resolve(j.unmarshal(data).value.nodeType).error))
    ensures r.Ok? && r.value.Some? ==>
      && j.unmarshal(data).Ok?
      && resolve(j.unmarshal(data).value.nodeType) == Ok(r.value.value.nodeType)
      && r.value.value.path == j.unmarshal(data).value.path
      && r.value.value.localFields == j.unmarshal(data).value.localFields
    ensures r == Ok(None) <==> |data| == 0
    ensures |data| > 0 && j.unmarshal(data).Err? ==>
      r == Err(Wrapped("service: Could not unmarshal node", j.unmarshal(data).error))
    ensures |data| > 0 && j.unmarshal(data).Ok? && resolve(j.unmarshal(data).value.nodeType).Ok? ==>
      var env := j.unmarshal(data).value;
      var declared := resolve(env.nodeType).value.fields + env.localFields;
      && (k.init(declared).Err? ==> r == Err(Wrapped("Could not init node fields", k.init(declared).error)))
      && (k.init(declared).Ok? ==>
            var loaded := DecodeFields(k, env.fields, declared, k.init(declared).value);
            && (r.Ok? <==> loaded.Ok?)
            && (loaded.Err? ==> r == Err(loaded.error))
            && (r.Ok? ==> r.value.Some? && r.value.value.fields == loaded.value && r.value.value.changed == env.changed))
  {
    if |data| == 0 then Ok(None)
    else
      match j.unmarshal(data)
      case Err(e) => Err(Wrapped("service: Could not unmarshal node", e))
      case Ok(env) =>
        match resolve(env.nodeType)
        case Err(e) => Err(Wrapped("Could not get node type", e))
        case Ok(t) =>
          var declared := t.fields + env.localFields;
          match k.init(declared)
          case Err(e) => Err(Wrapped("Could not init node fields", e))
          case Ok(defaults) =>
            match DecodeFields(k, env.fields, declared, defaults)
            case Err(e) => Err(e)
            case Ok(values) => Ok(Some(NodeState(env.path, t, env.localFields, env.changed, values)))
  }

  /** The round trip. If loading inverts dumping and ignores layout, unmarshalling inverts
      marshalling up to the layout of the raw dumps, the resolver
      returns the node's type and the field initialiser gives a slot for every declared field,
      then decoding an encoded node gives back its type, local fields, change time and every
      declared field value; the path comes back empty and undeclared slots keep their defaults. */
  lemma RoundTrip<V(!new)>(k: FieldKinds<V>, j: Json, s: NodeState<V>, indent: bool,
                     resolve: string -> Result<NodeType>, defaults: map<string, V>)
    requires LoadInvertsDump(k) && LoadIgnoresLayout(k, j) && UnmarshalInvertsMarshal(j)
    requires resolve(s.nodeType.id) == Ok(s.nodeType)
    requires k.init(s.Declared()) == Ok(defaults)
    requires forall i :: 0 <= i < |s.Declared()| ==> s.Declared()[i].id in defaults
    requires Encode(k, j, s, indent).Ok?
    ensures var d := Decode(k, j, Encode(k, j, s, indent).value, resolve);
      && d.Ok? && d.value.Some?
      && d.value.value.path == ""
      && d.value.value.nodeType == s.nodeType
      && d.value.value.localFields == s.localFields
      && d.value.value.changed == s.changed
      && d.value.value.fields.Keys == defaults.Keys
      && (forall i :: 0 <= i < |s.Declared()| ==>
            s.Declared()[i].id in s.fields && d.value.value.fields[s.Declared()[i].id] == s.fields[s.Declared()[i].id])
      && (forall id :: id in defaults && id !in Ids(s.Declared()) ==> d.value.value.fields[id] == defaults[id])
  {
    var fs := s.Declared();
    var raw := EncodeFields(k, fs, s.fields).value;
    var env := Envelope("", s.changed, s.localFields, s.nodeType.id, raw);
    var data := Encode(k, j, s, indent).value;
    var relaid := Relayout(j, raw, indent);
    assert j.marshal(env, indent) == Ok(data);
    assert j.unmarshal(data) == Ok(env.(fields := relaid));
    EncodeLayout(k, fs, s.fields);
    forall i | 0 <= i < |fs| ensures fs[i].id in defaults && LoadsBack(k, relaid, s.fields, fs[i]) {
      RelaidDumpLoadsBack(k, j, raw, s.fields, fs[i], indent);
    }
    DecodeEncodedFields(k, relaid, fs, defaults, s.fields);
    var m := DecodeFields(k, relaid, fs, defaults).value;
    forall i | 0 <= i < |fs| ensures fs[i].id in s.fields && m[fs[i].id] == s.fields[fs[i].id] {
      assert LoadsBack(k, relaid, s.fields, fs[i]);
      assert fs[i].id in Ids(fs);
    }
  }

  /** A node whose attributes `nodeToData` and `dataToNode` update in place (`*Node`). */
  class Node<V> {
    var path: string
    var nodeType: NodeType
    var localFields: seq<FieldType>
    var changed: int
    var fields: map<string, V>

    /** The node's attributes as a value. */
    function State(): NodeState<V>
      reads this
    {
      NodeState(path, nodeType, localFields, changed, fields)
    }

    constructor (s: NodeState<V>)
      ensures State() == s
    {
      path := s.path;
      nodeType := s.nodeType;
      localFields := s.localFields;
      changed := s.changed;
      fields := s.fields;
    }
  }

  /** The field loop of `nodeToData`: each declared field is dumped, in order, and stored
      under its `(group, name)` key; the result is `EncodeFields`. */
  method DumpFields<V>(k: FieldKinds<V>, fs: seq<FieldType>, values: map<string, V>) returns (r: Result<RawFields>)
    ensures r == EncodeFields(k, fs, values)
  {
    var outFields: RawFields := map[];
    var i := 0;
    while i < |fs|
      invariant 0 <= i <= |fs|
      invariant EncodeFields(k, fs[..i], values) == Ok(outFields)
    {
      var field := fs[i];
      assert fs[..i + 1][..i] == fs[..i];
      if field.id !in values {
        EncodeFieldsStops(k, fs, values, i + 1);
        return Err(Panic("nil field " + field.id));
      }
      var dump := k.dump(values[field.id]);
      if dump.Err? {
        EncodeFieldsStops(k, fs, values, i + 1);
        return Err(Wrapped("Could not marshal field", dump.error));
      }
      var key := FieldKey(field.id);
      if key.None? {
        EncodeFieldsStops(k, fs, values, i + 1);
        return Err(Panic("index out of range splitting " + field.id));
      }
      outFields := Put(outFields, key.value.0, key.value.1, dump.value);
      i := i + 1;
    }
    assert fs[..i] == fs;
    return Ok(outFields);
  }

  /** `nodeToData`: clears the node's path, fills the grouped field map, marshals the envelope
      and restores the path on every way out (its `defer`). The node is left as it
      was, and the result is the encoding of its state. */
  method NodeToData<V>(k: FieldKinds<V>, j: Json, node: Node<V>, indent: bool) returns (r: Result<Bytes>)
    modifies node
    ensures unchanged(node)
    ensures r == Encode(k, j, old(node.State()), indent)
  {
    var path := node.path;
    node.path := "";
    var outFields := DumpFields(k, node.nodeType.fields + node.localFields, node.fields);
    if outFields.Err? {
      node.path := path;
      return Err(outFields.error);
    }
    var outNode := Envelope(node.path, node.changed, node.localFields, node.nodeType.id, outFields.value);
    var data := j.marshal(outNode, indent);
    node.path := path;
    if data.Err? {
      return Err(Wrapped("service: Could not marshal node", data.error));
    }
    return Ok(data.value);
  }
}
