/** The payload of the shared ConfigMap and Secret: JSON under one key, read into a Go map and
    written back (pkg/controller/site/domainmap.go). */
module DomainMapData {
  import opened Options

  const MAP_KEY := "dbconfig.json"

  /** A Go map; a nil map can be read but not written. */
  datatype GoMap<V> = Nil | Made(entries: map<string, V>)

  /** What encoding/json makes of a text: an error before anything is decoded (bad syntax, or neither
      an object nor `null`), `null`, an object, or an object in which values of a wrong type are an
      error that leaves the decoded entries. */
  datatype Parsed<V> = Malformed | Null | Object(entries: map<string, V>) | Mistyped(entries: map<string, V>)

  datatype Codec<!V> = Codec(marshal: GoMap<V> -> string, unmarshal: string -> Parsed<V>)

  /** Marshalled values read back, a nil map is `null`, and the empty text is malformed. */
  ghost predicate Lawful<V(!new)>(codec: Codec<V>) {
    && (forall m: map<string, V> :: codec.unmarshal(codec.marshal(Made(m))) == Object(m))
    && codec.unmarshal(codec.marshal(Nil)) == Null
    && codec.unmarshal("") == Malformed
  }

  /** The data of a ConfigMap or Secret. */
  type Data = map<string, string>

  /** A missing key reads as the empty text. */
  function Text(data: Data): string {
    if MAP_KEY in data then data[MAP_KEY] else ""
  }

  function Decoded<V>(p: Parsed<V>): map<string, V> {
    if p.Object? || p.Mistyped? then p.entries else map[]
  }

  /** Unmarshal into an existing map: bad syntax leaves it, `null` makes it nil, and what is decoded of
      an object is merged in, with or without an error. */
  function Read<V>(codec: Codec<V>, target: GoMap<V>, text: string): GoMap<V> {
    match codec.unmarshal(text)
    case Malformed => target
    case Null => Nil
    case _ =>
      var entries := Decoded(codec.unmarshal(text));
      if target.Nil? then Made(entries) else Made(target.entries + entries)
  }

  datatype Presence = Present | Added | Panicked

  function EnsureIn<V(==)>(m: GoMap<V>, id: string, v: V): (Presence, GoMap<V>) {
    if m.Nil? then (Panicked, m)
    else if id in m.entries && m.entries[id] == v then (Present, m)
    else (Added, Made(m.entries[id := v]))
  }

  class MapData<V(==)> {
    var content: GoMap<V>

    constructor ()
      ensures content == Made(map[])
    {
      content := Made(map[]);
    }

    method Parse(codec: Codec<V>, data: Data) returns (ok: bool)
      modifies this
      ensures content == Read(codec, old(content), Text(data))
      ensures ok <==> codec.unmarshal(Text(data)).Null? || codec.unmarshal(Text(data)).Object?
    {
      var text := "";
      if MAP_KEY in data {
        text := data[MAP_KEY];
      }
      var parsed := codec.unmarshal(text);
      match parsed
      case Malformed => return false;
      case Null =>
        content := Nil;
        return true;
      case _ =>
        content := if content.Nil? then Made(parsed.entries) else Made(content.entries + parsed.entries);
        return parsed.Object?;
    }

    /** EnsureDomainMapPresence and EnsureDBMapPresence. */
    method EnsurePresence(id: string, desired: V) returns (presence: Presence)
      modifies this
      ensures (presence, content) == EnsureIn(old(content), id, desired)
    {
      var found := if content.Made? && id in content.entries then Some(content.entries[id]) else None;
      if found == Some(desired) {
        return Present;
      }
      if content.Nil? {
        return Panicked;
      }
      content := Made(content.entries[id := desired]);
      return Added;
    }

    /** Go's delete; deleting from a nil map does nothing. */
    method Remove(id: string)
      modifies this
      ensures content == if old(content).Nil? then Nil else Made(old(content).entries - {id})
    {
      if content.Made? {
        content := Made(content.entries - {id});
      }
    }

    method Write(codec: Codec<V>) returns (data: Data)
      ensures data == map[MAP_KEY := codec.marshal(content)] == map["dbconfig.json" := codec.marshal(content)]
    {
      data := map[MAP_KEY := codec.marshal(content)];
    }
  }

  // ---- The two callers: read, change, write; the error of Parse is ignored ----

  /** How the written data gets into the object: a ConfigMap's Data is replaced, a Secret's
      StringData is merged into its Data. */
  datatype Kind = ConfigMap | Secret

  function Stored(kind: Kind, before: Data, written: Data): Data {
    if kind == ConfigMap then written else before + written
  }

  datatype Outcome = UpToDate | Updated(data: Data) | Crashed

  function Ensured<V(==)>(codec: Codec<V>, kind: Kind, data: Data, id: string, v: V): Outcome {
    var r := EnsureIn(Read(codec, Made(map[]), Text(data)), id, v);
    match r.0
    case Present => UpToDate
    case Added => Updated(Stored(kind, data, map[MAP_KEY := codec.marshal(r.1)]))
    case Panicked => Crashed
  }

  function Removed<V>(codec: Codec<V>, kind: Kind, data: Data, id: string): Data {
    var m := Read(codec, Made(map[]), Text(data));
    Stored(kind, data, map[MAP_KEY := codec.marshal(if m.Nil? then Nil else Made(m.entries - {id}))])
  }

  method EnsureEntry<V(==)>(codec: Codec<V>, kind: Kind, data: Data, id: string, v: V) returns (outcome: Outcome)
    ensures outcome == Ensured(codec, kind, data, id, v)
  {
    var m := new MapData<V>();
    var ok := m.Parse(codec, data);
    var presence := m.EnsurePresence(id, v);
    if presence.Panicked? {
      return Crashed;
    }
    if presence.Present? {
      return UpToDate;
    }
    var written := m.Write(codec);
    return Updated(Stored(kind, data, written));
  }

  method RemoveEntry<V(==)>(codec: Codec<V>, kind: Kind, data: Data, id: string) returns (after: Data)
    ensures after == Removed(codec, kind, data, id)
  {
    var m := new MapData<V>();
    var ok := m.Parse(codec, data);
    m.Remove(id);
    var written := m.Write(codec);
    after := Stored(kind, data, written);
  }

  // ---- What ignoring the error does ----

  /** The entries that a worker sees. */
  function Payload<V>(codec: Codec<V>, data: Data): map<string, V> {
    Decoded(codec.unmarshal(Text(data)))
  }

  /** Nothing was written yet, or a map that is not nil was. */
  ghost predicate WellWritten<V(!new)>(codec: Codec<V>, data: Data) {
    Text(data) == "" || exists m: map<string, V> :: Text(data) == codec.marshal(Made(m))
  }

  /** On well-written data an ignored error loses no entry and never leaves a nil map. */
  lemma ReadLosesNothing<V(!new)>(codec: Codec<V>, data: Data)
    requires Lawful(codec) && WellWritten(codec, data)
    ensures Read(codec, Made(map[]), Text(data)) == Made(Payload(codec, data))
  {
    if Text(data) != "" {
      var m: map<string, V> :| Text(data) == codec.marshal(Made(m));
      assert codec.unmarshal(codec.marshal(Made(m))) == Object(m);
    }
    assert map[] + Payload(codec, data) == Payload(codec, data);
  }

  lemma WrittenIsWellWritten<V(!new)>(codec: Codec<V>, kind: Kind, data: Data, m: map<string, V>)
    requires Lawful(codec)
    ensures var d := Stored(kind, data, map[MAP_KEY := codec.marshal(Made(m))]);
            WellWritten(codec, d) && Payload(codec, d) == m
  {
    var d := Stored(kind, data, map[MAP_KEY := codec.marshal(Made(m))]);
    assert Text(d) == codec.marshal(Made(m));
    assert codec.unmarshal(codec.marshal(Made(m))) == Object(m);
  }

  /** One entry is set and every other one kept; asking again finds nothing to do. */
  lemma EnsureSetsOneEntry<V(!new)>(codec: Codec<V>, kind: Kind, data: Data, id: string, v: V)
    requires Lawful(codec) && WellWritten(codec, data)
    ensures match Ensured(codec, kind, data, id, v)
            case UpToDate => id in Payload(codec, data) && Payload(codec, data)[id] == v
            case Updated(d) =>
              && !(id in Payload(codec, data) && Payload(codec, data)[id] == v)
              && WellWritten(codec, d) && Payload(codec, d) == Payload(codec, data)[id := v]
              && Ensured(codec, kind, d, id, v) == UpToDate
            case Crashed => false
  {
    ReadLosesNothing(codec, data);
    match Ensured(codec, kind, data, id, v)
    case Updated(d) =>
      WrittenIsWellWritten(codec, kind, data, Payload(codec, data)[id := v]);
      ReadLosesNothing(codec, d);
    case _ =>
  }

  lemma RemoveTakesOneEntry<V(!new)>(codec: Codec<V>, kind: Kind, data: Data, id: string)
    requires Lawful(codec) && WellWritten(codec, data)
    ensures var d := Removed(codec, kind, data, id);
            WellWritten(codec, d) && Payload(codec, d) == Payload(codec, data) - {id}
  {
    ReadLosesNothing(codec, data);
    WrittenIsWellWritten(codec, kind, data, Payload(codec, data) - {id});
  }

  /** A ConfigMap loses every other key with the first write, a Secret keeps them. */
  lemma OtherKeys(kind: Kind, data: Data, text: string, key: string)
    requires key != MAP_KEY
    ensures var d := Stored(kind, data, map[MAP_KEY := text]);
            if kind == ConfigMap then key !in d
            else (key in d <==> key in data) && (key in data ==> d[key] == data[key])
  {
  }

  /** On data that someone else wrote, setting an entry crashes exactly if the text is `null`.
      Otherwise the entries that could be decoded are kept, whatever the error, and all else is lost. */
  lemma EnsureOnAnyText<V(!new)>(codec: Codec<V>, kind: Kind, data: Data, id: string, v: V)
    requires Lawful(codec)
    ensures Ensured(codec, kind, data, id, v) == Crashed <==> codec.unmarshal(Text(data)) == Null
    ensures match Ensured(codec, kind, data, id, v)
            case UpToDate => id in Payload(codec, data) && Payload(codec, data)[id] == v
            case Updated(d) =>
              && !(id in Payload(codec, data) && Payload(codec, data)[id] == v)
              && WellWritten(codec, d) && Payload(codec, d) == Payload(codec, data)[id := v]
            case Crashed => true
  {
    assert map[] + Payload(codec, data) == Payload(codec, data);
    WrittenIsWellWritten(codec, kind, data, Payload(codec, data)[id := v]);
  }

  // ---- Every history of the object ----

  datatype Op<V> = Create | Ensure(id: string, v: V) | Delete(id: string)

  function Applied<V(==)>(codec: Codec<V>, kind: Kind, data: Data, op: Op<V>): Data {
    match op
    case Create => map[]
    case Ensure(id, v) =>
      var r := Ensured(codec, kind, data, id, v);
      if r.Updated? then r.data else data
    case Delete(id) => Removed(codec, kind, data, id)
  }

  /** The same on plain maps: what the lifecycle of a Site assumes of the shared objects. */
  function AppliedToMap<V>(m: map<string, V>, op: Op<V>): map<string, V> {
    match op
    case Create => map[]
    case Ensure(id, v) => m[id := v]
    case Delete(id) => m - {id}
  }

  function AllApplied<V(==)>(codec: Codec<V>, kind: Kind, data: Data, ops: seq<Op<V>>): Data
    decreases |ops|
  {
    if ops == [] then data else AllApplied(codec, kind, Applied(codec, kind, data, ops[0]), ops[1..])
  }

  function AllAppliedToMap<V>(m: map<string, V>, ops: seq<Op<V>>): map<string, V>
    decreases |ops|
  {
    if ops == [] then m else AllAppliedToMap(AppliedToMap(m, ops[0]), ops[1..])
  }

  lemma OpRefines<V(!new)>(codec: Codec<V>, kind: Kind, data: Data, op: Op<V>)
    requires Lawful(codec) && WellWritten(codec, data)
    ensures var d := Applied(codec, kind, data, op);
            WellWritten(codec, d) && Payload(codec, d) == AppliedToMap(Payload(codec, data), op)
  {
    match op
    case Create =>
    case Ensure(id, v) =>
      EnsureSetsOneEntry(codec, kind, data, id, v);
      var m := Payload(codec, data);
      assert id in m && m[id] == v ==> m[id := v] == m;
    case Delete(id) => RemoveTakesOneEntry(codec, kind, data, id);
  }

  /** In every history that begins with the created object the payload is well-written, and the
      texts behave like the maps they stand for. */
  lemma {:induction false} HistoryRefines<V(!new)>(codec: Codec<V>, kind: Kind, data: Data, ops: seq<Op<V>>)
    requires Lawful(codec) && WellWritten(codec, data)
    ensures var d := AllApplied(codec, kind, data, ops);
            WellWritten(codec, d) && Payload(codec, d) == AllAppliedToMap(Payload(codec, data), ops)
    decreases |ops|
  {
    if ops != [] {
      OpRefines(codec, kind, data, ops[0]);
      HistoryRefines(codec, kind, Applied(codec, kind, data, ops[0]), ops[1..]);
    }
  }

  /** The environment controller creates the object with no data at all. */
  lemma CreatedIsWellWritten<V(!new)>(codec: Codec<V>)
    requires Lawful(codec)
    ensures WellWritten(codec, map[]) && Payload(codec, map[]) == map[]
  {
  }
}
