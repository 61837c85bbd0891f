/**
 * The values that travel over the socket.io event channel, as both ends of the
 * application see them.  Identities, chat text, file names and file types are
 * strings; the negotiation signals, ICE candidates and other library objects are
 * opaque.  A JavaScript property whose value is `undefined` is dropped when the
 * object is serialised, so it is modelled as a key that is absent.
 */
module Wire {
  import opened Wrappers

  /** A value neither end interprets: an SDP signal, an ICE candidate, file data. */
  type Blob

  /** A property value of an event argument. */
  datatype Datum = Text(s: string) | Opaque(b: Blob)

  /** The fields of a JavaScript object literal. */
  type Fields = map<string, Datum>

  /**
   * The argument of one emitted event: none at all, a single value (possibly
   * `undefined`), or an object.
   */
  datatype Payload = NoArg | Value(v: Option<Datum>) | Obj(fields: Fields)

  /** A socket emission from a client: event name and argument. */
  datatype Emit = Emit(event: string, payload: Payload)

  /** The property `key` of an object, `undefined` when it is missing. */
  function Get(m: Fields, key: string): (r: Option<Datum>)
    ensures r.Some? <==> key in m
    ensures r.Some? ==> r.value == m[key]
  {
    if key in m then Some(m[key]) else None
  }

  /** The object `m` extended with `key: v`; the key stays absent when `v` is `undefined`. */
  function Put(m: Fields, key: string, v: Option<Datum>): (r: Fields)
    ensures Get(r, key) == v
    ensures forall k :: k != key ==> Get(r, k) == Get(m, k)
  {
    if v.Some? then m[key := v.value] else m - {key}
  }

  /** The object literal `{ key1: v1, ... }` restricted to the listed keys of `m`. */
  function Pick(m: Fields, keys: set<string>): (r: Fields)
    ensures r.Keys == m.Keys * keys
    ensures forall k :: k in r ==> r[k] == m[k]
  {
    map k | k in m && k in keys :: m[k]
  }
}
