/** The cache helpers `GetCacheRedis` and `SetCacheRedis` over a Redis server, modelled as a
    map from key to stored bytes and time-to-live. The JSON codec is modelled by the
    `Blob` it produces, so that decoding an encoded value gives the value back; what the
    server does apart from the stored data (a lost connection, an unreadable reply) is an
    input of each call. */
module RedisUtil {
  import opened Wrappers
  import opened Models

  /** A Go value the catalog puts in the cache: a page of movies or one movie. */
  datatype Payload = MovieList(movies: seq<Movie>) | MovieItem(movie: Movie)

  /** The Go type of the `dest` a read decodes into. */
  datatype Shape = ListShape | ItemShape

  function ShapeOf(p: Payload): Shape
  {
    match p
    case MovieList(_) => ListShape
    case MovieItem(_) => ItemShape
  }

  /** Bytes stored under a key: the JSON document `json.Marshal` wrote for a payload, or
      bytes that are no such document (written by some other client, or truncated). */
  datatype Blob = Json(payload: Payload) | Garbage(raw: string)

  /** `json.Marshal`: `refuses` says whether the encoder rejects the value. */
  function Marshal(v: Payload, refuses: bool): (r: Result<Blob>)
    ensures r.Ok? <==> !refuses
  {
    if refuses then Err("json: unsupported value") else Ok(Json(v))
  }

  /** `json.Unmarshal(data, dest)`: only a document of the destination's shape decodes. */
  function Unmarshal(b: Blob, want: Shape): (r: Result<Payload>)
    ensures r.Ok? ==> ShapeOf(r.value) == want && b == Json(r.value)
  {
    match b
    case Json(p) => if ShapeOf(p) == want then Ok(p) else Err("json: cannot unmarshal into Go value")
    case Garbage(_) => Err("invalid character looking for beginning of value")
  }

  /** The codec round trip: decoding what the encoder wrote gives the value back. */
  lemma CodecRoundTrip(v: Payload)
    ensures Marshal(v, false).Ok? && Unmarshal(Marshal(v, false).value, ShapeOf(v)) == Ok(v)
  {
  }

  /** What the server keeps under a key: the bytes and the expiry it was set with
      (seconds; the clock that would expire it is not modelled). */
  datatype Entry = Entry(data: Blob, ttl: int)

  /** How the server answers a GET, apart from the stored data: normally, with a
      transport error (`cmd.Err()` other than `redis.Nil`), or with a reply whose
      bytes cannot be taken (`cmd.Bytes()` fails). */
  datatype GetFault = Healthy | Unreachable(cause: string) | Unreadable(cause: string)

  /** The results of `GetCacheRedis`: found, the error, and what was decoded into `dest`. */
  datatype Lookup = Lookup(found: bool, err: Option<string>, dest: Option<Payload>)

  /** The outcome `GetCacheRedis` classifies a read into, on a given server state. */
  function ReadOutcome(entries: map<string, Entry>, key: string, want: Shape, fault: GetFault): (r: Lookup)
    ensures r.found ==> r.err.None? && r.dest.Some?
    ensures r.found <==> fault.Healthy? && key in entries && Unmarshal(entries[key].data, want).Ok?
    ensures r.found ==> Unmarshal(entries[key].data, want) == Ok(r.dest.value)
    ensures fault.Unreachable? ==> r.err == Some(fault.cause)
    ensures !fault.Unreachable? && key !in entries ==> r.err.None?
    ensures key in entries && fault.Unreadable? ==> r.err == Some(fault.cause)
    ensures key in entries && fault.Healthy? && Unmarshal(entries[key].data, want).Err? ==> r.err.Some?
  {
    if fault.Unreachable? then Lookup(false, Some(fault.cause), None)
    else if key !in entries then Lookup(false, None, None)
    else if fault.Unreadable? then Lookup(false, Some(fault.cause), None)
    else
      match Unmarshal(entries[key].data, want)
      case Err(e) => Lookup(false, Some(e), None)
      case Ok(p) => Lookup(true, None, Some(p))
  }

  /** The result of `SetCacheRedis` and the server state after it. */
  datatype Written = Written(err: Option<string>, entries: map<string, Entry>)

  /** `SetCacheRedis(key, value, ttl)`: an encoding failure or a failed SET returns its
      error and leaves the server as it was; otherwise the key now holds the encoded
      value with that expiry and every other key is untouched. */
  function WriteOutcome(entries: map<string, Entry>, key: string, value: Payload, ttl: int,
                        refuses: bool, fault: Option<string>): (w: Written)
    ensures refuses ==> w.err.Some? && w.entries == entries
    ensures !refuses && fault.Some? ==> w.err == fault && w.entries == entries
    ensures w.err.None? <==> !refuses && fault.None?
    ensures w.err.None? ==> key in w.entries && w.entries[key] == Entry(Json(value), ttl)
    ensures forall k :: k != key ==> (k in w.entries <==> k in entries)
    ensures forall k :: k != key && k in entries ==> w.entries[k] == entries[k]
  {
    match Marshal(value, refuses)
    case Err(e) => Written(Some(e), entries)
    case Ok(data) =>
      if fault.Some? then Written(fault, entries)
      else Written(None, entries[key := Entry(data, ttl)])
  }

  /** A read of `k` right after a successful write of `v` under `k` finds `v`. */
  lemma SetThenGet(entries: map<string, Entry>, key: string, v: Payload, ttl: int)
    ensures var w := WriteOutcome(entries, key, v, ttl, false, None);
      w.err.None? && ReadOutcome(w.entries, key, ShapeOf(v), Healthy) == Lookup(true, None, Some(v))
  {
  }

  /** A Redis server as seen by the service. */
  class Redis {
    var entries: map<string, Entry>

    constructor ()
      ensures entries == map[]
    {
      entries := map[];
    }

    /** `GetCacheRedis`: a missing key is "not found" without an error, any other failure
        is "not found" with the error, and "found" comes only with a decoded value. */
    method Get(key: string, want: Shape, fault: GetFault) returns (found: bool, err: Option<string>, dest: Option<Payload>)
      ensures Lookup(found, err, dest) == ReadOutcome(entries, key, want, fault)
      ensures found ==> err.None? && dest.Some? && ShapeOf(dest.value) == want
      ensures !fault.Unreachable? && key !in entries ==> !found && err.None?
      ensures !found && (fault.Unreachable? || key in entries) ==> err.Some?
    {
      if fault.Unreachable? {
        return false, Some(fault.cause), None;
      }
      if key !in entries {
        return false, None, None;
      }
      if fault.Unreadable? {
        return false, Some(fault.cause), None;
      }
      var decoded := Unmarshal(entries[key].data, want);
      if decoded.Err? {
        return false, Some(decoded.error), None;
      }
      return true, None, Some(decoded.value);
    }

    /** `SetCacheRedis`. */
    method Set(key: string, value: Payload, ttl: int, refuses: bool, fault: Option<string>) returns (err: Option<string>)
      modifies this
      ensures Written(err, entries) == WriteOutcome(old(entries), key, value, ttl, refuses, fault)
    {
      var data := Marshal(value, refuses);
      if data.Err? {
        return Some(data.error);
      }
      if fault.Some? {
        return fault;
      }
      entries := entries[key := Entry(data.value, ttl)];
      return None;
    }
  }
}
