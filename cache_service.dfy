/** The remote cache service the session binder talks to. It is not part of
    the core: it is modelled only as far as its wire contract goes, so that
    storing and looking up a session can be related. A POST carries one
    instruction; on the 200 path the service executes it against its two
    maps (plain string keys for SET/GET, hashes of fields for HSET/HGET),
    otherwise nothing changes. String-returning commands answer with the
    base64 encoding of the value, and with the encoding of "" on a miss;
    status commands answer with the JSON string "OK". */
module CacheService {
  import opened Wire

  const HsetCommand: string := "HSET"
  const HgetCommand: string := "HGET"
  const SetCommand: string := "SET"
  const GetCommand: string := "GET"
  const ExpiryOption: string := "EX"
  const OkReply: string := "OK"

  /** A string value with the expiry (in seconds) it was stored with; the
      service's enforcement of that expiry is not modelled. */
  datatype Entry = Entry(value: string, lifetime: Int64)

  datatype Store = Store(hashes: map<string, map<string, string>>, strings: map<string, Entry>)

  /** The value of `field` in hash `key`, "" when either is missing. */
  function HashField(st: Store, key: string, field: string): string
  {
    if key in st.hashes && field in st.hashes[key] then st.hashes[key][field] else ""
  }

  /** The value stored under `key`, "" when missing. */
  function StringValue(st: Store, key: string): string
  {
    if key in st.strings then st.strings[key].value else ""
  }

  predicate IsHset(i: Instruction)
  {
    |i| == 4 && i[0] == Str(HsetCommand) && i[1].Str? && i[2].Str? && i[3].Str?
  }

  predicate IsHget(i: Instruction)
  {
    |i| == 3 && i[0] == Str(HgetCommand) && i[1].Str? && i[2].Str?
  }

  predicate IsSetEx(i: Instruction)
  {
    |i| == 5 && i[0] == Str(SetCommand) && i[1].Str? && i[2].Str? && i[3] == Str(ExpiryOption) && i[4].Int?
  }

  predicate IsGet(i: Instruction)
  {
    |i| == 2 && i[0] == Str(GetCommand) && i[1].Str?
  }

  /** The service executing one instruction: the new store and the body of
      its 200 answer. */
  function Execute(st: Store, i: Instruction, encode: string -> string): (Store, Body)
  {
    if IsHset(i) then
      var fields := if i[1].s in st.hashes then st.hashes[i[1].s] else map[];
      (st.(hashes := st.hashes[i[1].s := fields[i[2].s := i[3].s]]), JsonString(OkReply))
    else if IsHget(i) then
      (st, JsonString(encode(HashField(st, i[1].s, i[2].s))))
    else if IsSetEx(i) then
      (st.(strings := st.strings[i[1].s := Entry(i[2].s, i[4].n)]), JsonString(OkReply))
    else if IsGet(i) then
      (st, JsonString(encode(StringValue(st, i[1].s))))
    else
      (st, NotJsonString("ERR unknown command"))
  }

  /** One POST round trip: the store afterwards and what the client sees. */
  function Serve(st: Store, i: Instruction, net: Network, encode: string -> string): (r: (Store, PostResult))
    ensures r.1.PostFailed? ==> r.1.err.External?
    ensures r.1.Response? && r.1.status == StatusOK ==> r == (Execute(st, i, encode).0, Response(StatusOK, Execute(st, i, encode).1))
    ensures !(r.1.Response? && r.1.status == StatusOK) ==> r.0 == st
  {
    match net
    case Unreachable(f) => (st, PostFailed(External(f)))
    case Delivers(status, errorBody) =>
      if status == StatusOK then
        var (st', body) := Execute(st, i, encode);
        (st', Response(StatusOK, body))
      else (st, Response(status, errorBody))
  }

  /** A write to one hash field leaves every other field as it was. */
  lemma HsetKeepsOtherFields(st: Store, key: string, field: string, value: string, key': string, field': string, encode: string -> string)
    requires (key, field) != (key', field')
    ensures HashField(Execute(st, [Str(HsetCommand), Str(key), Str(field), Str(value)], encode).0, key', field') == HashField(st, key', field')
  {
  }

  /** A SET leaves every other key as it was. */
  lemma SetKeepsOtherKeys(st: Store, key: string, value: string, lifetime: Int64, key': string, encode: string -> string)
    requires key != key'
    ensures StringValue(Execute(st, [Str(SetCommand), Str(key), Str(value), Str(ExpiryOption), Int(lifetime)], encode).0, key') == StringValue(st, key')
  {
  }

  /** The cache service: its stored data and the log of every instruction
      posted to it. */
  class Cache {
    var hashes: map<string, map<string, string>>
    var strings: map<string, Entry>
    var requests: seq<Instruction>
    const encode: string -> string

    function Snapshot(): Store
      reads this
    {
      Store(hashes, strings)
    }

    constructor (encode: string -> string)
      ensures Snapshot() == Store(map[], map[]) && requests == [] && this.encode == encode
    {
      hashes, strings, requests := map[], map[], [];
      this.encode := encode;
    }

    /** Receive one POST. */
    method Post(i: Instruction, net: Network) returns (r: PostResult)
      modifies this
      ensures (Snapshot(), r) == Serve(old(Snapshot()), i, net, encode)
      ensures requests == old(requests) + [i]
    {
      var served := Serve(Snapshot(), i, net, encode);
      hashes, strings := served.0.hashes, served.0.strings;
      requests := requests + [i];
      r := served.1;
    }
  }
}
