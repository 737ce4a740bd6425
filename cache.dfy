/** The cache client: a writer and a reader connection slot over one
    key-value store, filled lazily and emptied by `Close`. Every key it sends
    is namespaced with `CACHE_`, reads close both connections afterwards, and
    no operation lets a store or connection error escape. */
module Cache {
  import opened Basics
  import opened Glob

  const CachePrefix := "CACHE_"
  const MaxRetryTimes: nat := 3

  // ---------------------------------------------------------------------------
  // Reconnect policy

  /** The reconnect delay in milliseconds before attempt `times`, or `None`
      to give up. */
  function RetryStrategy(times: nat): (r: Option<nat>)
    ensures r.None? <==> times >= MaxRetryTimes
    ensures r.Some? ==> r.value <= 1000
  {
    if times >= MaxRetryTimes then None
    else Some(if times * 200 < 1000 then times * 200 else 1000)
  }

  /** The delays never decrease while the strategy keeps retrying. */
  lemma RetryDelaysNondecreasing(i: nat, j: nat)
    requires i <= j && RetryStrategy(j).Some?
    ensures RetryStrategy(i).Some? && RetryStrategy(i).value <= RetryStrategy(j).value
  {
  }

  /** With three attempts the 1000 ms cap is never reached: the client counts
      attempts from 1, so the delays are 200 and 400 ms (0 ms only for an
      attempt numbered 0, which the client never asks about). */
  lemma RetryCapNeverReached(times: nat)
    requires RetryStrategy(times).Some?
    ensures RetryStrategy(times).value == 200 * times <= 400
  {
  }

  /** A connection error makes the client reconnect exactly when its message
      mentions a read-only replica. */
  function ReconnectOnError(message: string): (r: bool)
    ensures r <==> exists i :: OccursAt(message, "READONLY", i)
  {
    Includes(message, "READONLY")
  }

  // ---------------------------------------------------------------------------
  // The store and its commands

  /** A stored value and, when it expires, the milliseconds it has left. */
  datatype Entry = Entry(value: string, ttlMs: Option<nat>)

  type Keyspace = map<string, Entry>

  /** `GET k`: the value, or nil. */
  function GetCmd(entries: Keyspace, k: string): (r: Option<string>)
    ensures r.Some? <==> k in entries
    ensures r.Some? ==> r.value == entries[k].value
  {
    if k in entries then Some(entries[k].value) else None
  }

  /** `GETDEL k`: the value (or nil), and the key is gone. */
  function GetDelCmd(entries: Keyspace, k: string): (r: (Option<string>, Keyspace))
    ensures r.0 == GetCmd(entries, k)
    ensures k !in r.1 && forall j :: j != k ==> (j in r.1 <==> j in entries)
    ensures forall j :: j in r.1 ==> r.1[j] == entries[j]
  {
    (GetCmd(entries, k), entries - {k})
  }

  /** `DEL k`. */
  function DelCmd(entries: Keyspace, k: string): (r: Keyspace)
    ensures k !in r && forall j :: j != k ==> (j in r <==> j in entries)
    ensures forall j :: j in r ==> r[j] == entries[j]
  {
    entries - {k}
  }

  /** `SET k v`: stores the value and drops any expiry. */
  function SetCmd(entries: Keyspace, k: string, v: string): (r: Keyspace)
    ensures k in r && r[k] == Entry(v, None)
    ensures forall j :: j != k ==> (j in r <==> j in entries)
    ensures forall j :: j in r && j != k ==> r[j] == entries[j]
  {
    entries[k := Entry(v, None)]
  }

  /** `PSETEX k ms v`: stores the value expiring in `ms` milliseconds; a
      non-positive expiry is refused with an error. */
  function PSetExCmd(entries: Keyspace, k: string, ms: int, v: string): (r: Result<Keyspace, string>)
    ensures r.Err? <==> ms <= 0
    ensures r.Ok? ==> k in r.value && r.value[k] == Entry(v, Some(ms))
    ensures r.Ok? ==> forall j :: j != k ==> (j in r.value <==> j in entries)
    ensures r.Ok? ==> forall j :: j in r.value && j != k ==> r.value[j] == entries[j]
  {
    if ms <= 0 then Err("ERR invalid expire time in 'psetex' command")
    else Ok(entries[k := Entry(v, Some(ms))])
  }

  /** `TTL k`: -2 for a missing key, -1 for a key without expiry, otherwise
      the time left in seconds, rounded to the nearest second. */
  function TtlCmd(entries: Keyspace, k: string): (r: int)
    ensures r == -2 <==> k !in entries
    ensures r == -1 <==> k in entries && entries[k].ttlMs.None?
    ensures r >= 0 <==> k in entries && entries[k].ttlMs.Some?
  {
    if k !in entries then -2
    else if entries[k].ttlMs.None? then -1
    else (entries[k].ttlMs.value + 500) / 1000
  }

  /** The keys of `examined` that `SCAN … MATCH pattern` reports. */
  function ScanFilter(examined: set<string>, pattern: string): (r: set<string>)
    ensures forall k :: k in r <==> k in examined && ScanMatches(pattern, k)
  {
    set k | k in examined && ScanMatches(pattern, k)
  }

  /** The keys `SCAN … MATCH pattern` reports over the whole keyspace. */
  function MatchingKeys(entries: Keyspace, pattern: string): set<string> {
    ScanFilter(entries.Keys, pattern)
  }

  /** The keyspace without the keys in `ks`. */
  function Without(entries: Keyspace, ks: set<string>): (r: Keyspace)
    ensures forall k :: k in r <==> k in entries && k !in ks
    ensures forall k :: k in r ==> r[k] == entries[k]
  {
    map k | k in entries && k !in ks :: entries[k]
  }

  /** A map is `Without` exactly when it has the keys and values that says. */
  lemma WithoutCharacterised(entries: Keyspace, ks: set<string>, r: Keyspace)
    requires forall k :: k in r <==> k in entries && k !in ks
    requires forall k :: k in r ==> r[k] == entries[k]
    ensures r == Without(entries, ks)
  {
  }

  /** One round of the script keeps its invariant: examining `step` moves
      its matching keys from the unexamined side to the deleted side. */
  lemma ScriptRound(keyspace: Keyspace, pattern: string, cursor: set<string>, step: set<string>,
                    deleted: set<string>, before: Keyspace, after: Keyspace)
    requires cursor <= keyspace.Keys && step <= cursor
    requires deleted == MatchingKeys(keyspace, pattern) - cursor
    requires before == Without(keyspace, deleted)
    requires after == Without(before, ScanFilter(step, pattern))
    ensures deleted + ScanFilter(step, pattern) == MatchingKeys(keyspace, pattern) - (cursor - step)
    ensures |deleted + ScanFilter(step, pattern)| == |deleted| + |ScanFilter(step, pattern)|
    ensures after == Without(keyspace, deleted + ScanFilter(step, pattern))
  {
    var keys := ScanFilter(step, pattern);
    assert deleted !! keys;
    WithoutCharacterised(keyspace, deleted + keys, after);
  }

  /** One SCAN call: some keys not yet examined, at least one while any
      remain; which ones, and how many, is the store's choice. */
  method ScanStep(cursor: set<string>) returns (step: set<string>)
    ensures step <= cursor
    ensures cursor != {} ==> |cursor - step| < |cursor|
  {
    if cursor != {} {
      var some :| some in cursor;
      assert {some} <= cursor && |{some}| == 1;
    }
    step :| step <= cursor && (cursor != {} ==> step != {});
    assert |cursor - step| + |step| == |cursor| by {
      assert (cursor - step) + step == cursor;
    }
  }

  /** The script's `for` loop: DEL each key a SCAN returned, counting one per DEL. */
  method DelEach(entries: Keyspace, keys: set<string>) returns (after: Keyspace, count: nat)
    ensures after == Without(entries, keys)
    ensures count == |keys|
  {
    var todo := keys;
    after := entries;
    count := 0;
    while todo != {}
      invariant todo <= keys
      invariant after == Without(entries, keys - todo)
      invariant count == |keys - todo|
      decreases |todo|
    {
      var k :| k in todo;
      ghost var done := keys - todo;
      assert k !in done && done + {k} == keys - (todo - {k});
      after := DelCmd(after, k);
      WithoutCharacterised(entries, done + {k}, after);
      count := count + 1;
      todo := todo - {k};
    }
  }

  /** The pattern-deletion script, run atomically by the store: SCAN from
      cursor 0 until the cursor comes back to 0, DEL every key each SCAN
      returns and count the DELs. */
  method RunDeleteScript(keyspace: Keyspace, pattern: string) returns (after: Keyspace, count: nat)
    ensures after == Without(keyspace, MatchingKeys(keyspace, pattern))
    ensures count == |MatchingKeys(keyspace, pattern)|
  {
    var cursor := keyspace.Keys;
    after := keyspace;
    count := 0;
    ghost var deleted: set<string> := {};
    var finished := false;
    while !finished
      invariant cursor <= keyspace.Keys
      invariant deleted == MatchingKeys(keyspace, pattern) - cursor
      invariant after == Without(keyspace, deleted)
      invariant count == |deleted|
      invariant finished ==> cursor == {}
      decreases |cursor| + (if finished then 0 else 1)
    {
      var step := ScanStep(cursor);
      var keys := ScanFilter(step, pattern);
      ghost var before := after;
      var n;
      after, n := DelEach(after, keys);
      ScriptRound(keyspace, pattern, cursor, step, deleted, before, after);
      count := count + n;
      deleted := deleted + keys;
      cursor := cursor - step;
      finished := cursor == {};
    }
  }

  /** The key-value store both connections talk to (the reader host is taken
      to be an up-to-date replica of the writer's). */
  class KeyValueStore {
    var entries: Keyspace

    constructor (entries: Keyspace)
      ensures this.entries == entries
    {
      this.entries := entries;
    }
  }

  // ---------------------------------------------------------------------------
  // The client

  datatype Role = Writer | Reader

  /** A connection handle; the client only ever tests it for null, sends
      commands through it and quits it. */
  class Connection {
    const role: Role
    const host: string

    constructor (role: Role, host: string)
      ensures this.role == role && this.host == host
    {
      this.role := role;
      this.host := host;
    }
  }

  /** What the environment does to one call: whether building a connection
      throws, whether the store command throws, and whether quitting the
      writer or the reader throws. */
  datatype Faults = Faults(initFails: bool, commandFails: bool, writerQuitFails: bool, readerQuitFails: bool)

  /** `get(env, name, "")`. */
  function EnvOr(env: map<string, string>, name: string): string {
    if name in env then env[name] else ""
  }

  /** Whether `close` gets through both quits, given which slots are filled. */
  predicate QuitsSucceed(hasWriter: bool, hasReader: bool, faults: Faults) {
    !(hasWriter && faults.writerQuitFails) && !(hasReader && faults.readerQuitFails)
  }

  /** Whether a read finds a reader: one was there, or both slots were empty
      and building one succeeded. */
  predicate ReaderPresent(hasWriter: bool, hasReader: bool, faults: Faults) {
    hasReader || (!hasWriter && !faults.initFails)
  }

  /** A read's reply: a missing or empty value is returned as null. */
  function ReadReply(raw: Option<string>): (r: Option<string>)
    ensures r.Some? <==> raw.Some? && raw.value != ""
    ensures r.Some? ==> r == raw
  {
    if raw.Some? && raw.value != "" then raw else None
  }

  /** `getTtl`'s reply: a TTL of 0 is returned as null, -1 and -2 as they are. */
  function TtlReply(ttl: int): (r: Option<int>)
    ensures r.None? <==> ttl == 0
    ensures r.Some? ==> r.value == ttl
  {
    if ttl == 0 then None else Some(ttl)
  }

  /** The store after the command `set` sends: PSETEX when the TTL is given
      and non-zero (refused, so no change, when negative), SET otherwise. */
  function SetEffect(entries: Keyspace, k: string, v: string, ttl: Option<int>): (r: Keyspace)
    ensures ttl.None? || ttl == Some(0) ==> r == SetCmd(entries, k, v)
    ensures ttl.Some? && ttl.value != 0 ==>
      r == (match PSetExCmd(entries, k, ttl.value, v) case Ok(m) => m case Err(_) => entries)
  {
    if ttl.Some? && ttl.value != 0 then
      match PSetExCmd(entries, k, ttl.value, v)
      case Ok(m) => m
      case Err(_) => entries
    else SetCmd(entries, k, v)
  }

  class RedisCache {
    var connection: Connection?
    var readerConnection: Connection?
    const store: KeyValueStore
    const env: map<string, string>

    constructor (store: KeyValueStore, env: map<string, string>)
      ensures connection == null && readerConnection == null
      ensures this.store == store && this.env == env
    {
      connection := null;
      readerConnection := null;
      this.store := store;
      this.env := env;
    }

    /** `init`: a writer connection to `REDIS_HOST`, or null when building it throws. */
    method Init(faults: Faults) returns (c: Connection?)
      ensures faults.initFails <==> c == null
      ensures c != null ==> fresh(c) && c.role == Writer && c.host == EnvOr(env, "REDIS_HOST")
    {
      if faults.initFails {
        c := null;
      } else {
        c := new Connection(Writer, EnvOr(env, "REDIS_HOST"));
      }
    }

    /** `readerInit`: a reader connection to `REDIS_READER_HOST`, or null
        when building it throws. */
    method ReaderInit(faults: Faults) returns (c: Connection?)
      ensures faults.initFails <==> c == null
      ensures c != null ==> fresh(c) && c.role == Reader && c.host == EnvOr(env, "REDIS_READER_HOST")
    {
      if faults.initFails {
        c := null;
      } else {
        c := new Connection(Reader, EnvOr(env, "REDIS_READER_HOST"));
      }
    }

    /** `close`: quit the writer, then the reader, then empty both slots; a
        quit that throws is swallowed and leaves both slots as they were. */
    method Close(faults: Faults)
      modifies this
      ensures QuitsSucceed(old(connection) != null, old(readerConnection) != null, faults) ==>
        connection == null && readerConnection == null
      ensures !QuitsSucceed(old(connection) != null, old(readerConnection) != null, faults) ==>
        connection == old(connection) && readerConnection == old(readerConnection)
    {
      if connection != null && faults.writerQuitFails {
        return;
      }
      if readerConnection != null && faults.readerQuitFails {
        return;
      }
      readerConnection := null;
      connection := null;
    }

    /** `get`: reads `CACHE_key` through the reader (built only when both
        slots are empty), then closes. */
    method Get(key: string, faults: Faults) returns (r: Option<string>)
      modifies this
      ensures var hasReader := ReaderPresent(old(connection) != null, old(readerConnection) != null, faults);
        r == (if hasReader && !faults.commandFails then ReadReply(GetCmd(store.entries, CachePrefix + key)) else None)
      ensures var hasReader := ReaderPresent(old(connection) != null, old(readerConnection) != null, faults);
        if QuitsSucceed(old(connection) != null, hasReader, faults) then connection == null && readerConnection == null
        else (connection == old(connection) && (readerConnection != null <==> hasReader) &&
              (old(readerConnection) != null ==> readerConnection == old(readerConnection)))
    {
      if connection == null && readerConnection == null {
        readerConnection := ReaderInit(faults);
      }
      if readerConnection != null && !faults.commandFails {
        r := ReadReply(GetCmd(store.entries, CachePrefix + key));
      } else {
        r := None;
      }
      Close(faults);
    }

    /** `getTtl`: asks the reader (built only when both slots are empty) for
        the TTL of `CACHE_key`, then closes. */
    method GetTtl(key: string, faults: Faults) returns (r: Option<int>)
      modifies this
      ensures var hasReader := ReaderPresent(old(connection) != null, old(readerConnection) != null, faults);
        r == (if hasReader && !faults.commandFails then TtlReply(TtlCmd(store.entries, CachePrefix + key)) else None)
      ensures var hasReader := ReaderPresent(old(connection) != null, old(readerConnection) != null, faults);
        if QuitsSucceed(old(connection) != null, hasReader, faults) then connection == null && readerConnection == null
        else (connection == old(connection) && (readerConnection != null <==> hasReader) &&
              (old(readerConnection) != null ==> readerConnection == old(readerConnection)))
    {
      if connection == null && readerConnection == null {
        readerConnection := ReaderInit(faults);
      }
      if readerConnection != null && !faults.commandFails {
        r := TtlReply(TtlCmd(store.entries, CachePrefix + key));
      } else {
        r := None;
      }
      Close(faults);
    }

    /** `getdel`: reads and removes `CACHE_key` through the writer (built
        when its slot is empty), then closes. */
    method GetDel(key: string, faults: Faults) returns (r: Option<string>)
      modifies this, store
      ensures var hasWriter := old(connection) != null || !faults.initFails;
        && r == (if hasWriter && !faults.commandFails then ReadReply(GetCmd(old(store.entries), CachePrefix + key)) else None)
        && store.entries == (if hasWriter && !faults.commandFails then DelCmd(old(store.entries), CachePrefix + key) else old(store.entries))
      ensures var hasWriter := old(connection) != null || !faults.initFails;
        if QuitsSucceed(hasWriter, old(readerConnection) != null, faults) then connection == null && readerConnection == null
        else (readerConnection == old(readerConnection) && (connection != null <==> hasWriter) &&
              (old(connection) != null ==> connection == old(connection)))
    {
      if connection == null {
        connection := Init(faults);
      }
      if connection != null && !faults.commandFails {
        var reply := GetDelCmd(store.entries, CachePrefix + key);
        store.entries := reply.1;
        r := ReadReply(reply.0);
      } else {
        r := None;
      }
      Close(faults);
    }

    /** `set`: stores `CACHE_key` through the writer (built when its slot is
        empty); leaves the reader alone and does not close. */
    method Set(key: string, value: string, ttl: Option<int>, faults: Faults)
      modifies this, store
      ensures readerConnection == old(readerConnection)
      ensures old(connection) != null ==> connection == old(connection)
      ensures old(connection) == null ==>
        (connection == null <==> faults.initFails) && (connection != null ==> fresh(connection) && connection.role == Writer)
      ensures store.entries == (if connection != null && !faults.commandFails
                                then SetEffect(old(store.entries), CachePrefix + key, value, ttl)
                                else old(store.entries))
    {
      if connection == null {
        connection := Init(faults);
      }
      if connection != null && !faults.commandFails {
        if ttl.Some? && ttl.value != 0 {
          var reply := PSetExCmd(store.entries, CachePrefix + key, ttl.value, value);
          if reply.Ok? {
            store.entries := reply.value;
          }
        } else {
          store.entries := SetCmd(store.entries, CachePrefix + key, value);
        }
      }
    }

    /** `delete`: removes `CACHE_key` through the writer (built when its slot
        is empty); leaves the reader alone and does not close. */
    method Delete(key: string, faults: Faults)
      modifies this, store
      ensures readerConnection == old(readerConnection)
      ensures old(connection) != null ==> connection == old(connection)
      ensures old(connection) == null ==>
        (connection == null <==> faults.initFails) && (connection != null ==> fresh(connection) && connection.role == Writer)
      ensures store.entries == (if connection != null && !faults.commandFails
                                then DelCmd(old(store.entries), CachePrefix + key)
                                else old(store.entries))
    {
      if connection == null {
        connection := Init(faults);
      }
      if connection != null && !faults.commandFails {
        store.entries := DelCmd(store.entries, CachePrefix + key);
      }
    }

    /** `deleteByPattern`: runs the deletion script with the pattern
        `CACHE_pattern` through the writer (built when its slot is empty);
        the script's count is only logged. Leaves the reader alone and does
        not close. */
    method DeleteByPattern(pattern: string, faults: Faults)
      modifies this, store
      ensures readerConnection == old(readerConnection)
      ensures old(connection) != null ==> connection == old(connection)
      ensures old(connection) == null ==>
        (connection == null <==> faults.initFails) && (connection != null ==> fresh(connection) && connection.role == Writer)
      ensures store.entries == (if connection != null && !faults.commandFails
                                then Without(old(store.entries), MatchingKeys(old(store.entries), CachePrefix + pattern))
                                else old(store.entries))
    {
      if connection == null {
        connection := Init(faults);
      }
      if connection != null && !faults.commandFails {
        var after, count := RunDeleteScript(store.entries, CachePrefix + pattern);
        store.entries := after;
      }
    }
  }

  // ---------------------------------------------------------------------------
  // Properties

  /** The store's keys outside the `CACHE_` namespace are the same in both. */
  ghost predicate SameOutsideNamespace(before: Keyspace, after: Keyspace) {
    forall k :: !HasPrefix(k, CachePrefix) ==>
      (k in before <==> k in after) && (k in before ==> before[k] == after[k])
  }

  lemma PrefixedHasPrefix(key: string)
    ensures HasPrefix(CachePrefix + key, CachePrefix)
  {
    assert (CachePrefix + key)[..|CachePrefix|] == CachePrefix;
  }

  /** No write the client sends touches a key outside its namespace; for
      `deleteByPattern` this holds whatever the caller's pattern holds. */
  lemma WritesStayInNamespace(entries: Keyspace, key: string, value: string, ttl: Option<int>, pattern: string)
    ensures SameOutsideNamespace(entries, SetEffect(entries, CachePrefix + key, value, ttl))
    ensures SameOutsideNamespace(entries, DelCmd(entries, CachePrefix + key))
    ensures SameOutsideNamespace(entries, Without(entries, MatchingKeys(entries, CachePrefix + pattern)))
  {
    PrefixedHasPrefix(key);
    var p := CachePrefix + pattern;
    assert IsLiteral(CachePrefix);
    forall k | k in entries && ScanMatches(p, k)
      ensures HasPrefix(k, CachePrefix)
    {
      assert p != "*" by { assert p[0] == 'C'; }
      assert k != [] by { assert p != []; }
      LiteralPrefixForced(CachePrefix, pattern, k);
    }
  }

  /** `deleteByPattern(prefix + "*")` with a plain prefix removes exactly the
      cached keys that start with it, and nothing else. */
  lemma DeleteByPrefixRemovesExactly(entries: Keyspace, prefix: string)
    requires IsLiteral(prefix)
    ensures var after := Without(entries, MatchingKeys(entries, CachePrefix + prefix + "*"));
      forall k :: k in after <==> k in entries && !HasPrefix(k, CachePrefix + prefix)
  {
    var lit := CachePrefix + prefix;
    assert IsLiteral(lit);
    assert lit + "*" != "*" by { assert (lit + "*")[0] == 'C'; }
    forall k | k in entries
      ensures ScanMatches(lit + "*", k) <==> HasPrefix(k, lit)
    {
      LiteralStarMatchesPrefix(lit, k);
    }
  }

  /** A live key with under half a second left reads as having a TTL of 0,
      which `getTtl` returns as null; with no expiry it returns -1, and for a
      missing key -2. */
  lemma TtlReplyCases(entries: Keyspace, k: string)
    ensures k !in entries ==> TtlReply(TtlCmd(entries, k)) == Some(-2)
    ensures k in entries && entries[k].ttlMs.None? ==> TtlReply(TtlCmd(entries, k)) == Some(-1)
    ensures k in entries && entries[k].ttlMs.Some? ==>
      (TtlReply(TtlCmd(entries, k)).None? <==> entries[k].ttlMs.value < 500)
  {
  }

  /** `set` then `get` on a fresh client: once `set` has built its writer,
      `get` builds no reader and reads through a null one, so it reads
      nothing. Had building the writer thrown, nothing was written and a
      reader built by `get` reads the key's earlier value. */
  method SetThenGetReadsNothing(cache: RedisCache, key: string, value: string, ttl: Option<int>,
                                setFaults: Faults, getFaults: Faults)
      returns (r: Option<string>)
    requires cache.connection == null && cache.readerConnection == null
    modifies cache, cache.store
    ensures !setFaults.initFails ==> r == None
    ensures setFaults.initFails && !getFaults.initFails && !getFaults.commandFails ==>
      r == ReadReply(GetCmd(old(cache.store.entries), CachePrefix + key))
  {
    cache.Set(key, value, ttl, setFaults);
    r := cache.Get(key, getFaults);
  }

  /** With a `close` in between, a value set without errors is read back,
      unless it is empty (read as null) or its TTL is negative (refused). */
  method SetCloseGetRoundTrip(cache: RedisCache, key: string, value: string, ttl: Option<int>)
      returns (r: Option<string>)
    requires cache.connection == null && cache.readerConnection == null
    modifies cache, cache.store
    ensures ttl.None? || ttl.value >= 0 ==> r == (if value != "" then Some(value) else None)
  {
    var ok := Faults(false, false, false, false);
    cache.Set(key, value, ttl, ok);
    cache.Close(ok);
    r := cache.Get(key, ok);
  }

  /** `getdel` hands back the stored value once and removes the key: a second
      `getdel` finds nothing. */
  method GetDelConsumes(cache: RedisCache, key: string) returns (first: Option<string>, second: Option<string>)
    modifies cache, cache.store
    ensures second == None
    ensures first.Some? <==> (CachePrefix + key in old(cache.store.entries) && old(cache.store.entries)[CachePrefix + key].value != "")
    ensures first.Some? ==> first.value == old(cache.store.entries)[CachePrefix + key].value
    ensures CachePrefix + key !in cache.store.entries
  {
    var ok := Faults(false, false, false, false);
    first := cache.GetDel(key, ok);
    second := cache.GetDel(key, ok);
  }
}
