/** The query-resolution pipeline and its response cache.

    A query is answered by the first of four stages that applies: a custom
    record, the blocklist, a live cache entry, the upstream resolver. The
    DNS message library, the upstream call, IP parsing and the clock are
    abstract: a message is a record of its transaction id, answer records,
    result code and authoritative flag; the library's type-name table and
    record constructor come in a `Library` value; the upstream's answer and
    the two clock readings of a query come in as arguments. */
module DnsHandler {
  import opened Wrappers
  import opened Strings

  /** A domain name as it appears in a question: dot-terminated for names off the wire. */
  type Name = string
  /** A query type code (`uint16` on the wire). */
  type QType = nat
  /** An IP address as `net.ParseIP` returns it. */
  type IP = seq<bv8>

  /** Result codes and the A type code of RFC 1035 (sections 4.1.1 and 3.2.2). */
  const RcodeSuccess: nat := 0
  const RcodeServerFailure: nat := 2
  const RcodeNameError: nat := 3
  const TypeA: QType := 1

  /** Nanoseconds per second: the clock counts nanoseconds, TTLs count seconds. */
  const NanosPerSecond: int := 1_000_000_000

  /** A resource record; `NilRecord` is the nil interface value a failed record construction yields. */
  datatype RR =
    | Record(name: Name, rrtype: QType, ttl: nat, rdata: string)
    | NilRecord

  /** The incoming query: its transaction id and its single question. */
  datatype Query = Query(id: nat, name: Name, qtype: QType)

  datatype Msg = Msg(id: nat, answers: seq<RR>, rcode: nat, authoritative: bool)

  datatype CacheEntry = CacheEntry(msg: Msg, expiry: int)

  type Cache = map<string, CacheEntry>

  /** The parts of the DNS message library the handler calls: the type-name
      table and the text-form record constructor for `"<name> A <ip>"`. */
  datatype Library = Library(typeToString: map<QType, string>, newA: (Name, IP) -> Result<RR, string>)

  datatype ConfigError = InvalidIP(domain: string, ipStr: string)

  /** A decoded message holds no nil record. */
  predicate Unpacked(m: Msg) {
    forall i :: 0 <= i < |m.answers| ==> m.answers[i].Record?
  }

  /** `TypeToString[qtype]`: a Go map lookup, so an unknown type gives `""`. */
  function TypeName(lib: Library, qtype: QType): string {
    if qtype in lib.typeToString then lib.typeToString[qtype] else ""
  }

  /** The key a custom record is stored under: a trailing dot is added when missing. */
  function Normalize(domain: string): (d: Name)
    ensures HasSuffix(d, ".")
    ensures HasSuffix(domain, ".") ==> d == domain
    ensures !HasSuffix(domain, ".") ==> d == domain + "."
  {
    if HasSuffix(domain, ".") then domain else domain + "."
  }

  /** The name the blocklist is consulted with: one trailing dot removed. */
  function CleanDomain(name: Name): (c: string)
    ensures HasSuffix(name, ".") ==> c + "." == name
    ensures !HasSuffix(name, ".") ==> c == name
  {
    TrimSuffix(name, ".")
  }

  /** The cache key: the name followed by the type's name. */
  function CacheKey(name: Name, typeName: string): string {
    name + typeName
  }

  /** The key of a query in the cache. */
  function KeyOf(lib: Library, q: Query): string {
    CacheKey(q.name, TypeName(lib, q.qtype))
  }

  /** An entry is served only strictly before its expiry. */
  predicate IsLive(entry: CacheEntry, now: int) {
    now < entry.expiry
  }

  /** `SetReply` on a fresh message: empty, success, not yet authoritative, correlated with the query. */
  function Reply(q: Query): Msg {
    Msg(q.id, [], RcodeSuccess, false)
  }

  /** `SetReply` on a cached message: takes the query's id and resets the result
      code; the answers and the authoritative flag are the cached ones. */
  function Rebind(m: Msg, q: Query): (r: Msg)
    ensures r.id == q.id && r.rcode == RcodeSuccess
    ensures r.answers == m.answers && r.authoritative == m.authoritative
  {
    m.(id := q.id, rcode := RcodeSuccess)
  }

  /** The authoritative reply with result code `rcode` and no answers. */
  function ErrorReply(q: Query, rcode: nat): (m: Msg)
    ensures m.id == q.id && m.answers == [] && m.rcode == rcode && m.authoritative
  {
    Reply(q).(authoritative := true, rcode := rcode)
  }

  /** The custom-record response as the handler builds it: the record is
      appended only when its construction FAILS, and then it is the nil
      record. */
  function CustomResponse(lib: Library, q: Query, ip: IP): (m: Msg)
    ensures m.id == q.id && m.rcode == RcodeSuccess && m.authoritative
    ensures |m.answers| <= 1
    ensures q.qtype != TypeA ==> m.answers == []
  {
    var msg := Reply(q).(authoritative := true);
    if q.qtype == TypeA && lib.newA(q.name, ip).Failure? then msg.(answers := msg.answers + [NilRecord]) else msg
  }

  /** The custom-record response as intended: the record is appended when its construction succeeds. */
  function IntendedCustomResponse(lib: Library, q: Query, ip: IP): Msg {
    var msg := Reply(q).(authoritative := true);
    if q.qtype == TypeA && lib.newA(q.name, ip).Success? then msg.(answers := msg.answers + [lib.newA(q.name, ip).value]) else msg
  }

  /** The least TTL among the answers. */
  function MinTtl(answers: seq<RR>): nat
    requires |answers| > 0
    requires forall i :: 0 <= i < |answers| ==> answers[i].Record?
  {
    if |answers| == 1 then answers[0].ttl
    else
      var rest := MinTtl(answers[..|answers| - 1]);
      var last := answers[|answers| - 1].ttl;
      if last < rest then last else rest
  }

  /** `MinTtl` is the minimum: it is the TTL of some answer and no answer has a smaller one. */
  lemma {:induction false} MinTtlIsMinimum(answers: seq<RR>)
    requires |answers| > 0
    requires forall i :: 0 <= i < |answers| ==> answers[i].Record?
    ensures exists i :: 0 <= i < |answers| && answers[i].ttl == MinTtl(answers)
    ensures forall i :: 0 <= i < |answers| ==> MinTtl(answers) <= answers[i].ttl
  {
    if |answers| > 1 {
      var init := answers[..|answers| - 1];
      MinTtlIsMinimum(init);
      var j :| 0 <= j < |init| && init[j].ttl == MinTtl(init);
      assert answers[j] == init[j];
      forall i | 0 <= i < |answers| - 1 ensures MinTtl(answers) <= answers[i].ttl {
        assert answers[i] == init[i];
      }
      if answers[|answers| - 1].ttl < MinTtl(init) {
        assert answers[|answers| - 1].ttl == MinTtl(answers);
      } else {
        assert answers[j].ttl == MinTtl(answers);
      }
    } else {
      assert answers[0].ttl == MinTtl(answers);
    }
  }

  /** The loop of `ServeDNS` that finds the smallest answer TTL: it starts
      from the first answer and visits every answer, the first included. */
  method MinAnswerTtl(answers: seq<RR>) returns (ttl: nat)
    requires |answers| > 0
    requires forall i :: 0 <= i < |answers| ==> answers[i].Record?
    ensures exists i :: 0 <= i < |answers| && answers[i].ttl == ttl
    ensures forall i :: 0 <= i < |answers| ==> ttl <= answers[i].ttl
    ensures ttl == MinTtl(answers)
  {
    ttl := answers[0].ttl;
    var k := 0;
    while k < |answers|
      invariant 0 <= k <= |answers|
      invariant exists i :: 0 <= i < |answers| && answers[i].ttl == ttl
      invariant forall i :: 0 <= i < k ==> ttl <= answers[i].ttl
    {
      if answers[k].ttl < ttl {
        ttl := answers[k].ttl;
      }
      k := k + 1;
    }
    MinTtlIsMinimum(answers);
  }

  /** The outcome of one query: the response written back and the cache afterwards. */
  datatype Outcome = Outcome(response: Msg, cache: Cache)

  /** The stage that answers a query. */
  datatype Stage = CustomRecord | Blocked | CacheHit | Upstream

  /** The precedence of the pipeline: which stage answers `q`. */
  function StageOf(custom: map<Name, IP>, blocklist: set<string>, cache: Cache, lib: Library, q: Query, now: int): (s: Stage)
    ensures s == CustomRecord <==> q.name in custom
    ensures s == Blocked <==> q.name !in custom && CleanDomain(q.name) in blocklist
    ensures s == CacheHit ==> KeyOf(lib, q) in cache && IsLive(cache[KeyOf(lib, q)], now)
    ensures s == Upstream ==> !(KeyOf(lib, q) in cache && IsLive(cache[KeyOf(lib, q)], now))
  {
    var key := KeyOf(lib, q);
    if q.name in custom then CustomRecord
    else if CleanDomain(q.name) in blocklist then Blocked
    else if key in cache && IsLive(cache[key], now) then CacheHit
    else Upstream
  }

  /** One pass through the pipeline. `now` is the clock when the cache is
      consulted, `storedAt` the clock when a fresh answer is stored. */
  function Resolve(custom: map<Name, IP>, blocklist: set<string>, cache: Cache, lib: Library,
                   q: Query, now: int, forward: Result<Msg, string>, storedAt: int): (r: Outcome)
    requires forward.Success? ==> Unpacked(forward.value)
    ensures r.response.id == q.id || (forward.Success? && r.response == forward.value)
    ensures r.cache.Keys <= cache.Keys + {KeyOf(lib, q)}
    ensures forall k :: k in cache && k != KeyOf(lib, q) ==> k in r.cache && r.cache[k] == cache[k]
    ensures r.cache != cache ==> forward.Success? && |forward.value.answers| > 0
  {
    var key := KeyOf(lib, q);
    match StageOf(custom, blocklist, cache, lib, q, now)
    case CustomRecord => Outcome(CustomResponse(lib, q, custom[q.name]), cache)
    case Blocked => Outcome(ErrorReply(q, RcodeNameError), cache)
    case CacheHit => Outcome(Rebind(cache[key].msg, q), cache)
    case Upstream =>
      match forward
      case Failure(_) => Outcome(ErrorReply(q, RcodeServerFailure), cache)
      case Success(m) =>
        if |m.answers| > 0 then
          Outcome(m, cache[key := CacheEntry(m, storedAt + MinTtl(m.answers) * NanosPerSecond)])
        else Outcome(m, cache)
  }

  /** A custom record ends the query: the response is built from the record
      alone (the blocklist, the cache, the clock and the upstream play no
      part) and the cache is unchanged. */
  lemma CustomRecordIsTerminal(custom: map<Name, IP>, blocklist: set<string>, cache: Cache, lib: Library,
                               q: Query, now: int, forward: Result<Msg, string>, storedAt: int)
    requires forward.Success? ==> Unpacked(forward.value)
    requires q.name in custom
    ensures Resolve(custom, blocklist, cache, lib, q, now, forward, storedAt)
            == Outcome(CustomResponse(lib, q, custom[q.name]), cache)
  {
  }

  /** A blocked name that is not a custom record gets an authoritative
      name-error reply with no answers; the cache and the upstream are not
      consulted and the cache is unchanged. */
  lemma BlockedNameIsTerminal(custom: map<Name, IP>, blocklist: set<string>, cache: Cache, lib: Library,
                              q: Query, now: int, forward: Result<Msg, string>, storedAt: int)
    requires forward.Success? ==> Unpacked(forward.value)
    requires q.name !in custom && CleanDomain(q.name) in blocklist
    ensures Resolve(custom, blocklist, cache, lib, q, now, forward, storedAt) == Outcome(ErrorReply(q, RcodeNameError), cache)
  {
  }

  /** A blocklist line is matched by the query for that name with a trailing dot. */
  lemma BlocklistMatchesDotTerminatedQuery(blocklist: set<string>, line: string, q: Query)
    requires line in blocklist && q.name == line + "."
    ensures CleanDomain(q.name) in blocklist
  {
    assert HasSuffix(q.name, ".");
    assert q.name[..|q.name| - 1] == line;
  }

  /** A live cache entry answers the query, re-bound to it; the upstream is not consulted and the cache is unchanged. */
  lemma LiveEntryIsServed(custom: map<Name, IP>, blocklist: set<string>, cache: Cache, lib: Library,
                          q: Query, now: int, forward: Result<Msg, string>, storedAt: int)
    requires forward.Success? ==> Unpacked(forward.value)
    requires q.name !in custom && CleanDomain(q.name) !in blocklist
    requires KeyOf(lib, q) in cache && now < cache[KeyOf(lib, q)].expiry
    ensures Resolve(custom, blocklist, cache, lib, q, now, forward, storedAt)
            == Outcome(Rebind(cache[KeyOf(lib, q)].msg, q), cache)
  {
  }

  /** An expired entry behaves as a miss: the response is the one an empty
      slot would give, and the entry stays in the cache unless a fresh
      answer overwrites it. */
  lemma ExpiredEntryIsMiss(custom: map<Name, IP>, blocklist: set<string>, cache: Cache, lib: Library,
                           q: Query, now: int, forward: Result<Msg, string>, storedAt: int)
    requires forward.Success? ==> Unpacked(forward.value)
    requires q.name !in custom && CleanDomain(q.name) !in blocklist
    requires KeyOf(lib, q) in cache && !(now < cache[KeyOf(lib, q)].expiry)
    ensures Resolve(custom, blocklist, cache, lib, q, now, forward, storedAt).response
            == Resolve(custom, blocklist, cache - {KeyOf(lib, q)}, lib, q, now, forward, storedAt).response
    ensures (forward.Failure? || forward.value.answers == []) ==>
              Resolve(custom, blocklist, cache, lib, q, now, forward, storedAt).cache == cache
  {
  }

  /** An upstream failure gives an authoritative server-failure reply and leaves the cache unchanged. */
  lemma UpstreamFailureIsServerFailure(custom: map<Name, IP>, blocklist: set<string>, cache: Cache, lib: Library,
                                       q: Query, now: int, cause: string, storedAt: int)
    requires StageOf(custom, blocklist, cache, lib, q, now) == Upstream
    ensures Resolve(custom, blocklist, cache, lib, q, now, Failure(cause), storedAt)
            == Outcome(ErrorReply(q, RcodeServerFailure), cache)
  {
  }

  /** An upstream answer with no records is returned as it is and not cached. */
  lemma EmptyAnswerNotCached(custom: map<Name, IP>, blocklist: set<string>, cache: Cache, lib: Library,
                             q: Query, now: int, m: Msg, storedAt: int)
    requires StageOf(custom, blocklist, cache, lib, q, now) == Upstream
    requires m.answers == []
    ensures Resolve(custom, blocklist, cache, lib, q, now, Success(m), storedAt) == Outcome(m, cache)
  {
  }

  /** An upstream answer with records is returned as it is and stored under
      the query's key alone, expiring the smallest answer TTL after it was
      stored; every other entry is unchanged. */
  lemma UpstreamAnswerCached(custom: map<Name, IP>, blocklist: set<string>, cache: Cache, lib: Library,
                             q: Query, now: int, m: Msg, storedAt: int)
    requires StageOf(custom, blocklist, cache, lib, q, now) == Upstream
    requires Unpacked(m) && m.answers != []
    ensures var o := Resolve(custom, blocklist, cache, lib, q, now, Success(m), storedAt);
      && o.response == m
      && o.cache.Keys == cache.Keys + {KeyOf(lib, q)}
      && o.cache[KeyOf(lib, q)].msg == m
      && (forall i :: 0 <= i < |m.answers| ==> o.cache[KeyOf(lib, q)].expiry <= storedAt + m.answers[i].ttl * NanosPerSecond)
      && (exists i :: 0 <= i < |m.answers| && o.cache[KeyOf(lib, q)].expiry == storedAt + m.answers[i].ttl * NanosPerSecond)
      && (forall k :: k in cache && k != KeyOf(lib, q) ==> o.cache[k] == cache[k])
  {
    MinTtlIsMinimum(m.answers);
    var t := MinTtl(m.answers);
    var i :| 0 <= i < |m.answers| && m.answers[i].ttl == t;
    assert storedAt + t * NanosPerSecond == storedAt + m.answers[i].ttl * NanosPerSecond;
  }

  /** Cache round trip: once an upstream answer is stored, a query for the
      same name and type (whatever its id) is answered from the cache until
      the smallest TTL has elapsed, without the upstream, and from then on
      reaches the upstream again. */
  lemma CacheRoundTrip(custom: map<Name, IP>, blocklist: set<string>, cache: Cache, lib: Library,
                       q: Query, now: int, m: Msg, storedAt: int,
                       q2: Query, now2: int, forward2: Result<Msg, string>, storedAt2: int)
    requires StageOf(custom, blocklist, cache, lib, q, now) == Upstream
    requires Unpacked(m) && m.answers != []
    requires q2.name == q.name && q2.qtype == q.qtype
    requires forward2.Success? ==> Unpacked(forward2.value)
    ensures var stored := Resolve(custom, blocklist, cache, lib, q, now, Success(m), storedAt).cache;
      && (now2 < storedAt + MinTtl(m.answers) * NanosPerSecond ==>
            Resolve(custom, blocklist, stored, lib, q2, now2, forward2, storedAt2) == Outcome(Rebind(m, q2), stored))
      && (now2 >= storedAt + MinTtl(m.answers) * NanosPerSecond ==>
            StageOf(custom, blocklist, stored, lib, q2, now2) == Upstream)
  {
  }

  /** For dot-terminated names and type names without a dot, the cache key
      tells the pairs apart: different (name, type name) pairs never share an entry. */
  lemma CacheKeyInjective(n1: Name, t1: string, n2: Name, t2: string)
    requires HasSuffix(n1, ".") && HasSuffix(n2, ".")
    requires '.' !in t1 && '.' !in t2
    requires CacheKey(n1, t1) == CacheKey(n2, t2)
    ensures n1 == n2 && t1 == t2
  {
    var key := CacheKey(n1, t1);
    KeyDots(n1, t1);
    KeyDots(n2, t2);
    assert key[|n1| - 1] == '.' && key[|n2| - 1] == '.';
    assert |n1| == |n2|;
    assert n1 == key[..|n1|] == n2;
  }

  /** In a key, the name's closing dot is the last dot. */
  lemma KeyDots(n: Name, t: string)
    requires HasSuffix(n, ".") && '.' !in t
    ensures forall i :: |n| - 1 <= i < |CacheKey(n, t)| ==> (CacheKey(n, t)[i] == '.' <==> i == |n| - 1)
  {
    assert n[|n| - 1..] == ".";
    forall i | |n| <= i < |CacheKey(n, t)| ensures CacheKey(n, t)[i] != '.' {
      assert CacheKey(n, t)[i] == t[i - |n|];
    }
  }

  /** Types missing from the library's name table all have the empty name,
      so queries for the same name with two such types share one entry. */
  lemma UnnamedTypesShareKey(lib: Library, name: Name, a: QType, b: QType)
    requires a !in lib.typeToString && b !in lib.typeToString
    ensures CacheKey(name, TypeName(lib, a)) == CacheKey(name, TypeName(lib, b)) == name
  {
  }

  /** As written, an A query for a custom record whose record builds
      successfully gets no answer, although the intended response carries that record. */
  lemma CustomRecordAnswerDropped(lib: Library, q: Query, ip: IP)
    requires q.qtype == TypeA && lib.newA(q.name, ip).Success?
    ensures CustomResponse(lib, q, ip).answers == []
    ensures IntendedCustomResponse(lib, q, ip).answers == [lib.newA(q.name, ip).value]
  {
  }

  /** As written, a failed record construction puts the nil record into the answer section. */
  lemma CustomRecordNilOnFailure(lib: Library, q: Query, ip: IP)
    requires q.qtype == TypeA && lib.newA(q.name, ip).Failure?
    ensures CustomResponse(lib, q, ip).answers == [NilRecord]
  {
  }

  /** The intended custom-record response: authoritative and correlated with
      the query; one answer, the record built from the name and the address,
      exactly when the query is for an A record and the record builds; no
      answer otherwise. */
  lemma IntendedCustomAnswer(lib: Library, q: Query, ip: IP)
    ensures var m := IntendedCustomResponse(lib, q, ip);
      && m.id == q.id && m.rcode == RcodeSuccess && m.authoritative
      && (q.qtype == TypeA && lib.newA(q.name, ip).Success? ==> m.answers == [lib.newA(q.name, ip).value])
      && (q.qtype != TypeA || lib.newA(q.name, ip).Failure? ==> m.answers == [])
  {
  }

  /** The custom-record table of `NewHandler`: every value must parse as an
      IP address, and every key is stored dot-terminated. The domains are
      visited in no fixed order. */
  method ParseCustomRecords(config: map<string, string>, parseIP: string -> Option<IP>)
    returns (r: Result<map<Name, IP>, ConfigError>)
    ensures r.Failure? <==> exists d :: d in config && parseIP(config[d]).None?
    ensures r.Failure? ==> r.error.domain in config && r.error.ipStr == config[r.error.domain]
                           && parseIP(r.error.ipStr).None?
    ensures r.Success? ==> r.value.Keys == Normalized(config.Keys)
    ensures r.Success? ==> AllFromConfig(config, parseIP, r.value)
  {
    var parsedRecords: map<Name, IP> := map[];
    var todo := config.Keys;
    while todo != {}
      invariant TableSoFar(config, parseIP, parsedRecords, todo)
      decreases todo
    {
      var domain :| domain in todo;
      var ip := parseIP(config[domain]);
      if ip.None? {
        assert domain in config && parseIP(config[domain]).None?;
        return Failure(InvalidIP(domain, config[domain]));
      }
      var key := Normalize(domain);
      TableStep(config, parseIP, parsedRecords, todo, domain, ip.value);
      parsedRecords := parsedRecords[key := ip.value];
      todo := todo - {domain};
    }
    TableDone(config, parseIP, parsedRecords);
    return Success(parsedRecords);
  }

  /** What the loop of `ParseCustomRecords` knows once the domains outside `todo` are done. */
  ghost predicate TableSoFar(config: map<string, string>, parseIP: string -> Option<IP>,
                             parsed: map<Name, IP>, todo: set<string>)
  {
    && todo <= config.Keys
    && (forall d :: d in config && d !in todo ==> parseIP(config[d]).Some?)
    && parsed.Keys == Normalized(config.Keys - todo)
    && AllFromConfig(config, parseIP, parsed)
  }

  lemma TableStep(config: map<string, string>, parseIP: string -> Option<IP>,
                  parsed: map<Name, IP>, todo: set<string>, domain: string, ip: IP)
    requires TableSoFar(config, parseIP, parsed, todo)
    requires domain in todo && parseIP(config[domain]) == Some(ip)
    ensures TableSoFar(config, parseIP, parsed[Normalize(domain) := ip], todo - {domain})
  {
    var next := parsed[Normalize(domain) := ip];
    TableKeysStep(config.Keys, parsed, todo, domain, ip);
    TableValuesStep(config, parseIP, parsed, domain, ip);
  }

  lemma TableKeysStep(domains: set<string>, parsed: map<Name, IP>, todo: set<string>, domain: string, ip: IP)
    requires todo <= domains && domain in todo
    requires parsed.Keys == Normalized(domains - todo)
    ensures parsed[Normalize(domain) := ip].Keys == Normalized(domains - (todo - {domain}))
  {
    NormalizedAdd(domains - todo, domain);
    assert domains - (todo - {domain}) == (domains - todo) + {domain};
  }

  lemma TableValuesStep(config: map<string, string>, parseIP: string -> Option<IP>,
                        parsed: map<Name, IP>, domain: string, ip: IP)
    requires AllFromConfig(config, parseIP, parsed)
    requires domain in config && parseIP(config[domain]) == Some(ip)
    ensures AllFromConfig(config, parseIP, parsed[Normalize(domain) := ip])
  {
    var key := Normalize(domain);
    var next := parsed[key := ip];
    assert FromConfig(config, parseIP, key, ip);
    forall k | k in next ensures FromConfig(config, parseIP, k, next[k]) {
      if k != key {
        assert next[k] == parsed[k];
      }
    }
  }

  lemma TableDone(config: map<string, string>, parseIP: string -> Option<IP>, parsed: map<Name, IP>)
    requires TableSoFar(config, parseIP, parsed, {})
    ensures !exists d :: d in config && parseIP(config[d]).None?
    ensures parsed.Keys == Normalized(config.Keys)
    ensures AllFromConfig(config, parseIP, parsed)
  {
    assert config.Keys - {} == config.Keys;
  }

  /** The normalised keys of a set of configured domains. */
  function Normalized(domains: set<string>): set<Name> {
    set d | d in domains :: Normalize(d)
  }

  lemma NormalizedAdd(domains: set<string>, domain: string)
    ensures Normalized(domains + {domain}) == Normalized(domains) + {Normalize(domain)}
  {
  }

  /** Every entry of `table` is the parsed value of a configured domain with that key. */
  predicate AllFromConfig(config: map<string, string>, parseIP: string -> Option<IP>, table: map<Name, IP>) {
    forall k :: k in table ==> FromConfig(config, parseIP, k, table[k])
  }

  /** `ip` is the parsed value of some configured domain whose key is `k`. */
  predicate FromConfig(config: map<string, string>, parseIP: string -> Option<IP>, k: Name, ip: IP) {
    exists d :: d in config && Normalize(d) == k && parseIP(config[d]) == Some(ip)
  }

  /** No other configured domain normalises to the key of `d`. */
  predicate Unshared(config: map<string, string>, d: string) {
    forall d' :: d' in config && d' != d ==> Normalize(d') != Normalize(d)
  }

  /** When no two configured domains share a normalised key, the table holds exactly the parsed address of each. */
  lemma CustomRecordOfDomain(config: map<string, string>, parseIP: string -> Option<IP>,
                             records: map<Name, IP>, d: string)
    requires d in config && Normalize(d) in records
    requires AllFromConfig(config, parseIP, records)
    requires Unshared(config, d)
    ensures parseIP(config[d]) == Some(records[Normalize(d)])
  {
  }

  class Handler {
    const blocklist: set<string>
    const customRecords: map<Name, IP>
    const upstreamServer: string
    var cache: Cache

    constructor (blocklist: set<string>, customRecords: map<Name, IP>, upstreamServer: string)
      ensures this.blocklist == blocklist && this.customRecords == customRecords
      ensures this.upstreamServer == upstreamServer && cache == map[]
    {
      this.blocklist := blocklist;
      this.customRecords := customRecords;
      this.upstreamServer := upstreamServer;
      cache := map[];
    }

    /** `ServeDNS`: answers `q` from the first stage that applies; only a
        successful upstream answer with at least one record changes the cache. */
    method ServeDNS(lib: Library, q: Query, now: int, forward: Result<Msg, string>, storedAt: int)
      returns (response: Msg)
      requires forward.Success? ==> Unpacked(forward.value)
      modifies this`cache
      ensures Outcome(response, cache) == Resolve(customRecords, blocklist, old(cache), lib, q, now, forward, storedAt)
    {
      var msg := Reply(q);
      msg := msg.(authoritative := true);
      var cleanDomain := CleanDomain(q.name);

      if q.name in customRecords {
        var ip := customRecords[q.name];
        if q.qtype == TypeA {
          var rr := lib.newA(q.name, ip);
          if rr.Failure? {
            msg := msg.(answers := msg.answers + [NilRecord]);
          }
        }
        return msg;
      }

      if cleanDomain in blocklist {
        msg := msg.(rcode := RcodeNameError);
        return msg;
      }

      var cacheKey := KeyOf(lib, q);
      var found := cacheKey in cache;
      if found && now < cache[cacheKey].expiry {
        response := Rebind(cache[cacheKey].msg, q);
        return;
      }

      if forward.Failure? {
        msg := msg.(rcode := RcodeServerFailure);
        return msg;
      }

      response := forward.value;
      if |response.answers| > 0 {
        var ttl := MinAnswerTtl(response.answers);
        cache := cache[cacheKey := CacheEntry(response, storedAt + ttl * NanosPerSecond)];
      }
    }
  }

  /** `NewHandler`: fails when some custom-record value is not an IP address;
      otherwise a handler with an empty cache whose custom-record keys all end with a dot. */
  method NewHandler(blocklist: set<string>, customRecordsConfig: map<string, string>, upstreamServer: string,
                    parseIP: string -> Option<IP>)
    returns (r: Result<Handler, ConfigError>)
    ensures r.Failure? <==> exists d :: d in customRecordsConfig && parseIP(customRecordsConfig[d]).None?
    ensures r.Success? ==> fresh(r.value) && r.value.cache == map[]
    ensures r.Success? ==> r.value.blocklist == blocklist && r.value.upstreamServer == upstreamServer
    ensures r.Success? ==> r.value.customRecords.Keys == Normalized(customRecordsConfig.Keys)
    ensures r.Success? ==> forall k :: k in r.value.customRecords ==> HasSuffix(k, ".")
    ensures r.Failure? ==>
      r.error.domain in customRecordsConfig && r.error.ipStr == customRecordsConfig[r.error.domain] && parseIP(r.error.ipStr).None?
    ensures r.Success? ==> AllFromConfig(customRecordsConfig, parseIP, r.value.customRecords)
    ensures r.Success? ==> forall d :: d in customRecordsConfig && Unshared(customRecordsConfig, d) ==>
      Normalize(d) in r.value.customRecords && parseIP(customRecordsConfig[d]) == Some(r.value.customRecords[Normalize(d)])
  {
    var parsed := ParseCustomRecords(customRecordsConfig, parseIP);
    if parsed.Failure? {
      return Failure(parsed.error);
    }
    forall d | d in customRecordsConfig && Unshared(customRecordsConfig, d)
      ensures Normalize(d) in parsed.value && parseIP(customRecordsConfig[d]) == Some(parsed.value[Normalize(d)])
    {
      assert Normalize(d) in Normalized(customRecordsConfig.Keys);
      CustomRecordOfDomain(customRecordsConfig, parseIP, parsed.value, d);
    }
    var h := new Handler(blocklist, parsed.value, upstreamServer);
    return Success(h);
  }
}
