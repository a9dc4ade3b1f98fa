# dns-blocker resolution core, modelled in Dafny

This project models the query-resolution core of a DNS filtering proxy that
answers DNS queries itself where it can and forwards the rest to an upstream
DNS-over-HTTPS resolver:

- `handler.dfy` (module `DnsHandler`): the `Handler` with its custom-record
  table, its blocklist and its response cache. `NewHandler` checks the
  custom-record table and stores every key with a trailing dot.
  `ServeDNS` answers a query from the first stage that applies:
  1. a custom record;
  2. the blocklist, checked with the name's trailing dot removed (an
     authoritative NXDOMAIN, result code 3 of section 4.1.1 of RFC 1035);
  3. a cache entry that is still live (`now < expiry`), keyed by name and
     type name;
  4. the upstream. A failure there becomes an authoritative SERVFAIL
     (result code 2). A success is returned as it is, and when it has
     answers it is cached until now plus its smallest answer TTL.

  `ServeDNS` is a method on the `Handler` class whose `cache` field it
  updates. It is proved equal to the pure function `Resolve`, and the
  precedence and cache rules are lemmas about `Resolve`.
- `blocklist.dfy` (module `Blocklist`): `LoadBlocklist`. Each line is
  trimmed. Blank lines and `#` comments are skipped, and every other line
  joins the set verbatim. A failure to open or to scan the file gives an
  error and no set.
- `logging.dfy` (module `Logging`): the `Level` values and their ordering,
  `Level.String` and its case-insensitive inverse `StringToLevel`, the level
  gate of `print`, and the insertion of the `"error"` property that `Error`
  and `Fatal` make in the caller's map.
- `strings.dfy` (module `Strings`) and `wrappers.dfy` (module `Wrappers`):
  the Go `strings` functions the core calls, and `Option`/`Result`.

Abstractions:
- The DNS message library is abstract. A message is its transaction id, its
  answer records, its result code and its authoritative flag.
- `SetReply` takes the query's id and resets the result code to success. It
  keeps the answers and the authoritative flag.
- `dns.TypeToString` is a map held in a `Library` value, and an unknown type
  reads as `""`, as a Go map lookup does. `dns.NewRR` for `"<name> A <ip>"`
  is a possibly failing function held in the same value.
- `net.ParseIP` is a function parameter that returns `None` for text that is
  not an IP address.
- The upstream's answer (a message or an error) is an argument of
  `ServeDNS`.
- The clock is an integer count of nanoseconds. It is read twice per query:
  `now` when the cache is consulted and `storedAt` when an answer is stored,
  as the two calls to `time.Now()` do. A TTL in seconds becomes
  `ttl * 1_000_000_000` nanoseconds.

Where the code and the design description of the system differ, the model
follows the code:
- Only the replies that `ServeDNS` builds itself are marked authoritative.
  A cached answer keeps the authoritative flag it had from upstream. An
  upstream answer is written back unchanged, without being re-bound to the
  query.
- A cache hit resets the result code to success, because `SetReply` does.
  An upstream reply that has answers and a non-success code is therefore
  served from the cache with code 0.
- For an A query that matches a custom record, no answer record is sent
  when the record builds (see Findings).

## Model

| member | source | states |
|---|---|---|
| `DnsHandler.Normalize` | internal/dns/handler.go:37-39 | the stored key always ends with `.`; a domain that already ends with `.` is stored unchanged, any other gets exactly one `.` appended |
| `DnsHandler.ParseCustomRecords` | internal/dns/handler.go:30-42 | fails iff some configured value is not an IP, and then names such a domain and its value; on success the keys are exactly the normalised configured domains and each value is the parsed address of a domain with that key |
| `DnsHandler.CustomRecordOfDomain` | internal/dns/handler.go:37-41 | when no other configured domain shares its normalised key, a domain's key holds exactly its parsed address |
| `DnsHandler.NewHandler` | internal/dns/handler.go:29-50 | fails iff some custom-record value is not an IP, and then names such a domain and its value; otherwise a fresh handler with an empty cache, the given blocklist and upstream, custom-record keys that are exactly the normalised configured domains (all ending with `.`), each holding the parsed address of a domain with that key, and exactly its own parsed address for a domain whose key no other domain shares |
| `DnsHandler.Handler.constructor` | internal/dns/handler.go:43-49 | the handler holds the given blocklist, table and upstream, and an empty cache |
| `DnsHandler.Handler.ServeDNS` | internal/dns/handler.go:52-125 | the response written and the new cache are those of `Resolve` on the old cache |
| `DnsHandler.ErrorReply` | internal/dns/handler.go:77-78 | the NXDOMAIN and SERVFAIL replies: authoritative, no answers, the query's id, the given result code |
| `DnsHandler.CustomResponse` | internal/dns/handler.go:61-73 | the custom-record reply is authoritative, has the query's id and success code, at most one answer, and no answer at all for a query type other than A |
| `DnsHandler.StageOf` | internal/dns/handler.go:61-97 | the precedence of the pipeline: a custom record exactly when the name is in the table; the blocklist exactly when it is not but the cleaned name is listed; a cache hit only with a live entry under the query's key; the upstream only without one |
| `DnsHandler.Resolve` | internal/dns/handler.go:52-125 | every response carries the query's id except the upstream answer passed through as it is; the cache changes only under the query's key, and only when the upstream answers with at least one record |
| `DnsHandler.Rebind` | internal/dns/handler.go:89-90 | a cached reply served again takes the query's id and the success code, and keeps the cached answers and authoritative flag |
| `DnsHandler.CleanDomain` | internal/dns/handler.go:58 | the name the blocklist is consulted with is the query name less exactly one trailing dot, or the name itself when it has none |
| `DnsHandler.CustomRecordIsTerminal` | internal/dns/handler.go:61-73 | a custom-record match ends the query: the response depends on the record alone (not on the blocklist, cache, clock or upstream) and the cache is unchanged |
| `DnsHandler.BlockedNameIsTerminal` | internal/dns/handler.go:75-80 | a blocked name that is not a custom record gets an authoritative NXDOMAIN with no answers; cache and upstream are not consulted and the cache is unchanged |
| `DnsHandler.BlocklistMatchesDotTerminatedQuery` | internal/dns/handler.go:58 | a blocklist line matches the query for that name with a trailing dot |
| `DnsHandler.LiveEntryIsServed` | internal/dns/handler.go:82-93 | a live entry under the query's key is served, re-bound to the query; the upstream is not consulted and the cache is unchanged |
| `DnsHandler.ExpiredEntryIsMiss` | internal/dns/handler.go:87 | an entry with `now >= expiry` gives the same response as no entry, and the lookup does not remove it |
| `DnsHandler.UpstreamFailureIsServerFailure` | internal/dns/handler.go:97-103 | an upstream failure gives an authoritative SERVFAIL with no answers and leaves the cache unchanged |
| `DnsHandler.EmptyAnswerNotCached` | internal/dns/handler.go:105-124 | an upstream answer with no records is returned as it is and the cache is unchanged |
| `DnsHandler.UpstreamAnswerCached` | internal/dns/handler.go:105-124 | an upstream answer with records is returned as it is and stored under the query's key only, expiring at the store time plus the least answer TTL; all other entries are unchanged |
| `DnsHandler.CacheRoundTrip` | internal/dns/handler.go:82-118 | after an answer is stored, the same name and type is served from the cache (re-bound, upstream not consulted) strictly before expiry, and reaches the upstream again from expiry on |
| `DnsHandler.MinTtlIsMinimum` | internal/dns/handler.go:105-111 | the specified TTL is the TTL of some answer and at most the TTL of every answer |
| `DnsHandler.MinAnswerTtl` | internal/dns/handler.go:105-111 | the loop's result is the TTL of some answer and no answer has a smaller one |
| `DnsHandler.CacheKeyInjective` | internal/dns/handler.go:82 | for dot-terminated names and type names without a dot, distinct (name, type name) pairs give distinct keys |
| `DnsHandler.UnnamedTypesShareKey` | internal/dns/handler.go:82 | two query types missing from the type-name table give the same key for a name |
| `DnsHandler.CustomRecordAnswerDropped` | internal/dns/handler.go:64-69 | as written, an A query whose record builds gets no answer, while the intended reply carries the record |
| `DnsHandler.CustomRecordNilOnFailure` | internal/dns/handler.go:64-69 | as written, a failed record construction puts the nil record into the answers |
| `DnsHandler.IntendedCustomAnswer` | internal/dns/handler.go:64-69 | corrected: exactly one answer, the built record, iff the query is for A and the record builds; no answer otherwise; authoritative, success, query id |
| `Blocklist.LoadBlocklist` | internal/dns/blocklist.go:10-38 | an open failure or a scan failure gives the matching error and no set; otherwise the set of trimmed lines that are neither empty nor comments |
| `Blocklist.EntriesMember` | internal/dns/blocklist.go:21-31 | a name is in the set the scan loop builds iff it qualifies and some line trims to it |
| `Blocklist.EntriesAreQualifyingLines` | internal/dns/blocklist.go:21-31 | the loop's set equals the set of trimmed qualifying lines |
| `Blocklist.LoadedMembersAreClean` | internal/dns/blocklist.go:24-30 | every member is non-empty, does not start with `#`, has no white space at either end, and is some input line after trimming |
| `Blocklist.QualifyingLineLoaded` | internal/dns/blocklist.go:26-30 | every line that trims to a non-empty, non-comment string is loaded |
| `Blocklist.LoadIgnoresOrderAndDuplicates` | internal/dns/blocklist.go:30 | two inputs with the same set of lines load the same blocklist |
| `Blocklist.EntriesPermutationInvariant` | internal/dns/blocklist.go:21-31 | reordering the lines does not change the set the loop builds |
| `Strings.TrimSpace` | internal/dns/blocklist.go:24 | the trimmed line neither starts nor ends with white space |
| `Strings.TrimSpaceCutsOnlySpace` | internal/dns/blocklist.go:24 | the trimmed line is one contiguous piece of the line, and everything before and after that piece is white space |
| `Strings.TrimSpaceIdempotent` | internal/dns/blocklist.go:24 | trimming twice is trimming once |
| `Strings.TrimLeftSpace` | internal/dns/blocklist.go:24 | the result does not start with white space |
| `Strings.TrimRightSpace` | internal/dns/blocklist.go:24 | the result does not end with white space |
| `Strings.TrimLeftSpaceCutsSpace` | internal/dns/blocklist.go:24 | the result is a suffix of the input and only white space is cut off |
| `Strings.TrimRightSpaceCutsSpace` | internal/dns/blocklist.go:24 | the result is a prefix of the input and only white space is cut off |
| `Strings.TrimSuffix` | internal/dns/handler.go:58 | a name ending with the suffix loses exactly that suffix; any other name is unchanged |
| `Strings.ToUpper` | internal/logging/logger.go:53 | same length, every character upper-cased |
| `Logging.LevelsOrdered` | internal/logging/logger.go:16-22 | Debug < Info < Warn < Error < Fatal |
| `Logging.LevelName` | internal/logging/logger.go:24-38 | the name is empty iff the value is not one of the five levels; names are upper case |
| `Logging.LevelNamesDistinct` | internal/logging/logger.go:24-38 | the five names are pairwise distinct |
| `Logging.StringToLevel` | internal/logging/logger.go:52-66 | success gives a named level whose name is the upper-cased input; failure gives `LevelDebug` and the error text, and happens iff no level name equals the upper-cased input |
| `Logging.ParseLevelName` | internal/logging/logger.go:24-65 | parsing a level's name gives that level and no error |
| `Logging.ParseAnyCasing` | internal/logging/logger.go:53-64 | any casing of a level name parses to that level |
| `Logging.ParsedInputIsACasing` | internal/logging/logger.go:52-64 | a successful parse means the input is a casing of the parsed level's name |
| `Logging.Logger.constructor` | internal/logging/logger.go:45-50 | a new logger has the given minimum level, no lines written, and has not exited |
| `Logging.Logger.Print` | internal/logging/logger.go:68-102 | nothing is written when `level < minLevel`, exactly one line otherwise; the process exits iff a Fatal line is written |
| `Logging.GateMonotone` | internal/logging/logger.go:69-71 | a logger that writes some level writes every more severe level |
| `Logging.Logger.Debug` | internal/logging/logger.go:104-106 | writes one DEBUG line iff the gate allows it; never exits |
| `Logging.Logger.Info` | internal/logging/logger.go:108-110 | writes one INFO line iff the gate allows it; never exits |
| `Logging.Logger.Warn` | internal/logging/logger.go:112-114 | writes one WARN line iff the gate allows it; never exits |
| `Logging.WithError` | internal/logging/logger.go:121 | the updated map has `"error"` bound to the message and every other key as before |
| `Logging.Logger.Error` | internal/logging/logger.go:116-123 | a non-nil caller map gains `"error"`; a nil map is replaced by a fresh one only this call sees; the ERROR line carries the updated map iff the gate allows it |
| `Logging.Logger.Fatal` | internal/logging/logger.go:125-132 | as `Error` at Fatal level; the process exits iff the line is written |

## Findings

| source | as written | input that shows it | evidently intended | confidence | as-written member | corrected member |
|---|---|---|---|---|---|---|
| internal/dns/handler.go:66 | the A record is appended only when `dns.NewRR` returns an error, so it is then the nil record, and a record that builds is dropped | a custom record `home.local` → `10.0.0.5` and a query for `home.local.` of type A: the reply has no answer | append the record when `err == nil` | not executed; high | `DnsHandler.CustomRecordAnswerDropped` | `DnsHandler.IntendedCustomAnswer` |

`Handler.ServeDNS` and `Resolve` keep the code's behaviour, so that the
pipeline lemmas describe what the code does. `IntendedCustomResponse` is the
corrected reply, and `IntendedCustomAnswer` proves its property.

## Left out

- `internal/dns/forwarder.go` (the DoH POST, with its packing and unpacking) is not part of this model. Its result, a message or an error, is an argument of `ServeDNS`. A decoded message never holds a nil record, which is what `ServeDNS` requires of a successful forward.
- `internal/config/config.go` and `cmd/dns-blocker/main.go` are not part of this model (configuration loading and start-up plumbing).
- The read/write locking of the cache is not modelled. Each cache read and write is one step of a sequential model.
- The log calls that `ServeDNS` makes, and the logger argument of `NewHandler`, are not modelled. The logger is modelled on its own in `logging.dfy`.
- DNS wire format: the question section, opcode and flags that `SetReply` copies are not modelled, and neither is the transaction-id rebinding beyond the id.
- Deep copies: the cached message is a value, so `Copy` and the copy on a cache hit need no modelling.
- A query with no question makes the code index out of range. The model's `Query` always carries exactly one question.
- TTLs are unbounded naturals rather than `uint32`. The product `ttl * 10^9` fits in `int64` for every `uint32` TTL, so no wrap-around is lost.
- The clock is two integer arguments. Nothing relates them to real time or to each other.
- Strings.ToUpper: upper-cases ASCII letters only. Go's `strings.ToUpper` also maps non-ASCII letters (U+0131 `ı` becomes `I`), so `StringToLevel` accepts a few non-ASCII spellings that `Logging.StringToLevel` rejects.
- Strings.TrimSpace: works on characters. Go trims bytes of UTF-8 text, and invalid UTF-8 is not modelled.
- How `bufio.Scanner` splits a file into lines (dropping `\r\n`, and the 64 KiB line limit that ends in a scan error) is abstract. The model gets the lines and an optional scan error.
- Logger output: the JSON encoding, the timestamp, the caller position and the `io.Writer` are not modelled. A written line is a `LogLine` record. The branch for a JSON marshalling failure is left out: marshalling strings and a string map cannot fail.
- `Error` and `Fatal` with a nil `error` value would panic in the code. The model takes the error's message as a string.
- No cache eviction exists in the code, and none is modelled. Expired entries stay until a fresh answer overwrites them.
