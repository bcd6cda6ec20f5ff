# Policy database query client

A Dafny model of the gateway's policy-rule query client (`feg/gateway/policydb/policydb.go`).
The client mirrors two object-store partitions. The rules partition maps a rule id to a
`PolicyRule`. The base-names partition maps a charging-rule base name to a
`ChargingRuleNameSet`. The client answers three read-only queries over them:

- `GetPolicyRuleById` resolves one rule. A store error is returned as it is, and a stored
  object that is not a rule is a separate error.
- `GetChargingKeysForRules` derives charging keys for a batch of stored ("static") rule ids
  followed by a batch of inline ("dynamic") rule definitions. A rule gets a key only when
  `NeedsCharging` holds, that is when its tracking type is OCS-only or OCS-and-PCRF. Ids that
  fail to resolve are skipped, and the error result is always absent.
- `GetRuleIdsForBaseNames` expands base names into their member rule ids, in input order.
  Base names that are missing or hold some other object are skipped.

Modules:

- `Wrappers`: `Option` and `Result`.
- `Protos`: the protobuf messages the client reads. `uint32` is a subset type. The tracking
  type has a case `Unrecognized` standing for any enum number outside the four named constants.
- `ObjectStore`: one partition as a map snapshot, and its `Get`. `Get` fails with
  `NotFound` for an absent key and `DecodeFailure` for an entry the partition's
  deserializer rejects.
- `Sequences`: `FlatMap` (append each input's outputs, in order), `IsSubsequence`, and the
  generic facts both batch queries rest on.
- `PolicyDb`: the client. It has a specification function per query and two methods whose
  `for` loops mirror the source's loops. The methods are proved equal to the specification
  functions.
- `PolicyDbProperties`: ordering, membership, skip-on-failure, monotonicity, bounds and worked
  examples.

Each query reads one fixed snapshot of both partitions, given as a datatype value
(`RedisPolicyDbClient`). So no query can change either partition.

## Model

| member | source | states |
|---|---|---|
| `ObjectStore.Get` | feg/gateway/policydb/policydb.go:86-89 | an absent key gives NotFound, an undecodable entry gives DecodeFailure, otherwise the stored object |
| `PolicyDb.CreateChargingKey` | feg/gateway/policydb/policydb.go:50-56 | the key copies the rating group; ServiceIdTracking holds iff a service identifier is present; the identifier is copied when present and 0 when absent |
| `PolicyDb.NeedsCharging` | feg/gateway/policydb/policydb.go:121-123 | true for ONLY_OCS and OCS_AND_PCRF; false for ONLY_PCRF, NO_TRACKING and any unrecognised value |
| `PolicyDb.GetPolicyRuleById` | feg/gateway/policydb/policydb.go:85-95 | a store error is returned unchanged (NotFound for a missing id); a stored non-rule gives the cast error; success iff a rule is stored, and then exactly that rule |
| `PolicyDb.KeysForStaticId` | feg/gateway/policydb/policydb.go:104-111 | one static id yields the key of its stored rule when that rule resolves and needs charging, and nothing otherwise |
| `PolicyDb.KeysForDynamicRule` | feg/gateway/policydb/policydb.go:113-117 | an inline rule yields at most one key, and one exactly when its tracking type is ONLY_OCS or OCS_AND_PCRF; that key carries the rule's rating group and its service-identifier override, with identifier 0 when there is no override |
| `PolicyDb.RuleNamesForBaseName` | feg/gateway/policydb/policydb.go:130-140 | a base name yields its set's rule names in stored order when a name set is stored under it, and nothing otherwise |
| `PolicyDb.GetChargingKeysForRules` | feg/gateway/policydb/policydb.go:99-119 | the result is the static ids' keys in input order followed by the inline rules' keys in input order; the error is always absent |
| `PolicyDb.GetRuleIdsForBaseNames` | feg/gateway/policydb/policydb.go:127-143 | the result is the concatenation, in input order, of each base name's contribution |
| `PolicyDbProperties.ChargingKeyRoundTrip` | feg/gateway/policydb/policydb.go:50-56 | the rating group and the service-identifier override can be read back from the key; a key without tracking has identifier 0 |
| `PolicyDbProperties.ChargingKeysEqualIff` | feg/gateway/policydb/policydb.go:50-56 | two rules share a key iff they agree on rating group and service-identifier override |
| `PolicyDbProperties.StaticKeysAppend` | feg/gateway/policydb/policydb.go:103-112 | the static loop processes ids in order: keys of a concatenated batch are the keys of each part, concatenated |
| `PolicyDbProperties.DynamicKeysAppend` | feg/gateway/policydb/policydb.go:113-117 | the same for inline rule definitions |
| `PolicyDbProperties.RuleIdsAppend` | feg/gateway/policydb/policydb.go:129-141 | the same for base names |
| `PolicyDbProperties.ChargingKeysMember` | feg/gateway/policydb/policydb.go:102-118 | a key is in the result iff some resolvable static id's charging rule or some charging inline rule produces it |
| `PolicyDbProperties.ChargingKeysWellFormed` | feg/gateway/policydb/policydb.go:102-118 | every returned key without service-id tracking has identifier 0 |
| `PolicyDbProperties.ChargingKeysLengthBound` | feg/gateway/policydb/policydb.go:102-118 | at most one key per static id and per inline rule |
| `PolicyDbProperties.ChargingKeysDropUnresolvable` | feg/gateway/policydb/policydb.go:104-108 | removing a static id that fails to resolve leaves the result unchanged |
| `PolicyDbProperties.ChargingKeysShrink` | feg/gateway/policydb/policydb.go:103-112 | removing any static ids yields a subsequence of the original result |
| `PolicyDbProperties.ChargingKeysAllFail` | feg/gateway/policydb/policydb.go:102-118 | when every static lookup fails and there are no inline rules (including empty input), the result is empty |
| `PolicyDbProperties.RuleIdsMember` | feg/gateway/policydb/policydb.go:128-142 | a rule id is returned iff it belongs to the name set stored under some listed base name |
| `PolicyDbProperties.RuleIdsDropMissing` | feg/gateway/policydb/policydb.go:130-139 | removing a base name that is missing or holds a non-name-set leaves the result unchanged |
| `PolicyDbProperties.RuleIdsShrink` | feg/gateway/policydb/policydb.go:129-141 | removing any base names yields a subsequence of the original result |
| `PolicyDbProperties.RuleIdsAllMissing` | feg/gateway/policydb/policydb.go:128-142 | when no listed base name holds a name set (including empty input), the result is empty |
| `PolicyDbProperties.ScenarioChargingKeys` | feg/gateway/policydb/policydb.go:99-119 | ids R1 (OCS only), a missing id and R2 (PCRF only), plus inline D1, give exactly [(5,false,0), (7,true,3)] |
| `PolicyDbProperties.ScenarioExpandBaseNames` | feg/gateway/policydb/policydb.go:127-143 | expanding an unmapped and then a mapped base name gives the mapped set's names in order |
| `PolicyDbProperties.ScenarioNoDeduplication` | feg/gateway/policydb/policydb.go:140 | listing a base name twice yields its names twice |
| `PolicyDbProperties.ScenarioResolveMissing` | feg/gateway/policydb/policydb.go:85-89 | resolving a missing id fails with NotFound rather than returning a default rule |

## Left out

- `NewRedisPolicyDBClient` (connecting to Redis, building the serializers, registering the stream listeners) is I/O wiring. The listeners and serializers are not part of this model. The client is given directly as a snapshot of its two partitions.
- The streamer's asynchronous updates to the partitions during a query are not modelled. Each query reads one fixed snapshot, so the model does not capture two lookups in one batch seeing different update generations.
- A store backend that is unreachable at query time is not modelled. The only store errors are a missing key and an undecodable entry.
- The `glog.Errorf` warnings for skipped ids and base names are logging only. Skipped items simply contribute nothing.
- `ChargingKey.String` is formatting only.
- Nil pointers are not modelled. Rules and name sets are values, so the model does not capture a nil inline rule (which panics in `needsCharging`) or a typed nil stored in a partition.
- `PolicyRule` fields other than rating group, tracking type and service identifier are not read by the client and are not modelled. The rule id is kept only to name rules in the worked examples.
- The failed cast is a formatted error that names the id; `NotAPolicyRule(id)` stands for it.
