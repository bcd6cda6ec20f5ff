/** What the policy client's queries promise, stated over the specification functions of `PolicyDb`. */
module PolicyDbProperties {
  import opened Wrappers
  import opened Protos
  import opened ObjectStore
  import opened Sequences
  import opened PolicyDb

  /** A charging key whose service identifier is zero whenever it does not track one. */
  predicate WellFormedKey(k: ChargingKey)
  {
    !k.serviceIdTracking ==> k.serviceIdentifier == 0
  }

  /** A charging key records the rule's rating group and service-identifier override exactly. */
  lemma ChargingKeyRoundTrip(rule: PolicyRule)
    ensures CreateChargingKey(rule).ratingGroup == rule.ratingGroup
    ensures ServiceIdentifierOf(CreateChargingKey(rule)) == rule.serviceIdentifier
    ensures WellFormedKey(CreateChargingKey(rule))
  {
  }

  /** Two rules get the same charging key exactly when they agree on rating group and service identifier. */
  lemma ChargingKeysEqualIff(r1: PolicyRule, r2: PolicyRule)
    ensures CreateChargingKey(r1) == CreateChargingKey(r2) <==>
      r1.ratingGroup == r2.ratingGroup && r1.serviceIdentifier == r2.serviceIdentifier
  {
  }

  /** The keys of a batch are the keys of its first part followed by those of its second part. */
  lemma {:induction false} StaticKeysAppend(client: RedisPolicyDbClient, a: seq<string>, b: seq<string>)
    ensures StaticKeys(client, a + b) == StaticKeys(client, a) + StaticKeys(client, b)
  {
    FlatMapAppend(a, b, StaticKeyOf(client));
  }

  lemma {:induction false} DynamicKeysAppend(a: seq<PolicyRule>, b: seq<PolicyRule>)
    ensures DynamicKeys(a + b) == DynamicKeys(a) + DynamicKeys(b)
  {
    FlatMapAppend(a, b, KeysForDynamicRule);
  }

  lemma {:induction false} RuleIdsAppend(client: RedisPolicyDbClient, a: seq<string>, b: seq<string>)
    ensures RuleIdsForBaseNames(client, a + b) == RuleIdsForBaseNames(client, a) + RuleIdsForBaseNames(client, b)
  {
    FlatMapAppend(a, b, RuleNamesOf(client));
  }

  /** A key is returned exactly when a resolvable static id or an inline rule needing charging produces it. */
  lemma {:induction false} ChargingKeysMember(
    client: RedisPolicyDbClient, ids: seq<string>, defs: seq<PolicyRule>, k: ChargingKey)
    ensures k in StaticKeys(client, ids) + DynamicKeys(defs) <==>
      (exists i :: 0 <= i < |ids| && ChargedStaticId(client, ids[i]) &&
         k == CreateChargingKey(client.policyMap[ids[i]].rule)) ||
      (exists j :: 0 <= j < |defs| && NeedsCharging(defs[j]) && k == CreateChargingKey(defs[j]))
  {
    FlatMapMember(ids, StaticKeyOf(client), k);
    FlatMapMember(defs, KeysForDynamicRule, k);
  }

  /** Every returned key is well formed. */
  lemma {:induction false} ChargingKeysWellFormed(client: RedisPolicyDbClient, ids: seq<string>, defs: seq<PolicyRule>)
    ensures forall k :: k in StaticKeys(client, ids) + DynamicKeys(defs) ==> WellFormedKey(k)
  {
    forall k | k in StaticKeys(client, ids) + DynamicKeys(defs)
      ensures WellFormedKey(k)
    {
      ChargingKeysMember(client, ids, defs, k);
    }
  }

  /** No more keys than inputs. */
  lemma {:induction false} ChargingKeysLengthBound(client: RedisPolicyDbClient, ids: seq<string>, defs: seq<PolicyRule>)
    ensures |StaticKeys(client, ids) + DynamicKeys(defs)| <= |ids| + |defs|
  {
    FlatMapLengthBound(ids, StaticKeyOf(client));
    FlatMapLengthBound(defs, KeysForDynamicRule);
  }

  /** Removing a static id that does not resolve changes nothing. */
  lemma {:induction false} ChargingKeysDropUnresolvable(
    client: RedisPolicyDbClient, ids: seq<string>, defs: seq<PolicyRule>, i: nat)
    requires i < |ids| && GetPolicyRuleById(client, ids[i]).Failure?
    ensures StaticKeys(client, ids[..i] + ids[i + 1..]) + DynamicKeys(defs) == StaticKeys(client, ids) + DynamicKeys(defs)
  {
    FlatMapDropEmpty(ids, StaticKeyOf(client), i);
  }

  /** Removing any static ids only removes keys, keeping the order of the others. */
  lemma {:induction false} ChargingKeysShrink(
    client: RedisPolicyDbClient, ids': seq<string>, ids: seq<string>, defs: seq<PolicyRule>)
    requires IsSubsequence(ids', ids)
    ensures IsSubsequence(StaticKeys(client, ids') + DynamicKeys(defs), StaticKeys(client, ids) + DynamicKeys(defs))
  {
    FlatMapSubsequence(ids', ids, StaticKeyOf(client));
    var tail := DynamicKeys(defs);
    SubsequenceSelf(tail);
    SubsequenceConcat(StaticKeys(client, ids'), StaticKeys(client, ids), tail, tail);
  }

  /** With no static id resolvable and no inline rule, the result is empty; no error arises. */
  lemma {:induction false} ChargingKeysAllFail(client: RedisPolicyDbClient, ids: seq<string>)
    requires forall i :: 0 <= i < |ids| ==> GetPolicyRuleById(client, ids[i]).Failure?
    ensures StaticKeys(client, ids) + DynamicKeys([]) == []
  {
    FlatMapAllEmpty(ids, StaticKeyOf(client));
  }

  /** A rule name is returned exactly when it is a member of the set of some listed base name. */
  lemma {:induction false} RuleIdsMember(client: RedisPolicyDbClient, baseNames: seq<string>, name: string)
    ensures name in RuleIdsForBaseNames(client, baseNames) <==>
      exists i :: 0 <= i < |baseNames| && baseNames[i] in client.baseNameMap &&
        client.baseNameMap[baseNames[i]].NameSetVal? && name in client.baseNameMap[baseNames[i]].nameSet.ruleNames
  {
    FlatMapMember(baseNames, RuleNamesOf(client), name);
  }

  /** Removing a base name whose lookup or cast fails changes nothing. */
  lemma {:induction false} RuleIdsDropMissing(client: RedisPolicyDbClient, baseNames: seq<string>, i: nat)
    requires i < |baseNames|
    requires baseNames[i] !in client.baseNameMap || !client.baseNameMap[baseNames[i]].NameSetVal?
    ensures RuleIdsForBaseNames(client, baseNames[..i] + baseNames[i + 1..]) == RuleIdsForBaseNames(client, baseNames)
  {
    FlatMapDropEmpty(baseNames, RuleNamesOf(client), i);
  }

  /** Removing any base names only removes rule ids, keeping the order of the others. */
  lemma {:induction false} RuleIdsShrink(client: RedisPolicyDbClient, baseNames': seq<string>, baseNames: seq<string>)
    requires IsSubsequence(baseNames', baseNames)
    ensures IsSubsequence(RuleIdsForBaseNames(client, baseNames'), RuleIdsForBaseNames(client, baseNames))
  {
    FlatMapSubsequence(baseNames', baseNames, RuleNamesOf(client));
  }

  /** When no listed base name resolves to a name set (in particular for no base names), the result is empty. */
  lemma {:induction false} RuleIdsAllMissing(client: RedisPolicyDbClient, baseNames: seq<string>)
    requires forall i :: 0 <= i < |baseNames| ==>
      baseNames[i] !in client.baseNameMap || !client.baseNameMap[baseNames[i]].NameSetVal?
    ensures RuleIdsForBaseNames(client, baseNames) == []
  {
    FlatMapAllEmpty(baseNames, RuleNamesOf(client));
  }

  // Worked examples.

  /** A rules partition with R1 (OCS only) and R2 (PCRF only), and a base-names partition with bn1. */
  function ScenarioClient(): (c: RedisPolicyDbClient)
  {
    RedisPolicyDbClient(
      map["R1" := RuleVal(PolicyRule("R1", 5, OnlyOcs, None)),
          "R2" := RuleVal(PolicyRule("R2", 6, OnlyPcrf, None))],
      map["bn1" := NameSetVal(ChargingRuleNameSet(["ruleA", "ruleB"]))])
  }

  /** A missing id is skipped, a PCRF-only rule gives no key, and the inline rule's key comes last. */
  lemma ScenarioChargingKeys()
    ensures StaticKeys(ScenarioClient(), ["R1", "missing", "R2"])
          + DynamicKeys([PolicyRule("D1", 7, OcsAndPcrf, Some(ServiceIdentifier(3)))])
         == [ChargingKey(5, false, 0), ChargingKey(7, true, 3)]
  {
  }

  /** An unmapped base name contributes nothing; a mapped one its names in stored order. */
  lemma ScenarioExpandBaseNames()
    ensures RuleIdsForBaseNames(ScenarioClient(), ["bn2", "bn1"]) == ["ruleA", "ruleB"]
  {
  }

  /** The same base name twice yields its names twice: no deduplication. */
  lemma ScenarioNoDeduplication()
    ensures RuleIdsForBaseNames(ScenarioClient(), ["bn1", "bn1"]) == ["ruleA", "ruleB", "ruleA", "ruleB"]
  {
  }

  /** Resolving a missing id fails with the store's not-found error rather than returning a default rule. */
  lemma ScenarioResolveMissing()
    ensures GetPolicyRuleById(ScenarioClient(), "missing") == Failure(StoreFailure(NotFound("missing")))
  {
  }
}
