/**
 * The policy-rule query client of the gateway's policy database: it reads
 * policy rules and charging-rule base-name sets from two object-store
 * partitions and answers three read-only queries over them.
 */
module PolicyDb {
  import opened Wrappers
  import opened Protos
  import opened ObjectStore
  import opened Sequences

  /** A reporting key for a charging rule: its rating group, optionally with a service identifier. */
  datatype ChargingKey = ChargingKey(ratingGroup: uint32, serviceIdTracking: bool, serviceIdentifier: uint32)

  /** Errors of a single rule lookup: the store's own error, or a stored object that is not a rule. */
  datatype Error = StoreFailure(cause: StoreError) | NotAPolicyRule(id: string)

  /**
   * The client, seen at one instant: its rules partition and its base-names
   * partition. Every query reads one such snapshot and changes nothing.
   */
  datatype RedisPolicyDbClient = RedisPolicyDbClient(policyMap: ObjectMap, baseNameMap: ObjectMap)

  /** The charging key of a rule: its rating group, and its service identifier when it has one. */
  function CreateChargingKey(rule: PolicyRule): (k: ChargingKey)
    ensures k.ratingGroup == rule.ratingGroup
    ensures k.serviceIdTracking <==> rule.serviceIdentifier.Some?
    ensures rule.serviceIdentifier.Some? ==> k.serviceIdentifier == rule.serviceIdentifier.value.value
    ensures rule.serviceIdentifier.None? ==> k.serviceIdentifier == 0
  {
    var sid := rule.serviceIdentifier;
    ChargingKey(rule.ratingGroup, sid.Some?, GetValue(sid))
  }

  /** The service-identifier override a charging key records: present exactly when the key tracks one. */
  function ServiceIdentifierOf(k: ChargingKey): (sid: Option<ServiceIdentifier>)
  {
    if k.serviceIdTracking then Some(ServiceIdentifier(k.serviceIdentifier)) else None
  }

  /** Whether a rule reports usage online, and so needs a charging key. */
  function NeedsCharging(rule: PolicyRule): (b: bool)
    ensures rule.trackingType == OnlyOcs ==> b
    ensures rule.trackingType == OcsAndPcrf ==> b
    ensures rule.trackingType == OnlyPcrf ==> !b
    ensures rule.trackingType == NoTracking ==> !b
    ensures rule.trackingType == Unrecognized ==> !b
  {
    rule.trackingType == OnlyOcs || rule.trackingType == OcsAndPcrf
  }

  /** The rule stored under `id`, or the reason there is none. */
  function GetPolicyRuleById(client: RedisPolicyDbClient, id: string): (r: Result<PolicyRule, Error>)
    ensures Get(client.policyMap, id).Failure? ==> r == Failure(StoreFailure(Get(client.policyMap, id).error))
    ensures id !in client.policyMap ==> r == Failure(StoreFailure(NotFound(id)))
    ensures Get(client.policyMap, id).Success? && !client.policyMap[id].RuleVal? ==> r == Failure(NotAPolicyRule(id))
    ensures r.Success? <==> id in client.policyMap && client.policyMap[id].RuleVal?
    ensures r.Success? ==> r.value == client.policyMap[id].rule
  {
    match Get(client.policyMap, id)
    case Failure(err) => Failure(StoreFailure(err))
    case Success(raw) =>
      if raw.RuleVal? then Success(raw.rule) else Failure(NotAPolicyRule(id))
  }

  /** Whether `id` names a stored rule that needs charging. */
  predicate ChargedStaticId(client: RedisPolicyDbClient, id: string)
  {
    id in client.policyMap && client.policyMap[id].RuleVal? && NeedsCharging(client.policyMap[id].rule)
  }

  /** What one static rule id contributes to the charging keys: nothing when it fails or needs no charging. */
  function KeysForStaticId(client: RedisPolicyDbClient, id: string): (ks: seq<ChargingKey>)
    ensures ChargedStaticId(client, id) ==> ks == [CreateChargingKey(client.policyMap[id].rule)]
    ensures !ChargedStaticId(client, id) ==> ks == []
  {
    match GetPolicyRuleById(client, id)
    case Failure(_) => []
    case Success(policy) => if NeedsCharging(policy) then [CreateChargingKey(policy)] else []
  }

  /** What one inline rule definition contributes to the charging keys. */
  function KeysForDynamicRule(rule: PolicyRule): (ks: seq<ChargingKey>)
    ensures |ks| <= 1
    ensures ks != [] <==> rule.trackingType == OnlyOcs || rule.trackingType == OcsAndPcrf
    ensures forall k :: k in ks ==>
      && k.ratingGroup == rule.ratingGroup
      && ServiceIdentifierOf(k) == rule.serviceIdentifier
      && (!k.serviceIdTracking ==> k.serviceIdentifier == 0)
  {
    if NeedsCharging(rule) then [CreateChargingKey(rule)] else []
  }

  /** `KeysForStaticId` for a fixed client, as a function value. */
  function StaticKeyOf(client: RedisPolicyDbClient): (f: string -> seq<ChargingKey>)
  {
    id => KeysForStaticId(client, id)
  }

  /** The charging keys of the static rule ids, in input order. */
  function StaticKeys(client: RedisPolicyDbClient, ids: seq<string>): (keys: seq<ChargingKey>)
  {
    FlatMap(ids, StaticKeyOf(client))
  }

  /** The charging keys of the inline rule definitions, in input order. */
  function DynamicKeys(rules: seq<PolicyRule>): (keys: seq<ChargingKey>)
  {
    FlatMap(rules, KeysForDynamicRule)
  }

  /** What one base name contributes: the rule names of its set, or nothing when the lookup or the cast fails. */
  function RuleNamesForBaseName(client: RedisPolicyDbClient, bn: string): (names: seq<string>)
    ensures bn in client.baseNameMap && client.baseNameMap[bn].NameSetVal? ==>
      names == client.baseNameMap[bn].nameSet.ruleNames
    ensures !(bn in client.baseNameMap && client.baseNameMap[bn].NameSetVal?) ==> names == []
  {
    match Get(client.baseNameMap, bn)
    case Failure(_) => []
    case Success(raw) => if raw.NameSetVal? then raw.nameSet.ruleNames else []
  }

  /** `RuleNamesForBaseName` for a fixed client, as a function value. */
  function RuleNamesOf(client: RedisPolicyDbClient): (f: string -> seq<string>)
  {
    bn => RuleNamesForBaseName(client, bn)
  }

  /** The rule ids of all the base names, in input order. */
  function RuleIdsForBaseNames(client: RedisPolicyDbClient, baseNames: seq<string>): (ids: seq<string>)
  {
    FlatMap(baseNames, RuleNamesOf(client))
  }

  /**
   * The charging keys of the static rule ids followed by those of the inline
   * rule definitions. Ids that cannot be resolved are skipped; the error
   * result is always absent.
   */
  method GetChargingKeysForRules(client: RedisPolicyDbClient, staticRuleIds: seq<string>, dynamicRuleDefs: seq<PolicyRule>)
    returns (keys: seq<ChargingKey>, err: Option<Error>)
    ensures keys == StaticKeys(client, staticRuleIds) + DynamicKeys(dynamicRuleDefs)
    ensures err == None
  {
    keys := [];
    for i := 0 to |staticRuleIds|
      invariant keys == StaticKeys(client, staticRuleIds[..i])
    {
      var id := staticRuleIds[i];
      assert staticRuleIds[..i + 1] == staticRuleIds[..i] + [id];
      FlatMapAppend(staticRuleIds[..i], [id], StaticKeyOf(client));
      var policy := GetPolicyRuleById(client, id);
      if policy.Failure? {
        continue;
      }
      if NeedsCharging(policy.value) {
        keys := keys + [CreateChargingKey(policy.value)];
      }
    }
    assert staticRuleIds[..|staticRuleIds|] == staticRuleIds;
    ghost var staticPart := keys;
    for j := 0 to |dynamicRuleDefs|
      invariant keys == staticPart + DynamicKeys(dynamicRuleDefs[..j])
    {
      var policy := dynamicRuleDefs[j];
      assert dynamicRuleDefs[..j + 1] == dynamicRuleDefs[..j] + [policy];
      FlatMapAppend(dynamicRuleDefs[..j], [policy], KeysForDynamicRule);
      if NeedsCharging(policy) {
        keys := keys + [CreateChargingKey(policy)];
      }
    }
    assert dynamicRuleDefs[..|dynamicRuleDefs|] == dynamicRuleDefs;
    err := None;
  }

  /** The member rule ids of the base names, concatenated in input order; failed lookups are skipped. */
  method GetRuleIdsForBaseNames(client: RedisPolicyDbClient, baseNames: seq<string>) returns (policyIds: seq<string>)
    ensures policyIds == RuleIdsForBaseNames(client, baseNames)
  {
    policyIds := [];
    for i := 0 to |baseNames|
      invariant policyIds == RuleIdsForBaseNames(client, baseNames[..i])
    {
      var bn := baseNames[i];
      assert baseNames[..i + 1] == baseNames[..i] + [bn];
      FlatMapAppend(baseNames[..i], [bn], RuleNamesOf(client));
      var setRaw := Get(client.baseNameMap, bn);
      if setRaw.Failure? {
        continue;
      }
      if !setRaw.value.NameSetVal? {
        continue;
      }
      policyIds := policyIds + setRaw.value.nameSet.ruleNames;
    }
    assert baseNames[..|baseNames|] == baseNames;
  }
}
