/**
 * One partition of the object store, seen as a fixed snapshot: a map from
 * key to the object its deserializer produced for that key.
 */
module ObjectStore {
  import opened Wrappers
  import opened Protos

  /**
   * What a partition's deserializer yields for a stored key: a policy rule,
   * a base-name set, an object of some other type, or nothing usable because
   * the stored bytes could not be decoded.
   */
  datatype StoredValue =
    | RuleVal(rule: PolicyRule)
    | NameSetVal(nameSet: ChargingRuleNameSet)
    | OtherVal
    | Undecodable

  datatype StoreError = NotFound(key: string) | DecodeFailure(key: string)

  type ObjectMap = map<string, StoredValue>

  /** `ObjectMap.Get`: the decoded object stored under `key`, or why there is none. */
  function Get(m: ObjectMap, key: string): (r: Result<StoredValue, StoreError>)
    ensures key !in m ==> r == Failure(NotFound(key))
    ensures key in m && m[key] == Undecodable ==> r == Failure(DecodeFailure(key))
    ensures r.Success? <==> key in m && m[key] != Undecodable
    ensures r.Success? ==> r.value == m[key]
  {
    if key !in m then Failure(NotFound(key))
    else if m[key] == Undecodable then Failure(DecodeFailure(key))
    else Success(m[key])
  }
}
