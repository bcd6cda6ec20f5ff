/**
 * The protobuf messages the policy database reads. Only the fields the
 * policy client looks at are modelled, plus the rule id, which only names
 * rules in the worked examples.
 */
module Protos {
  import opened Wrappers

  /** Protobuf `uint32`. */
  type uint32 = x: int | 0 <= x < 0x1_0000_0000

  /**
   * The tracking type of a policy rule. A protobuf enum field may carry a
   * number outside the named constants; `Unrecognized` stands for that.
   */
  datatype TrackingType = OnlyOcs | OnlyPcrf | OcsAndPcrf | NoTracking | Unrecognized

  /** The optional service-identifier override of a rule (a message pointer in Go). */
  datatype ServiceIdentifier = ServiceIdentifier(value: uint32)

  datatype PolicyRule = PolicyRule(
    id: string,
    ratingGroup: uint32,
    trackingType: TrackingType,
    serviceIdentifier: Option<ServiceIdentifier>)

  /** The member rule names of one charging-rule base name. */
  datatype ChargingRuleNameSet = ChargingRuleNameSet(ruleNames: seq<string>)

  /** The nil-safe getter `GetValue` on a possibly absent service identifier: zero when absent. */
  function GetValue(sid: Option<ServiceIdentifier>): (v: uint32)
  {
    match sid
    case None => 0
    case Some(s) => s.value
  }
}
