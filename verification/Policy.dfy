/** The first-match rule engine of crates/policy and the artifacts it reads. */
module Policy {
  import opened Model

  datatype MembershipCertificate = MembershipCertificate(
    networkId: string, subject: PeerId, issuer: PeerId, issuedAt: nat, expiresAt: nat,
    roles: seq<string>, signature: string)

  /** `terms` stands for the fields that no decision reads: limits, constraints, validity, signature. */
  datatype CapabilityGrant = CapabilityGrant(
    networkId: string, subject: PeerId, issuer: PeerId, capabilities: seq<string>,
    protocolScopes: seq<ProtocolId>, sequence: nat, terms: string)

  datatype Effect = Allow | Deny

  datatype PolicyRule = PolicyRule(
    effect: Effect, networkId: Option<string>, protocol: Option<ProtocolId>, sourcePeer: Option<PeerId>,
    requiredCapability: Option<string>)

  datatype Decision = Decision(allowed: bool, reason: string)

  predicate Grants(grant: CapabilityGrant, capability: string, protocol: ProtocolId) {
    capability in grant.capabilities && protocol in grant.protocolScopes
  }

  predicate HasCapability(grants: seq<CapabilityGrant>, capability: string, protocol: ProtocolId) {
    exists grant :: grant in grants && Grants(grant, capability, protocol)
  }

  predicate Matches(rule: PolicyRule, networkId: string, source: PeerId, protocol: ProtocolId,
                    grants: seq<CapabilityGrant>) {
    && (rule.networkId.Some? ==> rule.networkId.value == networkId)
    && (rule.sourcePeer.Some? ==> rule.sourcePeer.value == source)
    && (rule.protocol.Some? ==> rule.protocol.value == protocol)
    && (rule.requiredCapability.Some? ==> HasCapability(grants, rule.requiredCapability.value, protocol))
  }

  function EffectText(effect: Effect): string {
    match effect case Allow => "Allow" case Deny => "Deny"
  }

  function Evaluate(rules: seq<PolicyRule>, networkId: string, source: PeerId, protocol: ProtocolId,
                    grants: seq<CapabilityGrant>): Decision
  {
    if rules == [] then Decision(false, "no matching policy rule for " + protocol)
    else if Matches(rules[0], networkId, source, protocol, grants) then
      Decision(rules[0].effect == Allow, EffectText(rules[0].effect) + " rule matched for " + protocol)
    else Evaluate(rules[1..], networkId, source, protocol, grants)
  }

  /** Allowed exactly when some rule matches and the first one that does allows. */
  lemma {:induction false} EvaluateIsFirstMatch(rules: seq<PolicyRule>, networkId: string, source: PeerId,
                                                protocol: ProtocolId, grants: seq<CapabilityGrant>)
    ensures Evaluate(rules, networkId, source, protocol, grants).allowed <==>
            exists i :: 0 <= i < |rules| && rules[i].effect == Allow
              && Matches(rules[i], networkId, source, protocol, grants)
              && forall j :: 0 <= j < i ==> !Matches(rules[j], networkId, source, protocol, grants)
  {
    hide Matches;
    if rules != [] && !Matches(rules[0], networkId, source, protocol, grants) {
      var rest := rules[1..];
      EvaluateIsFirstMatch(rest, networkId, source, protocol, grants);
      if i :| 0 <= i < |rest| && rest[i].effect == Allow && Matches(rest[i], networkId, source, protocol, grants)
              && forall j :: 0 <= j < i ==> !Matches(rest[j], networkId, source, protocol, grants) {
        assert rules[i + 1] == rest[i];
        forall j | 0 <= j < i + 1 ensures !Matches(rules[j], networkId, source, protocol, grants) {
          assert j > 0 ==> rules[j] == rest[j - 1];
        }
      }
      if i :| 0 <= i < |rules| && rules[i].effect == Allow && Matches(rules[i], networkId, source, protocol, grants)
              && forall j :: 0 <= j < i ==> !Matches(rules[j], networkId, source, protocol, grants) {
        assert rest[i - 1] == rules[i];
        forall j | 0 <= j < i - 1 ensures !Matches(rest[j], networkId, source, protocol, grants) {
          assert rest[j] == rules[j + 1];
        }
      }
    }
  }

  /** Some grant gives the capability for this protocol. */
  predicate Given(grants: seq<CapabilityGrant>, capability: string, protocol: ProtocolId) {
    exists i :: 0 <= i < |grants| && protocol in grants[i].protocolScopes && capability in grants[i].capabilities
  }

  /** The rule speaks of nothing else, and what it requires some grant gives for this protocol. */
  predicate Applies(rule: PolicyRule, networkId: string, source: PeerId, protocol: ProtocolId,
                    grants: seq<CapabilityGrant>) {
    && (rule.networkId == None || rule.networkId == Some(networkId))
    && (rule.sourcePeer == None || rule.sourcePeer == Some(source))
    && (rule.protocol == None || rule.protocol == Some(protocol))
    && (rule.requiredCapability == None || Given(grants, rule.requiredCapability.value, protocol))
  }

  lemma CapabilityOnFields(grants: seq<CapabilityGrant>, capability: string, protocol: ProtocolId)
    ensures HasCapability(grants, capability, protocol) <==> Given(grants, capability, protocol)
  {
    if g :| g in grants && Grants(g, capability, protocol) {
      var i :| 0 <= i < |grants| && grants[i] == g;
      assert protocol in grants[i].protocolScopes && capability in grants[i].capabilities;
    }
    if i :| 0 <= i < |grants| && protocol in grants[i].protocolScopes && capability in grants[i].capabilities {
      assert grants[i] in grants && Grants(grants[i], capability, protocol);
    }
  }

  lemma MatchesOnFields(rule: PolicyRule, networkId: string, source: PeerId, protocol: ProtocolId,
                        grants: seq<CapabilityGrant>)
    ensures Matches(rule, networkId, source, protocol, grants) <==> Applies(rule, networkId, source, protocol, grants)
  {
    if rule.requiredCapability.Some? {
      CapabilityOnFields(grants, rule.requiredCapability.value, protocol);
    }
    hide HasCapability, Given;
  }
}
