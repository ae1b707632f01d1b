// convertRules on values: what the two output lists are, and what they mean.
module Rules {
  import opened Resources

  const INGRESS := "INGRESS"
  const EGRESS := "EGRESS"
  const TCP := "6"
  const UDP := "17"
  const ALL := "all"

  // Both ports or nothing: a rule with a single bound gets no TCP options.
  function TcpOptionsOf(r: Rule): Option<PortRange> {
    if r.minPort.Some? && r.maxPort.Some?
    then Some(PortRange(r.minPort.value, r.maxPort.value)) else None
  }

  function CidrOf(r: Rule): string {
    if r.direction == INGRESS then r.source else r.destination
  }

  function ConvertRule(r: Rule): OciRule {
    OciRule(r.protocol, CidrOf(r), r.description, TcpOptionsOf(r))
  }

  predicate IsIngress(r: Rule) {
    r.direction == INGRESS
  }

  ghost predicate KnownDirection(r: Rule) {
    r.direction == INGRESS || r.direction == EGRESS
  }

  // The rules of one side, in list order.
  function Side(rules: seq<Rule>, ingress: bool): seq<OciRule> {
    if rules == [] then []
    else (if IsIngress(rules[0]) == ingress then [ConvertRule(rules[0])] else []) + Side(rules[1..], ingress)
  }

  // ---- A stable partition that can be undone ----

  lemma SideHead(rules: seq<Rule>, ingress: bool)
    requires rules != []
    ensures IsIngress(rules[0]) == ingress ==>
              Side(rules, ingress) == [ConvertRule(rules[0])] + Side(rules[1..], ingress)
    ensures IsIngress(rules[0]) != ingress ==> Side(rules, ingress) == Side(rules[1..], ingress)
  {
  }

  lemma {:induction false} SideConcat(a: seq<Rule>, b: seq<Rule>, ingress: bool)
    ensures Side(a + b, ingress) == Side(a, ingress) + Side(b, ingress)
  {
    if a == [] {
      assert a + b == b;
    } else {
      hide ConvertRule;
      assert (a + b)[1..] == a[1..] + b;
      SideHead(a + b, ingress);
      SideHead(a, ingress);
      SideConcat(a[1..], b, ingress);
    }
  }

  // Deal the two lists back out by the original sequence of directions.
  ghost function Merge(dirs: seq<bool>, ins: seq<OciRule>, outs: seq<OciRule>): seq<OciRule> {
    if dirs == [] then []
    else if dirs[0] then (if ins == [] then [] else [ins[0]] + Merge(dirs[1..], ins[1..], outs))
    else (if outs == [] then [] else [outs[0]] + Merge(dirs[1..], ins, outs[1..]))
  }

  ghost function Directions(rules: seq<Rule>): seq<bool> {
    seq(|rules|, i requires 0 <= i < |rules| => rules[i].direction == INGRESS)
  }

  ghost function Converted(rules: seq<Rule>): seq<OciRule> {
    seq(|rules|, i requires 0 <= i < |rules| => ConvertRule(rules[i]))
  }

  // No rule is lost, duplicated or moved past another of its side: the two lists and the
  // directions give back every converted rule at its own place.
  lemma {:induction false} MergeUndoesSplit(rules: seq<Rule>)
    ensures Merge(Directions(rules), Side(rules, true), Side(rules, false)) == Converted(rules)
    ensures |Side(rules, true)| + |Side(rules, false)| == |rules|
  {
    if rules != [] {
      MergeUndoesSplit(rules[1..]);
      assert Directions(rules)[1..] == Directions(rules[1..]);
      assert Converted(rules) == [ConvertRule(rules[0])] + Converted(rules[1..]);
      SideHead(rules, true);
      SideHead(rules, false);
    }
  }

  // The rule a converted rule of a known side stands for.
  ghost function Restore(ingress: bool, c: OciRule): Rule {
    var (source, destination) := if ingress then (c.cidr, "") else ("", c.cidr);
    var (low, high) := match c.tcpOptions case None => (None, None) case Some(p) => (Some(p.min), Some(p.max));
    Rule(c.description, if ingress then INGRESS else EGRESS, c.protocol, source, destination, low, high)
  }

  ghost function RestoreAll(dirs: seq<bool>, list: seq<OciRule>): seq<Rule>
    requires |dirs| == |list|
  {
    seq(|list|, i requires 0 <= i < |list| => Restore(dirs[i], list[i]))
  }

  // Nothing in r is dropped on the way: a known direction, both ports or neither, and no
  // address for the other side.
  ghost predicate Retained(r: Rule) {
    && KnownDirection(r) && (r.minPort.Some? <==> r.maxPort.Some?)
    && (if r.direction == INGRESS then r.destination else r.source) == ""
  }

  // The two lists and the directions determine the CRD rules, field by field, exactly
  // when every rule is retained.
  lemma RulesRestoredExactly(rules: seq<Rule>)
    ensures var merged := Merge(Directions(rules), Side(rules, true), Side(rules, false));
      && |merged| == |rules|
      && (RestoreAll(Directions(rules), merged) == rules <==> forall i | 0 <= i < |rules| :: Retained(rules[i]))
  {
    MergeUndoesSplit(rules);
    var restored := RestoreAll(Directions(rules), Converted(rules));
    forall i | 0 <= i < |rules| ensures restored[i] == rules[i] <==> Retained(rules[i]) {
      RestoredExactly(rules[i]);
    }
  }

  lemma RestoredExactly(r: Rule)
    ensures Restore(IsIngress(r), ConvertRule(r)) == r <==> Retained(r)
  {
  }

  // ---- Meaning ----

  // A packet flow. The address test is whatever CIDR matching the cloud uses.
  datatype Flow = Flow(ingress: bool, protocol: string, address: string, port: int)

  // No packet carries the wildcard as its protocol.
  ghost predicate ValidFlow(f: Flow) {
    1 <= f.port <= 65535 && f.protocol != ALL
  }

  ghost predicate ProtocolMatches(rule: string, flow: string) {
    rule == ALL || rule == flow
  }

  // What a policy author asks for: a bound that is given bounds the port.
  ghost predicate AdmitsAsWritten(covers: (string, string) -> bool, r: Rule, f: Flow) {
    && r.direction == (if f.ingress then INGRESS else EGRESS)
    && ProtocolMatches(r.protocol, f.protocol) && covers(if f.ingress then r.source else r.destination, f.address)
    && (r.minPort.Some? ==> r.minPort.value <= f.port)
    && (r.maxPort.Some? ==> f.port <= r.maxPort.value)
  }

  // What the cloud does with a converted rule: TCP options bound the port of TCP rules
  // only, and a rule without them admits every port.
  ghost predicate AdmitsAsSent(covers: (string, string) -> bool, r: OciRule, f: Flow) {
    && ProtocolMatches(r.protocol, f.protocol) && covers(r.cidr, f.address)
    && (r.tcpOptions.Some? && r.protocol == TCP ==> r.tcpOptions.value.min <= f.port <= r.tcpOptions.value.max)
  }

  ghost predicate PolicyAdmits(covers: (string, string) -> bool, rules: seq<Rule>, f: Flow) {
    exists i | 0 <= i < |rules| :: AdmitsAsWritten(covers, rules[i], f)
  }

  ghost predicate ListAdmits(covers: (string, string) -> bool, list: seq<OciRule>, f: Flow) {
    exists i | 0 <= i < |list| :: AdmitsAsSent(covers, list[i], f)
  }

  ghost predicate CloudAdmits(covers: (string, string) -> bool, rules: seq<Rule>, f: Flow) {
    ListAdmits(covers, Side(rules, f.ingress), f)
  }

  // The ports of r say nothing: every valid port is within them.
  ghost predicate Unbounded(r: Rule) {
    (r.minPort.Some? ==> r.minPort.value <= 1) && (r.maxPort.Some? ==> 65535 <= r.maxPort.value)
  }

  // What a caller can check before sending a rule.
  ghost predicate Expressible(r: Rule) {
    (r.minPort.Some? && r.maxPort.Some? && r.protocol == TCP) || Unbounded(r)
  }

  // Some rule of a side admits f exactly when some list rule, converted, of that side does.
  lemma {:induction false} SideAdmits(covers: (string, string) -> bool, rules: seq<Rule>, f: Flow)
    ensures CloudAdmits(covers, rules, f) <==>
            exists i | 0 <= i < |rules| :: IsIngress(rules[i]) == f.ingress
                && AdmitsAsSent(covers, ConvertRule(rules[i]), f)
  {
    if rules != [] {
      var rest, head := Side(rules[1..], f.ingress), ConvertRule(rules[0]);
      SideAdmits(covers, rules[1..], f);
      if IsIngress(rules[0]) == f.ingress {
        assert Side(rules, f.ingress) == [head] + rest;
        assert ListAdmits(covers, [head] + rest, f)
               <==> AdmitsAsSent(covers, head, f) || ListAdmits(covers, rest, f) by {
          if ListAdmits(covers, rest, f) {
            var i :| 0 <= i < |rest| && AdmitsAsSent(covers, rest[i], f);
            assert ([head] + rest)[i + 1] == rest[i];
          }
          assert ([head] + rest)[0] == head;
        }
      } else {
        assert Side(rules, f.ingress) == rest;
      }
      forall i | 0 <= i < |rules[1..]| ensures rules[1..][i] == rules[i + 1] {}
    }
  }

  // Converted rules never block what the policy admits.
  lemma NeverNarrower(covers: (string, string) -> bool, rules: seq<Rule>, f: Flow)
    requires PolicyAdmits(covers, rules, f)
    ensures CloudAdmits(covers, rules, f)
  {
    SideAdmits(covers, rules, f);
    var i :| 0 <= i < |rules| && AdmitsAsWritten(covers, rules[i], f);
    assert IsIngress(rules[i]) == f.ingress && AdmitsAsSent(covers, ConvertRule(rules[i]), f);
  }

  // A list of expressible rules keeps its meaning: exactly the same flows are admitted.
  lemma MeaningKept(covers: (string, string) -> bool, rules: seq<Rule>, f: Flow)
    requires ValidFlow(f)
    requires forall i | 0 <= i < |rules| :: Expressible(rules[i]) && KnownDirection(rules[i])
    ensures PolicyAdmits(covers, rules, f) <==> CloudAdmits(covers, rules, f)
  {
    if PolicyAdmits(covers, rules, f) {
      NeverNarrower(covers, rules, f);
    }
    SideAdmits(covers, rules, f);
    if CloudAdmits(covers, rules, f) {
      var i :| 0 <= i < |rules| && IsIngress(rules[i]) == f.ingress && AdmitsAsSent(covers, ConvertRule(rules[i]), f);
      assert AdmitsAsWritten(covers, rules[i], f);
    }
  }

  // One rule keeps its meaning for every flow exactly when it is expressible. The rule's
  // CIDR is assumed to match some address.
  lemma MeaningKeptExactly(covers: (string, string) -> bool, r: Rule, address: string)
    requires KnownDirection(r) && covers(if r.direction == INGRESS then r.source else r.destination, address)
    ensures Expressible(r) <==>
            forall f | ValidFlow(f) :: PolicyAdmits(covers, [r], f) <==> CloudAdmits(covers, [r], f)
  {
    if Expressible(r) {
      forall f | ValidFlow(f) ensures PolicyAdmits(covers, [r], f) <==> CloudAdmits(covers, [r], f) {
        MeaningKept(covers, [r], f);
      }
    } else {
      var port := if r.minPort.Some? && r.minPort.value > 1 then 1 else 65535;
      var f := Flow(IsIngress(r), if r.protocol == ALL then UDP else r.protocol, address, port);
      SideAdmits(covers, [r], f);
      assert AdmitsAsSent(covers, ConvertRule([r][0]), f);
      assert ValidFlow(f) && !PolicyAdmits(covers, [r], f) && CloudAdmits(covers, [r], f);
    }
  }
}
