// convertRules as the code runs it: one loop, two slices, and pointers into fresh cells.
module RuleConversion {
  import opened Resources
  import opened Rules
  import opened Heap

  // The SDK's rule struct: every field is a pointer.
  datatype RuleRef = RuleRef(
    protocol: Cell<string>, cidr: Cell<string>, description: Cell<string>,
    ports: Option<(Cell<int>, Cell<int>)>)
  {
    ghost function Cells(): seq<object> {
      [protocol, cidr, description] + if ports.Some? then [ports.value.0, ports.value.1] else []
    }

    function View(): OciRule
      reads protocol, cidr, description
      reads if ports.Some? then {ports.value.0, ports.value.1} else {}
    {
      OciRule(protocol.v, cidr.v, description.v,
              if ports.Some? then Some(PortRange(ports.value.0.v, ports.value.1.v)) else None)
    }
  }

  ghost function AllCells(rs: seq<RuleRef>): seq<object> {
    if rs == [] then [] else AllCells(rs[..|rs| - 1]) + rs[|rs| - 1].Cells()
  }

  ghost function Footprint(rs: seq<RuleRef>): set<object> {
    set o | o in AllCells(rs)
  }

  // No cell is used twice.
  ghost predicate Distinct(s: seq<object>) {
    forall i, j | 0 <= i < j < |s| :: s[i] != s[j]
  }

  lemma {:induction false} CellsInFootprint(rs: seq<RuleRef>, i: nat)
    requires i < |rs|
    ensures forall o | o in rs[i].Cells() :: o in Footprint(rs)
    decreases |rs|
  {
    if i < |rs| - 1 {
      CellsInFootprint(rs[..|rs| - 1], i);
    }
  }

  function Views(rs: seq<RuleRef>): seq<OciRule>
    reads Footprint(rs)
  {
    if rs == [] then []
    else
      assert Footprint(rs[..|rs| - 1]) <= Footprint(rs);
      assert forall o | o in rs[|rs| - 1].Cells() :: o in Footprint(rs) by { CellsInFootprint(rs, |rs| - 1); }
      Views(rs[..|rs| - 1]) + [rs[|rs| - 1].View()]
  }

  // One rule on the heap: every pointer goes to a cell of its own, and the ports are copies.
  method Allocate(rule: SecurityRule, cidr: string) returns (ref: RuleRef)
    ensures ref.View() == OciRule(rule.protocol, cidr, rule.description, TcpOptionsOf(rule.Value()))
    ensures Distinct(ref.Cells()) && forall o | o in ref.Cells() :: fresh(o)
  {
    var protocol := new Cell(rule.protocol);
    var address := new Cell(cidr);
    var description := new Cell(rule.description);
    ref := RuleRef(protocol, address, description, None);
    ghost var fixed: seq<object> := [protocol, address, description];
    assert ref.Cells() == fixed;
    if rule.minPort != null && rule.maxPort != null {
      var minPort := new Cell(rule.minPort.v);
      var maxPort := new Cell(rule.maxPort.v);
      ref := ref.(ports := Some((minPort, maxPort)));
      ghost var range: seq<object> := [minPort, maxPort];
      assert ref.Cells() == fixed + range;
    }
  }

  lemma DistinctAppend(a: seq<object>, b: seq<object>, new': seq<object>)
    requires Distinct(a + b) && Distinct(new') && forall o | o in new' :: o !in a && o !in b
    ensures Distinct((a + new') + b) && Distinct(a + (b + new'))
  {
    var s, t := (a + new') + b, a + (b + new');
    forall i, j | 0 <= i < j < |s| ensures s[i] != s[j] {
      DistinctAt(a, b, new', i);
      DistinctAt(a, b, new', j);
      var n, m := |a|, |new'|;
      if !(n <= i < n + m) && !(n <= j < n + m) {
        assert s[i] == (a + b)[if i < n then i else i - m] && s[j] == (a + b)[if j < n then j else j - m];
      } else if n <= i < n + m && n <= j < n + m {
        assert s[i] == new'[i - n] && s[j] == new'[j - n];
      }
    }
    forall i, j | 0 <= i < j < |t| ensures t[i] != t[j] {
      var n := |a + b|;
      assert t == (a + b) + new';
      if j < n {
        assert t[i] == (a + b)[i] && t[j] == (a + b)[j];
      } else if i >= n {
        assert t[i] == new'[i - n] && t[j] == new'[j - n];
      } else {
        assert t[i] == (a + b)[i] && t[j] in new';
      }
    }
  }

  lemma DistinctAt(a: seq<object>, b: seq<object>, new': seq<object>, i: nat)
    requires i < |a| + |new'| + |b|
    ensures var s := (a + new') + b; var n, m := |a|, |new'|;
      if n <= i < n + m then s[i] in new' else s[i] in a || s[i] in b
  {
  }

  // Allocating changes no rule that is already there.
  twostate lemma ViewsStay(rs: seq<RuleRef>)
    requires forall c: Cell<string> | old(allocated(c)) :: c.v == old(c.v)
    requires forall c: Cell<int> | old(allocated(c)) :: c.v == old(c.v)
    ensures Views(rs) == old(Views(rs))
  {
    if rs != [] {
      ViewsStay(rs[..|rs| - 1]);
      assert rs[|rs| - 1].View() == old(rs[|rs| - 1].View());
    }
  }

  // Append one converted rule; cells are the ones it brought along. The rules of the
  // other side stay as they are.
  method Append(rs: seq<RuleRef>, ghost others: seq<RuleRef>, rule: SecurityRule, cidr: string)
    returns (out: seq<RuleRef>, ghost cells: seq<object>)
    ensures Views(rs) == old(Views(rs)) && Views(others) == old(Views(others))
    ensures Views(out) == Views(rs) + [OciRule(rule.protocol, cidr, rule.description, TcpOptionsOf(rule.Value()))]
    ensures AllCells(out) == AllCells(rs) + cells && Distinct(cells)
    ensures forall o | o in cells :: fresh(o) && allocated(o)
  {
    var ref := Allocate(rule, cidr);
    out, cells := rs + [ref], ref.Cells();
    ViewsStay(rs);
    ViewsStay(others);
    assert out[..|out| - 1] == rs;
  }

  lemma NothingConverted()
    ensures AllCells([]) == [] && Views([]) == [] && Distinct([] + []) && forall b: bool :: Side([], b) == []
  {
  }

  lemma ConvertedRule(rule: Rule)
    ensures ConvertRule(rule)
         == OciRule(rule.protocol, if rule.direction == INGRESS then rule.source else rule.destination,
                    rule.description, TcpOptionsOf(rule))
  {
  }

  lemma PortsAllocated(rules: seq<SecurityRule>)
    ensures forall o | o in AllPorts(rules) :: allocated(o)
  {
    forall o | o in AllPorts(rules) ensures allocated(o) {
      var i :| 0 <= i < |rules| && o in rules[i].Ports();
      var rule := rules[i];
      assert allocated(rule);
    }
  }

  // The two lists hold the converted rules of each side in order. No cell of them is shared
  // between two fields, two rules, with the rules given, or with anything else that existed
  // before; the rules given keep their value.
  method ConvertRules(rules: seq<SecurityRule>) returns (ingress: seq<RuleRef>, egress: seq<RuleRef>)
    ensures Values(rules) == old(Values(rules))
    ensures Views(ingress) == Side(Values(rules), true) && Views(egress) == Side(Values(rules), false)
    ensures Distinct(AllCells(ingress) + AllCells(egress))
    ensures forall o | o in AllCells(ingress) || o in AllCells(egress) :: fresh(o)
    ensures AllPorts(rules) !! Footprint(ingress) && AllPorts(rules) !! Footprint(egress)
  {
    hide Distinct, TcpOptionsOf, ConvertRule, Side, Views, AllCells, AllPorts;
    PortsAllocated(rules);
    ghost var given := Values(rules);
    ingress, egress := [], [];
    NothingConverted();
    for i := 0 to |rules|
      invariant Values(rules) == given
      invariant Views(ingress) == Side(given[..i], true) && Views(egress) == Side(given[..i], false)
      invariant Distinct(AllCells(ingress) + AllCells(egress))
      invariant forall o | o in AllCells(ingress) :: fresh(o) && allocated(o)
      invariant forall o | o in AllCells(egress) :: fresh(o) && allocated(o)
    {
      var rule := rules[i];
      assert given[i] == rule.Value();
      ConvertedRule(given[i]);
      SideSnoc(given, i, true);
      SideSnoc(given, i, false);
      ghost var ins, outs := AllCells(ingress), AllCells(egress);
      ghost var cells;
      if rule.direction == INGRESS {
        ingress, cells := Append(ingress, egress, rule, rule.source);
      } else {
        egress, cells := Append(egress, ingress, rule, rule.destination);
      }
      DistinctAppend(ins, outs, cells);
    }
    assert given[..|rules|] == given;
  }

  lemma SideSnoc(rules: seq<Rule>, i: nat, b: bool)
    requires i < |rules|
    ensures Side(rules[..i + 1], b)
         == Side(rules[..i], b) + (if IsIngress(rules[i]) == b then [ConvertRule(rules[i])] else [])
  {
    assert rules[..i + 1] == rules[..i] + [rules[i]];
    SideConcat(rules[..i], [rules[i]], b);
    SideHead([rules[i]], b);
  }
}
