// Memory the code reaches through pointers.
module Heap {
  import opened Resources

  class Cell<T> {
    var v: T

    constructor (v: T)
      ensures this.v == v
    {
      this.v := v;
    }
  }

  // One element of a rule slice: a struct whose two ports are pointers that may be nil.
  datatype SecurityRule = SecurityRule(
    description: string, direction: string, protocol: string,
    source: string, destination: string,
    minPort: Cell?<int>, maxPort: Cell?<int>)
  {
    ghost function Ports(): set<object> {
      (if minPort == null then {} else {minPort}) + (if maxPort == null then {} else {maxPort})
    }

    ghost function Value(): Rule
      reads Ports()
    {
      Rule(description, direction, protocol, source, destination, Pointee(minPort), Pointee(maxPort))
    }
  }

  ghost function Pointee<T>(cell: Cell?<T>): Option<T>
    reads cell
  {
    if cell == null then None else Some(cell.v)
  }

  ghost function AllPorts(rules: seq<SecurityRule>): set<object> {
    set i, o | 0 <= i < |rules| && o in rules[i].Ports() :: o
  }

  ghost function Values(rules: seq<SecurityRule>): (vs: seq<Rule>)
    reads AllPorts(rules)
    ensures |vs| == |rules| && forall i | 0 <= i < |rules| :: vs[i] == rules[i].Value()
  {
    seq(|rules|, i requires 0 <= i < |rules| reads AllPorts(rules) => rules[i].Value())
  }
}
