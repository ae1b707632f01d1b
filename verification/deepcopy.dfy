// The generated deep copies on the heap. Every fetched object the reconcilers write
// into is such a copy of a cached one; what is proved here is that the two share nothing.
module DeepCopies {
  import opened Resources
  import opened Heap

  // A Go map: a reference to its entries.
  class Tags {
    var entries: map<string, string>

    constructor ()
      ensures entries == map[]
    {
      entries := map[];
    }
  }

  // What make() fills a slice with.
  const ZERO_RULE := SecurityRule("", "", "", "", "", null, null)

  // No two rules point to the same port, nor do the two ends of one range.
  ghost predicate Unshared(rules: seq<SecurityRule>) {
    && (forall i, j | 0 <= i < j < |rules| :: rules[i].Ports() !! rules[j].Ports())
    && forall i | 0 <= i < |rules| && rules[i].minPort != null :: rules[i].minPort != rules[i].maxPort
  }

  method CopyPointer<T>(cell: Cell?<T>) returns (copy: Cell?<T>)
    ensures cell == null <==> copy == null
    ensures cell != null ==> fresh(copy) && copy.v == cell.v
  {
    copy := cell;
    if cell != null {
      copy := new Cell(cell.v);
    }
  }

  // DeepCopyInto of one rule into a slot of the new slice.
  method CopyRuleInto(rule: SecurityRule, out: array<SecurityRule>, i: nat)
    requires i < out.Length
    modifies out
    ensures out[..] == old(out[..])[i := out[i]]
    ensures out[i].Value() == old(rule.Value()) == rule.Value()
    ensures forall o | o in out[i].Ports() :: fresh(o) && allocated(o)
    ensures out[i].minPort != null ==> out[i].minPort != out[i].maxPort
  {
    out[i] := rule;
    if rule.minPort != null {
      var minPort := CopyPointer(rule.minPort);
      out[i] := out[i].(minPort := minPort);
    }
    if rule.maxPort != null {
      var maxPort := CopyPointer(rule.maxPort);
      out[i] := out[i].(maxPort := maxPort);
    }
  }

  lemma UnsharedSnoc(rules: seq<SecurityRule>, rule: SecurityRule)
    requires Unshared(rules)
    requires forall i | 0 <= i < |rules| :: rules[i].Ports() !! rule.Ports()
    requires rule.minPort != null ==> rule.minPort != rule.maxPort
    ensures Unshared(rules + [rule])
  {
  }

  // The loop over a slice. The target is as make() left it; it is the source itself when
  // an object is copied onto itself.
  method CopyRules(rules: array<SecurityRule>, out: array<SecurityRule>)
    requires rules.Length == out.Length
    requires forall i | 0 <= i < out.Length :: out[i] == ZERO_RULE
    modifies out
    ensures Values(out[..]) == old(Values(rules[..]))
    ensures Unshared(out[..])
    ensures forall o | o in AllPorts(out[..]) :: fresh(o)
  {
    ghost var before := rules[..];
    for i := 0 to rules.Length
      invariant forall k | i <= k < rules.Length :: rules[k] == before[k]
      invariant Unshared(out[..i])
      invariant forall k | 0 <= k < i :: out[k].Value() == old(before[k].Value())
      invariant forall k, o | 0 <= k < i && o in out[k].Ports() :: fresh(o) && allocated(o)
    {
      ghost var done := out[..i];
      CopyRuleInto(rules[i], out, i);
      UnsharedSnoc(done, out[i]);
      assert out[..i + 1] == done + [out[i]];
    }
    assert out[..out.Length] == out[..];
  }

  // The loop over a map; the target is the empty map make() returned, and may be the source.
  method CopyEntries(tags: Tags, out: Tags)
    requires out.entries == map[]
    modifies out
    ensures out.entries == old(tags.entries)
  {
    var pending := tags.entries.Keys;
    while pending != {}
      invariant pending <= old(tags.entries).Keys
      invariant tags != out ==> tags.entries == old(tags.entries)
      invariant out.entries == map k | k in old(tags.entries) && k !in pending :: old(tags.entries)[k]
      decreases pending
    {
      var key :| key in pending;
      out.entries := out.entries[key := tags.entries[key]];
      pending := pending - {key};
    }
  }

  ghost function EntriesOf(tags: Tags?): map<string, string>
    reads tags
  {
    if tags == null then map[] else tags.entries
  }

  // A policy spec as it lies in memory. Rules and tags may be nil.
  class OCISecurityPolicySpec {
    var compartmentID: string
    var vcnID: string
    var displayName: string
    var rules: array?<SecurityRule>
    var freeformTags: Tags?

    constructor ()
      ensures rules == null && freeformTags == null
    {
      compartmentID, vcnID, displayName, rules, freeformTags := "", "", "", null, null;
    }

    ghost function Rules(): seq<SecurityRule>
      reads this, rules
    {
      if rules == null then [] else rules[..]
    }

    // Everything a write through this spec can reach, besides the struct itself.
    ghost function Footprint(): set<object>
      reads this, rules
    {
      AllPorts(Rules())
      + (if rules == null then {} else {rules}) + (if freeformTags == null then {} else {freeformTags})
    }

    ghost function Value(): PolicySpec
      reads this, rules, Footprint()
    {
      PolicySpec(compartmentID, vcnID, displayName, Values(Rules()), EntriesOf(freeformTags))
    }

    lemma ReachAllocated()
      ensures forall o | o in Footprint() :: allocated(o)
    {
      forall o | o in Footprint() ensures allocated(o) {
        if o in AllPorts(Rules()) {
          var i :| 0 <= i < |Rules()| && o in Rules()[i].Ports();
          var rule := rules[i];
          assert allocated(rule);
        }
      }
    }

    // *out = *in: afterwards both reach the same memory.
    method Assign(out: OCISecurityPolicySpec)
      modifies out
      ensures out.Value() == old(Value()) && out.Footprint() == old(Footprint())
      ensures out.rules == old(rules) && out.freeformTags == old(freeformTags)
      ensures rules == old(rules) && freeformTags == old(freeformTags)
    {
      hide Values, AllPorts, EntriesOf;
      out.compartmentID, out.vcnID, out.displayName := compartmentID, vcnID, displayName;
      out.rules, out.freeformTags := rules, freeformTags;
    }

    // The slice part: the shallow copy's rules are replaced by fresh ones.
    method DeepCopyRules(out: OCISecurityPolicySpec)
      requires out.rules == rules
      modifies out`rules
      ensures Values(out.Rules()) == if out == this then Zeroes(old(|Rules()|)) else old(Values(Rules()))
      ensures out.rules == null <==> old(rules) == null
      ensures forall o | o in AllPorts(out.Rules()) :: fresh(o)
      ensures out.rules != null ==> fresh(out.rules)
      ensures Unshared(out.Rules())
    {
      if rules != null {
        out.rules := new SecurityRule[rules.Length](_ => ZERO_RULE);
        CopyRules(rules, out.rules);
      }
    }

    method DeepCopyTags(out: OCISecurityPolicySpec)
      requires out.freeformTags == freeformTags
      modifies out`freeformTags
      ensures EntriesOf(out.freeformTags) == if out == this then map[] else old(EntriesOf(freeformTags))
      ensures out.freeformTags == null <==> old(freeformTags) == null
      ensures out.freeformTags != null ==> fresh(out.freeformTags)
    {
      if freeformTags != null {
        out.freeformTags := new Tags();
        CopyEntries(freeformTags, out.freeformTags);
      }
    }

    // A copy equals its source field by field, nil where it is nil, and reaches only memory
    // the call allocated. The exception is a copy of an object onto itself, which
    // empties it: the new slice and map take the old ones' place before they are read.
    method DeepCopyInto(out: OCISecurityPolicySpec)
      modifies out
      ensures out.Value() == if out == this then Emptied(old(Value())) else old(Value())
      ensures out != this ==> Value() == old(Value()) && Footprint() !! out.Footprint()
      ensures (out.rules == null <==> old(rules) == null) && (out.freeformTags == null <==> old(freeformTags) == null)
      ensures forall o | o in out.Footprint() :: fresh(o)
      ensures Unshared(out.Rules())
    {
      hide Unshared, AllPorts, Values, Zeroes, EntriesOf;
      ghost var reach := Footprint();
      ReachAllocated();
      Assign(out);
      DeepCopyRules(out);
      DeepCopyTags(out);
      assert out != this ==> Footprint() == reach;
    }

    // Source and copy reach nothing in common, and it stays that way: whatever writes this
    // spec and what it reaches take, the other keeps its value and its reach.
    twostate lemma WritesStayPrivate(other: OCISecurityPolicySpec)
      requires other != this && old(Footprint() !! other.Footprint())
      requires forall o: object | old(allocated(o)) && o != this && o !in old(Footprint()) :: unchanged(o)
      ensures other.Value() == old(other.Value()) && other.Footprint() == old(other.Footprint())
    {
      assert other !in old(Footprint()) && unchanged(other);
      assert other.rules != null ==> unchanged(other.rules);
      assert forall o | o in old(other.Footprint()) :: unchanged(o);
    }
  }

  function Zeroes(n: nat): (zs: seq<Rule>) {
    seq(n, _ => Rule("", "", "", "", "", None, None))
  }

  function Emptied(v: PolicySpec): PolicySpec {
    v.(rules := Zeroes(|v.rules|), freeformTags := map[])
  }

  // An instance spec as it lies in memory. The two sizes and the tags may be nil.
  class OCIInstanceSpec {
    var compartmentID: string
    var displayName: string
    var shape: string
    var imageID: string
    var availabilityDomain: string
    var subnetID: string
    var ocpus: Cell?<string>
    var memoryInGBs: Cell?<string>
    var freeformTags: Tags?

    ghost function Footprint(): set<object>
      reads this
    {
      (if ocpus == null then {} else {ocpus}) + (if memoryInGBs == null then {} else {memoryInGBs})
      + (if freeformTags == null then {} else {freeformTags})
    }

    ghost function Value(): InstanceSpec
      reads this, Footprint()
    {
      InstanceSpec(compartmentID, displayName, shape, imageID, availabilityDomain, subnetID,
                   Pointee(ocpus), Pointee(memoryInGBs), EntriesOf(freeformTags))
    }

    // *out = *in: afterwards both reach the same cells.
    method Assign(out: OCIInstanceSpec)
      modifies out
      ensures out.Value() == old(Value()) && out.Footprint() == old(Footprint())
      ensures out.ocpus == old(ocpus) && out.memoryInGBs == old(memoryInGBs) && out.freeformTags == old(freeformTags)
      ensures ocpus == old(ocpus) && memoryInGBs == old(memoryInGBs) && freeformTags == old(freeformTags)
    {
      hide Pointee, EntriesOf;
      out.compartmentID, out.displayName, out.shape := compartmentID, displayName, shape;
      out.imageID, out.availabilityDomain, out.subnetID := imageID, availabilityDomain, subnetID;
      out.ocpus, out.memoryInGBs, out.freeformTags := ocpus, memoryInGBs, freeformTags;
    }

    // The two pointers: the shallow copy's are replaced by fresh ones, then filled.
    method DeepCopySizes(out: OCIInstanceSpec)
      requires out.ocpus == ocpus && out.memoryInGBs == memoryInGBs
      modifies out`ocpus, out`memoryInGBs
      ensures Pointee(out.ocpus) == if out == this then Blank(old(Pointee(ocpus))) else old(Pointee(ocpus))
      ensures Pointee(out.memoryInGBs)
           == if out == this then Blank(old(Pointee(memoryInGBs))) else old(Pointee(memoryInGBs))
      ensures (out.ocpus != null ==> fresh(out.ocpus)) && (out.memoryInGBs != null ==> fresh(out.memoryInGBs))
      ensures out.ocpus != null ==> out.ocpus != out.memoryInGBs
    {
      if ocpus != null {
        out.ocpus := new Cell("");
        out.ocpus.v := ocpus.v;
      }
      if memoryInGBs != null {
        out.memoryInGBs := new Cell("");
        out.memoryInGBs.v := memoryInGBs.v;
      }
    }

    method DeepCopyTags(out: OCIInstanceSpec)
      requires out.freeformTags == freeformTags
      modifies out`freeformTags
      ensures EntriesOf(out.freeformTags) == if out == this then map[] else old(EntriesOf(freeformTags))
      ensures out.freeformTags != null ==> fresh(out.freeformTags)
    {
      if freeformTags != null {
        out.freeformTags := new Tags();
        CopyEntries(freeformTags, out.freeformTags);
      }
    }

    // As for the policy; copied onto itself, the spec loses its tags and both sizes.
    method DeepCopyInto(out: OCIInstanceSpec)
      modifies out
      ensures out.Value() == if out == this then Stripped(old(Value())) else old(Value())
      ensures out != this ==> Value() == old(Value()) && Footprint() !! out.Footprint()
      ensures forall o | o in out.Footprint() :: fresh(o)
      ensures out.ocpus != null ==> out.ocpus != out.memoryInGBs
    {
      ghost var reach := Footprint();
      Assign(out);
      DeepCopySizes(out);
      DeepCopyTags(out);
      assert out != this ==> Footprint() == reach;
    }

    twostate lemma WritesStayPrivate(other: OCIInstanceSpec)
      requires other != this && old(Footprint() !! other.Footprint())
      requires forall o: object | old(allocated(o)) && o != this && o !in old(Footprint()) :: unchanged(o)
      ensures other.Value() == old(other.Value()) && other.Footprint() == old(other.Footprint())
    {
      assert other !in old(Footprint()) && unchanged(other);
      assert forall o | o in old(other.Footprint()) :: unchanged(o);
    }
  }

  function Blank(p: Option<string>): Option<string> {
    if p.None? then None else Some("")
  }

  function Stripped(v: InstanceSpec): InstanceSpec {
    v.(ocpus := Blank(v.ocpus), memoryInGBs := Blank(v.memoryInGBs), freeformTags := map[])
  }
}
