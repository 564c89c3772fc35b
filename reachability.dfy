/**
 Who can reach a VM. `Attackers` is the specification, stated on the records
 alone; `Reach` is what both query front ends compute from the three lookup
 maps; `QueryMatchesSpec` proves that, on the maps a load builds, the two agree.
 */
module Reachability {
  import opened Models
  import opened Indexing

  /** `u` can reach `v`: u is not v, and a rule leads from a tag of some record
      with id u into a tag of the last record with id v (the tags the analyzer keeps for v). */
  ghost predicate CanAttack(env: CloudEnvironment, u: string, v: string)
  {
    u != v &&
    exists i, j ::
      IsLastRecord(env.vms, i, v) && 0 <= j < |env.fwRules| &&
      env.fwRules[j].destTag in env.vms[i].tags &&
      Carries(env.vms, u, env.fwRules[j].sourceTag)
  }

  /** None for an id that is not loaded, otherwise the ids of the loaded VMs that can reach `v`. */
  ghost function Attackers(env: CloudEnvironment, v: string): Option<set<string>>
  {
    if v in VmIds(env.vms) then Some(set u | u in VmIds(env.vms) && CanAttack(env, u, v))
    else None
  }

  /** The ids stored under any of the source tags `srcs`. */
  ghost function Through(idsByTag: map<string, set<string>>, srcs: set<string>): set<string>
  {
    set s, u | s in srcs && u in Lookup(idsByTag, s) :: u
  }

  /** The ids stored under any source tag of a rule into one of `dests`. */
  ghost function Reach(idsByTag: map<string, set<string>>, sourcesByDest: map<string, set<string>>,
                       dests: set<string>): set<string>
  {
    set d, u | d in dests && u in Through(idsByTag, Lookup(sourcesByDest, d)) :: u
  }

  // Growing the walked tag sets one tag at a time, as the query loops do

  lemma ThroughEmpty(idsByTag: map<string, set<string>>)
    ensures Through(idsByTag, {}) == {}
  {
  }

  lemma ThroughAdd(idsByTag: map<string, set<string>>, srcs: set<string>, s: string)
    ensures Through(idsByTag, srcs + {s}) == Through(idsByTag, srcs) + Lookup(idsByTag, s)
  {
  }

  lemma ReachEmpty(idsByTag: map<string, set<string>>, sourcesByDest: map<string, set<string>>)
    ensures Reach(idsByTag, sourcesByDest, {}) == {}
  {
  }

  lemma ReachAdd(idsByTag: map<string, set<string>>, sourcesByDest: map<string, set<string>>,
                 dests: set<string>, d: string)
    ensures Reach(idsByTag, sourcesByDest, dests + {d})
            == Reach(idsByTag, sourcesByDest, dests) + Through(idsByTag, Lookup(sourcesByDest, d))
  {
  }

  lemma LastRecordUnique(vms: seq<VirtualMachine>, i: int, i': int, v: string)
    requires IsLastRecord(vms, i, v) && IsLastRecord(vms, i', v)
    ensures i == i'
  {
  }

  /** Walking the maps a load builds answers exactly the specification. */
  lemma QueryMatchesSpec(env: CloudEnvironment, v: string)
    requires v in VmIds(env.vms)
    ensures v in TagsById(env.vms)
    ensures Reach(IdsByTag(env.vms), SourcesByDest(env.fwRules), Elems(TagsById(env.vms)[v])) - {v}
            == Attackers(env, v).value
  {
    var vms, rules := env.vms, env.fwRules;
    var T, D := IdsByTag(vms), SourcesByDest(rules);
    var i := LastRecordExists(vms, v);
    TagsByIdLast(vms, i, v);
    var tags := vms[i].tags;
    var lhs := Reach(T, D, Elems(tags)) - {v};
    var rhs := Attackers(env, v).value;
    forall u | u in lhs ensures u in rhs {
      var d :| d in Elems(tags) && u in Through(T, Lookup(D, d));
      var s :| s in Lookup(D, d) && u in Lookup(T, s);
      SourcesByDestSpec(rules, d, s);
      IdsByTagSpec(vms, s, u);
      var j :| 0 <= j < |rules| && rules[j].sourceTag == s && rules[j].destTag == d;
      var k :| 0 <= k < |vms| && vms[k].vmId == u && s in vms[k].tags;
      assert vms[k] in vms;
      assert CanAttack(env, u, v);
    }
    forall u | u in rhs ensures u in lhs {
      var i', j :| IsLastRecord(vms, i', v) && 0 <= j < |rules| &&
                   rules[j].destTag in vms[i'].tags && Carries(vms, u, rules[j].sourceTag);
      LastRecordUnique(vms, i, i', v);
      var d, s := rules[j].destTag, rules[j].sourceTag;
      SourcesByDestSpec(rules, d, s);
      IdsByTagSpec(vms, s, u);
      assert u in Through(T, Lookup(D, d));
    }
  }

  /** The same, phrased on the set-valued vm_id_to_tags map the analyzer keeps. */
  lemma LoadedQueryMatchesSpec(env: CloudEnvironment, v: string)
    ensures v in SetsOf(TagsById(env.vms)) <==> Attackers(env, v).Some?
    ensures v in SetsOf(TagsById(env.vms)) ==>
              Reach(IdsByTag(env.vms), SourcesByDest(env.fwRules), SetsOf(TagsById(env.vms))[v]) - {v}
              == Attackers(env, v).value
  {
    TagsByIdKeys(env.vms);
    if v in VmIds(env.vms) {
      QueryMatchesSpec(env, v);
    }
  }

  // ---------------------------------------------------------------------------
  // Reordering or repeating rules changes nothing

  /** The (source tag, dest tag) edges the rules allow, ignoring order, repetition and rule ids. */
  function Edges(rules: seq<FirewallRule>): set<(string, string)>
  {
    set r | r in rules :: (r.sourceTag, r.destTag)
  }

  lemma PermitsIsEdge(rules: seq<FirewallRule>, s: string, d: string)
    ensures Permits(rules, s, d) <==> (s, d) in Edges(rules)
  {
  }

  lemma SameEdgesSameDests(rules: seq<FirewallRule>, rules': seq<FirewallRule>)
    requires Edges(rules) == Edges(rules')
    ensures DestTags(rules) == DestTags(rules')
  {
    forall d | d in DestTags(rules) ensures d in DestTags(rules') {
      var r :| r in rules && r.destTag == d;
      assert (r.sourceTag, d) in Edges(rules');
    }
    forall d | d in DestTags(rules') ensures d in DestTags(rules) {
      var r :| r in rules' && r.destTag == d;
      assert (r.sourceTag, d) in Edges(rules);
    }
  }

  lemma SameEdgesSameSources(rules: seq<FirewallRule>, rules': seq<FirewallRule>, d: string)
    requires Edges(rules) == Edges(rules')
    ensures Lookup(SourcesByDest(rules), d) == Lookup(SourcesByDest(rules'), d)
  {
    forall s ensures s in Lookup(SourcesByDest(rules), d) <==> s in Lookup(SourcesByDest(rules'), d) {
      SourcesByDestSpec(rules, d, s);
      SourcesByDestSpec(rules', d, s);
      PermitsIsEdge(rules, s, d);
      PermitsIsEdge(rules', s, d);
    }
  }

  /** Rule lists with the same edges build the same dest_tag_to_source_tags map. */
  lemma SameEdgesSameIndex(rules: seq<FirewallRule>, rules': seq<FirewallRule>)
    requires Edges(rules) == Edges(rules')
    ensures SourcesByDest(rules) == SourcesByDest(rules')
  {
    var D, D' := SourcesByDest(rules), SourcesByDest(rules');
    SourcesByDestKeys(rules);
    SourcesByDestKeys(rules');
    SameEdgesSameDests(rules, rules');
    forall d | d in D ensures D[d] == D'[d] {
      SameEdgesSameSources(rules, rules', d);
    }
  }

  /** Reordering or repeating rules (same VMs) gives every VM the same attackers. */
  lemma SameEdgesSameAttackers(env: CloudEnvironment, env': CloudEnvironment, v: string)
    requires env.vms == env'.vms && Edges(env.fwRules) == Edges(env'.fwRules)
    ensures Attackers(env, v) == Attackers(env', v)
  {
    if v in VmIds(env.vms) {
      QueryMatchesSpec(env, v);
      QueryMatchesSpec(env', v);
      SameEdgesSameIndex(env.fwRules, env'.fwRules);
    }
  }
}
