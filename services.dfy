/**
 The analyzer object: three dictionaries rebuilt in place by every load and
 walked, without being changed, by every query.
 */
module Services {
  import opened Models
  import opened Indexing
  import opened Reachability

  class AttackSurfaceAnalyzer {
    var vmIdToTags: map<string, set<string>>
    var tagToVmIds: map<string, set<string>>
    var destTagToSourceTags: map<string, set<string>>
    /** The environment of the last load; the object itself keeps only the maps. */
    ghost var loaded: CloudEnvironment

    /** The maps are exactly those built from `loaded`. */
    ghost predicate Valid()
      reads this
    {
      && vmIdToTags == SetsOf(TagsById(loaded.vms))
      && tagToVmIds == IdsByTag(loaded.vms)
      && destTagToSourceTags == SourcesByDest(loaded.fwRules)
    }

    constructor ()
      ensures Valid() && loaded == CloudEnvironment([], [])
      ensures vmIdToTags == map[] && tagToVmIds == map[] && destTagToSourceTags == map[]
    {
      vmIdToTags, tagToVmIds, destTagToSourceTags := map[], map[], map[];
      loaded := CloudEnvironment([], []);
    }

    /** Clears the three maps and rebuilds them from `env` alone: nothing of an earlier load survives. */
    method LoadEnvironment(env: CloudEnvironment)
      modifies this
      ensures Valid() && loaded == env
      ensures vmIdToTags == SetsOf(TagsById(env.vms))
      ensures tagToVmIds == IdsByTag(env.vms)
      ensures destTagToSourceTags == SourcesByDest(env.fwRules)
    {
      vmIdToTags, tagToVmIds, destTagToSourceTags := map[], map[], map[];

      var vms, rules := env.vms, env.fwRules;
      for i := 0 to |vms|
        invariant vmIdToTags == SetsOf(TagsById(vms[..i]))
        invariant tagToVmIds == IdsByTag(vms[..i])
        invariant destTagToSourceTags == map[]
      {
        var vm := vms[i];
        SetsOfStep(vms, i);
        IdsByTagStep(vms, i);
        vmIdToTags := vmIdToTags[vm.vmId := Elems(vm.tags)];
        ghost var before := IdsByTag(vms[..i]);
        for j := 0 to |vm.tags|
          invariant tagToVmIds == AddToAll(before, vm.tags[..j], vm.vmId)
          invariant vmIdToTags == SetsOf(TagsById(vms[..i + 1]))
          invariant destTagToSourceTags == map[]
        {
          var tag := vm.tags[j];
          AddToAllStep(before, vm.tags, j, vm.vmId);
          tagToVmIds := tagToVmIds[tag := Lookup(tagToVmIds, tag) + {vm.vmId}];
        }
        assert vm.tags[..|vm.tags|] == vm.tags;
      }
      assert vms[..|vms|] == vms;

      for k := 0 to |rules|
        invariant destTagToSourceTags == SourcesByDest(rules[..k])
        invariant vmIdToTags == SetsOf(TagsById(vms))
        invariant tagToVmIds == IdsByTag(vms)
      {
        var rule := rules[k];
        SourcesByDestStep(rules, k);
        destTagToSourceTags := destTagToSourceTags[rule.destTag :=
          Lookup(destTagToSourceTags, rule.destTag) + {rule.sourceTag}];
      }
      assert rules[..|rules|] == rules;
      loaded := env;
    }

    /** The ids of the VMs that can reach `vmId`, or a "VM not found" error for an id that was not loaded. */
    method GetAttackers(vmId: string) returns (r: Result<set<string>>)
      ensures r.Failure? <==> vmId !in vmIdToTags
      ensures r.Failure? ==> r.error == ValueError(NotFoundMessage)
      ensures r.Success? ==> r.value == Reach(tagToVmIds, destTagToSourceTags, vmIdToTags[vmId]) - {vmId}
      ensures r.Success? ==> vmId !in r.value
      ensures Valid() ==> (r.Success? <==> Attackers(loaded, vmId).Some?)
      ensures Valid() && r.Success? ==> r.value == Attackers(loaded, vmId).value
      ensures Valid() && r.Success? ==> r.value <= vmIdToTags.Keys
    {
      if vmId !in vmIdToTags {
        LoadedQueryMatchesSpec(loaded, vmId);
        return Failure(ValueError(NotFoundMessage));
      }
      var tagIndex, ruleIndex := tagToVmIds, destTagToSourceTags;
      var targetTags := vmIdToTags[vmId];
      var attackers: set<string> := {};
      var todo := targetTags;
      ghost var done: set<string> := {};
      ReachEmpty(tagIndex, ruleIndex);
      while todo != {}
        invariant todo <= targetTags && done == targetTags - todo
        invariant attackers == Reach(tagIndex, ruleIndex, done)
        decreases todo
      {
        var destTag :| destTag in todo;
        var sourceTags := Lookup(ruleIndex, destTag);
        var srcTodo := sourceTags;
        ghost var srcDone: set<string> := {};
        ThroughEmpty(tagIndex);
        while srcTodo != {}
          invariant srcTodo <= sourceTags && srcDone == sourceTags - srcTodo
          invariant attackers == Reach(tagIndex, ruleIndex, done) + Through(tagIndex, srcDone)
          decreases srcTodo
        {
          var srcTag :| srcTag in srcTodo;
          ThroughAdd(tagIndex, srcDone, srcTag);
          attackers := attackers + Lookup(tagIndex, srcTag);
          srcTodo, srcDone := srcTodo - {srcTag}, srcDone + {srcTag};
        }
        ReachAdd(tagIndex, ruleIndex, done, destTag);
        todo, done := todo - {destTag}, done + {destTag};
      }
      attackers := attackers - {vmId};
      r := Success(attackers);
      LoadedQueryMatchesSpec(loaded, vmId);
      TagsByIdKeys(loaded.vms);
    }

    /** The number of distinct VM ids loaded. */
    function VmCount(): (n: nat)
      reads this
      ensures Valid() ==> n == |VmIds(loaded.vms)|
    {
      TagsByIdKeys(loaded.vms);
      |vmIdToTags|
    }
  }
}
