/**
 The HTTP service variant: a global state object whose maps a load resets and
 refills from a JSON document, and a handler that walks them per request and
 answers a list of ids or a 404.
 */
module AttackSurface {
  import opened Models
  import opened Indexing
  import opened Reachability

  /** A VM object of the document. The loader reads only "vm_id" and the optional "tags". */
  datatype VmObject = VmObject(vmId: string, name: Option<string>, tags: Option<seq<string>>)

  /** A rule object of the document. The loader reads only "source_tag" and "dest_tag". */
  datatype RuleObject = RuleObject(fwId: Option<string>, sourceTag: string, destTag: string)

  /** The environment document; a missing "vms" or "fw_rules" key is None. */
  datatype Document = Document(vms: Option<seq<VmObject>>, fwRules: Option<seq<RuleObject>>)

  /** The environment a document describes: missing lists and tag lists are empty,
      and keys the loader never reads default to the empty string. */
  function Environment(doc: Document): (env: CloudEnvironment)
    ensures |env.vms| == |doc.vms.GetOr([])| && |env.fwRules| == |doc.fwRules.GetOr([])|
  {
    var vms, rules := doc.vms.GetOr([]), doc.fwRules.GetOr([]);
    CloudEnvironment(
      seq(|vms|, i requires 0 <= i < |vms| =>
        VirtualMachine(vms[i].vmId, vms[i].name.GetOr(""), vms[i].tags.GetOr([]))),
      seq(|rules|, j requires 0 <= j < |rules| =>
        FirewallRule(rules[j].fwId.GetOr(""), rules[j].sourceTag, rules[j].destTag)))
  }

  predicate Distinct(xs: seq<string>)
  {
    forall i, j :: 0 <= i < j < |xs| ==> xs[i] != xs[j]
  }

  /** `list(s)`: the elements of a set, each once, in an order the model leaves open. */
  method ListOf(s: set<string>) returns (xs: seq<string>)
    ensures Elems(xs) == s
    ensures Distinct(xs)
  {
    xs := [];
    var rest := s;
    while rest != {}
      invariant rest <= s
      invariant Elems(xs) == s - rest
      invariant Distinct(xs)
      decreases rest
    {
      var x :| x in rest;
      assert x !in Elems(xs);
      assert Elems(xs + [x]) == Elems(xs) + {x};
      xs := xs + [x];
      rest := rest - {x};
    }
  }

  class AppState {
    var data: Document
    var vmIdToTags: map<string, seq<string>>
    var tagToVmIds: map<string, set<string>>
    var destTagToSourceTags: map<string, set<string>>
    var vmCount: nat

    /** The maps and the count are exactly those built from `data`. */
    ghost predicate Valid()
      reads this
    {
      var env := Environment(data);
      && vmIdToTags == TagsById(env.vms)
      && tagToVmIds == IdsByTag(env.vms)
      && destTagToSourceTags == SourcesByDest(env.fwRules)
      && vmCount == |env.vms|
    }

    constructor ()
      ensures Valid() && data == Document(None, None)
      ensures vmIdToTags == map[] && tagToVmIds == map[] && destTagToSourceTags == map[] && vmCount == 0
    {
      data := Document(None, None);
      vmIdToTags, tagToVmIds, destTagToSourceTags := map[], map[], map[];
      vmCount := 0;
    }

    /** Stores the parsed document, resets the three maps to empty and refills them from it;
        the count is the number of VM records, duplicates included. */
    method LoadEnvironment(doc: Document)
      modifies this
      ensures Valid() && data == doc
      ensures vmIdToTags == TagsById(Environment(doc).vms)
      ensures tagToVmIds == IdsByTag(Environment(doc).vms)
      ensures destTagToSourceTags == SourcesByDest(Environment(doc).fwRules)
      ensures vmCount == |doc.vms.GetOr([])|
    {
      data := doc;
      ghost var env := Environment(doc);
      vmIdToTags, tagToVmIds, destTagToSourceTags := map[], map[], map[];

      var vms := doc.vms.GetOr([]);
      for i := 0 to |vms|
        invariant vmIdToTags == TagsById(env.vms[..i])
        invariant tagToVmIds == IdsByTag(env.vms[..i])
        invariant destTagToSourceTags == map[]
        invariant data == doc
      {
        var vmId := vms[i].vmId;
        var tags := vms[i].tags.GetOr([]);
        assert env.vms[i].vmId == vmId && env.vms[i].tags == tags;
        TagsByIdStep(env.vms, i);
        IdsByTagStep(env.vms, i);
        vmIdToTags := vmIdToTags[vmId := tags];
        ghost var before := IdsByTag(env.vms[..i]);
        for j := 0 to |tags|
          invariant tagToVmIds == AddToAll(before, tags[..j], vmId)
          invariant vmIdToTags == TagsById(env.vms[..i + 1])
          invariant destTagToSourceTags == map[]
          invariant data == doc
        {
          var tag := tags[j];
          AddToAllStep(before, tags, j, vmId);
          tagToVmIds := tagToVmIds[tag := Lookup(tagToVmIds, tag) + {vmId}];
        }
        assert tags[..|tags|] == tags;
      }
      assert env.vms[..|vms|] == env.vms;

      var rules := doc.fwRules.GetOr([]);
      for k := 0 to |rules|
        invariant destTagToSourceTags == SourcesByDest(env.fwRules[..k])
        invariant vmIdToTags == TagsById(env.vms)
        invariant tagToVmIds == IdsByTag(env.vms)
        invariant data == doc
      {
        var src, dst := rules[k].sourceTag, rules[k].destTag;
        assert env.fwRules[k].sourceTag == src && env.fwRules[k].destTag == dst;
        SourcesByDestStep(env.fwRules, k);
        destTagToSourceTags := destTagToSourceTags[dst := Lookup(destTagToSourceTags, dst) + {src}];
      }
      assert env.fwRules[..|rules|] == env.fwRules;

      vmCount := |vms|;
    }

    /** The ids of the VMs that can reach `vmId`, each once, or a 404 "VM not found". */
    method GetAttack(vmId: string) returns (r: Result<seq<string>>)
      ensures r.Failure? <==> vmId !in vmIdToTags
      ensures r.Failure? ==> r.error == HttpException(404, NotFoundMessage)
      ensures r.Success? ==> Distinct(r.value) && vmId !in r.value
      ensures r.Success? ==>
                Elems(r.value) == Reach(tagToVmIds, destTagToSourceTags, Elems(vmIdToTags[vmId])) - {vmId}
      ensures Valid() ==> (r.Success? <==> Attackers(Environment(data), vmId).Some?)
      ensures Valid() && r.Success? ==> Elems(r.value) == Attackers(Environment(data), vmId).value
      ensures Valid() && r.Success? ==> Elems(r.value) <= vmIdToTags.Keys
    {
      if vmId !in vmIdToTags {
        LoadedQueryMatchesSpec(Environment(data), vmId);
        return Failure(HttpException(404, NotFoundMessage));
      }
      var tagIndex, ruleIndex := tagToVmIds, destTagToSourceTags;
      var attackableBy: set<string> := {};
      var targetTags := vmIdToTags[vmId];
      ReachEmpty(tagIndex, ruleIndex);
      for i := 0 to |targetTags|
        invariant attackableBy == Reach(tagIndex, ruleIndex, Elems(targetTags[..i]))
      {
        var destTag := targetTags[i];
        var sourceTags := Lookup(ruleIndex, destTag);
        var srcTodo := sourceTags;
        ghost var srcDone: set<string> := {};
        ThroughEmpty(tagIndex);
        while srcTodo != {}
          invariant srcTodo <= sourceTags && srcDone == sourceTags - srcTodo
          invariant attackableBy == Reach(tagIndex, ruleIndex, Elems(targetTags[..i])) + Through(tagIndex, srcDone)
          decreases srcTodo
        {
          var srcTag :| srcTag in srcTodo;
          ThroughAdd(tagIndex, srcDone, srcTag);
          attackableBy := attackableBy + Lookup(tagIndex, srcTag);
          srcTodo, srcDone := srcTodo - {srcTag}, srcDone + {srcTag};
        }
        assert srcDone == sourceTags;
        assert Elems(targetTags[..i + 1]) == Elems(targetTags[..i]) + {destTag} by {
          assert targetTags[..i + 1] == targetTags[..i] + [destTag];
        }
        ReachAdd(tagIndex, ruleIndex, Elems(targetTags[..i]), destTag);
      }
      assert targetTags[..|targetTags|] == targetTags;
      attackableBy := attackableBy - {vmId};
      var ids := ListOf(attackableBy);
      r := Success(ids);
      LoadedQueryMatchesSpec(Environment(data), vmId);
      TagsByIdKeys(Environment(data).vms);
      assert Valid() ==> Elems(vmIdToTags[vmId]) == SetsOf(TagsById(Environment(data).vms))[vmId];
    }
  }
}
