/**
 The three lookup maps that loading an environment builds, each defined as the
 result of processing the records one by one (later records last), and their
 characterisation in terms of the records alone.
   - TagsById:      vm_id -> tags of the last record with that id
   - IdsByTag:      tag   -> ids of every record listing that tag
   - SourcesByDest: dest  -> source tags of every rule into that dest
 */
module Indexing {
  import opened Models

  /** What `.get(k, set())` reads: the stored set, or the empty set for an absent key. */
  function Lookup(m: map<string, set<string>>, k: string): set<string>
  {
    if k in m then m[k] else {}
  }

  function Elems(s: seq<string>): set<string>
  {
    set x | x in s
  }

  lemma ElemsEmpty(xs: seq<string>)
    ensures Elems(xs) == {} <==> xs == []
  {
    if xs != [] {
      assert xs[0] in Elems(xs);
    }
  }

  /** The values of a map of lists, each turned into a set (`set(vm.tags)`). */
  function SetsOf(m: map<string, seq<string>>): (r: map<string, set<string>>)
    ensures r.Keys == m.Keys
  {
    map k | k in m :: Elems(m[k])
  }

  /** `m[k].add(x)` on a dictionary of sets whose missing entries start out empty. */
  function Add(m: map<string, set<string>>, k: string, x: string): (r: map<string, set<string>>)
    ensures r.Keys == m.Keys + {k}
    ensures Lookup(r, k) == Lookup(m, k) + {x}
    ensures forall k' :: k' != k ==> Lookup(r, k') == Lookup(m, k')
  {
    m[k := Lookup(m, k) + {x}]
  }

  /** The inner loop of a load: add `id` under each of `tags`, in order. */
  function AddToAll(m: map<string, set<string>>, tags: seq<string>, id: string): map<string, set<string>>
    decreases |tags|
  {
    if tags == [] then m
    else Add(AddToAll(m, tags[..|tags| - 1], id), tags[|tags| - 1], id)
  }

  function TagsById(vms: seq<VirtualMachine>): map<string, seq<string>>
    decreases |vms|
  {
    if vms == [] then map[]
    else
      var n := |vms| - 1;
      TagsById(vms[..n])[vms[n].vmId := vms[n].tags]
  }

  function IdsByTag(vms: seq<VirtualMachine>): map<string, set<string>>
    decreases |vms|
  {
    if vms == [] then map[]
    else
      var n := |vms| - 1;
      AddToAll(IdsByTag(vms[..n]), vms[n].tags, vms[n].vmId)
  }

  function SourcesByDest(rules: seq<FirewallRule>): map<string, set<string>>
    decreases |rules|
  {
    if rules == [] then map[]
    else
      var n := |rules| - 1;
      Add(SourcesByDest(rules[..n]), rules[n].destTag, rules[n].sourceTag)
  }

  // One more record processed: how each map grows when a load handles the next record

  lemma TagsByIdStep(vms: seq<VirtualMachine>, i: int)
    requires 0 <= i < |vms|
    ensures TagsById(vms[..i + 1]) == TagsById(vms[..i])[vms[i].vmId := vms[i].tags]
  {
    assert vms[..i + 1][..i] == vms[..i];
  }

  lemma SetsOfStep(vms: seq<VirtualMachine>, i: int)
    requires 0 <= i < |vms|
    ensures SetsOf(TagsById(vms[..i + 1])) == SetsOf(TagsById(vms[..i]))[vms[i].vmId := Elems(vms[i].tags)]
  {
    TagsByIdStep(vms, i);
  }

  lemma IdsByTagStep(vms: seq<VirtualMachine>, i: int)
    requires 0 <= i < |vms|
    ensures IdsByTag(vms[..i + 1]) == AddToAll(IdsByTag(vms[..i]), vms[i].tags, vms[i].vmId)
  {
    assert vms[..i + 1][..i] == vms[..i];
  }

  lemma AddToAllStep(m: map<string, set<string>>, tags: seq<string>, j: int, id: string)
    requires 0 <= j < |tags|
    ensures AddToAll(m, tags[..j + 1], id) == Add(AddToAll(m, tags[..j], id), tags[j], id)
  {
    assert tags[..j + 1][..j] == tags[..j];
  }

  lemma SourcesByDestStep(rules: seq<FirewallRule>, k: int)
    requires 0 <= k < |rules|
    ensures SourcesByDest(rules[..k + 1]) == Add(SourcesByDest(rules[..k]), rules[k].destTag, rules[k].sourceTag)
  {
    assert rules[..k + 1][..k] == rules[..k];
  }

  // ---------------------------------------------------------------------------
  // Reference definitions, stated on the records without any map

  function VmIds(vms: seq<VirtualMachine>): set<string>
  {
    set vm | vm in vms :: vm.vmId
  }

  function AllTags(vms: seq<VirtualMachine>): set<string>
  {
    set vm, t | vm in vms && t in vm.tags :: t
  }

  function DestTags(rules: seq<FirewallRule>): set<string>
  {
    set r | r in rules :: r.destTag
  }

  /** Some record with id `u` lists tag `t`. */
  ghost predicate Carries(vms: seq<VirtualMachine>, u: string, t: string)
  {
    exists k :: 0 <= k < |vms| && vms[k].vmId == u && t in vms[k].tags
  }

  /** Some rule goes from source tag `s` to dest tag `d`. */
  ghost predicate Permits(rules: seq<FirewallRule>, s: string, d: string)
  {
    exists j :: 0 <= j < |rules| && rules[j].sourceTag == s && rules[j].destTag == d
  }

  /** Record `i` is the last record whose id is `v`. */
  ghost predicate IsLastRecord(vms: seq<VirtualMachine>, i: int, v: string)
  {
    0 <= i < |vms| && vms[i].vmId == v && forall j :: i < j < |vms| ==> vms[j].vmId != v
  }

  ghost predicate DistinctIds(vms: seq<VirtualMachine>)
  {
    forall i, j :: 0 <= i < j < |vms| ==> vms[i].vmId != vms[j].vmId
  }

  // ---------------------------------------------------------------------------
  // The maps agree with the reference definitions

  lemma {:induction false} AddToAllLookup(m: map<string, set<string>>, tags: seq<string>, id: string, t: string)
    ensures AddToAll(m, tags, id).Keys == m.Keys + Elems(tags)
    ensures Lookup(AddToAll(m, tags, id), t) == if t in tags then Lookup(m, t) + {id} else Lookup(m, t)
    decreases |tags|
  {
    if tags != [] {
      var n := |tags| - 1;
      AddToAllLookup(m, tags[..n], id, t);
      assert tags == tags[..n] + [tags[n]];
      assert Elems(tags) == Elems(tags[..n]) + {tags[n]};
    }
  }

  /** The keys of tag_to_vm_ids are the tags some record lists. */
  lemma {:induction false} IdsByTagKeys(vms: seq<VirtualMachine>)
    ensures IdsByTag(vms).Keys == AllTags(vms)
    decreases |vms|
  {
    if vms != [] {
      var n := |vms| - 1;
      var pre := vms[..n];
      IdsByTagKeys(pre);
      AddToAllLookup(IdsByTag(pre), vms[n].tags, vms[n].vmId, "");
      assert vms == pre + [vms[n]];
      forall t | t in AllTags(vms) ensures t in AllTags(pre) + Elems(vms[n].tags) {
        var vm :| vm in vms && t in vm.tags;
        if vm != vms[n] {
          assert vm in pre;
        }
      }
    }
  }

  /** tag_to_vm_ids[t] holds exactly the ids of the records listing t. */
  lemma {:induction false} IdsByTagSpec(vms: seq<VirtualMachine>, t: string, u: string)
    ensures u in Lookup(IdsByTag(vms), t) <==> Carries(vms, u, t)
    decreases |vms|
  {
    if vms != [] {
      var n := |vms| - 1;
      var pre := vms[..n];
      IdsByTagSpec(pre, t, u);
      AddToAllLookup(IdsByTag(pre), vms[n].tags, vms[n].vmId, t);
      if Carries(vms, u, t) {
        var k :| 0 <= k < |vms| && vms[k].vmId == u && t in vms[k].tags;
        if k < n {
          assert pre[k] == vms[k];
        }
      }
      if Carries(pre, u, t) {
        var k :| 0 <= k < |pre| && pre[k].vmId == u && t in pre[k].tags;
        assert vms[k] == pre[k];
      }
    }
  }

  /** The keys of dest_tag_to_source_tags are the dest tags of the rules. */
  lemma {:induction false} SourcesByDestKeys(rules: seq<FirewallRule>)
    ensures SourcesByDest(rules).Keys == DestTags(rules)
    decreases |rules|
  {
    if rules != [] {
      var n := |rules| - 1;
      SourcesByDestKeys(rules[..n]);
      assert rules == rules[..n] + [rules[n]];
      assert DestTags(rules) == DestTags(rules[..n]) + {rules[n].destTag};
    }
  }

  /** dest_tag_to_source_tags[d] holds exactly the source tags of the rules into d. */
  lemma {:induction false} SourcesByDestSpec(rules: seq<FirewallRule>, d: string, s: string)
    ensures s in Lookup(SourcesByDest(rules), d) <==> Permits(rules, s, d)
    decreases |rules|
  {
    if rules != [] {
      var n := |rules| - 1;
      var pre := rules[..n];
      SourcesByDestSpec(pre, d, s);
      if Permits(rules, s, d) {
        var j :| 0 <= j < |rules| && rules[j].sourceTag == s && rules[j].destTag == d;
        if j < n {
          assert pre[j] == rules[j];
        }
      }
      if Permits(pre, s, d) {
        var j :| 0 <= j < |pre| && pre[j].sourceTag == s && pre[j].destTag == d;
        assert rules[j] == pre[j];
      }
    }
  }

  /** vm_id_to_tags has one key per distinct VM id. */
  lemma {:induction false} TagsByIdKeys(vms: seq<VirtualMachine>)
    ensures TagsById(vms).Keys == VmIds(vms)
    decreases |vms|
  {
    if vms != [] {
      var n := |vms| - 1;
      TagsByIdKeys(vms[..n]);
      assert vms == vms[..n] + [vms[n]];
      assert VmIds(vms) == VmIds(vms[..n]) + {vms[n].vmId};
    }
  }

  /** With duplicate ids the last record's tags are the ones stored. */
  lemma {:induction false} TagsByIdLast(vms: seq<VirtualMachine>, i: int, v: string)
    requires IsLastRecord(vms, i, v)
    ensures v in TagsById(vms) && TagsById(vms)[v] == vms[i].tags
    decreases |vms|
  {
    var n := |vms| - 1;
    if i < n {
      TagsByIdLast(vms[..n], i, v);
    }
  }

  /** Every id has a last record. */
  lemma {:induction false} LastRecordExists(vms: seq<VirtualMachine>, v: string) returns (i: int)
    requires v in VmIds(vms)
    ensures IsLastRecord(vms, i, v)
    decreases |vms|
  {
    var n := |vms| - 1;
    if vms[n].vmId == v {
      i := n;
    } else {
      assert vms == vms[..n] + [vms[n]];
      assert v in VmIds(vms[..n]);
      i := LastRecordExists(vms[..n], v);
    }
  }

  /** Ids only enter tag_to_vm_ids together with a key of vm_id_to_tags. */
  lemma IndexedIdsAreLoaded(vms: seq<VirtualMachine>, t: string, u: string)
    requires u in Lookup(IdsByTag(vms), t)
    ensures u in TagsById(vms)
  {
    IdsByTagSpec(vms, t, u);
    TagsByIdKeys(vms);
    var k :| 0 <= k < |vms| && vms[k].vmId == u && t in vms[k].tags;
    assert vms[k] in vms;
  }

  /** Appending a record keeps the ids distinct exactly when its id is new. */
  lemma DistinctIdsSnoc(vms: seq<VirtualMachine>)
    requires vms != []
    ensures DistinctIds(vms) <==> DistinctIds(vms[..|vms| - 1]) && vms[|vms| - 1].vmId !in VmIds(vms[..|vms| - 1])
  {
  }

  /** The number of distinct ids is at most the number of records, with equality exactly when no id repeats. */
  lemma {:induction false} DistinctIdCount(vms: seq<VirtualMachine>)
    ensures |VmIds(vms)| <= |vms|
    ensures |VmIds(vms)| == |vms| <==> DistinctIds(vms)
    decreases |vms|
  {
    if vms != [] {
      var n := |vms| - 1;
      var pre := vms[..n];
      DistinctIdCount(pre);
      DistinctIdsSnoc(vms);
      assert vms == pre + [vms[n]];
      assert VmIds(vms) == VmIds(pre) + {vms[n].vmId};
    }
  }
}
