/**
 The example environments of the service's tests, and whole-object properties
 of the analyzer: a reload, or a reordered rule list, leaves every answer as it was.
 */
module Scenarios {
  import opened Models
  import opened Indexing
  import opened Reachability
  import opened Services
  import AttackSurface

  /** Three VMs tagged web, db and admin; rules web -> db and admin -> web. */
  function Sample(): CloudEnvironment
  {
    CloudEnvironment(
      [VirtualMachine("vm-a", "web", ["web"]),
       VirtualMachine("vm-b", "db", ["db"]),
       VirtualMachine("vm-c", "admin", ["admin"])],
      [FirewallRule("fw-1", "web", "db"),
       FirewallRule("fw-2", "admin", "web")])
  }

  lemma SampleIds()
    ensures VmIds(Sample().vms) == {"vm-a", "vm-b", "vm-c"}
  {
  }

  /** In the sample, no pair other than (vm-a, vm-b) and (vm-c, vm-a) is an attack. */
  lemma SampleOnlyAttacks(u: string, v: string)
    requires CanAttack(Sample(), u, v)
    ensures (u == "vm-a" && v == "vm-b") || (u == "vm-c" && v == "vm-a")
  {
  }

  /** In the sample, exactly vm-a reaches vm-b and vm-c reaches vm-a. */
  lemma SampleCanAttack(u: string, v: string)
    ensures CanAttack(Sample(), u, v) <==> (u == "vm-a" && v == "vm-b") || (u == "vm-c" && v == "vm-a")
  {
    var vms, rules := Sample().vms, Sample().fwRules;
    if CanAttack(Sample(), u, v) {
      SampleOnlyAttacks(u, v);
    }
    if u == "vm-a" && v == "vm-b" {
      assert IsLastRecord(vms, 1, v) && rules[0].destTag in vms[1].tags;
      assert vms[0].vmId == u && rules[0].sourceTag in vms[0].tags;
    }
    if u == "vm-c" && v == "vm-a" {
      assert IsLastRecord(vms, 0, v) && rules[1].destTag in vms[0].tags;
      assert vms[2].vmId == u && rules[1].sourceTag in vms[2].tags;
    }
  }

  /** The attackers of a loaded VM are `expected` once each loaded id is decided. */
  lemma AttackersAre(env: CloudEnvironment, v: string, expected: set<string>)
    requires v in VmIds(env.vms) && expected <= VmIds(env.vms)
    requires forall u :: u in VmIds(env.vms) ==> (CanAttack(env, u, v) <==> u in expected)
    ensures Attackers(env, v) == Some(expected)
  {
    assert (set u | u in VmIds(env.vms) && CanAttack(env, u, v)) == expected;
  }

  lemma SampleAttackersOf(v: string, expected: set<string>)
    requires v in {"vm-a", "vm-b", "vm-c"}
    requires expected == if v == "vm-b" then {"vm-a"} else if v == "vm-a" then {"vm-c"} else {}
    ensures Attackers(Sample(), v) == Some(expected)
  {
    SampleIds();
    forall u ensures CanAttack(Sample(), u, v) <==> u in expected { SampleCanAttack(u, v); }
    AttackersAre(Sample(), v, expected);
  }

  /** The analyzer test's expectations, stated on the specification. */
  lemma SampleAttackers()
    ensures Attackers(Sample(), "vm-b") == Some({"vm-a"})
    ensures Attackers(Sample(), "vm-a") == Some({"vm-c"})
    ensures Attackers(Sample(), "vm-c") == Some({})
    ensures Attackers(Sample(), "vm-unknown") == None
  {
    SampleIds();
    SampleAttackersOf("vm-b", {"vm-a"});
    SampleAttackersOf("vm-a", {"vm-c"});
    SampleAttackersOf("vm-c", {});
  }

  /** Two VMs tagged x and the rule x -> x: each reaches the other, neither itself. */
  function SharedTag(): CloudEnvironment
  {
    CloudEnvironment(
      [VirtualMachine("vm-1", "one", ["x"]), VirtualMachine("vm-2", "two", ["x"])],
      [FirewallRule("fw-1", "x", "x")])
  }

  lemma SharedTagAttackers()
    ensures Attackers(SharedTag(), "vm-1") == Some({"vm-2"})
    ensures Attackers(SharedTag(), "vm-2") == Some({"vm-1"})
  {
    var env := SharedTag();
    var vms, rules := env.vms, env.fwRules;
    assert VmIds(vms) == {"vm-1", "vm-2"} by {
      assert vms[0] in vms && vms[1] in vms;
    }
    assert IsLastRecord(vms, 0, "vm-1") && IsLastRecord(vms, 1, "vm-2");
    assert rules[0].destTag in vms[0].tags && rules[0].destTag in vms[1].tags;
    assert vms[1].vmId == "vm-2" && rules[0].sourceTag in vms[1].tags;
    assert vms[0].vmId == "vm-1" && rules[0].sourceTag in vms[0].tags;
    assert CanAttack(env, "vm-2", "vm-1") && CanAttack(env, "vm-1", "vm-2");
    assert (set u | u in VmIds(vms) && CanAttack(env, u, "vm-1")) == {"vm-2"};
    assert (set u | u in VmIds(vms) && CanAttack(env, u, "vm-2")) == {"vm-1"};
  }

  /** vm-1 listed twice, first with tag a, then with tag b; vm-2 tagged c; rules c -> a and a -> c.
      The stored tags of vm-1 are the last record's (b), so nothing reaches it,
      while its first record still puts it under a, so it reaches vm-2. */
  function DuplicateId(): CloudEnvironment
  {
    CloudEnvironment(
      [VirtualMachine("vm-1", "first", ["a"]),
       VirtualMachine("vm-1", "second", ["b"]),
       VirtualMachine("vm-2", "other", ["c"])],
      [FirewallRule("fw-1", "c", "a"), FirewallRule("fw-2", "a", "c")])
  }

  lemma DuplicateIdAttackers()
    ensures Attackers(DuplicateId(), "vm-1") == Some({})
    ensures Attackers(DuplicateId(), "vm-2") == Some({"vm-1"})
  {
    var env := DuplicateId();
    var vms, rules := env.vms, env.fwRules;
    assert VmIds(vms) == {"vm-1", "vm-2"} by {
      assert vms[0] in vms && vms[2] in vms;
    }
    forall u ensures !CanAttack(env, u, "vm-1") {
      forall i, j | IsLastRecord(vms, i, "vm-1") && 0 <= j < |rules|
        ensures rules[j].destTag !in vms[i].tags
      {
        assert vms[1].vmId == "vm-1" && vms[2].vmId != "vm-1";
        assert i == 1;
      }
    }
    assert IsLastRecord(vms, 2, "vm-2") && rules[1].destTag in vms[2].tags;
    assert vms[0].vmId == "vm-1" && rules[1].sourceTag in vms[0].tags;
    assert CanAttack(env, "vm-1", "vm-2");
    assert (set u | u in VmIds(vms) && CanAttack(env, u, "vm-1")) == {};
    assert (set u | u in VmIds(vms) && CanAttack(env, u, "vm-2")) == {"vm-1"};
  }

  // ---------------------------------------------------------------------------
  // The analyzer object

  /** The analyzer tests: load the sample, then query three VMs and an unknown id. */
  method AnalyzerOnSample() returns (b: Result<set<string>>, a: Result<set<string>>,
                                     c: Result<set<string>>, unknown: Result<set<string>>)
    ensures b == Success({"vm-a"}) && a == Success({"vm-c"}) && c == Success({})
    ensures unknown == Failure(ValueError(NotFoundMessage))
  {
    var analyzer := new AttackSurfaceAnalyzer();
    analyzer.LoadEnvironment(Sample());
    SampleAttackers();
    b := analyzer.GetAttackers("vm-b");
    a := analyzer.GetAttackers("vm-a");
    c := analyzer.GetAttackers("vm-c");
    unknown := analyzer.GetAttackers("vm-unknown");
  }

  /** Loading the same environment again gives the same answer, whatever was loaded before. */
  method ReloadIsIdempotent(first: CloudEnvironment, env: CloudEnvironment, v: string)
    returns (once: Result<set<string>>, twice: Result<set<string>>)
    ensures once == twice
    ensures once.Success? <==> v in VmIds(env.vms)
  {
    var analyzer := new AttackSurfaceAnalyzer();
    analyzer.LoadEnvironment(first);
    analyzer.LoadEnvironment(env);
    once := analyzer.GetAttackers(v);
    analyzer.LoadEnvironment(env);
    twice := analyzer.GetAttackers(v);
  }

  /** Two analyzers loaded with the same VMs and the same rule edges, in any order
      and with any repetition, answer every query alike. */
  method ReorderedRulesSameAnswers(env: CloudEnvironment, env': CloudEnvironment, v: string)
    returns (r: Result<set<string>>, r': Result<set<string>>)
    requires env.vms == env'.vms && Edges(env.fwRules) == Edges(env'.fwRules)
    ensures r == r'
  {
    var analyzer := new AttackSurfaceAnalyzer();
    analyzer.LoadEnvironment(env);
    r := analyzer.GetAttackers(v);
    var analyzer' := new AttackSurfaceAnalyzer();
    analyzer'.LoadEnvironment(env');
    r' := analyzer'.GetAttackers(v);
    SameEdgesSameAttackers(env, env', v);
  }

  /** The HTTP variant on a document with no "fw_rules" key, vm-1 listed twice (once without
      "tags"): the load succeeds, the count includes the repeat, and nothing reaches vm-1. */
  method AppStateDefaults() returns (count: nat, r: Result<seq<string>>, unknown: Result<seq<string>>)
    ensures count == 2
    ensures r == Success([])
    ensures unknown == Failure(HttpException(404, NotFoundMessage))
  {
    var doc := AttackSurface.Document(
      Some([AttackSurface.VmObject("vm-1", None, None),
            AttackSurface.VmObject("vm-1", Some("again"), Some(["web"]))]),
      None);
    var state := new AttackSurface.AppState();
    state.LoadEnvironment(doc);
    count := state.vmCount;
    var env := AttackSurface.Environment(doc);
    assert env.vms[1] in env.vms;
    assert VmIds(env.vms) == {"vm-1"};
    assert env.fwRules == [];
    assert (set u | u in VmIds(env.vms) && CanAttack(env, u, "vm-1")) == {};
    r := state.GetAttack("vm-1");
    ElemsEmpty(r.value);
    unknown := state.GetAttack("vm-unknown");
  }
}
