# Attack-surface reachability index, in Dafny

The service answers "which VMs can reach VM *v*" over a cloud environment made
of virtual machines (an id and a list of tags) and firewall rules (a source tag
and a dest tag: VMs carrying the source tag may reach VMs carrying the dest tag).
Loading an environment builds three dictionaries:

- `vm_id_to_tags`: each VM id mapped to its tags;
- `tag_to_vm_ids`: each tag mapped to the ids of the VMs that carry it;
- `dest_tag_to_source_tags`: each dest tag mapped to the source tags of the rules into it.

A query walks them on every request. It takes the target's tags, then the source
tags of the rules into those tags, then the VMs carrying those source tags. It
unions the ids it finds and removes the target itself.

The same algorithm exists twice, and both copies are modelled:

- `Services.AttackSurfaceAnalyzer` (`app/services.py`) is an object whose load clears and
  refills its three maps. Its query returns a set, or a `ValueError("VM not found")`.
- `AttackSurface.AppState` (`app/attack_surface.py`) is the global state of the HTTP service.
  Its load stores the JSON document, resets the three maps and refills them, and sets
  `vm_count` to the number of VM records. Its handler returns a list of ids, or an
  `HTTPException(404, "VM not found")`.

Module layout:

- `models.dfy`: the records (`VirtualMachine`, `FirewallRule`, `CloudEnvironment`), `Option`,
  `Result` and the two error shapes.
- `indexing.dfy`: the three maps as functions of the record lists. Each is built one record at a
  time, exactly as the load loops do. Lemmas characterise each map by the records alone.
- `reachability.dfy`: the specification `Attackers(env, v)`. `u` is an attacker of `v` iff
  `u != v` and a rule leads from a tag of some record with id `u` into a tag stored for `v`.
  The file also defines `Reach`, the set a query computes from the maps. `QueryMatchesSpec`
  proves that the two agree on the maps a load builds.
- `services.dfy` and `attack_surface.dfy`: the two classes. Their loops are proved against those
  functions.
- `scenarios.dfy`: the test environments, and whole-object properties (reload, rule reordering).

Where the design description and the code disagree, the model follows the code:

- The design describes a per-VM attacker map precomputed at load time. Both copies of the code
  compute the answer on each query instead, and so does the model.
- The design describes validation: unique ids, required keys, length limits. The code does none.
  Duplicate VM ids are therefore modelled as the code handles them. The last record's tags are
  the ones stored for the id, while every record's tags feed `tag_to_vm_ids`.
  `Scenarios.DuplicateIdAttackers` shows the resulting asymmetry.
- The design counts VMs once. `AppState.vm_count` counts records, duplicates included, while
  `AttackSurfaceAnalyzer.vm_count` counts distinct ids.

## Model

| member | source | states |
|---|---|---|
| `Indexing.TagsByIdKeys` | app/services.py:17-18 | the keys of `vm_id_to_tags` after a load are exactly the distinct VM ids of the records |
| `Indexing.TagsByIdLast` | app/attack_surface.py:35-38 | with a repeated id, the tags stored for it are those of the last record with that id |
| `Indexing.IdsByTagKeys` | app/services.py:19-20 | the keys of `tag_to_vm_ids` are exactly the tags that some record lists |
| `Indexing.IdsByTagSpec` | app/attack_surface.py:39-40 | `u` is in `tag_to_vm_ids[t]` iff some record with id `u` lists `t`, across every record, duplicates included |
| `Indexing.SourcesByDestKeys` | app/services.py:22-23 | the keys of `dest_tag_to_source_tags` are exactly the dest tags of the rules |
| `Indexing.SourcesByDestSpec` | app/attack_surface.py:42-45 | `s` is in `dest_tag_to_source_tags[d]` iff some rule goes from `s` to `d` |
| `Indexing.IndexedIdsAreLoaded` | app/services.py:17-20 | every id stored under a tag is also a key of `vm_id_to_tags` |
| `Indexing.DistinctIdCount` | app/attack_surface.py:47 | the number of distinct ids (the analyzer's count) is at most the number of records (the HTTP state's count); the two are equal iff no id repeats |
| `Reachability.QueryMatchesSpec` | app/services.py:29-37 | on the maps a load builds, the union over the target's tags, the rules into them and the VMs carrying their sources, minus the target, is exactly `Attackers(env, v)` |
| `Reachability.LoadedQueryMatchesSpec` | app/services.py:25-38 | the same on the analyzer's set-valued map; also, the id is a key iff the specification finds it loaded |
| `Reachability.SameEdgesSameIndex` | app/services.py:22-23 | rule lists with the same (source, dest) edges, in any order or repetition, build the same `dest_tag_to_source_tags` |
| `Reachability.SameEdgesSameAttackers` | app/services.py:22-35 | the same VMs with rules reordered or repeated give every VM the same attackers |
| `Services.AttackSurfaceAnalyzer.constructor` | app/services.py:7-10 | a new analyzer holds three empty maps, those of an empty environment |
| `Services.AttackSurfaceAnalyzer.LoadEnvironment` | app/services.py:12-23 | afterwards the three maps are exactly the index functions of the new environment, whatever was loaded before |
| `Services.AttackSurfaceAnalyzer.GetAttackers` | app/services.py:25-38 | fails with "VM not found" iff the id is not a key of `vm_id_to_tags`; otherwise returns the walked union minus the id, which never contains the id; in a loaded state that is `Attackers(env, v)` and a subset of the loaded ids; changes nothing |
| `Services.AttackSurfaceAnalyzer.VmCount` | app/services.py:40-41 | in a loaded state, the number of distinct VM ids of the environment |
| `AttackSurface.ListOf` | app/attack_surface.py:84 | the list built from the result set holds each element of the set exactly once |
| `AttackSurface.AppState.constructor` | app/attack_surface.py:15-20 | the initial state is an empty document with empty maps and a count of 0, which is consistent |
| `AttackSurface.AppState.LoadEnvironment` | app/attack_surface.py:29-47 | stores the document; the maps are rebuilt from it alone, a missing "vms", "fw_rules" or "tags" counting as empty; the count is the number of VM records, duplicates included |
| `AttackSurface.AppState.GetAttack` | app/attack_surface.py:70-84 | a 404 "VM not found" iff the id is not a key of `vm_id_to_tags`; otherwise a duplicate-free list whose elements are the walked union minus the id; in a loaded state these are exactly `Attackers` of the document's environment and loaded ids; changes nothing |
| `Scenarios.SampleAttackers` | app/test_attack_surface.py:19-38 | with rules web -> db and admin -> web: vm-b is reached by {vm-a}, vm-a by {vm-c}, vm-c by nobody, and vm-unknown is not loaded |
| `Scenarios.AnalyzerOnSample` | app/test_attack_surface.py:19-46 | the analyzer object returns exactly those sets for the sample, and "VM not found" for vm-unknown |
| `Scenarios.SharedTagAttackers` | app/services.py:37 | two VMs tagged x with rule x -> x: each is reached by the other and not by itself |
| `Scenarios.DuplicateIdAttackers` | app/services.py:17-20 | a repeated id is reached through its last record's tags only, but reaches others through every record's tags |
| `Scenarios.ReloadIsIdempotent` | app/services.py:12-23 | loading the same environment twice, after anything, gives the same answer, which is a success iff the id is loaded |
| `Scenarios.ReorderedRulesSameAnswers` | app/services.py:22-23 | two analyzers loaded with the same VMs and the same rule edges, reordered or repeated, give the same answer |
| `Scenarios.AppStateDefaults` | app/attack_surface.py:35-47 | a document without "fw_rules", with an id listed twice and once without "tags", loads; counts 2; answers [] for that id and a 404 for an unknown one |

## Left out

- Reading the document from a file (`open`, `json.load`) and the startup hook that reads `ENV_PATH` and exits. The parsed document is a parameter of `AppState.LoadEnvironment`.
- Request timing, the request counter, the average-time statistics and `StatsTracker`. They involve clocks, floating point and a lock.
- FastAPI routing and JSON serialisation. The handler's result is a `Result` holding the list or the 404.
- The asynchronous worker pool of `app/async_worker.py`. It is concurrency over a library queue with timeouts.
- Validation of the environment (duplicate ids, required keys, length limits). The code performs none.
- A VM object without "vm_id", or a rule object without "source_tag" or "dest_tag". The code raises `KeyError` part-way through a load, leaving partly rebuilt maps. The document type requires these keys, so that path is not represented.
- Keys the loader never reads ("name", "fw_id") may be absent from the document. `AttackSurface.Environment` fills them with the empty string, and no map or query reads them.
- Maps are Dafny values. The model does not capture that `clear()` empties the analyzer's existing dictionary objects in place, which a holder of an old reference would see.
- Iteration order over Python sets. Each query loop picks the next tag with `:|`, so the result is proved for every order.
- The test that expects `HTTPException(404)` from an awaited `get_attackers` does not match `app/services.py`, which raises `ValueError` synchronously. The analyzer's failure is modelled as the code raises it.
