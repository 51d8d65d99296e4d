/** Launching the fleet: validation, cleanup of orphans, registration. */
module Launch {
  import opened Domain
  import opened Graph
  import opened OrderRule
  import opened Ordering
  import opened Closure
  import opened PidStore
  import opened Fleet

  /** The graph of the registered handles is the graph of the configuration list. */
  lemma {:induction false} SameGraph(configs: seq<Config>, handles: Handles)
    requires DistinctNames(configs)
    requires handles.Keys == NamesOf(configs)
    requires forall c :: c in configs ==> c.name in handles && handles[c.name] == c
    ensures HandleGraph(handles) == GraphOf(configs)
  {
    forall n | n in handles ensures HandleGraph(handles)[n] == DepsOf(configs, n) {
      var c :| c in configs && c.name == n;
      assert handles[n] == c;
      forall d | d in DepsOf(configs, n) ensures d in c.dependsOn {
        var e :| e in configs && e.name == n && d in e.dependsOn;
        assert handles[e.name] == e;
      }
    }
  }

  lemma {:induction false} KnownIsSelfContained(configs: seq<Config>)
    requires Known(configs)
    ensures SelfContained(GraphOf(configs))
  {
    var g := GraphOf(configs);
    forall n | n in g ensures g[n] <= g.Keys {
      forall d | d in g[n] ensures d in g.Keys {
        var c :| c in configs && c.name == n && d in c.dependsOn;
        assert d in NamesOf(configs);
      }
    }
  }

  /** Stores every configuration under its name. */
  method Register(configs: seq<Config>) returns (handles: Handles)
    requires DistinctNames(configs)
    ensures handles.Keys == NamesOf(configs)
    ensures forall c :: c in configs ==> c.name in handles && handles[c.name] == c
    ensures forall n :: n in handles ==> handles[n].name == n
  {
    handles := map[];
    for i := 0 to |configs|
      invariant handles.Keys == NamesOf(configs[..i])
      invariant forall j :: 0 <= j < i ==> configs[j].name in handles && handles[configs[j].name] == configs[j]
      invariant forall n :: n in handles ==> handles[n].name == n
    {
      assert configs[..i + 1] == configs[..i] + [configs[i]];
      handles := handles[configs[i].name := configs[i]];
    }
    assert configs[..|configs|] == configs;
  }

  /**
   launch. Outside an async runtime, or with a configuration that cannot be ordered, nothing is
   touched. Otherwise exactly the stale pids of the state file are killed, the file is emptied, and
   a valid fleet is returned; no child has been spawned yet.
   */
  method LaunchFleet(inRuntime: bool, configs: seq<Config>, disk: Disk, table: ProcessTable)
    returns (r: Result<Fleet, Error>)
    modifies disk, table
    ensures !inRuntime ==> r == Err(NoAsyncRuntime)
    ensures inRuntime ==> (r.Ok? <==> DistinctNames(configs) && Known(configs) && Acyclic(GraphOf(configs)))
    ensures inRuntime && !Known(configs) ==> r.Err? && r.error.UnknownDependency?
    ensures inRuntime && r.Err? ==> r.error.UnknownDependency? || r.error.DependencyCycle?
    ensures r.Err? && r.error.UnknownDependency? ==> FirstUnknown(configs, r.error.dependent, r.error.dep)
    ensures r.Err? && r.error.DependencyCycle? ==>
      Known(configs) &&
      if Acyclic(GraphOf(configs)) then !DistinctNames(configs) && r.error.name == ""
      else r.error.name in NamesOf(configs) && ReachesCycle(GraphOf(configs), r.error.name)
    ensures r.Err? ==> disk.file == old(disk.file) && table.live == old(table.live)
    ensures r.Ok? ==> ValidFleet(r.value) && r.value.handles.Keys == NamesOf(configs)
    ensures r.Ok? ==> forall c :: c in configs ==> r.value.handles[c.name] == c
    ensures r.Ok? ==> FollowsRule(GraphOf(configs), NameList(configs), r.value.order)
    ensures r.Ok? ==> r.value.order == KahnOrder(configs)
    ensures r.Ok? ==>
      var recorded := if old(disk.file).Some? then old(disk.file).value else map[];
      && disk.file == Some(map[])
      && (forall pid :: pid in table.live <==> pid in old(table.live) && !IsOrphan(recorded, old(table.live), pid))
      && (forall pid :: pid in table.live ==> table.live[pid] == old(table.live)[pid])
  {
    if !inRuntime {
      return Err(NoAsyncRuntime);
    }
    var sorted := TopoSort(configs);
    if sorted.Err? {
      return Err(sorted.error);
    }
    hide KahnOrder, StalePids, IsOrphan, Acyclic, Topological, Accounts, FollowsRule, NameList;
    var store := new Store.Open(disk);
    var cleaned := store.CleanupStale(table);
    var handles := Register(configs);
    SameGraph(configs, handles);
    KnownIsSelfContained(configs);
    r := Ok(Fleet(handles, sorted.value));
  }
}
