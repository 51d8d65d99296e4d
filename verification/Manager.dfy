/**
 The manager calls in the shape of the program. Each is proved to issue exactly the operations of
 the program that `Fleet` interleaves, and to report the error the caller is promised.
 */
module Manager {
  import opened Domain
  import opened Lifecycle
  import opened Graph
  import opened Closure
  import opened Fleet
  import opened FleetTheorems

  /** What a subscriber is going to see: the current value, then the later ones until the sender is dropped. */
  datatype Sighting = Sighting(value: State, later: seq<State>)

  function Seen(s: Sighting): seq<State> {
    [s.value] + s.later
  }

  /** The subscriber sees Healthy, and no Failed before. */
  ghost predicate TurnsHealthy(seen: seq<State>) {
    exists i :: 0 <= i < |seen| && seen[i].Healthy? && forall j :: 0 <= j < i ==> !seen[j].Failed?
  }

  /** Neither Healthy nor Failed. */
  ghost predicate Undecided(seen: seq<State>) {
    forall j :: 0 <= j < |seen| ==> !seen[j].Healthy? && !seen[j].Failed?
  }

  /** What the next value decides. */
  lemma {:induction false} Decides(seen: seq<State>, i: nat)
    requires i < |seen| && Undecided(seen[..i])
    ensures seen[i].Healthy? ==> TurnsHealthy(seen)
    ensures seen[i].Failed? ==> !TurnsHealthy(seen)
    ensures !seen[i].Healthy? && !seen[i].Failed? ==> Undecided(seen[..i + 1]) && (i + 1 == |seen| ==> !TurnsHealthy(seen))
  {
    assert forall j :: 0 <= j < i ==> seen[j] == seen[..i][j];
  }

  /** A watch receiver. */
  class Receiver {
    var value: State
    var later: seq<State>

    constructor (s: Sighting)
      ensures value == s.value && later == s.later
    {
      value := s.value;
      later := s.later;
    }

    method Changed() returns (ok: bool)
      modifies this
      ensures ok == (old(later) != [])
      ensures ok ==> value == old(later)[0] && later == old(later)[1..]
      ensures !ok ==> value == old(value) && later == old(later)
    {
      ok := later != [];
      if ok {
        value, later := later[0], later[1..];
      }
    }
  }

  /** One call in progress: the operations it has issued, and what its subscriptions will see. */
  class Session {
    const sightings: nat -> Sighting
    var issued: seq<Op>
    var awaits: nat

    constructor (sightings: nat -> Sighting)
      ensures this.sightings == sightings && issued == [] && awaits == 0
    {
      this.sightings := sightings;
      issued := [];
      awaits := 0;
    }

    /** Sends a command and waits for its acknowledgement; that the receiver is gone is ignored. */
    method Send(target: Name, kind: Kind)
      modifies this`issued
      ensures issued == old(issued) + [Post(target, kind)]
    {
      issued := issued + [Post(target, kind)];
    }

    method Subscribe(dep: Name) returns (rx: Receiver)
      modifies this
      ensures fresh(rx)
      ensures issued == old(issued) + [AwaitHealthy(dep)] && awaits == old(awaits) + 1
      ensures rx.value == sightings(old(awaits)).value && rx.later == sightings(old(awaits)).later
    {
      rx := new Receiver(sightings(awaits));
      issued, awaits := issued + [AwaitHealthy(dep)], awaits + 1;
    }

    /** The loop over the watch values, here and in every waiter of start_all. */
    method Watch(dep: Name) returns (healthy: bool)
      modifies this
      ensures issued == old(issued) + [AwaitHealthy(dep)] && awaits == old(awaits) + 1
      ensures healthy <==> TurnsHealthy(Seen(sightings(old(awaits))))
    {
      var rx := Subscribe(dep);
      ghost var seen := Seen(sightings(old(awaits)));
      ghost var i := 0;
      assert seen[1..] == rx.later;
      while true
        invariant fresh(rx) && issued == old(issued) + [AwaitHealthy(dep)] && awaits == old(awaits) + 1
        invariant i < |seen| && rx.value == seen[i] && rx.later == seen[i + 1..]
        invariant Undecided(seen[..i])
        decreases |rx.later|
      {
        Decides(seen, i);
        hide TurnsHealthy, Undecided;
        match rx.value
        case Healthy =>
          return true;
        case Failed(_) =>
          return false;
        case _ =>
          var changed := rx.Changed();
          if !changed {
            return false;
          }
          i := i + 1;
      }
    }
  }

  /** The first n awaits of the session turn out well. */
  ghost predicate AllTurnHealthy(sightings: nat -> Sighting, n: nat) {
    forall k :: 0 <= k < n ==> TurnsHealthy(Seen(sightings(k)))
  }

  /** What one waiter task of start_all captures. */
  datatype Waiter = Waiter(sidecar: Name, deps: seq<Name>)

  /** The k-th await, for dep, is the first that does not turn out well, and the last operation issued. */
  ghost predicate BreaksOffAt(sightings: nat -> Sighting, p: seq<Op>, issued: seq<Op>, dep: Name, k: nat) {
    && AllTurnHealthy(sightings, k) && !TurnsHealthy(Seen(sightings(k)))
    && |issued| == 2 * k + 2 && issued <= p && issued[2 * k + 1] == AwaitHealthy(dep)
  }

  class SidecarManager {
    const fleet: Fleet

    constructor (fleet: Fleet)
      ensures this.fleet == fleet
    {
      this.fleet := fleet;
    }

    method AwaitHealthyOf(dep: Name, dependent: Name, call: Session) returns (r: Result<(), Error>)
      modifies call
      ensures dep !in fleet.handles ==>
        r == Err(UnknownDependency(dependent, dep)) && call.issued == old(call.issued) && call.awaits == old(call.awaits)
      ensures dep in fleet.handles ==>
        && call.issued == old(call.issued) + [AwaitHealthy(dep)] && call.awaits == old(call.awaits) + 1
        && r == if TurnsHealthy(Seen(call.sightings(old(call.awaits)))) then Ok(()) else Err(DependencyFailed(dependent, dep))
    {
      if dep !in fleet.handles {
        return Err(UnknownDependency(dependent, dep));
      }
      var healthy := call.Watch(dep);
      return if healthy then Ok(()) else Err(DependencyFailed(dependent, dep));
    }

    /**
     start. Follows the program of the chain of `name`. It succeeds exactly when every await turns
     out well; otherwise it breaks off right after the first that does not, naming that member.
     */
    method Start(name: Name, call: Session) returns (r: Result<(), Error>, ghost chain: seq<Name>)
      requires ValidFleet(fleet)
      requires call.awaits == 0 && call.issued == []
      modifies call
      ensures name !in fleet.handles ==> r == Err(UnknownSidecar(name)) && call.issued == []
      ensures name in fleet.handles ==> IsChain(HandleGraph(fleet.handles), name, chain) && KeepsOrder(fleet.order, chain)
      ensures name in fleet.handles && r.Ok? ==>
        && |call.issued| == 2 * |chain| - 1
        && (forall i :: 0 <= i < |chain| ==> call.issued[2 * i] == Post(chain[i], Lifecycle.Start))
        && (forall i :: 0 <= i < |chain| - 1 ==> call.issued[2 * i + 1] == AwaitHealthy(chain[i]))
      ensures name in fleet.handles ==>
        var p := StartProgram(chain, name);
        && (r.Ok? <==> AllTurnHealthy(call.sightings, |chain| - 1))
        && (r.Ok? ==> call.issued == p)
        && (r.Err? ==>
             exists k :: 0 <= k < |chain| - 1 && r == Err(DependencyFailed(name, chain[k]))
               && BreaksOffAt(call.sightings, p, call.issued, chain[k], k))
    {
      if name !in fleet.handles {
        chain := [];
        return Err(UnknownSidecar(name)), chain;
      }
      var members := ChainFor(name, fleet.handles, fleet.order);
      chain := members;
      ghost var p := StartProgram(chain, name);
      ChainEndsWithName(HandleGraph(fleet.handles), name, chain);
      StartProgramAt(chain, name);
      hide StartProgram, IsChain, KeepsOrder;
      r := FollowChain(name, members, call);
    }

    /** The loop of start over its chain. */
    method FollowChain(name: Name, chain: seq<Name>, call: Session) returns (r: Result<(), Error>)
      requires chain != [] && forall i :: 0 <= i < |chain| ==> chain[i] in fleet.handles && (chain[i] == name <==> i == |chain| - 1)
      requires call.awaits == 0 && call.issued == []
      modifies call
      ensures r.Ok? <==> AllTurnHealthy(call.sightings, |chain| - 1)
      ensures r.Ok? ==> call.issued == StartProgram(chain, name)
      ensures r.Err? ==>
        exists k :: 0 <= k < |chain| - 1 && r == Err(DependencyFailed(name, chain[k]))
          && BreaksOffAt(call.sightings, StartProgram(chain, name), call.issued, chain[k], k)
    {
      hide TurnsHealthy, StartProgram;
      ghost var p := StartProgram(chain, name);
      assert chain[0..] == chain;
      for i := 0 to |chain|
        invariant call.awaits == (if i < |chain| then i else |chain| - 1)
        invariant |call.issued| == i + call.awaits
        invariant call.issued + StartProgram(chain[i..], name) == p
        invariant AllTurnHealthy(call.sightings, call.awaits)
      {
        StartProgramStep(chain, name, i);
        ghost var rest := StartProgram(chain[i + 1..], name);
        ghost var before := call.issued;
        call.Send(chain[i], Lifecycle.Start);
        if chain[i] != name {
          r := AwaitHealthyOf(chain[i], name, call);
          PutTogether(before, Post(chain[i], Lifecycle.Start), AwaitHealthy(chain[i]), rest);
          if r.Err? {
            return;
          }
        } else {
          assert before + ([Post(chain[i], Lifecycle.Start)] + [] + rest) == call.issued + rest;
        }
      }
      StartProgramEnds(chain, name);
      r := Ok(());
    }

    /** start_all spawns one waiter for each sidecar, in start order. */
    method StartAll() returns (waiters: seq<Waiter>)
      requires ValidFleet(fleet)
      ensures |waiters| == |fleet.order|
      ensures forall i :: 0 <= i < |fleet.order| ==>
        fleet.order[i] in fleet.handles
        && waiters[i] == Waiter(fleet.order[i], fleet.handles[fleet.order[i]].dependsOn)
    {
      waiters := [];
      for i := 0 to |fleet.order|
        invariant |waiters| == i
        invariant forall j :: 0 <= j < i ==>
          fleet.order[j] in fleet.handles
          && waiters[j] == Waiter(fleet.order[j], fleet.handles[fleet.order[j]].dependsOn)
      {
        assert fleet.order[i] in fleet.order;
        var deps := fleet.handles[fleet.order[i]].dependsOn;
        var known := [];
        for k := 0 to |deps|
          invariant known == deps[..k]
        {
          assert deps[..k + 1] == deps[..k] + [deps[k]];
          assert Edge(HandleGraph(fleet.handles), fleet.order[i], deps[k]);
          if deps[k] in fleet.handles {
            known := known + [deps[k]];
          }
        }
        assert deps[..|deps|] == deps;
        waiters := waiters + [Waiter(fleet.order[i], known)];
      }
    }

    /** A waiter posts the Start exactly when every dependency it awaits turns healthy. */
    method RunWaiter(waiter: Waiter, call: Session) returns (posted: bool)
      requires waiter.sidecar in fleet.handles && fleet.handles[waiter.sidecar].name == waiter.sidecar
      requires waiter.deps == fleet.handles[waiter.sidecar].dependsOn
      requires call.awaits == 0 && call.issued == []
      modifies call
      ensures posted <==> AllTurnHealthy(call.sightings, |waiter.deps|)
      ensures posted ==> call.issued == WaiterProgram(fleet.handles[waiter.sidecar])
      ensures posted ==>
        && |call.issued| == |waiter.deps| + 1 && call.issued[|waiter.deps|] == Post(waiter.sidecar, Lifecycle.Start)
        && forall i :: 0 <= i < |waiter.deps| ==> call.issued[i] == AwaitHealthy(waiter.deps[i])
      ensures !posted ==>
        exists k :: 0 <= k < |waiter.deps| && !TurnsHealthy(Seen(call.sightings(k)))
          && call.issued == WaiterProgram(fleet.handles[waiter.sidecar])[..k + 1]
    {
      ghost var p := WaiterProgram(fleet.handles[waiter.sidecar]);
      for i := 0 to |waiter.deps|
        invariant call.awaits == i && call.issued == p[..i] && AllTurnHealthy(call.sightings, i)
      {
        var healthy := call.Watch(waiter.deps[i]);
        assert p[..i + 1] == p[..i] + [AwaitHealthy(waiter.deps[i])];
        if !healthy {
          return false;
        }
      }
      call.Send(waiter.sidecar, Lifecycle.Start);
      assert p == p[..|waiter.deps|] + [Post(waiter.sidecar, Lifecycle.Start)];
      posted := true;
    }

    method SendTo(name: Name, kind: Kind, call: Session) returns (r: Result<(), Error>)
      modifies call
      ensures name !in fleet.handles ==> r == Err(UnknownSidecar(name)) && call.issued == old(call.issued)
      ensures name in fleet.handles ==> r == Ok(()) && call.issued == old(call.issued) + [Post(name, kind)]
    {
      if name !in fleet.handles {
        return Err(UnknownSidecar(name));
      }
      call.Send(name, kind);
      r := Ok(());
    }

    /** stop */
    method Stop(name: Name, call: Session) returns (r: Result<(), Error>)
      requires call.issued == []
      modifies call
      ensures r == if name in fleet.handles then Ok(()) else Err(UnknownSidecar(name))
      ensures if r.Ok? then IsSingle(fleet, call.issued, Lifecycle.Stop) && call.issued == [Post(name, Lifecycle.Stop)]
              else call.issued == []
    {
      r := SendTo(name, Lifecycle.Stop, call);
    }

    /** restart */
    method Restart(name: Name, call: Session) returns (r: Result<(), Error>)
      requires call.issued == []
      modifies call
      ensures r == if name in fleet.handles then Ok(()) else Err(UnknownSidecar(name))
      ensures if r.Ok? then IsSingle(fleet, call.issued, Lifecycle.Restart) && call.issued == [Post(name, Lifecycle.Restart)]
              else call.issued == []
    {
      r := SendTo(name, Lifecycle.Restart, call);
    }

    /** shutdown_all: every sidecar, against the start order. */
    method ShutdownAll(call: Session)
      requires ValidFleet(fleet) && call.issued == []
      modifies call
      ensures call.issued == ShutdownProgram(fleet.order)
      ensures |call.issued| == |fleet.order|
      ensures forall i :: 0 <= i < |fleet.order| ==> call.issued[i] == Post(fleet.order[|fleet.order| - 1 - i], Shutdown)
    {
      var n := |fleet.order|;
      ghost var p := ShutdownProgram(fleet.order);
      for i := n downto 0
        invariant call.issued == p[..n - i]
      {
        assert fleet.order[i] in fleet.order;
        if fleet.order[i] in fleet.handles {
          call.Send(fleet.order[i], Shutdown);
        }
        assert p[..n - i] == p[..n - i - 1] + [p[n - i - 1]];
      }
      assert p[..n] == p;
    }
  }

  lemma {:induction false} StartProgramStep(chain: seq<Name>, name: Name, i: nat)
    requires i < |chain|
    ensures StartProgram(chain[i..], name) ==
      [Post(chain[i], Lifecycle.Start)] + (if chain[i] != name then [AwaitHealthy(chain[i])] else [])
      + StartProgram(chain[i + 1..], name)
  {
    assert chain[i..][1..] == chain[i + 1..];
  }

  lemma {:induction false} PutTogether(before: seq<Op>, a: Op, b: Op, rest: seq<Op>)
    ensures before + ([a] + [b] + rest) == before + [a] + [b] + rest
    ensures before + [a] + [b] <= before + [a] + [b] + rest
  {
  }

  lemma {:induction false} StartProgramEnds(chain: seq<Name>, name: Name)
    ensures StartProgram(chain[|chain|..], name) == []
  {
  }

  lemma {:induction false} ChainEndsWithName(g: Graph, name: Name, chain: seq<Name>)
    requires IsChain(g, name, chain)
    ensures chain != [] && forall i :: 0 <= i < |chain| ==> (chain[i] == name <==> i == |chain| - 1)
    ensures chain[0..] == chain
    ensures forall x :: x in chain ==> x in g
  {
    hide Reaches;
  }
}
