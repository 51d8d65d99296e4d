/** The pid store under concurrent supervisors, and recovery after the app died. */
module Recovery {
  import opened Domain
  import opened Lifecycle
  import opened LifecycleTheorems
  import opened PidStore
  import opened Fleet
  import opened FleetInvariants
  import opened FleetRuns

  lemma {:induction false} SharedParts(f: Fleet, w: World)
    requires Inv(f, w)
    ensures Registered(f, w) && StoreOk(f, w) && FileOk(f, w) && LiveOk(f, w)
  {
  }

  lemma {:induction false} AllMirrored(f: Fleet, w: World)
    requires Registered(f, w)
    requires StoreOk(f, w) && FileOk(f, w) && forall n :: n in f.handles ==> !ViewAt(f, w, n).dirty
    ensures w.file == w.store
  {
    hide ViewAt, EntryOk;
    forall n | n in f.handles ensures n in w.file <==> n in w.store
      ensures n in w.file ==> w.file[n] == w.store[n]
    {
      assert MirrorOk(w.file, w.store, n, ViewAt(f, w, n));
    }
    assert w.file.Keys == w.store.Keys;
  }

  lemma {:induction false} RestIsClean(f: Fleet, w: World, n: Name)
    requires Registered(f, w) && n in f.handles
    requires SupsOk(f, w) && AtRest(w, n)
    ensures !ViewAt(f, w, n).dirty
  {
    SupAt(f, w, n);
  }

  /**
   The pid store under every interleaving of mutations and flushes. The map holds exactly what each
   supervisor last recorded; of each name the file holds the same unless the supervisor of that very
   name is between its mutation and its flush; and when every supervisor is at rest, the file equals
   the map.
   */
  lemma {:induction false} FileMirrorsStore(f: Fleet, acts: seq<Action>)
    requires Legal(f, Boot(f), acts)
    ensures
      var w := Reached(f, acts);
      && w.store.Keys <= f.handles.Keys && w.file.Keys <= f.handles.Keys
      && (forall n :: n in f.handles ==> EntryOk(f, w.store, n, ViewAt(f, w, n)))
      && (forall n :: n in f.handles ==> MirrorOk(w.file, w.store, n, ViewAt(f, w, n)))
      && ((forall n :: n in f.handles ==> !ViewAt(f, w, n).dirty) ==> w.file == w.store)
      && ((forall n :: n in f.handles ==> AtRest(w, n)) ==> w.file == w.store)
  {
    var w := Reached(f, acts);
    ReachedInv(f, acts);
    hide Reached, Legal;
    SharedParts(f, w);
    InvParts(f, w);
    hide Inv, SupsOk, CallersOk, CommandsOk, SharedOk, NamesOk, ViewAt, EntryOk, MirrorOk, AtRest;
    if forall n :: n in f.handles ==> AtRest(w, n) {
      forall n | n in f.handles ensures !ViewAt(f, w, n).dirty {
        RestIsClean(f, w, n);
      }
    }
    if forall n :: n in f.handles ==> !ViewAt(f, w, n).dirty {
      AllMirrored(f, w);
    }
  }

  /** In every reachable world a sidecar has at most one live direct child. */
  lemma {:induction false} OneLiveChild(f: Fleet, acts: seq<Action>, p: nat, q: nat)
    requires Legal(f, Boot(f), acts)
    requires p in Reached(f, acts).live && q in Reached(f, acts).live
    requires Reached(f, acts).live[p].owner == Reached(f, acts).live[q].owner
    ensures p == q
  {
    ReachedInv(f, acts);
    hide Reached, Legal;
    SharedParts(f, Reached(f, acts));
    hide Inv, StoreOk, FileOk;
  }

  /** The supervisor is not between spawning its child and having recorded it on disk. */
  predicate Recorded(v: View) {
    v.running.Some? ==> v.entry == v.running && !v.dirty
  }

  lemma {:induction false} LiveIsOnDisk(f: Fleet, w: World, pid: nat)
    requires Registered(f, w) && pid in w.live
    requires Inv(f, w)
    ensures w.live[pid].owner in f.handles
    ensures
      var n := w.live[pid].owner;
      Recorded(ViewAt(f, w, n)) ==> n in w.file && w.file[n] == Entry(pid, f.handles[n].exe)
  {
    SharedParts(f, w);
    hide Inv, ViewAt;
    var n := w.live[pid].owner;
    assert EntryOk(f, w.store, n, ViewAt(f, w, n));
    assert MirrorOk(w.file, w.store, n, ViewAt(f, w, n));
  }

  /**
   Crash recovery. If the app dies while a child is alive and its supervisor is not between spawn
   and record, the child is in the file. At the next launch, whatever else runs by then, the cleanup
   kills it if its image still carries the recorded executable name, and, when no other entry
   records the same pid, only then.
   */
  lemma {:induction false} CrashRecovery(f: Fleet, acts: seq<Action>, pid: nat, later: Processes)
    requires Legal(f, Boot(f), acts)
    requires pid in Reached(f, acts).live
    requires pid in later && later[pid] == Reached(f, acts).live[pid].image
    ensures
      var w := Reached(f, acts);
      var n := w.live[pid].owner;
      var image := w.live[pid].image;
      && n in f.handles
      && (Recorded(ViewAt(f, w, n)) ==>
           && n in w.file && w.file[n] == Entry(pid, f.handles[n].exe)
           && (image.Some? && SameLetters(image.value, f.handles[n].exe) ==> IsOrphan(w.file, later, pid))
           && ((forall m :: m in w.file && w.file[m].pid == pid ==> m == n) ==>
                (IsOrphan(w.file, later, pid) <==> image.Some? && SameLetters(image.value, f.handles[n].exe))))
  {
    ReachedInv(f, acts);
    var w := Reached(f, acts);
    hide Reached, Legal, SameLetters;
    LiveIsOnDisk(f, w, pid);
    hide Inv, ViewAt;
  }

  /** A healthy child is always on disk. */
  lemma {:induction false} HealthyIsRecorded(f: Fleet, acts: seq<Action>, n: Name)
    requires Legal(f, Boot(f), acts) && n in f.handles
    requires
      var v := ViewAt(f, Reached(f, acts), n);
      v.published.Healthy? || v.published.Stopping? || v.published.Backoff? || v.published.Stopped? || v.published.Failed?
    ensures Recorded(ViewAt(f, Reached(f, acts), n))
  {
    ReachedInv(f, acts);
    var w := Reached(f, acts);
    hide Reached, Legal;
    InvParts(f, w);
    hide Inv, SupsOk;
    DoneDisciplined(f, w, n);
    OwnershipHolds(f.handles[n], w.sups[n].done);
  }
}
