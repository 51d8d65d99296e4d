/** The pid store: a map of live sidecar pids mirrored to a file, and the cleanup of orphans. */
module PidStore {
  import opened Domain

  datatype Entry = Entry(pid: nat, exe: string)

  type Entries = map<Name, Entry>

  /** Live processes with the file name of their executable image, where it can be read. */
  type Processes = map<nat, Option<string>>

  function LowerAscii(c: char): char {
    if 'A' <= c <= 'Z' then c - 'A' + 'a' else c
  }

  /** Equal but for the case of ASCII letters. */
  predicate SameExe(a: string, b: string) {
    |a| == |b| && forall i :: 0 <= i < |a| ==> LowerAscii(a[i]) == LowerAscii(b[i])
  }

  /** The same character, or an ASCII letter and its other case. */
  predicate SameLetter(a: char, b: char) {
    || a == b
    || ('A' <= a <= 'Z' && b as int == a as int + 32)
    || ('A' <= b <= 'Z' && a as int == b as int + 32)
  }

  predicate SameLetters(a: string, b: string) {
    |a| == |b| && forall i :: 0 <= i < |a| ==> SameLetter(a[i], b[i])
  }

  lemma {:induction false} LowerSame(a: char, b: char)
    ensures LowerAscii(a) == LowerAscii(b) <==> SameLetter(a, b)
  {
  }

  /** The test of the executable name, letter by letter. */
  lemma {:induction false} SameExeIs(a: string, b: string)
    ensures SameExe(a, b) <==> SameLetters(a, b)
  {
    hide LowerAscii, SameLetter;
    forall i | 0 <= i < |a| && i < |b| ensures LowerAscii(a[i]) == LowerAscii(b[i]) <==> SameLetter(a[i], b[i]) {
      LowerSame(a[i], b[i]);
    }
  }

  /** Some entry records the pid, with the name of the image that the process runs. */
  ghost predicate IsOrphan(es: Entries, live: Processes, pid: nat) {
    pid in live && live[pid].Some? && exists n :: n in es && es[n].pid == pid && SameLetters(live[pid].value, es[n].exe)
  }

  /** The recorded process is alive and still runs the recorded executable. */
  predicate IsStale(live: Processes, e: Entry) {
    e.pid in live && live[e.pid].Some? && SameExe(live[e.pid].value, e.exe)
  }

  /** The recorded pids that a cleanup kills. */
  function StalePids(es: Entries, live: Processes): set<nat> {
    set n | n in es && IsStale(live, es[n]) :: es[n].pid
  }

  class ProcessTable {
    var live: Processes

    /** kill_stale */
    method KillStale(pid: nat, exe: string) returns (killed: bool)
      modifies this
      ensures killed == IsStale(old(live), Entry(pid, exe))
      ensures killed <==> pid in old(live) && old(live)[pid].Some? && SameLetters(old(live)[pid].value, exe)
      ensures live == if killed then old(live) - {pid} else old(live)
    {
      if pid in live && live[pid].Some? {
        SameExeIs(live[pid].value, exe);
      }
      hide SameExe, SameLetters;
      killed := pid in live && live[pid].Some? && SameExe(live[pid].value, exe);
      if killed {
        live := live - {pid};
      }
    }
  }

  /** The state file; `None` when it is missing or unreadable. */
  class Disk {
    var file: Option<Entries>
  }

  class Store {
    const disk: Disk
    var entries: Entries

    /** Reads the file; a missing or damaged one counts as empty. */
    constructor Open(disk: Disk)
      ensures this.disk == disk
      ensures entries == if disk.file.Some? then disk.file.value else map[]
    {
      this.disk := disk;
      entries := if disk.file.Some? then disk.file.value else map[];
    }

    method Flush()
      modifies disk
      ensures disk.file == Some(entries)
    {
      disk.file := Some(entries);
    }

    method Record(name: Name, pid: nat, exe: string)
      modifies this, disk
      ensures entries == old(entries)[name := Entry(pid, exe)]
      ensures disk.file == Some(entries)
    {
      entries := entries[name := Entry(pid, exe)];
      Flush();
    }

    method Clear(name: Name)
      modifies this, disk
      ensures entries == old(entries) - {name}
      ensures disk.file == Some(entries)
    {
      entries := entries - {name};
      Flush();
    }

    /**
     Drains the map in arbitrary order and kills exactly the orphans; the store is empty afterwards, in
     memory and on disk. The names returned are entries of the pids killed, one for each.
     */
    method CleanupStale(table: ProcessTable) returns (cleaned: seq<Name>)
      modifies this, disk, table
      ensures table.live == old(table.live) - StalePids(old(entries), old(table.live))
      ensures forall pid :: pid in table.live <==> pid in old(table.live) && !IsOrphan(old(entries), old(table.live), pid)
      ensures forall pid :: pid in table.live ==> table.live[pid] == old(table.live)[pid]
      ensures forall n :: n in cleaned ==> n in old(entries) && IsOrphan(old(entries), old(table.live), old(entries)[n].pid)
      ensures forall pid :: IsOrphan(old(entries), old(table.live), pid) ==>
        exists i :: 0 <= i < |cleaned| && cleaned[i] in old(entries) && old(entries)[cleaned[i]].pid == pid
      ensures forall i, j :: 0 <= i < j < |cleaned| && cleaned[i] in old(entries) && cleaned[j] in old(entries) ==>
        old(entries)[cleaned[i]].pid != old(entries)[cleaned[j]].pid
      ensures entries == map[] && disk.file == Some(map[])
      ensures Accounts(cleaned, old(entries), old(table.live))
    {
      cleaned := [];
      ghost var before := table.live;
      var todo := entries.Keys;
      NothingDrained(entries, before);
      hide Accounts, StalePids, SameExe, IsStale;
      while todo != {}
        invariant todo <= entries.Keys && entries == old(entries)
        invariant table.live == before - StalePids(entries - todo, before)
        invariant Accounts(cleaned, entries - todo, before)
      {
        var name :| name in todo;
        var e := entries[name];
        DrainOne(entries, todo, name, cleaned, before);
        todo := todo - {name};
        var killed := table.KillStale(e.pid, e.exe);
        if killed {
          cleaned := cleaned + [name];
        }
      }
      assert entries - todo == entries;
      OrphansAreStale(entries, before);
      Accounted(cleaned, entries, before);
      entries := map[];
      Flush();
    }
  }

  /** One entry is drained: its process is killed if it is stale and not yet killed. */
  lemma {:induction false} DrainOne(es: Entries, todo: set<Name>, n: Name, cleaned: seq<Name>, live: Processes)
    requires n in todo && todo <= es.Keys && Accounts(cleaned, es - todo, live)
    ensures
      var now, rest := live - StalePids(es - todo, live), todo - {n};
      var kill := IsStale(now, es[n]);
      && Accounts(if kill then cleaned + [n] else cleaned, es - rest, live)
      && (if kill then now - {es[n].pid} else now) == live - StalePids(es - rest, live)
  {
    var done := es - todo;
    assert n !in done && es - (todo - {n}) == done[n := es[n]];
    StaleGrows(done, live, n, es[n]);
    StaleNow(done, live, es[n]);
    AccountsGrow(cleaned, done, live, n, es[n]);
    hide Accounts, StalePids, IsStale;
  }

  lemma {:induction false} NothingDrained(es: Entries, live: Processes)
    ensures StalePids(es - es.Keys, live) == {} && Accounts([], es - es.Keys, live)
  {
  }

  /** The names are stale entries, one for every stale pid. */
  ghost predicate Accounts(cleaned: seq<Name>, es: Entries, live: Processes) {
    && (forall n :: n in cleaned ==> n in es && IsStale(live, es[n]))
    && (forall i, j :: 0 <= i < j < |cleaned| ==> es[cleaned[i]].pid != es[cleaned[j]].pid)
    && (forall pid :: pid in StalePids(es, live) ==> exists i :: 0 <= i < |cleaned| && es[cleaned[i]].pid == pid)
  }

  /** The stale pids are the orphans. */
  lemma {:induction false} OrphansAreStale(es: Entries, live: Processes)
    ensures forall pid :: pid in StalePids(es, live) <==> IsOrphan(es, live, pid)
  {
    hide SameExe, SameLetters;
    forall n | n in es && es[n].pid in live && live[es[n].pid].Some?
      ensures SameExe(live[es[n].pid].value, es[n].exe) <==> SameLetters(live[es[n].pid].value, es[n].exe)
    {
      SameExeIs(live[es[n].pid].value, es[n].exe);
    }
  }

  lemma {:induction false} Accounted(cleaned: seq<Name>, es: Entries, live: Processes)
    requires Accounts(cleaned, es, live)
    ensures forall n :: n in cleaned ==> n in es && es[n].pid in StalePids(es, live)
    ensures forall pid :: pid in StalePids(es, live) ==>
      exists i :: 0 <= i < |cleaned| && cleaned[i] in es && es[cleaned[i]].pid == pid
    ensures forall i, j :: 0 <= i < j < |cleaned| && cleaned[i] in es && cleaned[j] in es ==>
      es[cleaned[i]].pid != es[cleaned[j]].pid
  {
    hide SameExe;
  }

  /** After the pids in `done` are killed, an entry is stale if it was and shares none of them. */
  lemma {:induction false} StaleNow(done: Entries, live: Processes, e: Entry)
    ensures
      IsStale(live - StalePids(done, live), e) <==> IsStale(live, e) && e.pid !in StalePids(done, live)
  {
  }

  lemma {:induction false} AccountsGrow(cleaned: seq<Name>, done: Entries, live: Processes, n: Name, e: Entry)
    requires n !in done && Accounts(cleaned, done, live)
    ensures Accounts(if IsStale(live, e) && e.pid !in StalePids(done, live) then cleaned + [n] else cleaned,
      done[n := e], live)
  {
    StaleGrows(done, live, n, e);
    Accounted(cleaned, done, live);
    hide StalePids, IsStale;
    var more := done[n := e];
    var now := if IsStale(live, e) && e.pid !in StalePids(done, live) then cleaned + [n] else cleaned;
    assert forall i :: 0 <= i < |cleaned| ==> now[i] == cleaned[i] && cleaned[i] in done && more[now[i]] == done[cleaned[i]];
    forall pid | pid in StalePids(more, live) ensures exists i :: 0 <= i < |now| && more[now[i]].pid == pid {
      if pid in StalePids(done, live) {
        var i :| 0 <= i < |cleaned| && done[cleaned[i]].pid == pid;
        assert more[now[i]].pid == pid;
      } else {
        assert now[|cleaned|] == n;
      }
    }
    forall i, j | 0 <= i < j < |now| ensures more[now[i]].pid != more[now[j]].pid {
      assert cleaned[i] in cleaned;
    }
  }

  lemma {:induction false} StaleGrows(done: Entries, live: Processes, n: Name, e: Entry)
    requires n !in done
    ensures StalePids(done[n := e], live) == StalePids(done, live) + if IsStale(live, e) then {e.pid} else {}
  {
    var more := done[n := e];
    forall p | p in StalePids(done, live) ensures p in StalePids(more, live) {
      var m :| m in done && IsStale(live, done[m]) && done[m].pid == p;
      assert more[m] == done[m];
    }
    if IsStale(live, e) {
      assert more[n] == e;
    }
  }
}
