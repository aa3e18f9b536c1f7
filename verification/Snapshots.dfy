/**
 What the polling watcher sees and reports: file information, one recorded snapshot of the watched
 path, and the set of events a poll reports for a pair of snapshots.
 */
module Snapshots {
  import opened Common

  /** os.FileMode: the directory bit is part of the mode. */
  datatype FileMode = FileMode(dir: bool, bits: nat)

  datatype FileInfo = FileInfo(mode: FileMode, modTime: int, size: int) {
    predicate IsDir() {
      mode.dir
    }
  }

  datatype DirEntry = DirEntry(name: string, info: FileInfo)

  /** fsnotify.Op; NoOp is the zero value. */
  datatype Op = NoOp | Create | Remove | Chmod | Write

  /** The watched path itself (name None) or an entry of the watched directory. */
  datatype Path = Path(root: string, name: Option<string>)

  datatype Event = Event(op: Op, path: Path)

  /** Outcome of one file-system call. */
  datatype Reply<+T> = Got(value: T) | NotExist | Failed(error: string)

  /** Everything the file system answers during one poll. */
  datatype Observation = Observation(stat: Reply<FileInfo>, open: Reply<()>, readdir: Reply<seq<DirEntry>>)

  type Entries = map<string, FileInfo>

  datatype Snapshot = Snapshot(info: Option<FileInfo>, entries: Entries) {
    predicate IsDir() {
      info.Some? && info.value.IsDir()
    }
  }

  function CheckChange(fi1: Option<FileInfo>, fi2: Option<FileInfo>): Op {
    if fi1.None? && fi2.Some? then Create
    else if fi1.Some? && fi2.None? then Remove
    else if fi1.None? && fi2.None? then NoOp
    else if fi1.value.IsDir() || fi2.value.IsDir() then NoOp
    else if fi1.value.mode != fi2.value.mode then Chmod
    else if fi1.value.modTime != fi2.value.modTime || fi1.value.size != fi2.value.size then Write
    else NoOp
  }

  /** The directory listing as a map; a repeated name keeps its last entry. */
  function Listing(fis: seq<DirEntry>): Entries {
    if fis == [] then map[]
    else Listing(fis[..|fis| - 1])[fis[|fis| - 1].name := fis[|fis| - 1].info]
  }

  /** The snapshot a poll leaves behind, also when the poll fails halfway. */
  function Recorded(o: Observation): Snapshot {
    if !o.stat.Got? then Snapshot(None, map[])
    else if o.stat.value.IsDir() && o.open.Got? && o.readdir.Got? then
      Snapshot(Some(o.stat.value), Listing(o.readdir.value))
    else Snapshot(Some(o.stat.value), map[])
  }

  /** The error of a poll; "does not exist" never is one. */
  function PollError(o: Observation): Option<string> {
    if o.stat.Failed? then Some(o.stat.error)
    else if !o.stat.Got? || !o.stat.value.IsDir() then None
    else if o.open.Failed? then Some(o.open.error)
    else if o.open.Got? && o.readdir.Failed? then Some(o.readdir.error)
    else None
  }

  /** The names the comparison visits: those of the larger side, of the old one on a tie. */
  function Visited(before: Entries, after: Entries): set<string> {
    if |after| > |before| then after.Keys else before.Keys
  }

  function ChangeOf(before: Entries, after: Entries, name: string): Op {
    CheckChange(Lookup(before, name), Lookup(after, name))
  }

  /** The events of one successful poll, as a set. */
  function Reported(root: string, before: Snapshot, after: Snapshot): set<Event> {
    var dirOp := CheckChange(before.info, after.info);
    if dirOp != NoOp then {Event(dirOp, Path(root, None))}
    else if !before.IsDir() then {}
    else
      set name | name in Visited(before.entries, after.entries)
                 && ChangeOf(before.entries, after.entries, name) != NoOp
        :: Event(ChangeOf(before.entries, after.entries, name), Path(root, Some(name)))
  }

  /** The supervisor's filter on events. */
  predicate IsValidEvent(e: Event) {
    e.op == Create || e.op == Write
  }

  ghost predicate BothDirectories(before: Snapshot, after: Snapshot) {
    before.IsDir() && after.IsDir()
  }

  /** Names present on the side the comparison does not walk and absent from the side it walks. */
  function Missed(before: Entries, after: Entries): set<string> {
    before.Keys + after.Keys - Visited(before, after)
  }

  // ---------- what a poll records ----------

  /** A poll fails exactly when a call it makes fails otherwise than with "does not exist". */
  lemma PollFailsIff(o: Observation, e: string)
    ensures PollError(o) == Some(e)
            <==> || o.stat == Failed(e)
                 || (o.stat.Got? && o.stat.value.mode.dir
                     && (o.open == Failed(e) || (o.open.Got? && o.readdir == Failed(e))))
  {
  }

  /** The last entry of that name says so. */
  predicate Lists(fis: seq<DirEntry>, name: string, info: FileInfo) {
    exists i :: 0 <= i < |fis| && fis[i] == DirEntry(name, info) && NoLater(fis, i, name)
  }

  predicate NoLater(fis: seq<DirEntry>, i: int, name: string) {
    forall j :: i < j < |fis| ==> 0 <= j && fis[j].name != name
  }

  lemma {:induction false} ListingHolds(fis: seq<DirEntry>, name: string, info: FileInfo)
    ensures name in Listing(fis) && Listing(fis)[name] == info <==> Lists(fis, name, info)
  {
    if fis != [] {
      var n := |fis| - 1;
      var init := fis[..n];
      ListingHolds(init, name, info);
      if fis[n].name == name {
        assert NoLater(fis, n, name);
      } else {
        assert Lists(fis, name, info) <==> Lists(init, name, info) by {
          forall i | 0 <= i < n ensures NoLater(fis, i, name) <==> NoLater(init, i, name) {
            assert forall j :: 0 <= j < n ==> init[j] == fis[j];
          }
          assert forall i :: 0 <= i < n ==> init[i] == fis[i];
        }
      }
    }
  }

  /**
   What is recorded: the path's own information unless it could not be had, and, for a directory that
   could be read to the end, exactly its entries.
   */
  lemma RecordedHolds(o: Observation, name: string, info: FileInfo)
    ensures Recorded(o).info == if o.stat.Got? then Some(o.stat.value) else None
    ensures name in Recorded(o).entries && Recorded(o).entries[name] == info
            <==> && o.stat.Got? && o.stat.value.mode.dir && o.open.Got? && o.readdir.Got?
                 && Lists(o.readdir.value, name, info)
  {
    if o.readdir.Got? {
      ListingHolds(o.readdir.value, name, info);
    }
  }

  // ---------- detection ----------

  /** Nothing a poll can notice has changed: directories are not looked into, all else must be equal. */
  predicate LooksSame(before: FileInfo, after: FileInfo) {
    before.mode.dir || after.mode.dir || before == after
  }

  /**
   Walking only the larger side still detects every difference: a poll is silent exactly when both
   snapshots list the same names and every name looks the same. In terms of single changes: when no name
   of either snapshot changed.
   */
  lemma SilentIffUnchanged(root: string, before: Snapshot, after: Snapshot)
    requires BothDirectories(before, after)
    ensures Reported(root, before, after) == {}
            <==> && before.entries.Keys == after.entries.Keys
                 && forall name :: name in before.entries && name in after.entries ==>
                                     LooksSame(before.entries[name], after.entries[name])
    ensures Reported(root, before, after) == {}
            <==> forall name :: name in before.entries.Keys + after.entries.Keys ==>
                                  ChangeOf(before.entries, after.entries, name) == NoOp
  {
    SilentIffNoOp(root, before, after);
    var b, a := before.entries, after.entries;
    forall name | name in b.Keys + a.Keys
      ensures ChangeOf(b, a, name) == NoOp <==> name in b && name in a && LooksSame(b[name], a[name])
    {
    }
    if forall name :: name in b.Keys + a.Keys ==> ChangeOf(b, a, name) == NoOp {
      assert forall name :: name in b.Keys ==> name in a;
      assert forall name :: name in a.Keys ==> name in b;
    }
  }

  lemma SilentIffNoOp(root: string, before: Snapshot, after: Snapshot)
    requires BothDirectories(before, after)
    ensures Reported(root, before, after) == {}
            <==> forall name :: name in before.entries.Keys + after.entries.Keys ==>
                                  ChangeOf(before.entries, after.entries, name) == NoOp
  {
    var b, a := before.entries, after.entries;
    forall name | name in Visited(b, a) && ChangeOf(b, a, name) != NoOp
      ensures Event(ChangeOf(b, a, name), Path(root, Some(name))) in Reported(root, before, after)
    {
    }
    if |a| > |b| {
      LargerHasExtra(a.Keys, b.Keys);
      var extra :| extra in a.Keys && extra !in b.Keys;
      assert ChangeOf(b, a, extra) == Create;
    } else if b.Keys <= a.Keys {
      SubsetOfEqualSize(b.Keys, a.Keys);
    } else {
      var gone :| gone in b.Keys && gone !in a.Keys;
      assert ChangeOf(b, a, gone) == Remove;
    }
  }

  /** Which events a directory's entries give, in terms of the two listings alone. */
  lemma EntryEventIff(root: string, before: Snapshot, after: Snapshot, name: string, op: Op)
    requires before.IsDir() && after.info.Some?
    ensures var b, a := before.entries, after.entries;
            Event(op, Path(root, Some(name))) in Reported(root, before, after)
            <==> match op
                 case NoOp => false
                 case Create => name !in b && name in a && |a| > |b|
                 case Remove => name in b && name !in a && |a| <= |b|
                 case Chmod => && name in b && name in a && !b[name].mode.dir && !a[name].mode.dir
                               && b[name].mode != a[name].mode
                 case Write => && name in b && name in a && !b[name].mode.dir && !a[name].mode.dir
                               && b[name].mode == a[name].mode
                               && (b[name].modTime != a[name].modTime || b[name].size != a[name].size)
  {
  }

  /** Which events the watched path itself gives; when it gives one, its entries give none. */
  lemma RootEventIff(root: string, before: Snapshot, after: Snapshot, op: Op)
    ensures Event(op, Path(root, None)) in Reported(root, before, after)
            <==> match op
                 case NoOp => false
                 case Create => before.info.None? && after.info.Some?
                 case Remove => before.info.Some? && after.info.None?
                 case Chmod => && before.info.Some? && after.info.Some?
                               && !before.info.value.mode.dir && !after.info.value.mode.dir
                               && before.info.value.mode != after.info.value.mode
                 case Write => && before.info.Some? && after.info.Some?
                               && !before.info.value.mode.dir && !after.info.value.mode.dir
                               && before.info.value.mode == after.info.value.mode
                               && (before.info.value.modTime != after.info.value.modTime
                                   || before.info.value.size != after.info.value.size)
    ensures Event(op, Path(root, None)) in Reported(root, before, after) ==>
              forall e :: e in Reported(root, before, after) ==> e == Event(op, Path(root, None))
    ensures !(before.IsDir() && after.info.Some?) ==>
              forall e :: e in Reported(root, before, after) ==> e.path == Path(root, None)
  {
  }

  /** A common name whose content changed while its mode did not, directories aside. */
  predicate Rewritten(before: Entries, after: Entries, name: string) {
    && name in before && name in after
    && !before[name].IsDir() && !after[name].IsDir()
    && before[name].mode == after[name].mode
    && (before[name].modTime != after[name].modTime || before[name].size != after[name].size)
  }

  /**
   The supervisor is woken by a poll of a directory exactly when the directory has strictly more
   entries than before, or some file that stayed was rewritten without a mode change.
   */
  lemma WakesSupervisorIff(root: string, before: Snapshot, after: Snapshot)
    requires BothDirectories(before, after)
    ensures (exists e :: e in Reported(root, before, after) && IsValidEvent(e))
            <==> |after.entries| > |before.entries|
                 || exists name :: Rewritten(before.entries, after.entries, name)
  {
    var b, a := before.entries, after.entries;
    if |a| > |b| {
      LargerHasExtra(a.Keys, b.Keys);
      var extra :| extra in a.Keys && extra !in b.Keys;
      var e := Event(Create, Path(root, Some(extra)));
      assert extra in Visited(b, a) && ChangeOf(b, a, extra) == Create;
      assert e in Reported(root, before, after) && IsValidEvent(e);
    } else {
      forall name | Rewritten(b, a, name)
        ensures Event(Write, Path(root, Some(name))) in Reported(root, before, after)
      {
        assert name in Visited(b, a) && ChangeOf(b, a, name) == Write;
      }
      if exists name :: Rewritten(b, a, name) {
        var name :| Rewritten(b, a, name);
        assert IsValidEvent(Event(Write, Path(root, Some(name))));
      }
      forall e | e in Reported(root, before, after) && IsValidEvent(e)
        ensures e.path.name.Some? && Rewritten(b, a, e.path.name.value)
      {
      }
    }
  }

  // ---------- what the shortcut misses ----------

  /**
   Every change is reported exactly once and with the orientation old-to-new, except those of the
   names that only the smaller side has; those are never reported.
   */
  lemma ReportsAllButMissed(root: string, before: Snapshot, after: Snapshot, name: string, op: Op)
    requires BothDirectories(before, after)
    ensures Event(op, Path(root, Some(name))) in Reported(root, before, after)
            <==> && name !in Missed(before.entries, after.entries)
                 && op != NoOp
                 && op == ChangeOf(before.entries, after.entries, name)
    ensures name in Missed(before.entries, after.entries)
            <==> if |after.entries| > |before.entries|
                 then name in before.entries && name !in after.entries
                 else name in after.entries && name !in before.entries
  {
  }

  // ---------- replaying Create and Remove ----------

  /** A consumer that keeps a set of names in step with the events. */
  function Replay(names: set<string>, evs: seq<Event>): set<string> {
    if evs == [] then names
    else
      var prefix := Replay(names, evs[..|evs| - 1]);
      var e := evs[|evs| - 1];
      if e.path.name.None? then prefix
      else if e.op == Create then prefix + {e.path.name.value}
      else if e.op == Remove then prefix - {e.path.name.value}
      else prefix
  }

  /** At most one event per name. */
  ghost predicate OnePerName(evs: seq<Event>) {
    forall i, j :: 0 <= i < j < |evs| ==> evs[i].path != evs[j].path
  }

  ghost predicate HasEvent(evs: seq<Event>, op: Op, name: string) {
    exists i :: 0 <= i < |evs| && evs[i].op == op && evs[i].path.name == Some(name)
  }

  lemma {:induction false} ReplayMembers(root: string, names: set<string>, evs: seq<Event>, name: string)
    requires OnePerName(evs)
    requires forall i :: 0 <= i < |evs| ==> evs[i].path.root == root
    ensures name in Replay(names, evs)
            <==> (name in names && !HasEvent(evs, Remove, name)) || HasEvent(evs, Create, name)
  {
    if evs != [] {
      var init, e := evs[..|evs| - 1], evs[|evs| - 1];
      ReplayMembers(root, names, init, name);
      forall op
        ensures HasEvent(evs, op, name) <==> HasEvent(init, op, name) || (e.op == op && e.path.name == Some(name))
      {
        if HasEvent(init, op, name) {
          var i :| 0 <= i < |init| && init[i].op == op && init[i].path.name == Some(name);
          assert evs[i] == init[i];
        }
        if e.op == op && e.path.name == Some(name) {
          assert evs[|evs| - 1] == e;
        }
        if HasEvent(evs, op, name) {
          var i :| 0 <= i < |evs| && evs[i].op == op && evs[i].path.name == Some(name);
          assert i < |init| ==> init[i] == evs[i];
        }
      }
      if e.path.name == Some(name) {
        assert forall i :: 0 <= i < |init| ==> init[i] == evs[i] && init[i].path != e.path;
        assert forall op :: !HasEvent(init, op, name);
      }
    }
  }

  /** The set of events of a poll names each path once. */
  lemma ReportedOnePerName(root: string, before: Snapshot, after: Snapshot, evs: seq<Event>)
    requires Enumerates(evs, Reported(root, before, after))
    ensures OnePerName(evs)
    ensures forall i :: 0 <= i < |evs| ==> evs[i].path.root == root
  {
    forall i, j | 0 <= i < j < |evs| ensures evs[i].path != evs[j].path {
      assert evs[i] in Reported(root, before, after) && evs[j] in Reported(root, before, after);
    }
    forall i | 0 <= i < |evs| ensures evs[i].path.root == root {
      assert evs[i] in Reported(root, before, after);
    }
  }

  lemma HasEventIff(root: string, before: Snapshot, after: Snapshot, evs: seq<Event>, op: Op, name: string)
    requires BothDirectories(before, after)
    requires Enumerates(evs, Reported(root, before, after))
    requires op != NoOp
    ensures HasEvent(evs, op, name)
            <==> name in Visited(before.entries, after.entries) && ChangeOf(before.entries, after.entries, name) == op
  {
    ReportedOnePerName(root, before, after, evs);
    ReportsAllButMissed(root, before, after, name, op);
    var e := Event(op, Path(root, Some(name)));
    if HasEvent(evs, op, name) {
      var i :| 0 <= i < |evs| && evs[i].op == op && evs[i].path.name == Some(name);
      assert evs[i] == e;
    }
    if e in evs {
      var i :| 0 <= i < |evs| && evs[i] == e;
    }
  }

  /**
   Replaying one poll, in whatever order its events came, turns the old names into the union of both
   snapshots when the directory grew and into their intersection otherwise.
   */
  lemma ReplayOnePoll(root: string, before: Snapshot, after: Snapshot, evs: seq<Event>)
    requires BothDirectories(before, after)
    requires Enumerates(evs, Reported(root, before, after))
    ensures Replay(before.entries.Keys, evs)
            == if |after.entries| > |before.entries| then before.entries.Keys + after.entries.Keys
               else before.entries.Keys * after.entries.Keys
  {
    var b, a := before.entries, after.entries;
    var expected := if |a| > |b| then b.Keys + a.Keys else b.Keys * a.Keys;
    forall name ensures name in Replay(b.Keys, evs) <==> name in expected {
      ReportedOnePerName(root, before, after, evs);
      ReplayMembers(root, b.Keys, evs, name);
      HasEventIff(root, before, after, evs, Create, name);
      HasEventIff(root, before, after, evs, Remove, name);
    }
  }

  ghost predicate Nested(b: set<string>, a: set<string>) {
    b <= a || a <= b
  }

  /** The replay of one poll is exact if and only if one snapshot's names contain the other's. */
  lemma ReplayExactIffNested(root: string, before: Snapshot, after: Snapshot, evs: seq<Event>)
    requires BothDirectories(before, after)
    requires Enumerates(evs, Reported(root, before, after))
    ensures Replay(before.entries.Keys, evs) == after.entries.Keys <==> Nested(before.entries.Keys, after.entries.Keys)
  {
    var b, a := before.entries.Keys, after.entries.Keys;
    ReplayOnePoll(root, before, after, evs);
    if Nested(b, a) {
      if |a| > |b| {
        if a <= b { SubsetIsNoLarger(a, b); }
      } else if b <= a {
        SubsetOfEqualSize(b, a);
      }
    }
  }

  lemma {:induction false} ReplayAppend(names: set<string>, evs: seq<Event>, more: seq<Event>)
    ensures Replay(names, evs + more) == Replay(Replay(names, evs), more)
  {
    if more == [] {
      assert evs + more == evs;
    } else {
      var init := more[..|more| - 1];
      ReplayAppend(names, evs, init);
      assert (evs + more)[..|evs + more| - 1] == evs + init;
    }
  }

  // ---------- runs ----------

  /** The snapshot polls are compared against before poll k of a run that started from s0. */
  function SnapshotBefore(s0: Snapshot, obs: seq<Observation>, k: nat): Snapshot
    requires k <= |obs|
  {
    if k == 0 then s0 else Recorded(obs[k - 1])
  }

  /** What one poll may send on the event channel. */
  ghost predicate PollBatch(root: string, before: Snapshot, o: Observation, batch: seq<Event>) {
    if PollError(o).Some? then batch == [] else Enumerates(batch, Reported(root, before, Recorded(o)))
  }

  ghost predicate BatchOf(root: string, s0: Snapshot, obs: seq<Observation>, k: nat, batch: seq<Event>)
    requires k < |obs|
  {
    PollBatch(root, SnapshotBefore(s0, obs, k), obs[k], batch)
  }

  ghost predicate BatchesOf(root: string, s0: Snapshot, obs: seq<Observation>, batches: seq<seq<Event>>) {
    && |batches| <= |obs|
    && forall k :: 0 <= k < |batches| ==> BatchOf(root, s0, obs, k, batches[k])
  }

  lemma BatchesExtend(root: string, s0: Snapshot, obs: seq<Observation>, batches: seq<seq<Event>>, batch: seq<Event>)
    requires BatchesOf(root, s0, obs, batches) && |batches| < |obs|
    requires BatchOf(root, s0, obs, |batches|, batch)
    ensures BatchesOf(root, s0, obs, batches + [batch])
    ensures Flatten(batches + [batch]) == Flatten(batches) + batch
  {
    var more := batches + [batch];
    FlattenAppend(batches, batch);
    forall k | 0 <= k < |more| ensures BatchOf(root, s0, obs, k, more[k]) {
      if k < |batches| {
        assert BatchOf(root, s0, obs, k, batches[k]);
        assert more[k] == batches[k];
      } else {
        assert more[k] == batch;
      }
    }
  }

  /** Every poll of the run lists the directory, and neighbouring listings are nested. */
  ghost predicate NestedRun(s0: Snapshot, obs: seq<Observation>) {
    && s0.IsDir()
    && (forall k :: 0 <= k < |obs| ==> PollError(obs[k]).None? && Recorded(obs[k]).IsDir())
    && (forall k :: 0 <= k < |obs| ==>
                      Nested(SnapshotBefore(s0, obs, k).entries.Keys, Recorded(obs[k]).entries.Keys))
  }

  lemma RunPrefix(root: string, s0: Snapshot, obs: seq<Observation>, batches: seq<seq<Event>>, n: nat)
    requires NestedRun(s0, obs)
    requires |batches| == |obs| && BatchesOf(root, s0, obs, batches)
    requires n <= |obs|
    ensures NestedRun(s0, obs[..n]) && BatchesOf(root, s0, obs[..n], batches[..n])
  {
    forall k | 0 <= k < n
      ensures SnapshotBefore(s0, obs[..n], k) == SnapshotBefore(s0, obs, k)
      ensures BatchOf(root, s0, obs[..n], k, batches[..n][k])
    {
      assert BatchOf(root, s0, obs, k, batches[k]);
    }
  }

  lemma LastPoll(s0: Snapshot, obs: seq<Observation>)
    requires NestedRun(s0, obs) && obs != []
    ensures var n := |obs| - 1;
            && SnapshotBefore(s0, obs, n).IsDir() && PollError(obs[n]).None? && Recorded(obs[n]).IsDir()
            && Nested(SnapshotBefore(s0, obs, n).entries.Keys, Recorded(obs[n]).entries.Keys)
            && SnapshotBefore(s0, obs[..n], n) == SnapshotBefore(s0, obs, n)
  {
  }

  /** One more poll of nested listings keeps the replayed names in step. */
  lemma ReplayStep(root: string, before: Snapshot, o: Observation, names: set<string>, evs: seq<Event>,
                   batch: seq<Event>)
    requires before.IsDir() && PollError(o).None? && Recorded(o).IsDir()
    requires Nested(before.entries.Keys, Recorded(o).entries.Keys)
    requires PollBatch(root, before, o, batch)
    requires Replay(names, evs) == before.entries.Keys
    ensures Replay(names, evs + batch) == Recorded(o).entries.Keys
  {
    ReplayExactIffNested(root, before, Recorded(o), batch);
    ReplayAppend(names, evs, batch);
  }

  /** Over a whole run of nested listings, replaying all batches in order yields the current names. */
  lemma {:induction false} ReplayRun(root: string, s0: Snapshot, obs: seq<Observation>, batches: seq<seq<Event>>)
    requires NestedRun(s0, obs)
    requires |batches| == |obs| && BatchesOf(root, s0, obs, batches)
    ensures Replay(s0.entries.Keys, Flatten(batches)) == SnapshotBefore(s0, obs, |obs|).entries.Keys
  {
    if obs != [] {
      var n := |obs| - 1;
      var before := SnapshotBefore(s0, obs, n);
      RunPrefix(root, s0, obs, batches, n);
      ReplayRun(root, s0, obs[..n], batches[..n]);
      LastPoll(s0, obs);
      assert BatchOf(root, s0, obs, n, batches[n]);
      ReplayStep(root, before, obs[n], s0.entries.Keys, Flatten(batches[..n]), batches[n]);
    }
  }

  /**
   However many polls failed, the first successful poll that lists a non-empty directory sends at
   least one Create: the failed poll left a snapshot with no listing behind.
   */
  lemma RecoveryCreates(root: string, s0: Snapshot, obs: seq<Observation>, k: nat, batch: seq<Event>)
    requires 0 < k < |obs| && PollError(obs[k - 1]).Some?
    requires PollError(obs[k]).None? && Recorded(obs[k]).IsDir() && Recorded(obs[k]).entries != map[]
    requires BatchOf(root, s0, obs, k, batch)
    ensures exists e :: e in batch && e.op == Create
    ensures Recorded(obs[k - 1]).info.Some? ==>
              forall name :: Event(Create, Path(root, Some(name))) in batch <==> name in Recorded(obs[k]).entries
  {
    var before, after := Recorded(obs[k - 1]), Recorded(obs[k]);
    var reported := Reported(root, before, after);
    assert before.entries == map[];
    if before.info.None? {
      assert Event(Create, Path(root, None)) in reported;
    } else {
      assert BothDirectories(before, after);
      var name :| name in after.entries;
      assert |after.entries| > 0 by {
        assert after.entries.Keys != {};
      }
      assert Event(Create, Path(root, Some(name))) in reported;
    }
  }
}
