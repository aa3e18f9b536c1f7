/**
 The polling watcher: recordings that are cleared and refilled in place, the pair of recordings an
 item swaps after every poll, and the poller that owns the channels and the set of watches.
 */
module FilePoller {
  import opened Common
  import opened Snapshots
  import opened WatchSet

  /** A Go map of file information: a heap object that aliases share. */
  class EntryTable {
    var data: Entries

    constructor ()
      ensures data == map[]
    {
      data := map[];
    }
  }

  class Recording {
    var info: Option<FileInfo>
    var entries: EntryTable?

    ghost predicate Valid()
      reads this
    {
      entries != null
    }

    ghost function Contents(): Snapshot
      reads this, entries
      requires Valid()
    {
      Snapshot(info, entries.data)
    }

    ghost function Footprint(): set<object>
      reads this
    {
      {this} + if entries == null then {} else {entries}
    }

    constructor ()
      ensures Valid() && fresh(entries) && Contents() == Snapshot(None, map[])
    {
      info := None;
      entries := new EntryTable();
    }

    method Clear()
      modifies this`info, entries
      ensures info == None
      ensures entries != null ==> entries.data == map[]
    {
      info := None;
      if entries != null {
        var keys := entries.data.Keys;
        while keys != {}
          invariant entries.data.Keys == keys && info == None
          decreases keys
        {
          var k :| k in keys;
          entries.data := entries.data - {k};
          keys := keys - {k};
        }
      }
    }

    /** Refills the recording; every outcome, errors included, leaves exactly the recorded snapshot. */
    method Record(o: Observation) returns (err: Option<string>)
      requires Valid()
      modifies this`info, entries
      ensures Valid() && Contents() == Recorded(o)
      ensures err == PollError(o)
    {
      Clear();
      if o.stat.Failed? {
        return Some(o.stat.error);
      }
      if o.stat.NotExist? {
        return None;
      }
      info := Some(o.stat.value);
      if o.stat.value.IsDir() {
        if !o.open.Got? {
          return if o.open.NotExist? then None else Some(o.open.error);
        }
        if !o.readdir.Got? {
          return if o.readdir.NotExist? then None else Some(o.readdir.error);
        }
        var fis := o.readdir.value;
        for i := 0 to |fis|
          invariant entries.data == Listing(fis[..i]) && info == Some(o.stat.value)
        {
          assert fis[..i + 1][..i] == fis[..i];
          entries.data := entries.data[fis[i].name := fis[i].info];
        }
        assert fis[..|fis|] == fis;
      }
      err := None;
    }
  }

  class ItemToWatch {
    const filename: string
    var left: Recording
    var right: Recording?

    /** The objects the item owns. */
    ghost var Repr: set<object>

    /** Both recordings are complete objects and share nothing: neither the record nor its table. */
    ghost predicate Valid()
      reads this, Repr
    {
      && this in Repr && left in Repr && Owns(left)
      && (right != null ==> right in Repr && Owns(right) && right != left && right.entries != left.entries)
    }

    ghost predicate Owns(r: Recording)
      reads this, r
    {
      r.Valid() && r.entries in Repr
    }

    /** The snapshot the next poll is compared against. */
    ghost function Before(): Snapshot
      reads this, Repr
      requires Valid()
    {
      left.Contents()
    }

    constructor (filename: string, left: Recording)
      requires left.Valid()
      ensures Valid() && this.filename == filename && this.left == left && right == null
      ensures left.entries != null && Repr == {this, left, left.entries}
    {
      this.filename := filename;
      this.left := left;
      this.right := null;
      var table: EntryTable := left.entries;
      Repr := {this, left, table};
    }

    /**
     Refills the right recording and compares. The left recording keeps its identity and contents
     even though the right one is cleared in place.
     */
    method CheckForChanges(o: Observation) returns (evs: seq<Event>, err: Option<string>)
      requires Valid()
      modifies this`right, this`Repr, if right == null then {} else right.Footprint()
      ensures Valid() && right != null && fresh(Repr - old(Repr))
      ensures left == old(left) && Before() == old(Before())
      ensures right.Contents() == Recorded(o)
      ensures err == PollError(o)
      ensures PollBatch(filename, Before(), o, evs)
    {
      if right == null {
        right := new Recording();
        Repr := Repr + {right, right.entries};
      }
      err := right.Record(o);
      if err.Some? {
        return [], err;
      }
      var dirOp := CheckChange(left.info, right.info);
      if dirOp != NoOp {
        evs := [Event(dirOp, Path(filename, None))];
        return evs, None;
      }
      if left.info.None? || !left.info.value.IsDir() {
        return [], None;
      }
      evs := CompareEntries();
    }

    /** Ranges over the larger table, in any order, and looks each name up in the other. */
    method CompareEntries() returns (evs: seq<Event>)
      requires Valid() && right != null
      requires left.Contents().IsDir() && CheckChange(left.info, right.info) == NoOp
      ensures Enumerates(evs, Reported(filename, left.Contents(), right.Contents()))
    {
      var leftIsIn := false;
      var outer, inner := left.entries, right.entries;
      if |inner.data| > |outer.data| {
        outer, inner := inner, outer;
        leftIsIn := true;
      }
      ghost var b, a := left.entries.data, right.entries.data;
      evs := [];
      var todo := outer.data.Keys;
      while todo != {}
        invariant todo <= Visited(b, a)
        invariant Distinct(evs)
        invariant forall e :: e in evs <==> e in Reported(filename, left.Contents(), right.Contents())
                                            && e.path.name.Some? && e.path.name.value !in todo
        decreases todo
      {
        var name :| name in todo;
        var fi1 := Some(outer.data[name]);
        var fi2 := Lookup(inner.data, name);
        var fil, fir := fi1, fi2;
        if leftIsIn {
          fil, fir := fir, fil;
        }
        var op := CheckChange(fil, fir);
        assert op == ChangeOf(b, a, name);
        if op != NoOp {
          var e := Event(op, Path(filename, Some(name)));
          assert e in Reported(filename, left.Contents(), right.Contents());
          assert e !in evs;
          evs := evs + [e];
        }
        todo := todo - {name};
      }
    }
  }

  /** What the receiver of a channel got, with the watch goroutine that sent it. */
  datatype Sent<+T> = Sent(watch: nat, value: T)

  function From<T>(id: nat, sent: seq<Sent<T>>): seq<T> {
    if sent == [] then []
    else
      var last := sent[|sent| - 1];
      From(id, sent[..|sent| - 1]) + if last.watch == id then [last.value] else []
  }

  lemma FromLast<T>(id: nat, sent: seq<Sent<T>>, x: Sent<T>)
    ensures From(id, sent + [x]) == From(id, sent) + if x.watch == id then [x.value] else []
  {
    assert (sent + [x])[..|sent|] == sent;
  }

  /** Of `all`, in order, a prefix has been sent since `before`; everything if complete. */
  predicate SentUpTo<T(==)>(before: seq<T>, now: seq<T>, all: seq<T>, complete: bool) {
    before <= now <= before + all && (complete ==> now == before + all)
  }

  lemma SentMore<T>(before: seq<T>, mid: seq<T>, now: seq<T>, all: seq<T>, more: seq<T>, complete: bool)
    requires SentUpTo(before, mid, all, true) && SentUpTo(mid, now, more, complete)
    ensures SentUpTo(before, now, all + more, complete)
  {
    ConcatAssociative(before, all, more);
  }

  class Poller {
    /** No goroutine but the one under study closes the poller. */
    const staysOpen: bool
    /** Other goroutines do nothing but send. */
    const alone: bool
    var closed: bool
    var watches: set<string>
    /** The names the watch goroutines were started for, in order, and the goroutines that have returned. */
    var started: seq<string>
    ghost var returned: set<nat>
    ghost var calls: seq<Call>
    var events: seq<Sent<Event>>
    var errors: seq<Sent<string>>

    ghost function Ledger(): Book
      reads this
    {
      Book(closed, watches, started, returned)
    }

    ghost predicate Valid()
      reads this
    {
      Feasible(NEW_POLLER, calls) && After(NEW_POLLER, calls) == Ledger()
    }

    /** One more call took effect, and nothing else changed. */
    twostate predicate Called(c: Call)
      reads this
    {
      && calls == old(calls) + [c]
      && Enabled(old(Ledger()), c) && Ledger() == Next(old(Ledger()), c)
    }

    /** The others' doing: a closed poller stays closed, and what others do not do does not happen. */
    twostate predicate OthersOnly()
      reads this
    {
      && (old(closed) ==> closed)
      && (staysOpen ==> closed == old(closed))
      && (alone ==> Ledger() == old(Ledger()))
    }

    /** What watch `id` sees of the others: it goes on, and its own messages are untouched. */
    twostate predicate Undisturbed(id: nat)
      reads this
    {
      && Live(Ledger(), id) && OthersOnly()
      && From(id, events) == old(From(id, events)) && From(id, errors) == old(From(id, errors))
    }

    constructor (staysOpen: bool, alone: bool)
      ensures Valid() && Ledger() == NEW_POLLER && events == [] && errors == []
      ensures this.staysOpen == staysOpen && this.alone == alone
    {
      this.staysOpen, this.alone := staysOpen, alone;
      closed, watches, started, returned := false, {}, [], {};
      calls, events, errors := [], [], [];
    }

    ghost method Record(c: Call)
      requires Feasible(NEW_POLLER, calls) && Enabled(After(NEW_POLLER, calls), c)
      requires Next(After(NEW_POLLER, calls), c) == Ledger()
      modifies this`calls
      ensures Valid() && calls == old(calls) + [c]
    {
      AfterAppend(NEW_POLLER, calls, c);
      calls := calls + [c];
    }

    /** `o` is what the file system shows at the time of the call. */
    method Add(name: string, o: Observation) returns (err: Option<string>, item: ItemToWatch?)
      requires Valid()
      modifies this`watches, this`started, this`calls
      ensures Valid() && Called(CallAdd(name, PollError(o).None? && o.stat.Got?))
      ensures err.None? <==> !closed && PollError(o).None? && o.stat.Got? && name !in old(watches)
      ensures closed ==> err == Some("poller is closed")
      ensures watches == if err.None? then old(watches) + {name} else old(watches)
      ensures err.Some? ==> started == old(started)
      ensures err.None? ==>
                && started == old(started) + [name] && Live(Ledger(), |old(started)|)
                && item != null && fresh(item) && item.Valid() && fresh(item.Repr)
                && item.filename == name && item.Before() == Recorded(o)
      ensures err.Some? ==> item == null
    {
      err, item := TryAdd(name, o);
      if err.None? {
        watches := watches + {name};
        started := started + [name];
        ReturnedWereStarted(NEW_POLLER, calls);
      }
      Record(CallAdd(name, PollError(o).None? && o.stat.Got?));
    }

    /** Everything before the entry in the set of watches. */
    method TryAdd(name: string, o: Observation) returns (err: Option<string>, item: ItemToWatch?)
      ensures err.None? <==> !closed && PollError(o).None? && o.stat.Got? && name !in watches
      ensures closed ==> err == Some("poller is closed")
      ensures err.None? ==>
                && item != null && fresh(item) && item.Valid() && fresh(item.Repr)
                && item.filename == name && item.Before() == Recorded(o)
      ensures err.Some? ==> item == null
    {
      if closed {
        return Some("poller is closed"), null;
      }
      var r := new Recording();
      err := r.Record(o);
      if err.Some? {
        return err, null;
      }
      var newItem := new ItemToWatch(name, r);
      if newItem.left.info.None? {
        return Some("file does not exist"), null;
      }
      if name in watches {
        return Some("watch exists"), null;
      }
      return None, newItem;
    }

    method Remove(name: string) returns (err: Option<string>)
      requires Valid()
      modifies this`watches, this`calls
      ensures Valid() && Called(CallRemove(name))
      ensures err == if closed then Some("poller is closed")
                     else if name !in old(watches) then Some("watch does not exist") else None
      ensures watches == if err.None? then old(watches) - {name} else old(watches)
    {
      err := TryRemove(name);
      Record(CallRemove(name));
    }

    /** The body of Remove, with the mutex held. */
    method TryRemove(name: string) returns (err: Option<string>)
      modifies this`watches
      ensures err == if closed then Some("poller is closed")
                     else if name !in old(watches) then Some("watch does not exist") else None
      ensures watches == if err.None? then old(watches) - {name} else old(watches)
    {
      if closed {
        return Some("poller is closed");
      }
      if name !in watches {
        return Some("watch does not exist");
      }
      watches := watches - {name};
      return None;
    }

    /** The loop over the watches changes nothing: closed is already set, so the removal refuses. */
    method Close()
      requires Valid()
      modifies this`closed, this`watches, this`calls
      ensures Valid() && Called(CallClose)
      ensures closed && watches == old(watches)
    {
      if !closed {
        closed := true;
        var names := watches;
        while names != {}
          invariant closed && watches == old(watches) && calls == old(calls)
          decreases names
        {
          var name :| name in names;
          var _ := TryRemove(name);
          names := names - {name};
        }
      }
      Record(CallClose);
    }

    /** Other goroutines act: callers add, remove and close, other watches send and, once closed, return. */
    method Others(id: nat)
      requires Valid() && Live(Ledger(), id)
      modifies this
      ensures Valid() && Undisturbed(id)
    {
      var steps: int := *;
      while steps > 0
        invariant Valid() && Undisturbed(id)
        decreases steps
      {
        OtherStep(id);
        steps := steps - 1;
      }
    }

    method OtherStep(id: nat)
      requires Valid() && Live(Ledger(), id)
      modifies this
      ensures Valid() && Undisturbed(id)
    {
      var step: int, other: nat, name: string := *, *, *;
      if other != id && step == 0 {
        OtherSends(id, other);
      } else if alone {
        return;
      } else if step == 1 {
        var o: Observation := *;
        var _, _ := Add(name, o);
      } else if step == 2 {
        var _ := Remove(name);
      } else if step == 3 {
        if !staysOpen {
          Close();
        }
      } else if other != id {
        OtherReturns(other);
      }
    }

    method OtherSends(id: nat, other: nat)
      requires other != id
      modifies this`events, this`errors
      ensures From(id, events) == old(From(id, events)) && From(id, errors) == old(From(id, errors))
    {
      var event: Event, error: string := *, *;
      var sendsEvent: bool := *;
      if sendsEvent {
        FromLast(id, events, Sent(other, event));
        events := events + [Sent(other, event)];
      } else {
        FromLast(id, errors, Sent(other, error));
        errors := errors + [Sent(other, error)];
      }
    }

    ghost method OtherReturns(other: nat)
      requires Valid()
      modifies this`returned, this`calls
      ensures Valid() && (Ledger() == old(Ledger()) || Called(Return(other)))
    {
      if closed && Live(Ledger(), other) {
        returned := returned + {other};
        Record(Return(other));
      }
    }

    /** The select of a send: the receiver takes the event, or the poller has been closed. */
    method SendEvent(id: nat, e: Event) returns (ok: bool)
      requires Valid() && Live(Ledger(), id)
      modifies this
      ensures Valid() && Live(Ledger(), id) && OthersOnly()
      ensures From(id, events) == old(From(id, events)) + if ok then [e] else []
      ensures From(id, errors) == old(From(id, errors))
      ensures !ok ==> closed
    {
      Others(id);
      ok := true;
      if closed {
        ok := *;
      }
      if ok {
        FromLast(id, events, Sent(id, e));
        events := events + [Sent(id, e)];
      }
    }

    method SendErr(id: nat, e: string) returns (ok: bool)
      requires Valid() && Live(Ledger(), id)
      modifies this
      ensures Valid() && Live(Ledger(), id) && OthersOnly()
      ensures From(id, errors) == old(From(id, errors)) + if ok then [e] else []
      ensures From(id, events) == old(From(id, events))
      ensures !ok ==> closed
    {
      Others(id);
      ok := true;
      if closed {
        ok := *;
      }
      if ok {
        FromLast(id, errors, Sent(id, e));
        errors := errors + [Sent(id, e)];
      }
    }

    method SendEvents(id: nat, evs: seq<Event>) returns (ok: bool)
      requires Valid() && Live(Ledger(), id)
      modifies this
      ensures Valid() && Live(Ledger(), id) && OthersOnly()
      ensures SentUpTo(old(From(id, events)), From(id, events), evs, ok)
      ensures From(id, errors) == old(From(id, errors))
      ensures !ok ==> closed
    {
      for i := 0 to |evs|
        invariant Valid() && Live(Ledger(), id) && OthersOnly()
        invariant From(id, events) == old(From(id, events)) + evs[..i]
        invariant From(id, errors) == old(From(id, errors))
      {
        ok := SendEvent(id, evs[i]);
        if !ok {
          return;
        }
        assert evs[..i] + [evs[i]] == evs[..i + 1];
      }
      assert evs[..|evs|] == evs;
      ok := true;
    }

    /** Reports a failed poll. */
    method SendPollError(id: nat, o: Observation, err: Option<string>) returns (ok: bool)
      requires Valid() && Live(Ledger(), id) && err == PollError(o)
      modifies this
      ensures Valid() && Live(Ledger(), id) && OthersOnly()
      ensures SentUpTo(old(From(id, errors)), From(id, errors), PollErrors([o]), ok)
      ensures From(id, events) == old(From(id, events))
      ensures !ok ==> closed
    {
      assert [o][..0] == [];
      ok := true;
      if err.Some? {
        ok := SendErr(id, err.value);
      }
    }

    /** One tick of the watch loop: poll, report an error, swap the recordings, send the events. */
    method Tick(id: nat, item: ItemToWatch, o: Observation) returns (ok: bool, ghost batch: seq<Event>)
      requires Valid() && Live(Ledger(), id) && item.Valid() && this !in item.Repr
      modifies this, item.Repr
      ensures Valid() && Live(Ledger(), id) && OthersOnly()
      ensures item.Valid() && this !in item.Repr && fresh(item.Repr - old(item.Repr))
      ensures ok ==> item.Before() == Recorded(o)
      ensures PollBatch(item.filename, old(item.Before()), o, batch)
      ensures SentUpTo(old(From(id, events)), From(id, events), batch, ok)
      ensures SentUpTo(old(From(id, errors)), From(id, errors), PollErrors([o]), ok)
      ensures !ok ==> closed
    {
      var evs, err := item.CheckForChanges(o);
      batch := evs;
      ok := SendPollError(id, o, err);
      if !ok {
        return;
      }
      item.left, item.right := item.right, item.left;
      ok := SendEvents(id, evs);
    }

    /** The select of the loop: the ticker fires, or the poller has been closed. */
    method AwaitTick(id: nat) returns (ok: bool)
      requires Valid() && Live(Ledger(), id)
      modifies this
      ensures Valid() && Undisturbed(id)
      ensures !ok ==> closed
    {
      Others(id);
      ok := true;
      if closed {
        ok := *;
      }
    }

    /**
     The body of the loop: the select and, unless the poller is closed, one tick. The batches and messages
     so far are extended by those of the tick.
     */
    method Round(id: nat, item: ItemToWatch, obs: seq<Observation>, polls: nat, ghost s0: Snapshot,
                 ghost batches: seq<seq<Event>>, ghost evs0: seq<Event>, ghost errs0: seq<string>)
      returns (ok: bool, ghost more: seq<seq<Event>>)
      requires Valid() && Live(Ledger(), id) && item.Valid() && this !in item.Repr
      requires polls == |batches| < |obs| && item.Before() == SnapshotBefore(s0, obs, polls)
      requires BatchesOf(item.filename, s0, obs, batches)
      requires SentFor(obs, batches, evs0, From(id, events), errs0, From(id, errors), true)
      modifies this, item.Repr
      ensures Valid() && if ok then Live(Ledger(), id) && OthersOnly() else closed && EndedBy(id)
      ensures item.Valid() && this !in item.Repr && fresh(item.Repr - old(item.Repr))
      ensures ok ==> |more| == polls + 1 && item.Before() == SnapshotBefore(s0, obs, polls + 1)
      ensures BatchesOf(item.filename, s0, obs, more)
      ensures SentFor(obs, more, evs0, From(id, events), errs0, From(id, errors), ok)
    {
      more := batches;
      ok := AwaitTick(id);
      if ok {
        ghost var evs, errs := From(id, events), From(id, errors);
        ghost var batch;
        ok, batch := Tick(id, item, obs[polls]);
        RoundDone(item.filename, s0, obs, batches, batch, evs0, evs, From(id, events),
                  errs0, errs, From(id, errors), ok);
        more := batches + [batch];
      }
      if !ok {
        Returns(id);
      }
    }

    /** Besides what others did, watch `id` has returned. */
    twostate predicate EndedBy(id: nat)
      reads this
    {
      && id in returned
      && (staysOpen ==> closed == old(closed))
      && (alone ==> Ledger() == Next(old(Ledger()), Return(id)))
    }

    ghost method Returns(id: nat)
      requires Valid() && Live(Ledger(), id) && closed
      modifies this`returned, this`calls
      ensures Valid() && Called(Return(id))
    {
      returned := returned + {id};
      Record(Return(id));
    }

    /**
     The watch loop over any finite number of ticks, while others call Add, Remove and Close at any time.
     Batch k holds exactly the differences between snapshots k-1 and k, however often the two recordings
     were refilled and swapped. The receiver gets a prefix of the batches. The loop ends only once the
     poller is closed, whatever was removed meanwhile; until then every batch and error is delivered.
     */
    method Watch(id: nat, item: ItemToWatch, obs: seq<Observation>)
      returns (ends: bool, ghost batches: seq<seq<Event>>)
      requires Valid() && Live(Ledger(), id) && item.Valid() && this !in item.Repr
      modifies this, item.Repr
      ensures Valid() && item.Valid()
      ensures BatchesOf(item.filename, old(item.Before()), obs, batches)
      ensures SentFor(obs, batches, old(From(id, events)), From(id, events),
                      old(From(id, errors)), From(id, errors), !ends)
      ensures if ends then closed && EndedBy(id) else Live(Ledger(), id) && OthersOnly() && |batches| == |obs|
      ensures staysOpen && !old(closed) ==> !ends
    {
      batches := [];
      ghost var evs0, errs0 := From(id, events), From(id, errors);
      ghost var s0 := item.Before();
      var polls := 0;
      while polls < |obs|
        invariant polls == |batches| <= |obs|
        invariant Valid() && Live(Ledger(), id) && OthersOnly()
        invariant item.Valid() && this !in item.Repr && fresh(item.Repr - old(item.Repr))
        invariant item.Before() == SnapshotBefore(s0, obs, polls)
        invariant BatchesOf(item.filename, s0, obs, batches)
        invariant SentFor(obs, batches, evs0, From(id, events), errs0, From(id, errors), true)
      {
        var ok;
        ok, batches := Round(id, item, obs, polls, s0, batches, evs0, errs0);
        if !ok {
          return true, batches;
        }
        polls := polls + 1;
      }
      ends := false;
    }
  }

  /** The messages a watch sent since `evs0` and `errs0` are those of its batches: a prefix, or all if complete. */
  predicate SentFor(obs: seq<Observation>, batches: seq<seq<Event>>, evs0: seq<Event>, evs: seq<Event>,
                    errs0: seq<string>, errs: seq<string>, complete: bool)
  {
    && |batches| <= |obs|
    && SentUpTo(evs0, evs, Flatten(batches), complete)
    && SentUpTo(errs0, errs, PollErrors(obs[..|batches|]), complete)
  }

  lemma RoundDone(root: string, s0: Snapshot, obs: seq<Observation>, batches: seq<seq<Event>>, batch: seq<Event>,
                  evs0: seq<Event>, evs: seq<Event>, evs': seq<Event>,
                  errs0: seq<string>, errs: seq<string>, errs': seq<string>, ok: bool)
    requires |batches| < |obs| && BatchesOf(root, s0, obs, batches)
    requires BatchOf(root, s0, obs, |batches|, batch)
    requires SentFor(obs, batches, evs0, evs, errs0, errs, true)
    requires SentUpTo(evs, evs', batch, ok) && SentUpTo(errs, errs', PollErrors([obs[|batches|]]), ok)
    ensures BatchesOf(root, s0, obs, batches + [batch])
    ensures SentFor(obs, batches + [batch], evs0, evs', errs0, errs', ok)
  {
    var k := |batches|;
    SentMore(evs0, evs, evs', Flatten(batches), batch, ok);
    SentMore(errs0, errs, errs', PollErrors(obs[..k]), PollErrors([obs[k]]), ok);
    BatchesExtend(root, s0, obs, batches, batch);
    PollErrorsStep(obs, k);
  }

  /**
   Remove does not stop the watch it removes: everything that changes afterwards is still reported,
   until the poller is closed.
   */
  method WatchAfterRemove(p: Poller, name: string, o: Observation, obs: seq<Observation>)
    returns (ghost batches: seq<seq<Event>>)
    requires p.Valid() && !p.closed && name !in p.watches && PollError(o).None? && o.stat.Got?
    modifies p
    ensures BatchesOf(name, Recorded(o), obs, batches)
    ensures var id := old(|p.started|);
            && (p.staysOpen ==> !p.closed)
            && (!p.closed ==>
              && Live(p.Ledger(), id)
              && |batches| == |obs|
              && From(id, p.events) == old(From(id, p.events)) + Flatten(batches)
              && From(id, p.errors) == old(From(id, p.errors)) + PollErrors(obs))
  {
    var id := |p.started|;
    var _, item := p.Add(name, o);
    var _ := p.Remove(name);
    var ends;
    ends, batches := p.Watch(id, item, obs);
    assert obs[..|obs|] == obs;
  }

  /** The errors of the failed polls, in order. */
  function PollErrors(obs: seq<Observation>): seq<string> {
    if obs == [] then []
    else
      var n := |obs| - 1;
      PollErrors(obs[..n]) + if PollError(obs[n]).Some? then [PollError(obs[n]).value] else []
  }

  /** Each failed poll contributes its error, in order. */
  lemma PollErrorsAre(obs: seq<Observation>, o: Observation)
    ensures PollErrors(obs + [o]) == PollErrors(obs) + if PollError(o).Some? then [PollError(o).value] else []
    ensures PollErrors([]) == []
  {
    assert (obs + [o])[..|obs|] == obs;
  }

  lemma PollErrorsStep(obs: seq<Observation>, k: nat)
    requires k < |obs|
    ensures PollErrors(obs[..k + 1]) == PollErrors(obs[..k]) + PollErrors([obs[k]])
  {
    assert obs[..k + 1][..k] == obs[..k];
    assert [obs[k]][..0] == [];
  }
}
