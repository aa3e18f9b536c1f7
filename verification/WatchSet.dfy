/**
 The poller's book-keeping over any sequence of calls: whether it is closed, which names it believes it
 watches, which watch goroutines it started and which of them have returned.
 */
module WatchSet {

  datatype Book = Book(closed: bool, watches: set<string>, started: seq<string>, returned: set<nat>)

  const NEW_POLLER := Book(false, {}, [], {})

  datatype Call =
    | CallAdd(name: string, found: bool)   // found: the path exists and could be read
    | CallRemove(name: string)
    | CallClose
    | Return(id: nat)                      // the id-th watch goroutine returns

  ghost predicate Enabled(b: Book, c: Call) {
    c.Return? ==> b.closed && Live(b, c.id)
  }

  ghost function Next(b: Book, c: Call): Book {
    match c
    case CallAdd(name, found) =>
      if b.closed || !found || name in b.watches then b
      else b.(watches := b.watches + {name}, started := b.started + [name])
    case CallRemove(name) => if b.closed then b else b.(watches := b.watches - {name})
    case CallClose => b.(closed := true)
    case Return(id) => b.(returned := b.returned + {id})
  }

  ghost predicate Live(b: Book, id: nat) {
    id < |b.started| && id !in b.returned
  }

  /** The goroutines that are polling a name. */
  ghost function LiveWatches(b: Book, name: string): set<nat> {
    set id | 0 <= id < |b.started| && b.started[id] == name && id !in b.returned
  }

  ghost predicate Feasible(b: Book, calls: seq<Call>)
    decreases |calls|
  {
    calls == [] || (Enabled(b, calls[0]) && Feasible(Next(b, calls[0]), calls[1..]))
  }

  ghost function After(b: Book, calls: seq<Call>): Book
    requires Feasible(b, calls)
    decreases |calls|
  {
    if calls == [] then b else After(Next(b, calls[0]), calls[1..])
  }

  lemma {:induction false} AfterAppend(b: Book, calls: seq<Call>, c: Call)
    requires Feasible(b, calls) && Enabled(After(b, calls), c)
    ensures Feasible(b, calls + [c]) && After(b, calls + [c]) == Next(After(b, calls), c)
    decreases |calls|
  {
    if calls == [] {
      assert [c][1..] == [];
    } else {
      assert (calls + [c])[1..] == calls[1..] + [c];
      AfterAppend(Next(b, calls[0]), calls[1..], c);
    }
  }

  lemma {:induction false} ReturnedWereStarted(b: Book, calls: seq<Call>)
    requires Feasible(b, calls) && forall id :: id in b.returned ==> id < |b.started|
    ensures forall id :: id in After(b, calls).returned ==> id < |After(b, calls).started|
    decreases |calls|
  {
    if calls != [] {
      ReturnedWereStarted(Next(b, calls[0]), calls[1..]);
    }
  }

  /**
   A watch ends only once the poller is closed: through any sequence of calls, Remove of its name
   included, it stays live while the poller is open, and new watches only come on top.
   */
  lemma {:induction false} WatchesSurviveUntilClosed(b: Book, calls: seq<Call>, name: string)
    requires Feasible(b, calls) && !After(b, calls).closed
    ensures !b.closed && LiveWatches(b, name) <= LiveWatches(After(b, calls), name)
    decreases |calls|
  {
    if calls != [] {
      WatchesSurviveUntilClosed(Next(b, calls[0]), calls[1..], name);
    }
  }

  /** A closed poller changes neither its set of watches nor the watches it started. */
  lemma {:induction false} ClosedIsFrozen(b: Book, calls: seq<Call>)
    requires b.closed && Feasible(b, calls)
    ensures After(b, calls) == b.(returned := After(b, calls).returned)
    decreases |calls|
  {
    if calls != [] {
      ClosedIsFrozen(Next(b, calls[0]), calls[1..]);
    }
  }

  /** How many calls took the name out of the set of watches. */
  ghost function Removals(b: Book, calls: seq<Call>, name: string): nat
    decreases |calls|
  {
    if calls == [] then 0
    else
      (if calls[0] == CallRemove(name) && !b.closed && name in b.watches then 1 else 0)
      + Removals(Next(b, calls[0]), calls[1..], name)
  }

  function Watched(b: Book, name: string): nat {
    if name in b.watches then 1 else 0
  }

  lemma StartedOneMore(b: Book, name: string, c: Call)
    requires Enabled(b, c) && !b.closed && Next(b, c).started != b.started && b.returned == {}
    ensures |LiveWatches(Next(b, c), name)| == |LiveWatches(b, name)| + if c.name == name then 1 else 0
  {
    var more := if c.name == name then {|b.started|} else {};
    assert LiveWatches(Next(b, c), name) == LiveWatches(b, name) + more;
  }

  lemma {:induction false} LiveCountRun(b: Book, calls: seq<Call>, name: string)
    requires Feasible(b, calls) && !After(b, calls).closed && b.returned == {}
    ensures |LiveWatches(After(b, calls), name)| - Watched(After(b, calls), name)
            == |LiveWatches(b, name)| - Watched(b, name) + Removals(b, calls, name)
    ensures !b.closed
    decreases |calls|
  {
    if calls != [] {
      var next := Next(b, calls[0]);
      if b.closed {
        ClosedIsFrozen(b, calls);
      }
      LiveCountRun(next, calls[1..], name);
      if next.started != b.started {
        StartedOneMore(b, name, calls[0]);
      } else {
        assert LiveWatches(next, name) == LiveWatches(b, name);
      }
    }
  }

  /**
   An open poller has one goroutine polling each name it believes it watches and none for other names
   if and only if the name was never removed; every removal leaves one goroutine too many behind.
   */
  lemma OneWatchPerNameIff(calls: seq<Call>, name: string)
    requires Feasible(NEW_POLLER, calls) && !After(NEW_POLLER, calls).closed
    ensures var b := After(NEW_POLLER, calls);
            && |LiveWatches(b, name)| == Watched(b, name) + Removals(NEW_POLLER, calls, name)
            && (|LiveWatches(b, name)| == Watched(b, name) <==> Removals(NEW_POLLER, calls, name) == 0)
  {
    LiveCountRun(NEW_POLLER, calls, name);
    assert LiveWatches(NEW_POLLER, name) == {};
  }

  /** Adding, removing and adding a name again leaves two goroutines that poll it. */
  lemma AddedTwiceIsWatchedTwice(name: string)
    ensures var calls := [CallAdd(name, true), CallRemove(name), CallAdd(name, true)];
            && Feasible(NEW_POLLER, calls) && !After(NEW_POLLER, calls).closed
            && LiveWatches(After(NEW_POLLER, calls), name) == {0, 1}
  {
    var b1 := Next(NEW_POLLER, CallAdd(name, true));
    var b2 := Next(b1, CallRemove(name));
    AfterAppend(NEW_POLLER, [], CallAdd(name, true));
    AfterAppend(NEW_POLLER, [CallAdd(name, true)], CallRemove(name));
    AfterAppend(NEW_POLLER, [CallAdd(name, true), CallRemove(name)], CallAdd(name, true));
    assert [] + [CallAdd(name, true)] == [CallAdd(name, true)];
    assert Next(b2, CallAdd(name, true)).started == [name, name];
  }
}
