/**
 The API server as the FluentBit reconciler meets it: before every call users act, and every call may
 fail, before or after it took effect. A ghost log records each change of the cluster.
 */
module ApiServer {
  import opened Common
  import opened Finalizers
  import opened Cluster

  datatype ApiError = NotFound | Conflict | AlreadyExists | Other

  /** The reconciler's writes for the FluentBit at key k. */
  datatype WorkerOp =
    | StoreFluentBit(read: FluentBit, finalizers: seq<string>)  // Update of the object that was read
    | AddRole(role: RbacKey)
    | AddServiceAccount(uid: nat)
    | AddBinding(binding: RbacKey)
    | AddDaemonSet(ds: DaemonSet)
    | PatchDaemonSet(before: DaemonSet, after: DaemonSet)
    | RemoveServiceAccount
    | RemoveDaemonSet

  function ErrorOf(s: State, k: Key, op: WorkerOp): Option<ApiError> {
    match op
    case StoreFluentBit(read, _) =>
      if k !in s.fluentBits then Some(NotFound)
      else if s.fluentBits[k].version != read.version then Some(Conflict)
      else None
    case AddRole(role) => if role in s.roles then Some(AlreadyExists) else None
    case AddServiceAccount(_) => if k in s.serviceAccounts then Some(AlreadyExists) else None
    case AddBinding(binding) => if binding in s.bindings then Some(AlreadyExists) else None
    case AddDaemonSet(_) => if k in s.daemonSets then Some(AlreadyExists) else None
    case PatchDaemonSet(_, _) => if k !in s.daemonSets then Some(NotFound) else None
    case RemoveServiceAccount => if k !in s.serviceAccounts then Some(NotFound) else None
    case RemoveDaemonSet => if k !in s.daemonSets then Some(NotFound) else None
  }

  /** A merge patch changes what differs between the object read and the one wanted, labels key by key. */
  function Patched(current: DaemonSet, before: DaemonSet, after: DaemonSet): DaemonSet {
    current.(labels := MergeMap(current.labels, before.labels, after.labels),
             spec := if before.spec != after.spec then after.spec else current.spec,
             owner := if before.owner != after.owner then after.owner else current.owner)
  }

  function Effect(s: State, k: Key, op: WorkerOp): State {
    if ErrorOf(s, k, op).Some? then s
    else
      match op
      case StoreFluentBit(read, finalizers) => PutFluentBit(s, k, read.(finalizers := finalizers))
      case AddRole(role) => s.(roles := s.roles + {role})
      case AddServiceAccount(uid) =>
        s.(serviceAccounts := s.serviceAccounts[k := ServiceAccount(Some(uid), Some(uid))])
      case AddBinding(binding) => s.(bindings := s.bindings + {binding})
      case AddDaemonSet(ds) => s.(daemonSets := s.daemonSets[k := ds])
      case PatchDaemonSet(before, after) =>
        s.(daemonSets := s.daemonSets[k := Patched(s.daemonSets[k], before, after)])
      case RemoveServiceAccount => s.(serviceAccounts := s.serviceAccounts - {k})
      case RemoveDaemonSet => s.(daemonSets := s.daemonSets - {k})
  }

  // ---------- what a write needs and what it leaves alone ----------

  /** fb was read from the server: if the stored object still has its version, it is still that object. */
  ghost predicate Known(s: State, k: Key, fb: FluentBit) {
    && fb.version < s.nextVersion
    && (k in s.fluentBits && s.fluentBits[k].version == fb.version ==> s.fluentBits[k] == fb)
  }

  ghost predicate NoChildren(s: State, k: Key) {
    && (k in s.serviceAccounts ==> s.serviceAccounts[k].createdFor.None?)
    && (k in s.daemonSets ==> s.daemonSets[k].createdFor.None?)
  }

  /** The situations in which the reconciler issues a write. */
  ghost predicate Allowed(s: State, k: Key, op: WorkerOp) {
    match op
    case StoreFluentBit(read, finalizers) =>
      && Known(s, k, read)
      && (|| (FLUENT_BIT_FINALIZER !in read.finalizers && finalizers == read.finalizers + [FLUENT_BIT_FINALIZER])
          || (NoChildren(s, k) && finalizers == Foreign(read.finalizers)))
    case AddServiceAccount(uid) => Anchored(s, k, uid)
    case AddDaemonSet(ds) => ds.createdFor.Some? && Anchored(s, k, ds.createdFor.value)
    case _ => true
  }

  /** What a write of the worker on k changes at most. */
  ghost predicate Guarantee(k: Key, s: State, s': State) {
    && s'.secrets == s.secrets && s.roles <= s'.roles && s.bindings <= s'.bindings
    && (forall j :: j != k ==>
          && Lookup(s'.fluentBits, j) == Lookup(s.fluentBits, j)
          && Lookup(s'.serviceAccounts, j) == Lookup(s.serviceAccounts, j)
          && Lookup(s'.daemonSets, j) == Lookup(s.daemonSets, j))
    && (k in s'.fluentBits ==>
          && k in s.fluentBits
          && Foreign(s'.fluentBits[k].finalizers) == Foreign(s.fluentBits[k].finalizers)
          && s'.fluentBits[k]
             == s.fluentBits[k].(version := s'.fluentBits[k].version, finalizers := s'.fluentBits[k].finalizers))
    && (k in s.fluentBits && k !in s'.fluentBits ==>
          s.fluentBits[k].deleting && Foreign(s.fluentBits[k].finalizers) == [])
  }

  lemma AllowedIsStable(s: State, s': State, k: Key, op: WorkerOp)
    requires Keeps(s, s', k) && NoNewChildren(s, s', k) && Allowed(s, k, op)
    ensures Allowed(s', k, op)
  {
  }

  /** What the reconciler stores has the finalizer once if it was added, and not at all if it was removed. */
  lemma StoredFinalizers(s: State, k: Key, read: FluentBit, finalizers: seq<string>)
    requires Inv(s) && Allowed(s, k, StoreFluentBit(read, finalizers))
    ensures Foreign(finalizers) == Foreign(read.finalizers)
    ensures CountOf(finalizers, FLUENT_BIT_FINALIZER) == 1
            || (CountOf(finalizers, FLUENT_BIT_FINALIZER) == 0 && NoChildren(s, k) && finalizers == Foreign(finalizers))
  {
    WithoutCounts(read.finalizers, FLUENT_BIT_FINALIZER, FLUENT_BIT_FINALIZER);
    WithoutTwice(read.finalizers, FLUENT_BIT_FINALIZER);
    WithoutAdded(read.finalizers, FLUENT_BIT_FINALIZER);
  }

  lemma StoreKeepsInv(s: State, k: Key, read: FluentBit, finalizers: seq<string>)
    requires Inv(s) && Allowed(s, k, StoreFluentBit(read, finalizers))
    ensures Inv(Effect(s, k, StoreFluentBit(read, finalizers)))
  {
    var fb := read.(finalizers := finalizers);
    StoredFinalizers(s, k, read, finalizers);
    if ErrorOf(s, k, StoreFluentBit(read, finalizers)).None? {
      assert s.fluentBits[k] == read;
      if CountOf(finalizers, FLUENT_BIT_FINALIZER) == 1 {
        assert GoodPut(s, k, fb);
        PutKeepsInv(s, k, fb);
      } else {
        UnanchoredPutKeepsInv(s, k, fb);
      }
    }
  }

  lemma StoreGuarantee(s: State, k: Key, read: FluentBit, finalizers: seq<string>)
    requires Inv(s) && Allowed(s, k, StoreFluentBit(read, finalizers))
    ensures Guarantee(k, s, Effect(s, k, StoreFluentBit(read, finalizers)))
  {
    StoredFinalizers(s, k, read, finalizers);
    if ErrorOf(s, k, StoreFluentBit(read, finalizers)).None? {
      PutGuarantee(s, k, finalizers);
    }
  }

  lemma PutGuarantee(s: State, k: Key, finalizers: seq<string>)
    requires k in s.fluentBits && Foreign(finalizers) == Foreign(s.fluentBits[k].finalizers)
    ensures Guarantee(k, s, PutFluentBit(s, k, s.fluentBits[k].(finalizers := finalizers)))
  {
    assert finalizers == [] ==> Foreign(finalizers) == [];
  }

  /** Without children the finalizer may go. */
  lemma UnanchoredPutKeepsInv(s: State, k: Key, fb: FluentBit)
    requires Inv(s) && NoChildren(s, k) && fb.uid < s.nextUid
    requires CountOf(fb.finalizers, FLUENT_BIT_FINALIZER) <= 1
    ensures Inv(PutFluentBit(s, k, fb))
  {
    var s' := PutFluentBit(s, k, fb);
    forall j, uid | j != k && Anchored(s, j, uid) ensures Anchored(s', j, uid) {
    }
  }

  lemma OtherKeepsInv(s: State, k: Key, op: WorkerOp)
    requires Inv(s) && Allowed(s, k, op) && !op.StoreFluentBit?
    ensures Inv(Effect(s, k, op)) && Keeps(s, Effect(s, k, op), k)
  {
    var s' := Effect(s, k, op);
    assert forall j, uid :: Anchored(s, j, uid) <==> Anchored(s', j, uid);
  }

  lemma OtherGuarantee(s: State, k: Key, op: WorkerOp)
    requires !op.StoreFluentBit?
    ensures Guarantee(k, s, Effect(s, k, op))
  {
  }

  lemma OnlyAddsMakeChildren(s: State, k: Key, op: WorkerOp)
    requires !op.AddServiceAccount? && !op.AddDaemonSet?
    ensures NoNewChildren(s, Effect(s, k, op), k)
  {
  }

  // ---------- the log ----------

  datatype Move =
    | ByUser(op: UserOp, before: State, after: State)
    | ByWorker(k: Key, write: WorkerOp, before: State, after: State)

  /** One step of the cluster: a user's, or a write the reconciler issues in a situation that allows it. */
  ghost predicate Legal(m: Move) {
    match m
    case ByUser(op, before, after) => after == UserStep(before, op)
    case ByWorker(k, write, before, after) => Allowed(before, k, write) && after == Effect(before, k, write)
  }

  /** The log leads from the first state to the current one by such steps. */
  ghost predicate History(first: State, log: seq<Move>, s: State) {
    && (forall i :: 0 <= i < |log| ==> Legal(log[i]))
    && (forall i :: 0 < i < |log| ==> log[i].before == log[i - 1].after)
    && (if log == [] then s == first else log[0].before == first && log[|log| - 1].after == s)
  }

  lemma HistoryExtend(first: State, log: seq<Move>, s: State, m: Move)
    requires History(first, log, s) && Legal(m) && m.before == s
    ensures History(first, log + [m], m.after)
  {
  }

  /** Every step keeps the invariant; a worker's changes no more than it guarantees. */
  lemma LegalKeepsInv(m: Move)
    requires Legal(m) && Inv(m.before)
    ensures Inv(m.after)
    ensures m.ByWorker? ==> Guarantee(m.k, m.before, m.after)
  {
    match m
    case ByUser(op, before, _) => UserStepKeeps(before, op, Key("", ""));
    case ByWorker(k, write, before, _) =>
      if write.StoreFluentBit? {
        StoreKeepsInv(before, k, write.read, write.finalizers);
        StoreGuarantee(before, k, write.read, write.finalizers);
      } else {
        OtherKeepsInv(before, k, write);
        OtherGuarantee(before, k, write);
      }
  }

  /** A history that starts in a state of the invariant never leaves it. */
  lemma {:induction false} HistoryKeepsInv(first: State, log: seq<Move>, s: State, i: nat)
    requires History(first, log, s) && Inv(first) && i < |log|
    ensures Inv(log[i].before) && Inv(log[i].after)
    ensures log[i].ByWorker? ==> Guarantee(log[i].k, log[i].before, log[i].after)
  {
    if i > 0 {
      HistoryKeepsInv(first, log, s, i - 1);
    }
    LegalKeepsInv(log[i]);
  }

  /** From position `from` on only the worker on k wrote. */
  ghost predicate WorkerIs(k: Key, log: seq<Move>, from: nat) {
    forall i :: from <= i < |log| ==> log[i].ByWorker? ==> log[i].k == k
  }

  /** Not found and already exists may be part of the plan; a conflict or any other error never is. */
  function Severity(err: Option<ApiError>): nat {
    if err == Some(Conflict) || err == Some(Other) then 1 else 0
  }

  class Server {
    var s: State
    /** A calm server has no interfering users and no failing calls. */
    const calm: bool
    ghost const first: State
    ghost var log: seq<Move>
    /** How many calls were answered with an error that no caller may tolerate. */
    ghost var failures: nat

    ghost predicate Valid()
      reads this
    {
      Inv(first) && History(first, log, s) && Inv(s)
    }

    constructor (s: State, calm: bool)
      requires Inv(s)
      ensures Valid() && this.s == s && this.calm == calm && first == s && log == []
    {
      this.s, this.calm, first, log, failures := s, calm, s, [], 0;
    }

    /** The log grew, by user steps and by writes of the worker on k only. */
    twostate predicate Grew(k: Key)
      reads this
    {
      old(log) <= log && WorkerIs(k, log, |old(log)|)
    }

    ghost method Record(m: Move)
      requires Inv(first) && History(first, log, m.before) && Legal(m) && m.after == s && Inv(s)
      modifies this`log
      ensures Valid() && log == old(log) + [m]
    {
      HistoryExtend(first, log, m.before, m);
      log := log + [m];
    }

    /** A call gave this answer. */
    ghost method Answer(err: Option<ApiError>)
      modifies this`failures
      ensures failures == old(failures) + Severity(err)
    {
      failures := failures + Severity(err);
    }

    /** Users act for a while. */
    method Users(k: Key)
      requires Valid()
      modifies this
      ensures Valid() && Grew(k)
      ensures Keeps(old(s), s, k) && NoNewChildren(old(s), s, k)
      ensures calm ==> s == old(s)
      ensures failures == old(failures)
    {
      var steps: int := *;
      while steps > 0 && !calm
        invariant Valid() && Grew(k)
        invariant Keeps(old(s), s, k) && NoNewChildren(old(s), s, k)
        invariant calm ==> s == old(s)
        invariant failures == old(failures)
        decreases steps
      {
        var op: UserOp := *;
        ghost var before := s;
        UserStepKeeps(s, op, k);
        s := UserStep(s, op);
        KeepsTransitive(old(s), before, s, k);
        Record(ByUser(op, before, s));
        steps := steps - 1;
      }
    }

    method GetFluentBit(k: Key) returns (reply: Result<FluentBit, ApiError>)
      requires Valid()
      modifies this
      ensures Valid() && Grew(k) && Keeps(old(s), s, k) && NoNewChildren(old(s), s, k)
      ensures reply.Success? ==> k in s.fluentBits && reply.value == s.fluentBits[k]
      ensures reply == Failure(NotFound) ==> k !in s.fluentBits
      ensures calm ==> s == old(s) && reply == if k in s.fluentBits then Success(s.fluentBits[k]) else Failure(NotFound)
      ensures failures == old(failures) + Severity(if reply.Failure? then Some(reply.error) else None)
    {
      Users(k);
      var fails: bool := *;
      if fails && !calm {
        Answer(Some(Other));
        return Failure(Other);
      }
      reply := if k in s.fluentBits then Success(s.fluentBits[k]) else Failure(NotFound);
    }

    method GetSecret(k: Key, name: Key) returns (err: Option<ApiError>)
      requires Valid()
      modifies this
      ensures Valid() && Grew(k) && Keeps(old(s), s, k) && NoNewChildren(old(s), s, k)
      ensures err.None? ==> name in s.secrets
      ensures calm ==> s == old(s) && err == if name in s.secrets then None else Some(NotFound)
      ensures failures == old(failures) + Severity(err)
    {
      Users(k);
      var fails: bool := *;
      if fails && !calm {
        Answer(Some(Other));
        return Some(Other);
      }
      err := if name in s.secrets then None else Some(NotFound);
    }

    method GetServiceAccount(k: Key) returns (err: Option<ApiError>)
      requires Valid()
      modifies this
      ensures Valid() && Grew(k) && Keeps(old(s), s, k) && NoNewChildren(old(s), s, k)
      ensures err == Some(NotFound) ==> k !in s.serviceAccounts
      ensures calm ==> s == old(s) && err == if k in s.serviceAccounts then None else Some(NotFound)
      ensures failures == old(failures) + Severity(err)
    {
      Users(k);
      var fails: bool := *;
      if fails && !calm {
        Answer(Some(Other));
        return Some(Other);
      }
      err := if k in s.serviceAccounts then None else Some(NotFound);
    }

    method GetDaemonSet(k: Key) returns (reply: Result<DaemonSet, ApiError>)
      requires Valid()
      modifies this
      ensures Valid() && Grew(k) && Keeps(old(s), s, k) && NoNewChildren(old(s), s, k)
      ensures reply.Success? ==> k in s.daemonSets && reply.value == s.daemonSets[k]
      ensures reply == Failure(NotFound) ==> k !in s.daemonSets
      ensures calm ==> s == old(s) && reply == if k in s.daemonSets then Success(s.daemonSets[k]) else Failure(NotFound)
      ensures failures == old(failures) + Severity(if reply.Failure? then Some(reply.error) else None)
    {
      Users(k);
      var fails: bool := *;
      if fails && !calm {
        Answer(Some(Other));
        return Failure(Other);
      }
      reply := if k in s.daemonSets then Success(s.daemonSets[k]) else Failure(NotFound);
    }

    /** A write: it may be lost, and its answer may be lost after it took effect. */
    method Write(k: Key, op: WorkerOp) returns (err: Option<ApiError>)
      requires Valid() && Allowed(s, k, op)
      modifies this
      ensures Valid() && Grew(k)
      ensures !op.StoreFluentBit? ==> Keeps(old(s), s, k)
      ensures !op.AddServiceAccount? && !op.AddDaemonSet? ==> NoNewChildren(old(s), s, k)
      ensures op.RemoveServiceAccount? && (err.None? || err == Some(NotFound)) ==> k !in s.serviceAccounts
      ensures op.RemoveDaemonSet? && (err.None? || err == Some(NotFound)) ==> k !in s.daemonSets
      ensures calm ==> s == Effect(old(s), k, op) && err == ErrorOf(old(s), k, op)
      ensures failures == old(failures) + Severity(err)
    {
      Users(k);
      AllowedIsStable(old(s), s, k, op);
      var lost: bool := *;
      if lost && !calm {
        Answer(Some(Other));
        return Some(Other);
      }
      ghost var mid := s;
      err := Apply(k, op);
      if !op.StoreFluentBit? {
        KeepsTransitive(old(s), mid, s, k);
      }
      var answerLost: bool := *;
      if answerLost && !calm {
        err := Some(Other);
      }
      Answer(err);
    }

    method Apply(k: Key, op: WorkerOp) returns (err: Option<ApiError>)
      requires Valid() && Allowed(s, k, op)
      modifies this
      ensures Valid() && log == old(log) + [ByWorker(k, op, old(s), s)]
      ensures s == Effect(old(s), k, op) && err == ErrorOf(old(s), k, op)
      ensures !op.StoreFluentBit? ==> Keeps(old(s), s, k)
      ensures !op.AddServiceAccount? && !op.AddDaemonSet? ==> NoNewChildren(old(s), s, k)
      ensures failures == old(failures)
    {
      LegalKeepsInv(ByWorker(k, op, s, Effect(s, k, op)));
      if !op.StoreFluentBit? {
        OtherKeepsInv(s, k, op);
      }
      if !op.AddServiceAccount? && !op.AddDaemonSet? {
        OnlyAddsMakeChildren(s, k, op);
      }
      ghost var before := s;
      err := ErrorOf(s, k, op);
      s := Effect(s, k, op);
      Record(ByWorker(k, op, before, s));
    }
  }
}
