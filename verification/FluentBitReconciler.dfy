/** The FluentBit reconciler: its calls in order, the state a failure-free pass leaves, and convergence. */
module FluentBitReconciler {
  import opened Common
  import opened Finalizers
  import opened Cluster
  import opened ApiServer

  /** The local copy of a FluentBit that a reconcile edits and writes back. */
  class Instance {
    var fb: FluentBit

    constructor (fb: FluentBit)
      ensures this.fb == fb
    {
      this.fb := fb;
    }

    predicate IsBeingDeleted()
      reads this
    {
      fb.deleting
    }

    method HasFinalizer(name: string) returns (has: bool)
      ensures has <==> name in fb.finalizers
    {
      has := ContainString(fb.finalizers, name);
    }

    method AddFinalizer(name: string)
      modifies this
      ensures fb == old(fb).(finalizers := old(fb).finalizers + [name])
    {
      fb := fb.(finalizers := fb.finalizers + [name]);
    }

    method RemoveFinalizer(name: string)
      modifies this
      ensures fb == old(fb).(finalizers := Without(old(fb).finalizers, name))
    {
      var rest := RemoveString(fb.finalizers, name);
      fb := fb.(finalizers := rest);
    }
  }

  datatype Outcome = Done | Requeue | Failed

  const DEFAULT_LOG_PATH := "/var/lib/docker/containers"

  /** The reconciler's settings. */
  datatype Settings = Settings(containerLogRealPath: string, namespaced: bool)

  function LogPath(cfg: Settings, fb: FluentBit): string {
    if fb.spec.containerLogRealPath != "" then fb.spec.containerLogRealPath
    else if cfg.containerLogRealPath != "" then cfg.containerLogRealPath
    else DEFAULT_LOG_PATH
  }

  function Rbac(cfg: Settings, k: Key): RbacKey {
    if cfg.namespaced then InNamespace(k.namespace) else ClusterWide
  }

  function SecretKey(k: Key, fb: FluentBit): Key {
    Key(k.namespace, fb.spec.fluentBitConfigName)
  }

  function MakePods(k: Key, fb: FluentBit, logPath: string): PodSpec {
    Made(k.name, fb.labels, fb.spec, logPath)
  }

  /** The mutate function of CreateOrPatch. */
  function Mutated(cfg: Settings, k: Key, fb: FluentBit, ds: DaemonSet): DaemonSet {
    ds.(labels := fb.labels, spec := MakePods(k, fb, LogPath(cfg, fb)), owner := Some(fb.uid))
  }

  function FreshDaemonSet(cfg: Settings, k: Key, fb: FluentBit): DaemonSet {
    DaemonSet(Some(fb.uid), fb.labels, MakePods(k, fb, LogPath(cfg, fb)), Some(fb.uid), "")
  }

  // ---------- what a failure-free reconcile does ----------

  function WithDaemonSet(s: State, cfg: Settings, k: Key, fb: FluentBit): State {
    s.(daemonSets := s.daemonSets[k := if k in s.daemonSets then Mutated(cfg, k, fb, s.daemonSets[k])
                                       else FreshDaemonSet(cfg, k, fb)])
  }

  function WithRbac(s: State, cfg: Settings, k: Key, fb: FluentBit): State {
    s.(roles := s.roles + {Rbac(cfg, k)}, bindings := s.bindings + {Rbac(cfg, k)},
       serviceAccounts := if k in s.serviceAccounts then s.serviceAccounts
                          else s.serviceAccounts[k := ServiceAccount(Some(fb.uid), Some(fb.uid))])
  }

  function Deployed(s: State, cfg: Settings, k: Key, fb: FluentBit): State {
    WithDaemonSet(WithRbac(s, cfg, k, fb), cfg, k, fb)
  }

  /** Children gone and the finalizer removed; the others stay in their order. */
  function Released(s: State, k: Key, fb: FluentBit): State {
    PutFluentBit(s.(serviceAccounts := s.serviceAccounts - {k}, daemonSets := s.daemonSets - {k}), k,
                 fb.(finalizers := Foreign(fb.finalizers)))
  }

  function Reconciled(s: State, cfg: Settings, k: Key): State {
    if k !in s.fluentBits then s
    else
      var fb := s.fluentBits[k];
      if fb.deleting then
        if !HasFinalizer(fb) then s else Released(s, k, fb)
      else if !HasFinalizer(fb) then PutFluentBit(s, k, fb.(finalizers := fb.finalizers + [FLUENT_BIT_FINALIZER]))
      else if SecretKey(k, fb) !in s.secrets then s
      else Deployed(s, cfg, k, fb)
  }

  predicate WaitsForSecret(s: State, k: Key) {
    && k in s.fluentBits && !s.fluentBits[k].deleting && HasFinalizer(s.fluentBits[k])
    && SecretKey(k, s.fluentBits[k]) !in s.secrets
  }

  class Reconciler {
    const api: Server
    const cfg: Settings

    constructor (api: Server, cfg: Settings)
      ensures this.api == api && this.cfg == cfg
    {
      this.api, this.cfg := api, cfg;
    }

    /**
     One pass. Whatever users do in between and whichever calls fail, every change of the cluster is
     legal: a step of a user, or a write this worker issues in a situation that allows it.
     On a calm server the pass leaves exactly the reconciled state.
     */
    method Reconcile(k: Key) returns (o: Outcome)
      requires api.Valid()
      modifies api
      ensures o.Failed? || api.failures == old(api.failures)
      ensures api.Valid() && api.Grew(k)
      ensures api.calm ==> api.s == Reconciled(old(api.s), cfg, k)
      ensures api.calm ==> o == if WaitsForSecret(old(api.s), k) then Requeue else Done
    {
      var got := api.GetFluentBit(k);
      if got.Failure? {
        return if got.error == NotFound then Done else Failed;
      }
      var instance := new Instance(got.value);
      o := ReconcileInstance(k, instance);
    }

    method ReconcileInstance(k: Key, instance: Instance) returns (o: Outcome)
      requires api.Valid() && k in api.s.fluentBits && instance.fb == api.s.fluentBits[k]
      modifies api, instance
      ensures o.Failed? || api.failures == old(api.failures)
      ensures api.Valid() && api.Grew(k)
      ensures api.calm ==> api.s == Reconciled(old(api.s), cfg, k)
      ensures api.calm ==> o == if WaitsForSecret(old(api.s), k) then Requeue else Done
    {
      if instance.IsBeingDeleted() {
        o := HandleFinalizer(k, instance);
        return;
      }
      var has := instance.HasFinalizer(FLUENT_BIT_FINALIZER);
      if !has {
        o := AddFinalizer(k, instance);
        return;
      }
      var err := api.GetSecret(k, SecretKey(k, instance.fb));
      if err.Some? {
        return if err.value == NotFound then Requeue else Failed;
      }
      o := Deploy(k, instance.fb);
    }

    method AddFinalizer(k: Key, instance: Instance) returns (o: Outcome)
      requires api.Valid() && Known(api.s, k, instance.fb) && !HasFinalizer(instance.fb)
      modifies api, instance
      ensures o.Failed? || api.failures == old(api.failures)
      ensures api.Valid() && api.Grew(k)
      ensures api.calm && k in old(api.s).fluentBits && old(instance.fb) == old(api.s).fluentBits[k] ==>
                && o.Done?
                && var fb := old(instance.fb);
                   api.s == PutFluentBit(old(api.s), k, fb.(finalizers := fb.finalizers + [FLUENT_BIT_FINALIZER]))
    {
      var read := instance.fb;
      instance.AddFinalizer(FLUENT_BIT_FINALIZER);
      var err := api.Write(k, StoreFluentBit(read, instance.fb.finalizers));
      o := if err.Some? then Failed else Done;
    }

    /** Removes the finalizer only after both children are known to be gone. */
    method HandleFinalizer(k: Key, instance: Instance) returns (o: Outcome)
      requires api.Valid() && Known(api.s, k, instance.fb)
      modifies api, instance
      ensures o.Failed? || api.failures == old(api.failures)
      ensures api.Valid() && api.Grew(k)
      ensures api.calm && k in old(api.s).fluentBits && old(instance.fb) == old(api.s).fluentBits[k] ==>
                && o.Done?
                && var fb := old(instance.fb);
                   api.s == if HasFinalizer(fb) then Released(old(api.s), k, fb) else old(api.s)
    {
      var has := instance.HasFinalizer(FLUENT_BIT_FINALIZER);
      if !has {
        return Done;
      }
      o := Delete(k);
      if o.Failed? {
        return;
      }
      var read := instance.fb;
      instance.RemoveFinalizer(FLUENT_BIT_FINALIZER);
      var err := api.Write(k, StoreFluentBit(read, instance.fb.finalizers));
      o := if err.Some? then Failed else Done;
    }

    method Delete(k: Key) returns (o: Outcome)
      requires api.Valid()
      modifies api
      ensures o.Failed? || api.failures == old(api.failures)
      ensures api.Valid() && api.Grew(k) && Keeps(old(api.s), api.s, k)
      ensures o.Done? ==> NoChildren(api.s, k)
      ensures o.Done? || o.Failed?
      ensures api.calm ==>
                o.Done? && api.s == old(api.s).(serviceAccounts := old(api.s).serviceAccounts - {k},
                                                daemonSets := old(api.s).daemonSets - {k})
    {
      o := DeleteServiceAccount(k);
      if o.Failed? {
        return;
      }
      ghost var mid := api.s;
      o := DeleteDaemonSet(k);
      KeepsTransitive(old(api.s), mid, api.s, k);
    }

    method DeleteServiceAccount(k: Key) returns (o: Outcome)
      requires api.Valid()
      modifies api
      ensures o.Failed? || api.failures == old(api.failures)
      ensures api.Valid() && api.Grew(k) && Keeps(old(api.s), api.s, k)
      ensures o.Done? ==> k !in api.s.serviceAccounts
      ensures o.Done? || o.Failed?
      ensures api.calm ==> o.Done? && api.s == old(api.s).(serviceAccounts := old(api.s).serviceAccounts - {k})
    {
      var err := api.GetServiceAccount(k);
      if err.None? {
        ghost var mid := api.s;
        err := api.Write(k, RemoveServiceAccount);
        KeepsTransitive(old(api.s), mid, api.s, k);
      }
      o := if err.Some? && err.value != NotFound then Failed else Done;
    }

    method DeleteDaemonSet(k: Key) returns (o: Outcome)
      requires api.Valid()
      modifies api
      ensures o.Failed? || api.failures == old(api.failures)
      ensures api.Valid() && api.Grew(k) && Keeps(old(api.s), api.s, k) && NoNewChildren(old(api.s), api.s, k)
      ensures o.Done? ==> k !in api.s.daemonSets
      ensures o.Done? || o.Failed?
      ensures api.calm ==> o.Done? && api.s == old(api.s).(daemonSets := old(api.s).daemonSets - {k})
    {
      var got := api.GetDaemonSet(k);
      var err := if got.Failure? then Some(got.error) else None;
      if err.None? {
        ghost var mid := api.s;
        err := api.Write(k, RemoveDaemonSet);
        KeepsTransitive(old(api.s), mid, api.s, k);
      }
      o := if err.Some? && err.value != NotFound then Failed else Done;
    }

    /** A create that tolerates an object that is there already. */
    method Ensure(k: Key, op: WorkerOp) returns (o: Outcome)
      requires op.AddRole? || op.AddServiceAccount? || op.AddBinding?
      requires api.Valid() && Allowed(api.s, k, op)
      modifies api
      ensures o.Failed? || api.failures == old(api.failures)
      ensures api.Valid() && api.Grew(k) && Keeps(old(api.s), api.s, k)
      ensures o.Done? || o.Failed?
      ensures api.calm ==> o.Done? && api.s == Effect(old(api.s), k, op)
    {
      var err := api.Write(k, op);
      o := if err.Some? && err.value != AlreadyExists then Failed else Done;
    }

    /** RBAC objects, then the DaemonSet. */
    method Deploy(k: Key, fb: FluentBit) returns (o: Outcome)
      requires api.Valid() && Anchored(api.s, k, fb.uid)
      modifies api
      ensures o.Failed? || api.failures == old(api.failures)
      ensures api.Valid() && api.Grew(k)
      ensures o.Done? || o.Failed?
      ensures api.calm ==> o.Done? && api.s == Deployed(old(api.s), cfg, k, fb)
    {
      o := InstallRbac(k, fb);
      if o.Failed? {
        return;
      }
      o := CreateOrPatch(k, fb);
    }

    method InstallRbac(k: Key, fb: FluentBit) returns (o: Outcome)
      requires api.Valid() && Anchored(api.s, k, fb.uid)
      modifies api
      ensures o.Failed? || api.failures == old(api.failures)
      ensures api.Valid() && api.Grew(k) && Anchored(api.s, k, fb.uid)
      ensures o.Done? || o.Failed?
      ensures api.calm ==> o.Done? && api.s == WithRbac(old(api.s), cfg, k, fb)
    {
      o := InstallRole(k, fb);
      if o.Failed? {
        return;
      }
      o := InstallAccount(k, fb);
      if o.Failed? {
        return;
      }
      o := InstallBinding(k, fb);
    }

    method InstallRole(k: Key, fb: FluentBit) returns (o: Outcome)
      requires api.Valid() && Anchored(api.s, k, fb.uid)
      modifies api
      ensures o.Failed? || api.failures == old(api.failures)
      ensures api.Valid() && api.Grew(k) && Anchored(api.s, k, fb.uid)
      ensures o.Done? || o.Failed?
      ensures api.calm ==> o.Done? && api.s == old(api.s).(roles := old(api.s).roles + {Rbac(cfg, k)})
    {
      o := Ensure(k, AddRole(Rbac(cfg, k)));
      assert Rbac(cfg, k) in old(api.s).roles ==> old(api.s).roles == old(api.s).roles + {Rbac(cfg, k)};
    }

    method InstallBinding(k: Key, fb: FluentBit) returns (o: Outcome)
      requires api.Valid() && Anchored(api.s, k, fb.uid)
      modifies api
      ensures o.Failed? || api.failures == old(api.failures)
      ensures api.Valid() && api.Grew(k) && Anchored(api.s, k, fb.uid)
      ensures o.Done? || o.Failed?
      ensures api.calm ==> o.Done? && api.s == old(api.s).(bindings := old(api.s).bindings + {Rbac(cfg, k)})
    {
      o := Ensure(k, AddBinding(Rbac(cfg, k)));
      assert Rbac(cfg, k) in old(api.s).bindings ==> old(api.s).bindings == old(api.s).bindings + {Rbac(cfg, k)};
    }

    method InstallAccount(k: Key, fb: FluentBit) returns (o: Outcome)
      requires api.Valid() && Anchored(api.s, k, fb.uid)
      modifies api
      ensures o.Failed? || api.failures == old(api.failures)
      ensures api.Valid() && api.Grew(k) && Anchored(api.s, k, fb.uid)
      ensures o.Done? || o.Failed?
      ensures api.calm ==>
                o.Done? && api.s == old(api.s).(serviceAccounts :=
                  if k in old(api.s).serviceAccounts then old(api.s).serviceAccounts
                  else old(api.s).serviceAccounts[k := ServiceAccount(Some(fb.uid), Some(fb.uid))])
    {
      o := Ensure(k, AddServiceAccount(fb.uid));
    }

    /** CreateOrPatch of the DaemonSet: no write at all when nothing differs. */
    method CreateOrPatch(k: Key, fb: FluentBit) returns (o: Outcome)
      requires api.Valid() && Anchored(api.s, k, fb.uid)
      modifies api
      ensures o.Failed? || api.failures == old(api.failures)
      ensures api.Valid() && api.Grew(k)
      ensures o.Done? || o.Failed?
      ensures api.calm ==> o.Done? && api.s == WithDaemonSet(old(api.s), cfg, k, fb)
    {
      var got := api.GetDaemonSet(k);
      if got.Success? {
        o := Patch(k, fb, got.value);
      } else if got.error == NotFound {
        var err := api.Write(k, AddDaemonSet(FreshDaemonSet(cfg, k, fb)));
        o := if err.Some? then Failed else Done;
      } else {
        o := Failed;
      }
    }

    method Patch(k: Key, fb: FluentBit, current: DaemonSet) returns (o: Outcome)
      requires api.Valid() && k in api.s.daemonSets && current == api.s.daemonSets[k]
      modifies api
      ensures o.Failed? || api.failures == old(api.failures)
      ensures api.Valid() && api.Grew(k)
      ensures o.Done? || o.Failed?
      ensures api.calm ==> o.Done? && api.s == WithDaemonSet(old(api.s), cfg, k, fb)
    {
      var wanted := Mutated(cfg, k, fb, current);
      if wanted == current {
        assert api.s.daemonSets[k := wanted] == api.s.daemonSets;
        return Done;
      }
      MergedIsWantedIff(current.labels, current.labels, wanted.labels);
      var err := api.Write(k, PatchDaemonSet(current, wanted));
      o := if err.Some? then Failed else Done;
    }
  }

  // ---------- convergence ----------

  /** Everything the FluentBit asks for is in place. */
  ghost predicate Converged(s: State, cfg: Settings, k: Key) {
    && k in s.fluentBits
    && var fb := s.fluentBits[k];
       && Anchored(s, k, fb.uid)
       && Rbac(cfg, k) in s.roles && k in s.serviceAccounts && Rbac(cfg, k) in s.bindings
       && k in s.daemonSets
       && s.daemonSets[k].labels == fb.labels
       && s.daemonSets[k].spec == MakePods(k, fb, LogPath(cfg, fb))
       && s.daemonSets[k].owner == Some(fb.uid)
  }

  /** The FluentBit exists, is not being deleted, and its Secret exists. */
  ghost predicate Live(s: State, k: Key) {
    k in s.fluentBits && !s.fluentBits[k].deleting && SecretKey(k, s.fluentBits[k]) in s.secrets
  }

  /** What a live FluentBit looks like after one pass: the finalizer, and the rest if it had the finalizer before. */
  lemma OnePass(s: State, cfg: Settings, k: Key)
    requires Inv(s) && Live(s, k)
    ensures Live(Reconciled(s, cfg, k), k) && Anchored(Reconciled(s, cfg, k), k, s.fluentBits[k].uid)
    ensures HasFinalizer(s.fluentBits[k]) ==> Converged(Reconciled(s, cfg, k), cfg, k)
    ensures !HasFinalizer(s.fluentBits[k]) ==>
              Foreign(Reconciled(s, cfg, k).fluentBits[k].finalizers) == Foreign(s.fluentBits[k].finalizers)
  {
    WithoutAdded(s.fluentBits[k].finalizers, FLUENT_BIT_FINALIZER);
  }

  /** A state is settled for a live FluentBit if and only if everything it asks for is in place. */
  lemma SettledIffConverged(s: State, cfg: Settings, k: Key)
    requires Inv(s) && Live(s, k)
    ensures Reconciled(s, cfg, k) == s <==> Converged(s, cfg, k)
  {
    var fb := s.fluentBits[k];
    WithoutAdded(fb.finalizers, FLUENT_BIT_FINALIZER);
    if HasFinalizer(fb) {
      var s' := Reconciled(s, cfg, k);
      if s' == s {
        assert Rbac(cfg, k) in s'.roles && Rbac(cfg, k) in s'.bindings;
        assert s'.daemonSets[k] == s.daemonSets[k];
      }
      if Converged(s, cfg, k) {
        assert s.roles + {Rbac(cfg, k)} == s.roles && s.bindings + {Rbac(cfg, k)} == s.bindings;
        assert s.daemonSets[k := s.daemonSets[k]] == s.daemonSets;
      }
    } else {
      assert Reconciled(s, cfg, k).nextVersion == s.nextVersion + 1;
    }
  }

  function Passes(s: State, cfg: Settings, k: Key, n: nat): State {
    if n == 0 then s else Reconciled(Passes(s, cfg, k, n - 1), cfg, k)
  }

  /**
   From any state the invariant allows, partial failures included, two failure-free passes bring a live
   FluentBit everything it asks for, and every further pass changes nothing.
   */
  lemma {:induction false} TwoPassesConverge(s: State, cfg: Settings, k: Key, n: nat)
    requires Inv(s) && Live(s, k) && n >= 2
    ensures Converged(Passes(s, cfg, k, n), cfg, k)
    ensures Passes(s, cfg, k, n) == Passes(s, cfg, k, 2)
  {
    var s1 := Reconciled(s, cfg, k);
    var s2 := Reconciled(s1, cfg, k);
    ReconciledInv(s, cfg, k);
    ReconciledInv(s1, cfg, k);
    OnePass(s, cfg, k);
    OnePass(s1, cfg, k);
    assert Passes(s, cfg, k, 1) == s1;
    assert Passes(s, cfg, k, 2) == s2;
    if n > 2 {
      TwoPassesConverge(s, cfg, k, n - 1);
      SettledIffConverged(s2, cfg, k);
    }
  }

  /** A failure-free pass keeps the invariant. */
  lemma ReconciledInv(s: State, cfg: Settings, k: Key)
    requires Inv(s)
    ensures Inv(Reconciled(s, cfg, k))
  {
    if k in s.fluentBits {
      var fb := s.fluentBits[k];
      if fb.deleting && HasFinalizer(fb) {
        ReleasedInv(s, k);
      } else if !fb.deleting && !HasFinalizer(fb) {
        StoreKeepsInv(s, k, fb, fb.finalizers + [FLUENT_BIT_FINALIZER]);
      } else if !fb.deleting && SecretKey(k, fb) in s.secrets {
        DeployedInv(s, cfg, k);
      }
    }
  }

  lemma ReleasedInv(s: State, k: Key)
    requires Inv(s) && k in s.fluentBits
    ensures Inv(Released(s, k, s.fluentBits[k]))
  {
    var fb := s.fluentBits[k];
    OtherKeepsInv(s, k, RemoveServiceAccount);
    var s1 := s.(serviceAccounts := s.serviceAccounts - {k});
    assert Inv(s1) by {
      assert Effect(s, k, RemoveServiceAccount) == s1;
    }
    OtherKeepsInv(s1, k, RemoveDaemonSet);
    var s2 := s1.(daemonSets := s.daemonSets - {k});
    assert Inv(s2) by {
      assert Effect(s1, k, RemoveDaemonSet) == s2;
    }
    StoreKeepsInv(s2, k, fb, Foreign(fb.finalizers));
  }

  lemma DeployedInv(s: State, cfg: Settings, k: Key)
    requires Inv(s) && k in s.fluentBits && HasFinalizer(s.fluentBits[k])
    ensures Inv(Deployed(s, cfg, k, s.fluentBits[k]))
  {
    var s' := Deployed(s, cfg, k, s.fluentBits[k]);
    assert Anchored(s, k, s.fluentBits[k].uid);
    assert forall j, uid :: Anchored(s, j, uid) <==> Anchored(s', j, uid);
  }

  /**
   Deleting a FluentBit, once a pass gets through without failures, leaves neither child nor finalizer
   behind; the object itself goes unless foreign finalizers hold it, and those keep their order.
   */
  lemma DeletionCompletes(s: State, cfg: Settings, k: Key)
    requires Inv(s) && k in s.fluentBits && s.fluentBits[k].deleting && HasFinalizer(s.fluentBits[k])
    ensures var s' := Reconciled(s, cfg, k);
            && k !in s'.serviceAccounts && k !in s'.daemonSets
            && (k in s'.fluentBits <==> Foreign(s.fluentBits[k].finalizers) != [])
            && (k in s'.fluentBits ==>
                  s'.fluentBits[k].finalizers == Foreign(s.fluentBits[k].finalizers) && !HasFinalizer(s'.fluentBits[k]))
  {
    WithoutCounts(s.fluentBits[k].finalizers, FLUENT_BIT_FINALIZER, FLUENT_BIT_FINALIZER);
  }

  // ---------- whole runs ----------

  const EMPTY: State := State(0, 0, map[], map[], map[], {}, {}, {})

  /** The operator from an empty cluster: any sequence of reconciles, with users and failures in between. */
  method Operate(cfg: Settings, calm: bool, keys: seq<Key>) returns (api: Server)
    ensures fresh(api) && api.Valid() && api.first == EMPTY
  {
    api := new Server(EMPTY, calm);
    var reconciler := new Reconciler(api, cfg);
    for i := 0 to |keys|
      invariant api.Valid() && fresh(api) && api.first == EMPTY && reconciler.api == api
    {
      var _ := reconciler.Reconcile(keys[i]);
    }
  }

  /**
   In every state of every such run, a ServiceAccount or DaemonSet the controller created exists only
   while the very FluentBit it was created for exists and carries the finalizer exactly once.
   */
  lemma ChildrenNeverOutliveFluentBit(first: State, log: seq<Move>, s: State, i: nat, k: Key)
    requires History(first, log, s) && Inv(first) && i < |log|
    ensures var now := log[i].after;
            && (k in now.serviceAccounts && now.serviceAccounts[k].createdFor.Some? ==>
                  && k in now.fluentBits && now.fluentBits[k].uid == now.serviceAccounts[k].createdFor.value
                  && CountOf(now.fluentBits[k].finalizers, FLUENT_BIT_FINALIZER) == 1)
            && (k in now.daemonSets && now.daemonSets[k].createdFor.Some? ==>
                  && k in now.fluentBits && now.fluentBits[k].uid == now.daemonSets[k].createdFor.value
                  && CountOf(now.fluentBits[k].finalizers, FLUENT_BIT_FINALIZER) == 1)
  {
    HistoryKeepsInv(first, log, s, i);
  }

  /** Between two user steps, foreign finalizers keep their order and count however often the controller writes. */
  lemma {:induction false} ForeignFinalizersUntouched(first: State, log: seq<Move>, s: State, i: nat, j: nat, k: Key)
    requires History(first, log, s) && Inv(first) && i < j < |log|
    requires forall m :: i < m <= j ==> log[m].ByWorker?
    requires k in log[i].after.fluentBits && k in log[j].after.fluentBits
    ensures Foreign(log[j].after.fluentBits[k].finalizers) == Foreign(log[i].after.fluentBits[k].finalizers)
    ensures log[j].after.fluentBits[k].uid == log[i].after.fluentBits[k].uid
    ensures log[j].after.fluentBits[k].spec == log[i].after.fluentBits[k].spec
    decreases j
  {
    HistoryKeepsInv(first, log, s, j);
    assert log[j].before == log[j - 1].after;
    if log[j].k != k {
      assert Lookup(log[j].after.fluentBits, k) == Lookup(log[j].before.fluentBits, k);
    }
    if i < j - 1 {
      ForeignFinalizersUntouched(first, log, s, i, j - 1, k);
    }
  }
}
