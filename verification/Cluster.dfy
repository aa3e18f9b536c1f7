/**
 The API server's objects the FluentBit reconciler touches, the users' steps on them, and the
 invariant that ties a created ServiceAccount or DaemonSet to its FluentBit.
 */
module Cluster {
  import opened Common
  import opened Finalizers

  datatype Key = Key(namespace: string, name: string)

  type Labels = map<string, string>

  datatype FluentBitSpec = FluentBitSpec(containerLogRealPath: string, fluentBitConfigName: string, other: string)

  /** A stored FluentBit. `version` changes with every write. */
  datatype FluentBit = FluentBit(uid: nat, version: nat, deleting: bool, finalizers: seq<string>,
                                 labels: Labels, spec: FluentBitSpec)

  /** `createdFor` is the FluentBit for which the controller created the object; nobody can edit it. */
  datatype ServiceAccount = ServiceAccount(createdFor: Option<nat>, owner: Option<nat>)

  /** The pod specification computed from a FluentBit: an injective stand-in for MakeDaemonSet. */
  datatype PodSpec = Made(name: string, labels: Labels, spec: FluentBitSpec, logPath: string) | Edited(text: string)

  datatype DaemonSet = DaemonSet(createdFor: Option<nat>, labels: Labels, spec: PodSpec, owner: Option<nat>,
                                 annotations: string)

  /** Role and binding have one fixed name, cluster-wide or per namespace. */
  datatype RbacKey = ClusterWide | InNamespace(namespace: string)

  datatype State = State(
    nextUid: nat, nextVersion: nat,
    fluentBits: map<Key, FluentBit>,
    serviceAccounts: map<Key, ServiceAccount>,
    daemonSets: map<Key, DaemonSet>,
    secrets: set<Key>,
    roles: set<RbacKey>,
    bindings: set<RbacKey>)

  predicate HasFinalizer(fb: FluentBit) {
    FLUENT_BIT_FINALIZER in fb.finalizers
  }

  function Foreign(finalizers: seq<string>): seq<string> {
    Without(finalizers, FLUENT_BIT_FINALIZER)
  }

  // ---------- the invariant ----------

  /** The FluentBit with this uid exists and carries the finalizer exactly once. */
  ghost predicate Anchored(s: State, k: Key, uid: nat) {
    && k in s.fluentBits
    && s.fluentBits[k].uid == uid
    && CountOf(s.fluentBits[k].finalizers, FLUENT_BIT_FINALIZER) == 1
  }

  ghost predicate ChildrenAnchored(s: State) {
    && (forall k :: k in s.serviceAccounts && s.serviceAccounts[k].createdFor.Some? ==>
                      Anchored(s, k, s.serviceAccounts[k].createdFor.value))
    && (forall k :: k in s.daemonSets && s.daemonSets[k].createdFor.Some? ==>
                      Anchored(s, k, s.daemonSets[k].createdFor.value))
  }

  ghost predicate FluentBitsInv(s: State) {
    forall k :: k in s.fluentBits ==>
                  && s.fluentBits[k].version < s.nextVersion && s.fluentBits[k].uid < s.nextUid
                  && CountOf(s.fluentBits[k].finalizers, FLUENT_BIT_FINALIZER) <= 1
  }

  ghost predicate Inv(s: State) {
    ChildrenAnchored(s) && FluentBitsInv(s)
  }

  // ---------- the users ----------

  /** What users and other controllers do, as long as they leave the operator's finalizer alone. */
  datatype UserOp =
    | CreateFluentBit(k: Key, finalizers: seq<string>, labels: Labels, spec: FluentBitSpec)
    | EditFluentBit(k: Key, finalizers: seq<string>, labels: Labels, spec: FluentBitSpec)
    | DeleteFluentBit(k: Key)
    | CreateServiceAccount(k: Key)
    | EditServiceAccount(k: Key, owner: Option<nat>)
    | DeleteServiceAccount(k: Key)
    | CreateDaemonSet(k: Key, labels: Labels, pods: PodSpec)
    | EditDaemonSet(k: Key, labels: Labels, pods: PodSpec, owner: Option<nat>, annotations: string)
    | DeleteDaemonSet(k: Key)
    | SetSecrets(secrets: set<Key>)
    | SetRbac(roles: set<RbacKey>, bindings: set<RbacKey>)

  /** Stores a FluentBit under a new version; one that is being deleted disappears with its last finalizer. */
  function PutFluentBit(s: State, k: Key, fb: FluentBit): State {
    if fb.deleting && fb.finalizers == [] then
      s.(fluentBits := s.fluentBits - {k}, nextVersion := s.nextVersion + 1)
    else
      s.(fluentBits := s.fluentBits[k := fb.(version := s.nextVersion)], nextVersion := s.nextVersion + 1)
  }

  function UserStep(s: State, op: UserOp): State {
    match op
    case CreateFluentBit(k, finalizers, labels, spec) =>
      if k in s.fluentBits || FLUENT_BIT_FINALIZER in finalizers then s
      else
        PutFluentBit(s, k, FluentBit(s.nextUid, 0, false, finalizers, labels, spec)).(nextUid := s.nextUid + 1)
    case EditFluentBit(k, finalizers, labels, spec) =>
      if k !in s.fluentBits
         || CountOf(finalizers, FLUENT_BIT_FINALIZER) != CountOf(s.fluentBits[k].finalizers, FLUENT_BIT_FINALIZER)
      then s
      else PutFluentBit(s, k, s.fluentBits[k].(finalizers := finalizers, labels := labels, spec := spec))
    case DeleteFluentBit(k) =>
      if k !in s.fluentBits then s else PutFluentBit(s, k, s.fluentBits[k].(deleting := true))
    case CreateServiceAccount(k) =>
      if k in s.serviceAccounts then s
      else s.(serviceAccounts := s.serviceAccounts[k := ServiceAccount(None, None)])
    case EditServiceAccount(k, owner) =>
      if k !in s.serviceAccounts then s
      else s.(serviceAccounts := s.serviceAccounts[k := s.serviceAccounts[k].(owner := owner)])
    case DeleteServiceAccount(k) => s.(serviceAccounts := s.serviceAccounts - {k})
    case CreateDaemonSet(k, labels, spec) =>
      if k in s.daemonSets then s
      else s.(daemonSets := s.daemonSets[k := DaemonSet(None, labels, spec, None, "")])
    case EditDaemonSet(k, labels, spec, owner, annotations) =>
      if k !in s.daemonSets then s
      else
        s.(daemonSets := s.daemonSets[k := DaemonSet(s.daemonSets[k].createdFor, labels, spec, owner, annotations)])
    case DeleteDaemonSet(k) => s.(daemonSets := s.daemonSets - {k})
    case SetSecrets(secrets) => s.(secrets := secrets)
    case SetRbac(roles, bindings) => s.(roles := roles, bindings := bindings)
  }

  /** What the worker on k can rely on while others act. */
  ghost predicate Keeps(s: State, s': State, k: Key) {
    && s.nextVersion <= s'.nextVersion
    // an anchored FluentBit stays, and stays anchored
    && (forall uid :: Anchored(s, k, uid) ==> Anchored(s', k, uid))
    // an object with a version from before is the object of before
    && (k in s'.fluentBits && s'.fluentBits[k].version < s.nextVersion ==>
          k in s.fluentBits && s'.fluentBits[k] == s.fluentBits[k])
  }

  /** Nobody else creates objects on behalf of the controller. */
  ghost predicate NoNewChildren(s: State, s': State, k: Key) {
    && (k in s'.serviceAccounts && s'.serviceAccounts[k].createdFor.Some? ==>
          k in s.serviceAccounts && s.serviceAccounts[k].createdFor == s'.serviceAccounts[k].createdFor)
    && (k in s'.daemonSets && s'.daemonSets[k].createdFor.Some? ==>
          k in s.daemonSets && s.daemonSets[k].createdFor == s'.daemonSets[k].createdFor)
  }

  /** A write of a FluentBit that leaves an anchored one anchored. */
  ghost predicate GoodPut(s: State, j: Key, fb: FluentBit) {
    && fb.uid < s.nextUid
    && CountOf(fb.finalizers, FLUENT_BIT_FINALIZER) <= 1
    && (forall uid :: Anchored(s, j, uid) ==>
                        fb.uid == uid && CountOf(fb.finalizers, FLUENT_BIT_FINALIZER) == 1)
  }

  lemma PutAnchors(s: State, j: Key, fb: FluentBit, k: Key, uid: nat)
    requires GoodPut(s, j, fb) && Anchored(s, k, uid)
    ensures Anchored(PutFluentBit(s, j, fb), k, uid)
  {
  }

  lemma PutKeepsInv(s: State, j: Key, fb: FluentBit)
    requires Inv(s) && GoodPut(s, j, fb)
    ensures Inv(PutFluentBit(s, j, fb))
  {
    var s' := PutFluentBit(s, j, fb);
    forall k | k in s'.serviceAccounts && s'.serviceAccounts[k].createdFor.Some?
      ensures Anchored(s', k, s'.serviceAccounts[k].createdFor.value)
    {
      PutAnchors(s, j, fb, k, s'.serviceAccounts[k].createdFor.value);
    }
    forall k | k in s'.daemonSets && s'.daemonSets[k].createdFor.Some?
      ensures Anchored(s', k, s'.daemonSets[k].createdFor.value)
    {
      PutAnchors(s, j, fb, k, s'.daemonSets[k].createdFor.value);
    }
  }

  lemma PutKeeps(s: State, j: Key, fb: FluentBit, k: Key)
    requires GoodPut(s, j, fb)
    ensures Keeps(s, PutFluentBit(s, j, fb), k) && NoNewChildren(s, PutFluentBit(s, j, fb), k)
  {
    forall uid | Anchored(s, k, uid) ensures Anchored(PutFluentBit(s, j, fb), k, uid) {
      PutAnchors(s, j, fb, k, uid);
    }
  }

  /** Handing out a uid changes nothing. */
  lemma NextUidKeeps(s: State, k: Key)
    requires Inv(s)
    ensures var s' := s.(nextUid := s.nextUid + 1);
            Inv(s') && Keeps(s, s', k) && NoNewChildren(s, s', k)
  {
    var s' := s.(nextUid := s.nextUid + 1);
    assert forall j, uid :: Anchored(s, j, uid) <==> Anchored(s', j, uid);
  }

  /** Steps on other objects leave the FluentBits alone. */
  lemma ChildEditKeeps(s: State, s': State, k: Key)
    requires Inv(s)
    requires s'.fluentBits == s.fluentBits && s'.nextUid == s.nextUid && s'.nextVersion == s.nextVersion
    requires forall j :: NoNewChildren(s, s', j)
    ensures Inv(s') && Keeps(s, s', k)
  {
    assert forall j, uid :: Anchored(s, j, uid) <==> Anchored(s', j, uid);
    forall j | j in s'.serviceAccounts && s'.serviceAccounts[j].createdFor.Some?
      ensures Anchored(s', j, s'.serviceAccounts[j].createdFor.value)
    {
      assert NoNewChildren(s, s', j);
    }
    forall j | j in s'.daemonSets && s'.daemonSets[j].createdFor.Some?
      ensures Anchored(s', j, s'.daemonSets[j].createdFor.value)
    {
      assert NoNewChildren(s, s', j);
    }
  }

  predicate OnFluentBit(op: UserOp) {
    op.CreateFluentBit? || op.EditFluentBit? || op.DeleteFluentBit?
  }

  lemma FluentBitStepKeeps(s: State, op: UserOp, k: Key)
    requires Inv(s) && OnFluentBit(op)
    ensures Inv(UserStep(s, op))
    ensures Keeps(s, UserStep(s, op), k) && NoNewChildren(s, UserStep(s, op), k)
  {
    if UserStep(s, op) != s {
      var s0, fb := s, FluentBit(s.nextUid, 0, false, [], map[], FluentBitSpec("", "", ""));
      match op {
        case CreateFluentBit(j, finalizers, labels, spec) =>
          fb := FluentBit(s.nextUid, 0, false, finalizers, labels, spec);
          s0 := s.(nextUid := s.nextUid + 1);
          NextUidKeeps(s, k);
        case EditFluentBit(j, finalizers, labels, spec) =>
          fb := s.fluentBits[j].(finalizers := finalizers, labels := labels, spec := spec);
        case DeleteFluentBit(j) =>
          fb := s.fluentBits[j].(deleting := true);
      }
      assert UserStep(s, op) == PutFluentBit(s0, op.k, fb);
      assert GoodPut(s0, op.k, fb);
      PutKeepsInv(s0, op.k, fb);
      PutKeeps(s0, op.k, fb, k);
      KeepsTransitive(s, s0, UserStep(s, op), k);
    }
  }

  lemma ChildStepKeeps(s: State, op: UserOp, k: Key)
    requires Inv(s) && !OnFluentBit(op)
    ensures Inv(UserStep(s, op))
    ensures Keeps(s, UserStep(s, op), k) && NoNewChildren(s, UserStep(s, op), k)
  {
    forall j ensures NoNewChildren(s, UserStep(s, op), j) {
    }
    ChildEditKeeps(s, UserStep(s, op), k);
  }

  /** No step of a user breaks the invariant, and the worker on any key can rely on it. */
  lemma UserStepKeeps(s: State, op: UserOp, k: Key)
    requires Inv(s)
    ensures Inv(UserStep(s, op))
    ensures Keeps(s, UserStep(s, op), k) && NoNewChildren(s, UserStep(s, op), k)
  {
    if OnFluentBit(op) {
      FluentBitStepKeeps(s, op, k);
    } else {
      ChildStepKeeps(s, op, k);
    }
  }

  lemma KeepsTransitive(a: State, b: State, c: State, k: Key)
    requires Keeps(a, b, k) && Keeps(b, c, k)
    ensures Keeps(a, c, k)
  {
  }
}
