/**
 What one undisturbed pass of the FluentBit reconciler leaves in the cluster, object by object and in terms of
 the FluentBit's and the operator's own fields.
 */
module Deployment {
  import opened Common
  import opened Finalizers
  import opened Cluster
  import opened ApiServer
  import opened FluentBitReconciler

  /** A FluentBit that asks for a deployment and is ready for it: its Secret is there. */
  ghost predicate Deploys(s: State, k: Key) {
    && k in s.fluentBits && !s.fluentBits[k].deleting
    && "fluentbit.logging.kubesphere.io" in s.fluentBits[k].finalizers
    && Key(k.namespace, s.fluentBits[k].spec.fluentBitConfigName) in s.secrets
  }

  /** The DaemonSet runs what the FluentBit specifies, and belongs to it; annotations others made stay. */
  lemma DeployedDaemonSet(s: State, cfg: Settings, k: Key)
    requires Deploys(s, k)
    ensures var fb, s' := s.fluentBits[k], Reconciled(s, cfg, k);
            && k in s'.daemonSets
            && s'.daemonSets[k].owner == Some(fb.uid) && s'.daemonSets[k].labels == fb.labels
            && s'.daemonSets[k].spec.Made?
            && s'.daemonSets[k].spec.name == k.name && s'.daemonSets[k].spec.labels == fb.labels
            && s'.daemonSets[k].spec.spec == fb.spec
            && (k in s.daemonSets ==> s'.daemonSets[k].annotations == s.daemonSets[k].annotations)
  {
  }

  /** The log path is the FluentBit's own, else the operator's, else Docker's. */
  lemma DeployedLogPath(s: State, cfg: Settings, k: Key)
    requires Deploys(s, k)
    ensures var own, s' := s.fluentBits[k].spec.containerLogRealPath, Reconciled(s, cfg, k);
            && k in s'.daemonSets && s'.daemonSets[k].spec.Made?
            && (own != "" ==> s'.daemonSets[k].spec.logPath == own)
            && (own == "" && cfg.containerLogRealPath != "" ==>
                  s'.daemonSets[k].spec.logPath == cfg.containerLogRealPath)
            && (own == "" && cfg.containerLogRealPath == "" ==>
                  s'.daemonSets[k].spec.logPath == "/var/lib/docker/containers")
  {
  }

  /** A FluentBit with a path of its own does not depend on the operator's setting. */
  lemma OwnLogPathDecides(s: State, cfg: Settings, other: string, k: Key)
    requires k in s.fluentBits ==> s.fluentBits[k].spec.containerLogRealPath != ""
    ensures Reconciled(s, cfg.(containerLogRealPath := other), k) == Reconciled(s, cfg, k)
  {
  }

  /** The ServiceAccount is there, owned by the FluentBit if it is new; roles and bindings grow by the one in scope. */
  lemma DeployedRbac(s: State, cfg: Settings, k: Key)
    requires Deploys(s, k)
    ensures var fb, s' := s.fluentBits[k], Reconciled(s, cfg, k);
            && k in s'.serviceAccounts
            && (k in s.serviceAccounts ==> s'.serviceAccounts[k] == s.serviceAccounts[k])
            && (k !in s.serviceAccounts ==> s'.serviceAccounts[k].owner == Some(fb.uid))
            && (forall r :: r in s'.roles <==> r in s.roles || InScope(cfg, k, r))
            && (forall r :: r in s'.bindings <==> r in s.bindings || InScope(cfg, k, r))
  {
  }

  /** A namespaced operator uses a role of the FluentBit's namespace, any other the cluster-wide one. */
  predicate InScope(cfg: Settings, k: Key, r: RbacKey) {
    if cfg.namespaced then r == InNamespace(k.namespace) else r == ClusterWide
  }

  /** Whatever the pass does, it leaves Secrets and the objects of other FluentBits alone. */
  lemma OthersUntouched(s: State, cfg: Settings, k: Key, j: Key)
    requires j != k
    ensures var s' := Reconciled(s, cfg, k);
            && s'.secrets == s.secrets && s.roles <= s'.roles && s.bindings <= s'.bindings
            && Lookup(s'.fluentBits, j) == Lookup(s.fluentBits, j)
            && Lookup(s'.serviceAccounts, j) == Lookup(s.serviceAccounts, j)
            && Lookup(s'.daemonSets, j) == Lookup(s.daemonSets, j)
  {
  }

  /** When a pass deploys nothing, and what it does instead. */
  lemma OtherwiseUndeployed(s: State, cfg: Settings, k: Key)
    ensures k !in s.fluentBits ==> Reconciled(s, cfg, k) == s
    ensures (k in s.fluentBits && !s.fluentBits[k].deleting
             && "fluentbit.logging.kubesphere.io" !in s.fluentBits[k].finalizers) ==>
              var fb, s' := s.fluentBits[k], Reconciled(s, cfg, k);
              && k in s'.fluentBits
              && s'.fluentBits[k]
                 == fb.(finalizers := fb.finalizers + ["fluentbit.logging.kubesphere.io"], version := s.nextVersion)
              && s'.daemonSets == s.daemonSets && s'.serviceAccounts == s.serviceAccounts
              && s'.roles == s.roles && s'.bindings == s.bindings
    ensures WaitsForSecret(s, k)
            <==> && k in s.fluentBits && !s.fluentBits[k].deleting
                 && "fluentbit.logging.kubesphere.io" in s.fluentBits[k].finalizers
                 && Key(k.namespace, s.fluentBits[k].spec.fluentBitConfigName) !in s.secrets
    ensures WaitsForSecret(s, k) ==> Reconciled(s, cfg, k) == s
    ensures (k in s.fluentBits && s.fluentBits[k].deleting
             && "fluentbit.logging.kubesphere.io" !in s.fluentBits[k].finalizers) ==>
              Reconciled(s, cfg, k) == s
  {
  }
}
