/**
 The Secrets of a namespace while a reconcile writes some of them and others edit any of them: what one
 CreateOrPatch does, and what a whole sequence of them leaves behind.
 */
module SecretStore {
  import opened Common

  type Data = map<string, string>

  datatype Secret = Secret(data: Data, owner: string, metadata: string)

  type Store = map<string, Secret>

  /** What others leave of the Secrets they touch; None is a deleted one. */
  type Edits = map<string, Option<Secret>>

  /** What became of the write: one whose answer was lost may or may not have reached the store. */
  datatype WriteReply = Acknowledged | Refused(error: string) | Unacknowledged(applied: bool, error: string)

  /** What happens around one CreateOrPatch: others act before its read and between read and write. */
  datatype Answers = Answers(beforeRead: Edits, readFails: Option<string>, afterRead: Edits, reply: WriteReply)

  /** One CreateOrPatch: the Secret's name (also its owner's), the data wanted, and what happens around it. */
  datatype Visit = Visit(name: string, data: Data, answers: Answers)

  function EditedAt(s: Store, e: Edits, name: string): Option<Secret> {
    if name in e then e[name] else Lookup(s, name)
  }

  function Edited(s: Store, e: Edits): Store {
    map name | name in s.Keys + e.Keys && EditedAt(s, e, name).Some? :: EditedAt(s, e, name).value
  }

  // ---------- one CreateOrPatch ----------

  /** What the read finds. */
  function Seen(v: Visit, s: Store): Option<Secret> {
    Lookup(Edited(s, v.answers.beforeRead), v.name)
  }

  /** The store the write meets. */
  function AtWrite(v: Visit, s: Store): Store {
    Edited(Edited(s, v.answers.beforeRead), v.answers.afterRead)
  }

  /** The Secret after mutate. */
  function Desired(v: Visit, seen: Option<Secret>): Secret {
    Secret(v.data, v.name, if seen.Some? then seen.value.metadata else "")
  }

  /** The merge patch from the Secret read to the wanted one, applied to the Secret as it is now. */
  function Patched(current: Secret, before: Secret, wanted: Secret): Secret {
    Secret(MergeMap(current.data, before.data, wanted.data),
           if before.owner != wanted.owner then wanted.owner else current.owner,
           if before.metadata != wanted.metadata then wanted.metadata else current.metadata)
  }

  /** An empty patch is not sent. */
  predicate UpToDate(v: Visit, s: Store) {
    Seen(v, s) == Some(Desired(v, Seen(v, s)))
  }

  /** A create needs the Secret to be absent, a patch needs it present. */
  predicate Writable(v: Visit, s: Store) {
    Seen(v, s).Some? <==> v.name in AtWrite(v, s)
  }

  predicate TakesEffect(v: Visit, s: Store) {
    && v.answers.readFails.None? && !UpToDate(v, s) && Writable(v, s)
    && (v.answers.reply.Acknowledged? || (v.answers.reply.Unacknowledged? && v.answers.reply.applied))
  }

  function AfterVisit(v: Visit, s: Store): Store {
    if !TakesEffect(v, s) then AtWrite(v, s)
    else
      var seen := Seen(v, s);
      AtWrite(v, s)[v.name := if seen.None? then Desired(v, seen)
                              else Patched(AtWrite(v, s)[v.name], seen.value, Desired(v, seen))]
  }

  function VisitError(v: Visit, s: Store): Option<string> {
    if v.answers.readFails.Some? then v.answers.readFails
    else if UpToDate(v, s) then None
    else if v.answers.reply.Refused? || (v.answers.reply.Unacknowledged? && !v.answers.reply.applied) then
      Some(v.answers.reply.error)
    else if !Writable(v, s) then Some(if Seen(v, s).None? then "already exists" else "not found")
    else if v.answers.reply.Unacknowledged? then Some(v.answers.reply.error)
    else None
  }

  /** The Secret is there, as rendered and owned by its config. */
  predicate IsRight(v: Visit, s: Store) {
    v.name in s && s[v.name].data == v.data && s[v.name].owner == v.name
  }

  /** Whatever was right when it was read is still right when the write arrives. */
  ghost predicate KeptRight(v: Visit, s: Store) {
    Seen(v, s).Some? ==>
      && v.name in AtWrite(v, s)
      && var seen, now := Seen(v, s).value, AtWrite(v, s)[v.name];
         && (forall key :: Lookup(seen.data, key) == Lookup(v.data, key) ==>
                             Lookup(now.data, key) == Lookup(v.data, key))
         && (seen.owner == v.name ==> now.owner == v.name)
  }

  /**
   A successful CreateOrPatch leaves the Secret as rendered if and only if nobody spoilt, between the read
   and the write, a key (or the owner) that was right when it was read. Other metadata is kept in any case.
   */
  lemma RightAfterVisitIff(v: Visit, s: Store)
    requires VisitError(v, s).None?
    ensures IsRight(v, AfterVisit(v, s)) <==> KeptRight(v, s)
    ensures v.name in AtWrite(v, s) ==> AfterVisit(v, s)[v.name].metadata == AtWrite(v, s)[v.name].metadata
  {
    if Seen(v, s).Some? && v.name in AtWrite(v, s) {
      var seen, now := Seen(v, s).value, AtWrite(v, s)[v.name];
      MergedIsWantedIff(now.data, seen.data, v.data);
      if UpToDate(v, s) && KeptRight(v, s) {
        MapsEqual(now.data, v.data);
      }
    }
  }

  /** The exception is real: a key that was right when read and is then edited stays wrong under a successful write. */
  lemma SuccessfulWriteCanLeaveSecretWrong() returns (v: Visit, s: Store)
    ensures VisitError(v, s).None? && TakesEffect(v, s) && !IsRight(v, AfterVisit(v, s))
  {
    var read := Secret(map["kept" := "right", "changed" := "old"], "config", "");
    var edited := Secret(map["kept" := "wrong", "changed" := "old"], "config", "");
    s := map["config" := read];
    v := Visit("config", map["kept" := "right", "changed" := "new"],
               Answers(map[], None, map["config" := Some(edited)], Acknowledged));
    EditedLookup(s, map[], "config");
    EditedLookup(Edited(s, map[]), v.answers.afterRead, "config");
    assert Lookup(read.data, "changed") != Lookup(v.data, "changed");
    assert Lookup(edited.data, "kept") != Lookup(v.data, "kept") == Lookup(read.data, "kept");
    RightAfterVisitIff(v, s);
  }

  /** If nobody touches the Secret between read and write, only failing calls stop the visit; the result is right. */
  lemma UncontestedVisit(v: Visit, s: Store)
    requires v.name !in v.answers.afterRead
    ensures VisitError(v, s).None? <==> v.answers.readFails.None? && (UpToDate(v, s) || v.answers.reply.Acknowledged?)
    ensures VisitError(v, s).None? ==> IsRight(v, AfterVisit(v, s))
  {
    EditedLookup(Edited(s, v.answers.beforeRead), v.answers.afterRead, v.name);
    if VisitError(v, s).None? {
      RightAfterVisitIff(v, s);
    }
  }

  lemma EditedLookup(s: Store, e: Edits, name: string)
    ensures Lookup(Edited(s, e), name) == EditedAt(s, e, name)
  {
  }

  // ---------- a sequence of them ----------

  function StoreAfter(visits: seq<Visit>, s: Store): Store {
    if visits == [] then s
    else AfterVisit(visits[|visits| - 1], StoreAfter(visits[..|visits| - 1], s))
  }

  /** What the others' edits would have left without the reconcile. */
  function OthersAlone(visits: seq<Visit>, s: Store): Store {
    if visits == [] then s
    else AtWrite(visits[|visits| - 1], OthersAlone(visits[..|visits| - 1], s))
  }

  predicate Touches(v: Visit, name: string) {
    name in v.answers.beforeRead || name in v.answers.afterRead
  }

  /** On a Secret it does not write, a visit is just the others' edits. */
  lemma VisitElsewhere(v: Visit, s: Store, t: Store, name: string)
    requires (name == v.name ==> !TakesEffect(v, s)) && Lookup(s, name) == Lookup(t, name)
    ensures Lookup(AfterVisit(v, s), name) == Lookup(AtWrite(v, t), name)
    ensures !Touches(v, name) ==> Lookup(AfterVisit(v, s), name) == Lookup(s, name)
  {
    var a := v.answers;
    EditedLookup(s, a.beforeRead, name);
    EditedLookup(t, a.beforeRead, name);
    EditedLookup(Edited(s, a.beforeRead), a.afterRead, name);
    EditedLookup(Edited(t, a.beforeRead), a.afterRead, name);
  }

  /** No write to this Secret took effect. */
  predicate NeverWritten(visits: seq<Visit>, s: Store, name: string) {
    forall j :: 0 <= j < |visits| && visits[j].name == name ==> !TakesEffect(visits[j], StoreAfter(visits[..j], s))
  }

  /** A reconcile has no effect on any Secret but those it writes: the rest is what others made of it. */
  lemma {:induction false} OtherSecretsUnaffected(visits: seq<Visit>, s: Store, name: string)
    requires NeverWritten(visits, s, name)
    ensures Lookup(StoreAfter(visits, s), name) == Lookup(OthersAlone(visits, s), name)
  {
    if visits != [] {
      var init, last := visits[..|visits| - 1], visits[|visits| - 1];
      assert forall j :: 0 <= j < |init| ==> init[j] == visits[j] && init[..j] == visits[..j];
      OtherSecretsUnaffected(init, s, name);
      VisitElsewhere(last, StoreAfter(init, s), OthersAlone(init, s), name);
    }
  }

  /** From visit j + 1 on nobody but the reconcile has a hand in the Secret. */
  predicate LeftAlone(visits: seq<Visit>, j: nat, name: string) {
    forall m :: j < m < |visits| ==> visits[m].name != name && !Touches(visits[m], name)
  }

  lemma {:induction false} LaterVisitsKeep(visits: seq<Visit>, s: Store, j: nat, name: string)
    requires j < |visits| && LeftAlone(visits, j, name)
    ensures Lookup(StoreAfter(visits, s), name) == Lookup(StoreAfter(visits[..j + 1], s), name)
  {
    var n := |visits| - 1;
    if j < n {
      var init, last := visits[..n], visits[n];
      assert init[..j + 1] == visits[..j + 1];
      LaterVisitsKeep(init, s, j, name);
      var before := StoreAfter(init, s);
      assert StoreAfter(visits, s) == AfterVisit(last, before);
      VisitElsewhere(last, before, before, name);
    } else {
      assert visits[..j + 1] == visits;
    }
  }

  /**
   At the end of a reconcile, the Secret of a visit that succeeded and that nobody touched later is as
   rendered if and only if nobody spoilt it between that visit's own read and write.
   */
  lemma RightAtEndIff(visits: seq<Visit>, s: Store, j: nat)
    requires j < |visits| && LeftAlone(visits, j, visits[j].name)
    requires VisitError(visits[j], StoreAfter(visits[..j], s)).None?
    ensures IsRight(visits[j], StoreAfter(visits, s)) <==> KeptRight(visits[j], StoreAfter(visits[..j], s))
  {
    var v, before := visits[j], StoreAfter(visits[..j], s);
    LaterVisitsKeep(visits, s, j, v.name);
    RightAfterVisitIff(v, before);
    assert visits[..j + 1][..j] == visits[..j];
    var last, after := StoreAfter(visits, s), AfterVisit(v, before);
    assert Lookup(last, v.name) == Lookup(after, v.name);
    assert v.name in last <==> v.name in after;
  }

  /** Nobody else acts. */
  predicate Quiet(visits: seq<Visit>) {
    forall j :: 0 <= j < |visits| ==> visits[j].answers.beforeRead == map[] && visits[j].answers.afterRead == map[]
  }

  predicate DistinctVisits(visits: seq<Visit>) {
    forall i, j :: 0 <= i < j < |visits| ==> visits[i].name != visits[j].name
  }

  lemma {:induction false} QuietAlone(visits: seq<Visit>, s: Store)
    requires Quiet(visits)
    ensures OthersAlone(visits, s) == s
  {
    if visits != [] {
      var n := |visits| - 1;
      QuietAlone(visits[..n], s);
      assert Edited(s, map[]) == s;
    }
  }

  /** With nobody else around, every successful visit leaves its Secret right to the end; Secrets not written stay. */
  lemma QuietRun(visits: seq<Visit>, s: Store)
    requires Quiet(visits) && DistinctVisits(visits)
    ensures forall j :: 0 <= j < |visits| && VisitError(visits[j], StoreAfter(visits[..j], s)).None? ==>
                          IsRight(visits[j], StoreAfter(visits, s))
    ensures forall name :: NeverWritten(visits, s, name) ==> Lookup(StoreAfter(visits, s), name) == Lookup(s, name)
  {
    forall j | 0 <= j < |visits| && VisitError(visits[j], StoreAfter(visits[..j], s)).None?
      ensures IsRight(visits[j], StoreAfter(visits, s))
    {
      var before := StoreAfter(visits[..j], s);
      UncontestedVisit(visits[j], before);
      RightAfterVisitIff(visits[j], before);
      RightAtEndIff(visits, s, j);
    }
    forall name | NeverWritten(visits, s, name)
      ensures Lookup(StoreAfter(visits, s), name) == Lookup(s, name)
    {
      OtherSecretsUnaffected(visits, s, name);
      QuietAlone(visits, s);
    }
  }
}
