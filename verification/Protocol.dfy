/** The protocol properties of one pass, each for every store and every failure pattern. */
module Protocol {
  import opened Basics
  import opened Objects
  import opened Store
  import opened Names
  import opened Resources
  import opened Stages
  import opened Builders
  import opened Reconcile
  import opened Passes
  import Finalizer
  import Restart
  import Cli
  import Secrets

  function After(w: World, cfg: Settings, sch: Schedule): World {
    ReconcileSpec(w, cfg, sch).0
  }

  // -------------------------------------------------------- events of a pass

  /** The event writes a child object. */
  predicate ChildWrite(e: Event) { e.Created? || e.Updated? || e.TemplateWritten? }

  lemma EffectExtends(u: World, v: World, rmq: Cluster)
    requires Effect(u, v, rmq)
    ensures Extends(u, v) && v.name == u.name
  {
    hide ResourceBuilders, Quiet, MineSet, Cli.Justified, InPlace;
    if Built(u, v, rmq) {
      var j: nat :| StoppedAt(u, v, ResourceBuilders(rmq), 0, j);
    } else if Rolled(u, v, rmq) {
      var since := Restart.ConfChangedAt(u).value;
      var k, now :| Restart.Restarted(u, v, k, since, now);
      Restart.StampEndsStaleness(u, v, k, since, now);
    }
  }

  /** The events of a pass are those of its deletion stage, then those of the stage that acted. */
  lemma EventsSplit(w: World, u: World, v: World, rmq: Cluster)
    requires AfterDeletion(w, u, rmq) && Effect(u, v.(cluster := u.cluster), rmq)
    ensures var v' := v.(cluster := u.cluster);
            && Extends(w, u) && Extends(u, v') && Extends(w, v) && v.name == w.name
            && News(w, v) == News(w, u) + News(u, v')
            && (forall e :: e in News(w, u) ==> Finalizer.DeleteEvent(e))
            && (!rmq.deleting ==> News(w, u) == [] && News(w, v) == News(u, v'))
  {
    hide Effect;
    EffectExtends(u, v.(cluster := u.cluster), rmq);
    NewsCompose(w, u, v.(cluster := u.cluster));
  }

  lemma PassExtends(w: World, cfg: Settings, sch: Schedule)
    requires Live(w)
    ensures After(w, cfg, sch).name == w.name && Extends(w, After(w, cfg, sch))
  {
    hide ReconcileSpec, Clean, Effect, AfterDeletion, Commanded, FlagsGone, Undeleted;
    var u := ChildrenAfter(w, cfg, sch);
    EventsSplit(w, u, After(w, cfg, sch), w.cluster.value);
  }

  /** Only a builder creates a child, and only its own, after every builder before it found its object in place. */
  ghost predicate CreatedInOrder(u: World, rmq: Cluster, k: Key) {
    Quiet(u) && exists j :: CreatedAt(u, rmq, k, j)
  }

  ghost predicate CreatedAt(u: World, rmq: Cluster, k: Key, j: nat) {
    var bs := ResourceBuilders(rmq);
    j < |bs| && bs[j].key == k && forall m :: 0 <= m < j ==> InPlace(bs[m], u)
  }

  lemma CreationIsBuilt(u: World, v: World, rmq: Cluster, k: Key)
    requires Effect(u, v, rmq) && Extends(u, v) && Created(k) in News(u, v)
    ensures CreatedInOrder(u, rmq, k)
  {
    hide ResourceBuilders, Quiet, MineSet, InPlace, OwnWrite;
    if Built(u, v, rmq) {
      var bs := ResourceBuilders(rmq);
      var j: nat :| StoppedAt(u, v, bs, 0, j);
      assert BuilderEvent(Created(k), bs[j].key);
      assert CreatedAt(u, rmq, k, j);
    } else {
      NoCreation(u, v, rmq, k);
    }
  }

  lemma NoCreation(u: World, v: World, rmq: Cluster, k: Key)
    requires Rolled(u, v, rmq) || Commanded(u, v, rmq) || v == u
    ensures Extends(u, v) && Created(k) !in News(u, v)
  {
    hide ResourceBuilders, Quiet, MineSet, AllInPlace, NoneStale, Cli.CommandRan;
    if Rolled(u, v, rmq) {
      var since := Restart.ConfChangedAt(u).value;
      var key, now :| Restart.Restarted(u, v, key, since, now);
      RestartEvents(u, v, key, since, now);
    } else if Commanded(u, v, rmq) {
      Cli.ClearedMeansRan(News(u, v), rmq, k, "");
    } else {
      assert News(u, u) == [];
    }
  }

  lemma RestartEvents(u: World, v: World, k: Key, since: string, now: string)
    requires Restart.Restarted(u, v, k, since, now)
    ensures Extends(u, v) && forall e :: e in News(u, v) ==> e == Updated(k) || e == TemplateWritten(k)
  {
    var o := Restart.Stamp(u.objects[k], now);
    assert News(u, v) == [Updated(k)] + TemplateEvents(k, TemplateChanged(u.objects[k], o));
  }

  // --------------------------------------------------------- ordered bring-up

  /**
    Ordered bring-up. A pass that creates node i of the cluster started from a store (after
    its deletion stage) in which every set was settled, every service, secret, config map
    and role was in place, and nodes 0..i-1 were in place.
  */
  lemma OrderedBringUp(w: World, cfg: Settings, sch: Schedule, i: nat) returns (u: World)
    requires Live(w)
    requires Extends(w, After(w, cfg, sch)) && Created(NodeKey(w.name, i)) in News(w, After(w, cfg, sch))
    ensures var rmq := w.cluster.value;
            && AfterDeletion(w, u, rmq) && Quiet(u) && i < rmq.spec.replicas
            && (forall b :: b in BaseBuilders(rmq) ==> InPlace(b, u))
            && (forall m :: 0 <= m < i ==> InPlace(NodeBuilder(rmq, m), u))
  {
    hide ReconcileSpec, Quiet, InPlace, Clean, Effect, AfterDeletion, BaseBuilders, NodeBuilder, CreatedAt, Undeleted;
    var rmq, v := w.cluster.value, After(w, cfg, sch);
    u := ChildrenAfter(w, cfg, sch);
    EventsSplit(w, u, v, rmq);
    var k := NodeKey(w.name, i);
    CreationIsBuilt(u, v.(cluster := u.cluster), rmq, k);
    var j: nat :| CreatedAt(u, rmq, k, j);
    NodePosition(u, rmq, i, j);
  }

  /** The builder with node i's key stands right after the base builders and the nodes before it. */
  lemma NodePosition(u: World, rmq: Cluster, i: nat, j: nat)
    requires CreatedAt(u, rmq, NodeKey(rmq.name, i), j)
    ensures i < rmq.spec.replicas
    ensures forall b :: b in BaseBuilders(rmq) ==> InPlace(b, u)
    ensures forall m :: 0 <= m < i ==> InPlace(NodeBuilder(rmq, m), u)
  {
    BaseKeysDistinct(rmq);
    hide BaseBuilders, InPlace;
    var base, bs := BaseBuilders(rmq), ResourceBuilders(rmq);
    forall m | 0 <= m < |base| ensures bs[m].key.kind != KindStatefulSet {
      assert base[m] in base;
    }
    var n := j - |base|;
    assert bs[j] == NodeBuilder(rmq, n);
    NodeNamesInjective(rmq.name, i, n);
    forall b | b in base ensures InPlace(b, u) {
      var m :| 0 <= m < |base| && base[m] == b;
      assert bs[m] == b;
    }
    forall m | 0 <= m < i ensures InPlace(NodeBuilder(rmq, m), u) {
      assert bs[|base| + m] == NodeBuilder(rmq, m);
    }
  }

  // --------------------------------------------- what happens to one object

  /** The builder with this key renewed the object. */
  ghost predicate RenewedByBuilder(u: World, v: World, rmq: Cluster, k: Key) {
    exists b :: b in ResourceBuilders(rmq) && b.key == k && Resources.Renewed(u, v, b)
  }

  /** The builder with this key made the object. */
  ghost predicate MadeByBuilder(u: World, v: World, rmq: Cluster, k: Key)
    requires Extends(u, v)
  {
    exists b :: b in ResourceBuilders(rmq) && b.key == k && Made(u, v, b)
  }

  /** All that one stage can do to an object that existed. */
  ghost predicate ObjectStep(u: World, v: World, rmq: Cluster, k: Key)
    requires Extends(u, v)
  {
    || (k in u.objects && k in v.objects && v.objects[k] == u.objects[k])
    || RenewedByBuilder(u, v, rmq, k)
    || (k.kind == KindStatefulSet && Deleted(k) in News(u, v) && (k in v.objects ==> MadeByBuilder(u, v, rmq, k)))
    || (k in u.objects && k in v.objects && Cli.Unflagged(u.objects[k], v.objects[k], k, News(u, v)))
    || (exists since, now :: Restart.Restarted(u, v, k, since, now))
  }

  lemma BuilderObjectStep(u: World, v: World, rmq: Cluster, j: nat, k: Key)
    requires StoppedAt(u, v, ResourceBuilders(rmq), 0, j)
    ensures k in u.objects ==> ObjectStep(u, v, rmq, k)
    ensures k !in u.objects && k in v.objects ==> MadeByBuilder(u, v, rmq, k)
  {
    hide ResourceBuilders, InPlace, MadeFrom, MaybeFlagged, Cli.Unflagged, Restart.Restarted;
    var b := ResourceBuilders(rmq)[j];
    assert b in ResourceBuilders(rmq);
    if k == b.key {
      assert Deleted(k) in News(u, v) ==> BuilderEvent(Deleted(k), b.key);
      assert Made(u, v, b) ==> MadeByBuilder(u, v, rmq, k);
      assert Resources.Renewed(u, v, b) ==> RenewedByBuilder(u, v, rmq, k);
    } else {
      assert k in u.objects ==> k in u.objects - {b.key};
      assert k in v.objects ==> k in v.objects - {b.key};
      assert k in u.objects ==> v.objects[k] == (v.objects - {b.key})[k] == (u.objects - {b.key})[k];
    }
  }

  lemma ObjectAfter(u: World, v: World, rmq: Cluster, k: Key)
    requires Effect(u, v, rmq) && Extends(u, v)
    ensures k in u.objects ==> ObjectStep(u, v, rmq, k)
    ensures k !in u.objects && k in v.objects ==> MadeByBuilder(u, v, rmq, k)
  {
    hide ResourceBuilders, Quiet, MineSet, AllInPlace, NoneStale, StoppedAt, RenewedByBuilder, MadeByBuilder;
    hide Cli.Justified;
    if Built(u, v, rmq) {
      var j: nat :| StoppedAt(u, v, ResourceBuilders(rmq), 0, j);
      BuilderObjectStep(u, v, rmq, j, k);
    } else if Rolled(u, v, rmq) {
      var since := Restart.ConfChangedAt(u).value;
      var key, now :| Restart.Restarted(u, v, key, since, now);
      if k == key {
        assert Restart.Restarted(u, v, k, since, now);
      } else {
        assert k in v.objects <==> k in u.objects;
      }
    } else if Commanded(u, v, rmq) {
    }
  }

  /** Deletion removes whole sets and leaves every other object alone. */
  lemma DeletionOfObject(w: World, u: World, rmq: Cluster, k: Key)
    requires AfterDeletion(w, u, rmq) && k in w.objects
    ensures k in u.objects ==> u.objects[k] == w.objects[k]
    ensures k !in u.objects ==>
              rmq.deleting && k.kind == KindStatefulSet && Finalizer.DeletedProperly(w, News(w, u), k, rmq)
  {
  }

  // -------------------------------------------------------------- credentials

  function UserKey(cluster: string): Key { Key(KindSecret, ChildResourceName(cluster, "default-user")) }

  /** Data fields that no Update writes are kept: username, password, cookie and generated configuration among them. */
  ghost predicate DataKept(o: Object, p: Object) {
    && o.Secret? && p.Secret?
    && forall f :: !Secrets.Maintained(f) ==> (f in p.data <==> f in o.data) && (f in o.data ==> p.data[f] == o.data[f])
  }

  ghost predicate SecretsKept(w: World, v: World) {
    forall k :: k in w.objects && k.kind == KindSecret && w.objects[k].Secret? ==>
      k in v.objects && DataKept(w.objects[k], v.objects[k])
  }

  /**
    The default user secret is of one piece: its connection string spells the stored credentials,
    default_user.conf makes the broker create this very user, and the host is the client service,
    if its address is known.
  */
  ghost predicate OfOnePiece(o: Object, host: Option<string>) {
    && o.Secret? && Secrets.Agrees(o.data) && Secrets.LogsIn(o.data)
    && (host.Some? ==> Lookup(o.data, "host") == host.value)
  }

  /** The address of the client service within the Kubernetes cluster. */
  function HostOf(c: Option<Cluster>): Option<string> {
    if c.Some? then Some(c.value.name + "." + c.value.namespace + ".svc") else None
  }

  ghost predicate SecretAgrees(w: World) {
    UserKey(w.name) in w.objects ==> OfOnePiece(w.objects[UserKey(w.name)], HostOf(w.cluster))
  }

  lemma SecretUpdate(rmq: Cluster, b: Builder, o: Object)
    requires Clean(rmq) && b in ResourceBuilders(rmq) && b.key.kind == KindSecret && b.update(o).Accepted?
    ensures DataKept(o, b.update(o).result)
    ensures b.key == UserKey(rmq.name) ==> Secrets.Agrees(b.update(o).result.data)
  {
    hide ResourceBuilders, IsPlain, Secrets.Maintained, Secrets.UpdatedData, Secrets.Agrees, Clean, ChildResourceName;
    hide Touched, PlainUpdate;
    BuilderKinds(rmq, b);
    SuffixesApart(rmq.name);
    if b == UserBuilder(rmq) {
      UserUpdate(rmq, o);
      Secrets.UpdateKeepsCredentials(rmq, o.data);
    } else {
      CookieUpdate(rmq, o);
    }
  }

  lemma FlaggedData(o: Object, p: Object)
    requires MaybeFlagged(o, p) && o.Secret?
    ensures p.Secret? && p.data == o.data
  {
    hide OperatorKey;
  }

  lemma SecretRenewed(u: World, v: World, rmq: Cluster, k: Key)
    requires Clean(rmq) && k.kind == KindSecret && RenewedByBuilder(u, v, rmq, k)
    ensures k in u.objects && k in v.objects && DataKept(u.objects[k], v.objects[k])
    ensures k == UserKey(rmq.name) ==> Secrets.Agrees(v.objects[k].data)
  {
    hide ResourceBuilders, Secrets.Agrees, Secrets.Maintained, Clean, OperatorKey, UserKey;
    var b :| b in ResourceBuilders(rmq) && b.key == k && Resources.Renewed(u, v, b);
    SecretUpdate(rmq, b, u.objects[k]);
    FlaggedData(b.update(u.objects[k]).result, v.objects[k]);
  }

  /** A new user secret is of one piece. */
  lemma SecretMade(u: World, v: World, rmq: Cluster, k: Key)
    requires Extends(u, v) && Clean(rmq) && k.kind == KindSecret && MadeByBuilder(u, v, rmq, k)
    ensures k in v.objects && v.objects[k].Secret?
    ensures k == UserKey(rmq.name) ==> OfOnePiece(v.objects[k], HostOf(Some(rmq)))
  {
    hide ResourceBuilders, Secrets.Agrees, Secrets.Maintained, Secrets.LogsIn, Clean, OperatorKey, UserKey;
    var b :| b in ResourceBuilders(rmq) && b.key == k && Made(u, v, b);
    var r: Encoded :| MadeFrom(v, b, r);
    SecretUpdate(rmq, b, b.build(r));
    FlaggedData(b.update(b.build(r)).result, v.objects[k]);
    if k == UserKey(rmq.name) {
      UserBuilt(rmq, b, r);
      Secrets.LogsInKept(b.build(r).data, b.update(b.build(r)).result.data);
    }
  }

  lemma UserBuilt(rmq: Cluster, b: Builder, r: Encoded)
    requires Clean(rmq) && b in ResourceBuilders(rmq) && b.key == UserKey(rmq.name)
    ensures b.build(r).Secret? && Secrets.LogsIn(b.build(r).data)
    ensures Some(Lookup(b.build(r).data, "host")) == HostOf(Some(rmq))
  {
    hide ResourceBuilders, IsPlain, Secrets.BuildData, Secrets.LogsIn, Clean, ChildResourceName, PlainUpdate;
    BuilderKinds(rmq, b);
    SuffixesApart(rmq.name);
    Secrets.BuiltCredentials(rmq, r);
  }

  /** A secret whose data fields are kept and whose connection string agrees stays of one piece. */
  lemma PieceKept(o: Object, p: Object, host: Option<string>)
    requires OfOnePiece(o, host) && DataKept(o, p) && Secrets.Agrees(p.data)
    ensures OfOnePiece(p, host)
  {
    hide Secrets.Agrees, Secrets.LogsIn, Secrets.Maintained;
    Secrets.LogsInKept(o.data, p.data);
  }

  /** What one stage makes of a secret: its credentials are kept, and the user secret agrees or keeps its data. */
  lemma SecretStep(u: World, v: World, rmq: Cluster, k: Key)
    requires Clean(rmq) && rmq.name == u.name && Effect(u, v, rmq) && Extends(u, v) && k.kind == KindSecret
    requires k in u.objects ==> u.objects[k].Secret?
    ensures k in u.objects ==> k in v.objects && DataKept(u.objects[k], v.objects[k])
    ensures k == UserKey(u.name) && k in v.objects
              && (k in u.objects ==> OfOnePiece(u.objects[k], HostOf(Some(rmq)))) ==>
              OfOnePiece(v.objects[k], HostOf(Some(rmq)))
  {
    hide Effect, ResourceBuilders, Secrets.Agrees, Secrets.LogsIn, Secrets.Maintained, Clean, OperatorKey;
    hide RenewedByBuilder, MadeByBuilder, UserKey, HostOf;
    ObjectAfter(u, v, rmq, k);
    if k in u.objects {
      if RenewedByBuilder(u, v, rmq, k) {
        SecretRenewed(u, v, rmq, k);
        if k == UserKey(u.name) && OfOnePiece(u.objects[k], HostOf(Some(rmq))) {
          PieceKept(u.objects[k], v.objects[k], HostOf(Some(rmq)));
        }
      }
    } else if k in v.objects {
      SecretMade(u, v, rmq, k);
    }
  }

  /**
    Credentials are stable: no pass changes or loses a stored one, and a user secret of one piece
    stays so: the user that the broker creates is the one that the secret publishes.
  */
  lemma CredentialsStable(w: World, cfg: Settings, sch: Schedule)
    requires Live(w) && WellTyped(w)
    ensures SecretsKept(w, After(w, cfg, sch))
    ensures SecretAgrees(w) ==> SecretAgrees(After(w, cfg, sch))
  {
    hide ReconcileSpec, Effect, Clean, DataKept, Secrets.Agrees, Secrets.LogsIn, AfterDeletion, Commanded, FlagsGone;
    hide Undeleted;
    hide PastDeletion, StatusEnd, MarkEnd, Flagged, Quiet, AllInPlace;
    var rmq, v := w.cluster.value, After(w, cfg, sch);
    var u := ChildrenAfter(w, cfg, sch);
    EventsSplit(w, u, v, rmq);
    ClusterAfter(w, cfg, sch);
    var v' := v.(cluster := u.cluster);
    NameAfterDeletion(w, u, rmq);
    forall k: Key | k.kind == KindSecret
      ensures k in w.objects && w.objects[k].Secret? ==> k in v.objects && DataKept(w.objects[k], v.objects[k])
      ensures k == UserKey(w.name) && k in v.objects && SecretAgrees(w) ==> OfOnePiece(v.objects[k], HostOf(Some(rmq)))
    {
      if k in w.objects {
        DeletionOfObject(w, u, rmq, k);
      } else {
        NotRevived(w, u, rmq, k);
      }
      SecretStep(u, v', rmq, k);
    }
  }

  lemma NameAfterDeletion(w: World, u: World, rmq: Cluster)
    requires AfterDeletion(w, u, rmq)
    ensures u.name == w.name && u.claims == w.claims
  {
  }

  lemma NotRevived(w: World, u: World, rmq: Cluster, k: Key)
    requires AfterDeletion(w, u, rmq) && k !in w.objects
    ensures k !in u.objects
  {
  }
}
