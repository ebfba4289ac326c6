/** The status conditions (internal/status and api/v1beta1/rabbitmqcluster_status.go). */
module Conditions {
  import opened Basics
  import opened Objects
  import opened Store
  import opened Names
  import opened Client

  /** What getChildResources hands over; None is a typed nil pointer. */
  datatype Resource = SetResource(set_: Option<Object>) | EndpointsResource(subsets: Option<seq<nat>>)

  predicate WellFormed(resources: seq<Resource>) {
    forall i :: 0 <= i < |resources| && resources[i].SetResource? && resources[i].set_.Some? ==>
      resources[i].set_.value.StatefulSet?
  }

  // -------------------------------------------------------------- SetCondition

  function UpdateCondition(c: Condition, status: ConditionStatus, reason: string, message: string,
      now: string): Condition
  {
    c.(lastTransition := if c.status != status then now else c.lastTransition,
       status := status, reason := reason, message := message)
  }

  /** Index of the first entry of this type from i on, or the length. */
  function FirstOf(conditions: seq<Condition>, ctype: ConditionType, i: nat): (r: nat)
    requires i <= |conditions|
    ensures i <= r <= |conditions|
    ensures r < |conditions| ==> conditions[r].ctype == ctype
    ensures forall j :: i <= j < r ==> conditions[j].ctype != ctype
    decreases |conditions| - i
  {
    if i == |conditions| || conditions[i].ctype == ctype then i else FirstOf(conditions, ctype, i + 1)
  }

  /** SetCondition: the first entry of this type is updated; a missing type is ignored. */
  function SetConditionSpec(
    conditions: seq<Condition>, ctype: ConditionType, status: ConditionStatus,
    reason: string, message: string, now: string): seq<Condition>
  {
    var i := FirstOf(conditions, ctype, 0);
    if i == |conditions| then conditions
    else conditions[i := UpdateCondition(conditions[i], status, reason, message, now)]
  }

  /** SetCondition on the cached cluster. */
  function WithCondition(s: Sys, ctype: ConditionType, status: ConditionStatus, reason: string, message: string,
      sch: Schedule): Sys
  {
    s.(rmq := s.rmq.(status := s.rmq.status.(conditions :=
      SetConditionSpec(s.rmq.status.conditions, ctype, status, reason, message, sch.now(s.calls)))))
  }

  method SetCondition(api: Api, ctype: ConditionType, status: ConditionStatus, reason: string, message: string)
    modifies api`rmq
    ensures api.State() == WithCondition(old(api.State()), ctype, status, reason, message, api.sch)
  {
    var conditions := api.rmq.status.conditions;
    for i := 0 to |conditions|
      invariant conditions == old(api.rmq.status.conditions)
      invariant FirstOf(conditions, ctype, i) == FirstOf(conditions, ctype, 0)
    {
      if conditions[i].ctype == ctype {
        conditions := conditions[i := UpdateCondition(conditions[i], status, reason, message, api.sch.now(api.calls))];
        break;
      }
    }
    api.rmq := api.rmq.(status := api.rmq.status.(conditions := conditions));
  }

  // ------------------------------------------------------------- SetConditions

  /** Old condition of a type: the last entry wins. */
  function Latest(conditions: seq<Condition>, ctype: ConditionType): Option<Condition> {
    if conditions == [] then None
    else
      var last := conditions[|conditions| - 1];
      if last.ctype == ctype then Some(last) else Latest(conditions[..|conditions| - 1], ctype)
  }

  /** newRabbitmqClusterCondition, keeping the old transition time. */
  function Fresh(ctype: ConditionType, prior: Option<Condition>): Condition {
    Condition(ctype, ConditionUnknown, if prior.Some? then prior.value.lastTransition else "", "", "")
  }

  /** AllReplicasReadyCondition: every set overwrites what earlier ones said, messages included. */
  function AllReplicasReadyFrom(resources: seq<Resource>, c: Condition): Condition
    requires WellFormed(resources)
  {
    if resources == [] then c
    else
      var rest, last := resources[..|resources| - 1], resources[|resources| - 1];
      var c0 := AllReplicasReadyFrom(rest, c);
      if !last.SetResource? then c0
      else if last.set_.None? then
        c0.(status := ConditionUnknown, reason := "MissingStatefulSet", message := "Could not find StatefulSet")
      else
        var o := last.set_.value;
        if o.spec.replicas == o.status.readyReplicas then
          c0.(status := ConditionTrue, reason := "AllPodsAreReady")
        else
          c0.(status := ConditionFalse, reason := "NotAllPodsReady",
              message := Itoa(o.status.readyReplicas) + "/" + Itoa(o.spec.replicas) + " Pods ready")
  }

  /** ClusterAvailableCondition: with endpoints the last assignments always say False. */
  function ClusterAvailableFrom(resources: seq<Resource>, c: Condition): Condition {
    if resources == [] then c
    else
      var rest, last := resources[..|resources| - 1], resources[|resources| - 1];
      var c0 := ClusterAvailableFrom(rest, c);
      if !last.EndpointsResource? then c0
      else if last.subsets.None? then
        c0.(status := ConditionUnknown, reason := "CouldNotRetrieveEndpoints",
            message := "Could not verify available service endpoints")
      else
        c0.(status := ConditionFalse, reason := "NoEndpointsAvailable",
            message := "The service has no endpoints available")
  }

  /** Memory limit and request of the first container agree. */
  predicate MemoryAgrees(o: Object)
    requires o.StatefulSet?
  {
    var containers := o.spec.template.containers;
    containers == [] || containers[0].memoryLimit == containers[0].memoryRequest
  }

  function NoWarningsFrom(resources: seq<Resource>, c: Condition): Condition
    requires WellFormed(resources)
  {
    if resources == [] then c
    else
      var rest, last := resources[..|resources| - 1], resources[|resources| - 1];
      var c0 := NoWarningsFrom(rest, c);
      if !last.SetResource? then c0
      else if last.set_.None? then
        c0.(status := ConditionUnknown, reason := "MissingStatefulSet", message := "Could not find StatefulSet")
      else if !MemoryAgrees(last.set_.value) then
        c0.(status := ConditionFalse, reason := "MemoryRequestAndLimitDifferent",
            message := "RabbitMQ container memory resource request and limit must be equal")
      else
        c0.(status := ConditionTrue, reason := "NoWarnings")
  }

  function SetConditionsSpec(resources: seq<Resource>, conditions: seq<Condition>, now: string): seq<Condition>
    requires WellFormed(resources)
  {
    var success := Latest(conditions, ReconcileSuccess);
    [ AllReplicasReadyFrom(resources, Fresh(AllReplicasReady, Latest(conditions, AllReplicasReady))),
      ClusterAvailableFrom(resources, Fresh(ClusterAvailable, Latest(conditions, ClusterAvailable))),
      NoWarningsFrom(resources, Fresh(NoWarnings, Latest(conditions, NoWarnings))),
      if success.Some? then success.value
      else Condition(ReconcileSuccess, ConditionUnknown, now, "Initialising", "") ]
  }

  /** The condition list is empty or holds the four types once each, in this order. */
  predicate InShape(conditions: seq<Condition>) {
    conditions == []
    || (&& |conditions| == 4
        && conditions[0].ctype == AllReplicasReady && conditions[1].ctype == ClusterAvailable
        && conditions[2].ctype == NoWarnings && conditions[3].ctype == ReconcileSuccess)
  }

  lemma {:induction false} AllReplicasReadyKeeps(resources: seq<Resource>, c: Condition)
    requires WellFormed(resources)
    ensures AllReplicasReadyFrom(resources, c).ctype == c.ctype
    ensures AllReplicasReadyFrom(resources, c).lastTransition == c.lastTransition
  {
    if resources != [] {
      AllReplicasReadyKeeps(resources[..|resources| - 1], c);
    }
  }

  lemma {:induction false} ClusterAvailableKeeps(resources: seq<Resource>, c: Condition)
    ensures ClusterAvailableFrom(resources, c).ctype == c.ctype
    ensures ClusterAvailableFrom(resources, c).lastTransition == c.lastTransition
  {
    if resources != [] {
      ClusterAvailableKeeps(resources[..|resources| - 1], c);
    }
  }

  lemma {:induction false} NoWarningsKeeps(resources: seq<Resource>, c: Condition)
    requires WellFormed(resources)
    ensures NoWarningsFrom(resources, c).ctype == c.ctype
    ensures NoWarningsFrom(resources, c).lastTransition == c.lastTransition
  {
    if resources != [] {
      NoWarningsKeeps(resources[..|resources| - 1], c);
    }
  }

  lemma LatestType(conditions: seq<Condition>, ctype: ConditionType)
    ensures Latest(conditions, ctype).Some? ==> Latest(conditions, ctype).value.ctype == ctype
  {
  }

  lemma LatestInShape(conditions: seq<Condition>)
    requires InShape(conditions) && conditions != []
    ensures Latest(conditions, AllReplicasReady) == Some(conditions[0])
    ensures Latest(conditions, ClusterAvailable) == Some(conditions[1])
    ensures Latest(conditions, NoWarnings) == Some(conditions[2])
    ensures Latest(conditions, ReconcileSuccess) == Some(conditions[3])
  {
    var c1, c2, c3 := conditions[..1], conditions[..2], conditions[..3];
    assert c3[..2] == c2 && c2[..1] == c1 && conditions[..3] == c3;
    assert Latest(c1, AllReplicasReady) == Some(conditions[0]);
    assert Latest(c2, AllReplicasReady) == Some(conditions[0]);
    assert Latest(c2, ClusterAvailable) == Some(conditions[1]);
    assert Latest(c3, AllReplicasReady) == Some(conditions[0]);
    assert Latest(c3, ClusterAvailable) == Some(conditions[1]);
  }

  /** Whatever list it starts from, SetConditions yields the four types in order. */
  lemma SetConditionsShape(resources: seq<Resource>, conditions: seq<Condition>, now: string)
    requires WellFormed(resources)
    ensures InShape(SetConditionsSpec(resources, conditions, now))
    ensures SetConditionsSpec(resources, conditions, now) != []
  {
    AllReplicasReadyKeeps(resources, Fresh(AllReplicasReady, Latest(conditions, AllReplicasReady)));
    ClusterAvailableKeeps(resources, Fresh(ClusterAvailable, Latest(conditions, ClusterAvailable)));
    NoWarningsKeeps(resources, Fresh(NoWarnings, Latest(conditions, NoWarnings)));
    LatestType(conditions, ReconcileSuccess);
  }

  /** A second SetConditions over the same resources changes nothing, at any later time. */
  lemma SetConditionsTwice(resources: seq<Resource>, conditions: seq<Condition>, now: string, later: string)
    requires WellFormed(resources)
    ensures var once := SetConditionsSpec(resources, conditions, now);
            SetConditionsSpec(resources, once, later) == once
  {
    var once := SetConditionsSpec(resources, conditions, now);
    SetConditionsShape(resources, conditions, now);
    LatestInShape(once);
    AllReplicasReadyKeeps(resources, Fresh(AllReplicasReady, Latest(conditions, AllReplicasReady)));
    ClusterAvailableKeeps(resources, Fresh(ClusterAvailable, Latest(conditions, ClusterAvailable)));
    NoWarningsKeeps(resources, Fresh(NoWarnings, Latest(conditions, NoWarnings)));
  }

  /** SetCondition keeps the shape and every other entry, and moves the transition time exactly with the status. */
  lemma SetConditionLocal(
    conditions: seq<Condition>, ctype: ConditionType, status: ConditionStatus,
    reason: string, message: string, now: string, other: ConditionType)
    requires InShape(conditions)
    ensures var r := SetConditionSpec(conditions, ctype, status, reason, message, now);
            && InShape(r) && |r| == |conditions|
            && (other != ctype ==> Latest(r, other) == Latest(conditions, other))
            && (conditions != [] ==>
                  && Latest(conditions, ctype).Some?
                  && var was := Latest(conditions, ctype).value;
                    Latest(r, ctype) ==
                      Some(Condition(ctype, status, if was.status == status then was.lastTransition else now, reason,
                        message)))
  {
    if conditions != [] {
      var r := SetConditionSpec(conditions, ctype, status, reason, message, now);
      LatestInShape(conditions);
      LatestInShape(r);
    }
  }

  /** The list says that the last reconciliation succeeded. */
  predicate Successful(conditions: seq<Condition>) {
    var success := Latest(conditions, ReconcileSuccess);
    success.Some? && success.value.status == ConditionTrue
  }

  /** What a stage may make of the status: it never declares success, records a generation or changes the replicas. */
  ghost predicate StatusAfter(a: ClusterStatus, b: ClusterStatus) {
    && (InShape(a.conditions) ==> InShape(b.conditions) && (Successful(b.conditions) ==> Successful(a.conditions)))
    && b.replicas == a.replicas && b.observedGeneration == a.observedGeneration
  }

  /** Setting any condition to anything but success is such a change. */
  lemma ConditionKeeps(s: Sys, ctype: ConditionType, status: ConditionStatus, reason: string, message: string,
      sch: Schedule)
    requires status != ConditionTrue
    ensures var t := WithCondition(s, ctype, status, reason, message, sch);
            && StatusAfter(s.rmq.status, t.rmq.status)
            && t.rmq == s.rmq.(status := s.rmq.status.(conditions := t.rmq.status.conditions))
            && t.world == s.world && t.calls == s.calls
  {
    var conditions := s.rmq.status.conditions;
    if InShape(conditions) {
      SetConditionLocal(conditions, ctype, status, reason, message, sch.now(s.calls), ReconcileSuccess);
    }
  }

  /** SetConditions is such a change too. */
  lemma SetConditionsKeeps(resources: seq<Resource>, status: ClusterStatus, now: string)
    requires WellFormed(resources)
    ensures StatusAfter(status, status.(conditions := SetConditionsSpec(resources, status.conditions, now)))
  {
    SetConditionsShape(resources, status.conditions, now);
    LatestInShape(SetConditionsSpec(resources, status.conditions, now));
  }

  /** What one set alone makes of the AllReplicasReady status. */
  function ReadyStatus(set_: Option<Object>): ConditionStatus
    requires set_.Some? ==> set_.value.StatefulSet?
  {
    if set_.None? then ConditionUnknown
    else if set_.value.spec.replicas == set_.value.status.readyReplicas then ConditionTrue else ConditionFalse
  }

  function ReadyReason(set_: Option<Object>): string
    requires set_.Some? ==> set_.value.StatefulSet?
  {
    if set_.None? then "MissingStatefulSet"
    else if set_.value.spec.replicas == set_.value.status.readyReplicas then "AllPodsAreReady" else "NotAllPodsReady"
  }

  function WarningReason(set_: Option<Object>): string
    requires set_.Some? ==> set_.value.StatefulSet?
  {
    if set_.None? then "MissingStatefulSet"
    else if MemoryAgrees(set_.value) then "NoWarnings" else "MemoryRequestAndLimitDifferent"
  }

  function WarningStatus(set_: Option<Object>): ConditionStatus
    requires set_.Some? ==> set_.value.StatefulSet?
  {
    if set_.None? then ConditionUnknown else if MemoryAgrees(set_.value) then ConditionTrue else ConditionFalse
  }

  /** The last set among the resources alone decides two of the conditions. */
  lemma {:induction false} LastSetDecides(resources: seq<Resource>, m: nat, c: Condition, d: Condition)
    requires WellFormed(resources) && m < |resources| && resources[m].SetResource?
    requires forall i :: m < i < |resources| ==> !resources[i].SetResource?
    ensures AllReplicasReadyFrom(resources, c).status == ReadyStatus(resources[m].set_)
    ensures AllReplicasReadyFrom(resources, c).reason == ReadyReason(resources[m].set_)
    ensures NoWarningsFrom(resources, d).status == WarningStatus(resources[m].set_)
    ensures NoWarningsFrom(resources, d).reason == WarningReason(resources[m].set_)
  {
    if m < |resources| - 1 {
      LastSetDecides(resources[..|resources| - 1], m, c, d);
    }
  }

  /** The last endpoints among the resources alone decide the ClusterAvailable status, and never to True. */
  lemma {:induction false} LastEndpointsDecide(resources: seq<Resource>, m: nat, c: Condition)
    requires m < |resources| && resources[m].EndpointsResource?
    requires forall i :: m < i < |resources| ==> !resources[i].EndpointsResource?
    ensures ClusterAvailableFrom(resources, c).status == if resources[m].subsets.Some? then ConditionFalse
              else ConditionUnknown
  {
    if m < |resources| - 1 {
      LastEndpointsDecide(resources[..|resources| - 1], m, c);
    }
  }

  lemma {:induction false} NoEndpoints(resources: seq<Resource>, c: Condition)
    requires forall i :: 0 <= i < |resources| ==> !resources[i].EndpointsResource?
    ensures ClusterAvailableFrom(resources, c) == c
  {
    if resources != [] {
      NoEndpoints(resources[..|resources| - 1], c);
    }
  }

  lemma {:induction false} NoSets(resources: seq<Resource>, c: Condition)
    requires WellFormed(resources) && forall i :: 0 <= i < |resources| ==> !resources[i].SetResource?
    ensures AllReplicasReadyFrom(resources, c) == c
  {
    if resources != [] {
      NoSets(resources[..|resources| - 1], c);
    }
  }

  /** The conditions cannot tell the two sets apart. */
  ghost predicate SameView(o: Object, p: Object) {
    && o.StatefulSet? && p.StatefulSet?
    && p.spec.replicas == o.spec.replicas && p.status.readyReplicas == o.status.readyReplicas
    && MemoryAgrees(p) == MemoryAgrees(o)
  }

  ghost predicate SameViews(a: seq<Resource>, b: seq<Resource>) {
    && |a| == |b|
    && forall i :: 0 <= i < |a| ==>
         || b[i] == a[i]
         || (&& a[i].SetResource? && a[i].set_.Some? && b[i].SetResource? && b[i].set_.Some?
             && SameView(a[i].set_.value, b[i].set_.value))
  }

  lemma {:induction false} ViewsDecide(a: seq<Resource>, b: seq<Resource>, c: Condition)
    requires WellFormed(a) && WellFormed(b) && SameViews(a, b)
    ensures AllReplicasReadyFrom(a, c) == AllReplicasReadyFrom(b, c)
    ensures ClusterAvailableFrom(a, c) == ClusterAvailableFrom(b, c)
    ensures NoWarningsFrom(a, c) == NoWarningsFrom(b, c)
  {
    hide MemoryAgrees, Itoa;
    if a != [] {
      var n := |a| - 1;
      assert SameViews(a[..n], b[..n]);
      ViewsDecide(a[..n], b[..n], c);
    }
  }

  /** Setting the success condition leaves conditions that are up to date up to date. */
  lemma DeclaredUpToDate(resources: seq<Resource>, conditions: seq<Condition>, now: string, reason: string,
      message: string, later: string)
    requires WellFormed(resources) && SetConditionsSpec(resources, conditions, now) == conditions
    ensures var r := SetConditionSpec(conditions, ReconcileSuccess, ConditionTrue, reason, message, now);
            && SetConditionsSpec(resources, r, later) == r && InShape(r)
            && Latest(r, ReconcileSuccess).Some?
            && var c := Latest(r, ReconcileSuccess).value;
              c.status == ConditionTrue && c.reason == reason && c.message == message
  {
    SetConditionsShape(resources, conditions, now);
    LatestInShape(conditions);
    var r := SetConditionSpec(conditions, ReconcileSuccess, ConditionTrue, reason, message, now);
    LatestInShape(r);
    hide AllReplicasReadyFrom, ClusterAvailableFrom, NoWarningsFrom, Latest;
  }

  /** Declaring a success that is already declared changes nothing. */
  lemma DeclaredTwice(conditions: seq<Condition>, reason: string, message: string, now: string)
    requires InShape(conditions) && Latest(conditions, ReconcileSuccess).Some?
    requires var c := Latest(conditions, ReconcileSuccess).value;
              c.status == ConditionTrue && c.reason == reason && c.message == message
    ensures SetConditionSpec(conditions, ReconcileSuccess, ConditionTrue, reason, message, now) == conditions
  {
    if conditions != [] {
      LatestInShape(conditions);
    }
  }

  // ------------------------------------------------------------ the loop itself

  method SetConditions(resources: seq<Resource>, conditions: seq<Condition>, now: string) returns (r: seq<Condition>)
    requires WellFormed(resources)
    ensures r == SetConditionsSpec(resources, conditions, now)
  {
    var oldReady, oldAvailable, oldWarnings, oldSuccess :=
      Option<Condition>.None, Option<Condition>.None, Option<Condition>.None, Option<Condition>.None;
    for i := 0 to |conditions|
      invariant oldReady == Latest(conditions[..i], AllReplicasReady)
      invariant oldAvailable == Latest(conditions[..i], ClusterAvailable)
      invariant oldWarnings == Latest(conditions[..i], NoWarnings)
      invariant oldSuccess == Latest(conditions[..i], ReconcileSuccess)
    {
      assert conditions[..i + 1][..i] == conditions[..i];
      match conditions[i].ctype {
        case NoWarnings => oldWarnings := Some(conditions[i]);
        case AllReplicasReady => oldReady := Some(conditions[i]);
        case ClusterAvailable => oldAvailable := Some(conditions[i]);
        case ReconcileSuccess => oldSuccess := Some(conditions[i]);
      }
    }
    assert conditions[..|conditions|] == conditions;
    var ready := AllReplicasReadyFrom(resources, Fresh(AllReplicasReady, oldReady));
    var available := ClusterAvailableFrom(resources, Fresh(ClusterAvailable, oldAvailable));
    var warnings := NoWarningsFrom(resources, Fresh(NoWarnings, oldWarnings));
    var success := if oldSuccess.Some? then oldSuccess.value
                   else Condition(ReconcileSuccess, ConditionUnknown, now, "Initialising", "");
    r := [ready, available, warnings, success];
  }
}
