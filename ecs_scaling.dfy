/**
 * The ECS service scaler: the `data` dictionary it builds per environment,
 * the parameter scan, and `update_ecs_service`, which sets the desired
 * count of two services of the environment's cluster.
 */
module EcsScaling {
  import opened Wrappers
  import opened Pairs
  import opened StackNames
  import opened TimeOfDay

  /** A CloudFormation stack parameter, its value already parsed to an integer. */
  type Parameter = Binding<int>

  /** The script's `data` dictionary; a key never set is None. */
  class EcsData {
    var nightContainerCount: int
    var env: string
    var serviceName: string
    var serviceName2: string
    var nightAlarmThreshold: int
    var morningAlarmThreshold: int
    var clientId: string
    var clusterName: string
    var tomcatBatchServiceMaxCapacity: Option<int>
    var tomcatServiceMaxCapacity: Option<int>
    var filebeatServiceMinCapacity: Option<int>
    var currentTimeschedule: Period

    /** The dictionary the script starts from: night count 0, the two service names, thresholds 130 and 100. */
    constructor ()
      ensures nightContainerCount == 0 && env == ""
      ensures serviceName == "tomcat-batch-service" && serviceName2 == "filebeat-service"
      ensures nightAlarmThreshold == 130 && morningAlarmThreshold == 100
      ensures tomcatBatchServiceMaxCapacity == None && tomcatServiceMaxCapacity == None
      ensures filebeatServiceMinCapacity == None
    {
      nightContainerCount := 0;
      env := "";
      serviceName := "tomcat-batch-service";
      serviceName2 := "filebeat-service";
      nightAlarmThreshold := 130;
      morningAlarmThreshold := 100;
      clientId := "";
      clusterName := "";
      tomcatBatchServiceMaxCapacity := None;
      tomcatServiceMaxCapacity := None;
      filebeatServiceMinCapacity := None;
      currentTimeschedule := Night;
    }

    /**
     * `get_paramters_from_cloudformation`: records `cluster-name`, looks the
     * stack `ecs-<client>-<env>` up in `stacks` (describe_stacks; `found` is
     * false where that call raises) and copies the three capacity parameters
     * under their own keys, the last occurrence of each winning; an absent
     * key leaves the entry as it was.
     */
    method GetParameters(stacks: map<string, seq<Parameter>>) returns (found: bool)
      modifies this`clusterName, this`tomcatBatchServiceMaxCapacity, this`tomcatServiceMaxCapacity,
               this`filebeatServiceMinCapacity
      ensures clusterName == ClusterName(clientId, env)
      ensures found == (StackName(clientId, env) in stacks)
      ensures found ==>
                var ps := stacks[StackName(clientId, env)];
                && tomcatBatchServiceMaxCapacity == Merge(old(tomcatBatchServiceMaxCapacity), ps, "TomcatBatchServiceMaxCapacity")
                && tomcatServiceMaxCapacity == Merge(old(tomcatServiceMaxCapacity), ps, "TomcatServiceMaxCapacity")
                && filebeatServiceMinCapacity == Merge(old(filebeatServiceMinCapacity), ps, "FilebeatServiceMinCapacity")
      ensures !found ==>
                && tomcatBatchServiceMaxCapacity == old(tomcatBatchServiceMaxCapacity)
                && tomcatServiceMaxCapacity == old(tomcatServiceMaxCapacity)
                && filebeatServiceMinCapacity == old(filebeatServiceMinCapacity)
    {
      var stackName := StackName(clientId, env);
      clusterName := ClusterName(clientId, env);
      found := stackName in stacks;
      if !found {
        return;
      }
      var parameters := stacks[stackName];
      var tomcatBatch, tomcat, filebeat :=
        tomcatBatchServiceMaxCapacity, tomcatServiceMaxCapacity, filebeatServiceMinCapacity;
      ghost var tomcatBatch0, tomcat0, filebeat0 := tomcatBatch, tomcat, filebeat;
      var i := 0;
      while i < |parameters|
        invariant 0 <= i <= |parameters|
        invariant tomcatBatch == Merge(tomcatBatch0, parameters[..i], "TomcatBatchServiceMaxCapacity")
        invariant tomcat == Merge(tomcat0, parameters[..i], "TomcatServiceMaxCapacity")
        invariant filebeat == Merge(filebeat0, parameters[..i], "FilebeatServiceMinCapacity")
        modifies {}
      {
        var p := parameters[i];
        MergeStep(tomcatBatch0, parameters[..i], p, "TomcatBatchServiceMaxCapacity");
        MergeStep(tomcat0, parameters[..i], p, "TomcatServiceMaxCapacity");
        MergeStep(filebeat0, parameters[..i], p, "FilebeatServiceMinCapacity");
        assert parameters[..i + 1] == parameters[..i] + [p];
        tomcatBatch := if p.key == "TomcatBatchServiceMaxCapacity" then Some(p.value) else tomcatBatch;
        tomcat := if p.key == "TomcatServiceMaxCapacity" then Some(p.value) else tomcat;
        filebeat := if p.key == "FilebeatServiceMinCapacity" then Some(p.value) else filebeat;
        i := i + 1;
      }
      assert parameters[..i] == parameters;
      tomcatBatchServiceMaxCapacity, tomcatServiceMaxCapacity, filebeatServiceMinCapacity := tomcatBatch, tomcat, filebeat;
    }
  }

  /** One `ecs.update_service` call. */
  datatype ServiceUpdate = ServiceUpdate(cluster: string, service: string, desiredCount: int)

  /** The calls a step issued, in order, and the key whose absence stopped it (None: it ran to the end). */
  datatype Issued = Issued(calls: seq<ServiceUpdate>, missing: Option<string>)

  /**
   * `update_ecs_service`: at night both services get the night count; at
   * any other time the first gets `TomcatBatchServiceMaxCapacity` and the
   * second `FilebeatServiceMinCapacity`, each read just before its own call.
   */
  function ServiceUpdates(period: Period, cluster: string, service1: string, service2: string, night: int,
                          tomcatBatch: Option<int>, filebeat: Option<int>): (r: Issued)
    ensures |r.calls| <= 2
    ensures forall u :: u in r.calls ==> u.cluster == cluster
    ensures r.missing.None? <==> period == Night || (tomcatBatch.Some? && filebeat.Some?)
    ensures r.missing.None? ==> |r.calls| == 2 && r.calls[0].service == service1 && r.calls[1].service == service2
    ensures period == Night ==> forall u :: u in r.calls ==> u.desiredCount == night
    ensures period == Morning ==> |r.calls| == (if tomcatBatch.None? then 0 else if filebeat.None? then 1 else 2)
    ensures period == Morning && tomcatBatch.Some? ==> r.calls[0] == ServiceUpdate(cluster, service1, tomcatBatch.value)
    ensures period == Morning && tomcatBatch.Some? && filebeat.Some? ==>
              r.calls[1] == ServiceUpdate(cluster, service2, filebeat.value)
  {
    if period == Night then
      Issued([ServiceUpdate(cluster, service1, night), ServiceUpdate(cluster, service2, night)], None)
    else if tomcatBatch.None? then
      Issued([], Some("TomcatBatchServiceMaxCapacity"))
    else if filebeat.None? then
      Issued([ServiceUpdate(cluster, service1, tomcatBatch.value)], Some("FilebeatServiceMinCapacity"))
    else
      Issued([ServiceUpdate(cluster, service1, tomcatBatch.value), ServiceUpdate(cluster, service2, filebeat.value)], None)
  }

  /** The desired counts, keyed by (cluster, service), after the calls in order. */
  function ApplyUpdates(counts: map<(string, string), int>, calls: seq<ServiceUpdate>): (r: map<(string, string), int>)
    ensures r.Keys == counts.Keys + set u | u in calls :: (u.cluster, u.service)
    decreases |calls|
  {
    if |calls| == 0 then counts
    else
      var u := calls[|calls| - 1];
      var r := ApplyUpdates(counts, calls[..|calls| - 1])[(u.cluster, u.service) := u.desiredCount];
      assert forall v :: v in calls <==> v in calls[..|calls| - 1] || v == u;
      r
  }

  /** Up to two calls applied in order. */
  lemma ApplyUpdatesShort(counts: map<(string, string), int>, calls: seq<ServiceUpdate>)
    requires |calls| <= 2
    ensures |calls| == 0 ==> ApplyUpdates(counts, calls) == counts
    ensures |calls| == 1 ==>
              ApplyUpdates(counts, calls) == counts[(calls[0].cluster, calls[0].service) := calls[0].desiredCount]
    ensures |calls| == 2 ==>
              ApplyUpdates(counts, calls)
              == counts[(calls[0].cluster, calls[0].service) := calls[0].desiredCount]
                       [(calls[1].cluster, calls[1].service) := calls[1].desiredCount]
  {
    if |calls| > 0 {
      assert calls[..|calls| - 1][..0] == [];
      if |calls| == 2 {
        assert calls[..1] == [calls[0]];
      }
    }
  }

  /**
   * A complete run leaves the two services at the period's counts and every
   * other service of every cluster as it was; a second run changes nothing.
   */
  lemma ServiceUpdatesOutcome(counts: map<(string, string), int>, period: Period, cluster: string,
                              service1: string, service2: string, night: int,
                              tomcatBatch: Option<int>, filebeat: Option<int>)
    requires service1 != service2
    requires ServiceUpdates(period, cluster, service1, service2, night, tomcatBatch, filebeat).missing.None?
    ensures var r := ApplyUpdates(counts, ServiceUpdates(period, cluster, service1, service2, night, tomcatBatch, filebeat).calls);
            && r[(cluster, service1)] == (if period == Night then night else tomcatBatch.value)
            && r[(cluster, service2)] == (if period == Night then night else filebeat.value)
            && (forall k :: k in counts && k != (cluster, service1) && k != (cluster, service2) ==> r[k] == counts[k])
            && ApplyUpdates(r, ServiceUpdates(period, cluster, service1, service2, night, tomcatBatch, filebeat).calls) == r
  {
    var calls := ServiceUpdates(period, cluster, service1, service2, night, tomcatBatch, filebeat).calls;
    var v1 := if period == Night then night else tomcatBatch.value;
    var v2 := if period == Night then night else filebeat.value;
    assert calls == [ServiceUpdate(cluster, service1, v1), ServiceUpdate(cluster, service2, v2)];
    var r := ApplyUpdates(counts, calls);
    ApplyUpdatesShort(counts, calls);
    ApplyUpdatesShort(r, calls);
    assert r == counts[(cluster, service1) := v1][(cluster, service2) := v2];
    assert r[(cluster, service1) := v1][(cluster, service2) := v2] == r;
  }

  /** The ECS control plane: the desired count of each (cluster, service). */
  class EcsServices {
    var desiredCount: map<(string, string), int>

    constructor (counts: map<(string, string), int>)
      ensures desiredCount == counts
    {
      desiredCount := counts;
    }

    /** `ecs.update_service(cluster=..., service=..., desiredCount=...)` */
    method UpdateService(cluster: string, service: string, count: int)
      modifies this
      ensures desiredCount == old(desiredCount)[(cluster, service) := count]
    {
      desiredCount := desiredCount[(cluster, service) := count];
    }
  }

  /** `update_ecs_service`: issues the calls of `ServiceUpdates` on the cluster named in `data`. */
  method UpdateEcsService(ecs: EcsServices, data: EcsData) returns (r: Issued)
    modifies ecs
    ensures r == ServiceUpdates(data.currentTimeschedule, data.clusterName, data.serviceName, data.serviceName2,
                                data.nightContainerCount, data.tomcatBatchServiceMaxCapacity,
                                data.filebeatServiceMinCapacity)
    ensures ecs.desiredCount == ApplyUpdates(old(ecs.desiredCount), r.calls)
  {
    var cluster := data.clusterName;
    if data.currentTimeschedule == Night {
      ecs.UpdateService(cluster, data.serviceName, data.nightContainerCount);
      ecs.UpdateService(cluster, data.serviceName2, data.nightContainerCount);
      r := Issued([ServiceUpdate(cluster, data.serviceName, data.nightContainerCount),
                   ServiceUpdate(cluster, data.serviceName2, data.nightContainerCount)], None);
    } else if data.tomcatBatchServiceMaxCapacity.None? {
      r := Issued([], Some("TomcatBatchServiceMaxCapacity"));
    } else {
      var first := ServiceUpdate(cluster, data.serviceName, data.tomcatBatchServiceMaxCapacity.value);
      ecs.UpdateService(cluster, data.serviceName, first.desiredCount);
      if data.filebeatServiceMinCapacity.None? {
        r := Issued([first], Some("FilebeatServiceMinCapacity"));
      } else {
        ecs.UpdateService(cluster, data.serviceName2, data.filebeatServiceMinCapacity.value);
        r := Issued([first, ServiceUpdate(cluster, data.serviceName2, data.filebeatServiceMinCapacity.value)], None);
      }
    }
    ApplyUpdatesShort(old(ecs.desiredCount), r.calls);
  }
}
