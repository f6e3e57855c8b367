/**
 * The Auto Scaling Group scaler: the `data` dictionary the script builds
 * per environment, the group's min/max/desired capacity, and the
 * four-branch decision of `update_autoscaling_group`.
 */
module AsgScaling {
  import opened Wrappers
  import opened Pairs
  import opened StackNames
  import opened TimeOfDay

  /** A CloudFormation stack parameter, its value already parsed to an integer. */
  type Parameter = Binding<int>

  /** The script's `data` dictionary; a key never set is None. */
  class AsgData {
    var nightInstanceCount: int
    var env: string
    var clientId: string
    var clusterName: string
    var clusterSizeDesired: Option<int>
    var clusterSizeMax: Option<int>
    var currentTime: Period

    /** `data = {"NightInstanceCount" : 0 ,"env": "env1"}` */
    constructor ()
      ensures nightInstanceCount == 0 && env == "env1"
      ensures clusterSizeDesired == None && clusterSizeMax == None
    {
      nightInstanceCount := 0;
      env := "env1";
      clientId := "";
      clusterName := "";
      clusterSizeDesired := None;
      clusterSizeMax := None;
      currentTime := Night;
    }

    /**
     * `get_paramters_from_cloudformation`: records the cluster name, looks the
     * stack `ecs-<client>-<env>` up in `stacks` (describe_stacks; `found` is
     * false where that call raises) and copies `ClusterSize` and
     * `ClusterSizeMax`, the last occurrence of each winning; an absent key
     * leaves the entry as it was.
     */
    method GetParameters(stacks: map<string, seq<Parameter>>) returns (found: bool)
      modifies this`clusterName, this`clusterSizeDesired, this`clusterSizeMax
      ensures clusterName == ClusterName(clientId, env)
      ensures found == (StackName(clientId, env) in stacks)
      ensures found ==> clusterSizeDesired == Merge(old(clusterSizeDesired), stacks[StackName(clientId, env)], "ClusterSize")
      ensures found ==> clusterSizeMax == Merge(old(clusterSizeMax), stacks[StackName(clientId, env)], "ClusterSizeMax")
      ensures !found ==> clusterSizeDesired == old(clusterSizeDesired) && clusterSizeMax == old(clusterSizeMax)
    {
      var stackName := StackName(clientId, env);
      clusterName := ClusterName(clientId, env);
      found := stackName in stacks;
      if !found {
        return;
      }
      var parameters := stacks[stackName];
      var sizeDesired, sizeMax := clusterSizeDesired, clusterSizeMax;
      var i := 0;
      while i < |parameters|
        invariant 0 <= i <= |parameters|
        invariant sizeDesired == Merge(old(clusterSizeDesired), parameters[..i], "ClusterSize")
        invariant sizeMax == Merge(old(clusterSizeMax), parameters[..i], "ClusterSizeMax")
        modifies {}
      {
        var p := parameters[i];
        MergeStep(old(clusterSizeDesired), parameters[..i], p, "ClusterSize");
        MergeStep(old(clusterSizeMax), parameters[..i], p, "ClusterSizeMax");
        assert parameters[..i + 1] == parameters[..i] + [p];
        sizeDesired := if p.key == "ClusterSize" then Some(p.value) else sizeDesired;
        sizeMax := if p.key == "ClusterSizeMax" then Some(p.value) else sizeMax;
        i := i + 1;
      }
      assert parameters[..i] == parameters;
      clusterSizeDesired, clusterSizeMax := sizeDesired, sizeMax;
    }
  }

  /** The group's capacity as `describe_auto_scaling_groups` reports it. */
  datatype Capacity = Capacity(minSize: int, maxSize: int, desiredCapacity: int)

  /** One `update_auto_scaling_group` call: MaxSize is passed only when Some. */
  datatype AsgWrite = AsgWrite(desiredCapacity: int, minSize: int, maxSize: Option<int>)

  /** The field-subset write: fields not passed keep their value. */
  function Apply(c: Capacity, w: AsgWrite): (r: Capacity)
    ensures r.desiredCapacity == w.desiredCapacity && r.minSize == w.minSize
    ensures w.maxSize.None? ==> r.maxSize == c.maxSize
    ensures w.maxSize.Some? ==> r.maxSize == w.maxSize.value
  {
    Capacity(w.minSize, w.maxSize.GetOr(c.maxSize), w.desiredCapacity)
  }

  /**
   * The branch table of `update_autoscaling_group`: the single write issued
   * for the period, the group's live maximum, the night count and the
   * declared `ClusterSizeDesired` / `ClusterSizeMax` (None when the
   * dictionary lacks them, which raises `KeyError` where they are read).
   */
  function Decide(period: Period, liveMax: int, night: int, sizeDesired: Option<int>, sizeMax: Option<int>)
    : (r: Result<AsgWrite>)
    ensures r.Ok? ==> r.value.minSize == r.value.desiredCapacity
    ensures period == Night ==> r.Ok? && r.value.desiredCapacity == night
                                && (r.value.maxSize.Some? <==> liveMax < night)
                                && (r.value.maxSize.Some? ==> r.value.maxSize.value == night)
    ensures period == Morning ==>
              (r.Ok? <==> sizeDesired.Some? && (liveMax < sizeDesired.value ==> sizeMax.Some?))
    ensures period == Morning && r.Ok? ==>
              && r.value.desiredCapacity == sizeDesired.value
              && (r.value.maxSize.Some? <==> liveMax < sizeDesired.value)
              && (r.value.maxSize.Some? ==> r.value.maxSize == sizeMax)
    ensures period == Morning && sizeDesired.None? ==> r == KeyError("ClusterSizeDesired")
  {
    if period == Night && liveMax >= night then
      Ok(AsgWrite(night, night, None))
    else if period == Night && liveMax < night then
      Ok(AsgWrite(night, night, Some(night)))
    else if sizeDesired.None? then
      KeyError("ClusterSizeDesired")
    else if period == Morning && liveMax < sizeDesired.value then
      if sizeMax.None? then KeyError("ClusterSizeMax")
      else Ok(AsgWrite(sizeDesired.value, sizeDesired.value, Some(sizeMax.value)))
    else
      Ok(AsgWrite(sizeDesired.value, sizeDesired.value, None))
  }

  /**
   * The day branch that widens the maximum to `ClusterSizeMax` when that is
   * itself below `ClusterSizeDesired`: the one case where desired ends above max.
   */
  predicate WidensBelowDesired(c: Capacity, period: Period, sizeDesired: Option<int>, sizeMax: Option<int>) {
    && period == Morning && sizeDesired.Some? && sizeMax.Some?
    && c.maxSize < sizeDesired.value && sizeMax.value < sizeDesired.value
  }

  /** The group's capacity after one run of the decision against the live group. */
  function Reconcile(c: Capacity, period: Period, night: int, sizeDesired: Option<int>, sizeMax: Option<int>)
    : (r: Result<Capacity>)
    ensures r.Ok? ==> r.value.minSize == r.value.desiredCapacity
    ensures r.Ok? ==>
              (r.value.desiredCapacity <= r.value.maxSize <==> !WidensBelowDesired(c, period, sizeDesired, sizeMax))
    ensures period == Night ==>
              r == Ok(Capacity(night, if c.maxSize >= night then c.maxSize else night, night))
    ensures period == Morning ==> (r.Ok? <==> sizeDesired.Some? && (c.maxSize < sizeDesired.value ==> sizeMax.Some?))
    ensures period == Morning && sizeDesired.Some? && r.Ok? ==>
              && r.value.desiredCapacity == sizeDesired.value
              && (c.maxSize < sizeDesired.value ==> Some(r.value.maxSize) == sizeMax)
              && (c.maxSize >= sizeDesired.value ==> r.value.maxSize == c.maxSize)
  {
    match Decide(period, c.maxSize, night, sizeDesired, sizeMax)
    case Ok(w) => Ok(Apply(c, w))
    case KeyError(k) => KeyError(k)
  }

  /** Running the decision again with nothing changed in between changes nothing. */
  lemma ReconcileIdempotent(c: Capacity, period: Period, night: int, sizeDesired: Option<int>, sizeMax: Option<int>)
    requires Reconcile(c, period, night, sizeDesired, sizeMax).Ok?
    ensures var c' := Reconcile(c, period, night, sizeDesired, sizeMax).value;
            Reconcile(c', period, night, sizeDesired, sizeMax) == Ok(c')
  {
  }

  /** The live Auto Scaling Group, whose capacity the script rewrites. */
  class AutoScalingGroup {
    var minSize: int
    var maxSize: int
    var desiredCapacity: int

    function Current(): Capacity
      reads this
    {
      Capacity(minSize, maxSize, desiredCapacity)
    }

    constructor (c: Capacity)
      ensures Current() == c
    {
      minSize, maxSize, desiredCapacity := c.minSize, c.maxSize, c.desiredCapacity;
    }

    /** `update_auto_scaling_group`: writes the fields passed and no others. */
    method UpdateAutoScalingGroup(w: AsgWrite)
      modifies this
      ensures Current() == Apply(old(Current()), w)
    {
      desiredCapacity := w.desiredCapacity;
      minSize := w.minSize;
      if w.maxSize.Some? {
        maxSize := w.maxSize.value;
      }
    }
  }

  /**
   * `update_autoscaling_group`, with the live maximum read from the group
   * (what `get_autoscaling_group_instance_count` copies into `data` just
   * before): at most one write, none when a key is missing.
   */
  method UpdateAutoscalingGroup(asg: AutoScalingGroup, data: AsgData) returns (r: Result<AsgWrite>)
    modifies asg
    ensures r == Decide(data.currentTime, old(asg.maxSize), data.nightInstanceCount,
                        data.clusterSizeDesired, data.clusterSizeMax)
    ensures r.Ok? ==> asg.Current() == Apply(old(asg.Current()), r.value)
    ensures r.KeyError? ==> asg.Current() == old(asg.Current())
    ensures Reconcile(old(asg.Current()), data.currentTime, data.nightInstanceCount,
                      data.clusterSizeDesired, data.clusterSizeMax)
            == if r.Ok? then Ok(asg.Current()) else KeyError(r.key)
  {
    var liveMax := asg.maxSize;
    var night := data.nightInstanceCount;
    if data.currentTime == Night && liveMax >= night {
      r := Ok(AsgWrite(night, night, None));
    } else if data.currentTime == Night && liveMax < night {
      r := Ok(AsgWrite(night, night, Some(night)));
    } else if data.clusterSizeDesired.None? {
      r := KeyError("ClusterSizeDesired");
    } else if data.currentTime == Morning && liveMax < data.clusterSizeDesired.value {
      if data.clusterSizeMax.None? {
        r := KeyError("ClusterSizeMax");
      } else {
        var d := data.clusterSizeDesired.value;
        r := Ok(AsgWrite(d, d, Some(data.clusterSizeMax.value)));
      }
    } else {
      var d := data.clusterSizeDesired.value;
      r := Ok(AsgWrite(d, d, None));
    }
    if r.Ok? {
      asg.UpdateAutoScalingGroup(r.value);
    }
  }
}
