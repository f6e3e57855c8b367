/**
 * `update_cloudwatch_alarm`: select the memory alarms of the tomcat batch
 * service of one cluster and rewrite their threshold for the time of day,
 * passing every other field of the described alarm back unchanged.
 */
module CloudWatchAlarms {
  import opened Wrappers
  import opened TimeOfDay
  import opened EcsScaling

  /** The fields of a metric alarm that the script reads and passes to `put_metric_alarm`. */
  datatype MetricAlarm = MetricAlarm(
    alarmName: string,
    metricName: string,
    threshold: int,
    period: int,
    statistic: string,
    namespace: string,
    evaluationPeriods: int,
    comparisonOperator: string)

  const ServiceAlarm: string := "tomcat-batch-service-AlarmHigh"
  const MemoryMetric: string := "MemoryUtilization"

  /** Python's `needle in hay` on strings. */
  predicate Contains(hay: string, needle: string)
    decreases |hay|
  {
    needle <= hay || (|hay| > 0 && Contains(hay[1..], needle))
  }

  /** The alarms the script rewrites: named after the cluster's batch-service alarm, on memory. */
  predicate Selected(a: MetricAlarm, cluster: string) {
    Contains(a.alarmName, cluster + "/" + ServiceAlarm) && a.metricName == MemoryMetric
  }

  /** `nightAlarmthreshold` at night, `MorningAlarmThreashold` at any other time. */
  function AlarmThreshold(period: Period, night: int, morning: int): (t: int)
    ensures period == Night ==> t == night
    ensures period == Morning ==> t == morning
  {
    if period == Night then night else morning
  }

  /** Two alarm definitions that agree on everything but the threshold. */
  predicate SameButThreshold(a: MetricAlarm, b: MetricAlarm) {
    && a.alarmName == b.alarmName && a.metricName == b.metricName && a.period == b.period
    && a.statistic == b.statistic && a.namespace == b.namespace
    && a.evaluationPeriods == b.evaluationPeriods && a.comparisonOperator == b.comparisonOperator
  }

  /** The alarm set once every selected alarm carries threshold `t`. */
  function RetuneAlarms(s: seq<MetricAlarm>, cluster: string, t: int): (r: seq<MetricAlarm>)
    ensures |r| == |s|
    ensures forall i :: 0 <= i < |s| ==> SameButThreshold(r[i], s[i])
    ensures forall i :: 0 <= i < |s| ==> r[i].threshold == if Selected(s[i], cluster) then t else s[i].threshold
  {
    seq(|s|, i requires 0 <= i < |s| => if Selected(s[i], cluster) then s[i].(threshold := t) else s[i])
  }

  /** A rerun with the same period finds the same alarms and leaves them as they are. */
  lemma RetuneAlarmsIdempotent(s: seq<MetricAlarm>, cluster: string, t: int)
    ensures RetuneAlarms(RetuneAlarms(s, cluster, t), cluster, t) == RetuneAlarms(s, cluster, t)
  {
  }

  /** CloudWatch alarm names are unique. */
  ghost predicate UniqueNames(s: seq<MetricAlarm>) {
    forall i, j :: 0 <= i < j < |s| ==> s[i].alarmName != s[j].alarmName
  }

  predicate HasAlarm(s: seq<MetricAlarm>, name: string) {
    exists i :: 0 <= i < |s| && s[i].alarmName == name
  }

  /** The alarm with that name, if any. */
  function Find(s: seq<MetricAlarm>, name: string): (r: Option<MetricAlarm>)
    ensures r.Some? ==> r.value in s && r.value.alarmName == name
    decreases |s|
  {
    if |s| == 0 then None
    else if s[0].alarmName == name then Some(s[0])
    else Find(s[1..], name)
  }

  lemma {:induction false} FindUnique(s: seq<MetricAlarm>, j: int)
    requires UniqueNames(s) && 0 <= j < |s|
    ensures Find(s, s[j].alarmName) == Some(s[j])
    decreases |s|
  {
    if j > 0 {
      assert s[1..][j - 1] == s[j];
      FindUnique(s[1..], j - 1);
    }
  }

  /** `describe_alarms(AlarmNames=names)`: the named alarms, in the order of `names`. */
  function Described(s: seq<MetricAlarm>, names: seq<string>): (r: seq<MetricAlarm>)
    ensures |r| <= |names|
    decreases |names|
  {
    if |names| == 0 then []
    else
      Described(s, names[..|names| - 1])
      + match Find(s, names[|names| - 1]) case Some(a) => [a] case None => []
  }

  /** Describing names that all exist gives one alarm per name, in order. */
  lemma {:induction false} DescribedAt(s: seq<MetricAlarm>, names: seq<string>, idx: seq<int>)
    requires UniqueNames(s) && |idx| == |names|
    requires forall m :: 0 <= m < |idx| ==> 0 <= idx[m] < |s| && names[m] == s[idx[m]].alarmName
    ensures |Described(s, names)| == |names|
    ensures forall m :: 0 <= m < |names| ==> Described(s, names)[m] == s[idx[m]]
    decreases |names|
  {
    if |names| > 0 {
      var n := |names| - 1;
      DescribedAt(s, names[..n], idx[..n]);
      FindUnique(s, idx[n]);
    }
  }

  /** `put_metric_alarm`: replaces the alarm of that name, or creates it. */
  function Put(s: seq<MetricAlarm>, a: MetricAlarm): (r: seq<MetricAlarm>)
    ensures HasAlarm(s, a.alarmName) ==> |r| == |s|
    ensures forall j :: 0 <= j < |s| && UniqueNames(s) && s[j].alarmName == a.alarmName ==> r == s[j := a]
    ensures !HasAlarm(s, a.alarmName) ==> r == s + [a]
  {
    if HasAlarm(s, a.alarmName) then
      seq(|s|, i requires 0 <= i < |s| => if s[i].alarmName == a.alarmName then a else s[i])
    else s + [a]
  }

  lemma PutKeepsUnique(s: seq<MetricAlarm>, a: MetricAlarm)
    requires UniqueNames(s)
    ensures UniqueNames(Put(s, a))
  {
  }

  /** The alarm store of the CloudWatch API. */
  class CloudWatch {
    var alarms: seq<MetricAlarm>

    ghost predicate Valid()
      reads this
    {
      UniqueNames(alarms)
    }

    constructor (initial: seq<MetricAlarm>)
      requires UniqueNames(initial)
      ensures Valid() && alarms == initial
    {
      alarms := initial;
    }

    /** `describe_alarms()` */
    method DescribeAlarms() returns (r: seq<MetricAlarm>)
      ensures r == alarms
    {
      r := alarms;
    }

    /** `describe_alarms(AlarmNames=names)` */
    method DescribeAlarmsNamed(names: seq<string>) returns (r: seq<MetricAlarm>)
      ensures r == Described(alarms, names)
    {
      r := Described(alarms, names);
    }

    /** `put_metric_alarm(...)` */
    method PutMetricAlarm(a: MetricAlarm)
      requires Valid()
      modifies this
      ensures Valid() && alarms == Put(old(alarms), a)
    {
      PutKeepsUnique(alarms, a);
      alarms := Put(alarms, a);
    }
  }

  /** The first `n` listed alarms are done: each selected one carries threshold `t`. */
  ghost predicate TunedUpTo(cur: seq<MetricAlarm>, listing: seq<MetricAlarm>, cluster: string, t: int, n: int) {
    && |cur| == |listing|
    && forall j :: 0 <= j < |listing| ==>
         cur[j] == if j < n && Selected(listing[j], cluster) then listing[j].(threshold := t) else listing[j]
  }

  /** Rewriting listed alarm `j` (selected, at or below the done mark) keeps the store in the done shape. */
  lemma TunedPut(cur: seq<MetricAlarm>, listing: seq<MetricAlarm>, cluster: string, t: int, n: int, j: int)
    requires UniqueNames(listing) && TunedUpTo(cur, listing, cluster, t, n)
    requires 0 <= j <= n < |listing| && Selected(listing[j], cluster)
    ensures UniqueNames(cur)
    ensures TunedUpTo(Put(cur, listing[j].(threshold := t)), listing, cluster, t, if j == n then n + 1 else n)
  {
    assert forall i :: 0 <= i < |cur| ==> cur[i].alarmName == listing[i].alarmName;
    assert cur[j].alarmName == listing[j].(threshold := t).alarmName;
  }

  /**
   * The body of the outer loop of `update_cloudwatch_alarm` once listed alarm
   * `k` has been appended to `alarm_list`: describe every listed name again
   * and write each memory alarm back with `threshold`. The earlier names
   * are rewritten to what they already hold; alarm `k` joins the done part.
   */
  method RewriteListed(cw: CloudWatch, alarmList: seq<string>, threshold: int,
                       ghost listing: seq<MetricAlarm>, ghost cluster: string, ghost idx: seq<int>, ghost k: int)
    requires cw.Valid() && UniqueNames(listing)
    requires |idx| == |alarmList| && |alarmList| > 0 && idx[|idx| - 1] == k < |listing|
    requires forall m :: 0 <= m < |idx| ==>
               && 0 <= idx[m] <= k && (m < |idx| - 1 ==> idx[m] < k)
               && alarmList[m] == listing[idx[m]].alarmName
               && Contains(listing[idx[m]].alarmName, cluster + "/" + ServiceAlarm)
    requires TunedUpTo(cw.alarms, listing, cluster, threshold, k)
    modifies cw
    ensures cw.Valid() && TunedUpTo(cw.alarms, listing, cluster, threshold, k + 1)
  {
    var alarms := cw.DescribeAlarmsNamed(alarmList);
    assert forall i :: 0 <= i < |cw.alarms| ==> cw.alarms[i].alarmName == listing[i].alarmName;
    DescribedAt(cw.alarms, alarmList, idx);
    ghost var snapshot := cw.alarms;
    for i := 0 to |alarmList|
      invariant cw.Valid()
      invariant TunedUpTo(cw.alarms, listing, cluster, threshold, if i == |alarmList| then k + 1 else k)
    {
      ghost var j := idx[i];
      assert alarms[i] == snapshot[j];
      if alarms[i].metricName == MemoryMetric {
        var a := alarms[i];
        var written := MetricAlarm(alarmList[i], a.metricName, threshold, a.period, a.statistic,
                                   a.namespace, a.evaluationPeriods, a.comparisonOperator);
        assert written == listing[j].(threshold := threshold);
        TunedPut(cw.alarms, listing, cluster, threshold, k, j);
        cw.PutMetricAlarm(written);
      } else if i == |alarmList| - 1 {
        assert !Selected(listing[k], cluster);
      }
    }
  }

  /**
   * `update_cloudwatch_alarm`. The outer loop walks the first listing; each
   * match is appended to `alarm_list` and the listed alarms are rewritten,
   * so an earlier match is rewritten once per later match.
   */
  method UpdateCloudwatchAlarm(cw: CloudWatch, data: EcsData)
    requires cw.Valid()
    modifies cw
    ensures cw.Valid()
    ensures cw.alarms == RetuneAlarms(old(cw.alarms), data.clusterName,
                                      AlarmThreshold(data.currentTimeschedule, data.nightAlarmThreshold,
                                                     data.morningAlarmThreshold))
  {
    var listing := cw.DescribeAlarms();
    var cluster := data.clusterName;
    var threshold := if data.currentTimeschedule == Night then data.nightAlarmThreshold
                     else data.morningAlarmThreshold;
    var alarmList: seq<string> := [];
    ghost var idx: seq<int> := [];
    for k := 0 to |listing|
      invariant cw.Valid()
      invariant |alarmList| == |idx|
      invariant forall m :: 0 <= m < |idx| ==>
                  && 0 <= idx[m] < k && alarmList[m] == listing[idx[m]].alarmName
                  && Contains(listing[idx[m]].alarmName, cluster + "/" + ServiceAlarm)
      invariant TunedUpTo(cw.alarms, listing, cluster, threshold, k)
    {
      if Contains(listing[k].alarmName, cluster + "/" + ServiceAlarm) {
        alarmList := alarmList + [listing[k].alarmName];
        idx := idx + [k];
        RewriteListed(cw, alarmList, threshold, listing, cluster, idx, k);
      } else {
        assert !Selected(listing[k], cluster);
      }
    }
    assert cw.alarms == RetuneAlarms(listing, cluster, threshold);
  }
}
