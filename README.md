# Scaling and stunnel cron scripts, modelled in Dafny

The repository ships three cron scripts. This project models and proves the logic inside them:

- `auto_scaling_group_update.py` finds every ECS environment from the CloudFormation stack names
  `ecs-<client>-<env>`, reads the declared cluster sizes from the stack's parameters, and rewrites
  the min, max and desired capacity of the environment's Auto Scaling Group for the time of day.
- `scaling_ecs_Services.py` finds environments the same way. It sets the desired count of two ECS
  services (`tomcat-batch-service`, `filebeat-service`) for the time of day. It also rewrites the
  threshold of the cluster's memory alarms (130 at night, 100 by day) and passes every other field
  back unchanged.
- `check_stunnel.py` is a health check for the stunnel service. It restarts the service when it is
  inactive or an `accept` port is unreachable. It counts consecutive runs with an unreachable
  `connect` port in a trigger file and sends a Slack warning when the count reaches 288.

Modules:

- `Wrappers`: `Option`, and `Result`, whose error is the `KeyError` of a missing dictionary key.
- `Pairs`: key/value listings scanned by a loop in which the last binding of a key wins. The
  parameter scans and configparser's option lookup both behave this way.
- `StackNames`: discovery, client-id extraction, stack and cluster names. The two scaling scripts
  share this code.
- `TimeOfDay`: `get_time_period`.
- `AsgScaling`: the `data` dictionary of the group scaler (class `AsgData`), the group (class
  `AutoScalingGroup`) and the four-branch decision.
- `EcsScaling`: the `data` dictionary of the service scaler (class `EcsData`), the ECS services
  (class `EcsServices`) and `update_ecs_service`.
- `CloudWatchAlarms`: the alarm store (class `CloudWatch`) and `update_cloudwatch_alarm` with its
  nested loop.
- `StunnelConfig`: the configuration as configparser reads it after the `[common]` header is put in
  front. Repeated headers merge into one section, as with `strict=False`.
- `StunnelCheck`: the section loop, host:port splitting, the trigger counter, one run of `main`
  (function `RunStep`), and the host as a class (`StunnelMonitor.Run`).

Remote calls become inputs or the state of a class:

- The stack listing is a `seq<string>`.
- `describe_stacks` is a map from stack name to parameters. A stack missing from the map stands
  for the call raising.
- The Auto Scaling Group, the ECS desired counts and the CloudWatch alarms are objects.
- The clock is an hour.
- Service status, restart result and reachability are fields of an `Observation`. Reachability is
  a function `probe(host, port)`.

Where the documented design and the scripts disagree, the model follows the scripts:

- The discovery pattern has a `-` between the client id and the environment code.
- A missing parameter raises `KeyError` when it is read. If the parameter was found for an earlier
  environment, the stale value is used instead.
- Nothing catches an exception, so a failure for one environment ends the whole run. The design
  says only that environment is skipped.

## Model

| member | source | states |
|---|---|---|
| Pairs.LastValue | ansible/common/ecs_scaling_crons/files/scaling_ecs_Services.py:67-78 | None exactly when no binding has the key; otherwise the value of a binding of the key with no later binding of that key |
| Pairs.MergeMeaning | ansible/common/ecs_scaling_crons/files/auto_scaling_group_update.py:62-70 | a dictionary entry after the scan: unchanged when the key is absent, the last binding's value when it is present |
| Pairs.MergeStep | ansible/common/ecs_scaling_crons/files/auto_scaling_group_update.py:62-70 | scanning one more parameter overwrites the entry exactly when the key matches |
| StackNames.EnvCodeOf | ansible/common/ecs_scaling_crons/files/scaling_ecs_Services.py:14-16 | `name[-4:]` of a matching name is three letters and a digit, and the name is `ecs-<client>-<that code>` |
| StackNames.ClientIdOf | ansible/common/ecs_scaling_crons/files/scaling_ecs_Services.py:25-32 | stripping `ecs-` and `-<env>` from a matching name leaves six letters that rebuild the name |
| StackNames.StackNameParts | ansible/common/ecs_scaling_crons/files/auto_scaling_group_update.py:47-48 | a constructed stack name matches both patterns and reads back as its client and env |
| StackNames.EnvCodes | ansible/common/ecs_scaling_crons/files/scaling_ecs_Services.py:5-18 | at most one code per listed name, each three letters and a digit |
| StackNames.EnvCodesAppend | ansible/common/ecs_scaling_crons/files/scaling_ecs_Services.py:13-16 | discovery keeps listing order: codes of a concatenated listing are the concatenated codes |
| StackNames.EnvCodesMember | ansible/common/ecs_scaling_crons/files/scaling_ecs_Services.py:13-16 | a code is discovered if and only if some listed name matches the pattern and ends in it |
| StackNames.FilterEnvironments | ansible/common/ecs_scaling_crons/files/scaling_ecs_Services.py:5-18 | the appending loop returns exactly the discovered codes in listing order |
| StackNames.LastClientId | ansible/common/ecs_scaling_crons/files/auto_scaling_group_update.py:30-43 | an extracted client id is six letters |
| StackNames.LastClientIdIsLastMatch | ansible/common/ecs_scaling_crons/files/auto_scaling_group_update.py:38-43 | extraction fails (unbound `client_id`) exactly when no name matches; otherwise it yields the client of the last matching name |
| StackNames.FilterClientId | ansible/common/ecs_scaling_crons/files/auto_scaling_group_update.py:30-43 | the overwriting loop returns the client id of the last matching name |
| StackNames.DiscoveredEnvHasClient | ansible/common/ecs_scaling_crons/files/auto_scaling_group_update.py:139-142 | client-id extraction never fails for an environment that discovery returned |
| StackNames.StackNameRoundTrip | ansible/common/ecs_scaling_crons/files/auto_scaling_group_update.py:30-49 | `ecs-<c>-<e>` in a listing is discovered as `e`, and extraction gives back `c` when no later name matches `e` |
| TimeOfDay.GetTimePeriod | ansible/common/ecs_scaling_crons/files/auto_scaling_group_update.py:18-28 | morning exactly for hours 6 to 17, night for 0 to 5 and 18 to 23; the copy at scaling_ecs_Services.py:37-46 is the same |
| AsgScaling.AsgData.constructor | ansible/common/ecs_scaling_crons/files/auto_scaling_group_update.py:127 | the dictionary starts with night count 0, env `env1` and no cluster sizes |
| AsgScaling.AsgData.GetParameters | ansible/common/ecs_scaling_crons/files/auto_scaling_group_update.py:45-71 | sets the cluster name `<client>-<env>-ecs`; `ClusterSize` and `ClusterSizeMax` take the last value of their key in stack `ecs-<client>-<env>`, and an absent key leaves the entry as it was |
| AsgScaling.Apply | ansible/common/ecs_scaling_crons/files/auto_scaling_group_update.py:110-119 | a group write sets desired and min, and sets max only when `MaxSize` is passed |
| AsgScaling.Decide | ansible/common/ecs_scaling_crons/files/auto_scaling_group_update.py:108-120 | at night desired = min = night count, with `MaxSize` passed (as the night count) iff the live max is below it; by day desired = min = `ClusterSizeDesired`, with `MaxSize` = `ClusterSizeMax` passed iff the live max is below the desired size; a missing key is a `KeyError` |
| AsgScaling.Reconcile | ansible/common/ecs_scaling_crons/files/auto_scaling_group_update.py:108-120 | after the update min = desired in every branch; desired <= max except in the day branch that widens max to a `ClusterSizeMax` below `ClusterSizeDesired` |
| AsgScaling.ReconcileIdempotent | ansible/common/ecs_scaling_crons/files/auto_scaling_group_update.py:108-120 | applying the decision to its own result changes nothing |
| AsgScaling.AutoScalingGroup.UpdateAutoScalingGroup | ansible/common/ecs_scaling_crons/files/auto_scaling_group_update.py:110 | the group becomes the field-subset write of its old capacity |
| AsgScaling.UpdateAutoscalingGroup | ansible/common/ecs_scaling_crons/files/auto_scaling_group_update.py:108-120 | issues exactly the decision for the live max, at most one write, none on `KeyError`, and leaves the group at the reconciled capacity |
| EcsScaling.EcsData.constructor | ansible/common/ecs_scaling_crons/files/scaling_ecs_Services.py:120 | night count 0, the two service names, alarm thresholds 130 and 100, no capacities |
| EcsScaling.EcsData.GetParameters | ansible/common/ecs_scaling_crons/files/scaling_ecs_Services.py:50-80 | sets `cluster-name`; the three capacity keys take the last value of their key, and an absent key leaves the entry as it was |
| EcsScaling.ServiceUpdates | ansible/common/ecs_scaling_crons/files/scaling_ecs_Services.py:82-93 | at night both services get the night count; otherwise the first gets `TomcatBatchServiceMaxCapacity` and the second `FilebeatServiceMinCapacity`; always the same cluster, two calls unless a key is missing |
| EcsScaling.ApplyUpdates | ansible/common/ecs_scaling_crons/files/scaling_ecs_Services.py:84-91 | the services with a desired count are the old ones plus those updated |
| EcsScaling.ServiceUpdatesOutcome | ansible/common/ecs_scaling_crons/files/scaling_ecs_Services.py:82-93 | after a complete run the two services hold the period's counts, every other service is unchanged, and a rerun changes nothing |
| EcsScaling.EcsServices.UpdateService | ansible/common/ecs_scaling_crons/files/scaling_ecs_Services.py:84 | sets the desired count of one (cluster, service) |
| EcsScaling.UpdateEcsService | ansible/common/ecs_scaling_crons/files/scaling_ecs_Services.py:82-93 | issues exactly those calls, in order, and the services end at their result |
| CloudWatchAlarms.RetuneAlarms | ansible/common/ecs_scaling_crons/files/scaling_ecs_Services.py:99-114 | an alarm gets the threshold iff its name contains `<cluster>/tomcat-batch-service-AlarmHigh` and its metric is `MemoryUtilization`; every other field and every other alarm is unchanged |
| CloudWatchAlarms.RetuneAlarmsIdempotent | ansible/common/ecs_scaling_crons/files/scaling_ecs_Services.py:95-114 | a rerun for the same period changes nothing |
| CloudWatchAlarms.AlarmThreshold | ansible/common/ecs_scaling_crons/files/scaling_ecs_Services.py:109-114 | the night threshold at night, the morning threshold in the morning |
| CloudWatchAlarms.CloudWatch.DescribeAlarms | ansible/common/ecs_scaling_crons/files/scaling_ecs_Services.py:96 | returns every alarm of the store, in store order |
| CloudWatchAlarms.Described | ansible/common/ecs_scaling_crons/files/scaling_ecs_Services.py:103 | describing by name returns at most one alarm per name |
| CloudWatchAlarms.DescribedAt | ansible/common/ecs_scaling_crons/files/scaling_ecs_Services.py:103-105 | with unique names, describing existing names returns their alarms in the order of the names |
| CloudWatchAlarms.Put | ansible/common/ecs_scaling_crons/files/scaling_ecs_Services.py:110 | with unique names, writing an alarm replaces the one of that name in place and keeps every other; a new name is appended |
| CloudWatchAlarms.PutKeepsUnique | ansible/common/ecs_scaling_crons/files/scaling_ecs_Services.py:110 | alarm names stay unique across writes |
| CloudWatchAlarms.CloudWatch.DescribeAlarmsNamed | ansible/common/ecs_scaling_crons/files/scaling_ecs_Services.py:103 | returns the named alarms in name order |
| CloudWatchAlarms.CloudWatch.PutMetricAlarm | ansible/common/ecs_scaling_crons/files/scaling_ecs_Services.py:110 | the store becomes the write of the alarm, names stay unique |
| CloudWatchAlarms.RewriteListed | ansible/common/ecs_scaling_crons/files/scaling_ecs_Services.py:103-114 | re-describing the growing `alarm_list` and rewriting its memory alarms leaves the earlier ones as they were and completes the newest |
| CloudWatchAlarms.UpdateCloudwatchAlarm | ansible/common/ecs_scaling_crons/files/scaling_ecs_Services.py:95-114 | the nested loop leaves the store exactly at the retuned alarms for the period's threshold (130 at night, 100 otherwise) |
| StunnelConfig.LeadingSettings | ansible/common/stunnel/files/check_stunnel.py:122 | the settings before the first header: every line before the count is a setting and the line at it is a header; `CommonCollectsLeading` proves they become `common`'s options |
| StunnelConfig.ReadString | ansible/common/stunnel/files/check_stunnel.py:123 | a text opening with a setting raises `MissingSectionHeader`; an empty text has no sections; otherwise the first section is the first header's |
| StunnelConfig.SectionsFrom | ansible/common/stunnel/files/check_stunnel.py:123 | the first section is the one already open |
| StunnelConfig.MergeSections | ansible/common/stunnel/files/check_stunnel.py:120 | repeated headers merge; the first section keeps its place |
| StunnelConfig.MergeSectionsUnique | ansible/common/stunnel/files/check_stunnel.py:120 | section names are distinct after the merge |
| StunnelConfig.MergeSectionsFrom | ansible/common/stunnel/files/check_stunnel.py:120 | the merge invents no section name |
| StunnelConfig.MergeSectionsCovers | ansible/common/stunnel/files/check_stunnel.py:120 | every header of the file survives the merge |
| StunnelConfig.MergeSectionsOptions | ansible/common/stunnel/files/check_stunnel.py:120 | a merged section holds the options of every section of its name in file order, so the later value of an option wins |
| StunnelConfig.ParseConfig | ansible/common/stunnel/files/check_stunnel.py:119-124 | the file with `[common]` in front always parses, and its first section is `common`, whose options `CommonCollectsLeading` states |
| StunnelConfig.CommonCollectsLeading | ansible/common/stunnel/files/check_stunnel.py:119-124 | the settings before the first header open `common`'s options, and are all of them unless the file reopens `[common]` |
| StunnelConfig.ParseConfigSections | ansible/common/stunnel/files/check_stunnel.py:119-124 | without the header a file opening with a setting is refused; with it the sections are `common` and the file's header names, each once |
| StunnelConfig.ParseConfigHeaders | ansible/common/stunnel/files/check_stunnel.py:119-124 | every header of the file names a section of the parsed configuration |
| StunnelCheck.Split | ansible/common/stunnel/files/check_stunnel.py:72 | `str.split` returns at least one part |
| StunnelCheck.SplitJoin | ansible/common/stunnel/files/check_stunnel.py:72 | joining the parts with the separator gives the value back |
| StunnelCheck.SplitParts | ansible/common/stunnel/files/check_stunnel.py:72 | no part holds the separator, and there are two parts or more iff the value holds one |
| StunnelCheck.HostPort | ansible/common/stunnel/files/check_stunnel.py:72-73 | `args[1]` raises iff the value has no colon; otherwise host and port are the text up to the first colon and up to the next one |
| StunnelCheck.PortNumber | ansible/common/stunnel/files/check_stunnel.py:145 | `int(port)` succeeds for a non-empty run of decimal digits |
| StunnelCheck.PortNumberDecimal | ansible/common/stunnel/files/check_stunnel.py:145 | `int(str(n)) == n`: a port written as a number reads back as that number |
| StunnelCheck.PortNumberLeadingZero | ansible/common/stunnel/files/check_stunnel.py:145 | a leading zero does not change the number read |
| StunnelCheck.Reachable | ansible/common/stunnel/files/check_stunnel.py:140-150 | a port that `int` refuses, or above 65535, is unreachable; otherwise reachable iff the connection attempt succeeds |
| StunnelCheck.CheckSection | ansible/common/stunnel/files/check_stunnel.py:69-81 | a value without a colon raises; otherwise a section missing `accept` or `connect` is skipped, and one with both is checked at the host and port of each value with their reachability |
| StunnelCheck.CheckOne | ansible/common/stunnel/files/check_stunnel.py:69-81 | the splits and probes of one section compute exactly its check |
| StunnelCheck.CheckSectionCases | ansible/common/stunnel/files/check_stunnel.py:69-81 | a colon-less value raises; otherwise a section is skipped iff it has no `accept` binding or no `connect` binding, and checked iff it has both |
| StunnelCheck.ScanSections | ansible/common/stunnel/files/check_stunnel.py:64-96 | `restart` is set iff an accept message was added, `flag` iff a connect message was |
| StunnelCheck.ScanCrashes | ansible/common/stunnel/files/check_stunnel.py:72-78 | the loop raises iff some section has a value without a colon, and names the first such section |
| StunnelCheck.ScanRestart | ansible/common/stunnel/files/check_stunnel.py:83-88 | `restart` is set iff some checked section has an unreachable accept port |
| StunnelCheck.ScanFlag | ansible/common/stunnel/files/check_stunnel.py:89-94 | `flag` is set iff some checked section has an unreachable connect port |
| StunnelCheck.CheckSections | ansible/common/stunnel/files/check_stunnel.py:64-96 | the loop over the sections computes exactly the scan |
| StunnelCheck.CountStep | ansible/common/stunnel/files/check_stunnel.py:103-114 | the warning is sent iff a connect port is down and the count has reached 288; the count then resets, otherwise it goes up by one, and it resets when no connect port is down; it stays within 0..288 |
| StunnelCheck.FailingRunsClimb | ansible/common/stunnel/files/check_stunnel.py:103-114 | from 0, the stored count after k consecutive failing runs is k, for k up to 288 |
| StunnelCheck.FailingRunsPeriodic | ansible/common/stunnel/files/check_stunnel.py:103-114 | the stored count repeats every 289 consecutive failing runs |
| StunnelCheck.AlertOnRun | ansible/common/stunnel/files/check_stunnel.py:16 | from 0, among the first 289 consecutive failing runs the warning is sent on the 289th and on no other; with the period above, on every 289th run |
| StunnelCheck.Conclude | ansible/common/stunnel/files/check_stunnel.py:98-116 | after the loop: a raising value ends the run with the file untouched, a restart stores 0, and the count stays within 0..288 |
| StunnelCheck.RunStep | ansible/common/stunnel/files/check_stunnel.py:36-116 | a run always leaves a trigger file, keeps the count within 0..288, stores 0 on every restart, restarts an inactive service first, and stops without writing when the config is missing or a value raises |
| StunnelCheck.InactiveShortCircuits | ansible/common/stunnel/files/check_stunnel.py:50-53 | an inactive service is restarted and the trigger reset whatever the config and the ports |
| StunnelCheck.RestartBeatsCounter | ansible/common/stunnel/files/check_stunnel.py:98-101 | an unreachable accept port restarts the service and stores 0, whatever the connect ports and the count |
| StunnelCheck.CounterRule | ansible/common/stunnel/files/check_stunnel.py:103-114 | with every accept port up: count + 1 below 288, warning and 0 at 288 or more, 0 when every connect port is up |
| StunnelCheck.StunnelMonitor.SetTrigger | ansible/common/stunnel/files/check_stunnel.py:182-186 | the trigger file holds the count written |
| StunnelCheck.StunnelMonitor.GetTrigger | ansible/common/stunnel/files/check_stunnel.py:188-195 | 0 for an empty file, the stored number otherwise |
| StunnelCheck.StunnelMonitor.ServiceRestart | ansible/common/stunnel/files/check_stunnel.py:152-164 | a restart resets the trigger to 0 |
| StunnelCheck.StunnelMonitor.Run | ansible/common/stunnel/files/check_stunnel.py:36-116 | one run ends with the outcome and trigger file of `RunStep`, and keeps the count within 0..288 |

## Left out

- All boto3 calls are replaced by inputs and object state. Pagination of `list_stacks` and
  `describe_alarms` is not modelled. Neither is what `put_metric_alarm` does to fields it is not
  passed (dimensions, actions).
- `get_autoscaling_group_name_from_cloudformation` (auto_scaling_group_update.py:74-97) is a
  stack-output lookup. The group is passed to `UpdateAutoscalingGroup` directly.
  `get_autoscaling_group_instance_count` (lines 100-106) is not a separate member: its maximum is
  read from the group object.
- auto_scaling_group_update.py:7 and :10 are garbled (two statements fused, the `list_stacks` call
  commented out). Discovery is taken from the intact copy at scaling_ecs_Services.py:5-18. Both
  scripts share `StackNames`.
- The `__main__` drivers of both scaling scripts are not modelled as a loop over environments. The
  steps they chain are modelled one by one. `DiscoveredEnvHasClient` and `StackNameRoundTrip`
  connect discovery to extraction.
- `datetime.now()` becomes an hour parameter. All `print` output and log text is left out.
- Parameter values are taken as integers already parsed. The `int()` conversions of the scripts are
  not modelled.
- StackNames.IsClientStack: Python's `$` also matches before a final newline, `\d` also matches
  non-ASCII digits, and the env code goes into the pattern unescaped. CloudFormation stack names
  are ASCII letters, digits and hyphens, so none of this can happen with real stack names.
- CloudWatchAlarms.Described: returning the alarms in the order of the names asked for is what
  the script assumes when it indexes the answer by `alarm_list` position; the CloudWatch API does
  not promise that order.
- StunnelCheck.PortNumber: `int()` also accepts surrounding whitespace, a sign, underscores and
  non-ASCII digits. The model treats such a port as unparseable, so its probe reports it
  unreachable.
- Ping, `time.sleep`, `systemctl` and the Slack HTTP POST are left out. Service status, the
  restart result and reachability become fields of `Observation`. The Slack messages appear only
  as the failure lists of the outcome.
- The trigger file is missing, empty or holds an integer. Other contents (which make `int()`
  raise) are not modelled.
- StunnelConfig: the configuration is a sequence of header and `key = value` lines. Comments,
  continuation lines, `:` delimiters, whitespace stripping, the `DEFAULT` section and configparser's
  lower-casing of option names are not modelled. Option names are taken as already lower case.
- `ansible/vars_plugins/client_loader.py` is not part of this model.
