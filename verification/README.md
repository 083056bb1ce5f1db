# A verified model of gcp-emulator-provisioner

The provisioner reads what an emulator or a Google Cloud project holds, compares it with a config file,
creates what is missing and sends update masks for what has drifted. It promises to be idempotent and
additive, that concurrent runs do not fight each other, that a refused mask path does not discard the
rest of its batch, and that a dry run reflects the live state. This project models that reconciliation
engine in Dafny and proves those promises, over every store, every validated config, every interleaving
of any number of runs, every set of mask paths the endpoint refuses, every set of defaults it fills in,
and a fatal error at any call, with or without effect.

`dafny verify dfyconfig.toml` checks everything.

## How the model is laid out

| file | content |
|---|---|
| `Client.dfy`, `Wire.dfy` | the transport-neutral resources, the Pub/Sub messages and the conversions between them |
| `Reconcile.dfy` | drift, masks, label overlay, fields fixed at creation |
| `Resources.dfy`, `Algebra.dfy` | topics, subscriptions and buckets in one shape: `Diff`, `Payload`, masked `Apply`, `Target`; the laws relating them |
| `Machine.dfy` | the store, the endpoint and a run as a state machine in which one API call is one step; `Exec` runs any number of them under any schedule |
| `Confluence.dfy`, `Interleaving.dfy` | the invariant (each field initial or target, pending messages right where they still matter, everything passed has arrived) and its preservation by every step |
| `Guarantees.dfy`, `Additivity.dfy`, `Trace.dfy`, `Repetition.dfy` | what follows for whole executions, the exact calls of one run, and what further runs still send |
| `Durations.dfy`, `Config.dfy`, `Validator.dfy`, `Build.dfy` | the config, its validation, the builders, and the work list a config gives rise to |
| `Declared.dfy` | what each config setting means for a message and for a stored resource, without reference to the diff; the diff is silent exactly where the setting is held |
| `Theorems.dfy`, `Fulfilment.dfy` | the promises, stated for every config the validator accepts, and what the store holds of the config once a run is through |
| `Endpoints.dfy`, `Playback.dfy`, `Provisioners.dfy` | the fake endpoint and the provisioner as classes; every method takes exactly the steps of the state machine |
| `Defaulting.dfy` | which policies converge on an endpoint that replaces zeros by defaults |
| `Expansion.dfy`, `Retry.dfy`, `Credentials.dfy` | `${NAME}` expansion, the connection retry loop, key files |

A run works through a list of entries: every topic, then every subscription, then every bucket. For each
it reads, and then does nothing, creates, or sends the whole mask and, if the endpoint refuses a path of
it, each path alone. `Env` fixes what is not the provisioner's choice: the project, the refused paths of
topics and of subscriptions, whether the endpoint rejects a subscription that names a missing topic, and
the defaults, if any, that it puts in the place of zeros in what a call writes.
A `Fault` strikes a call before it reaches the endpoint or after it took effect. The theorems hold for
every value of all of these.

`Written(env, it, r)` is what an update planned after reading `r` writes, defaults included.
`Target(env, it, found)` is the resource one undisturbed reconciliation leaves; `TargetStore` is the
store with every entry at its target. `Reachable` says that some crowd of runs under some schedule of
steps and faults leads from one store to another.

## Where the code and its documentation disagree

- The comment at internal/provisioner/topics.go:111-112 says every wanted label must be present. Go's map
  read makes a missing key the empty string, so a configured empty-valued label that is absent is not
  drift. `SubsetMeansCarries` states exactly when the comparison means presence on a given resource, and
  `OnlyEmptyValuesArePassedOver` that it does on every resource exactly when no configured value is empty.
- README.md:392 and internal/client/pubsub.go:380-381 say that an omitted push wrapper is left as the
  subscription has it. When `push_config` is in the mask the whole message is replaced and only
  attributes are carried across, so an explicit wrapper and an omitted OIDC token are lost.
  `OmittedTokenSurvives` and `OmittedWrapperSurvives` state exactly when they survive, and
  `ChangedEndpointDropsTokenAndWrapper` gives a config that loses both.
- The comment at internal/provisioner/subscriptions.go:259-261 says that push settings the config omits are
  not compared. Under `push_wrapper: none` an omitted `push_write_metadata` is compared as false, so a live
  true is drift and is reset. `LiveMetadataSurvives` states exactly when a live flag survives.
- `max_delivery_attempts: 0` and one-sided retry policies pass validation but are compared as whole
  structs. On an endpoint that fills in defaults the store still converges, but the path is sent again in
  every further run: `ZerosAreSentForever` states exactly when, and `Recurs` is the condition for any path,
  any endpoint and any store.
- The day notation multiplies in wrapping 64-bit arithmetic: it is exact for at most 106751 days either
  way (`DaysAreExact`), and beyond that a huge count can pass validation as a week
  (`HugeCountPassesForAWeek`).
- The "failed to connect after 16 attempts" exit of the retry loop cannot be reached within the total
  timeout of 300 seconds (`RetryBound`); it would need 361 (`GivingUpNeedsTime`).

## Model

| member | source | states |
|---|---|---|
| `Fulfilment.SubscriptionsHoldTheConfig` | internal/provisioner/subscriptions.go:26-90 | once a real run of a validated config is through, under any schedule, every subscription exists; a missing one was created as written; an existing one under "create" (its own, or global and none of its own) is unchanged; of any other each of the nine settings holds exactly if it held before or the endpoint takes and keeps it |
| `Fulfilment.TopicsHoldTheConfig` | internal/provisioner/topics.go:20-77 | the same for both topic settings |
| `Fulfilment.BucketsHoldTheConfig` | internal/provisioner/buckets.go:14-115 | the same for buckets: created as written, or unchanged but for a declared versioning |
| `Fulfilment.CreateLeavesSubscriptions` | internal/provisioner/subscriptions.go:49-52 | in every execution, failing ones included, an existing subscription is unchanged if it or, for want of its own strategy, the config says "create" |
| `Fulfilment.CreateLeavesTopics` | internal/provisioner/provisioner.go:101-106 | the same for topics |
| `Fulfilment.CreateLeavesBuckets` | internal/provisioner/buckets.go:48-53 | the same for buckets |
| `Declared.SubSilenceIsAgreement` | internal/provisioner/subscriptions.go:224-323 | for every live subscription and path: no drift if and only if the stored message holds what the config writes under it |
| `Declared.TopicSilenceIsAgreement` | internal/provisioner/topics.go:98-121 | the same for topics |
| `Declared.BucketSilenceIsAgreement` | internal/provisioner/buckets.go:93-115 | the same for versioning |
| `Declared.SubscriptionAsWritten` | internal/provisioner/subscriptions.go:93-183 | the message of a create says what the config says: names, filter, labels, the three flags, times, push settings, policies |
| `Declared.TopicAsWritten` | internal/provisioner/topics.go:80-91 | the same for topics |
| `Declared.BucketAsWritten` | internal/provisioner/buckets.go:20-31 | the same for buckets, the storage class upper-cased |
| `Declared.MessageWithinLimits` | internal/config/config.go:372-389 | the message of a validated subscription keeps the service's limits on deadline, retention, expiration and attempts |
| `Declared.BackoffsWithinLimits` | internal/config/config.go:628-655 | and those on backoffs, which are in order |
| `Declared.FixedReport` | internal/provisioner/subscriptions.go:201-219 | filter, ordering or topic is reported if and only if the config states it and the subscription holds another; nothing is reported if and only if all agree |
| `Declared.BucketReport` | internal/provisioner/buckets.go:76-89 | the same for location and storage class, when both sides state them |
| `Theorems.RunsDoNotFight` | internal/client/pubsub.go:217-235 | any interleaving of any runs of a validated config: once one real run is through, the store equals what any completed run alone makes of the original store, whatever the others still hold in flight |
| `Theorems.StoppedRunsResume` | internal/provisioner/provisioner.go:92-138 | after runs stopped anywhere, one quiet run ends in the same store as a quiet run from the original state, and does end |
| `Theorems.FurtherRunsHaveNothingToDo` | internal/provisioner/provisioner.go:101-135 | after any number of quiet runs a further one leaves the store alone and sends exactly the paths that recur: only refused ones where no default gets in, and no mutating call at all where every path is supported and every declared value kept |
| `Theorems.ZerosAreSentForever` | internal/provisioner/subscriptions.go:311-323 | on a defaulting endpoint, from any store it can hold, every further run sends the dead-letter policy of a subscription under "update" if and only if the config declares zero attempts, and the retry policy if and only if a backoff parses to zero; each needs only its own path supported |
| `Theorems.RunsAreAdditive` | internal/provisioner/provisioner.go:101-135 | in every execution nothing disappears, unnamed resources are untouched, and of named ones the fixed and omitted fields, unmanaged labels and push attributes, and everything under "create" stay |
| `Theorems.ReferencesAreSafe` | internal/provisioner/provisioner.go:101-115 | whatever call is in flight, the owning and dead-letter topics it writes already exist; a run fails only where a fault struck one of its own calls |
| `Theorems.DryRunTellsTheTruth` | internal/provisioner/subscriptions.go:37-72 | a dry run leaves the store alone and previews exactly the first mutating call per resource of a real run from the same store |
| `Guarantees.InitialOrTarget` | internal/provisioner/subscriptions.go:26-90 | at every moment of every execution each field of each named resource holds its initial or its target value, and nothing else has changed |
| `Guarantees.ConcurrentRunsConverge` | internal/client/storage.go:124-143 | as soon as any real run is complete, the store is the target store, for every schedule, stale reads and faults included |
| `Guarantees.TargetIsStable` | internal/provisioner/update.go:24-54 | the target store is the same from every store that runs can be stopped in |
| `Guarantees.InterruptedRunsResume` | internal/provisioner/provisioner.go:92-138 | a crowd of runs cut off anywhere and then another crowd: the first to complete leaves the original target store |
| `Guarantees.TargetStoreIdempotent` | internal/provisioner/provisioner.go:101-135 | the target store of the target store is itself |
| `Guarantees.ConvergedStoreIsFixed` | internal/provisioner/provisioner.go:101-135 | from a converged store no execution, failing or not, reaches any other store |
| `Guarantees.OnlyFaultsFail` | internal/provisioner/provisioner.go:101-115 | a failed run was struck by a fault in a step of its own |
| `Guarantees.ReferencesExist` | internal/config/config.go:661-673 | the topics a pending create or dead-letter update refers to exist in the store, at every moment of every execution |
| `Guarantees.FairRunsFinish` | internal/provisioner/provisioner.go:92-138 | without faults, after 11 turns per entry each, all runs are complete and the store is the target store if any was real |
| `Guarantees.AdvanceShrinks` | internal/provisioner/update.go:24-54 | every call of a run lowers the bound on the calls it can still make |
| `Interleaving.StepKeeps` | internal/provisioner/subscriptions.go:26-90 | one step of any run, under any fault, keeps the invariant; without a fault no run fails |
| `Interleaving.ExecKeeps` | internal/provisioner/subscriptions.go:26-90 | the invariant holds after every schedule |
| `Confluence.PendingRefersToExisting` | internal/provisioner/provisioner.go:101-115 | under the invariant a pending request refers only to existing topics |
| `Additivity.EveryExecutionIsAdditive` | internal/provisioner/topics.go:126-135 | additivity for every well-formed work list and every execution, failing ones included |
| `Additivity.MidwayKeeps` | internal/provisioner/subscriptions.go:74-89 | a resource on its way keeps fixed and omitted fields, unmanaged labels and unmanaged attributes |
| `Additivity.OmittedNeverDrifts` | internal/provisioner/subscriptions.go:224-257 | a field the config omits is never in a mask |
| `Additivity.OmittedTokenSurvives` | internal/provisioner/subscriptions.go:290-295 | a live OIDC token the config omits survives if and only if push_config is not sent or not accepted |
| `Additivity.OmittedWrapperSurvives` | internal/client/pubsub.go:356-385 | likewise an explicit live wrapper the config leaves unset |
| `Additivity.LiveMetadataSurvives` | internal/provisioner/subscriptions.go:276-284 | under wrapper "none" a live metadata flag survives if and only if the config's flag, false when omitted, is the same, or the strategy is "create", or push_config is refused |
| `Additivity.ChangedEndpointDropsTokenAndWrapper` | internal/provisioner/subscriptions.go:74-79 | a config that changes only the endpoint loses the live token and wrapper |
| `Algebra.ExactDiffLaw` | internal/provisioner/subscriptions.go:224-286 | applying any sub-mask of the diff and diffing again yields, in order, the original diff minus that mask, plus what a default overruled; exactly the rest where the endpoint echoes |
| `Algebra.DiffIsMinimal` | internal/provisioner/subscriptions.go:224-257 | a sub-mask of the diff removes all drift if and only if it is the whole diff and no default gets in |
| `Algebra.CreatedHasNoDrift` | internal/client/pubsub.go:303-350 | the message of a create, read back, has no drift |
| `Algebra.InitialDrift` | internal/client/pubsub.go:303-350 | as stored it has drift exactly where the endpoint filled in a default |
| `Algebra.CreatedHasNoFixedDrift` | internal/provisioner/subscriptions.go:201-219 | nor does it show drift in the fields fixed at creation |
| `Algebra.DriftAtTarget` | internal/provisioner/update.go:24-54 | what still drifts after a complete reconciliation is, in order, exactly the part of the original diff that is refused or overruled by a default; of a new resource, the defaults |
| `Algebra.TargetIdempotent` | internal/provisioner/subscriptions.go:26-90 | reconciling a resource at its target leaves it there |
| `Algebra.TargetFromMidway` | internal/provisioner/subscriptions.go:74-89 | the target is the same from every value a resource can have on its way |
| `Algebra.MidwayRead` | internal/provisioner/subscriptions.go:55-79 | what a run learns from a read in the middle of others: unsent paths are home, sent ones carry the target value |
| `Trace.RunFollowsPlan` | internal/provisioner/provisioner.go:101-135 | a lone run that has not failed has made exactly the calls read off the original store, and the store is exactly as far |
| `Trace.CompletedRun` | internal/provisioner/provisioner.go:92-138 | a completed lone run left the target store and sent exactly the planned calls |
| `Trace.QuietRunSucceeds` | internal/provisioner/provisioner.go:92-138 | a lone run fails only if a fault struck |
| `Trace.QuietRunCompletes` | internal/provisioner/provisioner.go:92-138 | without faults a lone run completes within 11 calls per entry |
| `Trace.DryRunPreviews` | internal/provisioner/topics.go:31-59 | a dry run never changes the store and has previewed exactly the entries it passed |
| `Trace.PreviewIsFirstCall` | internal/provisioner/buckets.go:32-39 | the previews are the planned calls of a real run, first per resource, in order |
| `Trace.DryRunIsFaithful` | internal/provisioner/buckets.go:104-108 | dry and real run from the same store: both complete, and the previews are the first calls per resource |
| `Repetition.SecondRunIsIdle` | internal/provisioner/provisioner.go:101-135 | after a clean run the store is fixed, exactly the recurring paths are sent, only refused ones without defaults, none if nothing is stuck |
| `Repetition.SentAgain` | internal/provisioner/subscriptions.go:224-257 | in the calls of a run from the target store a path of an entry occurs if and only if it recurs |
| `Repetition.AfterRunsIsTarget` | internal/provisioner/provisioner.go:101-135 | any number of quiet runs leaves what the first left |
| `Resources.PayloadSettles` | internal/provisioner/subscriptions.go:74-89 | sending a drifting path settles it |
| `Resources.PayloadIsStable` | internal/provisioner/subscriptions.go:74-79 | what is sent for a drifting path is the same from a stale read as from a fresh one |
| `Resources.WrittenIsStable` | internal/provisioner/subscriptions.go:74-89 | so is what the endpoint writes from it, defaults included |
| `Resources.WrittenDrift` | internal/provisioner/subscriptions.go:311-323 | what is written under a drifting path leaves drift exactly where a default gets in |
| `Resources.DriftIsLocal` | internal/provisioner/subscriptions.go:224-257 | whether a path drifts depends only on the field it names |
| `Resources.ApplyField` | internal/client/pubsub_server_test.go:143-185 | a masked update takes each masked field from the message and every other from the resource |
| `Reconcile.CheckLabelsSubset` | internal/provisioner/topics.go:114-121 | the early-exit loop answers whether every wanted label reads as wanted, a missing key reading as empty |
| `Reconcile.SubsetMeansCarries` | internal/provisioner/topics.go:111-121 | the comparison agrees with presence and equality if and only if, where it accepts, every empty-valued wanted label is present |
| `Reconcile.OnlyEmptyValuesArePassedOver` | internal/provisioner/topics.go:111-121 | it agrees on every resource if and only if no wanted value is empty |
| `Reconcile.EmptyValuedLabelIsNotDrift` | internal/provisioner/topics.go:111-121 | a configured empty-valued label matches if and only if the live one is absent or empty |
| `Reconcile.MergeLabelsMeaning` | internal/provisioner/topics.go:126-135 | the overlay matches the config, has exactly both key sets, and keeps unmanaged values |
| `Reconcile.MergeLabelsIdempotent` | internal/provisioner/topics.go:126-135 | overlaying twice is overlaying once |
| `Reconcile.DiffTopic` | internal/provisioner/topics.go:98-109 | the slice built is the drifting topic paths in declaration order |
| `Reconcile.DiffSubscription` | internal/provisioner/subscriptions.go:224-257 | the slice built is the drifting subscription paths in declaration order |
| `Reconcile.CheckPushConfigEqual` | internal/provisioner/subscriptions.go:262-286 | the early exits decide agreement of every push setting the config states |
| `Reconcile.ImmutableDrift` | internal/provisioner/subscriptions.go:201-219 | the slice built is the disagreeing fields fixed at creation, in order |
| `Reconcile.CreateOnlyDrift` | internal/provisioner/buckets.go:76-89 | the slice built is the disagreeing create-time attributes, in order |
| `Wire.ShortNameInverts` | internal/client/pubsub.go:194-199 | shortening undoes qualification of a name if and only if it is slash-free |
| `Wire.ShortNameMeaning` | internal/client/pubsub.go:194-199 | the short name is the slash-free rest after the last slash, or the whole path |
| `Wire.PathSegments` | internal/client/pubsub.go:176-183 | the two qualified paths, taken apart at their slashes |
| `Wire.SubscriptionMessage` | internal/client/pubsub.go:303-350 | what is sent, field by field, whatever is read back |
| `Wire.PolicyMessage` | internal/client/pubsub.go:335-347 | the same for dead letter and retry policies |
| `Wire.AckDeadlineMessage` | internal/client/pubsub.go:317-329 | a deadline goes out as its whole seconds, rounded down |
| `Wire.PushMessage` | internal/client/pubsub.go:356-385 | the same for push settings |
| `Wire.TopicMessage` | internal/client/pubsub.go:219-228 | the same for topics |
| `Wire.SubscriptionRead` | internal/client/pubsub.go:417-449 | what is read, field by field, whatever was sent |
| `Wire.PolicyRead` | internal/client/pubsub.go:436-446 | the same for dead letter and retry policies |
| `Wire.PushRead` | internal/client/pubsub.go:389-415 | the same for push settings |
| `Wire.TopicRead` | internal/client/pubsub.go:202-215 | the same for topics |
| `Wire.TopicPathShortens` | internal/client/pubsub.go:176-178 | the same for topic paths |
| `Wire.SubscriptionPathShortens` | internal/client/pubsub.go:181-183 | the same for subscription paths |
| `Wire.TopicPathInjective` | internal/client/pubsub.go:176-178 | distinct topic names have distinct paths |
| `Wire.SubscriptionPathInjective` | internal/client/pubsub.go:181-183 | distinct subscription names have distinct paths |
| `Wire.AckDeadlineRoundTrip` | internal/client/pubsub.go:317-329 | an ack deadline survives the conversion to 32-bit seconds if and only if it is zero or positive, whole and in range |
| `Wire.SubscriptionRoundTrip` | internal/client/pubsub.go:303-449 | reading back a sent subscription gives it, unset flags as false, if and only if it is transmissible |
| `Wire.TopicRoundTrip` | internal/client/pubsub.go:202-235 | the same for topics |
| `Wire.BuildProtoSubscription` | internal/client/pubsub.go:303-350 | the field-by-field builder produces the message of the conversion function |
| `Config.EffectiveStrategy` | internal/config/config.go:25-32 | the loop returns the first non-empty strategy, or "update" |
| `Config.StrategyMeaning` | internal/config/config.go:25-32 | nothing written means "update", otherwise the first written strategy counts |
| `Config.CreateOnlyMeaning` | internal/provisioner/provisioner.go:101-110 | an entry is create-only if and only if it says "create", or says nothing and the config as a whole does |
| `Config.AcceptedStrategies` | internal/config/config.go:347-352 | a strategy is valid if and only if it resolves to one of the two |
| `Config.AcceptedNames` | internal/config/config.go:312-315 | exactly which topic and subscription names pass |
| `Config.AcceptedBucketNames` | internal/config/config.go:317-320 | exactly which bucket names pass |
| `Config.AcceptedPush` | internal/config/config.go:544-579 | exactly which push settings fit together, with and without an endpoint |
| `Config.AcceptedAckDeadlines` | internal/config/config.go:588-607 | whole seconds from 10 to 600, or none |
| `Config.AcceptedRetentions` | internal/config/config.go:395-411 | 600 seconds to 31 days, or none |
| `Config.AcceptedExpirations` | internal/config/config.go:495-503 | one day to 365, "never", or none |
| `Config.AcceptedBackoffs` | internal/config/config.go:628-655 | at most 600 seconds each, in order unless one is zero |
| `Config.AcceptedAttempts` | internal/config/config.go:609-626 | zero, or 5 to 100 |
| `Config.NoNullsPass` | internal/config/config.go:471-539 | no string of a validated subscription that reaches the service has a null byte |
| `Config.ResourceNameHasNoSlash` | internal/config/config.go:315-315 | a valid resource name contains no slash |
| `Validator.ValidateDurationRange` | internal/config/config.go:356-411 | accepts exactly the omitted value and the parsable non-negative ones within the range |
| `Validator.ValidateAckDeadline` | internal/config/config.go:588-607 | accepts exactly the whole-second deadlines of 10 to 600 seconds |
| `Validator.ValidateLabels` | internal/config/config.go:414-421 | accepts exactly the maps free of null bytes |
| `Validator.ValidatePush` | internal/config/config.go:544-579 | accepts exactly the consistent push settings |
| `Validator.ValidateRetry` | internal/config/config.go:628-655 | accepts exactly the backoffs in range and in order |
| `Validator.ValidateSubscription` | internal/config/config.go:471-539 | accepts exactly the subscriptions whose every setting is valid |
| `Validator.ValidateSubscriptions` | internal/config/config.go:471-539 | with the names seen so far: accepts exactly valid subscriptions with new, pairwise distinct names, and returns the grown set |
| `Validator.ValidateDeadLetterTargets` | internal/config/config.go:661-673 | accepts exactly when every dead-letter target is a declared topic |
| `Validator.ValidateTopics` | internal/config/config.go:423-469 | accepts exactly the lists the declarative predicate calls valid: settings, distinct topics, distinct subscriptions across topics, declared targets |
| `Validator.ValidateBuckets` | internal/config/config.go:687-720 | accepts exactly the valid, distinctly named buckets |
| `Validator.Validate` | internal/config/config.go:328-344 | accepts exactly the valid files: project, resources and credentials |
| `Durations.DaysAreExact` | internal/config/config.go:295-310 | day notation is exact if and only if the count is within 106751 either way |
| `Durations.SignOfCount` | internal/config/config.go:301-306 | a minus sign negates the count, a plus sign does nothing |
| `Durations.WrittenDaysParse` | internal/config/config.go:295-310 | a count within range, written in decimal and followed by d, parses to that many days |
| `Durations.DaysCanWrapToAWeek` | internal/config/config.go:305-305 | the string 281474976710663d parses as seven days, whatever the rest of the grammar |
| `Build.HugeCountPassesForAWeek` | internal/config/config.go:384-411 | and is accepted as a retention and as an expiration |
| `Build.BuildSubscription` | internal/provisioner/subscriptions.go:93-152 | the builder fails exactly when a duration does not parse, and else yields the specified subscription |
| `Build.BuildTopic` | internal/provisioner/topics.go:80-91 | the same for topics |
| `Build.ValidatedBuildIsLossless` | internal/provisioner/subscriptions.go:93-152 | a validated subscription builds, a duration is positive exactly where one was written, and the result is transmissible |
| `Build.ValidatedTopicIsLossless` | internal/provisioner/topics.go:80-91 | the same for topics |
| `Build.DayFormRanges` | internal/config/config.go:384-411 | where day notation is exact, retention accepts exactly 1 to 31 days and expiration exactly 1 to 365 |
| `Build.ValidatedWorkListIsWellFormed` | internal/config/config.go:423-469 | a validated config yields sound entries, pairwise distinct resources, and every referenced topic earlier in the list |
| `Endpoints.CheckMask` | internal/client/pubsub_server_test.go:101-107 | the scan finds a refused path if and only if the mask has one |
| `Endpoints.AssignTopic` | internal/client/pubsub_server_test.go:113-119 | the assignment loop is the masked update |
| `Endpoints.AssignSubscription` | internal/client/pubsub_server_test.go:161-183 | the assignment loop is the masked update |
| `Endpoints.Endpoint.CreateTopic` | internal/client/pubsub_server_test.go:73-81 | the call is answered as the endpoint function says, under the fault that struck |
| `Endpoints.Endpoint.UpdateTopic` | internal/client/pubsub_server_test.go:93-121 | the whole mask is validated before anything is touched, then each masked field replaced |
| `Endpoints.Endpoint.CreateSubscription` | internal/client/pubsub_server_test.go:123-131 | the call is answered as the endpoint function says |
| `Endpoints.Endpoint.UpdateSubscription` | internal/client/pubsub_server_test.go:143-185 | the whole mask is validated before anything is touched, then each masked field replaced |
| `Endpoints.Endpoint.CreateBucket` | internal/client/storage.go:126-143 | the call is answered as the endpoint function says |
| `Endpoints.Endpoint.SetVersioning` | internal/client/storage.go:146-157 | only the versioning flag changes |
| `Playback.FollowsStep` | internal/provisioner/subscriptions.go:26-90 | one answered call is one step of the run |
| `Playback.FollowedRun` | internal/provisioner/provisioner.go:92-138 | a store the code reaches is reachable in the state machine, and failure means a fault struck |
| `Playback.BatchEffect` | internal/provisioner/update.go:30-42 | the whole mask, answered: all applied, or refused and nothing applied, or cut off |
| `Playback.SingleEffect` | internal/provisioner/update.go:44-53 | one path, answered: the store has exactly the accepted paths so far |
| `Provisioners.Provisioner.ApplyPaths` | internal/provisioner/update.go:24-54 | refines one masked update with exactly the accepted paths; refused paths reported once, in order; 1 + n calls if n > 1 and a path is refused, else 1; if cut off at path i, exactly the accepted paths before i are applied, and i too only if its reply was lost |
| `Provisioners.Provisioner.ApplyEach` | internal/provisioner/update.go:44-53 | the same for the path-by-path loop |
| `Provisioners.Provisioner.PlanTopic` | internal/provisioner/topics.go:20-59 | read, diff and decide exactly as the run does, previews included |
| `Provisioners.Provisioner.EnsureTopic` | internal/provisioner/topics.go:20-77 | takes exactly the steps of the run for one topic entry |
| `Provisioners.Provisioner.PlanSubscription` | internal/provisioner/subscriptions.go:26-72 | the same decision, and reports exactly the disagreeing fixed fields unless strategy is "create" |
| `Provisioners.Provisioner.EnsureSubscription` | internal/provisioner/subscriptions.go:26-90 | takes exactly the steps of the run for one subscription entry |
| `Provisioners.Provisioner.PlanBucket` | internal/provisioner/buckets.go:14-66 | the same decision for a bucket, and reports exactly the disagreeing create-time attributes when asked to compare them |
| `Provisioners.Provisioner.EnsureBucket` | internal/provisioner/buckets.go:14-115 | takes exactly the steps of the run for one bucket entry |
| `Provisioners.Provisioner.ProvisionPubSub` | internal/provisioner/provisioner.go:92-118 | two passes, topics then subscriptions under the global strategy, are the first two sections of the work list |
| `Provisioners.Provisioner.ProvisionStorage` | internal/provisioner/provisioner.go:121-138 | the bucket loop is its last section |
| `Provisioners.Provisioner.RunAll` | internal/provisioner/provisioner.go:145-160 | credentials first: their pass is the specified one and an error there leaves the endpoint alone; then the two endpoint sections with the same promises |
| `Provisioners.Provisioner.ProvisionResources` | internal/provisioner/provisioner.go:151-156 | on a validated config: success means the target store and exactly the planned calls, so that what is said of the store once a run is through holds, or in a dry run an untouched store and exactly the previews; failure means a fault struck; always a reachable store |
| `Defaulting.ConvergesIffNonZero` | internal/provisioner/subscriptions.go:311-323 | the same for any well-formed work list, over real runs from any store such an endpoint can hold; the store stays fixed and every other supported path is settled |
| `Defaulting.RecursIffDefaulted` | internal/provisioner/subscriptions.go:249-254 | from such a store a supported path recurs exactly where the config declares a zero the endpoint overrules |
| `Defaulting.ReachedIsHeld` | internal/provisioner/subscriptions.go:26-90 | no execution makes such an endpoint hold a zero it would fill in |
| `Defaulting.StoredZeroIsLeftAlone` | internal/provisioner/subscriptions.go:63-67 | a zero stored all the same is not drift and not sent, so the condition on the store is needed |
| `Expansion.TokensAreTheReading` | internal/config/config.go:189-200 | the tokens of a string are its only reading in which every reference is a match of the pattern and no match begins at a literal, from left to right |
| `Expansion.ExpansionIsOnePass` | internal/config/config.go:189-200 | expansion renders any such reading; the values have no part in it, so none is rescanned |
| `Expansion.ReferenceIsReplaced` | internal/config/config.go:192-200 | a set reference gives way to its value, an unset one stays, and the rest is expanded by itself |
| `Expansion.UnsetStaysVerbatim` | internal/config/config.go:192-200 | a string none of whose references is set is unchanged |
| `Expansion.ExpansionIsIdempotent` | internal/config/config.go:192-200 | with non-empty values free of dollar signs and braces, expanding twice is expanding once |
| `Expansion.EmptyValueBreaksIdempotence` | internal/config/config.go:192-200 | an empty value can make a second expansion replace more |
| `Expansion.ExpandMap` | internal/config/config.go:203-212 | the loop computes the overwrite in the order the keys came up |
| `Expansion.MapExpansionIsDeterministic` | internal/config/config.go:203-212 | the result is independent of the order if and only if no two keys expand to the same key with different values |
| `Retry.RetryUntilReady` | internal/client/client.go:23-57 | the loop's attempts and exit are one of the runs the clock allows |
| `Retry.StartsNoEarlier` | internal/client/client.go:38-52 | an attempt starts no earlier than the capped exponential waits before it and no later than the limit |
| `Retry.WaitedClosedForm` | internal/client/client.go:38-41 | the waits add up to 2^k - 1 seconds, then 30 seconds each |
| `Retry.RetryBound` | internal/client/client.go:13-57 | within 300 seconds at most 14 probes, and never the give-up exit |
| `Retry.ConnectsIffProbeSucceeds` | internal/client/client.go:27-53 | it connects if and only if some probe succeeds, which is then the last; otherwise it stops only when the next wait no longer fits |
| `Retry.BoundIsTight` | internal/client/client.go:13-57 | 14 probes do happen |
| `Retry.GivingUpNeedsTime` | internal/client/client.go:56-56 | the give-up exit is possible if and only if the limit is at least 361 seconds |
| `Credentials.ValidateCredentials` | internal/config/config.go:740-782 | accepts exactly the valid lists with pairwise distinct paths |
| `Credentials.KeyWriter.EnsureCredential` | internal/provisioner/credentials.go:45-92 | the disk and the verdict are those of the specification, for each way an entry can fail |
| `Credentials.KeyWriter.ProvisionCredentials` | internal/provisioner/credentials.go:20-37 | the loop is one pass, stopping at the first error |
| `Credentials.KeyStability` | internal/provisioner/credentials.go:39-65 | over any number of runs, dry or failing, an existing file that is not under "update" is never written and a missing one at most once |
| `Credentials.SuccessfulPass` | internal/provisioner/credentials.go:45-92 | a real run that succeeds leaves a file at every configured path: a missing one, or one under "update", written exactly once with the entry's address and token address and a new keypair; every other file as it was |
| `Credentials.FaultlessPassSucceeds` | internal/provisioner/credentials.go:20-37 | with a project and without faults a run succeeds |
| `Credentials.OwnStrategyDecides` | internal/config/config.go:733-738 | in a validated list that condition is the entry's own strategy being "" or "create" |
| `Credentials.DryPassWritesNothing` | internal/provisioner/credentials.go:67-77 | a dry pass leaves the disk alone |
| `Credentials.UpdateAlwaysRotates` | internal/provisioner/credentials.go:40-44 | under "update" every successful real run leaves a keypair no file held before |

## Left out

- Connections, contexts, closing clients and the per-operation timeouts of the storage client: replaced by an endpoint whose calls may fail before or after taking effect.
- Classification of error texts and status codes: answers are found, done, not found, already exists, unsupported or fatal. A bucket or topic that the endpoint answers with an error of its own is a fatal fault.
- Deletion by others, and writers that are not provisioner runs of the same config.
- Unicode: strings.EqualFold is the parameter `equalFold`; `ToUpper` changes only the letters whose upper case is ASCII, a to z, U+0131 and U+017F, which decides the same storage classes, as every accepted one is ASCII when upper-cased.
- YAML and URL parsing; time.ParseDuration is the parameter `goParse`, an arbitrary partial function, and only the day notation is concrete.
- Rewriting every string field of the config in place (internal/config/config.go:218-271): one call per field of the two functions that are modelled.
- Reports that change nothing: `annotateVersioningError`, counts and log lines other than previews, refused paths and drift in fixed fields; validation errors are a verdict without their text. Selecting sections by flag.
- Saturation of protobuf durations and of floating-point seconds outside the 32-bit range beyond the one conversion that the ack deadline takes; validated values never come near it.
- Expansion.ExpansionIsIdempotent: one direction; other values can happen to be idempotent on a given string.
- Generation and encoding of keys, file modes and crashes in the middle of a write: a key is a fresh serial number and a write is atomic; two provisioners writing the same key file at once are not modelled.
- Retry.RetryUntilReady: the clock is ideal, so time passes only in probes and waits; on a loaded machine waits are longer, which only lowers the number of probes.
- The token stub, flags, environment lookup, logging setup, container and build files.
