# Quota Monitor for AWS — a verified Dafny model of its core

Quota Monitor for AWS watches the service quotas of one account or of a whole
organization. It alerts when usage of a quota passes a threshold, which is
80 % in the original scripts. This project models the parts of the solution
that decide what is checked, what is counted as a breach, what is recorded
and what is sent. It also proves properties of that model.

- **The original single-account checks.** `limit-check.py` and the older
  `limitCheck.py` check one account against EC2 On-Demand instances,
  CloudFormation stacks, RDS instances and DynamoDB capacity, plus the
  Trusted Advisor service-limit check.
  - `LimitCheck` models `limit-check.py`:
    - the ratio test `usage / limit >= 0.8`;
    - the fixed-format alert blocks;
    - the DynamoDB table and index aggregation, checked both against the
      per-table limit and against the account limit;
    - the Trusted Advisor refresh and read;
    - the per-region alert counters;
    - the region loop of the handler.
  - `LimitCheckLegacy` models `limitCheck.py`.
- **The Lambda functions of the current solution, in TypeScript.**
  - The shared layer:
    - `UtilsExports`: the organization identifier validators and chunking.
    - `Triggers`: the event-shape recognisers.
    - `ServiceQuotas`: usage-metric filtering and the CloudWatch metric-data
      queries.
    - `CloudFormation`: the stackset helper.
    - `Events`: the event-bus permissions and event forwarding.
  - The hub:
    - `Deployment`: the deployment manager.
    - `PreReq`: the prerequisite checks.
    - `Reporter`: the usage reporter that drains the summary queue.
    - `Slack`: the Slack notifier, together with its older JavaScript
      version.
    - `TARefresh`: the Trusted Advisor refresher, together with its two
      JavaScript predecessors.
  - The Service Quotas spoke:
    - `QuotaListManager`: the quota list manager, driven by the service
      table's stream.
    - `CwPoller`: the CloudWatch poller that turns utilization into
      OK/WARN/ERROR events.
- **The JavaScript vCPU checks.** `SQChecks` models the current copy and
  `SQChecksLegacy` the older one. The older one keeps its limit and usage
  maps at module level.
- **The build-time template rewriter** (`CdkHelper`). It points Lambda code at
  the regional solution bucket and strips the CDK asset parameters and the
  Rules section.
- **The quota listing script** (`ListQuotas`). It lists every quota whose
  value is one.

Pure logic is written as datatypes and functions, with lemmas about them.
Code that updates objects in place, or that loops over pages, regions or
records, is written as classes and methods. Each method is proved against a
specification function. SDK calls, HTTP requests and clocks are parameters
of the model:
- an SDK call is a function from request to `Result`;
- a paginated API is a sequence of pages;
- a handler's side effects are the sequences it appends to (`published`,
  `sent`, `putRequests`, ...).

Three behaviours a reader might expect are not what the code does, and
the model follows the code:
- **Zero limit.** One would expect a zero or missing limit to be treated
  as a data-fetch fault, guarded before the ratio is evaluated. The code
  divides, so a zero limit raises `ZeroDivisionError` and ends the
  invocation. `LimitCheck.Flagged` models exactly that.
- **Trusted Advisor refresh poll.** The code in `limit-check.py` polls the
  refresh status without a bound and has no timeout state. The model
  takes the refresh as finished and reads the result once (see
  "Left out").
- **State across invocations.** `limit-check.py` keeps `TA_MESSAGE` at
  module level, so a warm container can resend an earlier account's
  Trusted Advisor message. `LimitCheck.TAMessageStickyGreen` proves it
  for the only region list under which the code can run to the end
  (us-east-1 alone, see "Findings"): when every Trusted Advisor item is
  Green, TA_MESSAGE keeps the earlier value, and `LambdaHandler`
  publishes it behind the new header.

## Model

| member | source | states |
|---|---|---|
| UtilsExports.PatternsDisjoint | source/lambda/utilsLayer/lib/exports.ts:60-64 | no identifier matches two of OU_REGEX, ORG_REGEX and ACCOUNT_REGEX |
| UtilsExports.ValidateOrgFromSpec | source/lambda/utilsLayer/lib/exports.ts:72-81 | the forEach from item i on passes iff every later item is an OU or an org id and no org id sits in a list of more than one; any failure is IncorrectConfigurationException |
| UtilsExports.ValidateOrgInputSpec | source/lambda/utilsLayer/lib/exports.ts:70-83 | validateOrgInput returns true iff every item is an OU or org id and an org id only appears alone (the empty list passes); otherwise IncorrectConfigurationException |
| UtilsExports.ValidateAccountInput | source/lambda/utilsLayer/lib/exports.ts:89-96 | passes iff every account starts with twelve digits; a failure names an account that does not |
| UtilsExports.CreateChunksFromArray | source/lambda/utilsLayer/lib/exports.ts:103-113 | the loop returns the slices at 0, chunkSize, 2*chunkSize, ... (the Chunks specification) |
| Common.FlattenChunks | source/lambda/utilsLayer/lib/exports.ts:107-111 | concatenating the chunks gives back the input exactly |
| Common.ChunkSizes | source/lambda/utilsLayer/lib/exports.ts:107-111 | there are ceil(n/chunkSize) chunks, all but the last of exactly chunkSize items, the last of 1..chunkSize; none for an empty input |
| Common.ChunkCount | source/lambda/utilsLayer/lib/exports.ts:107-111 | there are ceil(n/chunkSize) chunks, none for an empty input |
| Common.ChunkBounds | source/lambda/utilsLayer/lib/exports.ts:107-111 | every chunk holds between one and chunkSize items |
| Triggers.ScheduledAndTestExclusive | source/lambda/utilsLayer/lib/triggers.ts:49-55 | no event is both a scheduled event and a QM Lambda test event |
| Triggers.PresenceOnly | source/lambda/utilsLayer/lib/triggers.ts:35-44 | the stream and CloudFormation recognisers depend only on which keys are present, not on their values |
| Triggers.ScheduledNeedsExactValue | source/lambda/utilsLayer/lib/triggers.ts:49-51 | an event is scheduled exactly when "detail-type" holds "Scheduled Event"; any other string is not |
| ServiceQuotas.FilterSupportingUsage | source/lambda/utilsLayer/lib/servicequotas.ts:64-66 | a quota is kept iff it is in the page and its usage metric namespace is AWS/Usage |
| ServiceQuotas.QuotasSupportingUsageSpec | source/lambda/utilsLayer/lib/servicequotas.ts:59-69 | the collected quotas are exactly the AWS/Usage quotas of any page that has Quotas |
| ServiceQuotas.GetQuotaList | source/lambda/utilsLayer/lib/servicequotas.ts:47-76 | the paginator loop returns the page-order concatenation of each page's AWS/Usage quotas |
| ServiceQuotas.ValidateQuotaHasUsageMetrics | source/lambda/utilsLayer/lib/servicequotas.ts:147-158 | the only error it raises is UnsupportedQuotaException |
| ServiceQuotas.LookupFound | source/lambda/utilsLayer/lib/servicequotas.ts:168-175 | a dimension lookup succeeds iff the dimension map has the key |
| ServiceQuotas.GeneratePercentageUtilizationQuery | source/lambda/utilsLayer/lib/servicequotas.ts:199-206 | the percentage query returns data and is an expression, not a metric stat |
| ServiceQuotas.GenerateCWQuerySpec | source/lambda/utilsLayer/lib/servicequotas.ts:119-141 | validation runs first (UnsupportedQuotaException iff a usage field is missing, TypeError if an id dimension is missing); otherwise exactly [usage, percentage], the usage query with the metric's namespace, name, statistic, the period, one Name/Value per dimension and ReturnData false, the percentage query with Id usageId + "_pct_utilization", Expression (usageId/SERVICE_QUOTA(usageId))*100 and ReturnData true |
| ServiceQuotas.UsageQueryIdSpec | source/lambda/utilsLayer/lib/servicequotas.ts:168-175 | the usage id is lower(Service) + "_" + lower(Resource) + "_" + lower(Class) with its first "/" removed + "_" + lower(Type) |
| Common.RemoveFirst | source/lambda/utilsLayer/lib/servicequotas.ts:173 | replace("/", "") removes only the first "/" |
| ServiceQuotas.ValidatedQuotasSpec | source/lambda/utilsLayer/lib/servicequotas.ts:93-103 | a quota is validated iff it is in the input, its queries build and its fetch succeeds; never more quotas than the input |
| ServiceQuotas.GetQuotasWithUtilizationMetrics | source/lambda/utilsLayer/lib/servicequotas.ts:83-110 | an empty input is IncorrectConfigurationException("no quotas found"), anything else returns the validated quotas |
| CloudFormation.ValidatePrefsSpec | source/lambda/utilsLayer/lib/cloudformation.ts:30-46 | preferences are accepted iff the concurrency type is PARALLEL or SEQUENTIAL, MaxConcurrentPercentage is in 1..100 and FailureTolerancePercentage in 0..100 (NaN passes, as every comparison with it is false); otherwise IncorrectConfigurationException |
| CloudFormation.DefaultPrefsValid | source/lambda/utilsLayer/lib/cloudformation.ts:24-28 | the default preferences (PARALLEL, 100, 0) pass validation |
| CloudFormation.DeployedRegions | source/lambda/utilsLayer/lib/cloudformation.ts:98-115 | every region of the summaries appears exactly once and nothing else does; no summaries gives none |
| Common.DedupSpec | source/lambda/utilsLayer/lib/cloudformation.ts:110-114 | the de-duplicated list has the same members as its input and no repeats |
| CloudFormation.PlanSpec | source/lambda/utilsLayer/lib/cloudformation.ts:122-188 | invalid preferences fail before the empty-input guard; with valid ones a command is planned iff targets and regions are both non-empty, and it carries exactly the stack set, targets and regions (RetainStacks false on delete) |
| CloudFormation.StackSetClient.constructor | source/lambda/utilsLayer/lib/cloudformation.ts:65-72 | the helper starts with its stack set name and nothing sent |
| CloudFormation.StackSetClient.CreateStackSetInstances | source/lambda/utilsLayer/lib/cloudformation.ts:122-152 | fails iff the preferences are invalid; appends exactly the planned CreateStackInstances command, or nothing |
| CloudFormation.StackSetClient.DeleteStackSetInstances | source/lambda/utilsLayer/lib/cloudformation.ts:159-188 | fails iff the preferences are invalid; appends exactly the planned DeleteStackInstances command, or nothing |
| Events.TrustCommandSpec | source/lambda/utilsLayer/lib/events.ts:54-99 | org ids get Principal "*" with the aws:PrincipalOrgID condition, OUs a policy whose Sid is the OU and whose org path is "<org>/*/<ou>/*", accounts Principal = StatementId = the account; any other principal gives no command |
| Events.PutEventsCommands | source/lambda/utilsLayer/lib/events.ts:145-149 | one PutEvents per chunk, in chunk order, carrying that chunk |
| Events.PutEventBatches | source/lambda/utilsLayer/lib/events.ts:143-150 | ceil(n/10) PutEvents of 1..10 entries each, which together hold every entry exactly once in order |
| Events.EventBusClient.constructor | source/lambda/utilsLayer/lib/events.ts:47-100 | the client starts with nothing sent |
| Events.EventBusClient.CreateTrust | source/lambda/utilsLayer/lib/events.ts:47-100 | sends the principal's command, or nothing when the principal matches no pattern |
| Events.EventBusClient.RemoveTrust | source/lambda/utilsLayer/lib/events.ts:108-123 | sends exactly one RemovePermission for the statement id |
| Events.EventBusClient.PutEvent | source/lambda/utilsLayer/lib/events.ts:143-150 | sends one PutEvents per chunk of ten entries |
| CwPoller.FrequencyInHours | source/lambda/services/cwPoller/exports.ts:60-66 | 6 exactly for "rate(6 hours)", 12 exactly for "rate(12 hours)", 24 for anything else |
| CwPoller.AllQueriesCount | source/lambda/services/cwPoller/exports.ts:84-95 | two queries for every quota whose query generation succeeds, none for the others |
| CwPoller.GenerateCWQueriesForAllQuotas | source/lambda/services/cwPoller/exports.ts:84-95 | the forEach returns the queries of the quotas that generate, in quota order, skipping the ones that throw |
| CwPoller.GenerateMetricQueryIdMap | source/lambda/services/cwPoller/exports.ts:103-114 | every quota's id is a key, and each key maps to the last quota with that id |
| CwPoller.QueryArray.constructor | source/lambda/services/cwPoller/exports.ts:121 | the array holds the caller's queries |
| CwPoller.QueryArray.BatchQueries | source/lambda/services/cwPoller/exports.ts:126-134 | splicing 100 at a time yields the chunks of 100 in order and empties the caller's array |
| CwPoller.FetchAllSpec | source/lambda/services/cwPoller/exports.ts:138-157 | the fetch fails iff some batch raises an error other than CloudWatchServiceException; otherwise it returns the successful batches' data points in batch order |
| CwPoller.GetCWDataForQuotaUtilization | source/lambda/services/cwPoller/exports.ts:121-158 | the caller's array ends empty and the result is the batch-by-batch fetch of its chunks of 100 |
| Common.BeforeSpec | source/lambda/services/cwPoller/exports.ts:164-168 | split(sub)[0] is the text up to the first occurrence of sub, or all of it when sub does not occur |
| Common.BeforeStops | source/lambda/services/cwPoller/exports.ts:164-168 | split(sub)[0] contains no occurrence of sub and, when shorter than the input, ends exactly where the first occurrence starts |
| CwPoller.PctSuffixUnbordered | source/lambda/services/cwPoller/exports.ts:167 | "_pct_utilization" has no proper prefix that is also a suffix |
| CwPoller.PctSuffixNoOverlap | source/lambda/services/cwPoller/exports.ts:167 | two occurrences of "_pct_utilization" never overlap |
| CwPoller.MetricQueryIdRoundTrip | source/lambda/services/cwPoller/exports.ts:164-168 | the id read back from usageId + "_pct_utilization" is usageId when usageId does not contain the suffix |
| CwPoller.PctQueryMapsBack | source/lambda/services/cwPoller/exports.ts:179 | the percentage query generateCWQuery builds maps back to the id of its usage query |
| CwPoller.UtilizationStatus | source/lambda/services/cwPoller/exports.ts:202-208 | ERROR iff value >= 100; WARN iff value < 100 and value > THRESHOLD (strict); OK otherwise |
| CwPoller.StatusMonotonic | source/lambda/services/cwPoller/exports.ts:202-208 | a higher utilization never yields a milder status |
| CwPoller.CreateQuotaUtilizationEvents | source/lambda/services/cwPoller/exports.ts:175-219 | the forEach returns the kept events of the quota the id maps back to (the QuotaEvents specification) |
| CwPoller.KeptEvents | source/lambda/services/cwPoller/exports.ts:189-216 | the forEach over the values keeps, in value order, the candidate event of each value exactly when OK notifications are on or its status is not OK |
| CwPoller.KeptFromSpec | source/lambda/services/cwPoller/exports.ts:185-216 | with OK notifications on, one event per value in value order, each with the timestamp at the same index; with them off, exactly the non-OK ones; every event has Limit Amount "100%" and the poller's region |
| CwPoller.ToEntries | source/lambda/services/cwPoller/exports.ts:231-239 | one entry per event, in order, with source aws-solutions.quota-monitor, the utilization detail type, the JSON of the event and the bus |
| CwPoller.SendQuotaUtilizationEventsToBridge | source/lambda/services/cwPoller/exports.ts:226-241 | sends exactly the PutEvents of the entries in chunks of ten |
| QuotaListManager.ReadDynamoDBStreamEventSpec | source/lambda/services/quotaListManager/exports.ts:77-105 | a single record is INSERT iff a monitored new item has a service code, MODIFY iff the Monitored flag changed, REMOVE iff the removed item had a service code; anything else, an unchanged flag included, is IncorrectConfigurationException |
| QuotaListManager.BatchRefused | source/lambda/services/quotaListManager/exports.ts:78-81 | an event with more than one record is refused with "batch size more than 1 not supported" |
| QuotaListManager.DispatchSpec | source/lambda/services/quotaListManager/exports.ts:190-216 | INSERT puts the new service's quotas; MODIFY deletes them and then puts them iff Monitored is now true; REMOVE deletes the old service's quotas; an unreadable record dispatches nothing |
| QuotaListManager.DeleteKeys | source/lambda/services/quotaListManager/exports.ts:173-182 | one delete key per quota, in order, made of its ServiceCode and QuotaCode |
| QuotaListManager.ChunkedDeleteSpec | source/lambda/services/quotaListManager/exports.ts:172-184 | the chunks hold every quota's key exactly once, in order, at most 25 to a chunk |
| QuotaListManager.QuotasWithUtilizationMetricsSpec | source/lambda/services/quotaListManager/exports.ts:121-131 | an unsupported service code is IncorrectConfigurationException before any lookup; a supported one yields only validated AWS/Usage quotas listed for that service |
| QuotaListManager.StatusItemsSpec | source/lambda/services/quotaListManager/exports.ts:57-69 | exactly the stored (service, Monitored) items of the supported services |
| QuotaListManager.Tables.constructor | source/lambda/services/quotaListManager/exports.ts:28-30 | the tables start with the given service items and no quota writes |
| QuotaListManager.Tables.PutServiceMonitoringStatus | source/lambda/services/quotaListManager/exports.ts:28-47 | every supported service ends up with an item; one that had none (or whose read failed) gets Monitored true; every other item is unchanged; the quota table is untouched |
| QuotaListManager.Tables.PutStatusOf | source/lambda/services/quotaListManager/exports.ts:32-46 | every listed service ends up with an item; one with no item, or whose read failed, gets Monitored true; other items are unchanged and no item appears for an unlisted service |
| QuotaListManager.Tables.GetServiceMonitoringStatus | source/lambda/services/quotaListManager/exports.ts:53-70 | returns the stored items of the supported services, in service order |
| QuotaListManager.Tables.StatusOf | source/lambda/services/quotaListManager/exports.ts:57-69 | the loop pushes the stored (service, Monitored) item of each listed service that has one, in list order |
| QuotaListManager.Tables.PutQuotasForService | source/lambda/services/quotaListManager/exports.ts:111-145 | fails with the lookup's error and writes nothing, or puts each validated quota once, in order |
| QuotaListManager.Tables.PutQuotas | source/lambda/services/quotaListManager/exports.ts:138-145 | one put per quota, in order, and the service table is untouched |
| QuotaListManager.Tables.DeleteQuotasForService | source/lambda/services/quotaListManager/exports.ts:151-165 | a failed query throws on `map` and writes nothing; otherwise one batch delete per chunk of 25 keys |
| QuotaListManager.Tables.HandleDynamoDBStreamEvent | source/lambda/services/quotaListManager/exports.ts:190-216 | the outcome and the quota-table writes are those of the dispatched actions run in order, stopping at the first failure |
| QuotaListManager.Tables.RunAction | source/lambda/services/quotaListManager/exports.ts:193-214 | a put or a delete of one service has exactly the outcome and quota writes of its action effect; the service table is untouched |
| QuotaListManager.Tables.HandleModify | source/lambda/services/quotaListManager/exports.ts:199-207 | MODIFY deletes the new image's service quotas and puts them back only when that delete passed and Monitored is now true; the writes are the delete's followed by the put's |
| QuotaListManager.HandleCases | source/lambda/services/quotaListManager/exports.ts:190-216 | the effect of an event is the error of an unreadable record, the put for INSERT, the delete of the old image's service for REMOVE and the delete-then-put of MODIFY |
| QuotaListManager.HandleEffectSpec | source/lambda/services/quotaListManager/exports.ts:190-216 | a malformed event fails and writes nothing; INSERT only puts; REMOVE and a MODIFY that turns monitoring off only delete; in a MODIFY no delete follows a put |
| QuotaListManager.Puts | source/lambda/services/quotaListManager/exports.ts:138-145 | one put per quota, in order |
| QuotaListManager.Deletes | source/lambda/services/quotaListManager/exports.ts:160-164 | one batch delete per chunk, in order |
| Deployment.PrincipalsSpec | source/lambda/services/deploymentManager/lib/deployment-manager.ts:74-103 | ORG gives the validated OU list, ACCOUNT the validated account list, HYBRID the OUs followed by the accounts (the OU check first); any other model gives none; every failure is IncorrectConfigurationException |
| Deployment.OrganizationId | source/lambda/services/deploymentManager/lib/deployment-manager.ts:105-115 | the organization id is fetched for ORG and HYBRID and is "" otherwise |
| Deployment.TARegionsSpec | source/lambda/services/deploymentManager/lib/deployment-manager.ts:136-150 | ["us-gov-west-1"] if listed, else ["us-east-1"] if listed, else IncorrectConfigurationException |
| Deployment.SQRegionsSpec | source/lambda/services/deploymentManager/lib/deployment-manager.ts:188-197 | all enabled regions (metric "ALL") when the selection is empty or contains "ALL" in any case, else the selection verbatim |
| Common.DiffMembership | source/lambda/services/deploymentManager/lib/deployment-manager.ts:244-245 | arrayDiff(a, b) holds exactly the items of a that are not in b |
| Deployment.RootModeReachesDesired | source/lambda/services/deploymentManager/lib/deployment-manager.ts:261-272 | in root mode, after delete(root, deployed minus desired) and create(root, desired minus deployed), a region has an instance iff it is desired |
| Deployment.OuModeReachesDesired | source/lambda/services/deploymentManager/lib/deployment-manager.ts:277-308 | in OU mode, after the two deletes and two creates, a (target, region) pair has an instance iff both are desired |
| Deployment.SentNonEmpty | source/lambda/services/deploymentManager/lib/deployment-manager.ts:263-308 | every command actually sent has a non-empty target and region list; there are never more commands than calls |
| Deployment.SpokeCountFailure | source/lambda/services/deploymentManager/lib/deployment-manager.ts:309-318 | an OU whose account count cannot be read counts as 0 and takes exactly its own count out of the total |
| Deployment.ManageStackSetInstances | source/lambda/services/deploymentManager/lib/deployment-manager.ts:237-329 | invalid preferences fail with nothing sent; otherwise the stack set receives exactly the planned commands in source order; SpokeCount is org accounts - 1 in root mode and the OU sum otherwise, and is set iff the metric is sent |
| Deployment.SendCalls | source/lambda/services/deploymentManager/lib/deployment-manager.ts:263-308 | the requests of a run send exactly the commands their plans make, in order |
| Deployment.SendCall | source/lambda/services/deploymentManager/lib/deployment-manager.ts:263-308 | one delete or create call sends exactly the command its plan makes, if any |
| Deployment.ManageStackSets | source/lambda/services/deploymentManager/lib/deployment-manager.ts:169-221 | passes exactly outside the organization-based models, or when there is a TA region, the preferences are valid and both stack sets' requests can be built (the TA one only when TA is available); the Accounts model touches no stack set; without a TA region the run fails before any call, even when Trusted Advisor is unavailable; a failed TA stack set leaves the SQ stack set untouched; on success both receive exactly their planned commands and SpokeCount is that of the SQ stack set |
| Deployment.ManageTAStackSet | source/lambda/services/deploymentManager/lib/deployment-manager.ts:205-207 | the Trusted Advisor stack set passes iff the preferences and its requests are valid, and then receives exactly its planned commands; a failure sends nothing |
| Deployment.ManageSQStackSet | source/lambda/services/deploymentManager/lib/deployment-manager.ts:208-213 | the Service Quotas stack set passes iff the preferences and its requests are valid, then receives exactly its planned commands and sets SpokeCount iff the metric is sent (org accounts - 1 in root mode, the OU sum otherwise) |
| PreReq.PreReqManager.constructor | source/lambda/services/preReqManager/lib/preReqManager.ts:26-30 | the manager keeps the deploying account id and has made no calls |
| PreReq.PreReqManager.ThrowIfOrgMisconfigured | source/lambda/services/preReqManager/lib/preReqManager.ts:35-58 | no organization details pass; a FeatureSet other than "ALL" fails first; with "ALL", it passes iff the management account is the deploying account |
| PreReq.PreReqManager.EnableTrustedAccess | source/lambda/services/preReqManager/lib/preReqManager.ts:63-67 | exactly one EnableAWSServiceAccess for the StackSets principal |
| PreReq.PreReqManager.RegisterDelegatedAdministratorFor | source/lambda/services/preReqManager/lib/preReqManager.ts:72-87 | fails, with no call, iff the monitoring account is the deploying account; otherwise registers it once with the StackSets principal |
| Reporter.TrimStartSpec | source/lambda/services/reporter/lib/limit-report.ts:26 | parseInt drops exactly the leading white space and line terminators |
| Reporter.DigitValue | source/lambda/services/reporter/lib/limit-report.ts:26 | a digit's value is below 36, and below 10 exactly for a decimal digit |
| Reporter.LeadingDigits | source/lambda/services/reporter/lib/limit-report.ts:26 | parseInt reads the longest run of leading digits of the radix, and all of a string made only of such digits |
| Reporter.DecimalRadixValue | source/lambda/services/reporter/lib/limit-report.ts:26 | decimal digits read in radix 10 mean what DigitsValue says |
| Reporter.ParseIntOpeningDigit | source/lambda/services/reporter/lib/limit-report.ts:26 | text opening with a digit is read from its first character |
| Reporter.ParseIntDecimal | source/lambda/services/reporter/lib/limit-report.ts:26 | a string of decimal digits parses as the number it spells |
| Reporter.ParseUnsignedDecimal | source/lambda/services/reporter/lib/limit-report.ts:26 | decimal digits with no 0x prefix are read in radix 10 |
| Reporter.ParseIntRoundTrip | source/lambda/services/reporter/lib/limit-report.ts:26 | a rendered count parses back to itself |
| Reporter.ParseIntSkipsSpace | source/lambda/services/reporter/lib/limit-report.ts:26 | leading white space changes nothing: " 5" parses as "5" |
| Reporter.TrimStartSkips | source/lambda/services/reporter/lib/limit-report.ts:26 | white space in front of any text is trimmed away entirely |
| Reporter.ParseIntHex | source/lambda/services/reporter/lib/limit-report.ts:26 | a "0x" or "0X" prefix reads the digits after it in hexadecimal |
| Reporter.ParseUnsignedHex | source/lambda/services/reporter/lib/limit-report.ts:26 | after a 0x prefix the value is that of the hexadecimal digits |
| Reporter.LoopCountHex | source/lambda/services/reporter/lib/limit-report.ts:26-29 | MAX_LOOPS "0x10" runs sixteen rounds |
| Reporter.LoopCountDeployed | source/lambda/services/reporter/lib/limit-report.ts:26-29 | the deployed MAX_LOOPS "10" runs ten rounds |
| Reporter.ParseIntNaN | source/lambda/services/reporter/lib/limit-report.ts:26 | an unset variable, or text that after its leading white space opens with neither a sign nor a digit, parses as NaN |
| Reporter.LoopCount | source/lambda/services/reporter/lib/limit-report.ts:26-29 | the number of rounds is the parsed MAX_LOOPS, and 0 when it is NaN: `?? 10` never applies and `i < NaN` is false |
| Reporter.UnsetMaxLoopsRunsNothing | source/lambda/services/reporter/lib/limit-report.ts:26-29 | an unset MAX_LOOPS runs no round |
| Reporter.ExpiryTimeSpec | source/lambda/services/reporter/lib/limit-report.ts:82-85 | the expiry is the current time in seconds, rounded to the nearest second, plus fifteen days, and reads back as that number |
| Reporter.ItemForSpec | source/lambda/services/reporter/lib/limit-report.ts:62-87 | a message without a Body writes nothing; otherwise the item copies the message id, account, source and check-item fields, takes the check item's Timestamp before the event time and "0" for a missing usage; a body without detail or check-item-detail throws |
| Reporter.DeletedOnlyAfterPut | source/lambda/services/reporter/lib/limit-report.ts:43-49 | a message is deleted iff it had nothing to write or its item was written; one whose write failed stays on the queue |
| Reporter.LimitReport.constructor | source/lambda/services/reporter/lib/limit-report.ts:17-19 | the reporter starts with nothing written, deleted or requested |
| Reporter.LimitReport.ProcessMessages | source/lambda/services/reporter/lib/limit-report.ts:36-55 | one receive for the parsed MAX_MESSAGES; the written items and deleted handles are those of the messages in order |
| Reporter.LimitReport.HandleMessages | source/lambda/services/reporter/lib/limit-report.ts:42-50 | each message's put, then its delete: the written items and deleted handles are those of the messages in order, and the receive log is untouched |
| Reporter.LimitReport.ReadQueueAsync | source/lambda/services/reporter/lib/limit-report.ts:24-31 | LoopCount(MAX_LOOPS) receives, each asking for the parsed MAX_MESSAGES (Requests); the writes and deletes are those of the rounds in order |
| Reporter.LimitReport.Round | source/lambda/services/reporter/lib/limit-report.ts:26-28 | round i appends its own receive request, writes and deletes to those of the rounds before it |
| Reporter.Requests | source/lambda/services/reporter/lib/limit-report.ts:26-39 | n receives each ask for the parsed MAX_MESSAGES |
| Reporter.RoundsSnoc | source/lambda/services/reporter/lib/limit-report.ts:26-28 | one more round adds exactly its own writes, deletes and request after those of the rounds before |
| Slack.ColorAndStatusAgree | source/lambda/services/slackNotifier/lib/slack-notify.ts:55-63 | both generations give OK, WARN and ERROR the same colour and emoji; any other status keeps its text and gets the grey default, and only such statuses do |
| Slack.BuildMessageTSSpec | source/lambda/services/slackNotifier/lib/slack-notify.ts:54-131 | a message is built iff the event has detail and check-item-detail; it has the eight field titles in order, the status emoji and colour, the check item's Timestamp before the event time, and the quota-increase link or the Service Quotas console |
| Slack.BuildersAgree | source/lambda/services/slacknotify/lib/slack-notify.js:87-169 | the older builder accepts the same events and emits the same titles, colour, account and status fields as the newer one |
| Slack.ProcessEventTSSpec | source/lambda/services/slackNotifier/lib/slack-notify.ts:174-186 | "Message posted successfully" for a non-zero status below 400 (or a 4xx whose message says so); a 4xx returns its status message; anything else the server-error text |
| Slack.ProcessEventsAgree | source/lambda/services/slacknotify/lib/slack-notify.js:213-234 | for non-zero statuses the older callback succeeds iff the newer one reports a post outside 4xx, and its error is the newer result; a status of 0 is a success for the older one and a server error for the newer one |
| Slack.SendNotificationTSSpec | source/lambda/services/slackNotifier/lib/slack-notify.ts:32-47 | a missing hook or an event the builder rejects gives "error"; otherwise the result is processEvent's |
| Slack.SlackNotify.constructor | source/lambda/services/slacknotify/lib/slack-notify.js:31-35 | the notifier keeps the hook and channel parameter names and has read and posted nothing |
| Slack.SlackNotify.SendNotification | source/lambda/services/slacknotify/lib/slack-notify.js:44-80 | reads the channel, then the hook; a failed read ends the call; otherwise exactly one post of the built message with the channel set, and the callback's error decides the outcome |
| Slack.EmptyClientErrorLooksPosted | source/lambda/services/slacknotify/lib/slack-notify.js:218-225 | a 4xx with an empty status message reaches the callback as a falsy error, so it reads as success |
| SQChecks.Classify | source/lambda/services/servicequotaschecks/lib/service-quotas-checks.js:313-327 | RED iff the limit is present and usage is at least the limit; YELLOW iff below the limit and at least LIMIT_THRESHOLD times it; nothing when the limit is undefined |
| SQChecks.ClassifyMonotonic | source/lambda/services/servicequotaschecks/lib/service-quotas-checks.js:313-327 | more usage against the same limit and threshold never gives a milder level |
| SQChecks.RedAlsoCrossesThreshold | source/lambda/services/servicequotaschecks/lib/service-quotas-checks.js:313-319 | with a positive limit and a threshold of at most 1, a RED usage also meets the YELLOW test, so the order of the two tests decides the level |
| SQChecks.Put | source/lambda/services/servicequotaschecks/lib/service-quotas-checks.js:208 | assigning a key of a JavaScript object: the value is replaced, a new key goes to the end of the iteration order and an existing one keeps its place |
| SQChecks.Lookup | source/lambda/services/servicequotaschecks/lib/service-quotas-checks.js:306-309 | reading a region of a map gives its value when present and undefined otherwise |
| SQChecks.LastLimitSpec | source/lambda/services/servicequotaschecks/lib/service-quotas-checks.js:201-209 | a region gets a limit iff some fulfilled result names it in its ARN, and the limit is that of the last such result |
| SQChecks.LimitsIntoSpec | source/lambda/services/servicequotaschecks/lib/service-quotas-checks.js:205-209 | recording the results gives every named region its last limit and leaves every other region as it was |
| SQChecks.GetServiceLimits | source/lambda/services/servicequotaschecks/lib/service-quotas-checks.js:180-215 | the loop over the settled results builds exactly the LimitsInto map, rejected promises skipped |
| SQChecks.SeqMax | source/services/servicequotaschecks/lib/service-quotas-checks.js:70 | Math.max over the datapoints: a member of them that no datapoint exceeds |
| SQChecks.UsageIntoSpec | source/lambda/services/servicequotaschecks/lib/service-quotas-checks.js:226-239 | a region has usage iff it is queried and its first series has a datapoint, which is recorded; regions recorded before keep their value otherwise |
| SQChecks.GetServiceUsage | source/lambda/services/servicequotaschecks/lib/service-quotas-checks.js:224-244 | the region loop builds exactly the UsageInto map with the first datapoint; failed calls are skipped |
| SQChecks.EventAtSpec | source/lambda/services/servicequotaschecks/lib/service-quotas-checks.js:304-328 | one region yields at most one event, exactly when the rule flags it, and that event carries the region, colour, status, usage and limit |
| SQChecks.EventsForSound | source/lambda/services/servicequotaschecks/lib/service-quotas-checks.js:304-328 | every pushed event is for a key of the usage map and reports what the rule says about it |
| SQChecks.EventsForComplete | source/lambda/services/servicequotaschecks/lib/service-quotas-checks.js:304-328 | every key of the usage map that the rule flags gets an event |
| SQChecks.AtMostOneEventPerRegion | source/lambda/services/servicequotaschecks/lib/service-quotas-checks.js:304 | with distinct keys, as an object's keys are, no region gets two events |
| SQChecks.NoEventWithoutUsageOrLimit | source/lambda/services/servicequotaschecks/lib/service-quotas-checks.js:304-313 | a region with no usage entry, or without a limit, gets no event |
| SQChecks.PerformLimitCheck | source/lambda/services/servicequotaschecks/lib/service-quotas-checks.js:298-332 | the loop over the usage keys pushes exactly the EventsFor sequence, in key order |
| SQChecks.WithUsageMetricSpec | source/lambda/services/servicequotaschecks/lib/service-quotas-checks.js:95-98 | exactly the quotas with a UsageMetric are kept, in order; a list where all have one is kept whole |
| SQChecks.WithUsageMetricMembers | source/lambda/services/servicequotaschecks/lib/service-quotas-checks.js:95-98 | a quota is kept iff it has a UsageMetric, and no more quotas come out than went in |
| SQChecks.WithUsageMetricKeepsAll | source/lambda/services/servicequotaschecks/lib/service-quotas-checks.js:95-98 | a list whose quotas all have a UsageMetric is kept whole |
| SQChecks.GetEC2InstanceTypes | source/lambda/services/servicequotaschecks/lib/service-quotas-checks.js:72-103 | all NextToken pages are concatenated and filtered to the quotas with a usage metric; a failing first call gives the empty list |
| SQChecks.ProbedSpec | source/lambda/services/servicequotaschecks/lib/service-quotas-checks.js:44-59 | a region is kept iff it is described and its default-quota probe succeeds |
| SQChecks.GetRegionsForServiceQuotas | source/lambda/services/servicequotaschecks/lib/service-quotas-checks.js:31-66 | the loop keeps exactly the Probed regions in order; a failing describeRegions gives the empty list |
| SQChecks.CreateVCPUServiceQuotaParams | source/lambda/services/servicequotaschecks/lib/service-quotas-checks.js:110-117 | the parameters carry the given quota code and service code ec2 |
| SQChecks.CheckVCPUOptIn | source/lambda/services/servicequotaschecks/lib/service-quotas-checks.js:338-356 | opted in iff the default-quota call succeeds and its ServiceCode is ec2 |
| SQChecks.LimitResults | source/lambda/services/servicequotaschecks/lib/service-quotas-checks.js:189-193 | one getServiceQuota outcome per valid region, in region order |
| SQChecks.CheckForVCPULimits | source/lambda/services/servicequotaschecks/lib/service-quotas-checks.js:361-371 | no events without opt-in; otherwise the events and the abort are exactly those of VCPUFrom: the events of each instance type in order, up to a type whose usage metric lacks its Class dimension |
| SQChecks.TypeCheck | source/lambda/services/servicequotaschecks/lib/service-quotas-checks.js:365-369 | one iteration sends exactly the events of its instance type: limits by quota code, usage by the Class dimension |
| SQChecks.FirstMissing | source/lambda/services/servicequotaschecks/lib/service-quotas-checks.js:364-368 | the first type whose usage metric lacks its Class dimension: every type before it has one |
| SQChecks.VCPUFromAborts | source/lambda/services/servicequotaschecks/lib/service-quotas-checks.js:364-368 | the run throws iff some instance type lacks its Class dimension |
| SQChecks.VCPUFromEvents | source/lambda/services/servicequotaschecks/lib/service-quotas-checks.js:364-369 | the events sent are those of the types before the first one lacking its Class dimension, in order; the run throws iff there is such a type |
| SQChecksLegacy.InitialMaps | source/services/servicequotaschecks/lib/service-quotas-checks.js:23-36 | limitsMap and usageMap start with one empty entry per check name and nothing else |
| SQChecksLegacy.InitialMapsEmpty | source/services/servicequotaschecks/lib/service-quotas-checks.js:23-36 | every one of the five checks has an entry and no region before the first run |
| SQChecksLegacy.FailAt | source/services/servicequotaschecks/lib/service-quotas-checks.js:64-77 | the first region whose CloudWatch call fails: all before it succeed, and it fails |
| SQChecksLegacy.LegacyUsageSpec | source/services/servicequotaschecks/lib/service-quotas-checks.js:62-79 | the usage loop records the largest datapoint of each region before the first failure, and succeeds iff no call fails |
| SQChecksLegacy.LegacyUsageWithoutEntry | source/services/servicequotaschecks/lib/service-quotas-checks.js:62-79 | a check name without an entry records nothing and throws at its first datapoint |
| SQChecksLegacy.LegacyUsageStops | source/services/servicequotaschecks/lib/service-quotas-checks.js:73-76 | once a call has thrown, the remaining regions change nothing |
| SQChecksLegacy.ReadUsage | source/services/servicequotaschecks/lib/service-quotas-checks.js:62-79 | the loop computes exactly LegacyUsage |
| SQChecksLegacy.LimitsAfterKeeps | source/services/servicequotaschecks/lib/service-quotas-checks.js:44-60 | a limits update never drops a check or a region recorded before |
| SQChecksLegacy.UsageMapAfterKeeps | source/services/servicequotaschecks/lib/service-quotas-checks.js:62-79 | a usage update never drops a region, so a stale usage stays and is checked again |
| SQChecksLegacy.LegacyServiceQuotasChecks.constructor | source/services/servicequotaschecks/lib/service-quotas-checks.js:23-36 | the module state starts with the initial maps and no events |
| SQChecksLegacy.LegacyServiceQuotasChecks.GetServiceLimits | source/services/servicequotaschecks/lib/service-quotas-checks.js:44-60 | Promise.all records every region's limit in order when all calls succeed, and nothing when one rejects |
| SQChecksLegacy.LegacyServiceQuotasChecks.GetServiceUsage | source/services/servicequotaschecks/lib/service-quotas-checks.js:62-79 | the check's usage map becomes the LegacyUsage result; false when a call threw |
| SQChecksLegacy.LegacyServiceQuotasChecks.DoLimitCheck | source/services/servicequotaschecks/lib/service-quotas-checks.js:114-145 | both maps are updated and, unless the usage read threw, the rule runs over the whole accumulated usage map of the check |
| SQChecksLegacy.LegacyServiceQuotasChecks.PerformLimitChecks | source/services/servicequotaschecks/lib/service-quotas-checks.js:161-344 | nothing changes without opt-in; otherwise the five checks only append events and never drop a recorded region |
| TARefresh.CheckIdsForAppend | source/lambda/services/taRefresher/lib/ta-helper.ts:110-115 | the ids of two service lists one after the other are the ids of the first followed by those of the second |
| TARefresh.CheckIdsForMembership | source/lambda/services/taRefresher/lib/ta-helper.ts:110-115 | an id is refreshed iff some listed service that the table knows has it |
| TARefresh.RepeatedServiceRepeatsIds | source/lambda/services/taRefresher/lib/ta-helper.ts:110-115 | a service listed twice has its ids pushed twice (no deduplication) |
| TARefresh.HelperExample | source/lambda/services/taRefresher/lib/ta-helper.ts:27-29 | AutoScaling then CloudFormation expand to their three check ids in table order |
| TARefresh.CollectCheckIds | source/lambda/services/taRefresher/lib/ta-helper.ts:108-115 | the forEach collects exactly CheckIdsFor over the TypeScript table |
| TARefresh.ParseServices | source/lambda/services/tarefresh/lib/ta-refresh.js:89-90 | AWS_SERVICES with its double quotes deleted and split on commas: at least one name, none holding a quote or a comma |
| TARefresh.ParseServicesRoundTrip | source/services/tarefresh/lib/ta-refresh.js:69-70 | joining the parsed names with commas gives back the variable without its quotes |
| Common.Split | source/lambda/services/tarefresh/lib/ta-refresh.js:90 | split(sep) gives at least one piece, none holding sep, made only of the input's characters |
| Common.JoinSplit | source/lambda/services/tarefresh/lib/ta-refresh.js:90 | joining the pieces of split(sep) with sep gives back the input |
| Common.RemoveAll | source/lambda/services/tarefresh/lib/ta-refresh.js:89 | replace(/c/g, "") leaves no c and keeps every other character |
| TARefresh.TAHelper.constructor | source/lambda/services/taRefresher/lib/ta-helper.ts:94-97 | a new helper has made no refresh request |
| TARefresh.TAHelper.RefreshChecks | source/lambda/services/taRefresher/lib/ta-helper.ts:102-122 | one refresh request per collected id, in order, whatever each request returns |
| TARefresh.TAHelper.RefreshIds | source/lambda/services/taRefresher/lib/ta-helper.ts:117-121 | one refresh request per collected id, in order |
| TARefresh.UpdatedEC2Checks | source/lambda/services/tarefresh/lib/ta-refresh.js:118-131 | a probe answering ec2 replaces the EC2 checks by the single id iH7PP0l7J9; any other answer or a failure leaves the table; no other service changes |
| TARefresh.EC2UpdatePersists | source/lambda/services/tarefresh/lib/ta-refresh.js:127 | once opted in, the module-level table stays opted in whatever later probes say |
| TARefresh.LambdaTARefresher.constructor | source/lambda/services/tarefresh/lib/ta-refresh.js:25-86 | the lambda starts from its own check table and no refresh |
| TARefresh.LambdaTARefresher.GetUpdatedEC2Checks | source/lambda/services/tarefresh/lib/ta-refresh.js:118-131 | the table becomes UpdatedEC2Checks of the old one; no refresh is made |
| TARefresh.LambdaTARefresher.GetTARefreshStatus | source/lambda/services/tarefresh/lib/ta-refresh.js:133-164 | the EC2 probe first, then one refresh per id of every listed service from the updated table; the result is always 'TA refresh done' |
| TARefresh.LambdaTARefresher.RefreshServices | source/lambda/services/tarefresh/lib/ta-refresh.js:137-157 | one refresh per id the table lists for each service, services in order; the table is unchanged |
| TARefresh.LambdaTARefresher.RefreshIds | source/lambda/services/tarefresh/lib/ta-refresh.js:140-152 | one refresh per check id of a service, in order |
| TARefresh.LegacyTARefresher.constructor | source/services/tarefresh/lib/ta-refresh.js:82-84 | the older service starts with no refresh |
| TARefresh.LegacyTARefresher.GetTARefreshStatus | source/services/tarefresh/lib/ta-refresh.js:92-121 | one refresh per id of every listed service from the constant older table; always 'TA refresh done' |
| TARefresh.LegacyTARefresher.RefreshServices | source/services/tarefresh/lib/ta-refresh.js:94-114 | one refresh per id the table lists for each service, services in order |
| TARefresh.LegacyTARefresher.RefreshIds | source/services/tarefresh/lib/ta-refresh.js:97-109 | one refresh per check id of a service, in order |
| TARefresh.EC2AcrossGenerations | source/lambda/services/tarefresh/lib/ta-refresh.js:45 | after opt-in the lambda refreshes one EC2 check, which the TypeScript table also lists, while the older service refreshes three |
| LimitCheck.RatioAtLeast | limit-check.py:238 | for a positive limit, `usage / limit >= 0.8` holds iff 5 times the usage is at least 4 times the limit |
| LimitCheck.Flagged | limit-check.py:238 | raises ZeroDivisionError iff the limit is 0; otherwise flags iff usage/limit is at least 0.8 |
| LimitCheck.FlaggedMatchesClassify | limit-check.py:238 | for a positive limit the Python 80 % rule flags exactly when the Service Quotas rule with threshold 0.8 gives RED or YELLOW |
| LimitCheck.ExactlyEightyPercent | limit-check.py:238 | at exactly 80 % the Python rule flags while the CloudWatch poller, which needs a utilization strictly above its threshold, reports OK |
| LimitCheck.TrustedAlert | limit-check.py:52-63 | the loop builds the newline-prefixed list of warnings ending in a newline (AlertList) |
| LimitCheck.EntriesPrefix | limit-check.py:59-60 | the entries of the first j warnings are a prefix of the entries of all of them |
| LimitCheck.AlertListEntries | limit-check.py:52-63 | every warning appears in the message right after a newline, at the offset of the warnings before it, and the message ends in a newline |
| LimitCheck.Ec2Alert | limit-check.py:65-79 | the EC2 block opens with a blank line, the EC2 heading, the region and the dashes, and ends in a newline |
| LimitCheck.CloudformationAlert | limit-check.py:81-95 | the CloudFormation block opens with its heading, the region and the dashes, and ends in a newline |
| LimitCheck.AlertUsageReadBack | limit-check.py:75-77 | the usage figure at the end of either alert reads back as the usage counted |
| Common.NatToStringRoundTrip | limit-check.py:76 | str(usage) of a counter reads back as that counter |
| LimitCheck.Bump | limit-check.py:184-187 | `alerts[r][s] += 1` or `= 1`: the region gets an entry and no other region changes |
| LimitCheck.BumpCount | limit-check.py:240-243 | Bump adds one to its own counter and leaves every other counter alone |
| LimitCheck.SetCount | limit-check.py:386-387 | `alerts[rgn]['dynamodb'] = n` sets that counter only |
| LimitCheck.Global | limit-check.py:173-175 | a "-" metadata field becomes "global"; anything else is kept |
| LimitCheck.UDecode | limit-check.py:24-28 | a present value is kept as is; a missing one reads "None" |
| LimitCheck.ExtractStatus | limit-check.py:30-34 | a row [limit name, limit, usage] exactly for an item in us-east-1 |
| LimitCheck.TAFoldCounts | limit-check.py:171-189 | each non-Green item adds one warning and one to its own region and service counter; Green items add neither |
| LimitCheck.TAFoldStatus | limit-check.py:188-189 | every status row has three fields, and without us-east-1 items there are none |
| LimitCheck.ProcessTA | limit-check.py:168-189 | the loop over the flagged resources computes exactly TAFold |
| LimitCheck.Aggregate | limit-check.py:218-232 | following NextToken collects every item of every page, in order |
| LimitCheck.CountInstances | limit-check.py:233-236 | the number of instances over all reservations of all pages |
| LimitCheck.InstanceLimitSpec | limit-check.py:203-205 | the instance limit is found iff some attribute is max-instances, and it is the value of the last one |
| LimitCheck.FindInstanceLimit | limit-check.py:203-205 | the attribute loop computes exactly InstanceLimit |
| LimitCheck.StackLimit | limit-check.py:285-287 | the limit is AccountLimits[0]'s value iff that entry exists and is named StackLimit; otherwise an error |
| LimitCheck.QuietTables | limit-check.py:328-370 | tables and indexes all under 80 % of the table limits give no table warning |
| LimitCheck.QuietIndexes | limit-check.py:348-368 | indexes all under 80 % of the table limits give no index warning |
| LimitCheck.DynamoAccountWarnings | limit-check.py:372-383 | the account warnings follow every table warning, and the RCU one appears iff total RCU reaches 80 % of the account read limit |
| LimitCheck.CheckTable | limit-check.py:328-370 | one table: its warnings (reads, writes, then each index), their count, and the capacity it adds to the totals |
| LimitCheck.CheckIndexes | limit-check.py:348-368 | the index loop: the index warnings, their count and the index capacity |
| LimitCheck.DynamoCheck | limit-check.py:304-391 | the DynamoDB block returns exactly DynamoWarnings, with the counter equal to the number of warnings; any error in the block discards it |
| LimitCheck.OptionToResult | limit-check.py:203-205 | an unbound limit becomes a NameError, a bound one its value |
| LimitCheck.Measure | limit-check.py:200-295 | the counts are the instances and stacks over all pages; EC2 and CloudFormation flag exactly at 80 % of their limits; an error iff max-instances or StackLimit is missing or zero |
| LimitCheck.CountersSpec | limit-check.py:238-294 | the checks touch only the current region, add one to EC2 and cfn exactly when those flag, and set dynamodb to the number of DynamoDB warnings |
| LimitCheck.QuietRegion | limit-check.py:394-395 | a region with nothing at 80 % has an empty region message and unchanged counters |
| LimitCheck.RunChecks | limit-check.py:200-394 | the EC2, CloudFormation and DynamoDB part of assume_role computes exactly ChecksStage |
| LimitCheck.RegionList | limit-check.py:461-464 | the regions variable without spaces split on commas, or us-east-1 alone when unset: never empty, no space or comma in a name |
| LimitCheck.InitialAlerts | limit-check.py:466-469 | one empty counter map per region plus "global", and nothing else |
| LimitCheck.TAMessageSticky | limit-check.py:192-194 | without us-east-1 in the regions, TA_MESSAGE keeps what an earlier invocation of the same container left |
| LimitCheck.TAMessageStickyGreen | limit-check.py:190-194 | when every Trusted Advisor item is Green, TA_MESSAGE keeps what an earlier invocation left, whatever the regions (us-east-1 alone included) |
| LimitCheck.TAFoldGreen | limit-check.py:176-187 | all-Green items add no warning and change no counter |
| LimitCheck.RunKeepsRegions | limit-check.py:466-476 | every region the counters start with is still there after the loop |
| LimitCheck.TAFoldKeeps | limit-check.py:184-187 | the Trusted Advisor pass never removes a region from the counters |
| LimitCheck.LimitCheckFunction.constructor | limit-check.py:22 | a fresh container starts with an empty TA_MESSAGE and nothing published |
| LimitCheck.LimitCheckFunction.AssumeRole | limit-check.py:109-402 | TA_MESSAGE and the region result are exactly Step's; TA_MESSAGE keeps its new value even when a later check raises; nothing is published |
| LimitCheck.LimitCheckFunction.LambdaHandler | limit-check.py:435-484 | one message, header then TA_MESSAGE then the region messages, is published exactly when those are not both empty; an error in any region publishes nothing |
| LimitCheck.RunSnoc | limit-check.py:471-476 | one more region is its Step after the regions before it |
| LimitCheck.RunStops | limit-check.py:471-472 | once a region raises, the later regions change nothing |
| LimitCheck.TABumpAsWritten | limit-check.py:184-187 | as written, counting a Trusted Advisor item raises KeyError iff its region has no entry in alerts |
| LimitCheck.TAKeyErrorCounterexample | limit-check.py:184-187 | with the default REGION_LIST, a non-Green item in eu-west-1 raises as written, while Bump counts it once |
| LimitCheck.CfnBumpAsWritten | limit-check.py:291-294 | as written, a region that already has a cfn counter raises (`alerts[rgn] += 1` on a dict); otherwise the counter is set to 1 |
| LimitCheck.CfnCounterCounterexample | limit-check.py:291-294 | us-east-1 listed twice with its stacks at 80 %: the second pass raises as written, while Bump counts 2 |
| LimitCheck.TAStatusAsWritten | limit-check.py:401 | as written, building the response raises iff the region is not us-east-1, where status_list is never bound |
| LimitCheck.TAStatus | limit-check.py:188-189 | the intended status rows: three fields each, and none outside us-east-1 |
| LimitCheck.StatusListCounterexample | limit-check.py:401 | eu-west-1 with no flagged items raises as written, while the intended rows are empty |
| LimitCheck.StepAsWritten | limit-check.py:109-402 | assume_role with the status_list read as written (the counters still as in Step): TA_MESSAGE as in Step; the same result in us-east-1, and an error in every other region |
| LimitCheck.RunAsWrittenFails | limit-check.py:471-476 | with the status_list read as written, any region other than us-east-1 in REGION_LIST ends the invocation before anything is published |
| LimitCheck.RunAsWrittenAgrees | limit-check.py:471-476 | with only us-east-1 in REGION_LIST, the status_list read as written changes nothing: the same TA_MESSAGE, messages and counters as the model |
| LimitCheckLegacy.Ec2Alert | limitCheck.py:35-47 | the EC2 block opens with a blank line, the heading, the region and the 24-dash separator |
| LimitCheckLegacy.CloudformationAlert | limitCheck.py:67-79 | the CloudFormation block opens with its heading, the region and the separator |
| LimitCheckLegacy.RdsAlert | limitCheck.py:51-63 | the RDS block as intended opens with its heading, the region and the separator |
| LimitCheckLegacy.RdsAlertAsWritten | limitCheck.py:58 | appending the integer Max to a str raises TypeError whatever the values |
| LimitCheckLegacy.SeparatorsDiffer | limitCheck.py:40 | the two generations' EC2 and CloudFormation alerts differ only by one more dash in the separator |
| LimitCheckLegacy.RdsAlertLimitReadBack | limitCheck.py:54-58 | the intended RDS alert gives the limit right after "Instance Limit: ", and it reads back exactly |
| LimitCheckLegacy.RdsAlertCounterexample | limitCheck.py:171-172 | 32 of 40 RDS instances is flagged, and the alert as written raises, so the invocation ends before publishing |
| LimitCheckLegacy.RdsAlertUsageReadBack | limitCheck.py:59-61 | the intended RDS alert ends with the usage figure, which reads back exactly |
| LimitCheckLegacy.WarningsCount | limitCheck.py:112-114 | one warning per non-Green item, none when all are Green |
| LimitCheckLegacy.WarningOmitsService | limitCheck.py:114 | the warning text does not depend on the item's service |
| LimitCheckLegacy.CollectWarnings | limitCheck.py:110-114 | the loop over the flagged resources computes exactly Warnings |
| LimitCheckLegacy.Checks | limitCheck.py:125-178 | a region message only when the instance limit, the StackLimit entry and an RDS quota all exist |
| LimitCheckLegacy.ChecksQuiet | limitCheck.py:143-178 | the region message is empty exactly when none of the EC2, CloudFormation and RDS checks reaches 80 % |
| LimitCheckLegacy.RunSnoc | limitCheck.py:189-190 | one more region is its Step after the regions before it |
| LimitCheckLegacy.RunStops | limitCheck.py:189-190 | once a region raises, the later regions change nothing |
| LimitCheckLegacy.RunTAMessage | limitCheck.py:102-119 | every region rereads the same Trusted Advisor result, so with warnings ta_message ends as their alert whatever it held |
| LimitCheckLegacy.LegacyLimitCheckFunction.constructor | limitCheck.py:10 | a fresh container starts with an empty ta_message and nothing published |
| LimitCheckLegacy.LegacyLimitCheckFunction.AssumeRole | limitCheck.py:82-180 | ta_message and the region result are exactly Step's; nothing is published |
| LimitCheckLegacy.LegacyLimitCheckFunction.LambdaHandler | limitCheck.py:182-197 | header, ta_message and the region messages are published exactly when those are not both empty; an error publishes nothing |
| CdkHelper.RewriteAsset | deployment/cdk-solution-helper/index.js:34-42 | without S3Bucket nothing changes; with one, the key gets the solution prefix and the bucket the regional Fn::Sub, and a missing key throws |
| CdkHelper.RewriteResource | deployment/cdk-solution-helper/index.js:29-42 | only Lambda functions and layers are rewritten; the type never changes |
| CdkHelper.RewriteKeyReadBack | deployment/cdk-solution-helper/index.js:38-40 | the rewritten key is the prefix followed by the original key, which can be read back |
| CdkHelper.RewriteTwice | deployment/cdk-solution-helper/index.js:38-40 | the rewrite is not idempotent: a second pass prefixes the key again |
| CdkHelper.CleanedParameters | deployment/cdk-solution-helper/index.js:46-53 | exactly the parameters whose name holds neither AssetParameters nor BootstrapVersion are kept, with their values |
| CdkHelper.CleanedParametersIdempotent | deployment/cdk-solution-helper/index.js:46-53 | cleaning the parameters twice removes nothing more |
| CdkHelper.Template.constructor | deployment/cdk-solution-helper/index.js:15-16 | a template holds the sections read from the file |
| CdkHelper.Template.CleanLambdaAssets | deployment/cdk-solution-helper/index.js:29-42 | succeeds iff every function and layer can be rewritten; then every resource is replaced by its rewrite and nothing else changes |
| CdkHelper.Template.CleanParameters | deployment/cdk-solution-helper/index.js:46-53 | the parameters become CleanedParameters of the old ones; resources and rules stay |
| CdkHelper.Template.Clean | deployment/cdk-solution-helper/index.js:19-55 | succeeds exactly when every Lambda function and layer can be rewritten (or there are no Resources); then resources rewritten, parameters cleaned and Rules removed |
| ListQuotas.RetrySpec | scripts/listQuotasWithLimitOne.ts:61-73 | from retry k, the waits are 2^i seconds for each throttled attempt, at most MAX_RETRIES in all, and the result is the first attempt that is not throttled or the last one allowed |
| ListQuotas.RetryDelays | scripts/listQuotasWithLimitOne.ts:61-73 | the base wait before retry i is 2^i seconds, and there are never more than MAX_RETRIES retries |
| ListQuotas.RetryOutcome | scripts/listQuotasWithLimitOne.ts:61-73 | every retried attempt was throttled, and the result is the first attempt that is not, or the last one allowed |
| ListQuotas.RetryBounds | scripts/listQuotasWithLimitOne.ts:61-73 | at most MAX_RETRIES waits; any other error is rethrown at once; an operation always throttled fails after exactly MAX_RETRIES waits |
| ListQuotas.Defined | scripts/listQuotasWithLimitOne.ts:81 | the codes kept are exactly the defined ServiceCodes of the page |
| ListQuotas.ServiceCodesSpec | scripts/listQuotasWithLimitOne.ts:75-86 | a code is listed exactly when some page with Services defines it |
| ListQuotas.GetServiceCodes | scripts/listQuotasWithLimitOne.ts:75-86 | a failing listing rethrows its error; otherwise the loop collects exactly ServiceCodes of the pages |
| ListQuotas.QualifyingSpec | scripts/listQuotasWithLimitOne.ts:99-111 | a quota is kept iff its value is 1, its usage metric namespace is AWS/Usage and its code and name are defined |
| ListQuotas.GetQuotasForService | scripts/listQuotasWithLimitOne.ts:93-122 | throttling is rethrown, any other error gives the empty list, otherwise the qualifying quotas of every page |
| ListQuotas.Record | scripts/listQuotasWithLimitOne.ts:146-149 | `result[code] = list` only for a non-empty list, keeping the map's key order well formed |
| ListQuotas.CollectSpec | scripts/listQuotasWithLimitOne.ts:132-154 | a service is in the result iff it is listed and its qualifying quotas are non-empty, and it maps to those quotas |
| ListQuotas.CollectSnoc | scripts/listQuotasWithLimitOne.ts:146-149 | one more service is recorded after the services before it |
| ListQuotas.RunBatch | scripts/listQuotasWithLimitOne.ts:133-151 | a batch of services, read in parallel and recorded in batch order, extends the result exactly as Collect does |
| ListQuotas.GetAllServicesQuotasWithLimitOne | scripts/listQuotasWithLimitOne.ts:124-161 | the batches of BATCH_SIZE give exactly Collect over the listed codes; a listing that fails after its retries gives the empty result |
| ListQuotas.TotalQuotas | scripts/listQuotasWithLimitOne.ts:170 | the printed total is the sum of the list lengths |
| ListQuotas.TotalPositive | scripts/listQuotasWithLimitOne.ts:170 | every service in the result counts at least one in the total |
| ListQuotas.TotalPositiveOrder | scripts/listQuotasWithLimitOne.ts:170 | a sum over services whose lists are all non-empty is at least their number |

## Left out

- **AWS SDK and HTTP calls.** These cover STS, EC2, CloudFormation, RDS, DynamoDB, Trusted Advisor, Service Quotas, CloudWatch, SQS, SNS, SSM, Organizations, EventBridge and the Slack webhook. Each becomes a parameter:
  - a function from request to `Result`;
  - or a sequence of pages;
  - or an append-only log of what was sent.
  Throttling, credentials and sessions are not modelled beyond the error values they produce.
- **Trusted Advisor refresh poll** (limit-check.py:146-159). The code polls the refresh status with no bound. The model takes the refresh as finished and reads the check result once. The code has no timeout state, and none is added.
- **Logging and telemetry.** `print`, `pprint`, logging and the anonymous metrics POST (`send_report` and the metrics helper) produce nothing the model observes. `publish_sns` is modelled as one entry appended to the `published` log.
- **Floating point.** Usage ratios are compared by exact cross-multiplication (`5 * usage >= 4 * limit`). `LimitCheck.RatioAtLeast` shows this agrees with `usage / limit >= 0.8` on reals.
  - The EC2 `max-instances` attribute is a string in the alert text and a natural number in the comparison.
  - A `float()` of a malformed attribute (ValueError) is not modelled.
  - Percentages in the reporter and the poller are reals.
- **Module-level state in `limit-check.py`.** The `alerts` dictionary is updated in place there. The model threads it as a map value through the region loop. `TA_MESSAGE` is threaded the same way, so a value left by an earlier invocation is an explicit input.
- **DynamoDB `describe_table`.** Its calls are folded into the table pages. Each page carries every table's description already read.
- **Removed template parameters.** JSON key order and JSON text are not modelled. A parameter set to `undefined` (and so dropped by `JSON.stringify`) is modelled as removal from the map. JSON serialisation of events and messages is a parameter wherever its text matters.
- **Concurrency.** Jitter, sleeps and back-off delays are left out; the retry decision is kept. Promise.all, Promise.allSettled and async.each fan-out are modelled as sequential iteration over the list, in list order, and interleavings are not reasoned about.
- **Metric query ids.** `generateMetricQueryId` is not part of this model. Its ids are a parameter (`idOf`). A later quota with the same id overwrites an earlier one in the id map, as in the code.
- **Case-insensitive comparison.** It folds ASCII letters only.
- **Lost-retry loop in `getEC2InstanceTypes`** (source/lambda/services/servicequotaschecks/lib/service-quotas-checks.js:72-103). A later page whose call fails is retried with the same `NextToken` for ever. The model takes every page after the first as read, in `NextToken` order. Only a failure of the first call is modelled, and it yields no instance types.
- **Older reporter** (source/lambda/services/limitreport/lib/limit-report.js). It is not part of this model. It is callback orchestration around the same queue and table, and its item mapping is a subset of that of `reporter/lib/limit-report.ts`, which is modelled.
- **Functions used by the modelled code but absent from its sources.** These are:
  - `arrayDiff`, `arrayIncludesIgnoreCase`, `arrayIncludesAnyIgnoreCase`, `stringEqualsIgnoreCase`;
  - `createEventBusPolicy`, `processBatch`, `getAllEnabledServices`;
  - `getNotificationMutingStatus`.
  They are not part of this model. Where the modelled code calls `arrayDiff`, it is taken as "the elements of the first array not in the second, order kept" (`Common.Diff`, with `Common.DiffMembership`). The notification muting rules are not modelled.
- **Test expectations that disagree with the code.** The model follows the code in both cases:
  - source/lambda/utilsLayer/__tests__/servicequotas.spec.ts:168-171 expects `getQuotasWithUtilizationMetrics([])` to return an empty list. source/lambda/utilsLayer/lib/servicequotas.ts:88-89 throws `IncorrectConfigurationException` instead, and `ServiceQuotas.GetQuotasWithUtilizationMetrics` returns that error.
  - source/lambda/services/reporter/__tests__/limit-report.spec.ts:192-238 expects `MAX_MESSAGES` to be clamped to 10. source/lambda/services/reporter/lib/limit-report.ts:40 uses the configured value as is.
- **Infrastructure, handlers and stubs.** None of these is part of this model:
  - the CDK stacks and constructs, which hold no runtime behaviour;
  - the Lambda `index` handlers and custom-resource responders;
  - `configuration.py`, `limit-initiate.py`, `limit-master.py`, `limitMaster.py`;
  - the TODO stubs under `source/lambda/resources`.
- SQChecksLegacy.LegacyServiceQuotasChecks.PerformLimitChecks: states three things. Nothing changes without opt-in. The module-level maps keep what earlier runs recorded. Events are only appended. Which events are appended is stated per check by `DoLimitCheck` and `PerformLimitCheck`, and is not composed over the five checks.
- LimitCheck.Ec2Alert: states the heading, the region, the separator, the trailing newline and (with `LimitCheck.AlertUsageReadBack`) that the usage figure reads back. It does not state the whole text of the block.
- LimitCheck.CloudformationAlert: states the same as `LimitCheck.Ec2Alert`, not the whole text of the block.
- LimitCheckLegacy.Ec2Alert: states the heading, the region and the separator, not the whole text of the block.
- LimitCheckLegacy.CloudformationAlert: states the heading, the region and the separator, not the whole text of the block.
- LimitCheck.LimitCheckFunction.LambdaHandler: runs the corrected definitions of the first three "Findings" rows (`Bump` for the Trusted Advisor and cfn counters, `TAStatus` for the status rows). With the status_list read as written, any region other than us-east-1 ends the invocation (`LimitCheck.RunAsWrittenFails`), and with us-east-1 alone that read changes nothing (`LimitCheck.RunAsWrittenAgrees`). The two counter errors are modelled only one call at a time (`LimitCheck.TABumpAsWritten`, `LimitCheck.CfnBumpAsWritten`), not in the region loop: with us-east-1 alone the code as written still raises where a non-Green Trusted Advisor item comes from a region outside REGION_LIST, and where us-east-1 is listed twice with its stacks at 80 %.
- LimitCheck.LimitCheckFunction.AssumeRole: runs the same corrected definitions as `LambdaHandler`. `LimitCheck.StepAsWritten` is assume_role with the status_list read as written and the counters as in `Step`.
- Reporter.ParseInt: works on unbounded integers. JavaScript numbers are doubles, so a digit string beyond 2^53 parses to a rounded value, and "-0" parses to negative zero where the model gives 0; both give the same number of rounds.
- Triggers.IsScheduledEvent: compares the "detail-type" value strictly with `JString`. triggers.ts:50 uses loose `==`, so a value such as `["Scheduled Event"]` or an object whose string form is "Scheduled Event" also matches there. Values other than strings are one `JOther` case in the model.
- Triggers.IsQMLambdaTestEvent: the same strict comparison, where triggers.ts:54 uses loose `==`.
- CdkHelper.Template.Clean: models one template file. The helper runs over every file of global-s3-assets in directory order, and a throw in one file (a Lambda without Properties, say) ends the loop, leaving the later files unchanged; that loop is not modelled.
- LimitCheckLegacy.Checks: its own contract gives only the conditions under which a region yields a message. `LimitCheckLegacy.ChecksQuiet` gives the "empty exactly when nothing reaches 80 %" equivalence.

## Findings

| source | as written | input that shows it | evidently intended | confidence | as-written member | corrected member |
|---|---|---|---|---|---|---|
| limit-check.py:184-187 | a flagged Trusted Advisor item increments `alerts[metadata[0]][metadata[1]]`, the counter of its own region and service (such as "VPC"), and `alerts` only has keys for the configured regions and `global`, so an item from any other region raises KeyError | default region list, one non-Green service-limit item in eu-west-1 | the item is counted (or skipped), not an exception that ends the invocation | high, not executed | LimitCheck.TABumpAsWritten, LimitCheck.TAKeyErrorCounterexample | LimitCheck.Bump, LimitCheck.BumpCount |
| limit-check.py:291-294 | the CloudFormation counter is bumped with `alerts[rgn] += 1` (a dict plus an int), which raises TypeError when the region already has a counter | regions "us-east-1,us-east-1" with stacks at 80 % of the stack limit | `alerts[rgn]['cfn'] += 1`, the same shape as the other counters | high, not executed | LimitCheck.CfnBumpAsWritten, LimitCheck.CfnCounterCounterexample | LimitCheck.Bump, LimitCheck.BumpCount |
| limit-check.py:401 | `status_list` is bound only inside the us-east-1 branch (line 170), but the response reads it for every region, so every region other than us-east-1 raises UnboundLocalError in its own assume_role, and the first such region in REGION_LIST ends the invocation | regions "eu-west-1" | an empty status list for regions without the Trusted Advisor check | high, not executed | LimitCheck.TAStatusAsWritten, LimitCheck.RunAsWrittenFails | LimitCheck.TAStatus |
| limitCheck.py:58-60 | the RDS alert appends the integer `Max` to a string, which raises TypeError whenever RDS usage reaches 80 % | 32 RDS instances of a quota of 40 | the limit rendered with `str()` as in the EC2 and CloudFormation alerts | high, not executed | LimitCheckLegacy.RdsAlertAsWritten, LimitCheckLegacy.RdsAlertCounterexample | LimitCheckLegacy.RdsAlert, LimitCheckLegacy.RdsAlertLimitReadBack |
