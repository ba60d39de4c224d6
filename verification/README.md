# Carbon tracker backend: cloud offloading, emissions and reports

This project models the core of the carbon tracker web backend in Dafny. It covers:

- **The cloud manager service.** The tables behind its estimates: per-instance power draw, hourly price, machine images per region, and the supported regions and instance types. It also covers the emission estimate against the region catalog, and the gateway to the compute provider. The gateway launches, terminates, looks up, lists and tests, and every call is gated by the `isEnabled` flag the service computes at start-up.
- **The cloud routes.** Launching an instance and recording the workload, terminating it and completing the record. Also the region catalog with its recommendation, the what-if savings calculation, manual workload submission, listing with statistics, owner-scoped lookup and the catalog seed.
- **The telemetry routes.** Logging a sample, listing samples, per-period statistics and owner-scoped deletion.
- **The report routes.** The per-period summary, the thirty-day insight cards and the day-by-day progress table.
- **The three document schemas.** Cloud workload, cloud region and emission sample, as datatypes. Each has a validity predicate and a `create` function that either builds the stored document, with its defaults applied, or reports the first schema error.

How the model is organised:

- The database collections become fields of `seq` type in two classes:
  - `CloudService` holds workloads and regions;
  - `EmissionStore` holds emission samples.
- The route handlers become methods that update those fields, or functions that read them.
- The compute provider becomes the class `Ec2`, an instance table that the gateway class `CloudManager` updates in place.
- Time is an integer count of milliseconds, supplied by the caller as `now`. Quantities are `real`.
- An absent string field is `""`, since only its falsiness matters to the handlers. An absent number is `None`.

What is proved, in outline:

- **Launch.** A successful launch leaves a listed instance and a record whose savings equal the energy priced at the local grid intensity (500 gCO2/kWh) minus the same energy at the target region's intensity.
- **Terminate.** A terminate stops the instance from being listed and completes exactly the named record.
- **Region listing.** The listing is sorted by carbon intensity, and its recommendation is a greenest selected region.
- **Day groups.** The per-day emission groups of the progress report partition the samples, so their emissions add up to the total.
- **Stored records stay consistent.** Across every route, whatever `now` each call is given, every stored workload keeps the schema's bounds other than the duration's minimum, the savings identity, and a duration equal to the whole seconds from its start to its end. A completion is schema-valid exactly when `now` is not before the record's start; when the clock has stepped back, the update by id, which runs no validators, stores a negative duration.
- **Seed catalog.** The twelve seed documents insert cleanly. The ten available AWS regions come first, in increasing carbon intensity.

Some behaviours of the code are kept as they are, and the contracts in the table below state them:

- A provider launch that succeeds can still be followed by a failed record, which leaves a running instance with no workload document. This happens:
  - when the region is not in the catalog;
  - when the duration is negative;
  - when the workload type is not one of the schema's values.
- Two supported regions, eu-west-2 and sa-east-1, have no seed document, so a launch there cannot be recorded against the seeded catalog.
- Terminating does not check who owns the workload. It overwrites whatever status the record had.
- A telemetry timestamp of 0 counts as absent and is replaced by the current time.
- t3.large has a power figure but no price, so it is priced at the default hourly rate. It is also not launchable, because it is not a supported type.
- An unrecognised `period` value falls through to the seven-day window, but the value itself is echoed back in the report.

## Model

| member | source | states |
|---|---|---|
| Common.ParseProvider | web_app/backend/models/CloudWorkload.js:26-31 | a provider name parses only to the provider it names |
| Common.ProviderRoundTrip | web_app/backend/models/CloudRegion.js:6-11 | every provider's name parses back to that provider |
| Common.ParseProviderExact | web_app/backend/models/CloudRegion.js:6-11 | a string parses as a provider exactly when it is one of aws, gcp, azure, oracle |
| Common.Lower | web_app/backend/routes/cloud.js:273 | lower-casing keeps the length and maps each character to its lower-case form |
| Common.Take | web_app/backend/routes/cloud.js:392 | a limit of 0 keeps everything; otherwise the result is the prefix of at most that many elements |
| Sorting.SortBy | web_app/backend/routes/cloud.js:276-278 | the sort is a permutation of its input (same multiset) and ascending in the key |
| Sorting.SortByMembers | web_app/backend/routes/emissions.js:62-64 | sorting neither adds nor drops an element |
| Sorting.FirstIsLeast | web_app/backend/routes/cloud.js:282 | the head of a sorted list has the least key of all its elements |
| Sorting.SortedPage | web_app/backend/routes/emissions.js:62-64 | the page of a filtered, sorted list holds only selected elements, in key order, at most the limit, and all selected ones when they fit |
| Sorting.SortedPageSize | web_app/backend/routes/emissions.js:62-64 | the page's size is the limit, or the number of selected elements when the limit is 0 or they fit, and it repeats no element more often than the selection holds it |
| Sorting.SortedPageTop | web_app/backend/routes/emissions.js:62-64 | every selected element left off the page has a key no smaller than every key on the page |
| CloudRegionModel.CreateRegion | web_app/backend/models/CloudRegion.js:5-56 | a draft is rejected exactly when a required field is missing, intensity is negative, renewable share is outside 0..100 or the provider is not in the enum; an accepted one is a valid region with the draft's fields and `available` defaulting to true |
| CloudRegionModel.CreateAllAccepts | web_app/backend/models/CloudRegion.js:5-56 | a batch is accepted exactly when every draft is, and then yields one region per draft |
| CloudRegionModel.CreateAllAt | web_app/backend/models/CloudRegion.js:5-56 | the region at each position of an accepted batch is the draft at that position created under the next consecutive id |
| CloudRegionModel.InsertMany | web_app/backend/models/CloudRegion.js:59 | a successful batch insert is a valid catalog: each region valid, no two with the same provider and region, ids consecutive from the first |
| CloudWorkloadModel.ParseWorkloadType | web_app/backend/models/CloudWorkload.js:12-17 | a workload type name parses only to the type it names |
| CloudWorkloadModel.WorkloadTypeRoundTrip | web_app/backend/models/CloudWorkload.js:12-17 | every workload type's name parses back to that type |
| CloudWorkloadModel.StatusNamesDistinct | web_app/backend/models/CloudWorkload.js:66-71 | distinct statuses have distinct names |
| CloudWorkloadModel.MetadataWithDefaults | web_app/backend/models/CloudWorkload.js:87-98 | energy, duration, power, intensity, renewable share and launch time are stored as given, and `simulated` defaults to false |
| CloudWorkloadModel.CreateWorkload | web_app/backend/models/CloudWorkload.js:5-101 | a draft is rejected exactly when a required field is missing, an enum value is unknown or a bounded number is negative; an accepted one is a valid workload with the draft's fields, source region `local`, cost 0, status pending and start time now by default |
| CloudWorkloadModel.CreatedEnumsAreListed | web_app/backend/models/CloudWorkload.js:12-31 | a stored workload's type and provider are among the schema's enum values |
| EmissionModel.CreateEmission | web_app/backend/models/Emission.js:5-49 | a sample is rejected exactly when the user, session, device or a number is missing or a number is negative; an accepted one is a valid sample with the draft's fields and timestamp now by default |
| Estimator.PowerWatts | web_app/backend/services/cloudManager.js:285-295 | the tabled power of an instance type, 5 W for any other type name the routes pass, always positive |
| Estimator.HourlyCost | web_app/backend/services/cloudManager.js:360-369 | the tabled hourly price of an instance type, 0.01 for any other type name the routes pass, always positive |
| Estimator.AmiForRegion | web_app/backend/services/cloudManager.js:54-83 | the region's machine image, or the us-east-1 image for any other region name the routes pass; always one of the tabled images |
| Estimator.SupportedRegionsHaveImages | web_app/backend/services/cloudManager.js:373-389 | every supported region has its own machine image |
| Estimator.SupportedTypesAreTabled | web_app/backend/services/cloudManager.js:391-400 | every supported instance type has both a power figure and a price |
| Estimator.EnergyLinear | web_app/backend/services/cloudManager.js:296 | estimated energy is zero for zero hours and additive and proportional in the duration |
| Estimator.EstimateCost | web_app/backend/services/cloudManager.js:355-371 | cost is 0 for a provider other than aws, otherwise hourly price times hours; non-negative for a non-negative duration |
| Estimator.EstimateCostAdditive | web_app/backend/services/cloudManager.js:355-371 | the cost of two durations is the sum of their costs |
| Estimator.FindRegion | web_app/backend/services/cloudManager.js:299-302 | finds a catalog entry with that provider and region exactly when one exists |
| Estimator.FindRegionFirst | web_app/backend/services/cloudManager.js:299-302 | the entry found is the one at the first position whose provider and region match |
| Estimator.FindRegionUnique | web_app/backend/models/CloudRegion.js:59 | in a catalog with unique provider-region keys the lookup returns the one matching entry |
| Estimator.CalculateCloudEmissions | web_app/backend/services/cloudManager.js:284-317 | fails exactly when the catalog has no entry for that provider and region; otherwise yields the estimate at a matching entry |
| Estimator.CloudEmissionsLinear | web_app/backend/services/cloudManager.js:296-308 | when the region is in the catalog, the emissions for any duration are the one-hour emissions times the duration |
| Estimator.EstimateAtLinear | web_app/backend/services/cloudManager.js:296-308 | the estimate at a region scales linearly with the duration |
| Estimator.ComputeSavings | web_app/backend/routes/cloud.js:309-318 | local emissions are the energy at 500 gCO2/kWh, cloud emissions the energy at the target intensity, savings local minus cloud, i.e. energy times (500 minus target intensity); the percentage is absent when energy is zero |
| Estimator.EstimateAgreesWithComparison | web_app/backend/services/cloudManager.js:296-308 | a launch estimate and the what-if comparison for the same entry, type and duration agree on energy and cloud emissions, and the estimate's local minus cloud emissions are the comparison's savings |
| Estimator.SavingsSign | web_app/backend/routes/cloud.js:309-312 | for positive energy, savings are positive, zero or negative exactly when the target is greener than, equal to or dirtier than the local grid |
| Gateway.LaunchTags | web_app/backend/services/cloudManager.js:126-137 | a launch carries the four fixed tags (Name, ManagedBy, CreatedAt, Purpose) in order, then the caller's tags |
| Gateway.ListingMembers | web_app/backend/services/cloudManager.js:248-275 | the flattened reservations hold exactly the table's instances that are managed by the app, in the region and in a live state |
| Gateway.Summarize | web_app/backend/services/cloudManager.js:266-273 | a summary reports the instance's id and state and the queried region |
| Gateway.Summaries | web_app/backend/services/cloudManager.js:263-275 | one summary per instance, in order |
| Gateway.Ec2.Lookup | web_app/backend/services/cloudManager.js:210-220 | an instance is found exactly when its id is in the table and it lives in that region |
| Gateway.Ec2.RunInstance | web_app/backend/services/cloudManager.js:144-147 | a fault launches nothing; otherwise exactly one pending instance with the given image, type, region and tags is appended |
| Gateway.Ec2.TerminateInstance | web_app/backend/services/cloudManager.js:180-193 | fails exactly on a fault or an unknown instance, changing nothing; otherwise only that instance changes, to shutting-down (or staying terminated), and its previous state is reported |
| Gateway.CloudManager.constructor | web_app/backend/services/cloudManager.js:15-48 | enabled exactly when the flag is "true" and both credentials are set (client construction is taken not to throw); default region from the environment or us-east-1 |
| Gateway.CloudManager.EffectiveRegion | web_app/backend/services/cloudManager.js:175-177 | a given region is used as is; an absent one means the default region |
| Gateway.CloudManager.LaunchAwsInstance | web_app/backend/services/cloudManager.js:85-167 | disabled or faulted, nothing is launched and the error is reported; otherwise one pending instance of the requested (default t2.micro) type is launched with the region's image and the launch tags |
| Gateway.CloudManager.TerminateAwsInstance | web_app/backend/services/cloudManager.js:169-198 | disabled, it fails and nothing changes; enabled, it succeeds exactly when the provider terminates the instance in the effective region, and only that instance changes |
| Gateway.CloudManager.GetAwsInstanceStatus | web_app/backend/services/cloudManager.js:200-236 | throws only when disabled; otherwise reports the fault, "Instance not found", or the instance's state, type and the effective region |
| Gateway.CloudManager.ListAwsInstances | web_app/backend/services/cloudManager.js:238-282 | throws only when disabled; otherwise reports the fault with no instances, or one summary per listed instance with its count |
| Gateway.CloudManager.TestConnection | web_app/backend/services/cloudManager.js:319-353 | succeeds exactly when enabled, asked for aws and the provider answers; reports the disabled and unsupported cases and the default region |
| Gateway.LaunchedInstanceIsListed | web_app/backend/services/cloudManager.js:126-137 | a freshly launched instance is listed in its region |
| Gateway.TerminatedInstanceIsNotListed | web_app/backend/services/cloudManager.js:254-257 | an instance shutting down or terminated is never listed |
| Periods.ParsePeriod | web_app/backend/routes/reports.js:13-34 | "day", "month" and "year" select exactly that period; an omitted value, "week" or any unrecognised value selects the week |
| Periods.WindowStart | web_app/backend/routes/emissions.js:79-100 | the window starts one day, seven days, one calendar month or one calendar year before now |
| Periods.UnknownPeriodIsWeek | web_app/backend/routes/reports.js:32-33 | an unrecognised period opens the same window as an omitted one and as "week" |
| Periods.WindowsNest | web_app/backend/routes/reports.js:19-34 | longer periods never start later: year, month, week, day, now |
| Periods.ThirtyDaysBack | web_app/backend/routes/reports.js:98-100 | the insight and progress window starts exactly thirty days before now |
| Periods.EchoedPeriod | web_app/backend/routes/reports.js:13 | the period echoed is the requested one, and "week" when omitted |
| EmissionRoutes.LogDraft | web_app/backend/routes/emissions.js:22-31 | the sample is owned by the requester, carries the request's session, device, energy, emissions and duration, is stamped now when the timestamp is absent or 0, and gets empty metadata by default |
| EmissionRoutes.Matching | web_app/backend/routes/emissions.js:103-109 | exactly the requester's samples at or after the window start |
| EmissionRoutes.StatsOf | web_app/backend/routes/emissions.js:103-141 | the totals of energy, emissions and duration are the sums over the requester's samples in the window and the count is their number; all zero when there are none; otherwise the average times the count is the total |
| EmissionRoutes.StatsNonNegative | web_app/backend/models/Emission.js:25-39 | over valid samples every total and the average are non-negative |
| EmissionRoutes.EmissionStore.Log | web_app/backend/routes/emissions.js:10-47 | stores the created sample and advances the id when the schema accepts it; otherwise stores nothing and reports the error |
| EmissionRoutes.EmissionStore.List | web_app/backend/routes/emissions.js:50-74 | the page is the newest-first page of the requester's samples within the inclusive bounds (limit 100 by default, 0 meaning none), its count is its length, and it holds all of them when they fit |
| EmissionRoutes.NewestInRange | web_app/backend/routes/emissions.js:53-64 | the page holds only the requester's samples within the bounds; its size is the limit, or their number when the limit is 0 or they fit, and then it holds all of them |
| EmissionRoutes.NewestInRangeOrdered | web_app/backend/routes/emissions.js:62 | the page is ordered newest first |
| EmissionRoutes.NewestInRangeNoRepeats | web_app/backend/routes/emissions.js:53-64 | the page repeats no sample more often than the store holds it among the matching ones |
| EmissionRoutes.NewestInRangeTop | web_app/backend/routes/emissions.js:62-64 | every matching sample left off the page is no newer than every sample on it |
| EmissionRoutes.EmissionStore.Stats | web_app/backend/routes/emissions.js:77-147 | the statistics over the period's window; the period echoed is the requested one, "week" when omitted, and the session count is the number of matching samples |
| EmissionRoutes.EmissionStore.FindOwned | web_app/backend/routes/emissions.js:152-155 | finds a position holding that id and owner exactly when one exists |
| EmissionRoutes.EmissionStore.Delete | web_app/backend/routes/emissions.js:150-168 | deletes exactly when a sample with that id belongs to the requester, removing only it; otherwise nothing changes |
| Reports.RecentWorkloads | web_app/backend/routes/reports.js:55-61 | exactly the requester's workloads started at or after the window start |
| Reports.SummaryOf | web_app/backend/routes/reports.js:36-88 | local energy and emissions are the sums over the requester's samples in the window, cloud savings and cost the sums over their workloads started in it, the counts their numbers, zero when none, with net = emissions - savings |
| Reports.SummaryReport | web_app/backend/routes/reports.js:11-93 | the summary over the period's window; the period echoed is the requested one, "week" when omitted, and net is emissions minus savings |
| Reports.SummaryIgnoresOtherUsers | web_app/backend/routes/reports.js:37-70 | another user's sample or workload never changes a summary |
| Reports.ProviderCountAppend | web_app/backend/routes/reports.js:149-152 | one more workload adds one to its own provider's count only |
| Reports.CountStepSeen | web_app/backend/routes/reports.js:149-152 | the reduce step for an already counted provider adds one to its count and keeps the counts equal to the per-provider counts of the longer prefix |
| Reports.CountStepNew | web_app/backend/routes/reports.js:149-152 | the reduce step for a provider not yet counted gives it count 1 at the end of the key order, keeping the counts exact |
| Reports.CountProviders | web_app/backend/routes/reports.js:149-152 | the reduce yields each provider's workload count, keyed in the order of first appearance in the sequence given, which is store order (the source walks the newest-first list) |
| Reports.ArgMax | web_app/backend/routes/reports.js:154 | the scan returns a listed provider with its count, and no listed provider has a larger count |
| Reports.BestOfCounts | web_app/backend/routes/reports.js:154 | the provider the scan returns has exactly its workload count, which is positive, and no provider has more workloads |
| Reports.MostUsedProvider | web_app/backend/routes/reports.js:154 | the chosen provider's count is positive and no provider has more workloads |
| Reports.Insights | web_app/backend/routes/reports.js:96-169 | total card, savings card only when savings are positive, daily-average card, then the most-used provider card when there is a workload; trends high above 1000 total and 50 per day, and a high average card comes with a high total card |
| Reports.AverageHighImpliesTotalHigh | web_app/backend/routes/reports.js:137-144 | a daily average above 50 implies a total above 1000 |
| Reports.InsertDaySorted | web_app/backend/routes/reports.js:195-197 | inserting a day keeps the days strictly ascending and adds exactly that day |
| Reports.DistinctDays | web_app/backend/routes/reports.js:185-197 | exactly the samples' days, each once, ascending |
| Reports.OnDay | web_app/backend/routes/reports.js:186-189 | exactly the samples taken on that day |
| Reports.TotalsFor | web_app/backend/routes/reports.js:185-193 | one group per day with that day's summed emissions and energy and sample count |
| Reports.DailyTotals | web_app/backend/routes/reports.js:178-198 | one non-empty group per sample day, in strictly ascending day order |
| Reports.TotalsForCons | web_app/backend/routes/reports.js:185-193 | a sample adds its emissions to exactly one day group |
| Reports.TotalsForEmpty | web_app/backend/routes/reports.js:185-193 | with no samples every group is empty |
| Reports.DailyTotalsPartition | web_app/backend/routes/reports.js:185-193 | groups over distinct days covering every sample add up to the total emissions |
| Reports.DailyTotalsSumToTotal | web_app/backend/routes/reports.js:178-198 | the progress table's emission column adds up to the window's total emissions |
| Reports.WorkloadsOnDay | web_app/backend/routes/reports.js:207-213 | exactly the workloads started on that day |
| Reports.DaySavingsAppend | web_app/backend/routes/reports.js:207-213 | one more workload adds its savings to its own start day only |
| Reports.StartDaysAppend | web_app/backend/routes/reports.js:207-213 | one more workload adds exactly its start day to the set of start days |
| Reports.AddSavingsAt | web_app/backend/routes/reports.js:221-224 | after one more reduce step every key holds the summed savings of its day over the longer prefix |
| Reports.NoWorkloadsNoSavings | web_app/backend/routes/reports.js:229 | a day on which no workload started has savings 0 |
| Reports.SavingsStep | web_app/backend/routes/reports.js:221-224 | the savings-map reduce step keeps each key equal to that day's savings |
| Reports.SavingsByDay | web_app/backend/routes/reports.js:200-224 | the map's keys are exactly the start days and each holds that day's summed savings |
| Reports.SavingsLookup | web_app/backend/routes/reports.js:229 | looking a day up in the savings map, with 0 when missing, gives that day's summed savings |
| Reports.Rows | web_app/backend/routes/reports.js:226-232 | one row per day group, in order, each with the group's emissions and count, the day's savings and net = emissions - savings |
| Reports.Progress | web_app/backend/routes/reports.js:172-239 | one row per day with samples, ascending, with that day's emissions and count, its savings (0 when none) and net = emissions - savings |
| SeedCatalog.SeedColumns | web_app/backend/routes/cloud.js:448-584 | the twelve seed entries have the listed regions, providers, intensities and availability |
| SeedCatalog.SeedDraftsAccepted | web_app/backend/routes/cloud.js:448-584 | every seed entry satisfies the region schema |
| SeedCatalog.SeedRegionsDistinct | web_app/backend/routes/cloud.js:448-584 | no two seed entries share a region |
| SeedCatalog.SeedDocAt | web_app/backend/routes/cloud.js:588 | the stored document at each position is created from the seed entry at that position, with the next consecutive id |
| SeedCatalog.DocRegions | web_app/backend/routes/cloud.js:448-584 | each seed document has its entry's region |
| SeedCatalog.DocProviders | web_app/backend/routes/cloud.js:448-584 | each seed document has its entry's provider |
| SeedCatalog.DocIntensities | web_app/backend/routes/cloud.js:448-584 | each seed document has its entry's intensity and availability |
| SeedCatalog.SeedDocsUnique | web_app/backend/models/CloudRegion.js:59 | no two seed documents share a provider-region key, so the unique index admits the batch |
| SeedCatalog.SeedInserts | web_app/backend/routes/cloud.js:586-588 | the batch insert succeeds with the seed documents, which form a valid catalog |
| SeedCatalog.SeedAwsHead | web_app/backend/routes/cloud.js:448-584 | the first ten documents are available AWS regions, starting with eu-north-1 at 8 gCO2/kWh |
| SeedCatalog.SeedAscendingIntensity | web_app/backend/routes/cloud.js:448-584 | the ten AWS documents are in non-decreasing carbon intensity |
| SeedCatalog.SeedReferenceTail | web_app/backend/routes/cloud.js:562-583 | the last two documents are the unavailable GCP and Azure reference regions |
| SeedCatalog.SeedAwsRegionsSupported | web_app/backend/services/cloudManager.js:373-389 | every seeded AWS region is a supported region |
| SeedCatalog.SupportedButNotSeeded | web_app/backend/services/cloudManager.js:380-387 | eu-west-2 and sa-east-1 are supported, yet an emission estimate for them fails against the seeded catalog |
| CloudRoutes.ValidateLaunch | web_app/backend/routes/cloud.js:52-85 | the five checks fail in order (missing fields, provider, region present, region supported, type supported); passing means all hold, and yields the type, t2.micro by default |
| CloudRoutes.LaunchRecord | web_app/backend/routes/cloud.js:104-147 | fails with "Region data not found" when the catalog lacks the region; otherwise succeeds exactly when the schema accepts the launch draft built from the estimate and cost, failing with the schema's error when not; a created record is a valid running workload for the launched instance with savings = local - cloud |
| CloudRoutes.LaunchDraftFigures | web_app/backend/routes/cloud.js:121-147 | the record carries the estimate's energy and intensity, local emissions at 500 gCO2/kWh, the cloud emissions and the cost |
| CloudRoutes.LaunchRecordFigures | web_app/backend/routes/cloud.js:104-147 | a launched record carries the catalog estimate's energy, power and intensity, its emissions as the cloud emissions, that energy at 500 gCO2/kWh as the local emissions, local minus cloud as the savings, and the cost estimate |
| CloudRoutes.LaunchRecordConsistent | web_app/backend/routes/cloud.js:126-147 | a record created for an instance the provider holds has the next id, starts now, meets every schema bound and is consistent with the instance table |
| CloudRoutes.AppendRecord | web_app/backend/routes/cloud.js:126-147 | storing a consistent record under the next id keeps every stored record consistent, every id below the counter and the ids distinct |
| CloudRoutes.NegativeDurationRejectedAfterLaunch | web_app/backend/routes/cloud.js:96-147 | a negative duration passes every pre-launch check and the record is then rejected for negative local emissions |
| CloudRoutes.UnknownWorkloadTypeRejectedAfterLaunch | web_app/backend/routes/cloud.js:96-147 | a workload type outside the enum passes every pre-launch check and the record is then rejected by the enum |
| CloudRoutes.CompleteById | web_app/backend/routes/cloud.js:193-205 | the record with that id becomes that record with status completed, end time now and duration the elapsed whole seconds, all else unchanged; every other record, and every record when no id is given, is unchanged |
| CloudRoutes.CompleteAt | web_app/backend/routes/cloud.js:193-205 | with distinct ids, completing by the id of one entry completes that entry alone |
| CloudRoutes.CompleteNone | web_app/backend/routes/cloud.js:193-205 | completing by an id no record has changes nothing |
| CloudRoutes.SubmitOutcome | web_app/backend/routes/cloud.js:347-364 | accepted exactly when the fields are present and the schema holds; the record is pending, with the given emissions, savings = local - cloud and default metadata |
| CloudRoutes.SubmitRecordsNegativeSavings | web_app/backend/routes/cloud.js:361 | a cloud estimate above the local one is accepted and recorded with negative savings |
| CloudRoutes.WorkloadStatsOf | web_app/backend/routes/cloud.js:395-410 | total savings and cost are the sums over the page, each status count and the aws count is the number of page records with it, gcp and azure are 0, and no count exceeds the page size |
| CloudRoutes.StatusCountsBounded | web_app/backend/routes/cloud.js:399-404 | the four status counts together never exceed the page size |
| CloudRoutes.CountOfUniformStatus | web_app/backend/routes/cloud.js:399-404 | on a page of one status, that status counts the whole page |
| CloudRoutes.CountOfAbsentStatus | web_app/backend/routes/cloud.js:399-404 | a status no record has counts zero |
| CloudRoutes.TotalSavingsSplit | web_app/backend/routes/cloud.js:397 | total savings equal total local minus total cloud emissions on a page of consistent records |
| CloudRoutes.ConsistentLater | web_app/backend/models/CloudWorkload.js:72-83 | a consistent record stays consistent as more instances launch |
| CloudRoutes.CompletedConsistent | web_app/backend/routes/cloud.js:197-203 | completing a record keeps it consistent; the completed record meets the schema's duration minimum exactly when `now` is not before its start, and its duration is negative exactly when `now` is before its start |
| CloudRoutes.ElapsedNonNegative | web_app/backend/routes/cloud.js:197 | `Math.floor` of the elapsed milliseconds over 1000 is non-negative exactly when the end is not before the start |
| CloudRoutes.ConsistentValid | web_app/backend/models/CloudWorkload.js:80-83 | a consistent record meets every schema bound exactly when, if it has a duration, it did not end before it started |
| CloudRoutes.NewestSelected | web_app/backend/routes/cloud.js:384-393 | the page holds only the requester's records matching status and provider; its size is the limit, or the number of matching records when the limit is 0 or they fit, and then it holds all of them |
| CloudRoutes.NewestSelectedOrdered | web_app/backend/routes/cloud.js:384-393 | the page is ordered newest first |
| CloudRoutes.NewestSelectedNoRepeats | web_app/backend/routes/cloud.js:384-393 | the page repeats no record more often than the store holds it among the selected ones |
| CloudRoutes.NewestSelectedTop | web_app/backend/routes/cloud.js:390-393 | every selected record left off the page started no later than every record on it |
| CloudRoutes.GreenestFirst | web_app/backend/routes/cloud.js:267-278 | exactly the available regions of the (lower-cased) provider, as many as the catalog holds |
| CloudRoutes.GreenestFirstOrdered | web_app/backend/routes/cloud.js:276-282 | the regions rise in intensity, so the first is at most as intense as any selected region |
| CloudRoutes.CloudService.LaunchInstance | web_app/backend/routes/cloud.js:41-171 | a failed check changes nothing; with the gateway enabled and no fault the instance table becomes the old one plus exactly one pending instance of the chosen type in the request's region, from the region's image, tagged with the fixed tags then the workload type and user id, which is listed; the record is the launch record, and the store grows exactly when it is created |
| CloudRoutes.CloudService.RecordLaunch | web_app/backend/routes/cloud.js:104-147 | the outcome is the launch record against the catalog; the store grows by that record exactly when it is created, and the catalog is unchanged |
| CloudRoutes.CloudService.AppendWorkload | web_app/backend/routes/cloud.js:126-147 | the record is appended under the next id, the counter advances, the catalog is unchanged and the store stays consistent |
| CloudRoutes.CloudService.CompleteWorkload | web_app/backend/routes/cloud.js:193-205 | the records become the completion by that id at now, for any now; the completed record is schema-valid exactly when now is not before its start; the catalog is unchanged and the store stays consistent |
| CloudRoutes.CloudService.FindWorkloadIndex | web_app/backend/routes/cloud.js:194 | finds a position holding that id exactly when one exists, whoever owns it |
| CloudRoutes.CloudService.TerminateInstance | web_app/backend/routes/cloud.js:174-218 | missing fields and other providers are rejected in order; success exactly when the gateway terminates the instance; then only that instance changes, to shutting-down or, if already terminated, staying terminated, the previous and current states are reported, it is no longer listed and the named record is completed; a failure changes nothing |
| CloudRoutes.CloudService.ListRegions | web_app/backend/routes/cloud.js:267-289 | exactly the available regions of the (lower-cased) provider, ascending in intensity; the recommendation is absent only when none, else a greenest one |
| CloudRoutes.CloudService.CalculateSavings | web_app/backend/routes/cloud.js:292-332 | not found exactly when no region has that id; otherwise the breakdown is the savings computation at the found region's intensity: energy is watts times hours over 1000, local emissions energy at 500, cloud emissions energy at the region's intensity, and savings their difference |
| CloudRoutes.CloudService.SubmitWorkload | web_app/backend/routes/cloud.js:335-379 | the outcome is the submission outcome, and the store grows exactly when it is accepted |
| CloudRoutes.CloudService.ListWorkloads | web_app/backend/routes/cloud.js:382-424 | the page is the newest-first page of the requester's records matching status and provider (limit 50 by default), all of them when they fit, with the page's statistics |
| CloudRoutes.CloudService.GetWorkload | web_app/backend/routes/cloud.js:427-443 | finds a record exactly when one has that id and belongs to the requester |
| CloudRoutes.CloudService.Seed | web_app/backend/routes/cloud.js:446-607 | the catalog is replaced by the twelve seed documents; reports 12, 10 AWS, 2 reference, and eu-north-1 at 8 as the greenest available AWS region |
| CloudRoutes.CloudService.ReplaceCatalog | web_app/backend/routes/cloud.js:586-588 | the catalog becomes exactly the inserted documents, the region counter advances past them, and the workloads are unchanged |
| CloudRoutes.SeedReportFacts | web_app/backend/routes/cloud.js:590-599 | the seed report counts 12 documents, 10 available AWS ones and 2 unavailable ones, and names eu-north-1 at 8 gCO2/kWh, the least intense available AWS region, as the greenest |
| CloudRoutes.SeedAwsFilter | web_app/backend/routes/cloud.js:590 | the available-AWS filter of the seed documents is exactly its first ten, in order |
| CloudRoutes.SeedReferenceFilter | web_app/backend/routes/cloud.js:591 | the unavailable filter of the seed documents is exactly its last two |
| CloudRoutes.SeedGreenestFirst | web_app/backend/routes/cloud.js:598 | the first available AWS seed region has the least intensity among them |

## Left out

- Calls to the provider SDK are not made. The provider is the in-memory instance table `Ec2`. Network and API failures are a `fault` parameter, and an instance's id is its position in the table. Public and private IP addresses, launch times reported by the provider, and the S3 and CloudWatch clients are not modelled. The service's client construction is taken never to throw, so the fallback that disables the service on such an error is not modelled. The table lookups `map[key] || default` are modelled for plain names only: a name such as "constructor" or "toString", which would pick up an inherited member, never reaches them because the routes check region and type first.
- Three thin route wrappers are not modelled separately: the connection test, instance status and instance listing routes (web_app/backend/routes/cloud.js:11-38 and 220-264). They only forward to the gateway operations, which are modelled.
- Rounding by `toFixed`/`parseFloat` is not modelled. Values are exact reals. NaN and numbers sent as strings are not modelled either.
- Limit parsing is not modelled. A limit is a natural number. A negative or non-numeric limit has no counterpart.
- Only ASCII case mapping is modelled. `toLowerCase` on other characters is not.
- The clock and calendar are parameters. `now`, the ISO creation-time tag and the instants one calendar month and one year back are supplied by the caller. Time zones and daylight saving are ignored, and a calendar day is `t / DayMs` in UTC.
- The HTTP layer is not modelled: status codes, response shapes and message texts beyond the error kind, the JSON projections of the region in the savings response, and authentication. User ids are given. The seed route's lack of authentication is not modelled.
- The database is not modelled. Collections are sequences, ids are allocated consecutively, and `findById` by an unknown id is "not found". Index definitions other than the unique provider-region index are not modelled. Neither are timestamps maintained by the database.
- Ordering among equal sort keys is not modelled. Listings state that they are sorted and which records a truncated page keeps, not the order among equal keys.
- The Python tracker, the frontend, the seeding script and the user cloud preference model are not part of this model.
- Reports.MostUsedProvider: states a provider with the highest count, not which one wins a tie. The source's stable sort keeps the provider that appeared first among those tied in its newest-first list; the model counts in store order.
- CloudRoutes.CloudService.ListRegions: states the recommendation as a greenest selected region, not which of several equally green ones.
- The aggregate queries match on the request's user id (web_app/backend/routes/emissions.js:105-106, web_app/backend/routes/reports.js:39-40, 57-58, 180-181 and 202-203). An aggregation pipeline is not cast by the schema, so a string id would not match a stored ObjectId. The model assumes the id given matches the stored owner, as in `find`.
