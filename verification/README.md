# Verified model of the campaign publishing protocol

This project models the part of the system that spends money: how a campaign draft becomes live
entities on Meta, who has to approve it, how A/B tests are launched and stopped, and how budgets
change. Around it stand four smaller cores: the A/B statistics, key rotation, the rate limiter and
the rule engine, and the schema filler.

## How it is laid out

- `Core`, `Rows`, `World` hold the entities. `World` is the state of one organization with Meta
  beside it, as a value; `Database` and `MetaConnector` are the objects whose fields the services
  update. Each service method is proved equal to a function on `World`, and the theorems are about
  those functions.
- `PublishPlan`, `PlanShape`, `PlanContent`: the compiler from a bundle to the flat publish plan, its
  decoder, and what a plan asks for in terms of the rows.
- `MetaStore`, `PlanRun`, `TreeCopy`, `PublishSafety`: Meta's store, the interpreter of a plan with its
  `idMap`, the direct copy of a tree that it refines, and what any fault leaves behind.
- `BundleBuilder`, `PublishService`, `ApprovalsService`, `AbTestsService`, `OrgService`,
  `CampaignsService`, `RecommendationsService`: the requests.
- `LiveRows`, `LiveCampaign`: which Meta ids a publish writes to the rows, and what those entities show.
- `Workflow`: runs, that is, any sequence of requests with any outcome of their surroundings, mixed
  with rewritten drafts, changed accounts and recommendations, and studies that end on Meta.
  `ApprovalLifecycle`, `PublishHistory`, `Experiments`, `BudgetChanges`, `EndToEnd` hold what is
  true over every run, and `Instances` one small campaign in which the stated failures happen.
- `AbStatistics`, `Wilson`, `SampleSize`, `Winner`, `AbReport`, `Attribution`: the statistics over exact reals,
  with `sqrt` and `exp` known only by `sqrt(x)^2 = x`, `sqrt(x) >= 0` and `exp(0) = 1`.
- `KeyRotation`, `RateLimit`, `OptimizationRules`, `SchemaFiller`: the smaller cores.

`Env` says how the surroundings of one request behave: the clock, and which connector calls and
transactions succeed. Nothing is assumed of it beyond what a theorem itself says, so each holds for
every combination of failures it does not name.

## Where the code and its own words disagree

- `publish.service.ts:13-18` says nothing is left half-activated. A call that fails between the
  first and the last activation does leave that; `PublishSafety.HalfActivatedIff` is the exact
  condition on the fault, `PublishHistory.PublishHalfActivatesIff` on the request,
  `Instances.HalfActivatedPublishHappens` one case, and `PublishSafety.FaultSafety` what holds instead.
- The same header says that any failure marks the campaign ERROR. `PublishHistory.PublishStatusIs`
  says when it does and when the row is left PUBLISHING.
- `rate-limit.guard.ts:22-25` says sliding window. The code counts in windows that open with the
  first request: `RateLimit.SlidingWindowIff`, and the exact bound in `RateLimit.AtMostTwiceTheLimit`
  and `RateLimit.StraddlingRun`.
- `schema-filler.ts:3-7` says that mock output always validates. `SchemaFiller.FilledValidatesIff` is
  the exact condition; `SchemaFiller.DepthLimitIff` and `SchemaFiller.NumericEnumFails` are cases of it.
- `optimization-rules.ts:148` says a frequency over 3 with a CTR present calls for a refresh. The code
  asks for a frequency over 3.5 and no CTR: `OptimizationRules.RefreshMeans`.
- An ad without a creative id gets a creative on Meta but is sent without it
  (`PublishSafety.UnlinkedAdIff`).

## Model

| member | source | states |
|---|---|---|
| PublishPlan.BuildPublishPlan | apps/api/src/campaigns/payload-builder.ts:70-175 | the nested loops push exactly the flattened call tree of the bundle |
| PublishPlan.PushCreates | apps/api/src/campaigns/payload-builder.ts:94-145 | the first pass pushes, per ad set, the ad set and then creative and ad of each ad, numbered on from what was pushed |
| PublishPlan.PushAdCreates | apps/api/src/campaigns/payload-builder.ts:119-144 | per ad, the creative and right after it the ad, two numbers per ad |
| PublishPlan.PushActivations | apps/api/src/campaigns/payload-builder.ts:155-172 | the second pass activates each ad set and then its ads |
| PublishPlan.PushAdActivations | apps/api/src/campaigns/payload-builder.ts:163-171 | one activation per ad, in order |
| PlanShape.PlanLength | apps/api/src/campaigns/payload-builder.ts:70-175 | a plan has 2 + 2·adSets + 3·ads steps, of which 1 + adSets + 2·ads create |
| PlanShape.PlanNumbering | apps/api/src/campaigns/payload-builder.ts:70-175 | steps are numbered 1..n and every create precedes every activate |
| PlanShape.PhasesAgree | apps/api/src/campaigns/payload-builder.ts:86-172 | both phases visit campaign, ad sets and ads in preorder: parents first, and each non-creative entity activated exactly once |
| PlanShape.DecodeIffFlatten | apps/api/src/campaigns/payload-builder.ts:70-175 | a decoder returns a tree for a plan if and only if the plan is that tree's plan |
| PlanShape.PlanDeterminesTree | apps/api/src/campaigns/payload-builder.ts:64-69 | equal plans come from equal call trees, so the hash pins every call and its place |
| PlanShape.PlanPinsTexts | apps/api/src/campaigns/payload-builder.ts:119-143 | equal plans show the same texts in the same ads, and each call carries its own draft's texts in their own fields |
| PlanShape.CallsArePaused | apps/api/src/campaigns/payload-builder.ts:78-142 | every entity is asked for PAUSED, and the campaign's budget goes under the one field its type names |
| PlanContent.PlanAsksForRows | apps/api/src/campaigns/approvals.service.ts:26-78 | the current plan asks Meta for the campaign, every ad set row and every ad row of it with each row's own columns, the draft's or default targeting where a row has none, creative right before its ad, and for no other campaign, ad set or ad |
| MetaStore.MetaConnector.CreateCampaign | packages/meta/src/connectors/mock.ts:242-246 | adds one PAUSED campaign under the next id and changes nothing else |
| MetaStore.MetaConnector.CreateAdSet | packages/meta/src/connectors/mock.ts:248-258 | adds one PAUSED ad set under its campaign |
| MetaStore.MetaConnector.CreateCreative | packages/meta/src/connectors/mock.ts:260-264 | adds one PAUSED creative with the message as body and the headline as title |
| MetaStore.MetaConnector.CreateAd | packages/meta/src/connectors/mock.ts:266-270 | adds one PAUSED ad with the ad set and creative it was given |
| MetaStore.MetaConnector.ActivateEntity | packages/meta/src/connectors/mock.ts:272-274 | sets one entity ACTIVE, or nothing when the store has no such id |
| MetaStore.MetaConnector.PauseEntity | packages/meta/src/connectors/mock.ts:276-278 | sets one entity PAUSED, or nothing when the store has no such id |
| MetaStore.MetaConnector.UpdateCampaignBudget | packages/meta/src/connectors/mock.ts:280-291 | sets the one budget field of the type and keeps the other |
| MetaStore.MetaConnector.CreateSplitTest | packages/meta/src/connectors/mock.ts:397-408 | adds one live study with its cells (under a fresh id, as Meta gives) |
| MetaStore.MetaConnector.StopSplitTest | packages/meta/src/connectors/mock.ts:442-445 | a live study is stopped, others are untouched |
| PublishService.ExecuteStep | apps/api/src/campaigns/publish.service.ts:90-136 | one turn of the loop does what the interpreter's step does to Meta, idMap and rows, including where a call or row write throws |
| PublishService.RunLoop | apps/api/src/campaigns/publish.service.ts:89-136 | the loop over the plan is the interpreter's run, cut short at the fault |
| PublishService.FindApproved | apps/api/src/campaigns/publish.service.ts:42-51 | the approval found is the APPROVED publish approval of the campaign decided last, or none exists |
| PublishService.LatestApproved | apps/api/src/campaigns/publish.service.ts:42-51 | no APPROVED approval of the campaign was decided later than the one chosen |
| PublishService.Publish | apps/api/src/campaigns/publish.service.ts:32-168 | guards in order, consumption before the run, the run, and the status writes of both exits |
| PublishService.Pause | apps/api/src/campaigns/publish.service.ts:170-196 | the pause request's whole effect, with its failures |
| PlanRun.AttemptIsPrefix | apps/api/src/campaigns/publish.service.ts:89-167 | a run stops early if and only if its fault hits a call or row write that is made, and Meta then holds exactly the effect of the steps before the fault, with the faulted one if its call reached Meta |
| TreeCopy.RunCreates | apps/api/src/campaigns/publish.service.ts:91-126 | the create steps build the PAUSED copy of the tree and an idMap that knows every new entity, so no lookup misses |
| PublishSafety.PublishCopiesTree | apps/api/src/campaigns/publish.service.ts:87-141 | a fault-free run leaves Meta as it was plus exactly one ACTIVE copy of the tree, each ad under its own ad set and linked to the creative made just before it, even when ads share a creative id |
| PublishSafety.CopyTreeParents | apps/api/src/campaigns/publish.service.ts:98-126 | in the copy every new ad names a new ad set made before it and, if any, the creative with the number before its own; every new ad set names the new campaign |
| PublishSafety.FaultSafety | apps/api/src/campaigns/publish.service.ts:89-167 | for every fault: older entities unchanged, no ACTIVE ad or ad set under a paused parent, and nothing new ACTIVE when the fault is among the creates |
| PublishSafety.CutsIff | apps/api/src/campaigns/publish.service.ts:89-167 | a publish is cut short if and only if a call of any of its steps fails, or the row write of a create does; no activation misses its idMap lookup |
| PublishSafety.HalfActivatedIff | apps/api/src/campaigns/publish.service.ts:13-18 | for every fault: the new tree ends half-activated if and only if a call fails after the first activation has taken effect and before the last one has (the header says never) |
| PublishSafety.HalfActivationHappens | apps/api/src/campaigns/publish.service.ts:127-135 | every tree with an ad set is left half-activated when the activation right after the campaign's fails |
| PublishHistory.PublishHalfActivatesIff | apps/api/src/campaigns/publish.service.ts:32-168 | the same condition for a publish request in any world, on the fault of its surroundings |
| PublishHistory.PublishSucceedsIff | apps/api/src/campaigns/publish.service.ts:85-150 | past its checks a publish succeeds if and only if no fault cuts its plan short and its last write goes through |
| PublishHistory.PublishStatusIs | apps/api/src/campaigns/publish.service.ts:76-158 | after a consumed publish the row is PUBLISHED on success, ERROR if and only if the failure came inside the try block and the ERROR write went through, and else still PUBLISHING |
| Instances.HalfActivatedPublishHappens | apps/api/src/campaigns/publish.service.ts:13-18 | a campaign of one ad set and one ad whose sixth call fails: ACTIVE campaign, PAUSED ad set, failed request, row ERROR |
| PublishSafety.UnlinkedAdIff | apps/api/src/campaigns/publish.service.ts:112-124 | a complete run sends some ad without its creative if and only if some ad row names no creative |
| Instances.UnlinkedAdHappens | apps/api/src/campaigns/publish.service.ts:112-124 | consistent tables whose complete run does that |
| PublishSafety.PrefixOfCreates | apps/api/src/campaigns/publish.service.ts:87-126 | after any number of creates everything new is PAUSED and everything old untouched |
| PublishSafety.PrefixOfActivations | apps/api/src/campaigns/publish.service.ts:127-135 | after k activations exactly the first entities of the tree, in creation order without creatives, are ACTIVE |
| LiveRows.CompleteRunRecords | apps/api/src/campaigns/publish.service.ts:91-126 | a complete run leaves in every row the id of the entity made for it, and the campaign row its id and account; no other column changes |
| LiveCampaign.EveryRowGoesLive | apps/api/src/campaigns/publish.service.ts:91-141 | after a publish that succeeds every row of the campaign names its own new entity with the row's name, goal and texts: ACTIVE, and under the entity that its parent row names; two ads never share one |
| LiveCampaign.LiveCampaignCanBePaused | apps/api/src/campaigns/publish.service.ts:170-187 | pausing a campaign after a publish that succeeded goes through and leaves exactly the created campaign entity PAUSED |
| BundleBuilder.BundleIsPublishable | apps/api/src/campaigns/approvals.service.ts:26-78 | whatever the draft rows hold, a bundle built from rows with unique keys has unique local ids and rows that match it |
| BundleBuilder.AdsOfIff | apps/api/src/campaigns/approvals.service.ts:57-69 | an ad is among those of an ad set if and only if its row names that ad set |
| BundleBuilder.AdSetsOfIff | apps/api/src/campaigns/approvals.service.ts:29-57 | an ad set is in the bundle if and only if its row names the campaign |
| BundleBuilder.AdsOfInOrder | apps/api/src/campaigns/approvals.service.ts:64 | ads come in the order of the scan, each from a place of its own |
| BundleBuilder.AdSetsOfInOrder | apps/api/src/campaigns/approvals.service.ts:57 | and so do ad sets |
| BundleBuilder.AdsAreCarried | apps/api/src/campaigns/approvals.service.ts:64-75 | each ad carries the columns of its own row and its creative's name and image, and each row of the ad set is there |
| BundleBuilder.BundleIsComplete | apps/api/src/campaigns/approvals.service.ts:26-78 | a bundle holds every ad set row of its campaign with its own columns and ads, and no others |
| ApprovalsService.RequestApproval | apps/api/src/campaigns/approvals.service.ts:80-127 | refusals in order, else earlier pending requests expired, one PENDING approval with the current plan added and the campaign PENDING_APPROVAL |
| ApprovalsService.Decide | apps/api/src/campaigns/approvals.service.ts:184-251 | the guard, the three branches, and the two separate row updates of a publish decision |
| ApprovalsService.DecideAbTestLaunch | apps/api/src/campaigns/approvals.service.ts:254-403 | reject, drift guard, launch, and the compensation when the launch cannot be recorded |
| ApprovalsService.DecideBudgetChange | apps/api/src/campaigns/approvals.service.ts:406-477 | reject, drift guard, the call to Meta, and the commit that consumes the approval |
| EndToEnd.RequestIsTheOnlyPending | apps/api/src/campaigns/approvals.service.ts:95-116 | after a request exactly one approval of the campaign is PENDING, the new one with the current plan, and decided or foreign approvals are as before |
| EndToEnd.RejectReturnsToDraft | apps/api/src/campaigns/approvals.service.ts:223-241 | rejecting a publish request settles that approval alone, and returns the campaign to DRAFT exactly when it was PENDING_APPROVAL |
| EndToEnd.LateApprovalExpires | apps/api/src/campaigns/publish.service.ts:53-57 | an approval used is refused as expired, without effect, if and only if more than 72 hours have passed since its request |
| EndToEnd.PublishedOnce | apps/api/src/campaigns/publish.service.ts:32-40 | after a publish that succeeded another publish, or another request for one, is refused without effect |
| EndToEnd.ScopeDecidesCampaigns | apps/api/src/campaigns/campaigns.service.ts:18-22 | requests, edits and tests of a campaign are answered NOT_FOUND, without effect, if and only if the user is a viewer whose list of clients leaves out the campaign's |
| EndToEnd.ScopeDecidesTests | apps/api/src/campaigns/ab-tests.service.ts:33-38 | and launches, cancellations and refreshes of a test likewise |
| Experiments.AwaitedAfterWithdrawal | apps/api/src/campaigns/ab-tests.service.ts:254-260 | expiring a test's pending launches leaves no launch of it waiting and every other test's as it was |
| OrgService.AddMember | apps/api/src/org/org.service.ts:64-97 | an unknown email gets a user first, an existing member is refused, else one row is added |
| OrgService.AssertNotLastPrivileged | apps/api/src/org/org.service.ts:182-196 | true exactly when another ADMIN or AGENCY_OWNER exists |
| OrgService.UpdateMember | apps/api/src/org/org.service.ts:99-132 | the last privileged member cannot be demoted; given fields change, others stay |
| OrgService.RemoveMember | apps/api/src/org/org.service.ts:134-151 | the last privileged member cannot be removed |
| OrgService.UpdateStores | apps/api/src/org/org.service.ts:117-128 | the role and scope given are stored, those left out kept, in one row |
| OrgService.AddStores | apps/api/src/org/org.service.ts:64-97 | the new member has the role and scope given and is the user of the email |
| OrgService.AddGoesThroughIff | apps/api/src/org/org.service.ts:64-97 | a user, known or new, is added if and only if not a member yet and the rows go in |
| OrgService.RemoveTakesOne | apps/api/src/org/org.service.ts:134-151 | removing takes exactly one row |
| OrgService.LastOwnerIff | apps/api/src/org/org.service.ts:110-140 | removal and demotion are refused as LAST_OWNER if and only if the member is the only ADMIN or AGENCY_OWNER |
| ApprovalLifecycle.PrivilegedAfter | apps/api/src/org/org.service.ts:110-140 | over any run some member is ADMIN or AGENCY_OWNER |
| ApprovalLifecycle.UsersAreMembersOnce | apps/api/src/org/org.service.ts:64-87 | over any run no two emails share a user and no two member rows share a user |
| EndToEnd.NewDraftIsInert | apps/api/src/campaigns/campaigns.service.ts:29-56 | a new draft holds the input, cannot be published or paused, and changes no other campaign and no other campaign's plan |
| CampaignsService.Update | apps/api/src/campaigns/campaigns.service.ts:132-157 | editable only in DRAFT and PENDING_APPROVAL; left-out fields and empty names change nothing |
| CampaignsService.EditsReachDraftsOnly | apps/api/src/campaigns/campaigns.service.ts:132-148 | outside DRAFT and PENDING_APPROVAL an edit changes nothing; inside, it takes exactly the given fields of one campaign |
| RecommendationsService.Apply | apps/api/src/analytics/recommendations.service.ts:198-263 | refusals in order, else one PENDING budget request with the exact change, and the recommendation ACKNOWLEDGED |
| RecommendationsService.StepIsBounded | apps/api/src/analytics/recommendations.service.ts:19-222 | a step satisfies 0.8(b+2) <= b'+2 <= 1.2(b+2) and keeps a positive budget positive |
| RecommendationsService.StepMovesIff | apps/api/src/analytics/recommendations.service.ts:19-222 | a step changes a budget if and only if the budget is at least 3 |
| RecommendationsService.RequestFollowsAdvice | apps/api/src/analytics/recommendations.service.ts:198-263 | advice to scale asks for 20% more of this campaign's own budget, to reduce for 20% less, up to rounding; from a budget of 3 it rises exactly for scaling |
| RecommendationsService.AppliedOnce | apps/api/src/analytics/recommendations.service.ts:198-263 | applied advice is ACKNOWLEDGED and is refused to everybody from then on |
| AbTestsService.FindDuplicate | apps/api/src/campaigns/ab-tests.service.ts:72-82 | finds an active test on the campaign and the pair of cells in either order, exactly when there is one |
| AbTestsService.DuplicateIff | apps/api/src/campaigns/ab-tests.service.ts:71-83 | past its other checks a test is refused if and only if a test of the campaign that is neither CONCLUDED nor CANCELLED has the same set of two cells |
| AbTestsService.CreatedTestIs | apps/api/src/campaigns/ab-tests.service.ts:84-101 | a new test holds the input, the campaign's client and its cells' labels, an ad's hook before its name, and no trace of a launch |
| AbTestsService.Create | apps/api/src/campaigns/ab-tests.service.ts:57-111 | scope, cells of this campaign, no active duplicate, then one DRAFT test |
| AbTestsService.RequestLaunch | apps/api/src/campaigns/ab-tests.service.ts:142-219 | refusals in order, else earlier requests expired, one PENDING launch with the live entities added and the test PENDING_APPROVAL |
| AbTestsService.LaunchAsksFor | apps/api/src/campaigns/ab-tests.service.ts:142-219 | a launch asks for the entities its own cells were published as, under their labels, for LINK_CLICKS or CONVERSIONS by the metric, in the client's account |
| AbTestsService.LaunchGoesThroughIff | apps/api/src/campaigns/ab-tests.service.ts:142-183 | a launch can be requested if and only if the test is a DRAFT, both cells are variants of its campaign that are on Meta, the client has an account, and a pixel when conversions count |
| AbTestsService.Cancel | apps/api/src/campaigns/ab-tests.service.ts:221-270 | a running test is stopped on Meta before it is CANCELLED, its cells paused as far as possible, and pending launches expired |
| AbTestsService.PauseBoth | apps/api/src/campaigns/ab-tests.service.ts:243-251 | pauses the two launched entities, swallowing failures |
| AbTestsService.CancelPausesCells | apps/api/src/campaigns/ab-tests.service.ts:227-251 | cancelling a running test sets PAUSED exactly the launched entities of the test's level whose pause goes through |
| AbTestsService.RefreshResults | apps/api/src/campaigns/ab-tests.service.ts:276-340 | attributes by entity, stores the result and the winner, and concludes the test when the study ended |
| AbTestsService.RefreshRecords | apps/api/src/campaigns/ab-tests.service.ts:324-338 | a refresh stores the result and its winner in one row, and concludes the test if and only if its study ended on Meta |
| AbTestsService.RefreshGoesThroughIff | apps/api/src/campaigns/ab-tests.service.ts:276-340 | any launched test can be refreshed, finished or not, if and only if the account is there, the calls go through and both cells are reported |
| Workflow.StepWritesOnly | apps/api/src/campaigns/approvals.service.ts:80-477 | each request writes only the tables listed for it |
| Workflow.StepChanges | apps/api/src/campaigns/approvals.service.ts:80-477 | each request changes the approvals in one of five ways: supersede, add, decide one PENDING, consume one APPROVED, withdraw |
| Workflow.DecisionDecides | apps/api/src/campaigns/approvals.service.ts:184-477 | a decision changes at most the one approval, to a status its kind and verdict allow |
| ApprovalLifecycle.ApprovalsAreMonotone | apps/api/src/campaigns/approvals.service.ts:95-116 | over any run: PENDING, perhaps APPROVED, then REJECTED, EXPIRED or CONSUMED, no step back; requester, payload, hash and expiry never change |
| ApprovalLifecycle.AtMostOnePending | apps/api/src/campaigns/approvals.service.ts:95-113 | over any run at most one PENDING approval per campaign publish and per A/B launch, and every payload fits its subject and hash |
| ApprovalLifecycle.GrantedBySomeoneElse | apps/api/src/campaigns/approvals.service.ts:192-209 | every APPROVED or CONSUMED approval was granted by an approving decision in the run whose maker is on record and is not the requester, unless no other approver existed then |
| ApprovalLifecycle.TurnedAwayIff | apps/api/src/campaigns/approvals.service.ts:189-209 | a decision on a PENDING approval is refused if and only if its requester approves it while another approver exists |
| ApprovalLifecycle.DecisionGoesThroughIff | apps/api/src/campaigns/approvals.service.ts:184-241 | a publish decision goes through if and only if it is not a requester's own approval beside another approver, and both row updates do |
| ApprovalLifecycle.SomeoneMayApprove | apps/api/src/campaigns/approvals.service.ts:192-209 | with a privileged member, every PENDING approval has a privileged member whose approval passes the guard |
| ApprovalLifecycle.NoDeadlock | apps/api/src/campaigns/approvals.service.ts:192-209 | so over any run no request is ever locked out |
| PublishHistory.RunsApprovedPlan | apps/api/src/campaigns/publish.service.ts:42-141 | a publish that reaches Meta runs the plan stored in the APPROVED approval it consumes, whole or a prefix, and changes no other approval |
| PublishHistory.NoPlanNoEffect | apps/api/src/campaigns/publish.service.ts:33-86 | a publish that is refused, or has no connector context, leaves Meta untouched |
| PublishHistory.StatusIsNotDrift | apps/api/src/campaigns/publish.service.ts:59-68 | status changes between approval and publish never change the plan |
| PublishHistory.PublishIsSafe | apps/api/src/campaigns/publish.service.ts:32-168 | a publish request on consistent tables is safe whatever fails, and its success means exactly one ACTIVE copy |
| PublishHistory.WhatRanWasApproved | apps/api/src/campaigns/publish.service.ts:42-141 | at step k of any run, the steps a publish runs on Meta are a prefix of the plan that stood in the approval when an earlier decision approved it |
| PublishHistory.OnlyPublishGoesLive | apps/api/src/campaigns/publish.service.ts:13-18 | over any run, whatever is ACTIVE at the end and was not at the start became so in a publish that ran the plan of the approval it consumed |
| PublishHistory.PublishFollowsGrant | apps/api/src/campaigns/publish.service.ts:42-83 | every publish of a run follows the decision that granted the approval it consumes |
| PublishHistory.EveryRunHasItsOwnApproval | apps/api/src/campaigns/publish.service.ts:76-83 | no two publishes of a run consume the same approval |
| PublishHistory.GrantsAreConserved | apps/api/src/campaigns/publish.service.ts:42-83 | per campaign: approvals granted + standing before = publishes + standing after, so plan runs never exceed approving decisions |
| Experiments.StepOrphansIff | apps/api/src/campaigns/approvals.service.ts:293-393 | a step leaves a live study that no RUNNING test holds if and only if it is a launch whose commit, compensating stop and cleanup all fail |
| Experiments.NoOrphanedExperiment | apps/api/src/campaigns/approvals.service.ts:293-393 | in every run without that triple failure each live study is held by the RUNNING test it was created for, and a test has at most one live study |
| Experiments.TestsStayInOrder | apps/api/src/campaigns/ab-tests.service.ts:71-101 | over any run: one active test per campaign and unordered pair, no study before launch and one while RUNNING, and PENDING_APPROVAL exactly while a launch request waits |
| Experiments.TestsAreMonotone | apps/api/src/campaigns/ab-tests.service.ts:221-340 | a finished test stays finished, a running one never goes back, and the launched study and cells are never rewritten |
| Experiments.HeldStudyCanBeStopped | apps/api/src/campaigns/ab-tests.service.ts:227-260 | cancelling the test that holds a study stops it |
| Experiments.LaunchHeldIff | apps/api/src/campaigns/approvals.service.ts:311-392 | after a launch whose study exists on Meta, it is held or stopped if and only if commit, stop or cleanup succeeded |
| Experiments.ApproveLaunchKeepsTests | apps/api/src/campaigns/approvals.service.ts:284-392 | approving a launch keeps all test invariants on every path of the compensation |
| Experiments.CancelKeepsTests | apps/api/src/campaigns/ab-tests.service.ts:221-260 | cancelling keeps all test invariants on every path |
| Experiments.RefreshKeepsTests | apps/api/src/campaigns/ab-tests.service.ts:276-340 | refreshing keeps all test invariants, although it may turn CANCELLED into CONCLUDED |
| BudgetChanges.BudgetStaysWithinSteps | apps/api/src/analytics/recommendations.service.ts:198-263 | after n carried-out changes and no edits by hand, 0.8^n(b0+2) <= b+2 <= 1.2^n(b0+2), and a positive budget never reaches 0 |
| BudgetChanges.ConsumedChangeTakesEffect | apps/api/src/campaigns/approvals.service.ts:431-465 | a consumed change leaves the local budget and Meta's at exactly the approved value and no other entity changed |
| BudgetChanges.RetryIsIdempotent | apps/api/src/campaigns/approvals.service.ts:442-465 | retrying after a failed call or commit ends as if the first attempt had gone through |
| BudgetChanges.SecondChangeIsStaleIff | apps/api/src/campaigns/approvals.service.ts:431-434 | of two requests against one budget, carrying out one makes the other stale if and only if that budget is at least 3 |
| BudgetChanges.OtherStepsKeepBudget | apps/api/src/campaigns/campaigns.service.ts:132-157 | no other request changes a campaign's budget |
| EndToEnd.CampaignGoesLive | apps/api/src/campaigns/publish.service.ts:32-150 | request, approve and publish in time without faults, also beside older standing approvals: success, row PUBLISHED, Meta gains exactly one ACTIVE copy of the requested tree, every ad set row and ad row of the campaign names its own live entity, and the campaign can be paused |
| EndToEnd.StuckCampaignCanBeRequested | apps/api/src/campaigns/approvals.service.ts:80-127 | approval can be requested in every status but PUBLISHED, so also after a failed publish, if and only if the campaign has an ad set row, the client an account and the user sees the client |
| EndToEnd.SubjectsAlwaysExist | apps/api/src/campaigns/approvals.service.ts:80-127 | over any run every publish and budget approval names a campaign that exists |
| EndToEnd.PauseTouchesCampaign | apps/api/src/campaigns/publish.service.ts:170-187 | pausing changes exactly the campaign's row status and its Meta entity's status |
| EndToEnd.FailuresKeepTables | apps/api/src/campaigns/publish.service.ts:170-187 | a pause, budget change or cancellation that fails leaves all tables as they were, and changes Meta only if its call reached it |
| EndToEnd.CreatedTestBlocksItsPair | apps/api/src/campaigns/ab-tests.service.ts:71-83 | a test just created blocks another on its cells in either order |
| EndToEnd.TestGoesLive | apps/api/src/campaigns/ab-tests.service.ts:142-219 | request and approval of a launch leave the test RUNNING on a fresh live study of exactly the entities its cells had on Meta at the request |
| Wilson.WilsonIsAcceptanceSet | packages/marketing-core/src/ab-test.ts:88-96 | w lies in the Wilson interval if and only if (s/n - w)^2 <= z^2 w(1-w)/n; the interval lies in [0, 1] |
| Wilson.ClampsChangeNothing | packages/marketing-core/src/ab-test.ts:95 | the two clamps of the interval never change it |
| Wilson.WilsonContainsRate | packages/marketing-core/src/ab-test.ts:88-96 | the interval contains the observed rate |
| Wilson.WilsonNests | packages/marketing-core/src/ab-test.ts:88-96 | for one rate, the interval of more trials lies inside that of fewer |
| SampleSize.SizeFallsWithEffect | packages/marketing-core/src/ab-test.ts:236-248 | for 0 < m1 <= m2 the required size for m2 is at most that for m1, through clamps, roots and ceiling, and both are finite or neither |
| SampleSize.FiniteIff | packages/marketing-core/src/ab-test.ts:236-243 | the size is infinite if and only if no effect is asked for, or the clamped baseline sits at the end the effect points to |
| SampleSize.SizeIsLeast | packages/marketing-core/src/ab-test.ts:236-248 | the size is the least n for which n times the squared gap of the clamped rates covers the square of the weighted standard errors |
| Winner.EvaluateIsSymmetric | packages/marketing-core/src/ab-test.ts:117-201 | for different ids the result does not depend on the order of the arguments |
| Winner.AtMostIsTotal | packages/marketing-core/src/ab-test.ts:127 | the tie-break by id is a total order |
| Winner.WinnerIsEarned | packages/marketing-core/src/ab-test.ts:131-189 | a winner is declared if and only if p < 0.05 with 100 trials on both sides and 15 successes together; it is one of the two variants and has a strictly higher rate |
| Winner.EqualRatesTie | packages/marketing-core/src/ab-test.ts:68-83 | equal rates give p of at least 0.999999999 |
| Winner.CdfIsSymmetricIff | packages/marketing-core/src/ab-test.ts:55-65 | the normal approximation is symmetric if and only if z is not 0 |
| Winner.TestIsTwoTailed | packages/marketing-core/src/ab-test.ts:68-83 | swapping the groups negates z and keeps p, and p lies in [0, 1] |
| AbReport.ZSquareIsChiSquare | packages/marketing-core/src/ab-test.ts:68-83 | z squared is Pearson's chi-square of the table of successes and failures, z has the sign of the difference, and z is NaN if and only if the successes together exceed the trials |
| AbReport.StatMeans | packages/marketing-core/src/ab-test.ts:98-111 | counts are the nearest non-negative ones, the rate their quotient, and the interval exactly what the score test accepts at 95% |
| AbReport.DifferenceMeans | packages/marketing-core/src/ab-test.ts:140-149 | the interval of the difference holds exactly the differences within 1.959964 unpooled standard errors of the observed one |
| AbReport.LiftMeans | packages/marketing-core/src/ab-test.ts:126-137 | the control has the lower rate, and the lift leads from it to the variant's rate |
| AbReport.ProjectionIsLeast | packages/marketing-core/src/ab-test.ts:151-166 | the smaller variant has the required trials after k days if and only if k is at least the projection |
| Attribution.FindByEntity | apps/api/src/campaigns/ab-tests.service.ts:308-309 | finds a cell of the entity exactly when there is one |
| Attribution.AttributesIff | apps/api/src/campaigns/ab-tests.service.ts:291-322 | there is a result if and only if Meta reports two cells or more, both launched entities among them, and the two are different; the two refusals tell which failed |
| Attribution.CellOrderIsIrrelevant | apps/api/src/campaigns/ab-tests.service.ts:303-338 | for cells without ambiguous entities, any permutation gives the same result or the same refusal |
| Attribution.CellNamesAreIrrelevant | apps/api/src/campaigns/ab-tests.service.ts:308-328 | which variant is called A does not matter |
| Attribution.WinnerBelongsToTest | apps/api/src/campaigns/ab-tests.service.ts:324-335 | the declared winner is the test's cell whose launched entity has the higher rate on Meta |
| Attribution.ResultIsFromLiveCells | apps/api/src/campaigns/ab-tests.service.ts:295-335 | the result reports the rounded clicks and conversions (CVR) or impressions and clicks (CTR) of the cell of each launched entity, and the winner's cell has the strictly higher quotient |
| Attribution.AmbiguousCellsMatter | apps/api/src/campaigns/ab-tests.service.ts:308-309 | with two differing cells for one entity the order does matter |
| KeyRotation.PreviousKeys | apps/api/src/core/crypto.service.ts:26-36 | the setting's text is split and trimmed, malformed entries are skipped, and the last usable entry of a version counts |
| KeyRotation.SplitJoins | apps/api/src/core/crypto.service.ts:30-31 | splitting undoes joining, for pieces without the separator |
| KeyRotation.EntryReads | apps/api/src/core/crypto.service.ts:31-33 | a version and 64 hex digits with a colon between, and any space around them, are read as that version and key |
| KeyRotation.TrimOf | apps/api/src/core/crypto.service.ts:30-32 | trimming takes away the space on both sides and nothing else |
| KeyRotation.KeysAreBytes | apps/api/src/core/crypto.service.ts:32-33 | a key is 64 hex digits of either case, and two texts are one key if and only if their digits have the same values |
| KeyRotation.Store.ReEncryptCredentials | apps/api/src/core/key-rotation.service.ts:32-43 | the loop over the credentials is one pass that ends at the first row that fails |
| KeyRotation.Store.ReEncryptLeads | apps/api/src/core/key-rotation.service.ts:45-57 | the loop over the leads is one pass, incomplete rows passed over |
| KeyRotation.Store.ReEncryptAll | apps/api/src/core/key-rotation.service.ts:27-61 | credentials first, then leads, and the counts |
| KeyRotation.RotationPreservesPlaintext | apps/api/src/core/key-rotation.service.ts:11-17 | after a completed job every complete row is on the current version and decrypts to its text with the ring emptied; a second run changes nothing |
| KeyRotation.RotationCompletesIff | apps/api/src/core/key-rotation.service.ts:27-61 | the job completes if and only if every row it has to move decrypts and the database takes all updates |
| KeyRotation.JobMoves | apps/api/src/core/key-rotation.service.ts:32-57 | a completed job has moved every credential and exactly the leads with no empty column, and left rows that were current as they were |
| KeyRotation.StoppingIsSafe | apps/api/src/core/key-rotation.service.ts:35-57 | wherever the job stops, every row decrypts to what it did under the same ring |
| KeyRotation.MovedReads | apps/api/src/core/crypto.service.ts:53-78 | what encrypt writes decrypt reads back, with any ring |
| RateLimit.RateLimitGuard.CanActivate | apps/api/src/core/rate-limit.guard.ts:32-61 | one request: counts, refuses above the limit, and sweeps only after an accepted request with over 10000 buckets |
| RateLimit.RateLimitGuard.DeleteExpired | apps/api/src/core/rate-limit.guard.ts:55-59 | the sweep deletes exactly the expired buckets |
| RateLimit.SweepingIsInvisible | apps/api/src/core/rate-limit.guard.ts:44-59 | with a clock that does not run back, the guard decides exactly like one that never deletes |
| RateLimit.AtMostLimitPerWindow | apps/api/src/core/rate-limit.guard.ts:44-52 | at most limit requests are accepted in the window a request opens |
| RateLimit.AtMostTwiceTheLimit | apps/api/src/core/rate-limit.guard.ts:44-52 | at most 2·limit - 1 requests of a key are accepted in any interval of one window length |
| RateLimit.SlidingWindowIff | apps/api/src/core/rate-limit.guard.ts:22-25 | the guard is the sliding window its comment names if and only if the limit is at most 1 |
| RateLimit.StraddlingRun | apps/api/src/core/rate-limit.guard.ts:44-52 | for every limit of at least 1, a run that gets 2·limit - 1 requests through in one window length, so the bound is exact |
| OptimizationRules.EvaluateRules | packages/marketing-core/src/optimization-rules.ts:172-202 | the loops collect, entity by entity, the first finding of each type with its evidence, and sort them by severity |
| OptimizationRules.EvaluateEntity | packages/marketing-core/src/optimization-rules.ts:176-199 | the pushes with the seen-set keep, per type, the first rule in line that fires behind its gate |
| OptimizationRules.NeverKillAndScale | packages/marketing-core/src/optimization-rules.ts:45-143 | no entity gets both a kill and a scale verdict, whatever the targets |
| OptimizationRules.KillMeans | packages/marketing-core/src/optimization-rules.ts:45-89 | an entity is told to stop if and only if it passed the gate and has no results, conversions or else leads, or a cost per result over twice the target |
| OptimizationRules.ScaleMeans | packages/marketing-core/src/optimization-rules.ts:111-144 | an entity is told to scale if and only if three days live it has 10 results at 0.6 of the target or 5 at 0.8 |
| OptimizationRules.RefreshMeans | packages/marketing-core/src/optimization-rules.ts:92-162 | a creative is to be refreshed if and only if past the gate its ad fails on CTR and CPM or its frequency is over 3.5 |
| OptimizationRules.FindingsShowOwnNumbers | packages/marketing-core/src/optimization-rules.ts:58-162 | every finding shows its own entity's numbers, to the nearest cent, under the severity of its rule, and names the first rule in line |
| OptimizationRules.FindingsOfCoherent | packages/marketing-core/src/optimization-rules.ts:176-199 | one finding per type, kills only past the conversion gate, S2 shadows S1 |
| OptimizationRules.SortIsStable | packages/marketing-core/src/optimization-rules.ts:201 | the output is sorted by severity and keeps the order within a severity |
| OptimizationRules.SortIsUnique | packages/marketing-core/src/optimization-rules.ts:201 | those two properties determine the output |
| OptimizationRules.OutputIsCoherent | packages/marketing-core/src/optimization-rules.ts:167-202 | for entities with different ids the output is a stable sorted permutation of the pushed findings, coherent and grounded in the entities |
| SchemaFiller.FillSchemaValidates | packages/ai/src/schema-filler.ts:3-10 | every fillable schema of at most eight levels is filled with a value that validates: for every seed when no email address is asked for, else for every seed that may stand before an @ |
| SchemaFiller.FilledValidatesIff | packages/ai/src/schema-filler.ts:3-73 | for every schema, seed and depth, the filled value validates if and only if the schema fits, a condition on the schema (past a union's first option: whether another takes its value) |
| SchemaFiller.BuiltStringFitsIff | packages/ai/src/schema-filler.ts:18-25 | a built string passes its checks if and only if they name at most one format, the seed may stand before an @ if that is email, and the lengths fit |
| SchemaFiller.TaskKeysMayStandBeforeAt | packages/ai/src/providers/mock.ts:47-53 | every task key, two words with a dot between, may stand before an @ |
| SchemaFiller.DepthLimitIff | packages/ai/src/schema-filler.ts:13 | a number under k arrays is filled validly if and only if k <= 8, a nullable number if and only if k <= 9 |
| SchemaFiller.NumericEnumFails | packages/ai/src/schema-filler.ts:36-39 | a numeric native enum is filled with a name, which does not validate, but does in a union with a string |

## Left out

- Two requests at once: rows are updated by id only, so the single-use results are about one request after another.
- Audit and call logs: their writes are taken never to fail and are not modelled.
- Several organizations: the state is that of one, and every query is scoped to it.
- `hashJson` is taken to be injective; step labels are not part of the model's plan, since they only repeat names that the specifications carry.
- Call-to-action texts that name a property every JavaScript object has.
- Currency, start and end dates, notes and personas: they do not reach the plan.
- Campaign deletion: it removes a campaign's tests along with it, which the invariant about live studies does not survive.
- Which approval is found when two were decided at the same instant: the source leaves it to the database, the model takes the earlier row.
- PublishSafety.PublishCopiesTree: asks for unique local ids without a colon, as the database's keys are; `BundleBuilder.BundleIsPublishable` shows that bundles built from the tables meet this.
- Experiments.NoOrphanedExperiment: a failed createSplitTest is taken to have no effect on Meta.
- MetaStore.MetaConnector.CreateSplitTest: ids are fresh, as Meta's are; the mock's own id is a hash of the specification.
- A campaign left PUBLISHING or ERROR by a failed publish can be requested again, and then gets a second copy on Meta; the model does not remove the first.
- The mock keeps one store per kind; the model keys one store by kind and number.
- Generated ads, uploaded assets and the order in which the database scans rows enter as drafts that may be rewritten arbitrarily between requests.
- Recommendations are made and dismissed elsewhere; only applying one is modelled.
- Rounding of floating point, `toFixed`, NaN beyond the roots of negative numbers, and the texts of recommendations.
- OrgService.AddMember: the new user's name and password hash are left out.
- AbStatistics.EvaluateAbTest: confidencePct is left out, being 100(1 - p).
- Wilson.WilsonIsAcceptanceSet: stated for 0 <= successes <= trials and z >= 0, the arguments of a proportion.
- BudgetChanges.BudgetStaysWithinSteps: for budgets that are not negative, which the input schema guarantees, and with the steps of 20% in exact arithmetic.
- KeyRotation.Store.ReEncryptAll: AES-GCM is any cipher that opens what it sealed.
- KeyRotation.PreviousKeys: turning a version's text into a number is a parameter, and only the commoner white space is trimmed.
- RateLimit.AtMostTwiceTheLimit: the options of a key are fixed, as a key names its route.
- OptimizationRules.EvaluateRules: the titles and bodies of findings, text around the same numbers as their evidence, are left out.
- SchemaFiller.FilledValidatesIff: email and UUID follow the schema library's patterns, URLs are a subset of what a URL parser takes; checks other than formats, lengths and bounds are not modelled, and where another option of a union takes what the first was given the condition says just that.
- Prisma, HTTP, queues, the Graph and MCP connectors, AI prompts and the web client.
- `budget-tiers.ts`, `compliance.ts`, `benchmarks.ts`, `account-audit.ts`: tables and patterns that would only add easy members.
