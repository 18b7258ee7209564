# ao-kernel: a Dafny model of its decision cores

This project models eight cores of ao-kernel, and one path between two of them, and proves what they
keep. Every theorem is stated over all inputs, all runs or all reachable states of its core; where a
law of the code fails on some inputs, the project says exactly on which.

| core | modules |
|---|---|
| the PR-metadata block as a lens over text | `PrMetadata`, `PrMetadataText`, `PrMetadataLens`, `PrMetadataLaws` |
| the release gate: evaluators, decision, surfaces | `PathRules`, `PathForms`, `DiffDigest`, `GateContext`, `GateReads`, `GatePrecedence`, `GateEvidence`, `GateDecision`, `GatePolicy`, `GateSupersession`, `GateTheorems`, `GateFindings`, `GateReport`, `CheckSurfaces` |
| the tool gateway and the client that owns one | `ToolPolicy`, `GatewayModel`, `ToolGateway`, `ClientRuns` |
| the autonomous merge executor | `RequiredChecks`, `SlotFilling`, `RequiredCheckOrder`, `MergeExecutor`, `MergeSafety`, `MergeGrounds` |
| the bounded consensus protocol | `Consensus`, `ConsensusLaws`, `ConsensusGrounds` |
| the high-risk dry run, producer side of the gate | `HighRiskDryRun`, `DryRunContext`, `DryRunEvidence`, `DryRunHead`, `DryRunLaws`, `DryRunGrounds` |
| from consensus to dry run | `ReviewChain` |
| the greedy event-order test | `EventOrder` |
| trace and span ids | `TraceIds` |

`Text` holds the string operations of Python that the cores use and `Json` decoded JSON documents as
Python sees them: `get` on an absent key, truthiness, `==` across bools, ints and floats, and which
values a set can hold; `Sequences` pins the facts about sequences that proofs by induction name. A
call that may raise returns an `Outcome` or an `Option`; a raise is `Raised` or `None`. The digest,
case mapping, timestamp parsing, JSON Schema validation, secret scanning, git, the clock, provider
commands and `gh` are parameters or arbitrary answers, and the theorems hold for every choice of
them. Trace and span ids follow section 3.2.2.3 (trace-id) and section 3.2.2.4 (parent-id) of W3C
Trace Context.

Code that updates things step by step is a class or a loop here too: the gateway, the client and the
`gh` session are classes, the collecting loops are loops, and each is proved against a function whose
properties the lemmas state.

The conditions of the theorems are written on the raw values: `Policy`, `MayMerge`, `UsableReview`,
`Readable` and their like name keys, texts and numbers themselves instead of calling the tests of the
code. What they still share with it, the digest, Python's string operations and the grouping of the
required checks, has laws of its own.

## Where the code and its promises part

- An upserted block is read back, and a second upsert replaces the first, exactly on the bodies
  called `Settled`: those that hold a recognised block already, or whose text, trimmed at the end and
  followed by a newline, leaves no fence header open after its last fence. On any other body the
  appended block is swallowed by the open fence; a body of three backticks is one, and no shorter
  body is.
- A diff digest does not name its list of paths: of the lists of non-empty paths, those that share
  their digest with one that is not a reordering are exactly those of two paths or more, whose
  digest is also that of the single path made of all their lines, and those of one path that holds a
  newline between two non-empty parts in order. Between lists of one-line paths it never happens. No
  paths at all and one empty path have the same digest.
- The gate raises TypeError instead of deciding when, with the authority boundary of the supersession
  evidence closed, its consensus status is a list or an object, or its status is absent or AGREE and
  a verdict that no other dissent precedes is one, or a provider name is one in evidence that passed
  the tests before; and on a bundle with a closed boundary that its schema accepts and in which a
  provider id is one. On every other input it allows or denies.
- The required-check verdict can depend on the order of the reports. With A reports without a name,
  the names made up are `<unnamed-1>` to `<unnamed-A>`. Call one of them backed when a report is itself
  named so and passes, and needy when reports are named so, none passes and not all are skipped.
  Two orders disagree exactly when no report fails, every other name has a pass or only skipped
  reports, the nameless reports that neither pass nor are skipped are no more than the backed names,
  the needy names no more than the passing nameless reports, and there is a nameless report of the
  first kind with a name that is not backed, or a needy name with a nameless report that does not
  pass.
- The merge executor can report that a merge was attempted in a run that issued none: when nothing
  blocks an open pull request that already carries a merge time.
- The dry run drops every "refs/heads/" from the head ref for its payload, the gate only a leading
  one from the evidence: a head ref with another occurrence never passes.

## Model

| member | source | states |
|---|---|---|
| PrMetadata.SearchIsLeftmost | ao_kernel/pr_metadata.py:23-26 | the scan returns the leftmost match of the fence pattern, or nothing when no place has one |
| PrMetadataText.MatchAtMeans | ao_kernel/pr_metadata.py:23-26 | the pattern matches at a place exactly the stretch made of three backticks, a line without backticks, and a body up to the first newline that three backticks follow |
| PrMetadataText.ScanMeans | ao_kernel/pr_metadata.py:23-26 | the scan lists the fences of a text: each the first after the end of the one before, and none after the last |
| PrMetadata.RecognisedMeans | ao_kernel/pr_metadata.py:74-92 | an info string is recognised exactly when its words are the one metadata word or hold both words |
| PrMetadataText.RecognisedWords | ao_kernel/pr_metadata.py:74-92 | an info string is recognised exactly when its maximal runs of non-blanks, lower-cased, are the word "pr-delivery-metadata" alone or hold both "json" and "pr-delivery-metadata" |
| PrMetadataLens.BlockIsWhole | ao_kernel/pr_metadata.py:248-252 | a rendered block is one match of the pattern, wherever it stands, whose info string and body are the rendered ones |
| PrMetadataLens.AppendScan | ao_kernel/pr_metadata.py:255-272 | appending a block to a text that leaves no fence open adds exactly one match after the others |
| PrMetadataLens.ReplaceScan | ao_kernel/pr_metadata.py:255-272 | replacing one match by a block keeps all the matches before and after it |
| PrMetadataLens.DanglingScan | ao_kernel/pr_metadata.py:23-26 | with a fence left open, the scan of the appended text has a match that starts at that fence and swallows the block's own opening |
| PrMetadataLaws.PutGet | ao_kernel/pr_metadata.py:74-92 | put-get: for every body and every dumped JSON, extracting after upserting returns the JSON if and only if the body is settled |
| PrMetadataLaws.PutPut | ao_kernel/pr_metadata.py:255-272 | put-put: a second upsert gives what it would give alone, if and only if the body is settled; so upsert is idempotent there |
| PrMetadataLaws.Frame | ao_kernel/pr_metadata.py:255-272 | on a settled body the list of fence matches changes in one place: the first recognised one is replaced, or one is added at the end |
| PrMetadataText.UpsertReplaces | ao_kernel/pr_metadata.py:255-272 | with a recognised block, an upsert keeps every character before the start and after the end of the first one and puts the literal new block between them |
| PrMetadataText.UpsertAppends | ao_kernel/pr_metadata.py:255-272 | without one, an upsert is the body without its trailing blanks, the literal heading, the literal block and a newline; on a blank body it is the block and a newline |
| PrMetadataLaws.BareBackticksAreUnsettled | ao_kernel/pr_metadata.py:255-272 | a body of three backticks is not settled, so the lens laws fail on it |
| PrMetadataLaws.ShorterIsSettled | ao_kernel/pr_metadata.py:255-272 | every shorter body is settled, so that one is the shortest on which they fail |
| DiffDigest.SortedIsCanonical | ao_kernel/ao_release_gate.py:76-87 | sorting forgets the order of a list and nothing else |
| DiffDigest.LinesInjective | ao_kernel/ao_release_gate.py:76-87 | joining non-empty one-line paths with newlines loses nothing |
| DiffDigest.DigestIdentifiesPaths | ao_kernel/ao_release_gate.py:76-87 | with an injective hash, two lists of one-line paths have equal digests if and only if they are equal as multisets |
| DiffDigest.DigestIgnoresOrder | ao_kernel/ao_release_gate.py:76-87 | the digest does not depend on the order of the paths |
| DiffDigest.DigestMeans | ao_kernel/ao_release_gate.py:76-87 | the digest is "sha256:" and the hash of the lines of the paths put in code-point order |
| DiffDigest.NewlinePathsCollide | ao_kernel/ao_release_gate.py:76-87 | two lists of two paths, not reorderings of each other, have the same digest because a newline stands in a path of each |
| DiffDigest.NoPathsAndEmptyPathCollide | ao_kernel/ao_release_gate.py:76-87 | no paths and one empty path have the same digest |
| DiffDigest.OneLinePartners | ao_kernel/ao_release_gate.py:76-87 | of the lists with the digest of a list of one-line paths, its reorderings are exactly those of one-line paths |
| DiffDigest.TwoPathsCollide | ao_kernel/ao_release_gate.py:76-87 | every list of two paths or more has the digest of the one path made of all its lines |
| DiffDigest.AmbiguousIff | ao_kernel/ao_release_gate.py:76-87 | exactly which lists of non-empty paths share their digest with one that is not a reordering: those of two paths or more, and one path that a newline splits in order |
| PathRules.GlobOneStar | ao_kernel/ao_release_gate.py:617-629 | a one-star glob matches exactly the paths with that start and that end that are long enough for both |
| PathForms.PathAllowedMeans | ao_kernel/ao_release_gate.py:602-614 | a path is allowed exactly when one of the prefixes, trimmed, is a directory it is in or a name that it is or is below |
| PathForms.HighRiskMeans | ao_kernel/ao_release_gate.py:617-639 | a path is high-risk exactly when it has one of ten forms, each spelled out on its characters |
| PathForms.SmokePathMeans | ao_kernel/ao_release_gate.py:642-653 | a smoke path is exactly a markdown file directly in the smoke directory |
| PathRules.HighRiskPathsIsFilter | ao_kernel/ao_release_gate.py:632-639 | the high-risk list is an order-keeping filter: it distributes over concatenation and keeps every occurrence of a high-risk path and no other |
| PathRules.SmokeIsNotHighRisk | ao_kernel/ao_release_gate.py:642-653 | no smoke evidence path matches a high-risk pattern |
| PathRules.SmokeLaneHasNoHighRisk | ao_kernel/ao_release_gate.py:664-685 | every list of smoke evidence paths has an empty high-risk list |
| Json.CollectStrings | ao_kernel/ao_release_gate.py:462-470 | the loop collects the trimmed non-blank strings of a payload in order |
| GateContext.CollectChecks | ao_kernel/ao_release_gate.py:565-581 | the loop keeps the named check records in order and skips nameless ones |
| GateContext.CollectReviews | ao_kernel/ao_release_gate.py:584-599 | the loop yields one normalised review per item, in order |
| GateContext.RequestOf | ao_kernel/ao_release_gate.py:495-521 | the autonomous-merge request is valid exactly when every supplied value is the same boolean, and is that boolean |
| GateContext.AutonomousRequest | ao_kernel/ao_release_gate.py:495-521 | the loops over payload and service context compute that request |
| GateReads.ContextIsRead | ao_kernel/ao_release_gate.py:808-889 | the whole context is read off payload, service context and status: for each field the keys it may stand under and their order of precedence |
| GatePrecedence.ServiceCannotDecide | ao_kernel/ao_release_gate.py:808-889 | for a payload that gives every field itself, other service-enriched context leaves the decision as it is exactly when every merge request in it is the payload's own, and otherwise the change is denied |
| GateSupersession.QuorumExcludesImplementer | ao_kernel/ao_release_gate.py:55-73 | for every implementer the quorum is two distinct providers of the pool, and never the implementer |
| GateSupersession.QuorumMeans | ao_kernel/ao_release_gate.py:1349-1385 | the quorum test accepts exactly one verdict of each provider of the implementer's quorum, named as such by the evidence |
| GateSupersession.NoDissentMeans | ao_kernel/ao_release_gate.py:1242-1247 | the dissent test passes exactly when the status and every verdict are absent or AGREE |
| GateSupersession.MatchingBindingsAreEquivalent | ao_kernel/ao_release_gate.py:1048-1063 | bindings that match the pull request are equivalent to each other, so the last test never fails on its own |
| GateSupersession.FlagMeans | ao_kernel/ao_release_gate.py:1129-1446 | the evaluator's flag is up exactly for valid evidence: closed, agreed, fresh, by the quorum, every binding tied to this pull request |
| GateSupersession.SixChecksWhateverTheEvidence | ao_kernel/ao_release_gate.py:1129-1446 | an evaluation that returns emits one check under each of six names, and its flag is up exactly when evidence is supplied and none is blocked |
| GatePolicy.GreenMeans | ao_kernel/ao_release_gate.py:724-737 | required checks are green exactly when some check other than "ao-release-gate" is reported and each such check has the lower-cased status "completed" or "success" and the lower-cased conclusion "success" |
| GateReads.AllowedChecksSucceeded | ao_kernel/ao_release_gate.py:724-737 | an allow means that every named entry of the payload's `required_checks`, or of its `checks` when that is missing or empty, other than the gate's own is over and has "success" for its conclusion, or for its state when it has no conclusion, and that there is one |
| GateReads.AllowedHighRiskWasApproved | ao_kernel/ao_release_gate.py:688-721 | an allow of a high-risk change without supersession evidence means that some entry of the payload's reviews is approved, of the head commit and not by the author |
| GatePolicy.ReviewPasses | ao_kernel/ao_release_gate.py:892-1026 | the review checks pass exactly for accepted and bound evidence, or in the smoke lane without any |
| GatePolicy.BundlePasses | ao_kernel/ao_release_gate.py:1449-1770 | the bundle checks pass exactly for a valid request with an accepted bundle, or without a bundle when none is asked for or in the smoke lane |
| GateTheorems.AllowIffPolicy | ao_kernel/ao_release_gate.py:2060-2231 | soundness and completeness: for every payload, status and evidence, the gate allows if and only if one declarative policy holds, which names every value it asks for |
| GateTheorems.BuildDecision | ao_kernel/ao_release_gate.py:2016-2231 | the straight-line builder, which extends one list of checks, computes the decision of the specification: it raises exactly on the evidence that makes it raise, and allows exactly when the policy holds |
| GateFindings.FindingIff | ao_kernel/ao_release_gate.py:892-1833 | for every decision, a finding is among its findings exactly when its own condition on the raw values holds, for all 43 findings |
| GateReport.ChecksInOrder | ao_kernel/ao_release_gate.py:2060-2231 | every decision reports 34 checks under fixed names in a fixed order, and a finding blocks the one check it belongs to |
| GateReport.FindingsInOrder | ao_kernel/ao_release_gate.py:2225-2228 | the findings are those of the checks, one by one, in the order of the checks |
| GateTheorems.SupersessionOnlyStrengthens | ao_kernel/ao_release_gate.py:710-721 | supplied evidence that is not valid denies, and valid evidence never turns an allow into a deny |
| GateTheorems.BoundDigestNamesPaths | ao_kernel/ao_release_gate.py:1042-1044 | evidence bound by a digest of some path list names the pull request's own paths as a multiset |
| GateTheorems.ReviewEvidenceApprovesOneChange | ao_kernel/ao_release_gate.py:962-997 | two payloads allowed with the same review evidence have the same repository, head commit, slice and changed paths |
| GateTheorems.SupersessionApprovesOneChange | ao_kernel/ao_release_gate.py:1029-1045 | two payloads allowed with the same supersession evidence have the same repository, head commit and ref, digest and high-risk paths |
| GateTheorems.AllowedEvidenceIsYoung | ao_kernel/ao_release_gate.py:1114-1126 | when a change is allowed, its supersession evidence is not from the future and within its maximum age |
| GateTheorems.HighRiskIsReviewed | ao_kernel/ao_release_gate.py:688-721 | an allowed high-risk change was approved at its head commit by another person, or two different providers other than the implementer gave verdicts on that commit that do not dissent |
| GateTheorems.HighRiskIsAgreed | ao_kernel/ao_release_gate.py:688-721 | and when the supersession schema requires verdicts, both of these say AGREE |
| GateTheorems.SupersessionRaisesIff | ao_kernel/ao_release_gate.py:1129-1446 | exactly the evidence on which the evaluator raises instead of returning checks |
| GateTheorems.DecideRaisesIff | ao_kernel/ao_release_gate.py:1129-1770 | exactly the inputs on which the gate raises instead of deciding: that evidence, or a closed and accepted bundle with a provider id that a set cannot hold |
| GateTheorems.ListConsensusRaises | ao_kernel/ao_release_gate.py:1129-1446 | evidence with a list for a consensus status raises, whatever else is supplied |
| CheckSurfaces.DecisionIsMaxRank | ao_kernel/ao_release_gate.py:1773-1833 | the decision is that of the highest rank among the findings, by a table of ranks over the findings |
| CheckSurfaces.MaxRankIsMax | ao_kernel/ao_release_gate.py:1773-1833 | that rank is the maximum: reached by a finding and exceeded by none |
| CheckSurfaces.MoreFindingsRankHigher | ao_kernel/ao_release_gate.py:1773-1833 | more findings never lower the rank, and lists with the same findings have the same rank whatever their order and duplicates |
| CheckSurfaces.SurfacesPartition | ao_kernel/ao_release_gate.py:1903-2013 | the findings of the technical and of the review surface partition the list |
| CheckSurfaces.SurfacesAgree | ao_kernel/ao_release_gate.py:236-291 | in enforce mode legacy success, wrapper exit 0 and technical success coincide, and technical with review success coincide with allow |
| CheckSurfaces.SurfacesMean | ao_kernel/ao_release_gate.py:236-291 | the wrapper exits with 0 and the technical run succeeds exactly when all findings are of the three that call for a reviewer, the technical run is stale rather than failed exactly when the others are all a stale branch, and the review run asks for action exactly on those three |
| CheckSurfaces.JointConclusionIsWorse | ao_kernel/ao_release_gate.py:236-255 | the joint conclusion is the worse of the two surfaces under success, stale, action required, failure |
| CheckSurfaces.ShadowNeverFails | ao_kernel/ao_release_gate.py:1852-2013 | shadow mode never yields failure on any surface |
| ToolPolicy.FromDictMeans | ao_kernel/tool_gateway.py:68-153 | the parser accepts exactly the well-formed policies, every bound it returns is usable, and the empty document is the default policy |
| ToolPolicy.FromDictReads | ao_kernel/tool_gateway.py:68-153 | a parsed policy says what the document says field by field, with the defaults for absent keys only |
| GatewayModel.RunAllTracks | ao_kernel/tool_gateway.py:351-433 | over every tree of calls both counters equal the length of the executed history, and the bounded deque is its last entries |
| GatewayModel.RunCallCapped | ao_kernel/tool_gateway.py:351-433 | one call with all that its handler does stays within the cap |
| GatewayModel.RunAllCapped | ao_kernel/tool_gateway.py:387-433 | re-entrant calls to any depth run at most min(max rounds, max calls per request) handlers less the starting count |
| GatewayModel.GateMeans | ao_kernel/tool_gateway.py:297-413 | a call runs exactly when its tool is permitted by the policy, both caps leave room and it closes no cycle |
| GatewayModel.RunAllPermitted | ao_kernel/tool_gateway.py:297-433 | whatever is attempted, at any depth of re-entry, the tool of every call that ran is one the policy permits |
| GatewayModel.DeniedChangesNothing | ao_kernel/tool_gateway.py:351-413 | a call is denied exactly when some gate refuses it, and then the state is unchanged and nothing runs |
| GatewayModel.CycleDeniedIff | ao_kernel/tool_gateway.py:395-418 | past the earlier gates a call is denied for a cycle exactly when detection is on and the last N executed calls all have the text of this one: the tool, "|", the parameters |
| GatewayModel.CycleDeniedIffRepeated | ao_kernel/tool_gateway.py:395-418 | and for tool names without "|" exactly when the last N executed calls are all this tool with these parameters |
| GatewayModel.RefusedForTheFirstGround | ao_kernel/tool_gateway.py:297-418 | a call is refused for the first of ten grounds that applies, with the reason of that ground |
| GatewayModel.RanResultMeans | ao_kernel/tool_gateway.py:415-433 | a call that ran is an error exactly when its handler raised, and its round number counts the handlers it called for as well |
| GatewayModel.RunAllNoLongRun | ao_kernel/tool_gateway.py:395-418 | with detection on no history has N+1 equal consecutive entries, however handlers re-enter |
| GatewayModel.PlainCallsRunToTheCap | ao_kernel/tool_gateway.py:351-433 | on a fresh gateway with one table of tools, k permitted calls that do not re-enter, no two neighbours of the same tool and parameters joined, run exactly the first min(k, max rounds, max calls per request) of them |
| GatewayModel.DifferentCallsRunToTheCap | ao_kernel/tool_gateway.py:351-433 | so do k permitted calls of tools without "|" in their names whose neighbours differ in the tool or in the parameters |
| GatewayModel.FirstCallRuns | ao_kernel/tool_gateway.py:68-153 | every policy the parser accepts lets the first authorised call run |
| ToolGateway.Gateway.constructor | ao_kernel/tool_gateway.py:216-253 | a new gateway has no tools, no history and zero counters |
| ToolGateway.Gateway.Register | ao_kernel/tool_gateway.py:258-260 | registering replaces the tool of that name and leaves counters and history alone |
| ToolGateway.Gateway.Dispatch | ao_kernel/tool_gateway.py:351-433 | a dispatch ends, whatever its handler does, in the state and with the result of some tree of calls rooted in it; only permitted tools run in it, and the rounds left are the decreasing measure |
| ToolGateway.Gateway.ResetRounds | ao_kernel/tool_gateway.py:435-447 | a reset clears both counters and the bounded history and nothing else |
| ToolGateway.KernelClient.RegisterTool | ao_kernel/client.py:970-998 | the first registration makes the gateway, later ones keep it with its state |
| ToolGateway.KernelClient.CallTool | ao_kernel/client.py:1000-1022 | a client call is a dispatch on the gateway, or reports that there is none |
| ToolGateway.KernelClient.LlmCall | ao_kernel/client.py:528-530 | an LLM call starts from fresh counters and an empty history |
| ToolGateway.KernelClient.ResetToolGatewayState | ao_kernel/client.py:1024-1052 | the reset forgets counters and history and keeps the tools |
| ClientRuns.EveryRunIsAccounted | ao_kernel/client.py:970-1052 | in every state any interleaving of operations reaches, both counters are the handlers run since the last reset, within the cap, with the deque their suffix and no call three times in a row |
| ClientRuns.PlainCallsRunToTheCapOfFive | ao_kernel/client.py:970-1052 | from any reachable client, after an LLM call or a reset, calls of tools registered by then, with registrations between them and no call whose joined text is that of the one before, run exactly the first min(k, 5) of them |
| ClientRuns.DifferentCallsRunToTheCapOfFive | ao_kernel/client.py:970-1052 | so do calls of tools without "|" in their names that each differ from the one before in the tool or in the arguments |
| ClientRuns.DeniedCallsLeaveNoTrace | ao_kernel/client.py:1000-1022 | a denied call in a run is as if it had not been made |
| ClientRuns.ResetStartsAfresh | ao_kernel/client.py:1024-1052 | after a reset a run depends on the registered tools alone |
| RequiredChecks.GroupByName | scripts/ao_autonomous_pr_merge_executor.py:268-276 | the first loop files every report under its name in order, and lists the names without repetition |
| RequiredChecks.RequiredChecksPass | scripts/ao_autonomous_pr_merge_executor.py:268-317 | the second loop lists each name that does not pass once and no other, in the order in which the names first appear, and passes exactly when every name passes |
| RequiredChecks.VerdictMeans | scripts/ao_autonomous_pr_merge_executor.py:278-317 | no group fails exactly when every name has no failing report and either a passing one or only skipped ones |
| RequiredChecks.DigitsAreDecimal | scripts/ao_autonomous_pr_merge_executor.py:271-276 | the number in a made-up name is written in decimal digits without a leading zero |
| RequiredCheckOrder.VerdictIsFilling | scripts/ao_autonomous_pr_merge_executor.py:268-317 | the verdict passes exactly when the named reports are sound and each nameless one, in order, fits what the reports named like its made-up name leave open |
| RequiredCheckOrder.OrderMattersIff | scripts/ao_autonomous_pr_merge_executor.py:268-317 | for every list of reports, two orders of it have different verdicts exactly under a condition on counts that mentions no order |
| RequiredCheckOrder.VerdictIsOrderFree | scripts/ao_autonomous_pr_merge_executor.py:268-317 | when no report is named like a name that is made up for another, the verdict is a condition on the reports that mentions no order |
| RequiredCheckOrder.VerdictIgnoresOrder | scripts/ao_autonomous_pr_merge_executor.py:268-317 | so it is the same for every permutation of the reports |
| RequiredChecks.ClashMakesOrderMatter | scripts/ao_autonomous_pr_merge_executor.py:271-276 | with a report named like a made-up name two orders of the same three reports have different verdicts |
| MergeExecutor.Gh.Run | scripts/ao_autonomous_pr_merge_executor.py:44-61 | a command is answered in any way, and is appended to the trace |
| MergeExecutor.CollectLiveState | scripts/ao_autonomous_pr_merge_executor.py:170-265 | the reading phase issues four or five read commands and derives the state from their answers |
| MergeExecutor.SourcePinnedChecks | scripts/ao_autonomous_pr_merge_executor.py:320-352 | the loops pass exactly when each pinned name has a completed successful run of the Actions app; `MergeSafety.BothPinnedIs` spells that out |
| MergeExecutor.BuildResult | scripts/ao_autonomous_pr_merge_executor.py:355-534 | the evaluation collects exactly the blockers that hold, clears them on a merged pull request, and classifies the result; it raises exactly on an unhashable merge state |
| MergeExecutor.ExecuteMerge | scripts/ao_autonomous_pr_merge_executor.py:537-565 | one merge of the head commit, and a delete only after exit 0 and only of a safe head ref |
| MergeExecutor.RunExecutor | scripts/ao_autonomous_pr_merge_executor.py:588-648 | the program reads, evaluates, merges if ready and evaluates again; its exit code is 0 exactly on a successful last result |
| MergeSafety.BothPinnedIs | scripts/ao_autonomous_pr_merge_executor.py:320-352 | the pinned test holds exactly when `check_runs` lists, for "ao-release-gate-technical" and for "ao-release-gate-review", an object of that name with app id 15368, status "completed" and conclusion "success" |
| MergeSafety.MergesIffAllowed | scripts/ao_autonomous_pr_merge_executor.py:588-636 | over every behaviour of `gh` a run merges if and only if it was asked to with the literal confirmation and the answers it read satisfy one merge policy, field by field: actor and permission, pull request and merge state, required and pinned checks |
| MergeSafety.AtMostOneMerge | scripts/ao_autonomous_pr_merge_executor.py:588-616 | a run issues at most one merge |
| MergeSafety.MergeIsOfTheExaminedCommit | scripts/ao_autonomous_pr_merge_executor.py:245-251 | the command before a merge read the check runs of the very commit merged, the head of the pull request, and its answer lists a completed successful run of the Actions app under both pinned names |
| MergeGrounds.MergeCommands | scripts/ao_autonomous_pr_merge_executor.py:170-265 | a run that merges issues these commands and no others: user, repository, pull request, required checks, check runs of the head, merge of the head, and the deletion of the head branch exactly when the merge exited with 0 and the branch may go |
| MergeGrounds.BlockedIff | scripts/ao_autonomous_pr_merge_executor.py:355-456 | a pull request that is not merged yet is blocked for exactly the reasons that the answers give, each spelled out on their fields |
| MergeSafety.DeleteFollowsMerge | scripts/ao_autonomous_pr_merge_executor.py:142-149 | a branch is deleted only right after a merge with exit 0, and is the head branch: not the base, not a full ref |
| MergeSafety.MergedIffMergeSucceeded | scripts/ao_autonomous_pr_merge_executor.py:458-471 | the last result is merged, and a mutation is reported, if and only if a merge was issued and exited with 0 |
| MergeSafety.SecondEvaluationAddsOnlyFailure | scripts/ao_autonomous_pr_merge_executor.py:618-636 | the second evaluation has the blockers of the first and at most the failure of the merge |
| MergeSafety.ExecuteExitsZeroIffMerged | scripts/ao_autonomous_pr_merge_executor.py:648 | a requested run succeeds exactly when the pull request was merged already or the run merged it |
| MergeSafety.AttemptedMeans | scripts/ao_autonomous_pr_merge_executor.py:452-456 | exactly when a report says that a merge was attempted, including the one occasion without a merge |
| MergeGrounds.AttemptClaimedIff | scripts/ao_autonomous_pr_merge_executor.py:452-456 | on the answers: exactly when a merge was requested, nothing blocks and the state is OPEN |
| MergeSafety.AttemptedWithoutMerge | scripts/ao_autonomous_pr_merge_executor.py:452-456 | a concrete run on that occasion |
| Consensus.CollectChecks | ao_kernel/ai_review.py:363-378 | the loop normalises every reported check in order, and raises when one is malformed |
| Consensus.WriteRawReviews | ao_kernel/ai_review.py:489-515 | the loop makes one raw review per result, and raises when a result cannot become one |
| Consensus.PlayRounds | ao_kernel/ai_review.py:760-828 | the round loop plays rounds until one is unanimous or none is left |
| Consensus.RunConsensus | ao_kernel/ai_review.py:717-882 | the run computes the specified artifact, or raises |
| ConsensusLaws.RunKeeps | ao_kernel/ai_review.py:760-828 | a run that returns has consecutive rounds about one subject, each answered by the required providers in order and told of the dissent before it; agreement exactly when the last round is unanimous, none before it is, and without agreement all rounds are used |
| ConsensusLaws.FeedbackIsDissent | ao_kernel/ai_review.py:824-828 | the feedback is exactly the results that did not agree, in order |
| ConsensusLaws.RawReviewsMean | ao_kernel/ai_review.py:489-515 | raw reviews are written exactly when every result of the round can become one |
| ConsensusLaws.EvidenceIsOfTheUnanimousRound | ao_kernel/ai_review.py:838-882 | evidence exists exactly on agreement and is one gate-passing raw review per required provider, of the unanimous round |
| ConsensusLaws.AgreementIsStated | ao_kernel/ai_review.py:363-486 | on agreement each required provider answered the last request with an output that says AGREE, reports both required checks as passing and never as failing, and has no forbidden finding |
| ConsensusGrounds.ResultIffReadable | ao_kernel/ai_review.py:363-436 | an output becomes a result exactly when its verdict is one of the five words, its checks and findings are lists of well-formed entries, and its agent name holds no secret |
| ConsensusGrounds.AnotherRoundIff | ao_kernel/ai_review.py:760-828 | a round is followed by another exactly when one of the two reviewers did not say AGREE and rounds remain; the next is told just what the dissenting outputs say, in order; the run agrees exactly when both said AGREE in the last round |
| ConsensusGrounds.FitIffSaysAgree | ao_kernel/ai_review.py:438-486 | a readable output can be evidence exactly when it says AGREE, reports both required checks as passing and never as failing, and has no finding that starts with "FORBIDDEN:" |
| ConsensusGrounds.RecordsTellOutputs | ao_kernel/ai_review.py:443-515 | what an agreeing run writes for each reviewer states the subject of the run and what that reviewer's last output says |
| ConsensusGrounds.RunWasTested | ao_kernel/ai_review.py:760-838 | in a run that returns the refs were found in place before, within and after every round, and every request, the collection and the artifact were accepted |
| ConsensusGrounds.ReviewsWereTested | ao_kernel/ai_review.py:443-515 | and every written review was found to hold no secret and accepted by its schema |
| ConsensusGrounds.ReturnsIffGoesThrough | ao_kernel/ai_review.py:717-882 | past the tests of what the run makes itself, it returns if and only if it was asked for one to three rounds, a high-risk path changed, and the protocol goes through: a recursion on the providers' raw outputs alone |
| ReviewChain.ConsensusFeedsDryRun | ao_kernel/ai_review.py:920-957 | the files an agreeing consensus run writes, read back in any order and any number of times, give every required provider a verdict in a dry run of the same implementer, so that run never raises on a raw review |
| HighRiskDryRun.LastReviewCounts | ao_kernel/ai_review.py:1112-1121 | a provider's raw review is the last file that names it |
| HighRiskDryRun.CollectRawReviews | ao_kernel/ai_review.py:1112-1121 | the loop files the raw reviews by provider, and raises when one names none |
| HighRiskDryRun.CollectVerdicts | ao_kernel/ai_review.py:932-957 | the loop makes one verdict per required provider, in order, and raises when one has no usable review; `DryRunGrounds` says which are usable |
| HighRiskDryRun.RunHighRiskDryRun | ao_kernel/ai_review.py:1090-1193 | the run computes the artifact of the specification, or raises; `DryRunGrounds` says when |
| DryRunHead.HeadAgreesIff | ao_kernel/ai_review.py:1002 | payload and evidence name the same head if and only if the ref, without a leading "refs/heads/", is clean and holds no other one |
| DryRunEvidence.RecordSupersedes | ao_kernel/ai_review.py:958-985 | the supersession record is closed, agreed and names the quorum, the binding and the verdicts it was made from |
| DryRunEvidence.ValidMeans | ao_kernel/ao_release_gate.py:1129-1446 | the gate finds nothing wrong with that evidence but, perhaps, its age or its binding |
| DryRunEvidence.BindingMeans | ao_kernel/ao_release_gate.py:1029-1045 | the produced binding matches exactly when the repository is clean and both refs agree with the payload |
| DryRunEvidence.ReviewMeans | ao_kernel/ai_review.py:1043-1087 | the produced review evidence is accepted exactly when repository and work package are clean |
| DryRunLaws.DryRunPassesIff | ao_kernel/ai_review.py:1090-1156 | a run that returns is passed if and only if repository, base ref, allowlist, head ref, work package and age are in order, whatever the implementer, the reviews and the schemas |
| DryRunLaws.PreparedRunsAreDecided | ao_kernel/ai_review.py:1140-1156 | the gate never raises on what a run gives it |
| DryRunGrounds.VerdictsIffReviewed | ao_kernel/ai_review.py:932-957 | there are verdicts if and only if for every required provider the last file that names it is accepted by its schema, says AGREE, has its four flags false and lists findings |
| DryRunGrounds.ReturnedRunsAreGrounded | ao_kernel/ai_review.py:1090-1193 | a run that returns touches a high-risk path, has a head of 40 lowercase hexadecimal digits, rests on such a review of both reviewers of the implementer and records their verdicts, and what it made is accepted by its schemas |
| DryRunGrounds.ReturnsIffGrounded | ao_kernel/ai_review.py:1090-1193 | and past the schemas of what it makes itself, it returns if and only if it is so grounded |
| DryRunGrounds.ReturnedEvidenceStates | ao_kernel/ai_review.py:958-985 | the supersession evidence of a run that returns says, field by field, whose change it is, where it stands, which high-risk paths it has, who reviewed it and for how long that holds |
| EventOrder.CheckOrder | ao_kernel/real_adapter_workflow_smoke.py:380-399 | the single pass succeeds exactly when the expected kinds embed in the events; its positions are the leftmost embedding of as many kinds as embed |
| EventOrder.CheckEventOrder | ao_kernel/real_adapter_workflow_smoke.py:380-412 | the order check passes if and only if the five kinds embed, with strictly increasing recorded positions |
| EventOrder.EmbedsMeans | ao_kernel/real_adapter_workflow_smoke.py:380-412 | the five kinds embed exactly when step_started, policy_checked, adapter_invoked, step_completed and workflow_completed occur in this order |
| EventOrder.MissingMeans | ao_kernel/real_adapter_workflow_smoke.py:363-377 | the kinds reported missing are those of the five that do not occur |
| EventOrder.GreedyIsLeftmost | ao_kernel/real_adapter_workflow_smoke.py:394-399 | what is found greedily is no later than in any other embedding |
| EventOrder.OrderImpliesPresence | ao_kernel/real_adapter_workflow_smoke.py:363-377 | when the order check passes, the required-events check has nothing missing |
| EventOrder.PresenceDoesNotImplyOrder | ao_kernel/real_adapter_workflow_smoke.py:363-412 | the converse fails |
| TraceIds.ParseThenPrint | ao_kernel/tracing.py:113-128 | every text the validation accepts at a width is what its number prints to at that width |
| TraceIds.PrintThenParse | ao_kernel/tracing.py:296-315 | a number prints to an accepted text exactly when it is positive and fits the width, and then parses back to it |
| TraceIds.LinkToCurrentSpan | ao_kernel/tracing.py:321-350 | a link made from the 32 and 16 digits a span reports carries that span's ids |
| TraceIds.LinkedTexts | ao_kernel/tracing.py:113-128 | a link is made exactly from a text of 32 and a text of 16 lowercase hexadecimal digits, neither all zeros |
| TraceIds.ParseAppend | ao_kernel/tracing.py:321-350 | a text is read from the left, the most significant digit first |

## Left out

- Dumping a mapping to JSON is not modelled: the lens laws take the dumped text as any string that opens and closes with braces and in which no line starts with three backticks, which holds of every dump.
- The info string is lower-cased for ASCII letters only; no other character lower-cases to text that occurs in the two words it is compared with.
- JSON Schema contents: each schema is a parameter, the same one where a producer and its consumer use it. Only the acceptance profile of the review evidence is written out, because the gate's policy depends on it.
- The digest encodes its lines to UTF-8, which raises on a lone surrogate; a character here is never one.
- A raw review file is read back as the object that was written: its JSON text and the file system are not modelled.
- SHA-256 is a parameter, injective where a theorem says so; signatures are not modelled.
- Glob patterns with character classes: no pattern of the gate has one, and `Glob` has no case for them.
- NaN as a JSON number: numbers are exact.
- The PR-metadata diagnostic of the gate always passes, so the context fields it reports are not extracted.
- Messages, details, URLs and text rendering: no decision rests on them. The findings of a decision are modelled, their sentences are not.
- The warnings of a merge report are not modelled; the one that changes a blocker, that of the integration token, is.
- A `gh` command that runs into its time limit ends the program with an exception; the runs modelled are those in which every command returns.
- The proof that the environment runs with the repository's own Actions token is a parameter of the merge run.
- The arguments of the merge command other than the program name cannot be the administrator flag, so that blocker is a condition on the program name.
- Handlers of the gateway may dispatch to any depth and may raise, but do not register tools or reset the gateway that runs them; the policy of a gateway is not replaced after construction.
- The result of a handler and the redaction of its errors: only that it ran, and whether it raised.
- The parts of an LLM call after its reset: they do not touch the gateway.
- The payload a dry run makes is fixed by the decision it leads to; its fields are not listed one by one.
- The files written by the consensus run and the dry run: raw reviews written before a later one raises stay on disk, and the model only says that the run raises.
- Secret-pattern scanning is a parameter of the consensus run and is not modelled in the dry run, which does not scan.
- `run_collect`, the single-round form of the consensus run, adds nothing the round loop does not have.
- The webhook service, the live-adapter gate policies, the governance rules, the extension ratchet, and the other smoke checks: conjunctions or shallow branching whose properties their bodies state.
