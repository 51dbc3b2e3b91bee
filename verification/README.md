# Quotas, terminal limits, metering reports and project roles

A Dafny 4.11 model of the parts of the Kubermatic dashboard API that carry logic of their own, with
proofs about it. `dafny verify dfyconfig.toml` verifies everything.

| file | what it models |
|---|---|
| `Quantities.dfy` | Kubernetes quantities: exact amount and format, printing, parsing, `TreatDecimalAsBinary` |
| `QuotaConversion.dfy` | conversion between stored quotas and the quotas of the REST interface |
| `SortedNames.dfy` | the order of `sort.Strings` and sorted key lists |
| `Accelerators.dfy` | accelerator totals, updated in place, their sorted layout, the limit check |
| `QuotaCalculation.dfy` | the preview of a quota after adding or replacing nodes |
| `QuotaAccumulation.dfy` | the accumulated quota of many projects |
| `QuotaUpdate.dfy` | PUT on a quota, its merge patch, overlapping PUTs, accelerator accounting |
| `TerminalConnections.dfy` | the limit on web terminal sessions as a class and as a transition system |
| `MeteringReports.dfy` | report configurations replicated over seeds, with failing writes |
| `ProjectRoles.dfy` | merging user and group bindings into the project list of a user |

Where the source changes state, the model has a class or a method with the same loop, proved equal to
a specification function; the properties are lemmas about those functions.

Choices that matter for reading the results:

- An amount is an integer number of nano-units, the precision of the Kubernetes type. A quantity keeps
  its format because `TreatDecimalAsBinary` decides by the printed text. Adding to a zero quantity takes
  over the other format, as the library does.
- Floating point numbers are exact reals; `%f` keeps six decimals, halves to even; `math.Round` takes
  halves away from zero. Parsing caps at the int64 number of units.
- A written quantity is a number with a suffix, or malformed. Decimal fractions in a text are left out.
- Iteration over a Go map is an arbitrary choice in the loop, or a parameter giving the order of a walk.
- Resource lists of accelerators are objects on the heap where the handlers pass them by reference
  (`ResourceMap`), so the methods say which lists they make, change and share.
- A store write is a parameter: it is stored, lost, or stored although the caller gets an error. The
  annotation of accelerator accounting is a fixed name and value of a library that is not part of this
  model.
- The server behind the quotas is a parameter: `admits` decides from the stored and the patched object,
  which covers an admission webhook (named at `modules/api/pkg/ee/resource-quota/handler.go:151` and in
  `modules/api/pkg/ee/resource-quota/handler_test.go:562-569`; the webhook is not part of this model), and
  `omitsEmptyLists` says whether an empty list is stored as no list. Whether sending `[]` over an absent
  list is a change at all depends on that encoding, which belongs to a stored type outside the repository.
- A PUT patches with the difference between the object it has read and the object it has built, without
  a version check (`modules/api/pkg/ee/resource-quota/provider.go:142-144`), so PUTs may overlap; both
  the one-after-the-other and the overlapping runs are modelled.

Results that go against what one might expect, each with its exact condition:

- Replacing nodes by equal nodes does not preview the current memory when their memory prints with M, G
  or T, because only the replaced side is normalised (`ReplacingByEqualNodes`, `ReplacingCanShift`). Only
  KubeVirt nodes can have such texts; the other extractors write Mi and Gi.
- A project at exactly its memory limit is reported as over it when the limit prints with M, G or T
  (`UsageEqualToLimitIsReportedIff`, `UsageEqualToLimitIsReported`). A PUT writes Gi, so such a limit has
  been stored in another way.
- The accumulated memory can depend on the order of the quotas, because the sum is normalised once more
  (`OrderIsInvisibleIff`, `OrderCanShow`); with mixed formats a sum that prints with G or T always does.
- The documented limit of open terminal sessions holds only without overlap and without the periodic
  release; otherwise the exact maximum is `(R + 1) * (max + N - 1)` (`BoundsAreReached`, `LimitHoldsIff`).
- Overlapping PUTs can enable accounting on a quota with limits, which the handler refuses, unless the
  server makes that check itself (`OverlapEnablesWithLimitsIff`, `CheckedActivationLeavesNoLimits`). The
  tests of the repository say that its webhook does, so behind that webhook it does not happen.
- Normalising keeps the order of two quantities only under a condition on their suffixes
  (`OrderIsKeptIff`, `NormalisingReordersQuantities`).
- The shown accelerators can depend on the order of the quotas, when one resource is written in different
  formats (`AcceleratorOrderIsInvisibleIff`, `AcceleratorOrderCanShow`).
- Deleting a report does not clear it everywhere when a seed has no report map (`DeleteClearsIff`,
  `DeleteCanMiss`).
- A project can be listed twice for a user (`OncePerProjectIff`, `ViewerAndEditor`).

## Model

| member | source | states |
|---|---|---|
| Quantities.Value | modules/api/pkg/api/v2/convert.go:35 | whole units, rounded away from zero by less than one unit |
| Quantities.PrintThenParseKeepsAmount | modules/api/pkg/api/v2/convert.go:61-149 | a printed quantity parses to the same amount, in every format |
| Quantities.CanonicalTextsAreFixed | modules/api/pkg/api/v2/convert.go:61-149 | a parsed text prints as itself iff it is canonical, canonical being said without printing |
| Quantities.TreatDecimalAsBinary | modules/api/pkg/api/v2/convert.go:165-191 | the suffix search over K, M, G, T computes the normalised quantity |
| Quantities.SuffixTable | modules/api/pkg/api/v2/convert.go:176-184 | no printed quantity has the suffix K; M, G and T stand for exactly one scale each |
| Quantities.NormalisedIsExactIff | modules/api/pkg/api/v2/convert.go:189 | the int64 product m * 1024^e is exact iff -2^(63-10e) <= m < 2^(63-10e) |
| Quantities.NormalisedGrowsBoundedly | modules/api/pkg/api/v2/convert.go:165-191 | without overflow normalising never shrinks and grows by at most (1024/1000)^4 |
| Quantities.MovedIff | modules/api/pkg/api/v2/convert.go:165-191 | exactly the amounts printed with M, G or T change, and move away from zero iff the product fits int64, for either sign |
| Quantities.DecimalPrint | modules/api/pkg/api/v2/convert.go:165-191 | only nonzero decimal quantities are ever moved |
| Quantities.NormalisedIsIdempotent | modules/api/pkg/api/v2/convert.go:165-191 | normalising twice is normalising once, overflow included |
| Quantities.NormalisedScales | modules/api/pkg/api/v2/convert.go:165-191 | without overflow the amount is multiplied by (1024/1000)^e, e given by the printed suffix |
| Quantities.OrderIsKeptIff | modules/api/pkg/api/v2/convert.go:165-191 | without overflow the order of two amounts is kept iff it holds for the amounts weighted by the factors of their suffixes |
| Quantities.LargerSuffixKeepsOrder | modules/api/pkg/api/v2/convert.go:165-191 | amounts that are not negative keep their order when the larger one has the larger or the same suffix |
| Quantities.NormalisingReordersQuantities | modules/api/pkg/api/v2/convert.go:165-191 | a witness that order can be lost: 1000M prints as 1G and overtakes 1001M |
| QuotaConversion.ConvertToAPIQuota | modules/api/pkg/api/v2/convert.go:30-73 | computes the interface form, absent and zero amounts absent, nil and empty lists apart |
| QuotaConversion.ConvertToCRDQuota | modules/api/pkg/api/v2/convert.go:112-161 | computes the stored form, or reports the provider of the first list that does not parse |
| QuotaConversion.ShownFields | modules/api/pkg/api/v2/convert.go:30-73 | each interface field from its own stored field: whole CPUs rounded away from zero, memory and storage the nearest hundredth of a GiB, accelerator texts under their provider and name |
| QuotaConversion.WrittenFields | modules/api/pkg/api/v2/convert.go:112-161 | each stored field from its own interface field: memory and storage to within half a millionth of a GiB, accelerators parsed in order |
| QuotaConversion.ConversionFailsIff | modules/api/pkg/api/v2/convert.go:143-147 | the conversion fails iff some quantity does not parse, and names the provider of the first entry that has one |
| QuotaConversion.WrittenGiBIsNear | modules/api/pkg/api/v2/convert.go:125-139 | writing any number of GiB gives the nearest storable amount to within half a millionth of a GiB |
| QuotaConversion.AmountSurvivesIff | modules/api/pkg/api/v2/convert.go:39-54 | a memory or storage amount survives the round trip iff it is a nonzero whole number of hundredths of a GiB up to the int64 cap |
| QuotaConversion.AcceleratorsSurviveIff | modules/api/pkg/api/v2/convert.go:56-70 | an accelerator list survives, in order, iff every quantity in it is canonical |
| QuotaConversion.ApiRoundTripIff | modules/api/pkg/api/v2/convert.go:30-161 | exactly which whole quotas come back unchanged from interface to resource to interface |
| QuotaConversion.TripMovesHalfAHundredthAtMost | modules/api/pkg/api/v2/convert.go:40-54 | the opposite trip moves an amount by at most 2^30/200 bytes from its normalised value |
| QuotaConversion.TripSettlesIff | modules/api/pkg/api/v2/convert.go:40-54 | a second trip changes nothing iff the normalised value is at least 2^30/200 bytes |
| SortedNames.AscendingIsUnique | modules/api/pkg/ee/resource-quota/handler.go:401 | a set of names has one sorted layout |
| SortedNames.BeforeByPosition | modules/api/pkg/ee/resource-quota/handler.go:401 | the order by positions: a proper prefix is smaller, otherwise the first different character decides |
| SortedNames.SortedKeys | modules/api/pkg/ee/resource-quota/handler.go:397-401 | collecting keys in any order and sorting them gives that layout |
| Accelerators.AcceleratorTotals.Add | modules/api/pkg/ee/resource-quota/handler.go:318-336 | the nested maps after adding a list in place; the list keeps its contents, the totals make their own resource lists and never take over one of the list |
| Accelerators.AcceleratorTotals.AddEntry | modules/api/pkg/ee/resource-quota/handler.go:319-334 | one entry: a missing provider gets a fresh resource list, then only lists of the totals change |
| Accelerators.AcceleratorTotals.Subtract | modules/api/pkg/ee/resource-quota/handler.go:338-359 | the nested maps after subtracting a list with clamping, in place; the list keeps its contents and no resource list is made or replaced |
| Accelerators.AcceleratorTotals.ToQuotas | modules/api/pkg/ee/resource-quota/handler.go:392-411 | nil for no totals, else the sorted layout, which shares its resource lists with the totals |
| Accelerators.AddedAmounts | modules/api/pkg/ee/resource-quota/handler.go:318-336 | adding a list adds every entry of a key and creates exactly the keys it mentions |
| Accelerators.SubtractedAmounts | modules/api/pkg/ee/resource-quota/handler.go:338-359 | clamping at every entry equals clamping once after the whole sum; keys stay as they are |
| Accelerators.AddThenSubtract | modules/api/pkg/ee/resource-quota/handler.go:318-359 | subtracting what was added restores the amounts, with 0 on the new keys |
| Accelerators.SumsIgnoreOrder | modules/api/pkg/ee/resource-quota/handler.go:318-336 | sums do not depend on the order of the list |
| Accelerators.DifferencesIgnoreOrder | modules/api/pkg/ee/resource-quota/handler.go:338-359 | clamped differences do not depend on the order of the list |
| Accelerators.LayoutIsUnique | modules/api/pkg/ee/resource-quota/handler.go:392-411 | providers strictly increasing and complete leave one possible list |
| Accelerators.LayoutRebuildsTotals | modules/api/pkg/ee/resource-quota/handler.go:318-411 | adding the layout into an empty map rebuilds the totals exactly |
| Accelerators.LayingOutAgain | modules/api/pkg/ee/resource-quota/handler.go:318-411 | adding up and laying out is idempotent |
| Accelerators.AcceleratorExceedsQuotaMessage | modules/api/pkg/ee/resource-quota/handler.go:364-390 | the lines in the order of limits and sorted resource names, against the last-wins index |
| Accelerators.LinesAreExact | modules/api/pkg/ee/resource-quota/handler.go:361-390 | a line is in the message iff it belongs to a configured limit below the indexed amount, missing counting 0 |
| Accelerators.NoLinesIff | modules/api/pkg/ee/resource-quota/handler.go:361-390 | no line iff every configured limit is at least the indexed amount |
| Accelerators.LinesInOrder | modules/api/pkg/ee/resource-quota/handler.go:370-388 | the lines come by the position of the limit and then by name, one at most for each |
| Accelerators.IndexOfLayout | modules/api/pkg/ee/resource-quota/handler.go:365-368 | the last-wins index loses nothing on a layout |
| Accelerators.IndexOfLaidOut | modules/api/pkg/ee/resource-quota/handler.go:392-411 | the list is nil iff there are no totals, and indexing it gives the totals |
| Accelerators.IndexIsSum | modules/api/pkg/ee/resource-quota/handler.go:365-368 | when no provider is listed twice the last-wins index is the sum of the list |
| Accelerators.LastEntryDecides | modules/api/pkg/ee/resource-quota/handler.go:365-368 | in any list the last entry of a provider decides, and the index counts the whole demand iff the earlier entries ask for nothing in sum |
| Accelerators.RepeatedProviderIsMissed | modules/api/pkg/ee/resource-quota/handler.go:365-368 | a witness: with a provider listed twice an exceeded limit is missed |
| QuotaCalculation.MapProviderNodeTmplToResourceDetails | modules/api/pkg/ee/resource-quota/handler.go:561-585 | the replica loop multiplies every resource into a resource list made here; no accelerator list when there is nothing in it |
| QuotaCalculation.ReplicatedDemand | modules/api/pkg/ee/resource-quota/handler.go:561-585 | replicated accelerators are replicas times one node, for KubeVirt only |
| QuotaCalculation.CalculateResourceQuotaUpdate | modules/api/pkg/ee/resource-quota/handler.go:413-497 | the handler computes the answer, fails iff a template is rejected, and changes neither limits nor usage |
| QuotaCalculation.PlainAnswer | modules/api/pkg/ee/resource-quota/handler.go:441-495 | in numbers, for a whole request: a CPU, memory or storage line is in the answer iff its total exceeds its own limit, and the answer shows these totals |
| QuotaCalculation.AcceleratorAnswer | modules/api/pkg/ee/resource-quota/handler.go:451-495 | an accelerator limit has a line iff the total of the request exceeds it, no other line is there, and the answer shows the sorted totals, nil iff nobody asks for any |
| QuotaCalculation.AnswerInOrder | modules/api/pkg/ee/resource-quota/handler.go:476-490 | CPU, memory and storage come first in this order, once at most, then the accelerator lines in order |
| QuotaCalculation.CalculatedPlainAmounts | modules/api/pkg/ee/resource-quota/handler.go:441-474 | CPU, memory and storage totals in numbers, for any replica counts, with or without replaced nodes, unclamped, with what is normalised and what is not |
| QuotaCalculation.CalculatedAmount | modules/api/pkg/ee/resource-quota/handler.go:451-474 | accelerator total of a key is max(0, new + usage - replaced), present iff new or usage has the key |
| QuotaCalculation.RequestedAmount | modules/api/pkg/ee/resource-quota/handler.go:413-474 | for a whole request the total is max(0, replicas * node + usage - replaced replicas * replaced node) |
| QuotaCalculation.NoAcceleratorLineIff | modules/api/pkg/ee/resource-quota/handler.go:361-490 | no accelerator line iff every configured limit is at least that total |
| QuotaCalculation.PlainLinesIff | modules/api/pkg/ee/resource-quota/handler.go:476-489 | a CPU, memory or storage line is in the message iff the total exceeds its configured limit |
| QuotaCalculation.MoreReplicasKeepReports | modules/api/pkg/ee/resource-quota/handler.go:441-490 | CPU, memory and storage reports stay at every larger replica count |
| QuotaCalculation.MoreReplicasKeepAcceleratorReports | modules/api/pkg/ee/resource-quota/handler.go:361-490 | so do accelerator reports, with an amount at least as large |
| QuotaCalculation.ReplacingByEqualNodes | modules/api/pkg/ee/resource-quota/handler.go:441-474 | replacing by equal nodes previews the usage, for memory and storage iff the replicated amount is not printed with M, G or T |
| QuotaCalculation.ReplacingCanShift | modules/api/pkg/ee/resource-quota/handler.go:694-713 | a node with 64G of memory replaced by its equal: 128Gi in use become 64G and 64Gi |
| QuotaCalculation.UsageEqualToLimitIsReportedIff | modules/api/pkg/ee/resource-quota/handler.go:445-484 | usage equal to the memory limit is reported iff the limit prints with M, G or T and normalising raises it |
| QuotaCalculation.UsageEqualToLimitIsReported | modules/api/pkg/ee/resource-quota/handler.go:445-484 | a stored limit of 64G: usage of 64G is reported as 64Gi over 64G |
| QuotaAccumulation.AccumulateQuotas | modules/api/pkg/ee/resource-quota/handler.go:276-316 | the accumulated limits and usage, in the form of the interface, of quotas that are only read |
| QuotaAccumulation.AccumulatedFields | modules/api/pkg/ee/resource-quota/handler.go:286-311 | every field of the accumulated details is the sum of that field over the quotas, memory and storage normalised first |
| QuotaAccumulation.AccumulatedAnswer | modules/api/pkg/ee/resource-quota/handler.go:310-316 | the answer shows the whole CPUs of the CPU sum, and memory and storage as the laws on their order speak about |
| QuotaAccumulation.SumQuotas | modules/api/pkg/ee/resource-quota/handler.go:282-306 | the loop gives the sums and totals of limits and usage; their resource lists are fresh, and the two sides share none |
| QuotaAccumulation.AccumulationIsAdditive | modules/api/pkg/ee/resource-quota/handler.go:276-316 | amounts of a concatenation are the sums of the parts, accelerators included |
| QuotaAccumulation.CpuAndAcceleratorsIgnoreOrder | modules/api/pkg/ee/resource-quota/handler.go:276-316 | shown CPU, accelerator amounts and the provider order are the same for every permutation |
| QuotaAccumulation.AcceleratorOrderIsInvisibleIff | modules/api/pkg/ee/resource-quota/handler.go:276-411 | the shown accelerator texts are the same for every permutation iff every sum is zero, or the first formats of all quotas that ask for it print it in the same way, or each prints a bare number |
| Quantities.OneTextIff | modules/api/pkg/api/v2/convert.go:61 | two formats print an amount alike iff it is zero, the same way of printing is used, or 1000 resp. 1024 does not divide the whole number |
| QuotaAccumulation.AcceleratorOrderCanShow | modules/api/pkg/ee/resource-quota/handler.go:276-411 | 1000 decimal and 24 binary pieces of one resource are shown differently in the two orders |
| QuotaAccumulation.BinaryTotalsIgnoreOrder | modules/api/pkg/ee/resource-quota/handler.go:276-316 | shown memory and storage are the same for every permutation when no decimal amount is left |
| QuotaAccumulation.OrderIsInvisibleIff | modules/api/pkg/ee/resource-quota/handler.go:276-316 | every order shows the same iff decimal and other amounts are not mixed, or the sum as a decimal prints without M, G and T, or with M and a number that rounds alike in mebibytes and megabytes |
| QuotaAccumulation.ShowsAlikeIff | modules/api/pkg/api/v2/convert.go:39-54 | that condition on the number says exactly when an amount is shown alike as a decimal and as a binary quantity |
| QuotaAccumulation.OrderCanShow | modules/api/pkg/ee/resource-quota/handler.go:276-316 | two quotas shown as 1024 GiB in one order and 931.32 GiB in the other |
| QuotaUpdate.QuotaStore.PutResourceQuota | modules/api/pkg/ee/resource-quota/handler.go:914-953 | which error comes when, for every server and outcome; a changed store holds each field of the request in its own place, sent limits or the old ones, no default label |
| QuotaUpdate.PatchedHoldsBody | modules/api/pkg/ee/resource-quota/handler.go:927-953 | the patched quota field by field from the request |
| QuotaUpdate.RefusedWith | modules/api/pkg/ee/resource-quota/handler.go:932-989 | exactly when each refusal comes, in the order of the checks |
| QuotaUpdate.ApplyAcceleratorAccounting | modules/api/pkg/ee/resource-quota/handler.go:959-991 | when each error comes, labels and quota untouched, other annotations kept, accounting on afterwards iff asked for or on before |
| QuotaUpdate.TargetSucceedsIff | modules/api/pkg/ee/resource-quota/handler.go:914-991 | exactly which PUTs are not refused by the handler |
| QuotaUpdate.ApplyDiff | modules/api/pkg/ee/resource-quota/provider.go:142-144 | patching the object that was read, by what differs in writing, gives an object written like the new one |
| QuotaUpdate.PatchOfTarget | modules/api/pkg/ee/resource-quota/handler.go:914-991 | what a PUT's patch can contain: drop the label, set the annotation, keep limits that were not sent |
| QuotaUpdate.PatchedAmounts | modules/api/pkg/ee/resource-quota/provider.go:142-144 | CPU, memory or storage is patched iff the request writes it in another way than the object that was read |
| QuotaUpdate.OnePut | modules/api/pkg/ee/resource-quota/handler.go:914-1001 | one PUT never disables, never labels, enables only unlabelled and without limits, whatever becomes of its patch |
| QuotaUpdate.AccountingStaysEnabled | modules/api/pkg/ee/resource-quota/handler.go:959-991 | over every sequence of PUTs accounting stays enabled |
| QuotaUpdate.EnablingPutLeavesNoLimits | modules/api/pkg/ee/resource-quota/handler.go:977-989 | every run that enables accounting has a PUT that does, on an unlabelled quota, leaving no limits |
| QuotaUpdate.OmittingAcceleratorsKeepsLimits | modules/api/pkg/ee/resource-quota/handler.go:936-940 | PUTs without accelerators never change the limits |
| QuotaUpdate.UninterruptedPut | modules/api/pkg/ee/resource-quota/handler.go:914-953 | a read followed at once by its write is the PUT |
| QuotaUpdate.OneWrite | modules/api/pkg/ee/resource-quota/handler.go:914-991 | one step of overlapping PUTs changes the quota only as a patch that reaches the store, never disables, never labels, and enables only for a PUT that read an unlabelled quota |
| QuotaUpdate.AccountingSurvivesInterleaving | modules/api/pkg/ee/resource-quota/handler.go:914-991 | accounting stays enabled over every interleaving of PUTs |
| QuotaUpdate.OmissionSurvivesInterleaving | modules/api/pkg/ee/resource-quota/handler.go:936-940 | PUTs without accelerators keep the limits even when they overlap |
| QuotaUpdate.EnablingNeedsEarlierUpdate | modules/api/pkg/ee/resource-quota/handler.go:927-979 | from a labelled quota, every run that enables accounting contains an earlier patch that reached the store, removed the label and left accounting off, over every interleaving |
| QuotaUpdate.EnablingWriteLeavesNoLimitsIff | modules/api/pkg/ee/resource-quota/handler.go:977-989 | an enabling write leaves no limits iff there were none, or the request sends an empty list and its PUT read something that is not written like an empty list |
| QuotaUpdate.UnchangedLimitsAreEmpty | modules/api/pkg/ee/resource-quota/handler.go:977-989 | over every interleaving, an enabling write leaves no limits when the limits are what they were at its read |
| QuotaUpdate.SwitchingStep | modules/api/pkg/ee/resource-quota/handler.go:977-989 | over every interleaving, a run that enables accounting has a step that switches it on |
| QuotaUpdate.CheckedActivationLeavesNoLimits | modules/api/pkg/ee/resource-quota/handler_test.go:562-569 | its corollary: behind a server that refuses activation with limits, no limits are left after that step |
| QuotaUpdate.OverlapEnablesWithLimitsIff | modules/api/pkg/ee/resource-quota/handler.go:914-953 | an interleaving ends with accounting on and limits set iff the server admits its two writes, the second being an activation with limits |
| TerminalConnections.Connections.IncreaseActiveConnections | modules/api/pkg/handler/routes_v1_websocket.go:174-182 | one key goes up by one, all others stay |
| TerminalConnections.Connections.DecreaseActiveConnections | modules/api/pkg/handler/routes_v1_websocket.go:184-194 | one key goes down by one but not below zero, a missing key is created |
| TerminalConnections.Connections.ReleaseMemory | modules/api/pkg/handler/routes_v1_websocket.go:196-202 | deleting key by key empties the map |
| TerminalConnections.Terminal.CheckLimit | modules/api/pkg/handler/routes_v1_websocket.go:304-310 | admitted iff the counter is below the limit; a step of the transition system |
| TerminalConnections.Terminal.OpenSession | modules/api/pkg/handler/routes_v1_websocket.go:311 | the increase step |
| TerminalConnections.Terminal.CloseSession | modules/api/pkg/handler/routes_v1_websocket.go:312 | the deferred decrease step |
| TerminalConnections.Terminal.Clean | modules/api/pkg/handler/routes_v1_websocket.go:208-213 | the release step |
| TerminalConnections.CounterNeverOverstates | modules/api/pkg/handler/routes_v1_websocket.go:166-213 | in every reachable state 0 <= counter <= sessions really open |
| TerminalConnections.CounterIsExactWithoutRelease | modules/api/pkg/handler/routes_v1_websocket.go:166-194 | without a release the counter is the number of open sessions |
| TerminalConnections.RefusalMeansFull | modules/api/pkg/handler/routes_v1_websocket.go:306-310 | a refusal implies at least max open sessions |
| TerminalConnections.OpenSessionsAreBounded | modules/api/pkg/handler/routes_v1_websocket.go:166-312 | with N in between and R releases: counter at most max+N-1, open at most (R+1)*(max+N-1) |
| TerminalConnections.BoundsAreReached | modules/api/pkg/handler/routes_v1_websocket.go:166-312 | for every limit, N and R some run reaches both bounds |
| TerminalConnections.LimitHoldsIff | modules/api/pkg/handler/routes_v1_websocket.go:304-312 | the configured limit is a limit iff N = 1 and R = 0 |
| MeteringReports.ValidateCreate | modules/api/pkg/ee/metering/report_config_handler.go:80-113 | accepts exactly the valid create requests |
| MeteringReports.ValidateUpdate | modules/api/pkg/ee/metering/report_config_handler.go:130-167 | accepts exactly the valid update requests |
| MeteringReports.SeedStore.CreateOnSeed | modules/api/pkg/ee/metering/report_config_handler.go:372-422 | create on one seed: refusal, write, or failed write |
| MeteringReports.SeedStore.UpdateOnSeed | modules/api/pkg/ee/metering/report_config_handler.go:424-470 | partial merge on one seed |
| MeteringReports.SeedStore.DeleteOnSeed | modules/api/pkg/ee/metering/report_config_handler.go:472-488 | delete on one seed; a missing entry is no error |
| MeteringReports.SeedStore.CreateMeteringReportConfiguration | modules/api/pkg/ee/metering/report_config_handler.go:297-322 | the loop over seeds in any order, with the configuration it answers |
| MeteringReports.SeedStore.UpdateMeteringReportConfiguration | modules/api/pkg/ee/metering/report_config_handler.go:324-349 | the same for update, answering what the last seed holds |
| MeteringReports.SeedStore.DeleteMeteringReportConfiguration | modules/api/pkg/ee/metering/report_config_handler.go:351-370 | the same for delete |
| MeteringReports.SeedStore.GetMeteringReportConfiguration | modules/api/pkg/ee/metering/report_config_handler.go:227-260 | the entry of the first seed in the walk that has it |
| MeteringReports.SeedStore.ListMeteringReportConfigurations | modules/api/pkg/ee/metering/report_config_handler.go:264-294 | every entry of the first seed with metering, once |
| MeteringReports.RequestStops | modules/api/pkg/ee/metering/report_config_handler.go:297-370 | a request has edited a prefix of the walk, may have edited the next seed, and touched no other |
| MeteringReports.SucceedsIff | modules/api/pkg/ee/metering/report_config_handler.go:297-488 | success iff no seed refuses and every write is stored |
| MeteringReports.CreateSucceedsIff | modules/api/pkg/ee/metering/report_config_handler.go:297-422 | a create succeeds iff every seed has metering, with or without a map, does not hold the name, and stores the write |
| MeteringReports.CreateLeaves | modules/api/pkg/ee/metering/report_config_handler.go:372-422 | after it every seed holds the report with the four fields of the request, both types by default, and its other reports |
| MeteringReports.CreateStopsWith | modules/api/pkg/ee/metering/report_config_handler.go:374-410 | the first seed that does not let it through decides between no metering, already there and a failed write |
| MeteringReports.UpdateSucceedsIff | modules/api/pkg/ee/metering/report_config_handler.go:324-470 | an update succeeds iff every seed has a map that holds the name and stores the write |
| MeteringReports.UpdateLeaves | modules/api/pkg/ee/metering/report_config_handler.go:424-470 | after it every seed holds the report with what was sent over what was there, without retention unless sent |
| MeteringReports.UpdateStopsWith | modules/api/pkg/ee/metering/report_config_handler.go:426-460 | the first seed that does not let it through decides between no map, not found and a failed write |
| MeteringReports.DeleteSucceedsIff | modules/api/pkg/ee/metering/report_config_handler.go:351-488 | a delete succeeds iff every seed has a map and stores the write where it holds the name |
| MeteringReports.DeleteLeaves | modules/api/pkg/ee/metering/report_config_handler.go:472-488 | after it every seed is without the report and has its other reports |
| MeteringReports.DeleteStopsWith | modules/api/pkg/ee/metering/report_config_handler.go:472-488 | the first seed that does not let it through decides between no map and a failed write |
| MeteringReports.OldOrIntended | modules/api/pkg/ee/metering/report_config_handler.go:297-488 | after any failure each seed holds its old or its intended value |
| MeteringReports.OnlyTheNamedEntry | modules/api/pkg/ee/metering/report_config_handler.go:372-488 | only the named entry can differ, on any seed |
| MeteringReports.SuccessKeepsAgreement | modules/api/pkg/ee/metering/report_config_handler.go:297-370 | a successful request keeps agreeing replicas equal, in every order, with exactly the named entry created, updated or deleted |
| MeteringReports.DeleteRecovers | modules/api/pkg/ee/metering/report_config_handler.go:351-488 | one delete with stored writes makes replicas agree again after any request |
| MeteringReports.DeleteClearsIff | modules/api/pkg/ee/metering/report_config_handler.go:472-483 | a delete clears the entry in every order iff every seed has a map or none has the entry |
| MeteringReports.DeleteCanMiss | modules/api/pkg/ee/metering/report_config_handler.go:472-483 | two seeds, the first without a map: the delete fails and leaves the entry on the second |
| MeteringReports.GetMatchesList | modules/api/pkg/ee/metering/report_config_handler.go:227-294 | while replicas agree Get and List say the same in any orders |
| MeteringReports.GetIgnoresOrderIff | modules/api/pkg/ee/metering/report_config_handler.go:243-257 | Get is independent of the order iff the seeds that hold the entry hold it alike |
| MeteringReports.GetIsFirst | modules/api/pkg/ee/metering/report_config_handler.go:243-257 | Get answers with the first seed of the walk that has the entry, or with nothing |
| MeteringReports.ListIsFirst | modules/api/pkg/ee/metering/report_config_handler.go:264-294 | List answers with the first seed of the walk that has metering, or with nothing |
| MeteringReports.GetCanDependOnOrder | modules/api/pkg/ee/metering/report_config_handler.go:243-257 | two seeds with different configurations answer differently in the two orders |
| MeteringReports.ConversionIsLossless | modules/api/pkg/ee/metering/report_config_handler.go:393-446 | for accepted requests int32 to uint32 keeps interval and retention |
| MeteringReports.StoredConfigsStayWellFormed | modules/api/pkg/ee/metering/report_config_handler.go:80-457 | over every run of requests stored configurations have valid interval, retention, types, schedule and name |
| ProjectRoles.ExtractGroupPrefix | modules/api/pkg/api/v1/types.go:659-665 | the loop finds the prefix |
| ProjectRoles.PrefixEndsAtFirstDash | modules/api/pkg/api/v1/types.go:659-665 | the prefix has no dash and ends at the first dash or the end |
| ProjectRoles.ConvertInternalUserToExternal | modules/api/pkg/api/v1/types.go:628-653 | the two loops compute the merged project list |
| ProjectRoles.BestRoleIsKept | modules/api/pkg/api/v1/types.go:628-653 | the best role per project is the best over all bindings; no project is lost or invented |
| ProjectRoles.BestRoleByName | modules/api/pkg/api/v1/types.go:588-653 | by role name: of owners, projectmanagers, editors and viewers the highest that any binding gives for a project is listed, and no role is invented |
| ProjectRoles.PriorityIsRank | modules/api/pkg/api/v1/types.go:588-593 | the numbers of the table order the roles as owners, projectmanagers, editors, viewers, any other |
| ProjectRoles.UserEntriesComeFirst | modules/api/pkg/api/v1/types.go:628-653 | the list is one entry for each user binding in order, then group bindings in order, some left out |
| ProjectRoles.BestRoleIgnoresGroupOrder | modules/api/pkg/api/v1/types.go:634-653 | best role and listed projects do not depend on the order of group bindings |
| ProjectRoles.FirstEntryIsFirstBinding | modules/api/pkg/api/v1/types.go:634-653 | the entry later bindings are compared with is always the first binding |
| ProjectRoles.OncePerProjectIff | modules/api/pkg/api/v1/types.go:634-653 | one entry per project iff user bindings are for different projects and no group binding outranks the first binding |
| ProjectRoles.ViewerAndEditor | modules/api/pkg/api/v1/types.go:634-653 | a viewer whose group edits the project is listed twice |

## Left out

- The pointer inside a quantity that does not fit an int64: quantities are copied as values, so copying a single quantity deeply makes no difference here.
- References in the conversions, in PUT and in the comparison with the limits, which read or copy whole lists: there a resource list is a value.
- Quantities beyond the int64 number of units: the model adds without bounds and `Value` does not overflow.
- Rounding of floating point numbers: memory and storage of the interface are exact reals.
- Quantity texts with a decimal point, and exponents that are no multiple of three.
- The strings of messages: a line is a tag with its two quantities.
- The per-provider extractors of node resources: one node is an abstract vector, or rejected.
- Access control, project lookup, caches and the Kubernetes client: a store is a map whose writes may fail.
- Whether an empty report map is stored as absent: the store keeps what is written, and nil counts as empty where reports are compared.
- Errors of reading a quota other than not finding it.
- The format that a stored quantity takes when the server reads its text back: patches compare texts, but store the quantity as it is.
- Changes to a quota by other controllers between PUTs.
- Creating, listing and deleting quotas, and the accounting status shown with a quota: single branches or field copies.
- The terminal handler besides check, increase and decrease: authentication, cluster lookup, waiting for the secret and the websocket itself.
- Cron parsing and name checks: predicates given as parameters.
- The user fields besides projects in the role merge: copied one by one.
