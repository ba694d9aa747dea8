# Licence estimator core, in Dafny

This project models the pricing engine of a licence estimator for a cloud
security suite: the `calculateLicenses` function of `script.js`. The engine
reads eleven resource counts and three feature checkboxes (Posture, Runtime,
Application Security). It returns one of three things:

- a validation error;
- the explicit "no license required" answer;
- an ordered list of result lines: an optional explanation, a `---`
  separator, then Posture, Runtime and Application Security licence
  quantities.

The model is split into five modules:

- `Common` (`common.dfy`): `Option`, `Max`, clamped subtraction, and ceiling division.
- `Workload` (`workload.dfy`): the ratio table, the container-image
  allowance, and the posture and runtime workload scores. Every ratio is
  scaled by 100, so sums are exact integers in hundredths of a workload
  unit. `Math.ceil` becomes `CeilDiv(_, 100)`.
- `Validation` (`validation.dfy`): the three ordered feature checks.
- `Allocation` (`allocation.dfy`): the minimum order quantity (MOQ, 200).
  This covers the posture-only rule and the runtime rule, including the
  cost-optimising choice between "Posture absorbs the MOQ" (Plan A) and
  "Runtime absorbs the MOQ" (Plan B). Posture costs 1 per unit and Runtime
  costs 2.
- `Estimator` (`estimator.dfy`): the add-on quantity, result-line
  assembly, and the whole estimate.

`scenarios.dfy` holds worked examples on concrete inputs.

Besides the source's own claim that the chosen plan costs no more than the
rejected one, the model defines what an acceptable plan is. With Runtime
ticked, a plan is acceptable when:

- the runtime demand is covered on Runtime;
- the total demand is covered by both tracks together;
- if there is any demand, one track reaches the MOQ.

`Allocation.RuntimeAllocationIsCheapest` proves that the allocator's plan
costs no more than any acceptable plan. So comparing only Plan A and Plan B
loses nothing.

The source adds the billable container images to the posture sum
(script.js line 109). The model does the same. The guard around the quota
rule (`deployed > 0 && images > 0`) is modelled as written. It is proved
equal to `max(0, images - quota)`. The runtime guard
`runtime || (posture && runtime)` is also kept as written. It is equivalent
to `runtime`.

## Model

| member | source | states |
|---|---|---|
| Common.CeilDiv | script.js:117-118 | the result is the least natural whose multiple of the divisor covers the dividend (Math.ceil on an exact quotient) |
| Common.MinusClamped | script.js:98 | `Math.max(0, a - b)`: at least a - b, and either 0 or exactly a - b (also used at script.js lines 184 and 187) |
| Common.CeilDivMonotone | script.js:117-118 | rounding up preserves the order of the exact sums |
| Workload.WeightedSumMonotone | script.js:103-115 | raising the counts of the summed resources never lowers a weighted sum |
| Workload.WeightedSumFrame | script.js:103-115 | a weighted sum depends only on the counts of the resources it sums |
| Workload.RatioHundredths | script.js:49-60 | every ratio of the table is positive, at most one workload unit per resource, and of the form "N resources make one unit" with N dividing 100, so scaling by 100 is exact |
| Workload.DeployedHundredths | script.js:93 | deployed workloads are VMs not running containers + VMs running containers + CaaS containers / 10, and are 0 exactly when all three counts are 0 |
| Workload.ImageQuota | script.js:93-94 | ten free scans per deployed workload is an exact whole number, 10*(VMs not running containers + VMs running containers) + CaaS containers |
| Workload.BillableImages | script.js:95-99 | billable images never exceed the images entered; they are 0 when the images fit the quota, and images minus quota otherwise |
| Workload.BillableImagesClosedForm | script.js:97-99 | the guarded quota rule equals max(0, images - quota) on every input, including no deployed workloads or no images (a corollary of BillableImages' contract) |
| Workload.BillableImagesMonotone | script.js:93-99 | more images never lower the billable images; more VMs or CaaS containers never raise them |
| Workload.PostureHundredths | script.js:103-109 | the exact posture sum is buckets/10 + databases/2 + TB stored + SaaS users/10 + unmanaged assets/4 + billable images/10, and is 0 exactly when those counts are 0 and the images fit the allowance |
| Workload.RuntimeHundredths | script.js:111-115 | the exact runtime sum is both VM counts + CaaS containers/10 + serverless functions/25, with no image term, and is 0 exactly when those four counts are 0 |
| Workload.PostureScore | script.js:103-117 | the posture score is the ceiling of the whole exact posture sum (four posture resources, unmanaged assets, billable images), taken once; it is 0 exactly when that sum is 0 |
| Workload.RuntimeScore | script.js:111-118 | the runtime score is the ceiling of the whole exact runtime sum, taken once; it is 0 exactly when that sum is 0 |
| Workload.Normalise | script.js:103-118 | both scores cover their exact sums and exceed them by less than one unit |
| Workload.RuntimeScoreMonotone | script.js:111-118 | raising any counts never lowers the runtime score |
| Workload.PostureScoreMonotone | script.js:93-117 | the posture score rises with the posture resources, unmanaged assets and images, and falls as deployed workloads grow |
| Workload.RaiseOneRuntime | script.js:111-118 | increasing any single count never decreases the runtime score |
| Workload.RaiseOnePosture | script.js:93-117 | increasing a single count never decreases the posture score unless it is a VM or CaaS count, which can only decrease it |
| Workload.RuntimeScoreFrame | script.js:111-118 | the runtime score depends only on VMs, CaaS containers and serverless functions |
| Workload.RuntimeIgnoresImages | script.js:111-115 | changing container images or any posture resource leaves the runtime score unchanged |
| Workload.PostureIgnoresServerless | script.js:103-109 | serverless functions never influence the posture score |
| Validation.Validate | script.js:128-142 | no error exactly when a core track is ticked and developers > 0 implies Application Security; each error is characterised by its own condition, so the checks' order decides (an empty selection is NoFeatureChosen even with developers) |
| Allocation.Cost | script.js:178 | the weighted cost of a plan (also script.js line 189) is at least the number of units billed, and 0 only when nothing is billed |
| Allocation.CostWeights | script.js:178 | one more Posture unit adds 1 to the cost and one more Runtime unit adds 2 (the same weights at script.js line 189) |
| Allocation.PostureOnly | script.js:148-159 | Posture alone covers posture and runtime demand, bills no Runtime, reaches the MOQ when there is demand; the MOQ explanation with the effective workload appears exactly when 0 < p + r < 200 |
| Allocation.PostureOnlyIsLeast | script.js:150-159 | the posture-only licence is the least acceptable one: max(p + r, 200) when p + r > 0, else 0 |
| Allocation.PostureAbsorbs | script.js:176-178 | Plan A bills at least the MOQ and at least p on Posture, exactly one of them, and the raw runtime score |
| Allocation.RuntimeAbsorbs | script.js:181-189 | Plan B bills max(r, 200) on Runtime; posture is reduced by the excess but never below 0; the two together cover p + r, exactly unless posture is 0 |
| Allocation.RuntimeAllocation | script.js:161-209 | with Runtime ticked, the plan is acceptable; raw scores are billed when either reaches 200; both 0 gives (0, 0); an explanation appears exactly in the cost-optimisation branch |
| Allocation.CostOptimisationPicksCheaper | script.js:171-203 | below the MOQ the chosen plan's cost is no higher than the rejected plan's; ties pick Posture; the absorbing track bills exactly 200 |
| Allocation.PostureAbsorbsExactlyWhen | script.js:176-203 | in the cost-optimisation branch Posture absorbs the MOQ if and only if r <= 100 or r <= p |
| Allocation.RuntimeAllocationIsCheapest | script.js:161-209 | with Runtime ticked, the allocator's cost is at most that of every acceptable plan |
| Allocation.Allocate | script.js:144-210 | no core track gives (0, 0); Posture alone gives an acceptable posture-only plan; Runtime gives an acceptable runtime plan; no demand gives (0, 0) without explanation; an explanation only appears below the MOQ |
| Allocation.AllocateMeetsMoq | script.js:144-210 | with a core track ticked, the licences cover the total demand and some track reaches the MOQ when there is demand (a corollary of Allocate's contract, stated once for both branches) |
| Estimator.ApplicationQuantity | script.js:231-233 | the add-on quantity is the developer count floored at 5, i.e. max(developers, 5) |
| Estimator.AssembleLines | script.js:215-234 | lines come in the fixed order explanation, separator, posture, runtime, application; the list is empty exactly when there is no explanation, both quantities are 0 and there is no add-on |
| Estimator.AssembleLinesContents | script.js:215-234 | the explanation leads, followed by `---`; every licence line carries its allocated quantity and only a positive one; each positive quantity gets its line |
| Estimator.Estimate | script.js:88-242 | an error exactly when validation fails, and that error; a non-empty ordered line list otherwise, or "no license required" exactly when Application Security is not ticked and both scores are 0 |
| Estimator.ApplicationLineExactlyWhenTicked | script.js:230-234 | on an accepted selection, the add-on line appears exactly when Application Security is ticked, with max(developers, 5) |
| Estimator.CoreLinesExactlyWhenPositive | script.js:221-227 | on an accepted selection, a core line appears exactly when its allocated quantity is positive, and carries that quantity |
| Estimator.ExplanationLeadsTheLines | script.js:215-219 | an explanation is always the first line, followed by `---`, so it never comes with "no license required" |
| Scenarios.NothingEnteredNeedsNoLicence | script.js:238-239 | all counts 0 with Posture ticked gives "no license required" |
| Scenarios.SmallPostureRaisedToMoq | script.js:152-156 | 50 posture units with Posture alone give 200 with the MOQ explanation |
| Scenarios.TenAndTenPicksPlanA | script.js:175-197 | ten units on each track: Plan A costs 220 and Plan B 400, so Posture bills 200 and Runtime 10 |
| Scenarios.RuntimeHeavyPicksPlanB | script.js:181-202 | 50 posture and 150 runtime units: Runtime bills 200 and its spare 50 units cover posture entirely |
| Scenarios.TieFavoursPosture | script.js:193-197 | equal plan costs choose Posture absorbing the MOQ |
| Scenarios.ImageAllowance | script.js:93-100 | two VMs allow 20 free scans; 25 images bill 5, half a unit, rounded up to 1 |
| Scenarios.NothingTickedIsRefused | script.js:128-131 | no feature ticked is refused |
| Scenarios.AddOnAloneIsRefused | script.js:133-136 | Application Security without a core track is refused |
| Scenarios.DevelopersWithoutAddOnAreRefused | script.js:139-142 | developers without Application Security are refused |
| Scenarios.AddOnOnlyLine | script.js:221-234 | Posture and Application Security with no workload give only the add-on line, sized 8 for eight developers |

## Left out

- Tab switching (`openTab`), the page-load and submit listeners, and all reading and writing of the page: presentation plumbing outside the engine. The result is a datatype, not an HTML string.
- Input parsing with `parseInt(...) || 0`: counts are `nat`. `parseInt` can yield negative numbers, which the model's types exclude.
- Floating-point evaluation of the ratio products: the model uses exact arithmetic in hundredths. In the source, float rounding can push an exactly whole sum slightly above it, and `Math.ceil` then overshoots by one. That artefact is not reproduced.
- The exact wording of the error, explanation and line strings: errors are `ValidationError` tags, explanations are `Explanation` tags carrying the effective workload and the MOQ, and lines are `Line` values carrying their quantities.
- Historical alternative allocation policies and configurable ratio tables: the source has a single fixed table and a single policy, which is what is modelled.
