/**
 The workload normaliser: the ratio table, the container-image allowance and
 the two workload scores (posture and runtime) that the licence allocator
 consumes.

 Every ratio of the table is a fraction with denominator 1, 2, 4, 10 or 25,
 so all sums are kept exactly in hundredths of a workload unit and the final
 `Math.ceil` becomes a ceiling division by `Scale`.
 */
module Workload {
  import opened Common

  /** The ten resource kinds that carry a conversion ratio. */
  datatype Resource =
    | VmsNotRunningContainers
    | VmsRunningContainers
    | CaasManagedContainers
    | ServerlessFunctions
    | ContainerImages
    | CloudBuckets
    | ManagedCloudDatabase
    | DbaasTbStored
    | SaasUsers
    | UnmanagedAssets

  /** The eleven counts entered by the user; `developers` sizes the add-on and has no ratio. */
  datatype Counts = Counts(
    vmsNotRunningContainers: nat,
    vmsRunningContainers: nat,
    caasManagedContainers: nat,
    serverlessFunctions: nat,
    containerImages: nat,
    cloudBuckets: nat,
    managedCloudDatabase: nat,
    dbaasTbStored: nat,
    saasUsers: nat,
    developers: nat,
    unmanagedAssets: nat)

  /** The count entered for one resource kind. */
  function Count(c: Counts, k: Resource): nat
  {
    match k
    case VmsNotRunningContainers => c.vmsNotRunningContainers
    case VmsRunningContainers => c.vmsRunningContainers
    case CaasManagedContainers => c.caasManagedContainers
    case ServerlessFunctions => c.serverlessFunctions
    case ContainerImages => c.containerImages
    case CloudBuckets => c.cloudBuckets
    case ManagedCloudDatabase => c.managedCloudDatabase
    case DbaasTbStored => c.dbaasTbStored
    case SaasUsers => c.saasUsers
    case UnmanagedAssets => c.unmanagedAssets
  }

  /** The counts with the one for `k` replaced by `n`, all others untouched. */
  function With(c: Counts, k: Resource, n: nat): (c': Counts)
    ensures Count(c', k) == n
    ensures forall j :: j != k ==> Count(c', j) == Count(c, j)
    ensures c'.developers == c.developers
  {
    match k
    case VmsNotRunningContainers => c.(vmsNotRunningContainers := n)
    case VmsRunningContainers => c.(vmsRunningContainers := n)
    case CaasManagedContainers => c.(caasManagedContainers := n)
    case ServerlessFunctions => c.(serverlessFunctions := n)
    case ContainerImages => c.(containerImages := n)
    case CloudBuckets => c.(cloudBuckets := n)
    case ManagedCloudDatabase => c.(managedCloudDatabase := n)
    case DbaasTbStored => c.(dbaasTbStored := n)
    case SaasUsers => c.(saasUsers := n)
    case UnmanagedAssets => c.(unmanagedAssets := n)
  }

  /** Hundredths of a workload unit per whole workload unit. */
  const Scale: nat := 100

  /** Free container-image scans granted per deployed workload. */
  const FreeScansPerWorkload: nat := 10

  /**
   The ratio table, in hundredths of a workload unit per resource. Every
   ratio is positive and of the form "N resources make one workload unit",
   with N a divisor of `Scale`, so the scaling loses nothing.
   */
  function RatioHundredths(k: Resource): (r: nat)
    ensures 0 < r <= Scale
    ensures Scale % r == 0
  {
    match k
    case VmsNotRunningContainers => 100  // 1
    case VmsRunningContainers => 100     // 1
    case CaasManagedContainers => 10     // 1/10
    case ServerlessFunctions => 4        // 1/25
    case CloudBuckets => 10              // 1/10
    case ManagedCloudDatabase => 50      // 1/2
    case DbaasTbStored => 100            // 1
    case SaasUsers => 10                 // 1/10
    case ContainerImages => 10           // 1/10
    case UnmanagedAssets => 25           // 1/4
  }

  /** Resources summed directly into the posture workload (the image and unmanaged terms are added separately). */
  const PostureResources: seq<Resource> := [CloudBuckets, ManagedCloudDatabase, DbaasTbStored, SaasUsers]

  /** Resources summed into the runtime workload. */
  const RuntimeResources: seq<Resource> := [VmsNotRunningContainers, VmsRunningContainers, CaasManagedContainers, ServerlessFunctions]

  /** Resources that count as deployed workloads for the container-image allowance. */
  const DeployedResources: seq<Resource> := [VmsNotRunningContainers, VmsRunningContainers, CaasManagedContainers]

  /** Sum of count times ratio over `ks`, in hundredths of a workload unit. */
  function WeightedSum(ks: seq<Resource>, c: Counts): nat
  {
    if |ks| == 0 then 0
    else Count(c, ks[0]) * RatioHundredths(ks[0]) + WeightedSum(ks[1..], c)
  }

  /** Raising counts of the summed resources never lowers a weighted sum. */
  lemma {:induction false} WeightedSumMonotone(ks: seq<Resource>, c: Counts, c': Counts)
    requires forall i :: 0 <= i < |ks| ==> Count(c, ks[i]) <= Count(c', ks[i])
    ensures WeightedSum(ks, c) <= WeightedSum(ks, c')
  {
    if |ks| > 0 {
      MulMonotone(Count(c, ks[0]), Count(c', ks[0]), RatioHundredths(ks[0]));
      WeightedSumMonotone(ks[1..], c, c');
    }
  }

  /** A weighted sum depends only on the counts of the resources it sums. */
  lemma {:induction false} WeightedSumFrame(ks: seq<Resource>, c: Counts, c': Counts)
    requires forall i :: 0 <= i < |ks| ==> Count(c, ks[i]) == Count(c', ks[i])
    ensures WeightedSum(ks, c) == WeightedSum(ks, c')
  {
    if |ks| > 0 {
      WeightedSumFrame(ks[1..], c, c');
    }
  }

  /** Deployed workloads, in hundredths (script.js line 93). */
  function DeployedHundredths(c: Counts): (d: nat)
    ensures d == 100 * (c.vmsNotRunningContainers + c.vmsRunningContainers) + 10 * c.caasManagedContainers
    ensures d == 0 <==> c.vmsNotRunningContainers == 0 && c.vmsRunningContainers == 0 && c.caasManagedContainers == 0
  {
    var ks := DeployedResources;
    assert ks[1..][1..][1..] == [];
    assert WeightedSum(ks[1..][1..], c) == 10 * c.caasManagedContainers;
    assert WeightedSum(ks[1..], c) == 100 * c.vmsRunningContainers + 10 * c.caasManagedContainers;
    WeightedSum(ks, c)
  }

  /** The number of free image scans: ten per deployed workload, which is an exact whole number. */
  function ImageQuota(c: Counts): (q: nat)
    ensures Scale * q == FreeScansPerWorkload * DeployedHundredths(c)
    ensures q == FreeScansPerWorkload * (c.vmsNotRunningContainers + c.vmsRunningContainers) + c.caasManagedContainers
  {
    var a, b, m := c.vmsNotRunningContainers, c.vmsRunningContainers, c.caasManagedContainers;
    var q := 10 * a + 10 * b + m;
    assert FreeScansPerWorkload * DeployedHundredths(c) == Scale * q;
    assert FreeScansPerWorkload * DeployedHundredths(c) / Scale == q;
    FreeScansPerWorkload * DeployedHundredths(c) / Scale
  }

  /** Container images that are billed once the free allowance is used up (script.js lines 95-99). */
  function BillableImages(c: Counts): (r: nat)
    ensures r <= c.containerImages
    ensures c.containerImages <= ImageQuota(c) ==> r == 0
    ensures c.containerImages > ImageQuota(c) ==> r == c.containerImages - ImageQuota(c)
  {
    if DeployedHundredths(c) > 0 && c.containerImages > 0 then
      MinusClamped(c.containerImages, ImageQuota(c))
    else
      c.containerImages
  }

  /** The exact posture workload in hundredths: the four posture resources, unmanaged assets and billable images (script.js lines 90, 100, 103-109). */
  function PostureHundredths(c: Counts): (h: nat)
    ensures h == 10 * c.cloudBuckets + 50 * c.managedCloudDatabase + 100 * c.dbaasTbStored + 10 * c.saasUsers
               + 25 * c.unmanagedAssets + 10 * BillableImages(c)
    ensures h == 0 <==>
      && c.cloudBuckets == 0 && c.managedCloudDatabase == 0 && c.dbaasTbStored == 0 && c.saasUsers == 0
      && c.unmanagedAssets == 0 && c.containerImages <= ImageQuota(c)
  {
    var ks := PostureResources;
    assert ks[1..][1..][1..][1..] == [];
    assert WeightedSum(ks[1..][1..][1..], c) == 10 * c.saasUsers;
    assert WeightedSum(ks[1..][1..], c) == 100 * c.dbaasTbStored + 10 * c.saasUsers;
    assert WeightedSum(ks[1..], c) == 50 * c.managedCloudDatabase + 100 * c.dbaasTbStored + 10 * c.saasUsers;
    WeightedSum(ks, c)
      + c.unmanagedAssets * RatioHundredths(UnmanagedAssets)
      + BillableImages(c) * RatioHundredths(ContainerImages)
  }

  /** The exact runtime workload in hundredths (script.js lines 111-115). */
  function RuntimeHundredths(c: Counts): (h: nat)
    ensures h == 100 * (c.vmsNotRunningContainers + c.vmsRunningContainers) + 10 * c.caasManagedContainers
               + 4 * c.serverlessFunctions
    ensures h == 0 <==>
      && c.vmsNotRunningContainers == 0 && c.vmsRunningContainers == 0
      && c.caasManagedContainers == 0 && c.serverlessFunctions == 0
  {
    var ks := RuntimeResources;
    assert ks[1..][1..][1..][1..] == [];
    assert WeightedSum(ks[1..][1..][1..], c) == 4 * c.serverlessFunctions;
    assert WeightedSum(ks[1..][1..], c) == 10 * c.caasManagedContainers + 4 * c.serverlessFunctions;
    assert WeightedSum(ks[1..], c) == 100 * c.vmsRunningContainers + 10 * c.caasManagedContainers + 4 * c.serverlessFunctions;
    WeightedSum(ks, c)
  }

  /** The posture score: the least whole number of workload units covering the exact posture sum. */
  function PostureScore(c: Counts): (s: nat)
    ensures Scale * s >= PostureHundredths(c)
    ensures s == 0 || Scale * (s - 1) < PostureHundredths(c)
    ensures s == 0 <==> PostureHundredths(c) == 0
  {
    CeilDiv(PostureHundredths(c), Scale)
  }

  /** The runtime score: the least whole number of workload units covering the exact runtime sum. */
  function RuntimeScore(c: Counts): (s: nat)
    ensures Scale * s >= RuntimeHundredths(c)
    ensures s == 0 || Scale * (s - 1) < RuntimeHundredths(c)
    ensures s == 0 <==> RuntimeHundredths(c) == 0
  {
    CeilDiv(RuntimeHundredths(c), Scale)
  }

  /** The two workload scores handed to the allocator. */
  datatype Workloads = Workloads(posture: nat, runtime: nat)

  function Normalise(c: Counts): (w: Workloads)
    ensures Scale * w.posture >= PostureHundredths(c) && Scale * w.runtime >= RuntimeHundredths(c)
    ensures w.posture == 0 || Scale * (w.posture - 1) < PostureHundredths(c)
    ensures w.runtime == 0 || Scale * (w.runtime - 1) < RuntimeHundredths(c)
  {
    Workloads(PostureScore(c), RuntimeScore(c))
  }

  /**
   The guarded quota rule equals `max(0, images - quota)` on every input; a
   corollary of the contract of `BillableImages`, stated with the source's own
   clamped subtraction.
   */
  lemma BillableImagesClosedForm(c: Counts)
    ensures BillableImages(c) == MinusClamped(c.containerImages, ImageQuota(c))
  {
  }

  /** More deployed workloads never raise the billable images; more images never lower them. */
  lemma BillableImagesMonotone(c: Counts, c': Counts)
    requires c.containerImages <= c'.containerImages
    requires c.vmsNotRunningContainers >= c'.vmsNotRunningContainers
    requires c.vmsRunningContainers >= c'.vmsRunningContainers
    requires c.caasManagedContainers >= c'.caasManagedContainers
    ensures BillableImages(c) <= BillableImages(c')
  {
  }

  /** Raising any count never lowers the runtime score. */
  lemma RuntimeScoreMonotone(c: Counts, c': Counts)
    requires forall k :: Count(c, k) <= Count(c', k)
    ensures RuntimeScore(c) <= RuntimeScore(c')
  {
    WeightedSumMonotone(RuntimeResources, c, c');
    CeilDivMonotone(RuntimeHundredths(c), RuntimeHundredths(c'), Scale);
  }

  /**
   The posture score rises with the posture resources, unmanaged assets and
   images, and falls with the deployed workloads that enlarge the image allowance.
   */
  lemma PostureScoreMonotone(c: Counts, c': Counts)
    requires forall i :: 0 <= i < |PostureResources| ==> Count(c, PostureResources[i]) <= Count(c', PostureResources[i])
    requires c.unmanagedAssets <= c'.unmanagedAssets
    requires c.containerImages <= c'.containerImages
    requires c.vmsNotRunningContainers >= c'.vmsNotRunningContainers
    requires c.vmsRunningContainers >= c'.vmsRunningContainers
    requires c.caasManagedContainers >= c'.caasManagedContainers
    ensures PostureScore(c) <= PostureScore(c')
  {
    WeightedSumMonotone(PostureResources, c, c');
    BillableImagesMonotone(c, c');
    MulMonotone(c.unmanagedAssets, c'.unmanagedAssets, RatioHundredths(UnmanagedAssets));
    MulMonotone(BillableImages(c), BillableImages(c'), RatioHundredths(ContainerImages));
    CeilDivMonotone(PostureHundredths(c), PostureHundredths(c'), Scale);
  }

  /** Increasing one count never decreases the runtime score. */
  lemma RaiseOneRuntime(c: Counts, k: Resource, n: nat)
    requires n >= Count(c, k)
    ensures RuntimeScore(c) <= RuntimeScore(With(c, k, n))
  {
    RuntimeScoreMonotone(c, With(c, k, n));
  }

  /**
   Increasing one count never decreases the posture score, unless the count is
   a deployed workload, in which case it never increases it.
   */
  lemma RaiseOnePosture(c: Counts, k: Resource, n: nat)
    requires n >= Count(c, k)
    ensures k !in DeployedResources ==> PostureScore(c) <= PostureScore(With(c, k, n))
    ensures k in DeployedResources ==> PostureScore(With(c, k, n)) <= PostureScore(c)
  {
    var c' := With(c, k, n);
    if k in DeployedResources {
      PostureScoreMonotone(c', c);
    } else {
      PostureScoreMonotone(c, c');
    }
  }

  /** The runtime score ignores container images and every posture-only resource. */
  lemma RuntimeScoreFrame(c: Counts, c': Counts)
    requires forall i :: 0 <= i < |RuntimeResources| ==> Count(c, RuntimeResources[i]) == Count(c', RuntimeResources[i])
    ensures RuntimeScore(c) == RuntimeScore(c')
  {
    WeightedSumFrame(RuntimeResources, c, c');
  }

  /** Changing the container images (or any other non-runtime count) leaves the runtime score alone. */
  lemma RuntimeIgnoresImages(c: Counts, k: Resource, n: nat)
    requires k !in RuntimeResources
    ensures RuntimeScore(With(c, k, n)) == RuntimeScore(c)
  {
    RuntimeScoreFrame(c, With(c, k, n));
  }

  /** Serverless functions never influence the posture score. */
  lemma PostureIgnoresServerless(c: Counts, n: nat)
    ensures PostureScore(With(c, ServerlessFunctions, n)) == PostureScore(c)
  {
    var c' := With(c, ServerlessFunctions, n);
    WeightedSumFrame(PostureResources, c, c');
    assert ImageQuota(c') == ImageQuota(c);
  }
}
