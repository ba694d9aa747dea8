/**
 Worked examples of the whole estimate on concrete inputs, one per kind of
 outcome: the empty answer, the MOQ explanation, both cost-optimisation
 plans, the image allowance and each validation error.
 */
module Scenarios {
  import opened Common
  import opened Workload
  import opened Validation
  import opened Allocation
  import opened Estimator

  const NoCounts: Counts := Counts(0, 0, 0, 0, 0, 0, 0, 0, 0, 0, 0)

  /** Nothing entered, Posture ticked: no licence is required. */
  lemma NothingEnteredNeedsNoLicence()
    ensures Estimate(NoCounts, Features(true, false, false)) == NoLicenseRequired
  {
  }

  /** 500 cloud buckets make 50 posture units; Posture alone is raised to the MOQ with an explanation. */
  lemma SmallPostureRaisedToMoq()
    ensures PostureScore(NoCounts.(cloudBuckets := 500)) == 50
    ensures Estimate(NoCounts.(cloudBuckets := 500), Features(true, false, false))
         == Licenses([Note(MoqApplied(50, Moq)), Separator, PostureLine(200)])
  {
    var c := NoCounts.(cloudBuckets := 500);
    assert PostureHundredths(c) == 5000 by {
      assert PostureResources[1..][1..][1..][1..] == [];
      assert ImageQuota(c) == 0;
    }
    assert RuntimeHundredths(c) == 0 by {
      assert RuntimeResources[1..][1..][1..][1..] == [];
    }
  }

  /** Ten units on each track with Runtime ticked: Plan A (cost 220) beats Plan B (cost 400). */
  lemma TenAndTenPicksPlanA()
    ensures Cost(PostureAbsorbs(10, 10)) == 220 && Cost(RuntimeAbsorbs(10, 10)) == 400
    ensures Estimate(NoCounts.(cloudBuckets := 100, vmsNotRunningContainers := 10), Features(false, true, false))
         == Licenses([Note(MoqOnPosture(Moq)), Separator, PostureLine(200), RuntimeLine(10)])
  {
    var c := NoCounts.(cloudBuckets := 100, vmsNotRunningContainers := 10);
    assert RuntimeHundredths(c) == 1000 by {
      assert RuntimeResources[1..][1..][1..][1..] == [];
    }
    assert PostureHundredths(c) == 1000 by {
      assert PostureResources[1..][1..][1..][1..] == [];
      assert ImageQuota(c) == 100;
    }
  }

  /** Fifty posture and 150 runtime units: Runtime absorbs the MOQ and its spare 50 units cover posture. */
  lemma RuntimeHeavyPicksPlanB()
    ensures RuntimeAllocation(50, 150) == Allocation(Licences(0, 200), Some(MoqOnRuntime(Moq)))
  {
  }

  /** Equal costs (500 each) resolve in favour of Posture absorbing the MOQ. */
  lemma TieFavoursPosture()
    ensures Cost(PostureAbsorbs(150, 150)) == Cost(RuntimeAbsorbs(150, 150)) == 500
    ensures RuntimeAllocation(150, 150) == Allocation(Licences(200, 150), Some(MoqOnPosture(Moq)))
  {
  }

  /** Two VMs give 20 free scans, so of 25 images only 5 are billed: half a posture unit, rounded up to one. */
  lemma ImageAllowance()
    ensures ImageQuota(NoCounts.(vmsRunningContainers := 2, containerImages := 25)) == 20
    ensures BillableImages(NoCounts.(vmsRunningContainers := 2, containerImages := 25)) == 5
    ensures PostureScore(NoCounts.(vmsRunningContainers := 2, containerImages := 25)) == 1
  {
    var c := NoCounts.(vmsRunningContainers := 2, containerImages := 25);
    assert PostureHundredths(c) == 50 by {
      assert PostureResources[1..][1..][1..][1..] == [];
    }
  }

  /** Nothing ticked is refused. */
  lemma NothingTickedIsRefused()
    ensures Estimate(NoCounts, Features(false, false, false)) == Rejected(NoFeatureChosen)
  {
  }

  /** Application Security alone is refused even with developers entered. */
  lemma AddOnAloneIsRefused()
    ensures Estimate(NoCounts.(developers := 3), Features(false, false, true)) == Rejected(AddOnWithoutCore)
  {
  }

  /** Developers without Application Security are refused. */
  lemma DevelopersWithoutAddOnAreRefused()
    ensures Estimate(NoCounts.(developers := 3), Features(true, true, false)) == Rejected(DevelopersWithoutAddOn)
  {
  }

  /** Posture with the add-on and no workload: only the add-on line, sized by the eight developers. */
  lemma AddOnOnlyLine()
    ensures Estimate(NoCounts.(developers := 8), Features(true, false, true)) == Licenses([ApplicationLine(8)])
  {
    var c, f := NoCounts.(developers := 8), Features(true, false, true);
    assert PostureScore(c) == 0 && RuntimeScore(c) == 0;
    assert CoreOf(c, f) == Allocation(Licences(0, 0), None);
    assert AddOnOf(c, f) == Some(8);
    assert AssembleLines(CoreOf(c, f), AddOnOf(c, f)) == [ApplicationLine(8)];
  }
}
