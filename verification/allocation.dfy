/**
 The core licence allocator: turns the posture and runtime workload scores
 into Posture and Runtime licence quantities, enforcing the minimum order
 quantity (MOQ) and, when both scores are below it, loading the MOQ onto the
 track that makes the weighted cost smallest.
 */
module Allocation {
  import opened Common
  import opened Validation

  /** Minimum order quantity of a committed core track. */
  const Moq: nat := 200

  /** Relative price of one Posture licence unit and one Runtime licence unit. */
  const PostureWeight: nat := 1
  const RuntimeWeight: nat := 2

  /** Quantities of the two core licences. */
  datatype Licences = Licences(posture: nat, runtime: nat)

  /** Weighted cost of a pair of licence quantities: never below the number of units billed, and zero only for nothing billed. */
  function Cost(l: Licences): (r: nat)
    ensures r >= l.posture + l.runtime
    ensures r == 0 <==> l == Licences(0, 0)
  {
    PostureWeight * l.posture + RuntimeWeight * l.runtime
  }

  /** One more Runtime unit adds twice what one more Posture unit adds. */
  lemma CostWeights(l: Licences)
    ensures Cost(l.(posture := l.posture + 1)) == Cost(l) + 1
    ensures Cost(l.(runtime := l.runtime + 1)) == Cost(l) + 2
  {
  }

  /** The explanation that may precede the licence lines. */
  datatype Explanation =
    | MoqApplied(workload: nat, moq: nat)  // posture only: the combined workload is below the MOQ
    | MoqOnPosture(moq: nat)               // cost optimisation put the MOQ on the Posture licence
    | MoqOnRuntime(moq: nat)               // cost optimisation put the MOQ on the Runtime licence

  /** The allocator's outcome: the two quantities and an optional explanation. */
  datatype Allocation = Allocation(licences: Licences, note: Option<Explanation>)

  /**
   A posture-only plan is acceptable when it bills nothing on Runtime, covers
   the whole demand on Posture and, if there is any demand, reaches the MOQ.
   */
  predicate PostureOnlyCovers(p: nat, r: nat, l: Licences)
  {
    && l.runtime == 0
    && l.posture >= p + r
    && (p + r > 0 ==> l.posture >= Moq)
  }

  /**
   A plan with Runtime ticked is acceptable when it covers the runtime demand
   on Runtime, covers the total demand with both tracks together (spare
   Runtime capacity is credited to Posture, never the other way round) and,
   if there is any demand, reaches the MOQ on one of the tracks.
   */
  predicate RuntimeCovers(p: nat, r: nat, l: Licences)
  {
    && l.runtime >= r
    && l.posture + l.runtime >= p + r
    && (p + r > 0 ==> l.posture >= Moq || l.runtime >= Moq)
  }

  /** Posture only: runtime demand is folded into Posture, subject to the MOQ (script.js lines 148-159). */
  function PostureOnly(p: nat, r: nat): (a: Allocation)
    ensures PostureOnlyCovers(p, r, a.licences)
    ensures a.note.Some? <==> 0 < p + r < Moq
    ensures a.note.Some? ==> a.note.value == MoqApplied(p + r, Moq)
  {
    var effective := p + r;
    if effective > 0 then
      Allocation(Licences(Max(effective, Moq), 0),
                 if effective < Moq then Some(MoqApplied(effective, Moq)) else None)
    else
      Allocation(Licences(0, 0), None)
  }

  /** The posture-only licence is the least one that is acceptable. */
  lemma PostureOnlyIsLeast(p: nat, r: nat, l: Licences)
    requires PostureOnlyCovers(p, r, l)
    ensures PostureOnly(p, r).licences.posture <= l.posture
  {
  }

  /** Plan A, "Posture absorbs the MOQ" (script.js lines 176-178). */
  function PostureAbsorbs(p: nat, r: nat): (l: Licences)
    ensures l.posture >= Moq && l.posture >= p
    ensures l.posture == Moq || l.posture == p
    ensures l.runtime == r
  {
    Licences(Max(p, Moq), r)
  }

  /**
   Plan B, "Runtime absorbs the MOQ": Runtime is raised to the MOQ and the
   excess over the runtime demand is credited against the posture demand
   (script.js lines 181-189).
   */
  function RuntimeAbsorbs(p: nat, r: nat): (l: Licences)
    ensures l.runtime >= Moq && l.runtime >= r
    ensures l.runtime == Moq || l.runtime == r
    ensures l.posture <= p
    ensures l.posture + l.runtime >= p + r
    ensures l.posture == 0 || l.posture + l.runtime == p + r
  {
    var runtime := Max(r, Moq);
    var excess := MinusClamped(runtime, r);
    Licences(MinusClamped(p, excess), runtime)
  }

  /** Runtime ticked, with or without Posture (script.js lines 165-209). */
  function RuntimeAllocation(p: nat, r: nat): (a: Allocation)
    ensures RuntimeCovers(p, r, a.licences)
    ensures (p >= Moq || r >= Moq) ==> a == Allocation(Licences(p, r), None)
    ensures p + r == 0 ==> a == Allocation(Licences(0, 0), None)
    ensures a.note.Some? <==> p < Moq && r < Moq && p + r > 0
  {
    if p >= Moq || r >= Moq then
      Allocation(Licences(p, r), None)
    else if p > 0 || r > 0 then
      var planA := PostureAbsorbs(p, r);
      var planB := RuntimeAbsorbs(p, r);
      if Cost(planA) <= Cost(planB) then
        Allocation(planA, Some(MoqOnPosture(Moq)))
      else
        Allocation(planB, Some(MoqOnRuntime(Moq)))
    else
      Allocation(Licences(0, 0), None)
  }

  /**
   Below the MOQ on both tracks, the allocator picks the cheaper of the two
   plans, Plan A on a tie, and the absorbing track bills exactly the MOQ.
   */
  lemma CostOptimisationPicksCheaper(p: nat, r: nat)
    requires p < Moq && r < Moq && p + r > 0
    ensures var a := RuntimeAllocation(p, r);
      || (&& a.note == Some(MoqOnPosture(Moq))
          && a.licences == PostureAbsorbs(p, r)
          && a.licences.posture == Moq
          && Cost(PostureAbsorbs(p, r)) <= Cost(RuntimeAbsorbs(p, r)))
      || (&& a.note == Some(MoqOnRuntime(Moq))
          && a.licences == RuntimeAbsorbs(p, r)
          && a.licences.runtime == Moq
          && Cost(RuntimeAbsorbs(p, r)) < Cost(PostureAbsorbs(p, r)))
  {
  }

  /**
   When the cost comparison is made, Posture absorbs the MOQ exactly when the
   runtime score is at most half the MOQ or at most the posture score.
   */
  lemma PostureAbsorbsExactlyWhen(p: nat, r: nat)
    requires p < Moq && r < Moq && p + r > 0
    ensures RuntimeAllocation(p, r).note == Some(MoqOnPosture(Moq)) <==> 2 * r <= Moq || r <= p
  {
    var a, b := PostureAbsorbs(p, r), RuntimeAbsorbs(p, r);
    assert Cost(a) == Moq + 2 * r;
    assert Cost(b) == 2 * Moq + MinusClamped(p + r, Moq);
  }

  /**
   With Runtime ticked, the allocator's plan costs no more than any acceptable
   plan: the choice between Plan A and Plan B loses nothing by considering
   only those two.
   */
  lemma RuntimeAllocationIsCheapest(p: nat, r: nat, l: Licences)
    requires RuntimeCovers(p, r, l)
    ensures Cost(RuntimeAllocation(p, r).licences) <= Cost(l)
  {
    if p < Moq && r < Moq && p + r > 0 {
      var a, b := PostureAbsorbs(p, r), RuntimeAbsorbs(p, r);
      assert Cost(a) == Moq + 2 * r;
      assert Cost(b) == 2 * Moq + MinusClamped(p + r, Moq);
      if l.posture < Moq {
        // the MOQ sits on Runtime: every Runtime unit beyond the MOQ costs 2 and saves at most 1
        assert l.runtime >= Moq;
        assert Cost(l) >= Cost(b);
      } else {
        assert Cost(l) >= Cost(a);
      }
    }
  }

  /** The allocator: dispatch on the ticked core tracks (script.js lines 145-210). */
  function Allocate(p: nat, r: nat, f: Features): (a: Allocation)
    ensures !CoreSelected(f) ==> a == Allocation(Licences(0, 0), None)
    ensures f.runtime ==> RuntimeCovers(p, r, a.licences)
    ensures f.posture && !f.runtime ==> PostureOnlyCovers(p, r, a.licences)
    ensures p + r == 0 ==> a == Allocation(Licences(0, 0), None)
    ensures a.note.Some? ==> CoreSelected(f) && 0 < p + r && p < Moq && r < Moq
  {
    if f.posture && !f.runtime then
      PostureOnly(p, r)
    // the source's guard `runtime || (posture && runtime)` is just `runtime`
    else if f.runtime || (f.posture && f.runtime) then
      RuntimeAllocation(p, r)
    else
      Allocation(Licences(0, 0), None)
  }

  /**
   Whenever there is demand and a core track is ticked, some core licence
   reaches the MOQ and the demand is covered: a corollary of the contract of
   `Allocate`, stated once for both core branches.
   */
  lemma AllocateMeetsMoq(p: nat, r: nat, f: Features)
    requires CoreSelected(f)
    ensures var l := Allocate(p, r, f).licences;
      && l.posture + l.runtime >= p + r
      && (p + r > 0 ==> l.posture >= Moq || l.runtime >= Moq)
  {
  }
}
