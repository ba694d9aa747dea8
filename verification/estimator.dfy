/**
 The estimate as a whole: validate the ticked features, normalise the counts
 into workload scores, allocate the core licences, size the Application
 Security add-on and assemble the ordered result lines.
 */
module Estimator {
  import opened Common
  import opened Workload
  import opened Validation
  import opened Allocation

  /** Application Security is sold for at least this many developer seats. */
  const MinApplicationSeats: nat := 5

  /** One line of the result, in the order they may appear. */
  datatype Line =
    | Note(explanation: Explanation)
    | Separator
    | PostureLine(quantity: nat)
    | RuntimeLine(quantity: nat)
    | ApplicationLine(quantity: nat)

  /** An error, the explicit "no license required" answer, or the non-empty list of lines. */
  datatype Outcome =
    | Rejected(error: ValidationError)
    | NoLicenseRequired
    | Licenses(lines: seq<Line>)

  /** The add-on quantity: the developer count, but never below the seat floor (script.js line 232). */
  function ApplicationQuantity(developers: nat): (q: nat)
    ensures q >= developers && q >= MinApplicationSeats
    ensures q == developers || q == MinApplicationSeats
  {
    if developers > MinApplicationSeats then developers else MinApplicationSeats
  }

  /** Position of a line kind in the fixed output order. */
  function Rank(l: Line): nat
  {
    match l
    case Note(_) => 0
    case Separator => 1
    case PostureLine(_) => 2
    case RuntimeLine(_) => 3
    case ApplicationLine(_) => 4
  }

  /** Lines appear in the fixed order, each kind at most once. */
  predicate InOrder(lines: seq<Line>)
  {
    forall i, j :: 0 <= i < j < |lines| ==> Rank(lines[i]) < Rank(lines[j])
  }

  /** Every line of `lines` ranks in `[lo, hi)`. */
  predicate RanksWithin(lines: seq<Line>, lo: nat, hi: nat)
  {
    forall i :: 0 <= i < |lines| ==> lo <= Rank(lines[i]) < hi
  }

  /** Two ordered runs whose ranks do not overlap stay ordered when joined. */
  lemma InOrderConcat(s: seq<Line>, t: seq<Line>, lo: nat, mid: nat, hi: nat)
    requires InOrder(s) && InOrder(t)
    requires lo <= mid <= hi
    requires RanksWithin(s, lo, mid) && RanksWithin(t, mid, hi)
    ensures InOrder(s + t) && RanksWithin(s + t, lo, hi)
  {
    forall i, j | 0 <= i < j < |s + t|
      ensures Rank((s + t)[i]) < Rank((s + t)[j])
    {
      if j < |s| {
        assert (s + t)[i] == s[i] && (s + t)[j] == s[j];
      } else if i >= |s| {
        assert (s + t)[i] == t[i - |s|] && (s + t)[j] == t[j - |s|];
      } else {
        assert (s + t)[i] == s[i] && (s + t)[j] == t[j - |s|];
      }
    }
    forall i | 0 <= i < |s + t|
      ensures lo <= Rank((s + t)[i]) < hi
    {
      if i >= |s| {
        assert (s + t)[i] == t[i - |s|];
      }
    }
  }

  /** A property of every line of two runs holds of every line of their join. */
  lemma EveryLineConcat(s: seq<Line>, t: seq<Line>, P: Line -> bool)
    requires forall i :: 0 <= i < |s| ==> P(s[i])
    requires forall i :: 0 <= i < |t| ==> P(t[i])
    ensures forall i :: 0 <= i < |s + t| ==> P((s + t)[i])
  {
    forall i | 0 <= i < |s + t|
      ensures P((s + t)[i])
    {
      if i >= |s| {
        assert (s + t)[i] == t[i - |s|];
      }
    }
  }

  /** A licence line carries the quantity it was allocated, and only a positive one. */
  predicate LineAgrees(line: Line, l: Licences, app: Option<nat>)
  {
    match line
    case PostureLine(q) => q == l.posture > 0
    case RuntimeLine(q) => q == l.runtime > 0
    case ApplicationLine(q) => app == Some(q)
    case _ => true
  }

  /** The optional explanation and its separator. */
  function NoteLines(note: Option<Explanation>): (s: seq<Line>)
    ensures InOrder(s) && RanksWithin(s, 0, 2)
  {
    if note.Some? then [Note(note.value), Separator] else []
  }

  /** The core licence lines, each only when its quantity is positive. */
  function CoreLines(l: Licences): (s: seq<Line>)
    ensures InOrder(s) && RanksWithin(s, 2, 4)
    ensures forall i :: 0 <= i < |s| ==> (s[i].PostureLine? || s[i].RuntimeLine?) && LineAgrees(s[i], l, None)
  {
    (if l.posture > 0 then [PostureLine(l.posture)] else [])
      + (if l.runtime > 0 then [RuntimeLine(l.runtime)] else [])
  }

  /** The add-on line, when there is one. */
  function AddOnLines(app: Option<nat>): (s: seq<Line>)
    ensures InOrder(s) && RanksWithin(s, 4, 5)
    ensures forall i :: 0 <= i < |s| ==> s[i].ApplicationLine? && app == Some(s[i].quantity)
  {
    if app.Some? then [ApplicationLine(app.value)] else []
  }

  /**
   The result lines: the explanation followed by the separator, then each core
   licence with a positive quantity, then the add-on (script.js lines 216-234).
   */
  function AssembleLines(a: Allocation, app: Option<nat>): (lines: seq<Line>)
    ensures InOrder(lines)
    ensures |lines| == 0 <==> a.note.None? && a.licences.posture == 0 && a.licences.runtime == 0 && app.None?
  {
    var explained, core, addOn := NoteLines(a.note), CoreLines(a.licences), AddOnLines(app);
    InOrderConcat(explained, core, 0, 2, 4);
    InOrderConcat(explained + core, addOn, 0, 4, 5);
    explained + core + addOn
  }

  /**
   What the assembled lines say: the explanation leads, followed by the
   separator; every licence line carries its allocated quantity; and each
   positive quantity does get its line.
   */
  lemma AssembleLinesContents(a: Allocation, app: Option<nat>)
    ensures var lines := AssembleLines(a, app);
      && (a.note.Some? ==> |lines| >= 2 && lines[0] == Note(a.note.value) && lines[1] == Separator)
      && (a.note.None? ==> RanksWithin(lines, 2, 5))
      && (forall i :: 0 <= i < |lines| ==> LineAgrees(lines[i], a.licences, app))
      && (a.licences.posture > 0 ==> PostureLine(a.licences.posture) in lines)
      && (a.licences.runtime > 0 ==> RuntimeLine(a.licences.runtime) in lines)
      && (app.Some? ==> ApplicationLine(app.value) in lines)
  {
    var explained, core, addOn := NoteLines(a.note), CoreLines(a.licences), AddOnLines(app);
    var lines := AssembleLines(a, app);
    assert lines == explained + core + addOn;
    var agrees := (l: Line) => LineAgrees(l, a.licences, app);
    EveryLineConcat(explained, core, agrees);
    EveryLineConcat(explained + core, addOn, agrees);
    if a.note.Some? {
      assert lines[0] == explained[0] && lines[1] == explained[1];
    } else {
      assert lines == core + addOn;
      InOrderConcat(core, addOn, 2, 4, 5);
    }
  }

  /** The core allocation of an estimate: normalise the counts, then allocate (script.js lines 103-210). */
  function CoreOf(c: Counts, f: Features): Allocation
  {
    var w := Normalise(c);
    Allocate(w.posture, w.runtime, f)
  }

  /** The add-on of an estimate: sold only on top of a ticked core track (script.js line 231). */
  function AddOnOf(c: Counts, f: Features): Option<nat>
  {
    if f.application && CoreSelected(f) then Some(ApplicationQuantity(c.developers)) else None
  }

  /** The whole estimate (script.js lines 88-242, without reading or writing the page). */
  function Estimate(c: Counts, f: Features): (r: Outcome)
    ensures r.Rejected? <==> Validate(f, c.developers).Some?
    ensures r.Rejected? ==> Validate(f, c.developers) == Some(r.error)
    ensures r.Licenses? ==> |r.lines| > 0 && InOrder(r.lines)
    ensures r.NoLicenseRequired? <==>
      Validate(f, c.developers) == None && !f.application && PostureScore(c) == 0 && RuntimeScore(c) == 0
  {
    match Validate(f, c.developers)
    case Some(e) => Rejected(e)
    case None =>
      var lines := AssembleLines(CoreOf(c, f), AddOnOf(c, f));
      if |lines| == 0 then NoLicenseRequired else Licenses(lines)
  }

  /** An accepted estimate lists exactly the assembled lines of its allocation and add-on (a helper for the lemmas below). */
  lemma AcceptedEstimateLines(c: Counts, f: Features)
    requires Validate(f, c.developers) == None
    ensures Estimate(c, f).Licenses? ==> Estimate(c, f).lines == AssembleLines(CoreOf(c, f), AddOnOf(c, f))
    ensures Estimate(c, f).NoLicenseRequired? <==> |AssembleLines(CoreOf(c, f), AddOnOf(c, f))| == 0
  {
  }

  /**
   On an accepted selection, the add-on line is present exactly when
   Application Security is ticked, and then carries the floored developer count.
   */
  lemma ApplicationLineExactlyWhenTicked(c: Counts, f: Features)
    requires Validate(f, c.developers) == None
    ensures f.application ==>
      Estimate(c, f).Licenses? && ApplicationLine(ApplicationQuantity(c.developers)) in Estimate(c, f).lines
    ensures Estimate(c, f).Licenses? ==> forall i :: 0 <= i < |Estimate(c, f).lines| ==>
      Estimate(c, f).lines[i].ApplicationLine? ==> f.application && Estimate(c, f).lines[i].quantity == ApplicationQuantity(c.developers)
  {
    var a, app := CoreOf(c, f), AddOnOf(c, f);
    var lines := AssembleLines(a, app);
    AcceptedEstimateLines(c, f);
    AssembleLinesContents(a, app);
    if f.application {
      assert ApplicationLine(ApplicationQuantity(c.developers)) in lines;
      assert Estimate(c, f) == Licenses(lines);
    }
    if Estimate(c, f).Licenses? {
      forall i | 0 <= i < |lines| && lines[i].ApplicationLine?
        ensures f.application && lines[i].quantity == ApplicationQuantity(c.developers)
      {
        assert LineAgrees(lines[i], a.licences, app);
      }
    }
  }

  /**
   On an accepted selection, a core line is present exactly when its allocated
   quantity is positive, and carries that quantity.
   */
  lemma CoreLinesExactlyWhenPositive(c: Counts, f: Features)
    requires Validate(f, c.developers) == None
    ensures CoreOf(c, f).licences.posture > 0 ==>
      Estimate(c, f).Licenses? && PostureLine(CoreOf(c, f).licences.posture) in Estimate(c, f).lines
    ensures CoreOf(c, f).licences.runtime > 0 ==>
      Estimate(c, f).Licenses? && RuntimeLine(CoreOf(c, f).licences.runtime) in Estimate(c, f).lines
    ensures Estimate(c, f).Licenses? ==> forall i :: 0 <= i < |Estimate(c, f).lines| ==>
      LineAgrees(Estimate(c, f).lines[i], CoreOf(c, f).licences, AddOnOf(c, f))
  {
    AcceptedEstimateLines(c, f);
    AssembleLinesContents(CoreOf(c, f), AddOnOf(c, f));
  }

  /** An explanation always comes first, followed by the separator; so "no license required" never carries one. */
  lemma ExplanationLeadsTheLines(c: Counts, f: Features)
    requires Validate(f, c.developers) == None
    requires CoreOf(c, f).note.Some?
    ensures Estimate(c, f).Licenses?
    ensures Estimate(c, f).lines[0] == Note(CoreOf(c, f).note.value)
    ensures Estimate(c, f).lines[1] == Separator
  {
    AcceptedEstimateLines(c, f);
    AssembleLinesContents(CoreOf(c, f), AddOnOf(c, f));
  }
}
