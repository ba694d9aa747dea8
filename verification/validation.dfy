/**
 The feature validator: three checks on the ticked features and the
 developer count, run in a fixed order; the first that matches ends the
 estimate with an error and no licence is computed.
 */
module Validation {
  import opened Common

  /** The three feature checkboxes. */
  datatype Features = Features(posture: bool, runtime: bool, application: bool)

  /** The three error messages, one per check. */
  datatype ValidationError =
    | NoFeatureChosen          // none of the features is ticked
    | AddOnWithoutCore         // Application Security ticked without Posture or Runtime
    | DevelopersWithoutAddOn   // developers entered but Application Security not ticked

  /** Whether a core track (Posture or Runtime) is ticked. */
  predicate CoreSelected(f: Features)
  {
    f.posture || f.runtime
  }

  /** The first failing check, or `None` when the selection may proceed (script.js lines 128-142). */
  function Validate(f: Features, developers: nat): (r: Option<ValidationError>)
    ensures r == None <==> CoreSelected(f) && (developers > 0 ==> f.application)
    ensures r == Some(NoFeatureChosen) <==> !f.posture && !f.runtime && !f.application
    ensures r == Some(AddOnWithoutCore) <==> f.application && !CoreSelected(f)
    ensures r == Some(DevelopersWithoutAddOn) <==> CoreSelected(f) && developers > 0 && !f.application
  {
    if !f.posture && !f.runtime && !f.application then
      Some(NoFeatureChosen)
    else if f.application && !f.posture && !f.runtime then
      Some(AddOnWithoutCore)
    else if developers > 0 && !f.application then
      Some(DevelopersWithoutAddOn)
    else
      None
  }
}
