/** Worlds that a run reaches, step by step. */
module Reachability {
  import opened Engine

  /** Some run from an empty system ends in `w` and never met more than fifty due payloads; with `atOnce`
      all its promotions were one step. */
  ghost predicate Reachable(w: World, atOnce: bool) {
    exists ws: seq<World>, steps: seq<Step> :: EndsIn(ws, steps, w, atOnce)
  }

  ghost predicate EndsIn(ws: seq<World>, steps: seq<Step>, w: World, atOnce: bool) {
    IsRun(ws, steps) && NeverCrowded(ws, steps) && (atOnce ==> PromotesAtOnce(ws, steps)) && ws[|steps|] == w
  }

  lemma OneMore(ws: seq<World>, steps: seq<Step>, w: World, atOnce: bool, step: Step, w': World)
    requires EndsIn(ws, steps, w, atOnce) && Enabled(w, step) && FewDue(w, step) && (atOnce ==> !step.ReadDue? && !step.MoveDue?)
    requires Next(w, step) == w'
    ensures EndsIn(ws + [w'], steps + [step], w', atOnce)
  {
    var vs, ts := ws + [w'], steps + [step];
    forall i | 0 <= i < |ts|
      ensures Enabled(vs[i], ts[i]) && vs[i + 1] == Next(vs[i], ts[i]) && FewDue(vs[i], ts[i])
              && (atOnce ==> !ts[i].ReadDue? && !ts[i].MoveDue?)
    {
      assert i < |steps| ==> vs[i] == ws[i] && vs[i + 1] == ws[i + 1] && ts[i] == steps[i];
    }
  }

  lemma Onward(w: World, atOnce: bool, step: Step, w': World)
    requires Reachable(w, atOnce) && Enabled(w, step) && FewDue(w, step) && (atOnce ==> !step.ReadDue? && !step.MoveDue?)
    requires Next(w, step) == w'
    ensures Reachable(w', atOnce)
  {
    var ws: seq<World>, steps: seq<Step> :| EndsIn(ws, steps, w, atOnce);
    OneMore(ws, steps, w, atOnce, step, w');
  }

  lemma AlsoInTwoSteps(w: World)
    requires Reachable(w, true)
    ensures Reachable(w, false)
  {
    var ws: seq<World>, steps: seq<Step> :| EndsIn(ws, steps, w, true);
    assert EndsIn(ws, steps, w, false);
  }

  lemma EmptyIsReachable(w: World, atOnce: bool)
    requires Initial(w)
    ensures Reachable(w, atOnce)
  {
    assert EndsIn([w], [], w, atOnce);
  }
}
