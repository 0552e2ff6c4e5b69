// Runs taken apart and put together: prefixes, the world in between, and how time passes.
module Runs {
  import opened World

  lemma {:induction false} TimePasses(w: World, more: seq<Step>)
    requires Legal(w, more)
    ensures w.now <= After(w, more).now
  {
    if more != [] {
      TimePasses(w, more[..|more| - 1]);
      StepTakesTime(After(w, more[..|more| - 1]), more[|more| - 1]);
    }
  }

  lemma StepTakesTime(w: World, step: Step)
    requires Enabled(w, step)
    ensures w.now <= Next(w, step).now
  {
  }

  lemma {:induction false} LegalPrefix(w: World, more: seq<Step>, n: nat)
    requires Legal(w, more) && n <= |more|
    ensures Legal(w, more[..n])
    ensures n < |more| ==> Enabled(After(w, more[..n]), more[n])
    ensures After(w, more[..n]).now <= After(w, more).now
  {
    hide Next, Enabled;
    if n == |more| {
      assert more[..n] == more;
    } else {
      var before := more[..|more| - 1];
      assert before[..n] == more[..n];
      LegalPrefix(w, before, n);
      StepTakesTime(After(w, before), more[|more| - 1]);
      if n == |more| - 1 {
        assert more[..n] == before;
      }
    }
  }

  /** A run and a run that goes on from where it ended are one run. */
  lemma {:induction false} RunsJoin(w: World, first: seq<Step>, more: seq<Step>)
    requires Legal(w, first) && Legal(After(w, first), more)
    ensures Legal(w, first + more) && After(w, first + more) == After(After(w, first), more)
  {
    hide Next, Enabled;
    if more == [] {
      assert first + more == first;
    } else {
      RunsJoin(w, first, more[..|more| - 1]);
      assert (first + more)[..|first + more| - 1] == first + more[..|more| - 1];
    }
  }

  lemma CallThen(steps: seq<Step>, step: Step, more: seq<Step>)
    requires Legal(Start(), steps) && Enabled(After(Start(), steps), step)
    requires Legal(Next(After(Start(), steps), step), more)
    ensures var run := steps + [step] + more;
            Legal(Start(), run) && After(Start(), run) == After(Next(After(Start(), steps), step), more)
  {
    hide Next, Enabled;
    assert (steps + [step])[..|steps|] == steps;
    assert Legal(Start(), steps + [step]) && After(Start(), steps + [step]) == Next(After(Start(), steps), step);
    hide Legal, After;
    RunsJoin(Start(), steps + [step], more);
  }

  /** The world after the first `n` steps of a run. */
  ghost function At(run: seq<Step>, n: nat): World
    requires Legal(Start(), run) && n <= |run|
  {
    LegalPrefix(Start(), run, n);
    After(Start(), run[..n])
  }

  lemma AtEnds(run: seq<Step>, n: nat)
    requires Legal(Start(), run) && n < |run|
    ensures Enabled(At(run, n), run[n]) && At(run, n + 1) == Next(At(run, n), run[n])
    ensures At(run, |run|) == After(Start(), run)
  {
    hide Next, Enabled;
    LegalPrefix(Start(), run, n);
    LegalPrefix(Start(), run, n + 1);
    assert run[..n + 1][..n] == run[..n] && run[..|run|] == run;
  }

  lemma AtPrefix(run: seq<Step>, n: nat)
    requires Legal(Start(), run) && n < |run|
    ensures Legal(Start(), run[..|run| - 1]) && At(run[..|run| - 1], n) == At(run, n)
  {
    hide Next, Enabled;
    LegalPrefix(Start(), run, |run| - 1);
    assert run[..|run| - 1][..n] == run[..n];
  }

  lemma AtWhole(run: seq<Step>)
    requires Legal(Start(), run)
    ensures At(run, |run|) == After(Start(), run)
  {
    hide Next, Enabled;
    assert run[..|run|] == run;
  }

  lemma LastOf(run: seq<Step>)
    requires Legal(Start(), run) && run != []
    ensures var before, last := run[..|run| - 1], run[|run| - 1];
            && Legal(Start(), before) && Enabled(After(Start(), before), last)
            && After(Start(), run) == Next(After(Start(), before), last)
            && At(run, |run| - 1) == After(Start(), before)
  {
    hide Next, Enabled;
  }
}
