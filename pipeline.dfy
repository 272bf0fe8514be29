/**
 * The loop of `AugmentationDataset.__getitem__` in `buteo/ai/augmentation.py` as a fold: the
 * records of the list applied one after another, each to the sample the previous one produced,
 * the first error ending the run. The step is a parameter here, and so are the type of the
 * sample S (a pair of grids in the dataset) and of the draws D each record consumes.
 */
module Pipeline {
  import opened Wrappers
  import opened AugmentationArgs

  /**
   * The first n records of the list applied in order to s, record m with the draws draws(m):
   * each receives the sample the previous one produced, and the first error ends the run.
   */
  function Run<S, D>(step: (Augmentation, S, D) -> Result<S, AugError>, augs: seq<Augmentation>, n: nat, s: S,
                     draws: int -> D): (r: Result<S, AugError>)
    requires n <= |augs|
    ensures n == 0 ==> r == Success(s)
  {
    if n == 0 then Success(s)
    else
      var before := Run(step, augs, n - 1, s, draws);
      if before.Failure? then before else step(augs[n - 1], before.value, draws(n - 1))
  }

  /** Running one more record: the step applied to what the run so far produced. */
  lemma RunNext<S, D>(step: (Augmentation, S, D) -> Result<S, AugError>, augs: seq<Augmentation>, n: nat, s: S,
                      draws: int -> D, mid: S)
    requires n < |augs| && Run(step, augs, n, s, draws) == Success(mid)
    ensures Run(step, augs, n + 1, s, draws) == step(augs[n], mid, draws(n))
  {
  }

  /** Once a record fails, the later ones do not run: the run ends with that error. */
  lemma {:induction false} RunStopsAtFailure<S, D>(step: (Augmentation, S, D) -> Result<S, AugError>,
                                                   augs: seq<Augmentation>, m: nat, n: nat, s: S, draws: int -> D)
    requires m <= n <= |augs|
    requires Run(step, augs, m, s, draws).Failure?
    ensures Run(step, augs, n, s, draws) == Run(step, augs, m, s, draws)
    decreases n
  {
    if m < n {
      RunStopsAtFailure(step, augs, m, n - 1, s, draws);
    }
  }

  /** A record that fails on what the run so far produced ends every longer run with its error. */
  lemma {:induction false} RunFailsAt<S, D>(step: (Augmentation, S, D) -> Result<S, AugError>, augs: seq<Augmentation>,
                                            n: nat, k: nat, s: S, draws: int -> D, mid: S)
    requires n < k <= |augs| && Run(step, augs, n, s, draws) == Success(mid)
    requires step(augs[n], mid, draws(n)).Failure?
    ensures Run(step, augs, k, s, draws) == step(augs[n], mid, draws(n))
    decreases k
  {
    if n + 1 < k {
      RunFailsAt(step, augs, n, k - 1, s, draws, mid);
    }
  }

  /** The draws from record m on, renumbered from 0. */
  function Shift<D>(draws: int -> D, m: int): (shifted: int -> D)
    ensures forall i :: shifted(i) == draws(m + i)
  {
    i => draws(m + i)
  }

  /**
   * Running a list is running its first m records and then the rest on their result: the records
   * apply in list order, each to the output of the one before.
   */
  lemma {:induction false} RunSplit<S, D>(step: (Augmentation, S, D) -> Result<S, AugError>, augs: seq<Augmentation>,
                                          m: nat, n: nat, s: S, draws: int -> D)
    requires m <= n <= |augs|
    requires Run(step, augs, m, s, draws).Success?
    ensures Run(step, augs, n, s, draws) ==
            Run(step, augs[m..], n - m, Run(step, augs, m, s, draws).value, Shift(draws, m))
    decreases n
  {
    if m < n {
      RunSplit(step, augs, m, n - 1, s, draws);
      assert augs[m..][n - m - 1] == augs[n - 1];
      assert Shift(draws, m)(n - m - 1) == draws(n - 1);
    }
  }
}
