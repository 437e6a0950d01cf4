/** The solver's driver: the run options, the counts each generation derives
    from them, one generation of the loop, the convergence tracking and the
    whole run from seeding to the last generation. */
module Engine {
  import opened Genome
  import opened Chromosomes
  import opened FitnessIndex
  import opened Tour
  import opened Population
  import opened Breeding

  /** The options the generation loop reads: population target c_count,
      viable seed count v_count, splice or recombine, the breeding fraction
      (b_percent / 100), the survival fraction (1 - d_percent / 100), the
      elite fraction (save_percent / 100), the mutation rate and the two
      limits and the entropy threshold. */
  datatype Settings = Settings(cCount: nat, vCount: nat, splice: bool, breed: real, survival: real,
                               save: real, mutations: real, samelimit: int, genlimit: int, eThreshold: nat)

  /** The drop fraction as the option reading computes it when d_percent
      is not given: the default is b_percent after its own division by 100,
      divided by 100 a second time. */
  function DropFractionAsWritten(bPercent: real, dPercent: Option<real>): real {
    (if dPercent.Some? then dPercent.value else bPercent / 100.0) / 100.0
  }

  /** The drop fraction with d_percent defaulting to b_percent itself. */
  function DropFraction(bPercent: real, dPercent: Option<real>): real {
    (if dPercent.Some? then dPercent.value else bPercent) / 100.0
  }

  /** With b_percent = 20 and no d_percent, the run keeps 99.8% of each
      generation instead of dropping the 20% it breeds. */
  lemma DropDefaultAsWritten()
    ensures DropFractionAsWritten(20.0, None) == 0.002
    ensures 1.0 - DropFractionAsWritten(20.0, None) == 0.998
    ensures DropFractionAsWritten(20.0, None) != 20.0 / 100.0
  {
  }

  /** Without d_percent the corrected drop fraction is the breeding
      fraction, and a given d_percent is used as it is. */
  lemma DropDefaultIsBreed(bPercent: real, dPercent: Option<real>)
    ensures dPercent.None? ==> DropFraction(bPercent, dPercent) == bPercent / 100.0
    ensures dPercent.Some? ==> DropFraction(bPercent, dPercent) == DropFractionAsWritten(bPercent, dPercent)
  {
  }

  /** Option reading and the checks on it: a non-positive b_percent ends
      the program (None); --cross alone selects recombine, anything else
      splice. The survival fraction is 1 minus the drop fraction as the
      code computes it, so without d_percent the run keeps 1 - breed / 100
      of each generation. */
  function Configure(cCount: nat, vCount: nat, cross: bool, spliceFlag: bool, bPercent: real, dPercent: Option<real>,
                     savePercent: real, mutations: real, samelimit: int, genlimit: int, eThreshold: nat): (r: Option<Settings>)
    ensures r.None? <==> bPercent <= 0.0
    ensures r.Some? ==> r.value.breed == bPercent / 100.0 > 0.0 && r.value.save == savePercent / 100.0
    ensures r.Some? ==> (r.value.splice <==> !cross || spliceFlag)
    ensures r.Some? ==> r.value.survival + DropFractionAsWritten(bPercent, dPercent) == 1.0
    ensures r.Some? && dPercent.None? ==> r.value.survival == 1.0 - r.value.breed / 100.0
    ensures r.Some? && dPercent.Some? ==> r.value.survival == 1.0 - dPercent.value / 100.0
    ensures r.Some? ==> r.value.cCount == cCount && r.value.vCount == vCount && r.value.mutations == mutations
    ensures r.Some? ==> r.value.samelimit == samelimit && r.value.genlimit == genlimit && r.value.eThreshold == eThreshold
  {
    var b := bPercent / 100.0;
    if b <= 0.0 then None
    else Some(Settings(cCount, vCount, !cross || spliceFlag, b, 1.0 - DropFractionAsWritten(bPercent, dPercent),
                       savePercent / 100.0, mutations, samelimit, genlimit, eThreshold))
  }

  /** The option reading with the drop fraction defaulting to b_percent
      itself: the same settings except for the survival fraction. */
  function ConfigureIntended(cCount: nat, vCount: nat, cross: bool, spliceFlag: bool, bPercent: real, dPercent: Option<real>,
                             savePercent: real, mutations: real, samelimit: int, genlimit: int, eThreshold: nat): (r: Option<Settings>)
    ensures r.None? <==> bPercent <= 0.0
    ensures r.Some? ==> r.value.survival + DropFraction(bPercent, dPercent) == 1.0
    ensures r.Some? ==> r.value == Configure(cCount, vCount, cross, spliceFlag, bPercent, dPercent, savePercent,
                                             mutations, samelimit, genlimit, eThreshold).value.(survival := r.value.survival)
  {
    var r := Configure(cCount, vCount, cross, spliceFlag, bPercent, dPercent, savePercent, mutations, samelimit, genlimit, eThreshold);
    if r.None? then None else Some(r.value.(survival := 1.0 - DropFraction(bPercent, dPercent)))
  }

  /** Without d_percent a run configured as intended keeps the complement
      of the fraction it breeds; with d_percent both readings agree. */
  lemma SurvivalDefault(cCount: nat, vCount: nat, cross: bool, spliceFlag: bool, bPercent: real, dPercent: Option<real>,
                        savePercent: real, mutations: real, samelimit: int, genlimit: int, eThreshold: nat)
    requires bPercent > 0.0
    ensures var r := ConfigureIntended(cCount, vCount, cross, spliceFlag, bPercent, dPercent, savePercent, mutations, samelimit, genlimit, eThreshold);
      r.Some? && (dPercent.None? ==> r.value.survival == 1.0 - r.value.breed)
    ensures dPercent.Some? ==>
      ConfigureIntended(cCount, vCount, cross, spliceFlag, bPercent, dPercent, savePercent, mutations, samelimit, genlimit, eThreshold)
      == Configure(cCount, vCount, cross, spliceFlag, bPercent, dPercent, savePercent, mutations, samelimit, genlimit, eThreshold)
  {
  }

  /** With b_percent = 20 and no d_percent the configured run keeps 99.8%
      of each generation, where the intended reading keeps 80%. */
  lemma SurvivalAsWritten(cCount: nat, vCount: nat, cross: bool, spliceFlag: bool,
                          savePercent: real, mutations: real, samelimit: int, genlimit: int, eThreshold: nat)
    ensures Configure(cCount, vCount, cross, spliceFlag, 20.0, None, savePercent, mutations, samelimit, genlimit, eThreshold).value.survival == 0.998
    ensures ConfigureIntended(cCount, vCount, cross, spliceFlag, 20.0, None, savePercent, mutations, samelimit, genlimit, eThreshold).value.survival == 0.8
  {
    DropDefaultAsWritten();
  }

  // ---------------------------------------------------------------------
  // Counts

  /** ceil. */
  function Ceil(x: real): (n: int)
    ensures x <= n as real < x + 1.0
  {
    if x.Floor as real == x then x.Floor else x.Floor + 1
  }

  /** round: to the nearest integer, halves away from zero. */
  function Round(x: real): (n: int)
    ensures x >= 0.0 ==> n as real - 0.5 <= x < n as real + 0.5
    ensures x < 0.0 ==> n as real - 0.5 < x <= n as real + 0.5
  {
    if x >= 0.0 then (x + 0.5).Floor else -((-x + 0.5).Floor)
  }

  lemma ScaleBelow(size: nat, f: real)
    requires f <= 1.0
    ensures size as real * f <= size as real
  {
    assert size as real * f - size as real == size as real * (f - 1.0);
  }

  lemma ScaleAbove(size: nat, f: real)
    requires f >= 0.0
    ensures size as real * f >= 0.0
  {
  }

  /** mv_count: how many entries of the map survive the cull; never more
      than the map holds when the survival fraction is at most 1. */
  function CullCount(size: nat, survival: real): (n: int)
    ensures survival <= 1.0 ==> n <= size
    ensures survival >= 0.0 ==> n >= 0
  {
    var x := size as real * survival;
    assert survival <= 1.0 ==> x <= size as real by {
      if survival <= 1.0 { ScaleBelow(size, survival); }
    }
    assert survival >= 0.0 ==> x >= 0.0 by {
      if survival >= 0.0 { ScaleAbove(size, survival); }
    }
    Ceil(x)
  }

  /** save_count: the elite carried over. */
  function SaveCount(save: real, size: nat): (n: nat)
    requires save >= 0.0
    ensures save == 0.0 ==> n == 0
  {
    ScaleAbove(size, save);
    Ceil(save * size as real)
  }

  /** b_count: the breeding map's target size, at least 2. */
  function BreedCount(breed: real, size: nat): (n: nat)
    requires breed > 0.0
    ensures n >= 2
    ensures n > 2 ==> n == Round(breed * size as real)
    ensures Round(breed * size as real) >= 2 ==> n == Round(breed * size as real)
    ensures Round(breed * size as real) < 2 ==> n == 2
  {
    ScaleAbove(size, breed);
    var b := Round(breed * size as real);
    if b < 2 then 2 else b
  }

  /** c_count * 200 in unsigned 32-bit arithmetic. */
  function Bailout(cCount: nat): (n: nat)
    ensures n < 0x1_0000_0000
    ensures cCount * 200 < 0x1_0000_0000 ==> n == cCount * 200
  {
    (cCount * 200) % 0x1_0000_0000
  }

  // ---------------------------------------------------------------------
  // One generation

  /** The breeders of a generation: the culled population and the
      breeding map with the next rng cursor, or the undefined corner of a
      tournament over an empty population (the modulo by zero). */
  datatype Selection =
    | Selected(gen: seq<Individual>, pool: Index, next: nat)
    | NoParents

  /** The loop body from the cull to the filled breeding map: the cull,
      the elite taken from the map before the cull, and the tournament. */
  method SelectBreeders(s: Settings, sorted: Index, n: nat, rng: Words, at: nat) returns (r: Selection)
    requires Filed(sorted, n)
    requires s.survival <= 1.0 && s.save >= 0.0 && s.breed > 0.0
    ensures r.NoParents? <==> CullCount(|sorted|, s.survival) <= 0 && Bailout(s.cCount) > 0
    ensures r.Selected? ==> |r.gen| == Max(CullCount(|sorted|, s.survival), 0) && Fits(r.gen, n)
    ensures r.Selected? ==> Ordered(r.pool) && IndexFits(r.pool, n)
    ensures r.Selected? ==> r.gen == Members(sorted[..Max(CullCount(|sorted|, s.survival), 0)])
    ensures r.Selected? ==>
      (r.pool, r.next) == Tournament(r.gen, sorted[..Min(SaveCount(s.save, |r.gen|), |sorted|)], BreedCount(s.breed, |r.gen|),
                                     Bailout(s.cCount), rng, at)
  {
    // cull
    var mvCount := CullCount(|sorted|, s.survival);
    var gen := Cull(sorted, mvCount);
    CulledFit(sorted, mvCount, n);
    // elitism, from the map before the cull
    var pool := Elite(sorted, SaveCount(s.save, |gen|));
    // tournament
    var bCount := BreedCount(s.breed, |gen|);
    var bailout := Bailout(s.cCount);
    if |gen| == 0 && |pool| < bCount && bailout > 0 {
      return NoParents;
    }
    assert |gen| == 0 ==> CullCount(|sorted|, s.survival) <= 0;
    var next: nat;
    ghost var elite := pool;
    PoolFits(gen, elite, sorted, bCount, bailout, rng, at, n);
    pool, next := SelectParents(gen, pool, bCount, bailout, rng, at);
    r := Selected(gen, pool, next);
  }

  /** The rest of the loop body: breeding, mutation, scoring, removal of
      the dead and the new map; or the undefined corner of a breeding map
      of fewer than two entries when children are still needed (the
      cursors step past its end). */
  datatype Cycle =
    | Bred(gen: seq<Individual>, sorted: Index, bred: nat, mutated: nat, nextWord: nat, nextUnit: nat)
    | PoolTooSmall

  method Regenerate(s: Settings, cities: seq<City>, range: Range, gen: seq<Individual>, pool: Index,
                    rng: Words, units: Units, at: nat, u: nat)
    returns (r: Cycle)
    requires 0 < |cities| && Fits(gen, |cities|) && Ordered(pool) && IndexFits(pool, |cities|)
    ensures r.PoolTooSmall? <==> |gen| < s.cCount && |pool| < 2
    ensures r.Bred? ==> r.sorted == IndexOf(r.gen) && Filed(r.sorted, |cities|)
    ensures r.Bred? ==> Alive(r.gen) && Fits(r.gen, |cities|) && |r.gen| <= Max(|gen|, s.cCount)
    ensures r.Bred? ==> r.bred == |pool| && r.mutated <= Max(|gen|, s.cCount)
    ensures r.Bred? ==> Offspring(gen, pool, s.cCount, |cities|, s.splice, rng, at, 0, 0, Default()).Ok?
    ensures r.Bred? ==>
      var brood := Offspring(gen, pool, s.cCount, |cities|, s.splice, rng, at, 0, 0, Default()).value;
      var pass := Mutations(brood.gen, 0, |cities|, s.mutations, units, u, rng, brood.next, 0);
      pass.Ok? && Fits(pass.value.gen, |cities|)
      && r.gen == Survivors(Scored(cities, range, pass.value.gen))
      && r.mutated == pass.value.mutated && r.nextWord == pass.value.nextWord && r.nextUnit == pass.value.nextUnit
  {
    var gensize := |cities|;
    if |gen| < s.cCount && |pool| < 2 {
      return PoolTooSmall;
    }
    // breeding
    var brood := Breed(gen, pool, s.cCount, gensize, s.splice, rng, at);
    OffspringFacts(gen, pool, s.cCount, gensize, s.splice, rng, at, 0, 0, Default());
    var children := brood.value;
    NewbornsFit(gen, children.gen, gensize);
    // mutation
    var pass := MutatePass(children.gen, gensize, s.mutations, units, u, rng, children.next);
    MutationsFacts(children.gen, 0, gensize, s.mutations, units, u, rng, children.next, 0);
    var mutated := pass.value;
    // re-evaluation, removal of the dead, the new map
    var scored := EvaluateAll(cities, range, mutated.gen);
    var live := RemoveDead(scored);
    SurvivorsAlive(scored, gensize);
    SurvivorsBound(scored);
    var index := BuildIndex(live);
    IndexOfFiled(live, gensize);
    r := Bred(live, index, |pool|, mutated.mutated, mutated.nextWord, mutated.nextUnit);
  }

  /** The culled population has one gene per city. */
  lemma CulledFit(sorted: Index, mvCount: int, n: nat)
    requires IndexFits(sorted, n) && mvCount <= |sorted|
    ensures Fits(Members(sorted[..Max(mvCount, 0)]), n)
  {
  }

  /** Every entry of the breeding map has one gene per city. */
  lemma PoolFits(gen: seq<Individual>, elite: Index, sorted: Index, bCount: nat, bailout: nat, rng: Words, at: nat, n: nat)
    requires Fits(gen, n) && IndexFits(sorted, n) && Ordered(sorted)
    requires elite == sorted[..Min(|elite|, |sorted|)]
    requires |gen| > 0 || |elite| >= bCount || bailout == 0
    ensures IndexFits(Tournament(gen, elite, bCount, bailout, rng, at).0, n)
  {
    var r := Tournament(gen, elite, bCount, bailout, rng, at).0;
    forall i | 0 <= i < |r|
      ensures |r[i].member.genes| == n
    {
      TournamentEntries(gen, elite, bCount, bailout, rng, at, r[i]);
    }
  }

  /** The population after breeding has one gene per city. */
  lemma NewbornsFit(gen: seq<Individual>, children: seq<Individual>, n: nat)
    requires Fits(gen, n) && |children| >= |gen| && children[..|gen|] == gen
    requires forall i :: |gen| <= i < |children| ==> Newborn(children[i], n)
    ensures Fits(children, n)
  {
    forall i | 0 <= i < |gen|
      ensures |children[i].genes| == n
    {
      assert children[i] == children[..|gen|][i];
    }
  }

  // ---------------------------------------------------------------------
  // Convergence tracking

  /** The run's tracking state: the best fitness of the last generation
      that changed it, the best-ever chromosome, the generation that first
      reached it, and the sameness countdown. */
  datatype Tracking = Tracking(currentBest: real, winner: Individual, firstBest: nat, sameness: int)

  /** The winner before any generation: a default chromosome with fitness
      1e30. */
  function Sentinel(): (w: Individual)
    ensures w.fitness == 1.0e30 && w.genes == []
  {
    Default().(fitness := 1.0e30)
  }

  /** The tracking state before the first generation; current_best starts
      at 0. */
  function StartTracking(samelimit: int): (t: Tracking)
    ensures t.winner == Sentinel() && t.firstBest == 0 && t.sameness == samelimit
  {
    Tracking(0.0, Sentinel(), 0, samelimit)
  }

  /** The end of a generation: a best fitness different from current_best
      becomes current_best, makes its chromosome the winner (and records
      the generation) when it beats the winner, and restarts the sameness
      countdown; an entropy above the threshold restarts it as well. */
  function Track(t: Tracking, best: Individual, generation: nat, entropy: real, samelimit: int, eThreshold: nat): (r: Tracking)
    ensures r.winner.fitness <= t.winner.fitness
    ensures r.currentBest == best.fitness
    ensures t.currentBest != best.fitness && t.winner.fitness > best.fitness ==> r.winner == best && r.firstBest == generation
    ensures !(t.currentBest != best.fitness && t.winner.fitness > best.fitness) ==> r.winner == t.winner && r.firstBest == t.firstBest
    ensures r.sameness == if t.currentBest != best.fitness || entropy > eThreshold as real then samelimit else t.sameness
  {
    var t1 :=
      if t.currentBest != best.fitness then
        if t.winner.fitness > best.fitness then Tracking(best.fitness, best, generation, samelimit)
        else Tracking(best.fitness, t.winner, t.firstBest, samelimit)
      else t;
    if entropy > eThreshold as real then t1.(sameness := samelimit) else t1
  }

  /** The winner is at least as good as current_best, unless current_best
      still has its starting value. */
  predicate Tracked(t: Tracking) {
    t.currentBest == 0.0 || t.winner.fitness <= t.currentBest
  }

  /** Tracking keeps that, and after it the winner is at least as good as
      the generation's best — unless that best is exactly 0 and equal to
      current_best. */
  lemma TrackKeepsBest(t: Tracking, best: Individual, generation: nat, entropy: real, samelimit: int, eThreshold: nat)
    requires Tracked(t)
    ensures Tracked(Track(t, best, generation, entropy, samelimit, eThreshold))
    ensures best.fitness != 0.0 ==> Track(t, best, generation, entropy, samelimit, eThreshold).winner.fitness <= best.fitness
  {
  }

  /** A best of exactly 0 in the first generation equals the starting
      current_best, so it never becomes the winner. */
  lemma ZeroBestNeverWins(best: Individual, entropy: real, samelimit: int, eThreshold: nat)
    requires best.fitness == 0.0
    ensures Track(StartTracking(samelimit), best, 1, entropy, samelimit, eThreshold).winner == Sentinel()
    ensures Track(StartTracking(samelimit), best, 1, entropy, samelimit, eThreshold).winner.fitness > best.fitness
  {
  }

  // ---------------------------------------------------------------------
  // The run

  /** One line of the per-generation output (the elapsed time is not
      modelled). */
  datatype Report = Report(generation: nat, best: real, worst: real, average: real,
                           count: nat, bred: nat, entropy: real, mutated: nat)

  datatype RunOutcome =
    | Finished(winner: Individual, firstBest: nat, generations: nat, reports: seq<Report>)
    | Undefined(generation: nat)
    | SeedingUnfinished

  /** What every report of a run says about its generation. */
  predicate SoundReport(rep: Report, i: nat) {
    rep.generation == i + 1 && rep.count > 0
    && 0.0 <= rep.best <= rep.worst && rep.average == (rep.best + rep.worst) / 2.0
    && 0.0 < rep.entropy <= 100.0
  }

  /** What the tracking state says about the reports so far. */
  predicate WinnerTracked(t: Tracking, reports: seq<Report>) {
    Tracked(t)
    && (forall i :: 0 <= i < |reports| && reports[i].best != 0.0 ==> t.winner.fitness <= reports[i].best)
    && (t.firstBest == 0 ==> t.winner == Sentinel())
    && (t.firstBest != 0 ==> t.firstBest <= |reports| && t.winner.fitness == reports[t.firstBest - 1].best)
  }

  /** The last n reports each had an entropy of at most e_threshold and
      the same best as the report before them (0 before the first): the
      generations in which the sameness countdown was not reset. */
  predicate Settled(reports: seq<Report>, n: nat, eThreshold: nat) {
    n <= |reports|
    && forall i :: |reports| - n <= i < |reports| ==>
         reports[i].entropy <= eThreshold as real && reports[i].best == PreviousBest(reports, i)
  }

  /** The current_best in force before report i was made. */
  function PreviousBest(reports: seq<Report>, i: nat): (b: real)
    requires i <= |reports|
    ensures i > 0 ==> b == reports[i - 1].best
    ensures i == 0 ==> b == 0.0
  {
    if i == 0 then 0.0 else reports[i - 1].best
  }

  /** The sameness countdown against the reports so far: it stays negative
      when samelimit is, and otherwise it has run down once per settled
      generation since it was last reset. */
  predicate Countdown(t: Tracking, reports: seq<Report>, s: Settings) {
    t.currentBest == PreviousBest(reports, |reports|)
    && (s.samelimit < 0 ==> t.sameness < 0)
    && (s.samelimit >= 0 ==> 0 <= s.samelimit - t.sameness <= |reports|
                             && Settled(reports, s.samelimit - t.sameness, s.eThreshold))
  }

  /** One generation's decrement and tracking keep the countdown: the
      generation either resets it or is one more settled generation. */
  lemma CountdownStep(t: Tracking, reports: seq<Report>, rep: Report, best: Individual, entropy: real, s: Settings)
    requires Countdown(t, reports, s) && t.sameness != 0
    requires rep.best == best.fitness && rep.entropy == entropy
    ensures Countdown(Track(t.(sameness := t.sameness - 1), best, |reports| + 1, entropy, s.samelimit, s.eThreshold),
                      reports + [rep], s)
  {
    var after := Track(t.(sameness := t.sameness - 1), best, |reports| + 1, entropy, s.samelimit, s.eThreshold);
    var logged := reports + [rep];
    if s.samelimit >= 0 && after.sameness != s.samelimit {
      var n := s.samelimit - after.sameness;
      forall i | |logged| - n <= i < |logged|
        ensures logged[i].entropy <= s.eThreshold as real && logged[i].best == PreviousBest(logged, i)
      {
        if i < |reports| {
          assert logged[i] == reports[i];
          assert PreviousBest(logged, i) == PreviousBest(reports, i);
        }
      }
    }
  }

  /** The report of a generation and the tracking after it. */
  method Conclude(t: Tracking, reports: seq<Report>, gen: seq<Individual>, sorted: Index, n: nat, bred: nat, mutated: nat,
                  s: Settings)
    returns (after: Tracking, logged: seq<Report>)
    requires gen != [] && sorted == IndexOf(gen) && Filed(sorted, n)
    requires WinnerTracked(t, reports) && forall i :: 0 <= i < |reports| ==> SoundReport(reports[i], i)
    ensures WinnerTracked(after, logged) && forall i :: 0 <= i < |logged| ==> SoundReport(logged[i], i)
    ensures |sorted| > 0
    ensures logged
         == reports + [Report(|reports| + 1, sorted[0].member.fitness, sorted[|sorted| - 1].member.fitness,
                   (sorted[0].member.fitness + sorted[|sorted| - 1].member.fitness) / 2.0,
                   |gen|, bred, Entropy(|sorted|, |gen|), mutated)]
    ensures after == Track(t, sorted[0].member, |reports| + 1, Entropy(|sorted|, |gen|), s.samelimit, s.eThreshold)
  {
    EntropyBounds(gen);
    IndexOfSize(gen);
    var generation := |reports| + 1;
    var entropy := Entropy(|sorted|, |gen|);
    var best, worst := sorted[0].member, sorted[|sorted| - 1].member;
    logged := reports + [Report(generation, best.fitness, worst.fitness, (best.fitness + worst.fitness) / 2.0,
                                  |gen|, bred, entropy, mutated)];
    TrackKeepsBest(t, best, generation, entropy, s.samelimit, s.eThreshold);
    after := Track(t, best, generation, entropy, s.samelimit, s.eThreshold);
  }

  /** What a run that got past seeding promises: a finished run made at
      most genlimit generations, one sound report each, and stopped early
      only when its last samelimit reports were settled; its winner is the
      best reported and first_best names the generation that found it. An
      undefined corner names a generation within the limit. */
  predicate SoundOutcome(r: RunOutcome, s: Settings) {
    (r.Finished? ==>
       && r.generations == |r.reports| <= s.genlimit
       && (forall i :: 0 <= i < |r.reports| ==> SoundReport(r.reports[i], i))
       && r.winner.fitness <= 1.0e30
       && (forall i :: 0 <= i < |r.reports| && r.reports[i].best != 0.0 ==> r.winner.fitness <= r.reports[i].best)
       && (r.firstBest != 0 ==> r.firstBest <= r.generations && r.winner.fitness == r.reports[r.firstBest - 1].best)
       && (r.firstBest == 0 ==> r.winner == Sentinel())
       && (s.samelimit < 0 ==> r.generations == s.genlimit)
       && (s.samelimit >= 0 ==> Min(s.samelimit, s.genlimit) <= r.generations)
       && (r.generations < s.genlimit ==> 0 <= s.samelimit && Settled(r.reports, s.samelimit, s.eThreshold)))
    && (r.Undefined? ==> 1 <= r.generation <= s.genlimit)
  }

  /** The whole run: the first generation, then the generation loop. */
  method Run(s: Settings, cities: seq<City>, range: Range, rng: Words, units: Units, lrand: Lrands, fuel: nat)
    returns (r: RunOutcome)
    requires 0 < |cities| && s.genlimit >= 0
    requires s.survival <= 1.0 && s.save >= 0.0 && s.breed > 0.0
    ensures r.SeedingUnfinished? <==> Seeding(Attempts(cities, range, s.vCount != 0, lrand), |cities|, [],
                                              if s.vCount == 0 then s.cCount else s.vCount, 0, fuel).None?
    ensures SoundOutcome(r, s)
  {
    var first := FirstGeneration(s, cities, range, lrand, fuel);
    if first.None? {
      return SeedingUnfinished;
    }
    r := Evolve(s, cities, range, rng, units, first.value.1);
  }

  /** The generation loop, from the first map, while neither the sameness
      countdown nor the generation limit has reached zero, one report per
      generation. */
  method Evolve(s: Settings, cities: seq<City>, range: Range, rng: Words, units: Units, first: Index)
    returns (r: RunOutcome)
    requires 0 < |cities| && s.genlimit >= 0 && Filed(first, |cities|)
    requires s.survival <= 1.0 && s.save >= 0.0 && s.breed > 0.0
    ensures !r.SeedingUnfinished? && SoundOutcome(r, s)
  {
    var gensize := |cities|;
    var sorted := first;
    var t := StartTracking(s.samelimit);
    var reports: seq<Report> := [];
    var genLeft := s.genlimit;
    var at, u := 0, 0;
    while t.sameness != 0 && genLeft != 0
      invariant 0 <= genLeft && |reports| == s.genlimit - genLeft
      invariant Filed(sorted, gensize)
      invariant WinnerTracked(t, reports) && t.winner.fitness <= 1.0e30
      invariant forall i :: 0 <= i < |reports| ==> SoundReport(reports[i], i)
      invariant Countdown(t, reports, s)
      decreases genLeft
    {
      // the post-decrements of the loop test
      var before, logged := t, reports;
      t := t.(sameness := t.sameness - 1);
      assert WinnerTracked(t, reports);
      genLeft := genLeft - 1;
      var breeders := SelectBreeders(s, sorted, gensize, rng, at);
      if breeders.NoParents? {
        return Undefined(|reports| + 1);
      }
      var c := Regenerate(s, cities, range, breeders.gen, breeders.pool, rng, units, breeders.next, u);
      if c.PoolTooSmall? {
        return Undefined(|reports| + 1);
      }
      var gen := c.gen;
      sorted, at, u := c.sorted, c.nextWord, c.nextUnit;
      if gen == [] {
        // the report reads the first entry of an empty map
        return Undefined(|reports| + 1);
      }
      t, reports := Conclude(t, reports, gen, sorted, gensize, c.bred, c.mutated, s);
      CountdownStep(before, logged, reports[|logged|], sorted[0].member, Entropy(|sorted|, |gen|), s);
    }
    r := Finished(t.winner, t.firstBest, |reports|, reports);
  }

  /** Seeding (v_count viable members, or c_count random ones when
      v_count is 0), the first scoring, the removal of the dead and the
      first map; None when the seeding fuel runs out. */
  method FirstGeneration(s: Settings, cities: seq<City>, range: Range, lrand: Lrands, fuel: nat)
    returns (r: Option<(seq<Individual>, Index)>)
    requires 0 < |cities|
    ensures r.Some? ==> r.value.1 == IndexOf(r.value.0) && Filed(r.value.1, |cities|)
    ensures r.Some? ==> Alive(r.value.0) && Fits(r.value.0, |cities|)
    ensures r.Some? <==> Seeding(Attempts(cities, range, s.vCount != 0, lrand), |cities|, [],
                                 if s.vCount == 0 then s.cCount else s.vCount, 0, fuel).Some?
    ensures r.Some? ==>
      var seeded := Seeding(Attempts(cities, range, s.vCount != 0, lrand), |cities|, [],
                            if s.vCount == 0 then s.cCount else s.vCount, 0, fuel).value.gen;
      Fits(seeded, |cities|) && r.value.0 == Survivors(Scored(cities, range, seeded))
  {
    var target := if s.vCount == 0 then s.cCount else s.vCount;
    var vTest := s.vCount != 0;
    var seeded := Seed(Attempts(cities, range, vTest, lrand), |cities|, target, 0, fuel);
    if seeded.None? {
      return None;
    }
    SeedFits(cities, range, target, vTest, lrand, fuel);
    var scored := EvaluateAll(cities, range, seeded.value.gen);
    var gen := RemoveDead(scored);
    SurvivorsAlive(scored, |cities|);
    var sorted := BuildIndex(gen);
    IndexOfFiled(gen, |cities|);
    r := Some((gen, sorted));
  }

  /** The seeded population has one gene per city. */
  lemma SeedFits(cities: seq<City>, range: Range, target: nat, vTest: bool, lrand: Lrands, fuel: nat)
    requires 0 < |cities| && Seeding(Attempts(cities, range, vTest, lrand), |cities|, [], target, 0, fuel).Some?
    ensures Fits(Seeding(Attempts(cities, range, vTest, lrand), |cities|, [], target, 0, fuel).value.gen, |cities|)
  {
    var trials := Attempts(cities, range, vTest, lrand);
    var g := Seeding(trials, |cities|, [], target, 0, fuel).value.gen;
    forall i | 0 <= i < |g|
      ensures |g[i].genes| == |cities|
    {
      SeedingMembers(trials, |cities|, [], target, 0, fuel, g[i]);
      var k :| trials(k) == Some(g[i]);
      AttemptSeedling(cities, range, vTest, lrand, k);
    }
  }
}
