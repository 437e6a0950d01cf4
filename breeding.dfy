/** The random steps of the solver's generation loop: seeding the first
    generation, the tournament that fills the breeding map, the two-cursor
    walk over the breeding map that pairs parents, breeding the next
    generation and the mutation pass. The random generators are given as the
    streams of values they would return, with cursors saying how many values
    were drawn. */
module Breeding {
  import opened Genome
  import opened Chromosomes
  import opened FitnessIndex
  import opened Tour
  import opened Population

  /** One output of the Mersenne twister (boost::mt19937). */
  type Word32 = x: int | 0 <= x < 0x1_0000_0000

  /** The generator's outputs: draw k is rng(k). */
  type Words = nat -> Word32

  /** The outputs of uniform_01 over its own copy of the twister. */
  type Units = nat -> Fraction

  /** The outputs of lrand48(). */
  type Lrands = nat -> LrandValue

  /** lrand48() draws at, at + 1, ..., at + n - 1. */
  function Draws(lrand: Lrands, at: nat, n: nat): (d: seq<LrandValue>)
    ensures |d| == n
    ensures forall k :: 0 <= k < n ==> d[k] == lrand(at + k)
  {
    seq(n, k requires 0 <= k < n => lrand(at + k))
  }

  // ---------------------------------------------------------------------
  // Seeding

  datatype Seeded = Seeded(gen: seq<Individual>, next: nat)

  /** A member as seeding keeps it: one gene per city, the default
      mutation record, and either its own non-negative fitness (with the
      viability test) or fitness 0 (without). */
  predicate Seedling(cities: seq<City>, range: Range, vTest: bool, c: Individual)
    requires 0 < |cities|
  {
    |c.genes| == |cities| && c.mutationIndex == -1 && c.mutationValue == 0
    && if vTest then c.fitness == Fitness(cities, range, c.genes) >= 0.0 else c.fitness == 0.0
  }

  /** One attempt of the seeding loop: a default chromosome reloaded with
      one gene per city from the lrand48() draws at `at`; with the
      viability test it is scored and kept only when its fitness is
      non-negative. None when it is dropped. */
  function Attempt(cities: seq<City>, range: Range, vTest: bool, lrand: Lrands, at: nat): (r: Option<Individual>)
    requires 0 < |cities|
    ensures !vTest ==> r.Some?
  {
    var loader := Default().(genes := Reloaded([], Draws(lrand, at, |cities|)));
    if !vTest then Some(loader)
    else
      var scored := loader.(fitness := Fitness(cities, range, loader.genes));
      if scored.fitness >= 0.0 then Some(scored) else None
  }

  /** What an attempt keeps is a seedling. */
  lemma AttemptSeedling(cities: seq<City>, range: Range, vTest: bool, lrand: Lrands, at: nat)
    requires 0 < |cities|
    ensures var r := Attempt(cities, range, vTest, lrand, at);
      r.Some? ==> Seedling(cities, range, vTest, r.value)
  {
  }

  /** What each seeding attempt keeps, by the lrand48() cursor it starts
      at: the seeding loop below only needs the attempts' outcomes. */
  type Trials = nat -> Option<Individual>

  /** The attempts of the solver's seeding loop. */
  function Attempts(cities: seq<City>, range: Range, vTest: bool, lrand: Lrands): Trials
    requires 0 < |cities|
  {
    (at: nat) => Attempt(cities, range, vTest, lrand, at)
  }

  /** The population after one attempt. */
  function Grow(gen: seq<Individual>, c: Option<Individual>): (r: seq<Individual>)
    ensures |r| == if c.Some? then |gen| + 1 else |gen|
    ensures r[..|gen|] == gen
    ensures c.Some? ==> r[|gen|] == c.value
  {
    if c.Some? then gen + [c.value] else gen
  }

  /** The seeding loop: attempts follow one another, each `stride` draws
      after the previous one (one draw per city), until the population has
      `target` members. Each attempt spends one unit of fuel; None when the
      fuel runs out first. */
  function Seeding(trials: Trials, stride: nat, gen: seq<Individual>, target: nat, at: nat, fuel: nat): Option<Seeded>
    decreases fuel
  {
    if |gen| >= target then Some(Seeded(gen, at))
    else if fuel == 0 then None
    else Seeding(trials, stride, Grow(gen, trials(at)), target, at + stride, fuel - 1)
  }

  /** When every attempt keeps its member, as without the viability test,
      enough fuel always finishes seeding. */
  lemma {:induction false} SeedingFinishes(trials: Trials, stride: nat, gen: seq<Individual>, target: nat, at: nat, fuel: nat)
    requires forall k :: trials(k).Some?
    requires |gen| + fuel >= target
    ensures Seeding(trials, stride, gen, target, at, fuel).Some?
    decreases fuel
  {
    if |gen| < target {
      SeedingFinishes(trials, stride, Grow(gen, trials(at)), target, at + stride, fuel - 1);
    }
  }

  /** What seeding produces: exactly `target` members (more only if there
      were more already), keeping those it started with in front. */
  lemma {:induction false} SeedingSize(trials: Trials, stride: nat, gen: seq<Individual>, target: nat, at: nat, fuel: nat)
    ensures Seeding(trials, stride, gen, target, at, fuel).Some? ==>
      var r := Seeding(trials, stride, gen, target, at, fuel).value.gen;
      |r| == Max(|gen|, target) && forall i :: 0 <= i < |gen| ==> r[i] == gen[i]
    decreases fuel
  {
    if |gen| < target && fuel > 0 {
      var g := Grow(gen, trials(at));
      assert forall i :: 0 <= i < |gen| ==> g[i] == gen[i] by {
        forall i | 0 <= i < |gen|
          ensures g[i] == gen[i]
        {
          assert g[..|gen|][i] == g[i];
        }
      }
      SeedingSize(trials, stride, g, target, at + stride, fuel - 1);
    }
  }

  /** Every member seeding adds is one an attempt kept. */
  lemma {:induction false} SeedingMembers(trials: Trials, stride: nat, gen: seq<Individual>, target: nat, at: nat, fuel: nat,
                                          x: Individual)
    requires Seeding(trials, stride, gen, target, at, fuel).Some?
    requires x in Seeding(trials, stride, gen, target, at, fuel).value.gen
    ensures x in gen || exists k :: trials(k) == Some(x)
    decreases fuel
  {
    if |gen| < target && fuel > 0 {
      SeedingMembers(trials, stride, Grow(gen, trials(at)), target, at + stride, fuel - 1, x);
    }
  }

  /** The seeding loop of the solver. */
  method Seed(trials: Trials, stride: nat, target: nat, at: nat, fuel: nat) returns (r: Option<Seeded>)
    ensures r == Seeding(trials, stride, [], target, at, fuel)
  {
    var gen: seq<Individual> := [];
    var cursor: nat := at;
    var left := fuel;
    while |gen| < target && left > 0
      invariant Seeding(trials, stride, gen, target, cursor, left) == Seeding(trials, stride, [], target, at, fuel)
      decreases left
    {
      var loader := trials(cursor);
      if loader.Some? {
        gen := gen + [loader.value];
      }
      cursor := cursor + stride;
      left := left - 1;
    }
    if |gen| >= target {
      r := Some(Seeded(gen, cursor));
    } else {
      r := None;
    }
  }

  // ---------------------------------------------------------------------
  // The tournament

  /** One bout: the second competitor wins only when the first is worse
      (has the greater fitness); a tie goes to the first. */
  function Winner(a: Individual, b: Individual): (w: Individual)
    ensures w == a || w == b
    ensures w.fitness <= a.fitness && w.fitness <= b.fitness
    ensures w.fitness == a.fitness ==> w == a
  {
    if Greater(a, b) then b else a
  }

  /** The tournament loop: while the breeding map holds fewer than bCount
      entries and the bailout counter has not run out, two competitors are
      drawn from gen (with rng() % |gen|, possibly the same one twice) and
      the winner is written to the map under its fitness. Returns the map
      and the next rng cursor. The modulo by an empty population is
      undefined, so gen may only be empty when no bout is fought. */
  function Tournament(gen: seq<Individual>, pool: Index, bCount: nat, bailout: nat, rng: Words, at: nat): (r: (Index, nat))
    requires Ordered(pool)
    requires |gen| > 0 || |pool| >= bCount || bailout == 0
    ensures Ordered(r.0)
    ensures |pool| <= |r.0| && at <= r.1 <= at + 2 * bailout
    ensures bCount <= |r.0| || r.1 == at + 2 * bailout
    decreases bailout
  {
    if |pool| >= bCount || bailout == 0 then (pool, at)
    else
      var w := Winner(gen[rng(at) % |gen|], gen[rng(at + 1) % |gen|]);
      Tournament(gen, Put(pool, w.fitness, w), bCount, bailout - 1, rng, at + 2)
  }

  /** The tournament keeps the map ordered and keyed by fitness. */
  lemma {:induction false} TournamentKeyed(gen: seq<Individual>, pool: Index, bCount: nat, bailout: nat, rng: Words, at: nat)
    requires Ordered(pool) && Keyed(pool)
    requires |gen| > 0 || |pool| >= bCount || bailout == 0
    ensures Keyed(Tournament(gen, pool, bCount, bailout, rng, at).0)
    decreases bailout
  {
    if |pool| < bCount && bailout > 0 {
      var w := Winner(gen[rng(at) % |gen|], gen[rng(at + 1) % |gen|]);
      var grown := Put(pool, w.fitness, w);
      PutKeyed(pool, w);
      TournamentStep(gen, pool, bCount, bailout, rng, at);
      TournamentKeyed(gen, grown, bCount, bailout - 1, rng, at + 2);
    }
  }

  /** Every entry the tournament ends with was there before or is a
      member of gen. */
  lemma {:induction false} TournamentEntries(gen: seq<Individual>, pool: Index, bCount: nat, bailout: nat, rng: Words, at: nat, e: Entry)
    requires Ordered(pool)
    requires |gen| > 0 || |pool| >= bCount || bailout == 0
    requires e in Tournament(gen, pool, bCount, bailout, rng, at).0
    ensures e in pool || e.member in gen
    decreases bailout
  {
    if |pool| < bCount && bailout > 0 {
      var a, b := rng(at) % |gen|, rng(at + 1) % |gen|;
      var w := Winner(gen[a], gen[b]);
      var grown := Put(pool, w.fitness, w);
      TournamentStep(gen, pool, bCount, bailout, rng, at);
      TournamentEntries(gen, grown, bCount, bailout - 1, rng, at + 2, e);
      if e in grown {
        PutFrom(pool, w.fitness, w, e);
        assert w == gen[a] || w == gen[b];
      }
    }
  }

  /** So the map can only hold the fitnesses it started with or found in
      gen. */
  lemma TournamentKeys(gen: seq<Individual>, pool: Index, bCount: nat, bailout: nat, rng: Words, at: nat)
    requires Ordered(pool) && Keyed(pool)
    requires |gen| > 0 || |pool| >= bCount || bailout == 0
    ensures Keys(Tournament(gen, pool, bCount, bailout, rng, at).0) <= Keys(pool) + Fitnesses(gen)
  {
    var r := Tournament(gen, pool, bCount, bailout, rng, at).0;
    TournamentKeyed(gen, pool, bCount, bailout, rng, at);
    forall k | k in Keys(r)
      ensures k in Keys(pool) + Fitnesses(gen)
    {
      KeysOf(r, k);
      var i :| 0 <= i < |r| && r[i].key == k;
      TournamentEntries(gen, pool, bCount, bailout, rng, at, r[i]);
      if r[i] in pool {
        var j :| 0 <= j < |pool| && pool[j] == r[i];
        KeysOf(pool, k);
      } else {
        var j :| 0 <= j < |gen| && gen[j] == r[i].member;
        FitnessesOf(gen, k);
      }
    }
  }

    /** The bailout counter at work: when every member has the same fitness,
      the map never holds more than one entry, so asking for two or more
      spends every one of the bailout's bouts. */
  lemma TournamentStalls(gen: seq<Individual>, f: real, bCount: nat, bailout: nat, rng: Words, at: nat)
    requires |gen| > 0 && 2 <= bCount
    requires forall i :: 0 <= i < |gen| ==> gen[i].fitness == f
    ensures var (r, next) := Tournament(gen, [], bCount, bailout, rng, at);
      |r| <= 1 && next == at + 2 * bailout
  {
    var r := Tournament(gen, [], bCount, bailout, rng, at).0;
    TournamentKeys(gen, [], bCount, bailout, rng, at);
    forall k | k in Fitnesses(gen)
      ensures k == f
    {
      FitnessesOf(gen, k);
    }
    assert Keys(r) <= {f};
    KeysCount(r);
    assert |r| <= 1 by {
      if Keys(r) != {} {
        assert Keys(r) == {f};
      }
    }
  }

  /** One bout of the tournament. */
  lemma TournamentStep(gen: seq<Individual>, pool: Index, bCount: nat, bailout: nat, rng: Words, at: nat)
    requires Ordered(pool) && |gen| > 0 && |pool| < bCount && bailout > 0
    ensures var w := Winner(gen[rng(at) % |gen|], gen[rng(at + 1) % |gen|]);
      Tournament(gen, pool, bCount, bailout, rng, at) == Tournament(gen, Put(pool, w.fitness, w), bCount, bailout - 1, rng, at + 2)
  {
  }

  /** The tournament loop of the solver. */
  method SelectParents(gen: seq<Individual>, pool: Index, bCount: nat, bailout: nat, rng: Words, at: nat)
    returns (parents: Index, next: nat)
    requires Ordered(pool)
    requires |gen| > 0 || |pool| >= bCount || bailout == 0
    ensures (parents, next) == Tournament(gen, pool, bCount, bailout, rng, at)
  {
    parents, next := pool, at;
    var left := bailout;
    while |parents| < bCount && left > 0
      invariant Ordered(parents)
      invariant |gen| > 0 || |parents| >= bCount || left == 0
      invariant Tournament(gen, parents, bCount, left, rng, next) == Tournament(gen, pool, bCount, bailout, rng, at)
      decreases left
    {
      var a := rng(next) % |gen|;
      var b := rng(next + 1) % |gen|;
      var best := Winner(gen[a], gen[b]);
      TournamentStep(gen, parents, bCount, left, rng, next);
      parents := Put(parents, best.fitness, best);
      left := left - 1;
      next := next + 2;
    }
  }

  // ---------------------------------------------------------------------
  // Pairing parents

  /** One step of the two map cursors (outer oc, inner ic) over a breeding
      map of n entries: ic moves on; past the end, oc moves on and ic
      follows it; when that runs off the end too, both start over at the
      first pair. Both start at the first entry. Stepping past the end of a
      map with fewer than two entries is undefined. */
  function Advance(oc: nat, ic: nat, n: nat): (nat, nat)
    requires 2 <= n && ((oc == 0 && ic == 0) || oc < ic < n)
  {
    var (o1, i1) := if ic + 1 == n then (oc + 1, oc + 2) else (oc, ic + 1);
    if i1 == n then (0, 1) else (o1, i1)
  }

  /** The number of pairs (o, i), o < i < n, with o below row. */
  function RowStart(row: nat, n: nat): nat
    requires row <= n
  {
    if row == 0 then 0 else RowStart(row - 1, n) + (n - row)
  }

  /** The number of pairs of distinct entries of an n-entry map. */
  function Pairs(n: nat): nat
    requires 1 <= n
  {
    RowStart(n - 1, n)
  }

  /** The position of the pair (oc, ic) in the lexicographic order of all
      pairs oc < ic < n. */
  function PairIndex(oc: nat, ic: nat, n: nat): nat
    requires oc < ic < n
  {
    RowStart(oc, n) + (ic - oc - 1)
  }

  lemma {:induction false} RowStartGrows(a: nat, b: nat, n: nat)
    requires a <= b < n
    ensures RowStart(a, n) + (b - a) <= RowStart(b, n)
    decreases b - a
  {
    if a < b {
      RowStartGrows(a, b - 1, n);
    }
  }

  /** Every pair has a position below the number of pairs, and no two
      pairs share a position. */
  lemma PairIndexBijective(oc: nat, ic: nat, oc2: nat, ic2: nat, n: nat)
    requires oc < ic < n && oc2 < ic2 < n
    ensures PairIndex(oc, ic, n) < Pairs(n)
    ensures PairIndex(oc, ic, n) == PairIndex(oc2, ic2, n) ==> oc == oc2 && ic == ic2
  {
    RowStartGrows(oc + 1, n - 1, n);
    if oc < oc2 {
      RowStartGrows(oc + 1, oc2, n);
    } else if oc2 < oc {
      RowStartGrows(oc2 + 1, oc, n);
    }
  }

  /** The cursors walk through every pair o < i of the breeding map in
      lexicographic order and then start over: each step moves to the next
      position, cyclically, beginning with the first pair. */
  lemma AdvanceCycles(oc: nat, ic: nat, n: nat)
    requires 2 <= n && oc < ic < n
    ensures Advance(0, 0, n) == (0, 1)
    ensures var (o2, i2) := Advance(oc, ic, n);
      o2 < i2 < n
      && PairIndex(o2, i2, n) == if PairIndex(oc, ic, n) + 1 == Pairs(n) then 0 else PairIndex(oc, ic, n) + 1
  {
    PairIndexBijective(oc, ic, oc, ic, n);
    if ic + 1 == n && oc + 2 < n {
      RowStartGrows(oc + 2, n - 1, n);
    } else if ic + 1 < n {
      RowStartGrows(oc + 1, n - 1, n);
    }
  }

  /** With three parents the pairs come as (0,1), (0,2), (1,2), (0,1). */
  lemma AdvanceExample()
    ensures Advance(0, 0, 3) == (0, 1) && Advance(0, 1, 3) == (0, 2)
    ensures Advance(0, 2, 3) == (1, 2) && Advance(1, 2, 3) == (0, 1)
    ensures Pairs(3) == 3
  {
  }

  // ---------------------------------------------------------------------
  // Breeding

  datatype Brood = Brood(gen: seq<Individual>, next: nat)

  /** The breeding loop: until gen has cCount members, the cursors advance
      and `child` is rebuilt from the two parents they point at, by splice
      (two rng() % gensize draws, taken left to right) or by recombine (one
      draw), and a copy is appended. A breeding error ends the program,
      modelled as Err. */
  function Offspring(gen: seq<Individual>, pool: Index, cCount: nat, gensize: nat, splice: bool,
                     rng: Words, at: nat, oc: nat, ic: nat, child: Individual): Result<Brood>
    requires gensize > 0
    requires |gen| >= cCount || 2 <= |pool|
    requires (oc == 0 && ic == 0) || oc < ic < |pool|
    decreases cCount - |gen|
  {
    if |gen| >= cCount then Ok(Brood(gen, at))
    else
      var (oc2, ic2) := Advance(oc, ic, |pool|);
      var a, b := pool[oc2].member, pool[ic2].member;
      var bred := if splice then Spliced(child, a, b, rng(at) % gensize, rng(at + 1) % gensize)
                  else Recombined(child, a, b, rng(at) % gensize);
      var next := if splice then at + 2 else at + 1;
      match bred
      case Err(e) => Err(e)
      case Ok(c) => Offspring(gen + [c], pool, cCount, gensize, splice, rng, next, oc2, ic2, c)
  }

  /** A child as breeding leaves it: one gene per city, fitness 0 and the
      default mutation record. */
  predicate Newborn(c: Individual, gensize: nat) {
    |c.genes| == gensize && c.fitness == 0.0 && c.mutationIndex == -1 && c.mutationValue == 0
  }

  /** When every parent has one gene per city, breeding never fails: gen
      keeps its members and grows to cCount with newborn children. */
  lemma {:induction false} OffspringFacts(gen: seq<Individual>, pool: Index, cCount: nat, gensize: nat, splice: bool,
                                          rng: Words, at: nat, oc: nat, ic: nat, child: Individual)
    requires gensize > 0 && IndexFits(pool, gensize)
    requires |gen| >= cCount || 2 <= |pool|
    requires (oc == 0 && ic == 0) || oc < ic < |pool|
    requires child.mutationIndex == -1 && child.mutationValue == 0
    ensures var r := Offspring(gen, pool, cCount, gensize, splice, rng, at, oc, ic, child);
      r.Ok? && |r.value.gen| == Max(|gen|, cCount) && r.value.gen[..|gen|] == gen
      && (forall i :: |gen| <= i < |r.value.gen| ==> Newborn(r.value.gen[i], gensize))
    decreases cCount - |gen|
  {
    if |gen| < cCount {
      var (oc2, ic2) := Advance(oc, ic, |pool|);
      var c := Child(pool, gensize, splice, rng, at, oc2, ic2, child);
      var next := if splice then at + 2 else at + 1;
      OffspringFacts(gen + [c], pool, cCount, gensize, splice, rng, next, oc2, ic2, c);
      var r := Offspring(gen + [c], pool, cCount, gensize, splice, rng, next, oc2, ic2, c).value.gen;
      assert r[..|gen|] == (gen + [c])[..|gen|];
      assert r[|gen|] == (gen + [c])[|gen|];
    }
  }

  /** The child bred from the pair (oc, ic) when the parents fit. */
  function Child(pool: Index, gensize: nat, splice: bool, rng: Words, at: nat, oc: nat, ic: nat, child: Individual): (c: Individual)
    requires gensize > 0 && IndexFits(pool, gensize) && oc < ic < |pool|
    requires child.mutationIndex == -1 && child.mutationValue == 0
    ensures Newborn(c, gensize)
    ensures (if splice then Spliced(child, pool[oc].member, pool[ic].member, rng(at) % gensize, rng(at + 1) % gensize)
             else Recombined(child, pool[oc].member, pool[ic].member, rng(at) % gensize)) == Ok(c)
  {
    var a, b := pool[oc].member, pool[ic].member;
    if splice then Spliced(child, a, b, rng(at) % gensize, rng(at + 1) % gensize).value
    else Recombined(child, a, b, rng(at) % gensize).value
  }

  /** Breeding draws two rng() values per child for splice, one for
      recombine. */
  lemma {:induction false} OffspringDraws(gen: seq<Individual>, pool: Index, cCount: nat, gensize: nat, splice: bool,
                                          rng: Words, at: nat, oc: nat, ic: nat, child: Individual)
    requires gensize > 0
    requires |gen| >= cCount || 2 <= |pool|
    requires (oc == 0 && ic == 0) || oc < ic < |pool|
    ensures var r := Offspring(gen, pool, cCount, gensize, splice, rng, at, oc, ic, child);
      r.Ok? ==> r.value.next == at + (if splice then 2 else 1) * (|r.value.gen| - |gen|)
    decreases cCount - |gen|
  {
    if |gen| < cCount {
      var (oc2, ic2) := Advance(oc, ic, |pool|);
      var a, b := pool[oc2].member, pool[ic2].member;
      var bred := if splice then Spliced(child, a, b, rng(at) % gensize, rng(at + 1) % gensize)
                  else Recombined(child, a, b, rng(at) % gensize);
      var next := if splice then at + 2 else at + 1;
      if bred.Ok? {
        OffspringDraws(gen + [bred.value], pool, cCount, gensize, splice, rng, next, oc2, ic2, bred.value);
        OffspringGrows(gen + [bred.value], pool, cCount, gensize, splice, rng, next, oc2, ic2, bred.value);
      }
    }
  }

  lemma {:induction false} OffspringGrows(gen: seq<Individual>, pool: Index, cCount: nat, gensize: nat, splice: bool,
                                          rng: Words, at: nat, oc: nat, ic: nat, child: Individual)
    requires gensize > 0
    requires |gen| >= cCount || 2 <= |pool|
    requires (oc == 0 && ic == 0) || oc < ic < |pool|
    ensures var r := Offspring(gen, pool, cCount, gensize, splice, rng, at, oc, ic, child);
      r.Ok? ==> |r.value.gen| >= |gen|
    decreases cCount - |gen|
  {
    if |gen| < cCount {
      var (oc2, ic2) := Advance(oc, ic, |pool|);
      var a, b := pool[oc2].member, pool[ic2].member;
      var bred := if splice then Spliced(child, a, b, rng(at) % gensize, rng(at + 1) % gensize)
                  else Recombined(child, a, b, rng(at) % gensize);
      var next := if splice then at + 2 else at + 1;
      if bred.Ok? {
        OffspringGrows(gen + [bred.value], pool, cCount, gensize, splice, rng, next, oc2, ic2, bred.value);
      }
    }
  }

  /** The breeding loop of the solver; the child is declared afresh every
      generation, and the cursors start at the first entry. */
  method Breed(gen: seq<Individual>, pool: Index, cCount: nat, gensize: nat, splice: bool, rng: Words, at: nat)
    returns (r: Result<Brood>)
    requires gensize > 0
    requires |gen| >= cCount || 2 <= |pool|
    ensures r == Offspring(gen, pool, cCount, gensize, splice, rng, at, 0, 0, Default())
  {
    var next := at;
    var oc, ic := 0, 0;
    var child := Default();
    var out := gen;
    while |out| < cCount
      invariant (oc == 0 && ic == 0) || oc < ic < |pool|
      invariant Offspring(out, pool, cCount, gensize, splice, rng, next, oc, ic, child)
             == Offspring(gen, pool, cCount, gensize, splice, rng, at, 0, 0, Default())
      decreases cCount - |out|
    {
      oc, ic := Advance(oc, ic, |pool|).0, Advance(oc, ic, |pool|).1;
      var bred: Result<Individual>;
      if splice {
        bred := Spliced(child, pool[oc].member, pool[ic].member, rng(next) % gensize, rng(next + 1) % gensize);
        next := next + 2;
      } else {
        bred := Recombined(child, pool[oc].member, pool[ic].member, rng(next) % gensize);
        next := next + 1;
      }
      if bred.Err? {
        return Err(bred.error);
      }
      child := bred.value;
      out := out + [child];
    }
    r := Ok(Brood(out, next));
  }

  // ---------------------------------------------------------------------
  // Mutation

  datatype Mutating = Mutating(gen: seq<Individual>, mutated: nat, nextUnit: nat, nextWord: nat)

  /** The mutation pass from member i on: a probability() draw per member;
      when it is at most `rate`, the member's gene rng() % gensize is set to
      the next rng() draw truncated to a byte (arguments taken left to
      right) and the count goes up. A mutate error ends the program,
      modelled as Err. */
  function Mutations(gen: seq<Individual>, i: nat, gensize: nat, rate: real,
                     units: Units, u: nat, rng: Words, at: nat, mutated: nat): Result<Mutating>
    requires gensize > 0 && i <= |gen|
    decreases |gen| - i
  {
    if i == |gen| then Ok(Mutating(gen, mutated, u, at))
    else if units(u) as real <= rate then
      match Mutated(gen[i], rng(at) % gensize, ToGene(rng(at + 1)))
      case Err(e) => Err(e)
      case Ok(c) => Mutations(gen[i := c], i + 1, gensize, rate, units, u + 1, rng, at + 2, mutated + 1)
    else Mutations(gen, i + 1, gensize, rate, units, u + 1, rng, at, mutated)
  }

  /** `after` is `before`, or `before` with the one gene its mutation
      record names set to the recorded value, fitness untouched. */
  predicate OneGeneChanged(before: Individual, after: Individual) {
    after == before
    || (0 <= after.mutationIndex < |before.genes| && |after.genes| == |before.genes|
        && after.genes[after.mutationIndex] == after.mutationValue
        && (forall p :: 0 <= p < |before.genes| && p != after.mutationIndex ==> after.genes[p] == before.genes[p])
        && after.fitness == before.fitness)
  }

  /** When every member has one gene per city the pass never fails; it
      keeps the population's size and gene counts, changes at most one gene
      of each member and no fitness, and counts at most one mutation per
      member: none at a negative rate, one per member at a rate of 1 or
      more. */
  lemma {:induction false} MutationsFacts(gen: seq<Individual>, i: nat, gensize: nat, rate: real,
                                          units: Units, u: nat, rng: Words, at: nat, mutated: nat)
    requires gensize > 0 && i <= |gen| && Fits(gen, gensize)
    ensures var r := Mutations(gen, i, gensize, rate, units, u, rng, at, mutated);
      r.Ok? && |r.value.gen| == |gen| && Fits(r.value.gen, gensize)
      && (forall k :: 0 <= k < i ==> r.value.gen[k] == gen[k])
      && (forall k :: i <= k < |gen| ==> OneGeneChanged(gen[k], r.value.gen[k]))
      && mutated <= r.value.mutated <= mutated + (|gen| - i)
      && (rate < 0.0 ==> r.value.gen == gen && r.value.mutated == mutated)
      && (rate >= 1.0 ==> r.value.mutated == mutated + (|gen| - i))
      && r.value.nextUnit == u + (|gen| - i)
    decreases |gen| - i
  {
    if i < |gen| {
      if units(u) as real <= rate {
        var c := Mutated(gen[i], rng(at) % gensize, ToGene(rng(at + 1))).value;
        var gen' := gen[i := c];
        MutationsFacts(gen', i + 1, gensize, rate, units, u + 1, rng, at + 2, mutated + 1);
      } else {
        MutationsFacts(gen, i + 1, gensize, rate, units, u + 1, rng, at, mutated);
      }
    }
  }

  /** The mutation pass of the solver. */
  method MutatePass(gen: seq<Individual>, gensize: nat, rate: real, units: Units, u: nat, rng: Words, at: nat)
    returns (r: Result<Mutating>)
    requires gensize > 0
    ensures r == Mutations(gen, 0, gensize, rate, units, u, rng, at, 0)
  {
    var out := gen;
    var mutated := 0;
    var nu, nw := u, at;
    var mCount := |gen|;
    var i := 0;
    while i < mCount
      invariant 0 <= i <= mCount == |out|
      invariant Mutations(out, i, gensize, rate, units, nu, rng, nw, mutated)
             == Mutations(gen, 0, gensize, rate, units, u, rng, at, 0)
    {
      var p := units(nu);
      nu := nu + 1;
      if p as real <= rate {
        var m := Mutated(out[i], rng(nw) % gensize, ToGene(rng(nw + 1)));
        nw := nw + 2;
        if m.Err? {
          return Err(m.error);
        }
        out := out[i := m.value];
        mutated := mutated + 1;
      }
      i := i + 1;
    }
    r := Ok(Mutating(out, mutated, nu, nw));
  }
}
