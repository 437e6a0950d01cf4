/** The population bookkeeping of the solver's generation loop: scoring the
    gen_list vector, removing the dead, filing the survivors in the
    fitness-keyed map (sorted), the entropy figure, culling and elitism. */
module Population {
  import opened Genome
  import opened Chromosomes
  import opened FitnessIndex
  import opened Tour

  /** Every member has exactly n genes. */
  predicate Fits(l: seq<Individual>, n: nat) {
    forall i :: 0 <= i < |l| ==> |l[i].genes| == n
  }

  /** Every member filed in the map has exactly n genes. */
  predicate IndexFits(m: Index, n: nat) {
    forall i :: 0 <= i < |m| ==> |m[i].member.genes| == n
  }

  /** dead_chromosome: a negative fitness. */
  predicate Dead(c: Individual) {
    c.fitness < 0.0
  }

  /** gen_list after erase(remove_if(..., dead_chromosome())): the live
      members in their original order. */
  function Survivors(l: seq<Individual>): seq<Individual> {
    if l == [] then []
    else Survivors(l[..|l| - 1]) + if Dead(l[|l| - 1]) then [] else [l[|l| - 1]]
  }

  /** A member survives exactly when it was present and is not dead. */
  lemma {:induction false} SurvivorsMembers(l: seq<Individual>, x: Individual)
    ensures x in Survivors(l) <==> x in l && !Dead(x)
    decreases |l|
  {
    if l != [] {
      var init := l[..|l| - 1];
      SurvivorsMembers(init, x);
      assert l == init + [l[|l| - 1]];
    }
  }

  /** Removal keeps relative order: the survivors of a concatenation are
      the survivors of each part, in turn. */
  lemma {:induction false} SurvivorsAppend(a: seq<Individual>, b: seq<Individual>)
    ensures Survivors(a + b) == Survivors(a) + Survivors(b)
    decreases |b|
  {
    if b != [] {
      var init := b[..|b| - 1];
      SurvivorsAppend(a, init);
      assert (a + b)[..|a + b| - 1] == a + init;
      assert (a + b)[|a + b| - 1] == b[|b| - 1];
    } else {
      assert a + b == a;
    }
  }

  /** Survivors keep their gene count. */
  lemma SurvivorsFit(l: seq<Individual>, n: nat)
    requires Fits(l, n)
    ensures Fits(Survivors(l), n) && |Survivors(l)| <= |l|
  {
    SurvivorsBound(l);
    forall i | 0 <= i < |Survivors(l)|
      ensures |Survivors(l)[i].genes| == n
    {
      SurvivorsMembers(l, Survivors(l)[i]);
    }
  }

  lemma {:induction false} SurvivorsBound(l: seq<Individual>)
    ensures |Survivors(l)| <= |l|
    decreases |l|
  {
    if l != [] {
      SurvivorsBound(l[..|l| - 1]);
    }
  }

  /** The remove_if compaction of gen_list. */
  method RemoveDead(l: seq<Individual>) returns (r: seq<Individual>)
    ensures r == Survivors(l)
  {
    r := [];
    var i := 0;
    while i < |l|
      invariant 0 <= i <= |l|
      invariant r == Survivors(l[..i])
    {
      assert l[..i + 1][..i] == l[..i];
      if !Dead(l[i]) {
        r := r + [l[i]];
      }
      i := i + 1;
    }
    assert l[..i] == l;
  }

  /** The population with every member's fitness recomputed from its genes. */
  function Scored(cities: seq<City>, range: Range, l: seq<Individual>): (r: seq<Individual>)
    requires 0 < |cities| && Fits(l, |cities|)
    ensures |r| == |l| && Fits(r, |cities|)
    ensures forall i :: 0 <= i < |l| ==> r[i].genes == l[i].genes
  {
    seq(|l|, i requires 0 <= i < |l| => l[i].(fitness := Fitness(cities, range, l[i].genes)))
  }

  /** for_each(fitness_updater()): world::check_fitness on every member, in
      place. Every member has one gene per city, so the size check passes. */
  method EvaluateAll(cities: seq<City>, range: Range, l: seq<Individual>) returns (r: seq<Individual>)
    requires 0 < |cities| && Fits(l, |cities|)
    ensures |r| == |l| && Fits(r, |cities|)
    ensures forall i :: 0 <= i < |l| ==> r[i] == l[i].(fitness := Fitness(cities, range, l[i].genes))
    ensures r == Scored(cities, range, l)
  {
    r := l;
    var i := 0;
    while i < |l|
      invariant 0 <= i <= |l| && |r| == |l|
      invariant forall j :: 0 <= j < i ==> r[j] == l[j].(fitness := Fitness(cities, range, l[j].genes))
      invariant forall j :: i <= j < |l| ==> r[j] == l[j]
    {
      r := r[i := l[i].(fitness := Fitness(cities, range, l[i].genes))];
      i := i + 1;
    }
  }

  /** After scoring and removal the population is exactly the members with
      a non-negative fitness. */
  lemma EvaluatedSurvivors(cities: seq<City>, range: Range, l: seq<Individual>, scored: seq<Individual>, x: Individual)
    requires 0 < |cities| && Fits(l, |cities|) && |scored| == |l|
    requires forall i :: 0 <= i < |l| ==> scored[i] == l[i].(fitness := Fitness(cities, range, l[i].genes))
    ensures x in Survivors(scored) <==> x in scored && x.fitness >= 0.0
    ensures Fits(Survivors(scored), |cities|)
  {
    SurvivorsMembers(scored, x);
    SurvivorsFit(scored, |cities|);
  }

  /** The fitnesses present in a population. */
  function Fitnesses(l: seq<Individual>): set<real> {
    if l == [] then {} else Fitnesses(l[..|l| - 1]) + {l[|l| - 1].fitness}
  }

  lemma {:induction false} FitnessesOf(l: seq<Individual>, k: real)
    ensures k in Fitnesses(l) <==> exists i :: 0 <= i < |l| && l[i].fitness == k
    decreases |l|
  {
    if l != [] {
      var init := l[..|l| - 1];
      FitnessesOf(init, k);
      if k in Fitnesses(init) {
        var i :| 0 <= i < |init| && init[i].fitness == k;
        assert l[i].fitness == k;
      }
      if exists i :: 0 <= i < |l| && l[i].fitness == k {
        var i :| 0 <= i < |l| && l[i].fitness == k;
        if i < |init| {
          assert init[i].fitness == k;
        }
      }
    }
  }

  /** The last member of l with fitness k. */
  function LastWith(l: seq<Individual>, k: real): Option<Individual> {
    if l == [] then None
    else if l[|l| - 1].fitness == k then Some(l[|l| - 1])
    else LastWith(l[..|l| - 1], k)
  }

  /** No two members share a fitness. */
  predicate Distinct(l: seq<Individual>) {
    forall i, j :: 0 <= i < j < |l| ==> l[i].fitness != l[j].fitness
  }

  /** The map the loop `sorted[gc->fitness] = *gc` builds over gen_list. */
  function IndexOf(l: seq<Individual>): (m: Index)
    ensures Ordered(m)
  {
    if l == [] then [] else Put(IndexOf(l[..|l| - 1]), l[|l| - 1].fitness, l[|l| - 1])
  }

  /** The rebuild of `sorted` from gen_list. */
  method BuildIndex(l: seq<Individual>) returns (sorted: Index)
    ensures sorted == IndexOf(l)
  {
    sorted := [];
    var i := 0;
    while i < |l|
      invariant 0 <= i <= |l|
      invariant sorted == IndexOf(l[..i])
    {
      assert l[..i + 1][..i] == l[..i];
      sorted := Put(sorted, l[i].fitness, l[i]);
      i := i + 1;
    }
    assert l[..i] == l;
  }

  /** The map holds one entry per fitness present, filed under that
      fitness, and that entry is the last member having it: later writes
      win. */
  lemma {:induction false} IndexOfContents(l: seq<Individual>)
    ensures Keyed(IndexOf(l))
    ensures Keys(IndexOf(l)) == Fitnesses(l)
    ensures forall k :: Lookup(IndexOf(l), k) == LastWith(l, k)
    decreases |l|
  {
    if l != [] {
      var init := l[..|l| - 1];
      var last := l[|l| - 1];
      IndexOfContents(init);
      PutKeyed(IndexOf(init), last);
      forall k
        ensures Lookup(IndexOf(l), k) == LastWith(l, k)
      {
        PutLookup(IndexOf(init), last.fitness, last, k);
      }
    }
  }

  /** A population has distinct fitnesses exactly when all but its last
      member do and the last one's fitness is new. */
  lemma DistinctLast(l: seq<Individual>)
    requires l != []
    ensures Distinct(l) <==> Distinct(l[..|l| - 1]) && l[|l| - 1].fitness !in Fitnesses(l[..|l| - 1])
  {
    var init := l[..|l| - 1];
    var last := l[|l| - 1];
    FitnessesOf(init, last.fitness);
    if Distinct(l) {
      forall i, j | 0 <= i < j < |init|
        ensures init[i].fitness != init[j].fitness
      {
        assert l[i].fitness != l[j].fitness;
      }
      forall i | 0 <= i < |init|
        ensures init[i].fitness != last.fitness
      {
        assert l[i].fitness != l[|l| - 1].fitness;
      }
    }
    if Distinct(init) && last.fitness !in Fitnesses(init) {
      forall i, j | 0 <= i < j < |l|
        ensures l[i].fitness != l[j].fitness
      {
        if j == |l| - 1 {
          assert init[i].fitness != last.fitness;
        } else {
          assert init[i].fitness != init[j].fitness;
        }
      }
    }
  }

  /** The map is never larger than the population, and is exactly as large
      when no two members share a fitness. */
  lemma {:induction false} IndexOfSize(l: seq<Individual>)
    ensures |IndexOf(l)| <= |l|
    ensures |IndexOf(l)| == |l| <==> Distinct(l)
    ensures l != [] ==> |IndexOf(l)| > 0
    decreases |l|
  {
    if l != [] {
      var init := l[..|l| - 1];
      IndexOfSize(init);
      IndexOfContents(init);
      DistinctLast(l);
    }
  }

  /** The entropy percentage: distinct fitnesses per member. */
  function Entropy(sortedSize: nat, genSize: nat): real
    requires genSize > 0
  {
    sortedSize as real * 100.0 / genSize as real
  }

  /** For a non-empty population, 0 < entropy <= 100, with 100 exactly when
      every member has its own fitness. */
  lemma EntropyBounds(l: seq<Individual>)
    requires l != []
    ensures 0.0 < Entropy(|IndexOf(l)|, |l|) <= 100.0
    ensures Entropy(|IndexOf(l)|, |l|) == 100.0 <==> Distinct(l)
  {
    IndexOfSize(l);
    RatioBounds(|IndexOf(l)| as real, |l| as real);
  }

  lemma RatioBounds(s: real, g: real)
    requires 0.0 < s <= g
    ensures 0.0 < s * 100.0 / g <= 100.0
    ensures s * 100.0 / g == 100.0 <==> s == g
  {
    var q := s / g;
    assert s * 100.0 / g == q * 100.0;
    assert q * g == s;
  }

  /** The culling loop: gen_list becomes the members of the first mvCount
      entries of the map (none when mvCount is not positive). Walking past
      the end of the map is undefined, so mvCount may not exceed its size. */
  method Cull(sorted: Index, mvCount: int) returns (gen: seq<Individual>)
    requires mvCount <= |sorted|
    ensures gen == Members(sorted[..Max(mvCount, 0)])
  {
    gen := [];
    var glc := 0;
    var count := mvCount;
    while count > 0
      invariant glc == Max(mvCount, 0) - Max(count, 0) && count <= mvCount
      invariant gen == Members(sorted[..glc])
      decreases count
    {
      assert Members(sorted[..glc + 1]) == Members(sorted[..glc]) + [sorted[glc].member];
      gen := gen + [sorted[glc].member];
      glc := glc + 1;
      count := count - 1;
    }
  }

  /** Entries taken from the front of the map are the lowest-fitness
      members, in ascending order, and every member left behind is worse. */
  lemma PrefixIsFittest(sorted: Index, k: nat)
    requires Ordered(sorted) && Keyed(sorted) && k <= |sorted|
    ensures forall i, j :: 0 <= i < j < k ==> Members(sorted[..k])[i].fitness < Members(sorted[..k])[j].fitness
    ensures forall i, j :: 0 <= i < k <= j < |sorted| ==> Members(sorted[..k])[i].fitness < sorted[j].member.fitness
  {
  }

  /** Elitism: with save_count > 0 the first save_count entries of the map
      (or all of them, if fewer) are written to the empty breeding map. */
  method Elite(sorted: Index, saveCount: nat) returns (pool: Index)
    requires Ordered(sorted)
    ensures pool == sorted[..Min(saveCount, |sorted|)]
  {
    pool := [];
    if saveCount > 0 {
      var bCurr := 0;
      var count := saveCount;
      while count != 0 && bCurr != |sorted|
        invariant 0 <= bCurr <= |sorted| && count + bCurr == saveCount
        invariant pool == sorted[..bCurr]
        decreases count
      {
        count := count - 1;
        PutGreatest(pool, sorted[bCurr].key, sorted[bCurr].member);
        assert sorted[..bCurr + 1] == sorted[..bCurr] + [sorted[bCurr]];
        pool := Put(pool, sorted[bCurr].key, sorted[bCurr].member);
        bCurr := bCurr + 1;
      }
    }
  }

  /** Every entry of the map holds a member of the population. */
  lemma {:induction false} IndexOfMembers(l: seq<Individual>, e: Entry)
    requires e in IndexOf(l)
    ensures e.member in l
    decreases |l|
  {
    var init := l[..|l| - 1];
    PutFrom(IndexOf(init), l[|l| - 1].fitness, l[|l| - 1], e);
    if e in IndexOf(init) {
      IndexOfMembers(init, e);
    }
  }

  /** A map filed from live members with n genes: ordered, keyed by
      fitness, every member with n genes and every key non-negative. */
  predicate Filed(m: Index, n: nat) {
    Ordered(m) && Keyed(m) && IndexFits(m, n) && forall i :: 0 <= i < |m| ==> m[i].key >= 0.0
  }

  /** No member is dead. */
  predicate Alive(l: seq<Individual>) {
    forall i :: 0 <= i < |l| ==> !Dead(l[i])
  }

  /** The map of a live population with n genes per member is filed. */
  lemma IndexOfFiled(l: seq<Individual>, n: nat)
    requires Fits(l, n) && Alive(l)
    ensures Filed(IndexOf(l), n)
  {
    var m := IndexOf(l);
    IndexOfContents(l);
    forall i | 0 <= i < |m|
      ensures |m[i].member.genes| == n && m[i].key >= 0.0
    {
      IndexOfMembers(l, m[i]);
    }
  }

  /** Removing the dead leaves a live population. */
  lemma SurvivorsAlive(l: seq<Individual>, n: nat)
    requires Fits(l, n)
    ensures Alive(Survivors(l)) && Fits(Survivors(l), n)
  {
    SurvivorsFit(l, n);
    forall i | 0 <= i < |Survivors(l)|
      ensures !Dead(Survivors(l)[i])
    {
      SurvivorsMembers(l, Survivors(l)[i]);
    }
  }
}
