/** The world of the travelling-salesman test (class world): the cities,
    the visiting order a chromosome encodes, its fitness (the length of the
    closed tour, or -1 when the tour does not start at the first city) and
    its printed route. */
module Tour {
  import opened Genome
  import opened BasicChromosomes
  import opened Chromosomes

  /** A point of nrtb::triad<float>. */
  datatype Triad = Triad(x: real, y: real, z: real)

  datatype City = City(name: string, loc: Triad)

  /** triad::range, the distance between two points. It is a parameter of
      the model: the source computes it with floating-point sqrt. */
  type Range = (Triad, Triad) -> real

  /** Distances are never negative. */
  ghost predicate Metric(range: Range) {
    forall p, q :: range(p, q) >= 0.0
  }

  /** An element of the rank_map multimap: a gene value and the index of
      the city it was read for. */
  datatype RankEntry = RankEntry(key: int, at: nat)

  /** The order of the rank map: by key, then by insertion. */
  predicate Before(x: RankEntry, y: RankEntry) {
    x.key < y.key || (x.key == y.key && x.at < y.at)
  }

  predicate LexSorted(r: seq<RankEntry>) {
    forall i, j :: 0 <= i < j < |r| ==> Before(r[i], r[j])
  }

  /** multimap::insert: the new element goes after every element whose key
      is not greater than its own (the upper bound of its key). */
  function InsertRanked(r: seq<RankEntry>, e: RankEntry): (res: seq<RankEntry>)
    ensures |res| == |r| + 1
    ensures multiset(res) == multiset(r) + multiset{e}
  {
    if r == [] then [e]
    else if e.key < r[0].key then [e] + r
    else
      assert r == [r[0]] + r[1..];
      [r[0]] + InsertRanked(r[1..], e)
  }

  /** Inserting an element that was read after all the others keeps the
      map in (key, insertion) order. */
  lemma {:induction false} InsertKeepsOrder(r: seq<RankEntry>, e: RankEntry)
    requires LexSorted(r)
    requires forall i :: 0 <= i < |r| ==> r[i].at < e.at
    ensures LexSorted(InsertRanked(r, e))
    decreases |r|
  {
    if r != [] && e.key >= r[0].key {
      InsertKeepsOrder(r[1..], e);
      var tail := InsertRanked(r[1..], e);
      forall j | 0 <= j < |tail|
        ensures Before(r[0], tail[j])
      {
        assert tail[j] in multiset(tail);
        if tail[j] != e {
          assert tail[j] in multiset(r[1..]);
          var k :| 0 <= k < |r[1..]| && r[1..][k] == tail[j];
          assert r[k + 1] == tail[j];
        }
      }
    }
  }

  /** The entries read from the first n genes: gene i is read for city i. */
  function EntriesUpTo(genes: seq<Gene>, n: nat): multiset<RankEntry>
    requires n <= |genes|
  {
    if n == 0 then multiset{} else EntriesUpTo(genes, n - 1) + multiset{RankEntry(genes[n - 1], n - 1)}
  }

  /** The entries read are exactly the pairs (genes[c], c) for c < n. */
  lemma {:induction false} EntriesUpToMembers(genes: seq<Gene>, n: nat, e: RankEntry)
    requires n <= |genes|
    ensures e in EntriesUpTo(genes, n) <==> e.at < n && e.key == genes[e.at]
  {
    if n > 0 {
      EntriesUpToMembers(genes, n - 1, e);
    }
  }

  /** The rank map after the first n genes were inserted. */
  function RankPrefix(genes: seq<Gene>, n: nat): (r: seq<RankEntry>)
    requires n <= |genes|
    ensures |r| == n
  {
    if n == 0 then [] else InsertRanked(RankPrefix(genes, n - 1), RankEntry(genes[n - 1], n - 1))
  }

  /** The rank map holds exactly the entries read so far. */
  lemma {:induction false} RankPrefixEntries(genes: seq<Gene>, n: nat)
    requires n <= |genes|
    ensures multiset(RankPrefix(genes, n)) == EntriesUpTo(genes, n)
  {
    if n > 0 {
      RankPrefixEntries(genes, n - 1);
    }
  }

  /** Every entry of the rank map names one of the cities read so far. */
  lemma RankPrefixCities(genes: seq<Gene>, n: nat)
    requires n <= |genes|
    ensures forall i :: 0 <= i < n ==> RankPrefix(genes, n)[i].at < n
  {
    var r := RankPrefix(genes, n);
    RankPrefixEntries(genes, n);
    forall i | 0 <= i < n
      ensures r[i].at < n
    {
      assert r[i] in multiset(r);
      EntriesUpToMembers(genes, n, r[i]);
    }
  }

  /** The rank map is in (key, insertion) order. */
  lemma {:induction false} RankPrefixOrder(genes: seq<Gene>, n: nat)
    requires n <= |genes|
    ensures LexSorted(RankPrefix(genes, n))
  {
    if n > 0 {
      RankPrefixOrder(genes, n - 1);
      RankPrefixCities(genes, n - 1);
      InsertKeepsOrder(RankPrefix(genes, n - 1), RankEntry(genes[n - 1], n - 1));
    }
  }

  /** The visiting order: the rank map of all the genes. */
  function Rank(genes: seq<Gene>): (r: seq<RankEntry>)
    ensures |r| == |genes|
  {
    RankPrefix(genes, |genes|)
  }

  /** Every entry of the order is read from the genes: its key is the gene
      of the city it names. */
  lemma RankEntriesAreGenes(genes: seq<Gene>)
    ensures forall i :: 0 <= i < |genes| ==> Rank(genes)[i].at < |genes| && Rank(genes)[i].key == genes[Rank(genes)[i].at]
  {
    RankPrefixEntries(genes, |genes|);
    forall i | 0 <= i < |genes|
      ensures Rank(genes)[i].at < |genes| && Rank(genes)[i].key == genes[Rank(genes)[i].at]
    {
      assert Rank(genes)[i] in multiset(Rank(genes));
      EntriesUpToMembers(genes, |genes|, Rank(genes)[i]);
    }
  }

  /** The visiting order lists every city exactly once, in ascending gene
      order, with equal genes in city-index order. */
  lemma RankIsVisitingOrder(genes: seq<Gene>)
    ensures forall i, j :: 0 <= i < j < |genes| ==> Before(Rank(genes)[i], Rank(genes)[j])
    ensures forall i :: 0 <= i < |genes| ==> Rank(genes)[i].at < |genes| && Rank(genes)[i].key == genes[Rank(genes)[i].at]
    ensures forall c :: 0 <= c < |genes| ==> RankEntry(genes[c], c) in Rank(genes)
    ensures forall i, j :: 0 <= i < j < |genes| ==> Rank(genes)[i].at != Rank(genes)[j].at
  {
    RankPrefixOrder(genes, |genes|);
    RankPrefixEntries(genes, |genes|);
    RankEntriesAreGenes(genes);
    var r := Rank(genes);
    forall c | 0 <= c < |genes|
      ensures RankEntry(genes[c], c) in r
    {
      EntriesUpToMembers(genes, |genes|, RankEntry(genes[c], c));
      assert RankEntry(genes[c], c) in multiset(r);
    }
  }

  /** Ties keep city order: genes [3, 1, 3, 0] visit cities 3, 1, 0, 2. */
  lemma RankExample()
    ensures Rank([3, 1, 3, 0]) == [RankEntry(0, 3), RankEntry(1, 1), RankEntry(3, 0), RankEntry(3, 2)]
  {
    var g: seq<Gene> := [3, 1, 3, 0];
    assert RankPrefix(g, 1) == [RankEntry(3, 0)];
    assert RankPrefix(g, 2) == [RankEntry(1, 1), RankEntry(3, 0)];
    assert RankPrefix(g, 3) == [RankEntry(1, 1), RankEntry(3, 0), RankEntry(3, 2)];
  }

  /** Every entry of the order names a city. */
  predicate InCities(cities: seq<City>, order: seq<RankEntry>) {
    forall i :: 0 <= i < |order| ==> order[i].at < |cities|
  }

  /** The legs of the open path through `order`, summed from the start. */
  function Legs(cities: seq<City>, range: Range, order: seq<RankEntry>): real
    requires InCities(cities, order)
  {
    if |order| <= 1 then 0.0
    else
      var n := |order|;
      Legs(cities, range, order[..n - 1]) + range(cities[order[n - 2].at].loc, cities[order[n - 1].at].loc)
  }

  /** The closed tour: the path plus the leg back to its first city. */
  function TourLength(cities: seq<City>, range: Range, order: seq<RankEntry>): real
    requires InCities(cities, order) && order != []
  {
    Legs(cities, range, order) + range(cities[order[|order| - 1].at].loc, cities[order[0].at].loc)
  }

  /** A tour starts at the first loaded city when its first stop bears that
      city's name. */
  predicate StartsHome(cities: seq<City>, order: seq<RankEntry>)
    requires InCities(cities, order) && order != [] && cities != []
  {
    cities[order[0].at].name == cities[0].name
  }

  /** The rank map of a chromosome with one gene per city names only
      cities. */
  lemma RankInCities(cities: seq<City>, genes: seq<Gene>)
    requires |genes| == |cities|
    ensures InCities(cities, Rank(genes))
  {
    RankEntriesAreGenes(genes);
  }

  /** The tour a chromosome encodes starts at the first loaded city. */
  predicate Viable(cities: seq<City>, genes: seq<Gene>)
    requires 0 < |genes| == |cities|
  {
    RankInCities(cities, genes);
    StartsHome(cities, Rank(genes))
  }

  /** check_fitness when the chromosome has one gene per city. */
  function Fitness(cities: seq<City>, range: Range, genes: seq<Gene>): real
    requires 0 < |genes| == |cities|
  {
    RankInCities(cities, genes);
    if Viable(cities, genes) then TourLength(cities, range, Rank(genes)) else -1.0
  }

  lemma {:induction false} LegsNonNegative(cities: seq<City>, range: Range, order: seq<RankEntry>)
    requires InCities(cities, order) && Metric(range)
    ensures Legs(cities, range, order) >= 0.0
    decreases |order|
  {
    if |order| > 1 {
      LegsNonNegative(cities, range, order[..|order| - 1]);
      var n := |order|;
      assert range(cities[order[n - 2].at].loc, cities[order[n - 1].at].loc) >= 0.0;
    }
  }

  /** The -1 sentinel marks exactly the tours that do not start at the first
      city; every other fitness is a non-negative tour length. */
  lemma FitnessViability(cities: seq<City>, range: Range, genes: seq<Gene>)
    requires 0 < |genes| == |cities| && Metric(range)
    ensures Fitness(cities, range, genes) == -1.0 <==> !Viable(cities, genes)
    ensures Fitness(cities, range, genes) >= 0.0 <==> Fitness(cities, range, genes) != -1.0
  {
    RankInCities(cities, genes);
    var order := Rank(genes);
    LegsNonNegative(cities, range, order);
    assert range(cities[order[|order| - 1].at].loc, cities[order[0].at].loc) >= 0.0;
  }

  /** The visited city names joined by "->". */
  function Join(names: seq<string>): string
    requires names != []
  {
    if |names| == 1 then names[0] else Join(names[..|names| - 1]) + "->" + names[|names| - 1]
  }

  /** The names along an order. */
  function Names(cities: seq<City>, order: seq<RankEntry>): (r: seq<string>)
    requires InCities(cities, order)
    ensures |r| == |order|
    ensures forall i :: 0 <= i < |order| ==> r[i] == cities[order[i].at].name
  {
    seq(|order|, i requires 0 <= i < |order| => cities[order[i].at].name)
  }

  /** show_route when the chromosome has one gene per city. */
  function Route(cities: seq<City>, genes: seq<Gene>): string
    requires 0 < |genes| == |cities|
  {
    RankInCities(cities, genes);
    Join(Names(cities, Rank(genes)))
  }

  /** The joined route begins with the first name and ends with the last,
      with one separator per leg: no leading or trailing "->". */
  lemma {:induction false} JoinEnds(names: seq<string>)
    requires names != []
    ensures |Join(names)| >= |names[0]| && Join(names)[..|names[0]|] == names[0]
    ensures |Join(names)| >= |names[|names| - 1]|
    ensures Join(names)[|Join(names)| - |names[|names| - 1]|..] == names[|names| - 1]
    decreases |names|
  {
    if |names| > 1 {
      var init := names[..|names| - 1];
      JoinEnds(init);
      var j := Join(init);
      assert Join(names) == j + "->" + names[|names| - 1];
      assert (j + "->" + names[|names| - 1])[..|j|] == j;
      assert init[0] == names[0];
      assert Join(names)[..|names[0]|] == j[..|names[0]|];
    }
  }

  /** A route printed for a viable chromosome starts with the name of the
      first loaded city: viability and the printed route read the same
      order. */
  lemma ViableRouteStartsHome(cities: seq<City>, range: Range, genes: seq<Gene>)
    requires 0 < |genes| == |cities| && Metric(range)
    requires Fitness(cities, range, genes) >= 0.0
    ensures |Route(cities, genes)| >= |cities[0].name|
    ensures Route(cities, genes)[..|cities[0].name|] == cities[0].name
  {
    FitnessViability(cities, range, genes);
    RankInCities(cities, genes);
    var names := Names(cities, Rank(genes));
    JoinEnds(names);
  }

  /** What a sanity-checked call gives back: a value, or the exit(1) that
      follows the size check's message. */
  datatype Checked<T> = Done(value: T) | Exit

  /** The loop both check_fitness and show_route open with: gene i of the
      chromosome is inserted into the rank map for city i. */
  method RankMap(genes: seq<Gene>) returns (ranked: seq<RankEntry>)
    ensures ranked == Rank(genes)
  {
    ranked := [];
    var i := 0;
    while i < |genes|
      invariant 0 <= i <= |genes|
      invariant ranked == RankPrefix(genes, i)
    {
      ranked := InsertRanked(ranked, RankEntry(genes[i], i));
      i := i + 1;
    }
  }

  /** The world singleton: the loaded cities. */
  class World {
    var cities: seq<City>

    constructor (loaded: seq<City>)
      ensures cities == loaded
    {
      cities := loaded;
    }

    /** world::length(): the number of cities, the chromosome length. */
    function Length(): (n: nat)
      reads this
      ensures n == |cities|
    {
      |cities|
    }

    /** check_fitness(a). Reading cities[i] for a gene past the last city
        is outside the vector, and a world without cities steps past the
        end of an empty map, so both are excluded. A chromosome with fewer
        genes than cities ends the program. */
    method CheckFitness(range: Range, a: Chromosome) returns (r: Checked<real>)
      requires 0 < |cities| && |a.genome.genes| <= |cities|
      modifies a
      ensures r == Exit <==> |a.genome.genes| < |cities|
      ensures r.Done? ==> r.value == Fitness(cities, range, a.genome.genes) && a.fitness == r.value
      ensures r == Exit ==> a.fitness == old(a.fitness)
    {
      var genes := a.genome.genes;
      var ranked := RankMap(genes);
      if |ranked| != |cities| {
        r := Exit;
        return;
      }
      RankInCities(cities, genes);
      var departing := 0;
      var arriving := 1;
      var total := 0.0;
      while arriving < |ranked|
        invariant 1 <= arriving <= |ranked| && departing == arriving - 1
        invariant total == Legs(cities, range, ranked[..arriving])
      {
        assert ranked[..arriving + 1][..arriving] == ranked[..arriving];
        total := total + range(cities[ranked[departing].at].loc, cities[ranked[arriving].at].loc);
        arriving := arriving + 1;
        departing := departing + 1;
      }
      assert ranked[..arriving] == ranked;
      total := total + range(cities[ranked[departing].at].loc, cities[ranked[0].at].loc);
      assert total == TourLength(cities, range, ranked);
      if cities[ranked[0].at].name != cities[0].name {
        total := -1.0;
      }
      assert total == Fitness(cities, range, genes);
      a.fitness := total;
      r := Done(total);
    }

    /** show_route(a): the names of the cities in visiting order, joined by
        "->"; a chromosome with fewer genes than cities ends the program. */
    method ShowRoute(a: Chromosome) returns (r: Checked<string>)
      requires 0 < |cities| && |a.genome.genes| <= |cities|
      ensures r == Exit <==> |a.genome.genes| < |cities|
      ensures r.Done? ==> r.value == Route(cities, a.genome.genes)
    {
      var genes := a.genome.genes;
      var ranked := RankMap(genes);
      if |ranked| != |cities| {
        r := Exit;
        return;
      }
      RankInCities(cities, genes);
      ghost var names := Names(cities, ranked);
      var current := 0;
      var route := cities[ranked[current].at].name;
      current := current + 1;
      while current < |ranked|
        invariant 1 <= current <= |ranked|
        invariant route == Join(names[..current])
      {
        assert names[..current + 1][..current] == names[..current];
        route := route + "->" + cities[ranked[current].at].name;
        current := current + 1;
      }
      assert names[..current] == names;
      r := Done(route);
    }
  }
}
