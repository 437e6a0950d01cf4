/** The travelling-salesman chromosome: a basic_chromosome of byte genes
    plus a fitness. Breeding through it resets the fitness to 0, and the
    comparison operators look at the fitness alone. */
module Chromosomes {
  import opened Genome
  import opened BasicChromosomes

  /** The value of a chromosome, as the population vectors and maps of the
      solver copy it: its genes, its mutation record and its fitness. */
  datatype Individual = Individual(genes: seq<Gene>, mutationIndex: int, mutationValue: int, fitness: real)

  /** A default-constructed chromosome. */
  function Default(): (d: Individual)
    ensures d.genes == [] && d.fitness == 0.0
    ensures d.mutationIndex == -1 && d.mutationValue == 0
  {
    Individual([], -1, 0, 0.0)
  }

  /** chromosome::recombine applied to `child`: the child takes the genes of
      the base recombine and fitness 0, and keeps its mutation record; when
      the base operation throws, the reset is never reached. */
  function Recombined(child: Individual, a: Individual, b: Individual, w: nat): (r: Result<Individual>)
    ensures r.Ok? <==> w < |a.genes| && w < |b.genes|
    ensures r.Err? ==> r.error == RecombineError
    ensures r.Ok? ==> r.value.genes == Recombination(a.genes, b.genes, w).value
    ensures r.Ok? ==> r.value.fitness == 0.0
    ensures r.Ok? ==> r.value.mutationIndex == child.mutationIndex && r.value.mutationValue == child.mutationValue
  {
    match Recombination(a.genes, b.genes, w)
    case Ok(g) => Ok(child.(genes := g, fitness := 0.0))
    case Err(e) => Err(e)
  }

  /** chromosome::splice applied to `child`, with the same reset rule. */
  function Spliced(child: Individual, a: Individual, b: Individual, s: nat, e: nat): (r: Result<Individual>)
    ensures r.Ok? <==> s < |a.genes| && e < |a.genes| && |a.genes| == |b.genes|
    ensures r.Err? ==> r.error == SpliceError
    ensures r.Ok? ==> r.value.genes == Splicing(a.genes, b.genes, s, e).value
    ensures r.Ok? ==> |r.value.genes| == |a.genes| && r.value.fitness == 0.0
    ensures r.Ok? ==> r.value.mutationIndex == child.mutationIndex && r.value.mutationValue == child.mutationValue
  {
    match Splicing(a.genes, b.genes, s, e)
    case Ok(g) => Ok(child.(genes := g, fitness := 0.0))
    case Err(err) => Err(err)
  }

  /** basic_chromosome::mutate(which, value) on a chromosome: the fitness is
      left as it was, stale until the next evaluation. */
  function Mutated(c: Individual, which: nat, value: Gene): (r: Result<Individual>)
    ensures r.Ok? <==> which < |c.genes|
    ensures r.Err? ==> r.error == MutateError
    ensures r.Ok? ==> r.value.genes == Mutation(c.genes, which, value).value
    ensures r.Ok? ==> r.value.mutationIndex == which && r.value.mutationValue == value
    ensures r.Ok? ==> r.value.fitness == c.fitness
  {
    match Mutation(c.genes, which, value)
    case Ok(g) => Ok(Individual(g, which, value, c.fitness))
    case Err(e) => Err(e)
  }

  /** operator<: true exactly when a's fitness is below b's. */
  predicate Less(a: Individual, b: Individual) {
    a.fitness < b.fitness
  }

  /** operator>. */
  predicate Greater(a: Individual, b: Individual) {
    a.fitness > b.fitness
  }

  /** operator==: equal fitness, whatever the genes. */
  predicate Same(a: Individual, b: Individual) {
    a.fitness == b.fitness
  }

  /** a > b holds exactly when b < a, and exactly one of <, == and > holds. */
  lemma ComparisonsAgree(a: Individual, b: Individual)
    ensures Greater(a, b) <==> Less(b, a)
    ensures Less(a, b) || Same(a, b) || Greater(a, b)
    ensures !(Less(a, b) && Same(a, b)) && !(Less(a, b) && Greater(a, b)) && !(Same(a, b) && Greater(a, b))
  {
  }

  /** The operators never look at the genes or the mutation record: two
      pairs with the same fitnesses compare alike. */
  lemma ComparisonsIgnoreGenes(a: Individual, b: Individual, a2: Individual, b2: Individual)
    requires a.fitness == a2.fitness && b.fitness == b2.fitness
    ensures Less(a, b) == Less(a2, b2) && Greater(a, b) == Greater(a2, b2) && Same(a, b) == Same(a2, b2)
  {
  }

  /** A bred child compares equal to a default-constructed chromosome,
      whatever fitness it had before. */
  lemma BredChildIsUnscored(child: Individual, a: Individual, b: Individual, s: nat, e: nat)
    requires Spliced(child, a, b, s, e).Ok? || Recombined(child, a, b, s).Ok?
    ensures Spliced(child, a, b, s, e).Ok? ==> Same(Spliced(child, a, b, s, e).value, Default())
    ensures Recombined(child, a, b, s).Ok? ==> Same(Recombined(child, a, b, s).value, Default())
  {
  }

  /** The chromosome object. The base class part is held as the `genome`
      object; its fields are the inherited ones. */
  class Chromosome {
    const genome: BasicChromosome
    var fitness: real

    /** chromosome(): no genes, mutation record (-1, 0), fitness 0. */
    constructor ()
      ensures fresh(genome)
      ensures Value() == Default()
    {
      genome := new BasicChromosome();
      fitness := 0.0;
    }

    /** The chromosome as a value. */
    function Value(): Individual
      reads this, genome
    {
      Individual(genome.genes, genome.mutationIndex, genome.mutationValue, fitness)
    }

    /** chromosome::recombine(a, b, w). The parents must be other objects. */
    method Recombine(a: Chromosome, b: Chromosome, w: nat) returns (r: Outcome)
      requires genome != a.genome && genome != b.genome
      modifies this, genome
      ensures r == Pass <==> Recombined(old(Value()), old(a.Value()), old(b.Value()), w).Ok?
      ensures r == Pass ==> Value() == Recombined(old(Value()), old(a.Value()), old(b.Value()), w).value
      ensures r != Pass ==> r == Fail(RecombineError) && Value() == old(Value())
      ensures a.Value() == old(a.Value()) && b.Value() == old(b.Value())
    {
      r := genome.Recombine(a.genome, b.genome, w);
      if r == Pass {
        fitness := 0.0;
      }
    }

    /** chromosome::splice(a, b, s, e). The parents must be other objects. */
    method Splice(a: Chromosome, b: Chromosome, s: nat, e: nat) returns (r: Outcome)
      requires genome != a.genome && genome != b.genome
      modifies this, genome
      ensures r == Pass <==> Spliced(old(Value()), old(a.Value()), old(b.Value()), s, e).Ok?
      ensures r == Pass ==> Value() == Spliced(old(Value()), old(a.Value()), old(b.Value()), s, e).value
      ensures r != Pass ==> r == Fail(SpliceError) && Value() == old(Value())
      ensures a.Value() == old(a.Value()) && b.Value() == old(b.Value())
    {
      r := genome.Splice(a.genome, b.genome, s, e);
      if r == Pass {
        fitness := 0.0;
      }
    }

    /** The inherited mutate(which, value). */
    method Mutate(which: nat, value: Gene) returns (r: Result<nat>)
      modifies genome
      ensures r.Ok? <==> Mutated(old(Value()), which, value).Ok?
      ensures r.Ok? ==> r.value == which && Value() == Mutated(old(Value()), which, value).value
      ensures r.Err? ==> r.error == MutateError && Value() == old(Value())
    {
      r := genome.Mutate(which, value);
    }
  }
}
