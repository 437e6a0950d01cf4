/** ricks_ga::basic_chromosome<unsigned char>: a gene vector that the
    operators clear and refill in place, and the record of the last
    mutation. Every bounds check comes before the vector is cleared, so an
    operation that throws leaves the object as it was. */
module BasicChromosomes {
  import opened Genome
  import opened HexCodec

  class BasicChromosome {
    var genes: seq<Gene>
    var mutationIndex: int
    var mutationValue: int

    /** The default constructor: no genes, mutation record (-1, 0). */
    constructor ()
      ensures genes == [] && mutationIndex == -1 && mutationValue == 0
    {
      genes := [];
      mutationIndex := -1;
      mutationValue := 0;
    }

    /** length(): the number of genes. */
    function Length(): nat
      reads this
    {
      |genes|
    }

    /** reload(length): resets the mutation record and appends one gene per
        lrand48() draw, truncated to a byte; the genes already present stay. */
    method Reload(draws: seq<LrandValue>)
      modifies this
      ensures genes == Reloaded(old(genes), draws)
      ensures |genes| == old(|genes|) + |draws|
      ensures mutationIndex == -1 && mutationValue == 0
    {
      mutationIndex := -1;
      mutationValue := 0;
      var i := 0;
      while i < |draws|
        invariant 0 <= i <= |draws|
        invariant genes == Reloaded(old(genes), draws[..i])
        invariant mutationIndex == -1 && mutationValue == 0
      {
        assert draws[..i + 1] == draws[..i] + [draws[i]];
        genes := genes + [ToGene(draws[i])];
        i := i + 1;
      }
      assert draws[..i] == draws;
    }

    /** rand_index(): floor(u * length()) for the drand48() draw u; a valid
        index whenever the chromosome has genes, and 0 when it has none. */
    method RandIndex(u: Fraction) returns (k: nat)
      ensures |genes| > 0 ==> k < |genes|
      ensures |genes| == 0 ==> k == 0
      ensures k == RandomIndex(|genes|, u)
    {
      k := RandomIndex(|genes|, u);
    }

    /** operator[](index): the gene at index, or index_error. */
    method At(index: nat) returns (r: Result<Gene>)
      ensures r == GeneAt(genes, index)
      ensures r.Ok? <==> index < |genes|
    {
      if index < |genes| {
        r := Ok(genes[index]);
      } else {
        r := Err(IndexError);
      }
    }

    /** The push_back loop the operators share: appends src[lo..hi] one
        gene at a time. */
    method PushRange(src: seq<Gene>, lo: nat, hi: nat)
      requires lo <= hi <= |src|
      modifies this
      ensures genes == old(genes) + src[lo..hi]
      ensures mutationIndex == old(mutationIndex) && mutationValue == old(mutationValue)
    {
      var i := lo;
      while i < hi
        invariant lo <= i <= hi
        invariant genes == old(genes) + src[lo..i]
        invariant mutationIndex == old(mutationIndex) && mutationValue == old(mutationValue)
      {
        assert src[lo..i + 1] == src[lo..i] + [src[i]];
        genes := genes + [src[i]];
        i := i + 1;
      }
    }

    /** The middle loop of splice: appends src[lo..hi], walked from hi down
        to lo when `reverse` holds. */
    method PushBlock(src: seq<Gene>, lo: nat, hi: nat, reverse: bool)
      requires lo <= hi < |src|
      modifies this
      ensures genes == old(genes) + SpliceBlock(src, lo, hi, reverse)
      ensures mutationIndex == old(mutationIndex) && mutationValue == old(mutationValue)
    {
      ghost var block := SpliceBlock(src, lo, hi, reverse);
      var diff := hi - lo;
      var i := 0;
      while i <= diff
        invariant 0 <= i <= diff + 1
        invariant genes == old(genes) + block[..i]
        invariant mutationIndex == old(mutationIndex) && mutationValue == old(mutationValue)
      {
        var workI := if reverse then hi - i else lo + i;
        assert block[..i + 1] == block[..i] + [src[workI]];
        genes := genes + [src[workI]];
        i := i + 1;
      }
      assert block[..i] == block;
    }

    /** recombine(a, b, crossover). The receiver must not be a parent: the
        clear() would destroy that parent's genes before they are copied. */
    method Recombine(a: BasicChromosome, b: BasicChromosome, crossover: nat) returns (r: Outcome)
      requires a != this && b != this
      modifies this
      ensures r == Pass <==> Recombination(a.genes, b.genes, crossover).Ok?
      ensures r == Pass ==> genes == Recombination(a.genes, b.genes, crossover).value
      ensures r != Pass ==> r == Fail(RecombineError) && genes == old(genes)
      ensures mutationIndex == old(mutationIndex) && mutationValue == old(mutationValue)
    {
      if a.Length() > crossover && b.Length() > crossover {
        genes := [];
        PushRange(a.genes, 0, crossover);
        PushRange(b.genes, crossover, b.Length());
        assert a.genes[0..crossover] == a.genes[..crossover];
        r := Pass;
      } else {
        r := Fail(RecombineError);
      }
    }

    /** recombine(a, b): the crossover point is a.rand_index(). */
    method RecombineAtRandom(a: BasicChromosome, b: BasicChromosome, u: Fraction) returns (r: Outcome)
      requires a != this && b != this
      modifies this
      ensures var x := RandomIndex(|a.genes|, u);
        (r == Pass <==> Recombination(a.genes, b.genes, x).Ok?)
        && (r == Pass ==> genes == Recombination(a.genes, b.genes, x).value)
      ensures r == Pass <==> |a.genes| > 0 && RandomIndex(|a.genes|, u) < |b.genes|
      ensures r != Pass ==> genes == old(genes)
      ensures mutationIndex == old(mutationIndex) && mutationValue == old(mutationValue)
    {
      var x := a.RandIndex(u);
      r := Recombine(a, b, x);
    }

    /** splice(a, b, start, end). The receiver must not be a parent, as for
        recombine. The source's final length check cannot fail: a successful
        splice always has the length of parent a. */
    method Splice(a: BasicChromosome, b: BasicChromosome, start: nat, end: nat) returns (r: Outcome)
      requires a != this && b != this
      modifies this
      ensures r == Pass <==> Splicing(a.genes, b.genes, start, end).Ok?
      ensures r == Pass ==> genes == Splicing(a.genes, b.genes, start, end).value
      ensures r == Pass ==> |genes| == |a.genes|
      ensures r != Pass ==> r == Fail(SpliceError) && genes == old(genes)
      ensures mutationIndex == old(mutationIndex) && mutationValue == old(mutationValue)
    {
      if start < a.Length() && end < a.Length() && a.Length() == b.Length() {
        genes := [];
        var reverse := start > end;
        var astart := Min(start, end);
        var aend := Max(start, end);
        PushRange(a.genes, 0, astart);
        PushBlock(b.genes, astart, aend, reverse);
        PushRange(a.genes, aend + 1, a.Length());
        assert a.genes[0..astart] == a.genes[..astart];
        SplicingAsBlocks(a.genes, b.genes, start, end);
        r := Pass;
      } else {
        r := Fail(SpliceError);
      }
    }

    /** splice(a, b): start and end are two successive a.rand_index() draws
        and may coincide. */
    method SpliceAtRandom(a: BasicChromosome, b: BasicChromosome, u: Fraction, v: Fraction) returns (r: Outcome)
      requires a != this && b != this
      modifies this
      ensures var s, e := RandomIndex(|a.genes|, u), RandomIndex(|a.genes|, v);
        (r == Pass <==> Splicing(a.genes, b.genes, s, e).Ok?)
        && (r == Pass ==> genes == Splicing(a.genes, b.genes, s, e).value)
      ensures r == Pass <==> |a.genes| > 0 && |a.genes| == |b.genes|
      ensures r != Pass ==> genes == old(genes)
      ensures mutationIndex == old(mutationIndex) && mutationValue == old(mutationValue)
    {
      var s := a.RandIndex(u);
      var e := a.RandIndex(v);
      r := Splice(a, b, s, e);
    }

    /** mutate(which, value): sets one gene, records the mutation and
        returns which; mutate_error with nothing changed when out of range. */
    method Mutate(which: nat, value: Gene) returns (r: Result<nat>)
      modifies this
      ensures r.Ok? <==> which < old(|genes|)
      ensures r.Ok? ==> (r.value == which && genes == Mutation(old(genes), which, value).value
                         && mutationIndex == which && mutationValue == value)
      ensures r.Err? ==> (r.error == MutateError && genes == old(genes)
                          && mutationIndex == old(mutationIndex) && mutationValue == old(mutationValue))
    {
      if which < |genes| {
        genes := genes[which := value];
        mutationIndex := which;
        mutationValue := value;
        r := Ok(which);
      } else {
        r := Err(MutateError);
      }
    }

    /** mutate(which): the new value is an lrand48() draw truncated to a byte. */
    method MutateWithDraw(which: nat, draw: LrandValue) returns (r: Result<nat>)
      modifies this
      ensures r.Ok? <==> which < old(|genes|)
      ensures r.Ok? ==> (r.value == which && genes == Mutation(old(genes), which, ToGene(draw)).value
                         && mutationIndex == which && mutationValue == draw % 256)
      ensures r.Err? ==> (r.error == MutateError && genes == old(genes)
                          && mutationIndex == old(mutationIndex) && mutationValue == old(mutationValue))
    {
      r := Mutate(which, ToGene(draw));
    }

    /** mutate(): the value is drawn first, then the index by rand_index(). */
    method MutateAtRandom(draw: LrandValue, u: Fraction) returns (r: Result<nat>)
      modifies this
      ensures r.Ok? <==> old(|genes|) > 0
      ensures r.Ok? ==> (r.value == RandomIndex(old(|genes|), u)
                         && genes == Mutation(old(genes), r.value, ToGene(draw)).value
                         && mutationIndex == r.value && mutationValue == ToGene(draw))
      ensures r.Err? ==> (r.error == MutateError && genes == old(genes)
                          && mutationIndex == old(mutationIndex) && mutationValue == old(mutationValue))
    {
      var value := ToGene(draw);
      var which := RandIndex(u);
      r := Mutate(which, value);
    }

    /** enstream(): the text form of the genes. */
    method Enstream() returns (s: string)
      ensures s == HexCodec.Enstream(genes)
      ensures HexCodec.Destream(s) == genes
    {
      s := "";
      var i := 0;
      while i < |genes|
        invariant 0 <= i <= |genes|
        invariant s == HexCodec.Enstream(genes[..i])
      {
        assert genes[..i + 1][..i] == genes[..i];
        s := s + Token(genes[i]);
        i := i + 1;
      }
      assert genes[..i] == genes;
      DestreamEnstream(genes);
    }

    /** destream(source): replaces the genes by those read from the text;
        the mutation record is left alone. */
    method Destream(source: string)
      modifies this
      ensures genes == HexCodec.Destream(source)
      ensures mutationIndex == old(mutationIndex) && mutationValue == old(mutationValue)
    {
      genes := [];
      var rest := source;
      while |rest| > 0
        invariant genes + HexCodec.Destream(rest) == HexCodec.Destream(source)
        invariant mutationIndex == old(mutationIndex) && mutationValue == old(mutationValue)
        decreases |rest|
      {
        var g;
        g, rest := NextGene(rest);
        assert (genes + [g]) + HexCodec.Destream(rest) == genes + ([g] + HexCodec.Destream(rest));
        genes := genes + [g];
      }
    }

    /** One pass of destream's loop: the gene read from the first piece of
        the text, and the text from the next "0x" on (empty when there is
        none). */
    static method NextGene(text: string) returns (g: Gene, rest: string)
      requires text != []
      ensures |rest| < |text|
      ensures HexCodec.Destream(text) == [g] + HexCodec.Destream(rest)
    {
      var piece: string;
      DestreamUnfold(text);
      var loc := Find0x(text, 2);
      if loc.Some? {
        piece := text[..loc.value];
        rest := text[loc.value..];
      } else {
        piece := text;
        rest := "";
      }
      g := ToGene(StrToULong16(piece));
    }
  }
}
