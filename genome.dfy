/** Genes and the genetic operators of ricks_ga::basic_chromosome, stated as
    functions on gene sequences. Each operator either yields the child's gene
    list or names the exception the C++ template throws; the class in
    basic_chromosome.dfy is proved against these functions. */
module Genome {

  /** One gene. The only instantiation of the template is
      basic_chromosome<unsigned char>, so a gene is a byte. */
  type Gene = g: int | 0 <= g < 256

  /** A value returned by lrand48(): a non-negative long below 2^31. */
  type LrandValue = x: int | 0 <= x < 0x8000_0000

  /** A value returned by drand48(): a double in [0, 1). */
  type Fraction = u: real | 0.0 <= u < 1.0

  /** The exceptions of basic_chromosome that the core can raise. */
  datatype Error = IndexError | RecombineError | MutateError | SpliceError

  datatype Option<T> = None | Some(value: T)

  datatype Result<T> = Ok(value: T) | Err(error: Error)

  /** Completion of a void operation: it returned, or it threw. */
  datatype Outcome = Pass | Fail(error: Error)

  function Min(x: int, y: int): int { if x <= y then x else y }

  function Max(x: int, y: int): int { if x <= y then y else x }

  /** The implicit conversion of an integer to unsigned char. */
  function ToGene(x: int): (g: Gene)
    ensures 0 <= x < 256 ==> g == x
  {
    x % 256
  }

  /** The genes left after reload: the old genes followed by one truncated
      lrand48() draw per new gene. */
  function Reloaded(genes: seq<Gene>, draws: seq<LrandValue>): (r: seq<Gene>)
    ensures |r| == |genes| + |draws|
    ensures r[..|genes|] == genes
    ensures forall i :: 0 <= i < |draws| ==> r[|genes| + i] == draws[i] % 256
  {
    genes + seq(|draws|, i requires 0 <= i < |draws| => ToGene(draws[i]))
  }

  /** rand_index: floor(u * length), where u is the drand48() draw. */
  function RandomIndex(length: nat, u: Fraction): (k: nat)
    ensures length > 0 ==> k < length
    ensures length == 0 ==> k == 0
  {
    var x := u * length as real;
    assert x < length as real || length == 0 by {
      if length > 0 {
        assert u * length as real < 1.0 * length as real;
      }
    }
    x.Floor
  }

  /** Single-point crossover: the first `crossover` genes of a followed by
      the genes of b from `crossover` on. */
  function Recombination(a: seq<Gene>, b: seq<Gene>, crossover: nat): (r: Result<seq<Gene>>)
    ensures r.Ok? <==> crossover < |a| && crossover < |b|
    ensures r.Err? ==> r.error == RecombineError
    ensures r.Ok? ==> |r.value| == |b|
    ensures r.Ok? ==> forall i :: 0 <= i < crossover ==> r.value[i] == a[i]
    ensures r.Ok? ==> forall i :: crossover <= i < |b| ==> r.value[i] == b[i]
  {
    if crossover < |a| && crossover < |b| then
      Ok(a[..crossover] + b[crossover..])
    else
      Err(RecombineError)
  }

  /** The gene a successful splice leaves at position i: parent a outside
      the closed range [lo, hi], parent b inside it, mirrored when the range
      was given backwards. */
  function SplicedGene(a: seq<Gene>, b: seq<Gene>, start: nat, end: nat, i: nat): Gene
    requires start < |a| && end < |a| && |a| == |b| && i < |a|
  {
    var lo, hi := Min(start, end), Max(start, end);
    if i < lo || hi < i then a[i]
    else if start <= end then b[i]
    else b[lo + hi - i]
  }

  /** The block copied from b: genes lo..hi, walked from hi down when
      `reverse` holds. */
  function SpliceBlock(b: seq<Gene>, lo: nat, hi: nat, reverse: bool): (r: seq<Gene>)
    requires lo <= hi < |b|
    ensures |r| == hi - lo + 1
  {
    seq(hi - lo + 1, i requires 0 <= i <= hi - lo => if reverse then b[hi - i] else b[lo + i])
  }

  /** Splice: the closed range between start and end of parent a replaced
      by the same range of parent b, reversed when start > end. */
  function Splicing(a: seq<Gene>, b: seq<Gene>, start: nat, end: nat): (r: Result<seq<Gene>>)
    ensures r.Ok? <==> start < |a| && end < |a| && |a| == |b|
    ensures r.Err? ==> r.error == SpliceError
    ensures r.Ok? ==> |r.value| == |a|
    ensures r.Ok? ==> forall i :: 0 <= i < |a| ==> r.value[i] == SplicedGene(a, b, start, end, i)
  {
    if start < |a| && end < |a| && |a| == |b| then
      var lo, hi := Min(start, end), Max(start, end);
      var child := a[..lo] + SpliceBlock(b, lo, hi, start > end) + a[hi + 1..];
      assert forall i :: 0 <= i < |a| ==> child[i] == SplicedGene(a, b, start, end, i) by {
        forall i | 0 <= i < |a|
          ensures child[i] == SplicedGene(a, b, start, end, i)
        {
          if i < lo {
          } else if i <= hi {
            assert child[i] == SpliceBlock(b, lo, hi, start > end)[i - lo];
          } else {
            assert child[i] == a[hi + 1..][i - hi - 1];
          }
        }
      }
      Ok(child)
    else
      Err(SpliceError)
  }

  /** A successful splice is the head of a, the block of b, then the tail
      of a. */
  lemma SplicingAsBlocks(a: seq<Gene>, b: seq<Gene>, start: nat, end: nat)
    requires start < |a| && end < |a| && |a| == |b|
    ensures Splicing(a, b, start, end).value
            == a[..Min(start, end)] + SpliceBlock(b, Min(start, end), Max(start, end), start > end)
               + a[Max(start, end) + 1..]
  {
  }

  /** mutate(which, value): gene `which` overwritten, nothing else changed. */
  function Mutation(genes: seq<Gene>, which: nat, value: Gene): (r: Result<seq<Gene>>)
    ensures r.Ok? <==> which < |genes|
    ensures r.Err? ==> r.error == MutateError
    ensures r.Ok? ==> |r.value| == |genes| && r.value[which] == value
    ensures r.Ok? ==> forall i :: 0 <= i < |genes| && i != which ==> r.value[i] == genes[i]
  {
    if which < |genes| then Ok(genes[which := value]) else Err(MutateError)
  }

  /** operator[]: the gene at `index`, or index_error. */
  function GeneAt(genes: seq<Gene>, index: nat): (r: Result<Gene>)
    ensures r.Ok? <==> index < |genes|
    ensures r.Ok? ==> r.value == genes[index]
    ensures r.Err? ==> r.error == IndexError
  {
    if index < |genes| then Ok(genes[index]) else Err(IndexError)
  }

  /** Repeating a mutation with the same index and value changes nothing. */
  lemma MutationIdempotent(genes: seq<Gene>, which: nat, value: Gene)
    requires which < |genes|
    ensures Mutation(Mutation(genes, which, value).value, which, value) == Mutation(genes, which, value)
  {
    var once := genes[which := value];
    assert once[which := value] == once by {
      assert forall i :: 0 <= i < |once| ==> once[which := value][i] == once[i];
    }
  }

  /** A splice whose start equals its end replaces exactly one gene, taking
      it from parent b. */
  lemma SpliceOfOneGene(a: seq<Gene>, b: seq<Gene>, k: nat)
    requires k < |a| && |a| == |b|
    ensures Splicing(a, b, k, k) == Ok(a[k := b[k]])
  {
    var r := Splicing(a, b, k, k).value;
    assert forall i :: 0 <= i < |a| ==> r[i] == a[k := b[k]][i];
    assert r == a[k := b[k]];
  }

  /** Splicing with the range given backwards copies the block of b in the
      opposite order to the forward splice over the same range. */
  lemma SpliceReversedMirrors(a: seq<Gene>, b: seq<Gene>, s: nat, e: nat, i: nat)
    requires s < e < |a| && |a| == |b| && s <= i <= e
    ensures Splicing(a, b, e, s).value[i] == Splicing(a, b, s, e).value[s + e - i]
  {
  }

  /** The worked examples for recombine and splice with parents
      [1,2,3,4,5] and [10,20,30,40,50]. */
  lemma OperatorExamples()
    ensures Recombination([1, 2, 3, 4, 5], [10, 20, 30, 40, 50], 2) == Ok([1, 2, 30, 40, 50])
    ensures Splicing([1, 2, 3, 4, 5], [10, 20, 30, 40, 50], 1, 3) == Ok([1, 20, 30, 40, 5])
    ensures Splicing([1, 2, 3, 4, 5], [10, 20, 30, 40, 50], 3, 1) == Ok([1, 40, 30, 20, 5])
  {
    var a: seq<Gene> := [1, 2, 3, 4, 5];
    var b: seq<Gene> := [10, 20, 30, 40, 50];
    assert a[..2] + b[2..] == [1, 2, 30, 40, 50];
    assert SpliceBlock(b, 1, 3, false) == [20, 30, 40];
    assert SpliceBlock(b, 1, 3, true) == [40, 30, 20];
    assert a[..1] + [20, 30, 40] + a[4..] == [1, 20, 30, 40, 5];
    assert a[..1] + [40, 30, 20] + a[4..] == [1, 40, 30, 20, 5];
  }
}
