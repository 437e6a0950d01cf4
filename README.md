# Rick's GA solver: a verified model of its core

This project models the core of Rick's Generic GA Solver (ricks_ga), a
generational genetic-algorithm benchmark. It searches for a short closed
tour through a list of cities, a travelling-salesman route. The model covers
four parts:

- **The chromosome template** (`basic_chromosome<unsigned char>`). This is a
  gene vector with:
  - single-point recombination;
  - range splice, with the middle block reversed when the range is given
    backwards;
  - point mutation with a mutation record;
  - the `0x..` text encoding (`enstream`/`destream`);
  - checked gene access and the random index.

  `basic_chromosome.dfy` holds it as a class whose methods clear and refill
  the gene vector. They are proved against the functions in `genome.dfy` and
  `hex_codec.dfy`.
- **The travelling-salesman chromosome** (`chromosome.dfy`). It adds a
  fitness that recombine and splice reset to 0. Its `<`, `>` and `==`
  compare fitness only.
- **The fitness tester** (`tour.dfy`), the `world` class. It builds the rank
  multimap that turns genes into a visiting order, and sums the closed-tour
  length. A tour that does not start at the first loaded city scores -1.
  It also prints the route.
- **The generation loop** of `bc_bench.cpp`:
  - seeding;
  - scoring and removal of the dead;
  - the fitness-keyed map `sorted`;
  - culling and elitism;
  - the tournament that fills the breeding map;
  - the two-cursor walk that pairs parents;
  - breeding and mutation;
  - the entropy figure;
  - convergence tracking and the winner.

  `fitness_index.dfy` models the `std::map<float, chromosome>`.
  `population.dfy` holds the population bookkeeping, `breeding.dfy` the
  random steps and `engine.dfy` the driver.

The random generators are streams of the values they would return, indexed
by how many values have been drawn:

| source generator | stream | values |
|---|---|---|
| `boost::mt19937` | `Words` | 32-bit words |
| `boost::uniform_01` | `Units` | reals in [0, 1) |
| `lrand48` | `Lrands` | values below 2^31 |
| `drand48` | a `Fraction` parameter | reals in [0, 1) |

The model threads the cursors through each step. The seeding loop is
stated over what each attempt keeps (`Trials`, by lrand48 cursor); the
driver passes it `Attempts`, which builds, reloads and scores the
chromosome as one pass of the source's loop does. Distances come from a
parameter `Range`, because the source computes them in floating point with
`sqrt`.

Undefined behaviour in the source is handled in two ways:

- Some corners become the outcome `Undefined` of a run:
  - `rng() % 0` on an empty population;
  - stepping the pairing cursors past the end of a breeding map with fewer
    than two entries;
  - reading the best of an empty map.
- Others become preconditions:
  - a receiver that is also a parent;
  - a cull count larger than the map;
  - zero cities;
  - a chromosome with more genes than there are cities.

Where the code and its design description differ, the model follows the
code:

- **Tournament.** Both competitors are drawn independently with
  `rng() % size`, so the same member can meet itself.
- **Pairing.** The cursors walk every pair `o < i` of the breeding map in
  order and then start over, not only adjacent pairs. No member is ever
  paired with itself (`Breeding.AdvanceCycles`).
- **Mutation.** The pass covers the whole new population, the survivors of
  the cull included, not only the children.
- **Random index.** `rand_index` on an empty chromosome returns 0 and
  throws nothing.
- **Best of exactly 0.** The loop starts with `current_best` at 0. In the
  first generation, or while `current_best` is still 0, a generation whose
  best fitness is exactly 0 therefore does not update the winner
  (`Engine.ZeroBestNeverWins`). Once `current_best` is non-zero, a best of
  0 becomes the winner like any better best (`Engine.Track`).
- **Drop default.** Without `d_percent` the code divides `b_percent` by 100
  twice, so a run keeps 1 - b_percent / 10000 of each generation instead
  of 1 - b_percent / 100. `Engine.Configure` follows the code;
  `Engine.ConfigureIntended` is the corrected reading. See "## Findings".

## Model

| member | source | states |
|---|---|---|
| Genome.ToGene | chromosome/basic_chromosome.h:294 | storing an int into an unsigned-char gene keeps every value in 0..255 |
| Genome.Reloaded | chromosome/basic_chromosome.h:288-296 | the old genes stay in front; one gene per draw follows, equal to the draw modulo 256 |
| Genome.RandomIndex | chromosome/basic_chromosome.h:255-262 | floor(u * length) is a valid index when the chromosome has genes, and 0 when it has none |
| Genome.Recombination | chromosome/basic_chromosome.h:305-328 | succeeds iff the crossover is below both lengths; the child has b's length, a's genes before the crossover and b's from it on; otherwise recombine_error |
| Genome.SpliceBlock | chromosome/basic_chromosome.h:373-377 | the copied block has hi - lo + 1 genes |
| Genome.Splicing | chromosome/basic_chromosome.h:350-414 | succeeds iff start and end are below a's length and the lengths agree; the child has a's length, and every position holds a's gene outside [lo, hi] and b's gene inside it, mirrored when start > end; otherwise splice_error |
| Genome.SplicingAsBlocks | chromosome/basic_chromosome.h:361-382 | a successful splice is a[..lo] + block of b + a[hi+1..] |
| Genome.Mutation | chromosome/basic_chromosome.h:431-448 | succeeds iff which < length; gene `which` becomes the value and every other gene and the length stay; otherwise mutate_error |
| Genome.GeneAt | chromosome/basic_chromosome.h:509-523 | the gene at the index iff it is in range, otherwise index_error |
| Genome.MutationIdempotent | chromosome/basic_chromosome.h:431-438 | repeating a mutation with the same index and value changes nothing |
| Genome.SpliceOfOneGene | chromosome/basic_chromosome.h:363-377 | a splice with start == end replaces exactly that gene by b's |
| Genome.SpliceReversedMirrors | chromosome/basic_chromosome.h:373-377 | the backwards splice holds the forward splice's block in mirrored order |
| Genome.OperatorExamples | chromosome/basic_chromosome.h:305-382 | worked recombine and splice results on two five-gene parents |
| HexCodec.DigitValue | chromosome/basic_chromosome.h:492 | a hex digit read by strtoul is below 16 |
| HexCodec.LowerHexDigit | chromosome/basic_chromosome.h:459 | the digit "%x" writes for a value below 16 reads back as that value, and is '0' only for 0 |
| HexCodec.HexDigits | chromosome/basic_chromosome.h:459 | "%x" writes a non-empty run of lower-case digits that reads back as the value, with a leading '0' only for 0 |
| HexCodec.Find0x | chromosome/basic_chromosome.h:481 | find("0x", from) gives the first position at or after `from` where "0x" starts, or npos when there is none |
| HexCodec.SkipSpace | chromosome/basic_chromosome.h:492 | strtoul's leading white space is skipped completely |
| HexCodec.HexRun | chromosome/basic_chromosome.h:492 | the digits strtoul consumes are all hex digits |
| HexCodec.StrToULong16 | chromosome/basic_chromosome.h:492 | strtoul(piece, NULL, 16) stays within the range of unsigned long |
| HexCodec.DestreamUnfold | chromosome/basic_chromosome.h:477-494 | one pass of the destream loop: the piece before the next "0x" from position 2 gives one gene and the rest is read on |
| HexCodec.EnstreamCons | chromosome/basic_chromosome.h:457-461 | the encoding is the first gene's token followed by the encoding of the rest |
| HexCodec.HexRunOfDigits | chromosome/basic_chromosome.h:492 | a run of hex digits is consumed whole |
| HexCodec.ParseToken | chromosome/basic_chromosome.h:459 | strtoul reads a gene's "0x.." token back as that gene |
| HexCodec.FindAfterToken | chromosome/basic_chromosome.h:481 | after a token, the next "0x" found from position 2 is the start of the following token |
| HexCodec.DestreamToken | chromosome/basic_chromosome.h:477-494 | decoding a token followed by another token yields its gene and then decodes the rest |
| HexCodec.EnstreamStart | chromosome/basic_chromosome.h:459 | a non-empty encoding starts with "0x" |
| HexCodec.DestreamEnstream | chromosome/basic_chromosome.h:450-502 | round trip: destream(enstream(g)) == g for every gene list |
| HexCodec.DestreamEmpty | chromosome/basic_chromosome.h:476-477 | the empty text decodes to no genes |
| BasicChromosomes.BasicChromosome.constructor | chromosome/basic_chromosome.h:271-276 | no genes and mutation record (-1, 0) |
| BasicChromosomes.BasicChromosome.Reload | chromosome/basic_chromosome.h:288-296 | appends one gene per draw without clearing and resets the mutation record to (-1, 0) |
| BasicChromosomes.BasicChromosome.RandIndex | chromosome/basic_chromosome.h:255-262 | returns an index below length() when there are genes, 0 otherwise |
| BasicChromosomes.BasicChromosome.At | chromosome/basic_chromosome.h:509-523 | operator[] returns the gene iff the index is in range, otherwise index_error |
| BasicChromosomes.BasicChromosome.PushRange | chromosome/basic_chromosome.h:315-323 | the push_back loop appends exactly src[lo..hi] and leaves the mutation record |
| BasicChromosomes.BasicChromosome.PushBlock | chromosome/basic_chromosome.h:373-377 | the middle splice loop appends b's block, reversed when asked |
| BasicChromosomes.BasicChromosome.Recombine | chromosome/basic_chromosome.h:305-339 | passes iff Recombination succeeds and then holds its child; on failure throws recombine_error with the genes unchanged |
| BasicChromosomes.BasicChromosome.RecombineAtRandom | chromosome/basic_chromosome.h:298-303 | crossover at a.rand_index(); passes iff a has genes and that index is below b's length |
| BasicChromosomes.BasicChromosome.Splice | chromosome/basic_chromosome.h:350-415 | passes iff Splicing succeeds and then holds its child, of a's length; on failure throws splice_error with the genes unchanged |
| BasicChromosomes.BasicChromosome.SpliceAtRandom | chromosome/basic_chromosome.h:343-348 | start and end are two a.rand_index() draws; passes iff a has genes and the lengths agree |
| BasicChromosomes.BasicChromosome.Mutate | chromosome/basic_chromosome.h:431-448 | in range: the gene is set, the record is (which, value) and which is returned; out of range: mutate_error and nothing changes |
| BasicChromosomes.BasicChromosome.MutateWithDraw | chromosome/basic_chromosome.h:425-429 | mutate(which) with the lrand48 draw truncated to a byte: passes iff which is in range and then returns which, sets that gene and records (which, draw % 256); otherwise mutate_error and nothing changes |
| BasicChromosomes.BasicChromosome.MutateAtRandom | chromosome/basic_chromosome.h:419-423 | mutate() draws the value and then the index; it succeeds iff there are genes, and then returns the drawn index, sets that gene to the byte of the draw and records both |
| BasicChromosomes.BasicChromosome.Enstream | chromosome/basic_chromosome.h:450-470 | returns the encoding, which destreams back to the genes |
| BasicChromosomes.BasicChromosome.Destream | chromosome/basic_chromosome.h:472-502 | the genes become the decoding of the text; the mutation record stays |
| BasicChromosomes.BasicChromosome.NextGene | chromosome/basic_chromosome.h:479-492 | one pass of the loop reads one gene from the first piece and leaves a strictly shorter text whose decoding completes the whole |
| Chromosomes.Default | chromosome.h:38 | a default chromosome has no genes, fitness 0 and record (-1, 0) |
| Chromosomes.Recombined | chromosome.cpp:24-28 | the base recombine's genes with fitness 0 iff it succeeds; on recombine_error the reset is skipped |
| Chromosomes.Spliced | chromosome.cpp:30-34 | the base splice's genes, a's length and fitness 0 iff it succeeds; on splice_error the reset is skipped |
| Chromosomes.Mutated | chromosome/basic_chromosome.h:431-448 | mutating a chromosome sets one gene and the record and leaves the fitness as it was |
| Chromosomes.ComparisonsAgree | chromosome.cpp:36-49 | a > b iff b < a; exactly one of <, ==, > holds |
| Chromosomes.ComparisonsIgnoreGenes | chromosome.cpp:36-49 | the comparisons depend on the fitness only |
| Chromosomes.BredChildIsUnscored | chromosome.cpp:24-34 | a bred child compares equal to a default chromosome |
| Chromosomes.Chromosome.constructor | chromosome.h:38 | no genes, record (-1, 0), fitness 0 |
| Chromosomes.Chromosome.Recombine | chromosome.cpp:24-28 | the object becomes Recombined of its old value; on failure it is unchanged; the parents are untouched |
| Chromosomes.Chromosome.Splice | chromosome.cpp:30-34 | the object becomes Spliced of its old value; on failure it is unchanged; the parents are untouched |
| Chromosomes.Chromosome.Mutate | chromosome/basic_chromosome.h:431-448 | the inherited mutate: the object becomes Mutated of its old value, or mutate_error with nothing changed |
| FitnessIndex.KeysOf | bc_bench.cpp:38 | a key is present iff some entry carries it |
| FitnessIndex.KeysAbove | bc_bench.cpp:38 | no key of an ordered map lies below its first |
| FitnessIndex.Members | bc_bench.cpp:218 | the members in key order, one per entry |
| FitnessIndex.Lookup | bc_bench.cpp:38 | find(k) succeeds iff k is a key, and returns the member filed under it |
| FitnessIndex.Put | bc_bench.cpp:202 | m[k] = v keeps keys ascending, adds k to the keys and grows by one only for a new key |
| FitnessIndex.LookupAt | bc_bench.cpp:38 | each key appears once, so find returns the entry at its position |
| FitnessIndex.PutLookup | bc_bench.cpp:202 | after m[k] = v, k maps to v and every other key to what it mapped to before: the last write wins |
| FitnessIndex.PutEntries | bc_bench.cpp:202 | m[k] = v holds (k, v) and exactly the old entries with other keys |
| FitnessIndex.PutGreatest | bc_bench.cpp:235 | writing a key above all present appends it |
| FitnessIndex.PutKeyed | bc_bench.cpp:202 | filing members under their own fitness keeps every entry keyed by its member's fitness |
| FitnessIndex.PutFrom | bc_bench.cpp:264 | every entry after m[k] = v was there before or is (k, v) |
| FitnessIndex.KeysCount | bc_bench.cpp:38 | an ordered map has one entry per key |
| Tour.InsertRanked | fitness_tester.cpp:91 | multimap insert adds exactly the new element |
| Tour.InsertKeepsOrder | fitness_tester.cpp:91 | inserting after every element with a key not above it keeps (key, insertion) order |
| Tour.EntriesUpToMembers | fitness_tester.cpp:86-92 | the entries inserted so far are exactly (genes[c], c) for the cities read |
| Tour.RankPrefix | fitness_tester.cpp:86-92 | after n insertions the map has n entries |
| Tour.RankPrefixEntries | fitness_tester.cpp:86-92 | the map holds exactly the entries inserted |
| Tour.RankPrefixCities | fitness_tester.cpp:86-92 | every entry names a city already read |
| Tour.RankPrefixOrder | fitness_tester.cpp:86-92 | the map is in (gene, city index) order |
| Tour.Rank | fitness_tester.cpp:86-92 | the visiting order has one entry per gene |
| Tour.RankEntriesAreGenes | fitness_tester.cpp:89-90 | each entry's key is the gene of the city it names |
| Tour.RankIsVisitingOrder | fitness_tester.cpp:86-92 | the order lists every city exactly once, by ascending gene, with equal genes in city-index order |
| Tour.RankExample | fitness_tester.cpp:86-92 | genes [3, 1, 3, 0] visit cities 3, 1, 0, 2 |
| Tour.RankInCities | fitness_tester.cpp:90 | with one gene per city every entry names a city |
| Tour.LegsNonNegative | fitness_tester.cpp:116-122 | with non-negative distances the summed legs are non-negative |
| Tour.FitnessViability | fitness_tester.cpp:116-129 | fitness is -1 iff the tour does not start at the first city's name; otherwise it is a non-negative closed-tour length |
| Tour.Names | fitness_tester.cpp:172-179 | the names along the order, one per entry |
| Tour.JoinEnds | fitness_tester.cpp:172-180 | the route begins with the first name and ends with the last: no leading or trailing "->" |
| Tour.ViableRouteStartsHome | fitness_tester.cpp:126-129 | the route printed for a viable chromosome starts with the first city's name |
| Tour.RankMap | fitness_tester.cpp:83-92 | the insertion loop builds exactly the visiting order |
| Tour.World.constructor | fitness_tester.cpp:63-68 | the world holds the cities as loaded |
| Tour.World.Length | fitness_tester.cpp:145-148 | length() is the number of cities |
| Tour.World.CheckFitness | fitness_tester.cpp:79-133 | exits iff there are fewer genes than cities; otherwise the value is the fitness (closed tour, or -1), stored in the chromosome and returned |
| Tour.World.ShowRoute | fitness_tester.cpp:150-181 | exits iff there are fewer genes than cities; otherwise the names in visiting order joined by "->" |
| Population.SurvivorsMembers | bc_bench.cpp:187-189 | a member survives iff it was present and its fitness is not negative |
| Population.SurvivorsAppend | bc_bench.cpp:187-189 | removal keeps the relative order |
| Population.SurvivorsFit | bc_bench.cpp:315-317 | survivors keep their gene count, and there are no more of them |
| Population.SurvivorsBound | bc_bench.cpp:315-317 | removal never grows the population |
| Population.RemoveDead | bc_bench.cpp:187-189 | the compaction leaves exactly the survivors, in order |
| Population.EvaluateAll | bc_bench.cpp:185 | each member's fitness becomes check_fitness of its genes; nothing else changes; the result is Scored |
| Population.EvaluatedSurvivors | bc_bench.cpp:185-189 | after scoring and removal, the population is exactly the scored members with fitness >= 0 |
| Population.FitnessesOf | bc_bench.cpp:331 | a fitness is present iff some member has it |
| Population.IndexOf | bc_bench.cpp:197-204 | the rebuilt map is ordered by fitness |
| Population.BuildIndex | bc_bench.cpp:320-327 | the loop builds the map IndexOf describes |
| Population.IndexOfContents | bc_bench.cpp:320-327 | entries are keyed by fitness; the keys are the fitnesses present; each key holds the last member with that fitness |
| Population.DistinctLast | bc_bench.cpp:331 | fitnesses are distinct iff those of all but the last are and the last is new |
| Population.IndexOfSize | bc_bench.cpp:320-331 | map size <= population size, equal iff all fitnesses are distinct, positive for a non-empty population |
| Population.EntropyBounds | bc_bench.cpp:331 | for a non-empty population 0 < entropy <= 100, and 100 iff all fitnesses are distinct |
| Population.Cull | bc_bench.cpp:212-221 | gen_list becomes the members of the first mv_count entries of the map, none when mv_count <= 0 |
| Population.PrefixIsFittest | bc_bench.cpp:212-221 | the culled members ascend in fitness and are better than every member left behind |
| Population.Elite | bc_bench.cpp:224-238 | the breeding map starts as the first save_count entries of the map, or all of them |
| Population.IndexOfMembers | bc_bench.cpp:320-327 | every entry of the map holds a member of the population |
| Population.IndexOfFiled | bc_bench.cpp:320-327 | the map of a live population is ordered, keyed by fitness, with non-negative keys and one gene per city |
| Population.SurvivorsAlive | bc_bench.cpp:315-317 | after removal no member is dead |
| Breeding.Draws | chromosome/basic_chromosome.h:292-295 | reload takes consecutive lrand48 draws |
| Breeding.Attempt | bc_bench.cpp:169-182 | without the viability test every attempt keeps its chromosome |
| Breeding.AttemptSeedling | bc_bench.cpp:169-182 | a kept chromosome has one gene per city and record (-1, 0); with the test its fitness is its own non-negative score, without it 0 |
| Breeding.Grow | bc_bench.cpp:176 | push_back of a kept chromosome adds it at the end |
| Breeding.SeedingFinishes | bc_bench.cpp:167-183 | when every attempt keeps its chromosome, as without the viability test, seeding finishes after target attempts |
| Breeding.SeedingSize | bc_bench.cpp:167-183 | seeding stops with exactly the target count, keeping the members already present |
| Breeding.SeedingMembers | bc_bench.cpp:167-183 | every member seeding adds is a chromosome some attempt kept |
| Breeding.Seed | bc_bench.cpp:166-183 | the loop computes Seeding |
| Breeding.Winner | bc_bench.cpp:260-262 | the winner is a competitor with the lower fitness, parent_a on ties |
| Breeding.Tournament | bc_bench.cpp:247-265 | the breeding map stays ordered and only grows; the loop stops with b_count entries or after all bailout bouts, two rng draws each |
| Breeding.TournamentKeyed | bc_bench.cpp:264 | the breeding map stays keyed by fitness |
| Breeding.TournamentEntries | bc_bench.cpp:250-264 | every entry of the breeding map was an elite entry or a member of gen_list |
| Breeding.TournamentKeys | bc_bench.cpp:250-264 | the breeding map's keys are elite keys or fitnesses of gen_list |
| Breeding.TournamentStalls | bc_bench.cpp:246-265 | when all members share a fitness, the map holds at most one entry and every bailout bout is spent |
| Breeding.TournamentStep | bc_bench.cpp:249-264 | one bout writes the winner under its fitness and moves on two draws |
| Breeding.SelectParents | bc_bench.cpp:245-265 | the loop computes Tournament |
| Breeding.RowStartGrows | bc_bench.cpp:276 | later rows start after earlier ones |
| Breeding.PairIndexBijective | bc_bench.cpp:269-277 | pair positions are distinct and below the number of pairs |
| Breeding.AdvanceCycles | bc_bench.cpp:269-277 | from the start, the cursors yield (0,1), then every pair oc < ic in order, then wrap to (0,1) |
| Breeding.AdvanceExample | bc_bench.cpp:276-277 | with three parents the pairs come as (0,1), (0,2), (1,2), (0,1) |
| Breeding.OffspringFacts | bc_bench.cpp:273-297 | with parents of one gene per city breeding never fails; gen_list keeps its members and grows to c_count newborn children |
| Breeding.Child | bc_bench.cpp:280-287 | the child bred from a fitting pair has one gene per city, fitness 0 and record (-1, 0) |
| Breeding.OffspringDraws | bc_bench.cpp:282 | breeding takes two rng draws per child for splice, one for recombine |
| Breeding.OffspringGrows | bc_bench.cpp:288 | breeding never shrinks gen_list |
| Breeding.Breed | bc_bench.cpp:268-297 | the loop computes Offspring |
| Breeding.MutationsFacts | bc_bench.cpp:300-309 | the pass never fails; size and gene counts are kept; each member changes at most the gene its record names; mutated counts one per changed member, none at a negative rate, all at rate >= 1 |
| Breeding.MutatePass | bc_bench.cpp:300-309 | the loop computes Mutations |
| Engine.DropDefaultAsWritten | bc_bench.cpp:55-56 | as written, b_percent = 20 with no d_percent drops 0.2% instead of 20% |
| Engine.DropDefaultIsBreed | bc_bench.cpp:56 | corrected: without d_percent the drop fraction is the breeding fraction |
| Engine.Configure | bc_bench.cpp:52-80 | a non-positive b_percent ends the program; splice unless --cross alone; survival is 1 minus the drop fraction as written: 1 - breed / 100 without d_percent, 1 - d_percent / 100 with it |
| Engine.ConfigureIntended | bc_bench.cpp:55-56 | corrected: the same settings, except that survival is 1 minus the drop fraction defaulting to the breeding fraction |
| Engine.SurvivalDefault | bc_bench.cpp:56 | with the corrected default the run keeps the complement of the fraction it breeds; with d_percent both readings agree |
| Engine.SurvivalAsWritten | bc_bench.cpp:55-80 | b_percent = 20 without d_percent keeps 99.8% of each generation as written, 80% as intended |
| Engine.Ceil | bc_bench.cpp:215 | ceil(x) is the least integer not below x |
| Engine.Round | bc_bench.cpp:240 | round(x) is the nearest integer, halves away from zero |
| Engine.CullCount | bc_bench.cpp:215 | mv_count is at most the map's size when survival <= 1, and non-negative when survival >= 0 |
| Engine.SaveCount | bc_bench.cpp:227 | save_count is 0 when no elite is asked for |
| Engine.BreedCount | bc_bench.cpp:240-244 | b_count is round(breed * size) when that is at least 2, and 2 otherwise |
| Engine.Bailout | bc_bench.cpp:246 | c_count * 200 in unsigned 32-bit arithmetic |
| Engine.SelectBreeders | bc_bench.cpp:212-265 | undefined (rng() % 0) iff the cull leaves nobody and the bailout is positive; otherwise gen_list is the members of the first mv_count entries of the map, and the breeding map and the rng cursor are the tournament's result, started from the first save_count entries with b_count and the bailout derived from the settings |
| Engine.Regenerate | bc_bench.cpp:267-327 | undefined iff children are needed and the breeding map has fewer than two entries; otherwise the new population is exactly the survivors of scoring the mutation pass over the bred population, the mutated count and cursors are that pass's; it is live, fits, is at most c_count (or the old size), and sorted is its map |
| Engine.CulledFit | bc_bench.cpp:212-221 | culled members have one gene per city |
| Engine.PoolFits | bc_bench.cpp:224-265 | every breeding-map entry has one gene per city |
| Engine.NewbornsFit | bc_bench.cpp:273-297 | after breeding every member has one gene per city |
| Engine.Sentinel | bc_bench.cpp:127-129 | the starting winner has fitness 1e30 and no genes |
| Engine.StartTracking | bc_bench.cpp:124-130 | tracking starts with that winner, first_best 0 and sameness = samelimit |
| Engine.Track | bc_bench.cpp:369-383 | current_best becomes the generation's best; the winner becomes that best, with first_best the generation, iff the best differs from current_best and is better than the winner, and otherwise both stay; the winner's fitness never increases; sameness restarts iff the best changed or entropy exceeds the threshold |
| Engine.TrackKeepsBest | bc_bench.cpp:369-379 | the winner stays at least as good as current_best, and as the generation's best unless that best is 0 |
| Engine.ZeroBestNeverWins | bc_bench.cpp:126 | a first-generation best of exactly 0 equals the starting current_best and never becomes the winner |
| Engine.Conclude | bc_bench.cpp:329-383 | appends exactly the report (generation, first and last fitness of the map, their average, population size, bred, entropy, mutated) and the tracking becomes Track of the map's best; every report stays sound (best <= worst, 0 < entropy <= 100) and the winner stays tracked |
| Engine.CountdownStep | bc_bench.cpp:208-383 | one generation either resets the sameness countdown or adds one settled generation: entropy at most e_threshold and the same best as the report before |
| Engine.Run | bc_bench.cpp:152-388 | the run is SeedingUnfinished iff seeding runs out of fuel; otherwise its outcome is sound (SoundOutcome): generations == reports <= genlimit, exactly genlimit with a negative samelimit and at least min(samelimit, genlimit) otherwise; the winner is the best reported (non-zero best) and first_best names its generation; a run that stops before genlimit had samelimit >= 0 and its last samelimit reports each had entropy <= e_threshold and the best of the report before (0 before the first); an undefined corner names a generation within the limit |
| Engine.Evolve | bc_bench.cpp:208-388 | the generation loop from the first map always ends Finished or Undefined, with the sound outcome Run states |
| Engine.FirstGeneration | bc_bench.cpp:152-204 | None iff seeding (v_count viable members, or c_count when v_count is 0) runs out of fuel; otherwise the first population is exactly the survivors of scoring the seeded members, it is live with one gene per city, and sorted is its map |
| Engine.SeedFits | bc_bench.cpp:167-183 | every seeded member has one gene per city |

## Left out

- Input and output are not modelled: option reading beyond the values the loop uses, the configuration echo, console and file reporting, the time column, timers, the final printout and `world::load`/`dump` file reading. `Engine.Report` keeps the reported values only.
- Randomness is given as streams. The `uniform_01` stream (`Units`) is independent of the twister's stream (`Words`), because the adapter draws from its own copy of the generator; the model does not tie the two copies together.
- Floating point is modelled as exact reals. This covers the `float` fitness and its sums, `ceil` and `round` of float products, and the double entropy. Rounding differences, and keys that collide only after rounding to `float`, are not captured.
- The distance `triad::range` is a parameter; square roots and the triad arithmetic are not modelled.
- Breeding.Seeding: the source's seeding loop is unbounded when the viability test keeps rejecting chromosomes; the model runs on fuel, one unit per attempt, and reports `SeedingUnfinished` when it runs out.
- BasicChromosomes.BasicChromosome.Recombine: the receiver must not be a parent. In the source, `clear()` would then empty the parent before it is read, giving a truncated child or an exception; neither is modelled. The same holds for Splice, RecombineAtRandom, SpliceAtRandom and Chromosomes.Chromosome.Recombine/Splice.
- Tour.World.CheckFitness: requires at least one city and no more genes than cities. Reading `cities[i]` past the end is undefined, so those calls are excluded. The `arriving == departing` exit cannot happen and is not modelled. ShowRoute has the same requirement.
- Engine.Run (and Engine.Evolve, which runs its loop): requires a non-negative genlimit (a negative one makes `genlimit--` run until integer overflow) and a survival fraction of at most 1 (a larger cull count walks past the end of the map). It also requires a non-negative elite fraction (a negative one makes the conversion of the ceiling to unsigned undefined) and a positive breeding fraction, which Engine.Configure guarantees.
- Engine.Run: int overflow of the `sameness` counter when samelimit is negative is not modelled; genlimit bounds the run first.
- Only the `unsigned char` instantiation of the chromosome template is modelled. The `basic_chromosome(length)` constructor and the destructor are not modelled.
- The catch blocks that only translate unexpected exceptions (`rand_index_error`, `enstream_error`, `destream_error`, memory exhaustion) are not modelled. Splice's final length check is also left out, because a successful splice always has the parent's length.
- In `splice(..., rng() % gensize, rng() % gensize)` and `mutate(rng() % gensize, rng())`, C++ leaves the order of argument evaluation unspecified; the model evaluates left to right.
- The `world` singleton lifecycle, the parameter defaults and the test programs are not modelled.

## Findings

| source | as written | input that shows it | evidently intended | confidence | as-written member | corrected member |
|---|---|---|---|---|---|---|
| bc_bench.cpp:55-56 | the default for d_percent is b_percent after b_percent was already divided by 100, and the result is divided by 100 again | b_percent = 20 and no d_percent: the drop fraction is 0.002 and the run keeps 99.8% of each generation | the drop fraction defaults to the breeding fraction 0.2 | medium; not executed | Engine.SurvivalAsWritten | Engine.ConfigureIntended |
