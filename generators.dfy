/** The three data generators (`generate_continuous_data`,
    `generate_proportion_data`, `generate_categorical_data`). Each walks the
    groups in order, names group `i` `prefix + " " + chr(65 + i)`, asks the
    random number generator for `sample_size_per_path` values from a
    distribution chosen by the group index, and appends one record per value
    with a running `user_id` that starts at 1.

    The random draws are a parameter: `sample(i, d)` is what the generator
    returns when group `i` asks it for values from distribution `d`. */
module Generators {

  /** One record of the generated table: its three columns. */
  datatype Row<V> = Row(userId: int, group: string, metric: V)

  /** The letter of group `i` is `chr(65 + i)`. A Dafny `char` is a Unicode
      scalar value, so the letters run from 'A' up to U+D7FF. */
  const MaxPaths: nat := 0xD800 - 65

  /** The label of group `i`: the prefix, a space and the group's letter. */
  function GroupLabel(prefix: string, i: nat): (name: string)
    requires i < MaxPaths
    ensures |name| == |prefix| + 2 && name[..|prefix|] == prefix
    ensures name[|prefix|] == ' ' && name[|prefix| + 1] as int == 65 + i
  {
    prefix + " " + [(65 + i) as char]
  }

  /** Different groups get different labels. */
  lemma GroupLabelInjective(prefix: string, i: nat, j: nat)
    requires i < MaxPaths && j < MaxPaths
    ensures GroupLabel(prefix, i) == GroupLabel(prefix, j) <==> i == j
  {
    var a, b := GroupLabel(prefix, i), GroupLabel(prefix, j);
    if a == b {
      assert a[|a| - 1] == b[|b| - 1];
    }
  }

  /** With the default prefix the first 26 groups are "Group A" to "Group Z". */
  lemma DefaultGroupLabels(i: nat)
    requires i < 26
    ensures GroupLabel("Group", i) == "Group " + ["ABCDEFGHIJKLMNOPQRSTUVWXYZ"[i]]
  {
  }

  // ---------------------------------------------------------------------
  // Per-group distribution parameters
  // ---------------------------------------------------------------------

  /** A request to the random number generator: the numpy sampler and its
      parameters. */
  datatype Distribution =
    | Normal(loc: real, scale: real)
    | Gamma(shape: real, scale: real)
    | Binomial(trials: nat, p: real)
    | Choice(options: seq<string>, weights: seq<real>)

  /** Which of the three generators runs; the continuous one carries the two
      form choices it depends on. */
  datatype Generator =
    | Continuous(distributionShape: string, varianceCondition: string)
    | Proportion
    | Categorical

  /** The continuous generator's request for group `i`. Any shape other than
      "Normal" is treated as skewed, any variance other than "Equal" as
      unequal. */
  function ContinuousDistribution(shape: string, variance: string, i: nat): (d: Distribution)
    ensures d.Normal? <==> shape == "Normal"
    ensures d.Gamma? <==> shape != "Normal"
    ensures d.scale == 10.0 + (if variance == "Equal" then 0.0 else 5.0 * i as real)
    ensures d.Normal? ==> d.loc == 50.0 + (if variance == "Equal" then 0.0 else 10.0 * i as real)
    ensures d.Gamma? ==> d.shape == 2.0 + (if variance == "Equal" then 0.0 else 0.5 * i as real)
  {
    var x := i as real;
    if shape == "Normal" then
      if variance == "Equal" then Normal(50.0, 10.0)
      else Normal(50.0 + x * 10.0, 10.0 + x * 5.0)
    else
      if variance == "Equal" then Gamma(2.0, 10.0)
      else Gamma(2.0 + x * 0.5, 10.0 + x * 5.0)
  }

  function Min(a: int, b: int): int {
    if a <= b then a else b
  }

  /** The success probability of group `i`: 0.3 plus 0.2 per group, capped
      at 0.9. In tenths it is min(3 + 2i, 9). */
  function ProportionProbability(i: nat): (p: real)
    ensures p * 10.0 == Min(3 + 2 * i, 9) as real
    ensures 0.3 <= p <= 0.9
  {
    var probability := 0.3 + (i as real) * 0.2;
    if 0.9 < probability then 0.9 else probability
  }

  /** A later group never has a smaller success probability. */
  lemma ProportionProbabilityMonotone(i: nat, j: nat)
    requires i <= j
    ensures ProportionProbability(i) <= ProportionProbability(j)
  {
  }

  /** The categories a categorical record can take. */
  const Categories: seq<string> := ["Red", "Blue", "Green", "Yellow", "Purple", "Orange"]

  /** The category weights of group `i` before normalisation: groups 0, 1
      and 2 each have their own row, every later group shares the last one. */
  function WeightRow(i: nat): (w: seq<real>)
    ensures |w| == |Categories|
  {
    if i == 0 then [0.4, 0.3, 0.2, 0.1, 0.0, 0.0]
    else if i == 1 then [0.1, 0.2, 0.4, 0.3, 0.0, 0.0]
    else if i == 2 then [0.0, 0.1, 0.2, 0.3, 0.4, 0.0]
    else [0.1, 0.1, 0.1, 0.1, 0.3, 0.3]
  }

  /** Groups 0 to 3 get four different rows; from group 3 on the row is the same. */
  lemma WeightRowSelection(i: nat)
    ensures i >= 3 ==> WeightRow(i) == WeightRow(3)
    ensures WeightRow(0) != WeightRow(1) && WeightRow(0) != WeightRow(2) && WeightRow(0) != WeightRow(3)
    ensures WeightRow(1) != WeightRow(2) && WeightRow(1) != WeightRow(3) && WeightRow(2) != WeightRow(3)
  {
    assert WeightRow(0)[0] != WeightRow(1)[0] && WeightRow(0)[0] != WeightRow(2)[0];
    assert WeightRow(0)[0] != WeightRow(3)[0] && WeightRow(1)[2] != WeightRow(2)[2];
    assert WeightRow(1)[2] != WeightRow(3)[2] && WeightRow(2)[3] != WeightRow(3)[3];
  }

  function Sum(w: seq<real>): real {
    if w == [] then 0.0 else w[0] + Sum(w[1..])
  }

  predicate NonNegative(w: seq<real>) {
    forall k :: 0 <= k < |w| ==> 0.0 <= w[k]
  }

  /** Every weight divided by `c`. */
  function Scale(w: seq<real>, c: real): (r: seq<real>)
    requires c != 0.0
    ensures |r| == |w| && forall k :: 0 <= k < |w| ==> r[k] == w[k] / c
  {
    seq(|w|, k requires 0 <= k < |w| => w[k] / c)
  }

  /** `[w / sum(weights) for w in weights]`. */
  function Normalize(w: seq<real>): seq<real>
    requires Sum(w) != 0.0
  {
    Scale(w, Sum(w))
  }

  lemma {:induction false} SumScale(w: seq<real>, c: real)
    requires c != 0.0
    ensures Sum(Scale(w, c)) == Sum(w) / c
  {
    if w != [] {
      SumScale(w[1..], c);
      assert Scale(w, c)[1..] == Scale(w[1..], c);
    }
  }

  /** Normalising non-negative weights with a positive total gives a
      probability vector: the weights stay non-negative and sum to one. */
  lemma NormalizeSumsToOne(w: seq<real>)
    requires NonNegative(w) && Sum(w) > 0.0
    ensures NonNegative(Normalize(w)) && Sum(Normalize(w)) == 1.0
  {
    var total := Sum(w);
    SumScale(w, total);
    assert total / total == 1.0;
    forall k | 0 <= k < |w|
      ensures 0.0 <= Normalize(w)[k]
    {
      assert Normalize(w)[k] == w[k] / total;
    }
  }

  lemma SumOfSix(w: seq<real>)
    requires |w| == 6
    ensures Sum(w) == w[0] + w[1] + w[2] + w[3] + w[4] + w[5]
  {
    var w1, w2, w3, w4, w5 := w[1..], w[2..], w[3..], w[4..], w[5..];
    assert w1[1..] == w2 && w2[1..] == w3 && w3[1..] == w4 && w4[1..] == w5 && w5[1..] == [];
    assert Sum(w5) == w[5];
    assert Sum(w4) == w[4] + w[5];
    assert Sum(w3) == w[3] + w[4] + w[5];
    assert Sum(w2) == w[2] + w[3] + w[4] + w[5];
    assert Sum(w1) == w[1] + w[2] + w[3] + w[4] + w[5];
  }

  /** Each weight row already sums to one. */
  lemma WeightRowSumsToOne(i: nat)
    ensures NonNegative(WeightRow(i)) && Sum(WeightRow(i)) == 1.0
  {
    SumOfSix(WeightRow(i));
  }

  /** The weights the categorical generator hands to the sampler for group
      `i`: the row cut to at most `min(len(categories), 6)` entries, then
      normalised. */
  function CategoricalWeights(i: nat): (p: seq<real>)
    ensures |p| == |Categories|
    ensures NonNegative(p) && Sum(p) == 1.0
  {
    var w := WeightRow(i)[..Min(|Categories|, 6)];
    assert w == WeightRow(i);
    WeightRowSumsToOne(i);
    NormalizeSumsToOne(w);
    Normalize(w)
  }

  /** Since every row sums to one, the cut and the normalisation leave it as it is. */
  lemma CategoricalWeightsAreRow(i: nat)
    ensures CategoricalWeights(i) == WeightRow(i)
  {
    var w := WeightRow(i);
    WeightRowSumsToOne(i);
    assert w[..Min(|Categories|, 6)] == w;
    assert forall k :: 0 <= k < |w| ==> Normalize(w)[k] == w[k] / 1.0 == w[k];
  }

  /** The request of generator `g` for group `i`. */
  function DistributionFor(g: Generator, i: nat): Distribution {
    match g
    case Continuous(shape, variance) => ContinuousDistribution(shape, variance, i)
    case Proportion => Binomial(1, ProportionProbability(i))
    case Categorical =>
      var w := CategoricalWeights(i);
      Choice(Categories[..|w|], w)
  }

  /** Parameters the sampler accepts: positive scales and shapes, a
      probability in [0, 1], and choice weights that form a probability
      vector over as many options. */
  predicate Accepted(d: Distribution) {
    match d
    case Normal(loc, scale) => scale > 0.0
    case Gamma(shape, scale) => shape > 0.0 && scale > 0.0
    case Binomial(trials, p) => 0.0 <= p <= 1.0
    case Choice(options, weights) => |options| == |weights| > 0 && NonNegative(weights) && Sum(weights) == 1.0
  }

  /** Every request any generator makes, for any group, is accepted. */
  lemma DistributionForAccepted(g: Generator, i: nat)
    ensures Accepted(DistributionFor(g, i))
  {
    if g.Categorical? {
      CategoricalWeightsAreRow(i);
      WeightRowSumsToOne(i);
    }
  }

  /** With equal variance every group draws from the same distribution. */
  lemma EqualVarianceSameDistribution(shape: string, i: nat, j: nat)
    ensures ContinuousDistribution(shape, "Equal", i) == ContinuousDistribution(shape, "Equal", j)
  {
  }

  /** With unequal variance no two groups draw from the same distribution. */
  lemma UnequalVarianceDistinctDistributions(shape: string, variance: string, i: nat, j: nat)
    requires variance != "Equal" && i != j
    ensures ContinuousDistribution(shape, variance, i) != ContinuousDistribution(shape, variance, j)
  {
  }

  // ---------------------------------------------------------------------
  // Record layout
  // ---------------------------------------------------------------------

  /** The random number generator returns exactly the requested number of values. */
  ghost predicate SampleSize<V>(sample: (nat, Distribution) -> seq<V>, n: nat) {
    forall i: nat, d: Distribution :: |sample(i, d)| == n
  }

  /** How many times `for i in range(num_paths)` runs. */
  function GroupCount(numPaths: int): nat {
    if numPaths > 0 then numPaths else 0
  }

  /** The records of group `i` for its values, numbered from `firstId`. */
  function Block<V>(prefix: string, i: nat, firstId: int, values: seq<V>): (b: seq<Row<V>>)
    requires i < MaxPaths
    ensures |b| == |values|
    ensures forall j :: 0 <= j < |values| ==> b[j] == Row(firstId + j, GroupLabel(prefix, i), values[j])
  {
    if values == [] then []
    else Block(prefix, i, firstId, values[..|values| - 1]) +
         [Row(firstId + |values| - 1, GroupLabel(prefix, i), values[|values| - 1])]
  }

  /** The table after the first `groups` groups: each group's block appended
      after the previous ones, ids continuing from one block to the next. */
  ghost function Table<V>(prefix: string, n: nat, g: Generator, sample: (nat, Distribution) -> seq<V>, groups: nat): (t: seq<Row<V>>)
    requires groups <= MaxPaths && SampleSize(sample, n)
    ensures |t| == groups * n
  {
    if groups == 0 then []
    else
      var i := groups - 1;
      Table(prefix, n, g, sample, i) + Block(prefix, i, i * n + 1, sample(i, DistributionFor(g, i)))
  }

  /** The loop shared by the three generators. */
  method BuildRecords<V>(numPaths: int, sampleSizePerPath: nat, groupPrefix: string, g: Generator,
                         sample: (nat, Distribution) -> seq<V>)
    returns (data: seq<Row<V>>)
    requires numPaths <= MaxPaths
    requires SampleSize(sample, sampleSizePerPath)
    ensures data == Table(groupPrefix, sampleSizePerPath, g, sample, GroupCount(numPaths))
  {
    data := [];
    var userIdCounter := 1;
    var i := 0;
    while i < numPaths
      invariant 0 <= i <= GroupCount(numPaths)
      invariant data == Table(groupPrefix, sampleSizePerPath, g, sample, i)
      invariant userIdCounter == i * sampleSizePerPath + 1
    {
      var values := sample(i, DistributionFor(g, i));
      data, userIdCounter := AppendGroup(data, userIdCounter, groupPrefix, i, values);
      TableExtend(groupPrefix, sampleSizePerPath, g, sample, i);
      assert userIdCounter == (i + 1) * sampleSizePerPath + 1;
      i := i + 1;
    }
  }

  /** The inner loop of the generators (`for value in values`): appends one
      record per value, with ids counting up from `userIdCounter`. */
  method AppendGroup<V>(data: seq<Row<V>>, userIdCounter: int, groupPrefix: string, i: nat, values: seq<V>)
    returns (data': seq<Row<V>>, userIdCounter': int)
    requires i < MaxPaths
    ensures data' == data + Block(groupPrefix, i, userIdCounter, values)
    ensures userIdCounter' == userIdCounter + |values|
  {
    var groupName := GroupLabel(groupPrefix, i);
    data', userIdCounter' := data, userIdCounter;
    for j := 0 to |values|
      invariant data' == data + Block(groupPrefix, i, userIdCounter, values[..j])
      invariant userIdCounter' == userIdCounter + j
    {
      BlockExtend(groupPrefix, i, userIdCounter, values, j);
      data' := data' + [Row(userIdCounter', groupName, values[j])];
      userIdCounter' := userIdCounter' + 1;
    }
    assert values[..|values|] == values;
  }

  /** Appending one value to a group's values appends one record to its block. */
  lemma BlockExtend<V>(prefix: string, i: nat, firstId: int, values: seq<V>, j: nat)
    requires i < MaxPaths && j < |values|
    ensures Block(prefix, i, firstId, values[..j + 1]) ==
            Block(prefix, i, firstId, values[..j]) + [Row(firstId + j, GroupLabel(prefix, i), values[j])]
  {
    assert values[..j + 1][..j] == values[..j];
  }

  /** The table after one more group is the table so far followed by that group's block. */
  lemma TableExtend<V>(prefix: string, n: nat, g: Generator, sample: (nat, Distribution) -> seq<V>, i: nat)
    requires i < MaxPaths && SampleSize(sample, n)
    ensures Table(prefix, n, g, sample, i + 1) ==
            Table(prefix, n, g, sample, i) + Block(prefix, i, i * n + 1, sample(i, DistributionFor(g, i)))
  {
  }

  /** `generate_continuous_data`: the metric is a real number. */
  method GenerateContinuousData(numPaths: int, sampleSizePerPath: nat, distributionShape: string,
                                varianceCondition: string, groupPrefix: string,
                                sample: (nat, Distribution) -> seq<real>)
    returns (data: seq<Row<real>>)
    requires numPaths <= MaxPaths
    requires SampleSize(sample, sampleSizePerPath)
    ensures data == Table(groupPrefix, sampleSizePerPath, Continuous(distributionShape, varianceCondition),
                          sample, GroupCount(numPaths))
  {
    data := BuildRecords(numPaths, sampleSizePerPath, groupPrefix,
                         Continuous(distributionShape, varianceCondition), sample);
  }

  /** `generate_proportion_data`: the metric is the 0/1 outcome of one trial. */
  method GenerateProportionData(numPaths: int, sampleSizePerPath: nat, groupPrefix: string,
                                sample: (nat, Distribution) -> seq<int>)
    returns (data: seq<Row<int>>)
    requires numPaths <= MaxPaths
    requires SampleSize(sample, sampleSizePerPath)
    ensures data == Table(groupPrefix, sampleSizePerPath, Proportion, sample, GroupCount(numPaths))
  {
    data := BuildRecords(numPaths, sampleSizePerPath, groupPrefix, Proportion, sample);
  }

  /** `generate_categorical_data`: the metric is a category name. */
  method GenerateCategoricalData(numPaths: int, sampleSizePerPath: nat, groupPrefix: string,
                                 sample: (nat, Distribution) -> seq<string>)
    returns (data: seq<Row<string>>)
    requires numPaths <= MaxPaths
    requires SampleSize(sample, sampleSizePerPath)
    ensures data == Table(groupPrefix, sampleSizePerPath, Categorical, sample, GroupCount(numPaths))
  {
    data := BuildRecords(numPaths, sampleSizePerPath, groupPrefix, Categorical, sample);
  }

  // ---------------------------------------------------------------------
  // Properties of the layout
  // ---------------------------------------------------------------------

  lemma {:induction false} DivModInBlock(k: int, i: nat, n: nat)
    requires i * n <= k < i * n + n
    ensures k / n == i && k % n == k - i * n
  {
    var q, r := k / n, k % n;
    assert k == q * n + r && 0 <= r < n;
    var d := q - i;
    assert d * n == k - i * n - r;
    MulAtLeastOne(d, n);
  }

  /** A non-zero multiple of `n` is at least `n` away from zero. */
  lemma MulAtLeastOne(d: int, n: nat)
    ensures d >= 1 ==> d * n >= n
    ensures d <= -1 ==> d * n + n <= 0
  {
  }

  /** Record `k` of the table has id `k + 1`, belongs to group `k / n` and
      carries the `k % n`-th value drawn for that group. */
  lemma {:induction false} TableAt<V>(prefix: string, n: nat, g: Generator, sample: (nat, Distribution) -> seq<V>,
                                      groups: nat, k: nat)
    requires groups <= MaxPaths && SampleSize(sample, n)
    requires k < groups * n
    ensures n > 0 && 0 <= k / n < groups
    ensures Table(prefix, n, g, sample, groups)[k] ==
            Row(k + 1, GroupLabel(prefix, k / n), sample(k / n, DistributionFor(g, k / n))[k % n])
  {
    var i := groups - 1;
    if k < i * n {
      TableAt(prefix, n, g, sample, i, k);
    } else {
      DivModInBlock(k, i, n);
    }
  }

  /** Record `k` belongs to group `i` exactly when `k / n == i`. */
  lemma {:induction false} TableGroupIndex<V>(prefix: string, n: nat, g: Generator, sample: (nat, Distribution) -> seq<V>,
                                              groups: nat, i: nat, k: nat)
    requires groups <= MaxPaths && SampleSize(sample, n)
    requires i < groups && k < groups * n
    ensures Table(prefix, n, g, sample, groups)[k].group == GroupLabel(prefix, i) <==> k / n == i
  {
    TableAt(prefix, n, g, sample, groups, k);
    GroupLabelInjective(prefix, k / n, i);
  }

  /** Group `i`'s records are exactly the `n` consecutive records starting at
      position `i * n`: the groups form contiguous blocks in increasing order. */
  lemma {:induction false} TableBlocks<V>(prefix: string, n: nat, g: Generator, sample: (nat, Distribution) -> seq<V>,
                                          groups: nat, i: nat, k: nat)
    requires groups <= MaxPaths && SampleSize(sample, n)
    requires i < groups && k < groups * n
    ensures Table(prefix, n, g, sample, groups)[k].group == GroupLabel(prefix, i) <==> i * n <= k < i * n + n
  {
    TableGroupIndex(prefix, n, g, sample, groups, i, k);
    InBlockIff(k, i, n);
  }

  /** Position `k` lies in block `i` of width `n` exactly when `k / n == i`. */
  lemma {:induction false} InBlockIff(k: nat, i: nat, n: nat)
    requires n > 0
    ensures k / n == i <==> i * n <= k < i * n + n
  {
    if i * n <= k < i * n + n {
      DivModInBlock(k, i, n);
    }
    if k / n == i {
      assert k == i * n + k % n;
    }
  }

  /** The ids of the whole table are 1, 2, ..., N in row order. */
  lemma {:induction false} TableIdsConsecutive<V>(prefix: string, n: nat, g: Generator, sample: (nat, Distribution) -> seq<V>,
                               groups: nat)
    requires groups <= MaxPaths && SampleSize(sample, n)
    ensures forall k :: 0 <= k < groups * n ==> Table(prefix, n, g, sample, groups)[k].userId == k + 1
  {
    forall k | 0 <= k < groups * n
      ensures Table(prefix, n, g, sample, groups)[k].userId == k + 1
    {
      TableAt(prefix, n, g, sample, groups, k);
    }
  }
}
