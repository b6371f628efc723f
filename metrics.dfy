/** Gauge metric families as the exporter builds them: a family has a name,
    a help text and an ordered list of label names, and collects samples,
    each holding one value per label name and a reading. A family is a
    value here: each collect builds its own families and hands them over
    only when it yields them. */
module Metrics {

  /** One sample: the label values, in the order of the family's label
      names, and the reading. Readings are integers in this model. */
  datatype Sample = Sample(labelValues: seq<string>, value: int)

  /** What a family is declared with: its name, its help text and its
      label names. */
  datatype Schema = Schema(name: string, documentation: string, labels: seq<string>)

  /** A family's contents at the moment a collector yields it. */
  datatype Family = Family(schema: Schema, samples: seq<Sample>)
  {
    /** add_metric: appends one sample; nothing checks the number of label
        values against the label names. */
    function AddMetric(labelValues: seq<string>, value: int): (r: Family)
      ensures r.schema == schema
      ensures |r.samples| == |samples| + 1 && r.samples[..|samples|] == samples
      ensures r.samples[|samples|] == Sample(labelValues, value)
    {
      Family(schema, samples + [Sample(labelValues, value)])
    }

    /** Every sample supplies exactly one value per declared label name. */
    predicate WellLabelled()
    {
      forall i :: 0 <= i < |samples| ==> |samples[i].labelValues| == |schema.labels|
    }

    /** No two samples carry the same label values. */
    predicate DistinctLabelValues()
    {
      forall p, q :: 0 <= p < q < |samples| ==> samples[p].labelValues != samples[q].labelValues
    }
  }

  /** GaugeMetricFamily(name, documentation, labels=labels): a family with
      no samples yet. */
  function NewFamily(name: string, documentation: string, labels: seq<string>): (r: Family)
    ensures r.schema == Schema(name, documentation, labels)
    ensures r.samples == []
  {
    Family(Schema(name, documentation, labels), [])
  }

  /** The samples a loop over `xs` appends to one family when each item `x`
      contributes the samples `f(x)`, in item order. */
  function Flatten<T>(xs: seq<T>, f: T -> seq<Sample>): (r: seq<Sample>)
    decreases |xs|
  {
    if xs == [] then [] else Flatten(xs[..|xs| - 1], f) + f(xs[|xs| - 1])
  }

  /** Each item contributes one sample per entry of `suffixes`, in that order;
      the m-th is labelled with the item's key followed by `suffixes[m]`. */
  ghost predicate Shaped<T(!new)>(f: T -> seq<Sample>, key: T -> string, suffixes: seq<seq<string>>)
  {
    forall x ::
      |f(x)| == |suffixes| &&
      forall m :: 0 <= m < |suffixes| ==> f(x)[m].labelValues == [key(x)] + suffixes[m]
  }

  lemma {:induction false} FlattenLength<T(!new)>(xs: seq<T>, f: T -> seq<Sample>, key: T -> string, suffixes: seq<seq<string>>)
    requires Shaped(f, key, suffixes)
    ensures |Flatten(xs, f)| == |xs| * |suffixes|
  {
    if xs != [] {
      var k, n := |xs| - 1, |suffixes|;
      FlattenLength(xs[..k], f, key, suffixes);
      assert |f(xs[k])| == n;
      assert (k + 1) * n == k * n + n;
    }
  }

  /** The m-th sample contributed by the j-th item sits at j * |suffixes| + m. */
  lemma {:induction false} FlattenAt<T(!new)>(xs: seq<T>, f: T -> seq<Sample>, key: T -> string, suffixes: seq<seq<string>>, j: nat, m: nat)
    requires Shaped(f, key, suffixes)
    requires j < |xs| && m < |suffixes|
    ensures j * |suffixes| + m < |Flatten(xs, f)|
    ensures Flatten(xs, f)[j * |suffixes| + m] == f(xs[j])[m]
  {
    var init := xs[..|xs| - 1];
    FlattenLength(init, f, key, suffixes);
    assert |f(xs[|xs| - 1])| == |suffixes|;
    if j < |xs| - 1 {
      FlattenAt(init, f, key, suffixes, j, m);
      assert init[j] == xs[j];
    }
  }

  /** The samples contributed by the j-th item form the j-th block of
      |suffixes| consecutive samples. */
  lemma FlattenBlock<T(!new)>(xs: seq<T>, f: T -> seq<Sample>, key: T -> string, suffixes: seq<seq<string>>, j: nat)
    requires Shaped(f, key, suffixes)
    requires j < |xs|
    ensures (j + 1) * |suffixes| <= |Flatten(xs, f)|
    ensures Flatten(xs, f)[j * |suffixes| .. (j + 1) * |suffixes|] == f(xs[j])
  {
    var n, fs := |suffixes|, Flatten(xs, f);
    FlattenLength(xs, f, key, suffixes);
    assert (j + 1) * n <= |xs| * n;
    forall m | 0 <= m < n
      ensures fs[j * n .. (j + 1) * n][m] == f(xs[j])[m]
    {
      FlattenAt(xs, f, key, suffixes, j, m);
    }
  }

  /** Conversely, every sample is the m-th contribution of some j-th item. */
  lemma {:induction false} FlattenCover<T(!new)>(xs: seq<T>, f: T -> seq<Sample>, key: T -> string, suffixes: seq<seq<string>>, i: nat)
      returns (j: nat, m: nat)
    requires Shaped(f, key, suffixes)
    requires i < |Flatten(xs, f)|
    ensures j < |xs| && m < |suffixes|
    ensures i == j * |suffixes| + m
    ensures Flatten(xs, f)[i] == f(xs[j])[m]
  {
    var init := xs[..|xs| - 1];
    FlattenLength(init, f, key, suffixes);
    if i < |Flatten(init, f)| {
      j, m := FlattenCover(init, f, key, suffixes, i);
      assert init[j] == xs[j];
    } else {
      j, m := |xs| - 1, i - |Flatten(init, f)|;
    }
  }

  /** A sample's first label value is the key of the item that contributed it,
      and it carries exactly one value per label name when every suffix has
      `width` entries. */
  lemma Labelling<T(!new)>(xs: seq<T>, f: T -> seq<Sample>, key: T -> string, suffixes: seq<seq<string>>, width: nat)
    requires Shaped(f, key, suffixes)
    requires forall m :: 0 <= m < |suffixes| ==> |suffixes[m]| == width
    ensures forall i :: 0 <= i < |Flatten(xs, f)| ==> |Flatten(xs, f)[i].labelValues| == width + 1
  {
    forall i | 0 <= i < |Flatten(xs, f)|
      ensures |Flatten(xs, f)[i].labelValues| == width + 1
    {
      var j, m := FlattenCover(xs, f, key, suffixes, i);
    }
  }

  /** With distinct keys and distinct suffixes, no two samples carry the same
      label values. */
  lemma FlattenDistinct<T(!new)>(xs: seq<T>, f: T -> seq<Sample>, key: T -> string, suffixes: seq<seq<string>>)
    requires Shaped(f, key, suffixes)
    requires forall a, b :: 0 <= a < b < |suffixes| ==> suffixes[a] != suffixes[b]
    requires forall a, b :: 0 <= a < b < |xs| ==> key(xs[a]) != key(xs[b])
    ensures forall p, q :: 0 <= p < q < |Flatten(xs, f)| ==> Flatten(xs, f)[p].labelValues != Flatten(xs, f)[q].labelValues
  {
    var fs := Flatten(xs, f);
    forall p, q | 0 <= p < q < |fs|
      ensures fs[p].labelValues != fs[q].labelValues
    {
      var j, m := FlattenCover(xs, f, key, suffixes, p);
      var j', m' := FlattenCover(xs, f, key, suffixes, q);
      var lp, lq := fs[p].labelValues, fs[q].labelValues;
      assert lp == [key(xs[j])] + suffixes[m] && lq == [key(xs[j'])] + suffixes[m'];
      if j != j' {
        assert key(xs[j]) != key(xs[j']) by {
          if j < j' { } else { }
        }
        assert lp[0] != lq[0];
      } else {
        assert m < m';
        assert lp[1..] == suffixes[m] && lq[1..] == suffixes[m'];
      }
    }
  }
}
