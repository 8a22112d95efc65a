/** The grid search of `HyperparameterTuning`: for every number of categories
    `k = 2 .. n` and every hidden-layer size `8, 16, 24, 32`, one MLP is
    trained on a subset of `k` categories and its accuracies are recorded.
    Training itself (an LDA fit followed by an MLP fit and two scores) is an
    oracle; the model keeps the bookkeeping: which configuration and which
    subset each grid point uses, and where its results land in the three
    result lists. */
module Tuning {
  import opened Common

  /** A fitted `LinearDiscriminantAnalysis(n_components=1)`: its `transform`. */
  type Projector = Feature -> real

  /** A fitted `MLPClassifier`: its `predict` on a projected feature. */
  type Predictor = real -> Category

  /** The constructor arguments of `MLPClassifier`. */
  datatype MlpConfig = MlpConfig(solver: string, hiddenLayerSizes: (int, int), randomState: int,
                                 maxIter: nat, warmStart: bool, earlyStopping: bool)

  /** A classifier together with how it predicts once fitted. */
  datatype Mlp = Mlp(config: MlpConfig, predict: Predictor)

  /** What one call of `TrainingModel.train` yields: the two accuracies, the
      fitted LDA, and the prediction function of the MLP it fitted in place. */
  datatype Trained = Trained(trainAccuracy: real, validAccuracy: real, projector: Projector, predict: Predictor)

  /** `TrainingModel.train` on a fresh classifier with the given configuration
      and category subset; None when it raises (for example because one of
      the two sections holds no sample of the subset). */
  type Trainer = (MlpConfig, seq<Category>) -> Option<Trained>

  const MinLayer: nat := 8
  const MaxLayer: nat := 32

  /** The configuration built for hidden size `h`. */
  function AdamConfig(h: int): MlpConfig
  {
    MlpConfig("adam", (h, h), 1, 10000, true, true)
  }

  /** The hidden sizes of the inner loop, `range(min_layer, max_layer +
      min_layer, min_layer)`. */
  function HiddenSizes(): (r: seq<int>)
    ensures r == [8, 16, 24, 32]
  {
    var r := PyRange(MinLayer, MaxLayer + MinLayer, MinLayer);
    assert r[0] == 8 && r[1] == 16 && r[2] == 24 && r[3] == 32;
    assert |r| == 4;
    r
  }

  /** The number of grid points for `n` categories: one per `k` in
      `range(2, n + 1)` and hidden size. */
  function GridSize(n: int): (r: nat)
    ensures r == |PyRange(2, n + 1, 1)| * |HiddenSizes()|
  {
    if n >= 2 then (n - 1) * 4 else 0
  }

  /** The grid point `(k, hidden size)` whose results sit at offset `j`:
      `k`-major, hidden size minor. */
  function GridPoint(j: nat): (p: (int, int))
    ensures p.0 >= 2 && p.1 in HiddenSizes()
  {
    (2 + j / 4, 8 * (j % 4 + 1))
  }

  /** The offset of the grid point `(k, h)`. */
  function GridIndex(k: int, h: int): int
  {
    (k - 2) * 4 + (h / 8 - 1)
  }

  lemma GridIndexOfPoint(j: nat)
    ensures GridIndex(GridPoint(j).0, GridPoint(j).1) == j
  {
  }

  lemma GridPointOfIndex(k: int, h: int)
    requires k >= 2 && h in HiddenSizes()
    ensures GridIndex(k, h) >= 0 && GridPoint(GridIndex(k, h)) == (k, h)
  {
    var t := h / 8 - 1;
    assert 0 <= t < 4 && h == 8 * (t + 1);
    DivMod(k - 2, t);
  }

  /** The grid points of `n` categories are exactly the offsets below
      `GridSize(n)`. */
  lemma GridPointsInRange(n: int, j: nat)
    ensures j < GridSize(n) <==> n >= 2 && GridPoint(j).0 <= n
  {
    DivMod(j / 4, j % 4);
  }

  lemma GridPointAt(q: nat, t: nat)
    requires t < 4
    ensures GridPoint(q * 4 + t) == (q + 2, 8 * (t + 1))
  {
    DivMod(q, t);
  }

  lemma DivMod(q: nat, t: nat)
    requires t < 4
    ensures (q * 4 + t) / 4 == q && (q * 4 + t) % 4 == t
  {
  }

  /** `[1/n for n in range(2, len_cat + 1)]`: one chance-level accuracy per
      number of categories `2 .. n`. */
  function Baseline(n: int): (r: seq<real>)
    ensures |r| == if n >= 1 then n - 1 else 0
    ensures forall j :: 0 <= j < |r| ==> r[j] == 1.0 / (j + 2) as real
  {
    var ks := PyRange(2, n + 1, 1);
    seq(|ks|, j requires 0 <= j < |ks| => 1.0 / ks[j] as real)
  }

  /** The draw behind one grid point: the positions chosen from the category
      list and the subset handed to training. */
  datatype Draw = Draw(positions: seq<nat>, subset: seq<Category>)

  /** The subset rule: every category when `k` is their number, otherwise `k`
      categories at distinct positions. */
  predicate SubsetRule(k: int, cats: seq<Category>, d: Draw)
  {
    if k == |cats| then d.subset == cats
    else |d.positions| == k && NoDup(d.positions)
         && (forall j :: 0 <= j < |d.positions| ==> d.positions[j] < |cats|)
         && d.subset == Pick(cats, d.positions)
  }

  lemma SubsetRuleMeans(k: nat, cats: seq<Category>, d: Draw)
    requires SubsetRule(k, cats, d)
    ensures |d.subset| == k
    ensures forall c :: c in d.subset ==> c in cats
    ensures NoDup(cats) ==> NoDup(d.subset)
  {
    if k != |cats| {
      forall c | c in d.subset
        ensures c in cats
      {
        var j :| 0 <= j < |d.subset| && d.subset[j] == c;
        assert cats[d.positions[j]] == c;
      }
      if NoDup(cats) {
        PickNoDup(cats, d.positions);
      }
    }
  }

  /** `np.random.choice(cats, k, replace=False)`: `k` distinct positions,
      each drawn among those not drawn yet. */
  method ChooseDistinct(cats: seq<Category>, k: nat) returns (ps: seq<nat>, sub: seq<Category>)
    requires k <= |cats|
    ensures |ps| == k && NoDup(ps)
    ensures forall j :: 0 <= j < |ps| ==> ps[j] < |cats|
    ensures sub == Pick(cats, ps)
  {
    var rest: seq<nat> := seq(|cats|, i requires 0 <= i < |cats| => i);
    ps := [];
    while |ps| < k
      invariant |ps| + |rest| == |cats| && |ps| <= k
      invariant NoDup(ps) && NoDup(rest)
      invariant forall j :: 0 <= j < |ps| ==> ps[j] < |cats| && ps[j] !in rest
      invariant forall j :: 0 <= j < |rest| ==> rest[j] < |cats|
    {
      var i :| 0 <= i < |rest|;
      var p := rest[i];
      var rest' := rest[..i] + rest[i + 1..];
      RemoveKeepsDistinct(rest, i);
      NoDupSnoc(ps, p);
      ps := ps + [p];
      rest := rest';
    }
    sub := Pick(cats, ps);
  }

  lemma RemoveKeepsDistinct(s: seq<nat>, i: nat)
    requires i < |s| && NoDup(s)
    ensures NoDup(s[..i] + s[i + 1..])
    ensures forall x :: x in s[..i] + s[i + 1..] <==> x in s && x != s[i]
  {
    var r := s[..i] + s[i + 1..];
    forall a, b | 0 <= a < b < |r|
      ensures r[a] != r[b]
    {
      var a', b' := if a < i then a else a + 1, if b < i then b else b + 1;
      assert r[a] == s[a'] && r[b] == s[b'] && a' < b';
    }
    forall x | x in s && x != s[i]
      ensures x in r
    {
      var j :| 0 <= j < |s| && s[j] == x;
      if j < i {
        assert r[j] == x;
      } else {
        assert r[j - 1] == x;
      }
    }
  }

  /** Training at grid offset `j` on the given subset. */
  function Attempt(j: nat, sub: seq<Category>, train: Trainer): Option<Trained>
  {
    train(AdamConfig(GridPoint(j).1), sub)
  }

  /** Every draw so far led to a successful training. */
  predicate AllTrained(drawn: seq<Draw>, train: Trainer)
  {
    forall j :: 0 <= j < |drawn| ==> Attempt(j, drawn[j].subset, train).Some?
  }

  /** The `l_mlp` entry of a grid point whose training succeeded. */
  function MlpEntry(j: nat, sub: seq<Category>, train: Trainer): (Mlp, Projector)
    requires Attempt(j, sub, train).Some?
  {
    var o := Attempt(j, sub, train).value;
    (Mlp(AdamConfig(GridPoint(j).1), o.predict), o.projector)
  }

  /** What `l_mlp` gains for the given draws. */
  function MlpEntries(drawn: seq<Draw>, train: Trainer): (r: seq<(Mlp, Projector)>)
    requires AllTrained(drawn, train)
    ensures |r| == |drawn|
  {
    seq(|drawn|, j requires 0 <= j < |drawn| && AllTrained(drawn, train) =>
      MlpEntry(j, drawn[j].subset, train))
  }

  /** What `train_accuracy` gains for the given draws. */
  function TrainAccuracies(drawn: seq<Draw>, train: Trainer): (r: seq<real>)
    requires AllTrained(drawn, train)
    ensures |r| == |drawn|
  {
    seq(|drawn|, j requires 0 <= j < |drawn| && AllTrained(drawn, train) =>
      Attempt(j, drawn[j].subset, train).value.trainAccuracy)
  }

  /** What `valid_accuracy` gains for the given draws. */
  function ValidAccuracies(drawn: seq<Draw>, train: Trainer): (r: seq<real>)
    requires AllTrained(drawn, train)
    ensures |r| == |drawn|
  {
    seq(|drawn|, j requires 0 <= j < |drawn| && AllTrained(drawn, train) =>
      Attempt(j, drawn[j].subset, train).value.validAccuracy)
  }

  /** The three result lists, starting from `l0`, `t0`, `v0`, hold one entry
      per draw, in grid order, and every draw follows the subset rule. */
  ghost predicate Logged(cats: seq<Category>, drawn: seq<Draw>, train: Trainer,
                         l0: seq<(Mlp, Projector)>, t0: seq<real>, v0: seq<real>,
                         l: seq<(Mlp, Projector)>, t: seq<real>, v: seq<real>)
  {
    (forall j :: 0 <= j < |drawn| ==> SubsetRule(GridPoint(j).0, cats, drawn[j]))
    && AllTrained(drawn, train)
    && l == l0 + MlpEntries(drawn, train)
    && t == t0 + TrainAccuracies(drawn, train)
    && v == v0 + ValidAccuracies(drawn, train)
  }

  /** The lists stay in lockstep: each gains exactly one entry per draw. */
  lemma LoggedLengths(cats: seq<Category>, drawn: seq<Draw>, train: Trainer,
                      l0: seq<(Mlp, Projector)>, t0: seq<real>, v0: seq<real>,
                      l: seq<(Mlp, Projector)>, t: seq<real>, v: seq<real>)
    requires Logged(cats, drawn, train, l0, t0, v0, l, t, v)
    ensures |l| - |l0| == |t| - |t0| == |v| - |v0| == |drawn|
  {
  }

  /** The entry at offset `j` of each list comes from the grid point
      `GridPoint(j)`: its configuration, and what training returned there. */
  lemma LoggedLockstep(cats: seq<Category>, drawn: seq<Draw>, train: Trainer,
                       l0: seq<(Mlp, Projector)>, t0: seq<real>, v0: seq<real>,
                       l: seq<(Mlp, Projector)>, t: seq<real>, v: seq<real>, j: nat)
    requires Logged(cats, drawn, train, l0, t0, v0, l, t, v)
    requires j < |drawn|
    ensures l[|l0| + j].0.config.hiddenLayerSizes == (GridPoint(j).1, GridPoint(j).1)
    ensures train(AdamConfig(GridPoint(j).1), drawn[j].subset)
            == Some(Trained(t[|t0| + j], v[|v0| + j], l[|l0| + j].1, l[|l0| + j].0.predict))
  {
    assert l[|l0| + j] == MlpEntries(drawn, train)[j];
    assert t[|t0| + j] == TrainAccuracies(drawn, train)[j];
    assert v[|v0| + j] == ValidAccuracies(drawn, train)[j];
  }

  /** One more successful grid point extends the log by one draw. */
  lemma LogStep(cats: seq<Category>, drawn: seq<Draw>, train: Trainer, d: Draw,
                l0: seq<(Mlp, Projector)>, t0: seq<real>, v0: seq<real>,
                l: seq<(Mlp, Projector)>, t: seq<real>, v: seq<real>)
    requires Logged(cats, drawn, train, l0, t0, v0, l, t, v)
    requires SubsetRule(GridPoint(|drawn|).0, cats, d)
    requires Attempt(|drawn|, d.subset, train).Some?
    ensures var j, o := |drawn|, Attempt(|drawn|, d.subset, train).value;
            Logged(cats, drawn + [d], train, l0, t0, v0, l + [MlpEntry(j, d.subset, train)],
                   t + [o.trainAccuracy], v + [o.validAccuracy])
  {
    var j, o := |drawn|, Attempt(|drawn|, d.subset, train).value;
    var drawn' := drawn + [d];
    assert AllTrained(drawn', train);
    var e := MlpEntry(j, d.subset, train);
    assert MlpEntries(drawn', train) == MlpEntries(drawn, train) + [e];
    assert TrainAccuracies(drawn', train) == TrainAccuracies(drawn, train) + [o.trainAccuracy];
    assert ValidAccuracies(drawn', train) == ValidAccuracies(drawn, train) + [o.validAccuracy];
    AppendAssoc(l0, MlpEntries(drawn, train), [e]);
    AppendAssoc(t0, TrainAccuracies(drawn, train), [o.trainAccuracy]);
    AppendAssoc(v0, ValidAccuracies(drawn, train), [o.validAccuracy]);
  }

  class HyperparameterTuning {
    const categories: seq<Category>
    const lenCat: nat
    const randomAccuracy: seq<real>
    const minLayer: nat
    const maxLayer: nat
    var lMlp: seq<(Mlp, Projector)>
    var trainAccuracy: seq<real>
    var validAccuracy: seq<real>

    /** The constants fixed by `__init__`. */
    predicate Valid()
    {
      lenCat == |categories| && randomAccuracy == Baseline(lenCat)
      && minLayer == MinLayer && maxLayer == MaxLayer
    }

    constructor (categories: seq<Category>)
      ensures Valid() && this.categories == categories
      ensures lMlp == [] && trainAccuracy == [] && validAccuracy == []
    {
      this.categories := categories;
      lenCat := |categories|;
      randomAccuracy := Baseline(|categories|);
      minLayer := 8;
      maxLayer := 32;
      lMlp := [];
      trainAccuracy := [];
      validAccuracy := [];
    }

    /** `getRandomAccuracy`: Python indexing into the baseline list, so the
        baseline of `k` categories is at `k - 2`. */
    function GetRandomAccuracy(i: int): (r: Option<real>)
      requires Valid()
      ensures r.Some? <==> -(lenCat - 1) <= i < lenCat - 1
      ensures 2 <= i + 2 <= lenCat ==> r == Some(1.0 / (i + 2) as real)
    {
      PyIndex(randomAccuracy, i)
    }

    /** One grid point, the `j`-th of the search: draw the subset, build the
        classifier, train it and append its results. When training raises,
        nothing is appended. */
    method TrainPoint(k: nat, h: int, ghost j: nat, train: Trainer) returns (ok: bool, ghost d: Draw)
      requires Valid() && k <= lenCat && GridPoint(j) == (k, h)
      modifies this`lMlp, this`trainAccuracy, this`validAccuracy
      ensures SubsetRule(k, categories, d)
      ensures ok == Attempt(j, d.subset, train).Some?
      ensures ok ==> lMlp == old(lMlp) + [MlpEntry(j, d.subset, train)]
                     && trainAccuracy == old(trainAccuracy) + [Attempt(j, d.subset, train).value.trainAccuracy]
                     && validAccuracy == old(validAccuracy) + [Attempt(j, d.subset, train).value.validAccuracy]
      ensures !ok ==> lMlp == old(lMlp) && trainAccuracy == old(trainAccuracy)
                      && validAccuracy == old(validAccuracy)
    {
      var sub: seq<Category>;
      if k == lenCat {
        sub := categories;
        d := Draw([], sub);
      } else {
        var ps;
        ps, sub := ChooseDistinct(categories, k);
        d := Draw(ps, sub);
      }
      var config := AdamConfig(h);
      var res := train(config, sub);
      assert res == Attempt(j, sub, train);
      if res.None? {
        return false, d;
      }
      var o := res.value;
      lMlp := lMlp + [(Mlp(config, o.predict), o.projector)];
      trainAccuracy := trainAccuracy + [o.trainAccuracy];
      validAccuracy := validAccuracy + [o.validAccuracy];
      ok := true;
    }

    /** The inner loop of `startIterate` for `k` categories: one grid point
        per hidden size, continuing the log `done0` that the three result
        lists hold relative to `l0`, `t0`, `v0`. */
    method TrainRow(k: nat, train: Trainer, ghost done0: seq<Draw>,
                    ghost l0: seq<(Mlp, Projector)>, ghost t0: seq<real>, ghost v0: seq<real>)
      returns (ok: bool, ghost done: seq<Draw>, ghost failed: Option<Draw>)
      requires Valid() && 2 <= k <= lenCat && |done0| == (k - 2) * 4
      requires Logged(categories, done0, train, l0, t0, v0, lMlp, trainAccuracy, validAccuracy)
      modifies this`lMlp, this`trainAccuracy, this`validAccuracy
      ensures Logged(categories, done, train, l0, t0, v0, lMlp, trainAccuracy, validAccuracy)
      ensures ok <==> failed.None?
      ensures ok ==> |done| == (k - 1) * 4
      ensures !ok ==> (k - 2) * 4 <= |done| < (k - 1) * 4
                      && SubsetRule(GridPoint(|done|).0, categories, failed.value)
                      && Attempt(|done|, failed.value.subset, train).None?
    {
      var sizes := PyRange(minLayer, maxLayer + minLayer, minLayer);
        assert sizes == HiddenSizes();
      done, failed := done0, None;
      var t := 0;
      while t < |sizes|
        invariant 0 <= t <= |sizes| && |done| == (k - 2) * 4 + t
        invariant Logged(categories, done, train, l0, t0, v0, lMlp, trainAccuracy, validAccuracy)
      {
        ghost var l, tr, v := lMlp, trainAccuracy, validAccuracy;
        GridPointAt(k - 2, t);
        var trained, d := TrainPoint(k, sizes[t], |done|, train);
        if !trained {
          return false, done, Some(d);
        }
        LogStep(categories, done, train, d, l0, t0, v0, l, tr, v);
        done := done + [d];
        t := t + 1;
      }
      ok := true;
    }

    /** `startIterate`: the grid search. The ghost `done` records the draws
        of the grid points trained so far; when training raises, `failed` is
        the draw of the grid point where it did and the search stops there. */
    method StartIterate(train: Trainer) returns (ok: bool, ghost done: seq<Draw>, ghost failed: Option<Draw>)
      requires Valid()
      modifies this`lMlp, this`trainAccuracy, this`validAccuracy
      ensures Logged(categories, done, train, old(lMlp), old(trainAccuracy), old(validAccuracy),
                     lMlp, trainAccuracy, validAccuracy)
      ensures ok <==> failed.None?
      ensures ok ==> |done| == GridSize(lenCat)
      ensures !ok ==> |done| < GridSize(lenCat)
                      && SubsetRule(GridPoint(|done|).0, categories, failed.value)
                      && Attempt(|done|, failed.value.subset, train).None?
    {
      ghost var l0, t0, v0 := lMlp, trainAccuracy, validAccuracy;
      done, failed := [], None;
      var i := 2;
      while i <= lenCat
        invariant 2 <= i && (i == 2 || i <= lenCat + 1)
        invariant |done| == (i - 2) * 4 && failed == None
        invariant Logged(categories, done, train, l0, t0, v0, lMlp, trainAccuracy, validAccuracy)
      {
        ok, done, failed := TrainRow(i, train, done, l0, t0, v0);
        if !ok {
          return;
        }
        i := i + 1;
      }
      ok := true;
    }
  }
}
