/** The exemplar collection of `GenerateTest`: for every category it keeps up
    to two images the classifier got right (`found`) and up to two it got
    wrong (`fail`), with their labels, and two coverage arrays that say which
    categories are done. `startTest` feeds randomly drawn validation samples
    through the classifiers of the grid search until every category is
    covered or the rounds run out. */
module Testing {
  import opened Common
  import opened DataLoading
  import opened Tuning

  /** The dictionaries of `initDict`, the two outer dictionaries with fixed
      keys flattened into one component per key. */
  datatype Coverage = Coverage(
    found: map<Category, seq<Image>>,            // d_test['found']
    fail: map<Category, seq<Image>>,             // d_test['fail']
    foundLabel: map<Category, seq<Category>>,    // d_label['found']
    failSupposed: map<Category, seq<Category>>,  // d_label['f_sup']
    failExpected: map<Category, seq<Category>>,  // d_label['f_expec']
    foundCheck: seq<bool>,                       // d_check['found']
    failCheck: seq<bool>,                        // d_check['fail']
    index: map<Category, nat>)                   // d_cat_index

  /** `{cat: [] for cat in cats}`. */
  function EmptyLists<T>(cats: seq<Category>): (r: map<Category, seq<T>>)
    ensures forall c :: c in r <==> c in cats
    ensures forall c :: c in r ==> r[c] == []
  {
    map c | c in cats :: []
  }

  /** `[False for cat in cats]`. */
  function Unchecked(cats: seq<Category>): (r: seq<bool>)
    ensures |r| == |cats| && forall p :: 0 <= p < |r| ==> !r[p]
  {
    seq(|cats|, _ => false)
  }

  /** `{cats[i]: i for i in range(len(cats))}`. */
  function IndexMap(cats: seq<Category>): (r: map<Category, nat>)
    requires NoDup(cats)
    ensures forall c :: c in r <==> c in cats
    ensures forall p :: 0 <= p < |cats| ==> cats[p] in r && r[cats[p]] == p
  {
    var r := map i | 0 <= i < |cats| :: cats[i] := i;
    assert forall p :: 0 <= p < |cats| ==> cats[p] in r;
    r
  }

  /** `initDict` over the category list. */
  function Initial(cats: seq<Category>): (r: Coverage)
    requires NoDup(cats)
    ensures forall c :: c in r.index <==> c in cats
    ensures |r.foundCheck| == |r.failCheck| == |cats|
  {
    Coverage(EmptyLists(cats), EmptyLists(cats), EmptyLists(cats), EmptyLists(cats), EmptyLists(cats),
             Unchecked(cats), Unchecked(cats), IndexMap(cats))
  }

  /** Every key of `d_cat_index` is a key of every dictionary, and every index is a
      position of both coverage arrays: the lookups of one update cannot
      fail once the category is known. */
  predicate Shaped(s: Coverage)
  {
    |s.foundCheck| == |s.failCheck|
    && forall c :: c in s.index ==>
         c in s.found && c in s.fail && c in s.foundLabel && c in s.failSupposed && c in s.failExpected
         && s.index[c] < |s.foundCheck|
  }

  /** The `fail` branch: record a wrong prediction, setting the flag when the
      list already held an entry. */
  function AddFail(s: Coverage, img: Image, supposed: Category, cat: Category): (r: Coverage)
    requires Shaped(s) && cat in s.index
    ensures Shaped(r) && r.index == s.index
    ensures r.found == s.found && r.foundLabel == s.foundLabel && r.foundCheck == s.foundCheck
    ensures |r.fail[cat]| == |s.fail[cat]| + 1 && r.fail[cat][|s.fail[cat]|] == img
    ensures r.failCheck[s.index[cat]] <==> s.failCheck[s.index[cat]] || |s.fail[cat]| > 0
  {
    var i := s.index[cat];
    s.(failCheck := if |s.fail[cat]| > 0 then s.failCheck[i := true] else s.failCheck,
       fail := s.fail[cat := s.fail[cat] + [img]],
       failExpected := s.failExpected[cat := s.failExpected[cat] + [cat]],
       failSupposed := s.failSupposed[cat := s.failSupposed[cat] + [supposed]])
  }

  /** The `found` branch: record the sample under its own category. */
  function AddFound(s: Coverage, img: Image, cat: Category): (r: Coverage)
    requires Shaped(s) && cat in s.index
    ensures Shaped(r) && r.index == s.index
    ensures r.fail == s.fail && r.failSupposed == s.failSupposed && r.failExpected == s.failExpected
    ensures r.failCheck == s.failCheck
    ensures |r.found[cat]| == |s.found[cat]| + 1 && r.found[cat][|s.found[cat]|] == img
    ensures r.foundCheck[s.index[cat]] <==> s.foundCheck[s.index[cat]] || |s.found[cat]| > 0
  {
    var i := s.index[cat];
    s.(foundCheck := if |s.found[cat]| > 0 then s.foundCheck[i := true] else s.foundCheck,
       found := s.found[cat := s.found[cat] + [img]],
       foundLabel := s.foundLabel[cat := s.foundLabel[cat] + [cat]])
  }

  /** `verifySupposedCategorie(img, supposed, cat)`; None is the KeyError of
      a category that `initDict` did not see. */
  function Step(s: Coverage, img: Image, supposed: Category, cat: Category): (r: Option<Coverage>)
    requires Shaped(s)
    ensures r.Some? <==> cat in s.index
    ensures r.Some? ==> Shaped(r.value) && r.value.index == s.index
  {
    if cat !in s.index then None
    else if supposed != cat && !s.failCheck[s.index[cat]] then Some(AddFail(s, img, supposed, cat))
    else if !s.foundCheck[s.index[cat]] then Some(AddFound(s, img, cat))
    else Some(s)
  }

  /** What one category's entries satisfy: at most two exemplars of each
      kind, the label lists aligned with them, a coverage flag set exactly
      when its list holds two entries, and only `c` as expected label. */
  predicate Sane(s: Coverage, c: Category)
    requires Shaped(s) && c in s.index
  {
    var i := s.index[c];
    |s.fail[c]| <= 2 && |s.failExpected[c]| == |s.fail[c]| && |s.failSupposed[c]| == |s.fail[c]|
    && |s.found[c]| <= 2 && |s.foundLabel[c]| == |s.found[c]|
    && (s.failCheck[i] <==> |s.fail[c]| == 2)
    && (s.foundCheck[i] <==> |s.found[c]| == 2)
    && (forall k :: 0 <= k < |s.failExpected[c]| ==> s.failExpected[c][k] == c)
    && (forall k :: 0 <= k < |s.foundLabel[c]| ==> s.foundLabel[c][k] == c)
  }

  /** The invariant of the exemplar dictionaries over the category list. */
  ghost predicate Inv(s: Coverage, cats: seq<Category>)
  {
    Shaped(s) && |s.foundCheck| == |cats|
    && (forall c :: c in s.index <==> c in cats)
    && (forall p :: 0 <= p < |cats| ==> cats[p] in s.index && s.index[cats[p]] == p)
    && (forall c :: c in s.index ==> Sane(s, c))
  }

  /** `np.array(d_check['found']).all() and np.array(d_check['fail']).all()`. */
  predicate Covered(s: Coverage)
  {
    (forall p :: 0 <= p < |s.foundCheck| ==> s.foundCheck[p])
    && (forall p :: 0 <= p < |s.failCheck| ==> s.failCheck[p])
  }

  lemma InitialInv(cats: seq<Category>)
    requires NoDup(cats)
    ensures Inv(Initial(cats), cats)
    ensures forall c :: c in cats ==> Initial(cats).found[c] == [] && Initial(cats).fail[c] == []
    ensures Covered(Initial(cats)) <==> cats == []
  {
    var s := Initial(cats);
    assert Shaped(s) by {
      forall c | c in s.index
        ensures s.index[c] < |s.foundCheck|
      {
        var p :| 0 <= p < |cats| && cats[p] == c;
      }
    }
    forall c | c in s.index
      ensures Sane(s, c)
    {
      var p :| 0 <= p < |cats| && cats[p] == c;
      assert !s.failCheck[p] && !s.foundCheck[p];
    }
    if cats != [] {
      assert !s.foundCheck[0];
    }
  }

  lemma AddFailKeepsInv(s: Coverage, cats: seq<Category>, img: Image, supposed: Category, cat: Category)
    requires Inv(s, cats) && cat in s.index && !s.failCheck[s.index[cat]]
    ensures Inv(AddFail(s, img, supposed, cat), cats)
  {
    var r := AddFail(s, img, supposed, cat);
    assert Sane(s, cat);
    forall c | c in r.index
      ensures Sane(r, c)
    {
      assert Sane(s, c);
      assert c != cat ==> s.index[c] != s.index[cat];
    }
  }

  lemma AddFoundKeepsInv(s: Coverage, cats: seq<Category>, img: Image, cat: Category)
    requires Inv(s, cats) && cat in s.index && !s.foundCheck[s.index[cat]]
    ensures Inv(AddFound(s, img, cat), cats)
  {
    var r := AddFound(s, img, cat);
    assert Sane(s, cat);
    forall c | c in r.index
      ensures Sane(r, c)
    {
      assert Sane(s, c);
      assert c != cat ==> s.index[c] != s.index[cat];
    }
  }

  /** Every update keeps the invariant. */
  lemma StepKeepsInv(s: Coverage, cats: seq<Category>, img: Image, supposed: Category, cat: Category)
    requires Inv(s, cats) && cat in cats
    ensures Step(s, img, supposed, cat).Some?
    ensures Inv(Step(s, img, supposed, cat).value, cats)
  {
    var i := s.index[cat];
    if supposed != cat && !s.failCheck[i] {
      AddFailKeepsInv(s, cats, img, supposed, cat);
    } else if !s.foundCheck[i] {
      AddFoundKeepsInv(s, cats, img, cat);
    }
  }

  /** Whatever the category, an update keeps the invariant: a known one by
      `StepKeepsInv`, an unknown one raises before anything changes. */
  lemma StepPreservesInv(s: Coverage, cats: seq<Category>, img: Image, supposed: Category, cat: Category)
    requires Inv(s, cats)
    ensures Step(s, img, supposed, cat).Some? ==> Inv(Step(s, img, supposed, cat).value, cats)
  {
    if cat in s.index {
      StepKeepsInv(s, cats, img, supposed, cat);
    }
  }

  /** Where one prediction for category `cat` goes, stated on list lengths:
      a wrong one lands in `fail` while that holds fewer than two entries;
      otherwise it falls through to `found`, as a right one does, while
      `found` holds fewer than two; anything else changes nothing. */
  lemma StepRouting(s: Coverage, cats: seq<Category>, img: Image, supposed: Category, cat: Category)
    requires Inv(s, cats) && cat in cats
    ensures var r := Step(s, img, supposed, cat).value;
            if supposed != cat && |s.fail[cat]| < 2 then
              r.fail == s.fail[cat := s.fail[cat] + [img]]
              && r.failSupposed == s.failSupposed[cat := s.failSupposed[cat] + [supposed]]
              && r.failExpected == s.failExpected[cat := s.failExpected[cat] + [cat]]
              && r.found == s.found && r.foundLabel == s.foundLabel
            else if |s.found[cat]| < 2 then
              r.found == s.found[cat := s.found[cat] + [img]]
              && r.foundLabel == s.foundLabel[cat := s.foundLabel[cat] + [cat]]
              && r.fail == s.fail && r.failSupposed == s.failSupposed && r.failExpected == s.failExpected
            else
              r == s
  {
    assert Sane(s, cat);
  }

  /** An update touches the entries of its own category only, and a
      coverage flag once set stays set. */
  lemma StepFrame(s: Coverage, img: Image, supposed: Category, cat: Category)
    requires Shaped(s) && cat in s.index
    ensures var r := Step(s, img, supposed, cat).value;
            (forall c :: c in s.index && c != cat ==>
               r.found[c] == s.found[c] && r.fail[c] == s.fail[c] && r.foundLabel[c] == s.foundLabel[c]
               && r.failSupposed[c] == s.failSupposed[c] && r.failExpected[c] == s.failExpected[c])
            && (forall p :: 0 <= p < |s.foundCheck| && p != s.index[cat] ==>
                  r.foundCheck[p] == s.foundCheck[p] && r.failCheck[p] == s.failCheck[p])
            && (forall p :: 0 <= p < |s.foundCheck| ==>
                  (s.foundCheck[p] ==> r.foundCheck[p]) && (s.failCheck[p] ==> r.failCheck[p]))
  {
  }

  /** Under the invariant, the early exit of `startTest` fires exactly when
      every category holds two exemplars of each kind. */
  lemma CoveredMeans(s: Coverage, cats: seq<Category>)
    requires Inv(s, cats)
    ensures Covered(s) <==> forall c :: c in cats ==> |s.found[c]| == 2 && |s.fail[c]| == 2
  {
    if Covered(s) {
      forall c | c in cats
        ensures |s.found[c]| == 2 && |s.fail[c]| == 2
      {
        assert Sane(s, c);
      }
    } else {
      var p :| 0 <= p < |cats| && !(s.foundCheck[p] && s.failCheck[p]);
      assert Sane(s, cats[p]);
    }
  }

  /** The fall-through as a trace: starting from a category with no
      exemplars yet, three wrong predictions file the first two images as
      failures, which covers `fail`, and the third as a found exemplar
      labelled with its own category. */
  lemma FallThroughTrace(s0: Coverage, cats: seq<Category>, cat: Category, supposed: Category,
                         i1: Image, i2: Image, i3: Image)
    requires Inv(s0, cats) && cat in cats && supposed != cat
    requires s0.fail[cat] == [] && s0.found[cat] == []
    ensures var s1 := Step(s0, i1, supposed, cat).value;
            var s2 := Step(s1, i2, supposed, cat).value;
            var s3 := Step(s2, i3, supposed, cat).value;
            s2.fail[cat] == [i1, i2] && s2.failCheck[s0.index[cat]] && !s2.foundCheck[s0.index[cat]]
            && s3.fail[cat] == [i1, i2] && s3.found[cat] == [i3] && s3.foundLabel[cat] == [cat]
  {
    StepKeepsInv(s0, cats, i1, supposed, cat);
    StepRouting(s0, cats, i1, supposed, cat);
    var s1 := Step(s0, i1, supposed, cat).value;
    StepKeepsInv(s1, cats, i2, supposed, cat);
    StepRouting(s1, cats, i2, supposed, cat);
    var s2 := Step(s1, i2, supposed, cat).value;
    StepRouting(s2, cats, i3, supposed, cat);
    assert Sane(s0, cat) && Sane(s2, cat);
  }

  /** A sample as `DataLoader.__getitem__` returns it. */
  type Sample = (Image, Feature, Category)

  /** `mlp.predict(lda.transform(f))[0]` for one `(mlp, lda)` entry. */
  function Predict(entry: (Mlp, Projector), f: Feature): Category
  {
    entry.0.predict(entry.1(f))
  }

  /** All drawn positions address a sample. */
  predicate InRange(draw: seq<nat>, n: nat)
  {
    forall k :: 0 <= k < |draw| ==> draw[k] < n
  }

  lemma InRangePrefix(draw: seq<nat>, n: nat, m: nat)
    requires InRange(draw, n) && m <= |draw|
    ensures InRange(draw[..m], n)
  {
    assert forall k :: 0 <= k < m ==> draw[..m][k] == draw[k];
  }

  lemma InRangeSnoc(draws: seq<seq<nat>>, draw: seq<nat>, n: nat)
    requires forall h :: 0 <= h < |draws| ==> InRange(draws[h], n)
    requires InRange(draw, n)
    ensures forall h :: 0 <= h < |draws + [draw]| ==> InRange((draws + [draw])[h], n)
  {
    forall h | 0 <= h < |draws + [draw]|
      ensures InRange((draws + [draw])[h], n)
    {
      if h < |draws| { assert (draws + [draw])[h] == draws[h]; }
    }
  }

  /** One round of `startTest`: the updates for the samples at the drawn
      positions, in order, with one classifier; None if one of them raises. */
  function Round(s: Coverage, samples: seq<Sample>, entry: (Mlp, Projector), draw: seq<nat>): (r: Option<Coverage>)
    requires Shaped(s) && InRange(draw, |samples|)
    ensures r.Some? ==> Shaped(r.value) && r.value.index == s.index
    decreases |draw|
  {
    if draw == [] then Some(s)
    else
      match Round(s, samples, entry, draw[..|draw| - 1])
      case None => None
      case Some(t) =>
        var (img, f, cat) := samples[draw[|draw| - 1]];
        Step(t, img, Predict(entry, f), cat)
  }

  /** Round `h` of `startTest` after the state (or exception) `t`: skipped
      once every flag is set, IndexError without an `h`-th classifier. */
  function NextRound(t: Option<Coverage>, samples: seq<Sample>, mlps: seq<(Mlp, Projector)>,
                     h: nat, draw: seq<nat>): (r: Option<Coverage>)
    requires t.Some? ==> Shaped(t.value)
    requires InRange(draw, |samples|)
    ensures r.Some? ==> t.Some? && Shaped(r.value) && r.value.index == t.value.index
  {
    match t
    case None => None
    case Some(t) =>
      if Covered(t) then Some(t)
      else if h >= |mlps| then None
      else Round(t, samples, mlps[h], draw)
  }

  /** The rounds of `startTest` for the draws of each round. */
  function Rounds(s: Coverage, samples: seq<Sample>, mlps: seq<(Mlp, Projector)>, draws: seq<seq<nat>>): (r: Option<Coverage>)
    requires Shaped(s) && forall h :: 0 <= h < |draws| ==> InRange(draws[h], |samples|)
    ensures r.Some? ==> Shaped(r.value) && r.value.index == s.index
    decreases |draws|
  {
    if draws == [] then Some(s)
    else
      var h := |draws| - 1;
      NextRound(Rounds(s, samples, mlps, draws[..h]), samples, mlps, h, draws[h])
  }

  /** The dictionaries as they stand when the last of the rounds `draws`
      raises: after the earlier rounds, and either before any update of the
      last round (no classifier left) or after every update of it but the
      raising one. */
  function Interrupted(s: Coverage, samples: seq<Sample>, mlps: seq<(Mlp, Projector)>,
                       draws: seq<seq<nat>>): (r: Option<Coverage>)
    requires Shaped(s) && forall h :: 0 <= h < |draws| ==> InRange(draws[h], |samples|)
    requires draws != []
    ensures r.Some? ==> Shaped(r.value) && r.value.index == s.index
  {
    var h := |draws| - 1;
    match Rounds(s, samples, mlps, draws[..h])
    case None => None
    case Some(t) => RoundUntilRaise(t, samples, mlps, h, draws[h])
  }

  /** Round `h`, raising after `t`: before any update without an `h`-th
      classifier, else after every update of `draw` but the last. */
  function RoundUntilRaise(t: Coverage, samples: seq<Sample>, mlps: seq<(Mlp, Projector)>,
                           h: nat, draw: seq<nat>): (r: Option<Coverage>)
    requires Shaped(t) && InRange(draw, |samples|)
    ensures r.Some? ==> Shaped(r.value) && r.value.index == t.index
    ensures h >= |mlps| || draw == [] ==> r == Some(t)
  {
    if h >= |mlps| || draw == [] then Some(t)
    else
      var d := draw[..|draw| - 1];
      InRangePrefix(draw, |samples|, |d|);
      Round(t, samples, mlps[h], d)
  }

  /** The rounds `draws` followed by one that raises: the earlier rounds,
      then the raising one up to where it raises. */
  lemma InterruptedSnoc(s: Coverage, samples: seq<Sample>, mlps: seq<(Mlp, Projector)>,
                        draws: seq<seq<nat>>, draw: seq<nat>, t: Coverage)
    requires Shaped(s) && forall h :: 0 <= h < |draws| ==> InRange(draws[h], |samples|)
    requires InRange(draw, |samples|) && Rounds(s, samples, mlps, draws) == Some(t)
    ensures forall h :: 0 <= h < |draws + [draw]| ==> InRange((draws + [draw])[h], |samples|)
    ensures Interrupted(s, samples, mlps, draws + [draw]) == RoundUntilRaise(t, samples, mlps, |draws|, draw)
  {
    InRangeSnoc(draws, draw, |samples|);
    var all := draws + [draw];
    assert all[..|draws|] == draws && all[|draws|] == draw;
  }

  /** Rounds that raise for want of an `h`-th classifier stop where the
      earlier rounds left the dictionaries. */
  lemma InterruptedWithoutClassifier(s: Coverage, samples: seq<Sample>, mlps: seq<(Mlp, Projector)>,
                                     draws: seq<seq<nat>>, t: Coverage)
    requires Shaped(s) && forall h :: 0 <= h < |draws| ==> InRange(draws[h], |samples|)
    requires Rounds(s, samples, mlps, draws) == Some(t) && |draws| >= |mlps|
    ensures Interrupted(s, samples, mlps, draws + [[]]) == Some(t)
  {
    InterruptedSnoc(s, samples, mlps, draws, [], t);
  }

  /** Rounds whose last round raises stop after that round's earlier updates. */
  lemma InterruptedInRound(s: Coverage, samples: seq<Sample>, mlps: seq<(Mlp, Projector)>,
                           draws: seq<seq<nat>>, draw: seq<nat>, t: Coverage, u: Coverage)
    requires Shaped(s) && forall h :: 0 <= h < |draws| ==> InRange(draws[h], |samples|)
    requires InRange(draw, |samples|) && draw != []
    requires Rounds(s, samples, mlps, draws) == Some(t) && |draws| < |mlps|
    requires Round(t, samples, mlps[|draws|], draw[..|draw| - 1]) == Some(u)
    ensures Interrupted(s, samples, mlps, draws + [draw]) == Some(u)
  {
    InterruptedSnoc(s, samples, mlps, draws, draw, t);
  }

  /** A round over samples of known categories never raises and keeps the
      invariant. */
  lemma {:induction false} RoundKeepsInv(s: Coverage, cats: seq<Category>, samples: seq<Sample>,
                                         entry: (Mlp, Projector), draw: seq<nat>)
    requires Inv(s, cats) && InRange(draw, |samples|)
    requires forall k :: 0 <= k < |samples| ==> samples[k].2 in cats
    ensures Round(s, samples, entry, draw).Some?
    ensures Inv(Round(s, samples, entry, draw).value, cats)
    decreases |draw|
  {
    if draw != [] {
      var front := draw[..|draw| - 1];
      RoundKeepsInv(s, cats, samples, entry, front);
      var t := Round(s, samples, entry, front).value;
      var (img, f, cat) := samples[draw[|draw| - 1]];
      StepKeepsInv(t, cats, img, Predict(entry, f), cat);
    }
  }

  /** Rounds over samples of known categories raise only for want of a
      classifier, and keep the invariant. */
  lemma {:induction false} RoundsKeepInv(s: Coverage, cats: seq<Category>, samples: seq<Sample>,
                                         mlps: seq<(Mlp, Projector)>, draws: seq<seq<nat>>)
    requires Inv(s, cats) && forall h :: 0 <= h < |draws| ==> InRange(draws[h], |samples|)
    requires forall k :: 0 <= k < |samples| ==> samples[k].2 in cats
    requires |draws| <= |mlps|
    ensures Rounds(s, samples, mlps, draws).Some?
    ensures Inv(Rounds(s, samples, mlps, draws).value, cats)
    decreases |draws|
  {
    if draws != [] {
      var h := |draws| - 1;
      RoundsKeepInv(s, cats, samples, mlps, draws[..h]);
      var t := Rounds(s, samples, mlps, draws[..h]).value;
      if !Covered(t) {
        RoundKeepsInv(t, cats, samples, mlps[h], draws[h]);
      }
      assert Rounds(s, samples, mlps, draws) == NextRound(Some(t), samples, mlps, h, draws[h]);
    }
  }

  /** A round keeps the invariant up to wherever it stops. */
  lemma {:induction false} RoundPreservesInv(s: Coverage, cats: seq<Category>, samples: seq<Sample>,
                                             entry: (Mlp, Projector), draw: seq<nat>)
    requires Inv(s, cats) && InRange(draw, |samples|)
    ensures Round(s, samples, entry, draw).Some? ==> Inv(Round(s, samples, entry, draw).value, cats)
    decreases |draw|
  {
    if draw != [] {
      var front := draw[..|draw| - 1];
      RoundPreservesInv(s, cats, samples, entry, front);
      match Round(s, samples, entry, front)
      case None =>
      case Some(t) =>
        var (img, f, cat) := samples[draw[|draw| - 1]];
        StepPreservesInv(t, cats, img, Predict(entry, f), cat);
    }
  }

  /** The rounds keep the invariant up to wherever they stop. */
  lemma {:induction false} RoundsPreserveInv(s: Coverage, cats: seq<Category>, samples: seq<Sample>,
                                             mlps: seq<(Mlp, Projector)>, draws: seq<seq<nat>>)
    requires Inv(s, cats) && forall h :: 0 <= h < |draws| ==> InRange(draws[h], |samples|)
    ensures Rounds(s, samples, mlps, draws).Some? ==> Inv(Rounds(s, samples, mlps, draws).value, cats)
    decreases |draws|
  {
    if draws != [] {
      var h := |draws| - 1;
      RoundsPreserveInv(s, cats, samples, mlps, draws[..h]);
      match Rounds(s, samples, mlps, draws[..h])
      case None =>
      case Some(t) =>
        if !Covered(t) && h < |mlps| {
          RoundPreservesInv(t, cats, samples, mlps[h], draws[h]);
        }
    }
  }

  lemma RoundSnoc(s: Coverage, samples: seq<Sample>, entry: (Mlp, Projector), draw: seq<nat>, k: nat,
                  before: Coverage, img: Image, f: Feature, cat: Category)
    requires Shaped(s) && InRange(draw, |samples|) && k < |samples| && samples[k] == (img, f, cat)
    requires Round(s, samples, entry, draw) == Some(before)
    ensures InRange(draw + [k], |samples|)
    ensures Round(s, samples, entry, draw + [k]) == Step(before, img, Predict(entry, f), cat)
  {
    assert (draw + [k])[..|draw|] == draw;
  }

  lemma RoundsSnoc(s: Coverage, samples: seq<Sample>, mlps: seq<(Mlp, Projector)>,
                   draws: seq<seq<nat>>, draw: seq<nat>)
    requires Shaped(s) && forall h :: 0 <= h < |draws| ==> InRange(draws[h], |samples|)
    requires InRange(draw, |samples|)
    ensures Rounds(s, samples, mlps, draws + [draw])
            == NextRound(Rounds(s, samples, mlps, draws), samples, mlps, |draws|, draw)
  {
    assert (draws + [draw])[..|draws|] == draws;
  }

  class GenerateTest {
    const dl: DataLoader
    const hpt: HyperparameterTuning
    const categories: seq<Category>
    var dTestFound: map<Category, seq<Image>>
    var dTestFail: map<Category, seq<Image>>
    var dLabelFound: map<Category, seq<Category>>
    var dLabelSup: map<Category, seq<Category>>
    var dLabelExpec: map<Category, seq<Category>>
    var dCheckFound: seq<bool>
    var dCheckFail: seq<bool>
    var dCatIndex: map<Category, nat>

    /** The dictionaries as one value. */
    function State(): Coverage
      reads this
    {
      Coverage(dTestFound, dTestFail, dLabelFound, dLabelSup, dLabelExpec, dCheckFound, dCheckFail, dCatIndex)
    }

    ghost predicate Valid()
      reads this, dl, hpt
    {
      dl.Valid() && hpt.Valid() && NoDup(categories) && Inv(State(), categories)
    }

    constructor (dl: DataLoader, hpt: HyperparameterTuning, categories: seq<Category>)
      requires dl.Valid() && hpt.Valid() && NoDup(categories)
      ensures Valid() && State() == Initial(categories)
      ensures this.dl == dl && this.hpt == hpt && this.categories == categories
    {
      this.dl := dl;
      this.hpt := hpt;
      this.categories := categories;
      dTestFound, dTestFail := EmptyLists(categories), EmptyLists(categories);
      dLabelFound, dLabelSup, dLabelExpec := EmptyLists(categories), EmptyLists(categories), EmptyLists(categories);
      dCheckFound, dCheckFail := Unchecked(categories), Unchecked(categories);
      dCatIndex := IndexMap(categories);
      new;
      InitialInv(categories);
    }

    /** `initDict`: every list empty, every flag false. */
    method InitDict()
      requires NoDup(categories)
      modifies this`dTestFound, this`dTestFail, this`dLabelFound, this`dLabelSup, this`dLabelExpec,
               this`dCheckFound, this`dCheckFail, this`dCatIndex
      ensures State() == Initial(categories)
    {
      dTestFound, dTestFail := EmptyLists(categories), EmptyLists(categories);
      dLabelFound, dLabelSup, dLabelExpec := EmptyLists(categories), EmptyLists(categories), EmptyLists(categories);
      dCheckFound, dCheckFail := Unchecked(categories), Unchecked(categories);
      dCatIndex := IndexMap(categories);
    }

    /** `verifySupposedCategorie`; `ok` is false for the KeyError of an
        unknown category, which fires before anything changes. */
    method VerifySupposedCategorie(img: Image, supposed: Category, cat: Category) returns (ok: bool)
      requires Shaped(State())
      modifies this`dTestFound, this`dTestFail, this`dLabelFound, this`dLabelSup, this`dLabelExpec,
               this`dCheckFound, this`dCheckFail
      ensures ok == Step(old(State()), img, supposed, cat).Some?
      ensures State() == if ok then Step(old(State()), img, supposed, cat).value else old(State())
    {
      if cat !in dCatIndex {
        return false;
      }
      ghost var s := State();
      var i := dCatIndex[cat];
      var res := supposed == cat;
      if !res && !dCheckFail[i] {
        if |dTestFail[cat]| > 0 {
          dCheckFail := dCheckFail[i := true];
        }
        dTestFail := dTestFail[cat := dTestFail[cat] + [img]];
        dLabelExpec := dLabelExpec[cat := dLabelExpec[cat] + [cat]];
        dLabelSup := dLabelSup[cat := dLabelSup[cat] + [supposed]];
        assert State() == AddFail(s, img, supposed, cat);
      } else if !dCheckFound[i] {
        if |dTestFound[cat]| > 0 {
          dCheckFound := dCheckFound[i := true];
        }
        dTestFound := dTestFound[cat := dTestFound[cat] + [img]];
        dLabelFound := dLabelFound[cat := dLabelFound[cat] + [cat]];
        assert State() == AddFound(s, img, cat);
      }
      ok := true;
    }

    /** The covered test of `startTest`. */
    function AllChecked(): (r: bool)
      reads this
      ensures r == Covered(State())
    {
      (forall p :: 0 <= p < |dCheckFound| ==> dCheckFound[p])
      && (forall p :: 0 <= p < |dCheckFail| ==> dCheckFail[p])
    }

    /** The inner loop of `startTest`: `len_dl` draws with
        `random.randint(0, len_dl - 1)`, each sample classified by `entry`
        and handed to `verifySupposedCategorie`. */
    method TestRound(entry: (Mlp, Projector), ghost samples: seq<Sample>) returns (ok: bool, ghost draw: seq<nat>)
      requires dl.Valid() && samples == dl.Samples() && Inv(State(), categories)
      modifies this`dTestFound, this`dTestFail, this`dLabelFound, this`dLabelSup, this`dLabelExpec,
               this`dCheckFound, this`dCheckFail
      ensures Inv(State(), categories)
      ensures InRange(draw, |samples|) && |draw| <= |samples|
      ensures ok ==> |draw| == |samples|
      ensures ok == Round(old(State()), samples, entry, draw).Some?
      ensures ok ==> State() == Round(old(State()), samples, entry, draw).value
      ensures !ok ==> |draw| > 0 && Round(old(State()), samples, entry, draw[..|draw| - 1]) == Some(State())
    {
      ghost var s0 := State();
      var lenDl := |dl.dCatIndex[dl.sec]|;
      draw := [];
      var i := 0;
      while i < lenDl
        invariant 0 <= i <= lenDl == |samples| && |draw| == i && InRange(draw, |samples|)
        invariant Round(s0, samples, entry, draw) == Some(State())
      {
        var r :| 0 <= r <= lenDl - 1;
        assert dl.Get(r) == Some(samples[r]);
        var (img, f, cat) := dl.Get(r).value;
        var supposed := Predict(entry, f);
        RoundSnoc(s0, samples, entry, draw, r, State(), img, f, cat);
        var stepped := VerifySupposedCategorie(img, supposed, cat);
        if !stepped {
          RoundPreservesInv(s0, categories, samples, entry, draw);
          assert (draw + [r])[..|draw|] == draw;
          return false, draw + [r];
        }
        draw := draw + [r];
        i := i + 1;
      }
      RoundPreservesInv(s0, categories, samples, entry, draw);
      ok := true;
    }

    /** The rounds of `startTest` with the classifiers `lMlp`: at most
        `limit` of them, stopping before a round once every flag is set. */
    method PlayRounds(lMlp: seq<(Mlp, Projector)>, limit: nat, ghost samples: seq<Sample>)
      returns (ok: bool, ghost draws: seq<seq<nat>>)
      requires dl.Valid() && samples == dl.Samples() && Inv(State(), categories)
      modifies this`dTestFound, this`dTestFail, this`dLabelFound, this`dLabelSup, this`dLabelExpec,
               this`dCheckFound, this`dCheckFail
      ensures Inv(State(), categories)
      ensures |draws| <= limit
      ensures forall h :: 0 <= h < |draws| ==> InRange(draws[h], |samples|) && |draws[h]| <= |samples|
      ensures ok ==> forall h :: 0 <= h < |draws| ==> |draws[h]| == |samples|
      ensures ok == Rounds(old(State()), samples, lMlp, draws).Some?
      ensures ok ==> State() == Rounds(old(State()), samples, lMlp, draws).value
      ensures ok ==> |draws| == limit || Covered(State())
      ensures !ok ==> |draws| > 0 && Interrupted(old(State()), samples, lMlp, draws) == Some(State())
    {
      ghost var s0 := State();
      draws := [];
      var h := 0;
      while h < limit
        invariant 0 <= h <= limit && |draws| == h
        invariant forall k :: 0 <= k < |draws| ==> InRange(draws[k], |samples|) && |draws[k]| == |samples|
        invariant Rounds(s0, samples, lMlp, draws) == Some(State())
      {
        if AllChecked() {
          break;
        }
        RoundsSnoc(s0, samples, lMlp, draws, []);
        RoundsPreserveInv(s0, categories, samples, lMlp, draws);
        if h >= |lMlp| {
          InterruptedWithoutClassifier(s0, samples, lMlp, draws, State());
          draws := draws + [[]];
          return false, draws;
        }
        ghost var before := State();
        var played, draw := TestRound(lMlp[h], samples);
        RoundsSnoc(s0, samples, lMlp, draws, draw);
        if !played {
          InterruptedInRound(s0, samples, lMlp, draws, draw, before, State());
          draws := draws + [draw];
          return false, draws;
        }
        draws := draws + [draw];
        h := h + 1;
      }
      RoundsPreserveInv(s0, categories, samples, lMlp, draws);
      ok := true;
    }

    /** `startTest(select)` up to the rendering of the exemplars: select the
        validation section, take `getMLPList()[select:]`, and run at most
        `max_layer // min_layer` rounds, round `h` with its `h`-th entry,
        stopping before a round once every flag is set. The ghost `draws`
        holds the positions drawn in each round. */
    method StartTest(select: int) returns (ok: bool, ghost draws: seq<seq<nat>>)
      requires Valid()
      modifies this`dTestFound, this`dTestFail, this`dLabelFound, this`dLabelSup, this`dLabelExpec,
               this`dCheckFound, this`dCheckFail, dl`sec
      ensures Valid() && dl.sec == ValidSection
      ensures |draws| <= hpt.maxLayer / hpt.minLayer
      ensures forall h :: 0 <= h < |draws| ==> InRange(draws[h], |dl.Samples()|) && |draws[h]| <= |dl.Samples()|
      ensures ok ==> forall h :: 0 <= h < |draws| ==> |draws[h]| == |dl.Samples()|
      ensures ok == Rounds(old(State()), dl.Samples(), PySliceFrom(hpt.lMlp, select), draws).Some?
      ensures ok ==> State() == Rounds(old(State()), dl.Samples(), PySliceFrom(hpt.lMlp, select), draws).value
      ensures ok ==> |draws| == hpt.maxLayer / hpt.minLayer || Covered(State())
      ensures !ok ==> |draws| > 0 && Interrupted(old(State()), dl.Samples(), PySliceFrom(hpt.lMlp, select), draws) == Some(State())
    {
      dl.SetSection(ValidSection);
      var lMlp := PySliceFrom(hpt.lMlp, select);
      var limit := hpt.maxLayer / hpt.minLayer;
      ok, draws := PlayRounds(lMlp, limit, dl.Samples());
    }
  }
}
