/** The indexed sample store. Each of the two sections, "train" and
    "valid", holds three position-aligned lists: images, their feature
    vectors and (category, position-in-category) pairs. */
module DataLoading {
  import opened Common
  import opened MatrixLoading

  /** The keys of the two sections. */
  const TrainSection: string := "train"
  const ValidSection: string := "valid"

  lemma SectionsDiffer()
    ensures TrainSection != ValidSection
  {
    assert TrainSection[0] != ValidSection[0];
  }

  /** `setSection`: "train" selects the training section, any other name
      the validation section. */
  function SectionOf(name: string): (s: string)
    ensures s == TrainSection || s == ValidSection
    ensures s == TrainSection <==> name == TrainSection
  {
    if name == TrainSection then TrainSection else ValidSection
  }

  /** `dataimg[cat][section + "_img"]`. */
  function SectionImages(d: CategorySplit, section: string): seq<Image>
  {
    if section == TrainSection then d.trainImg else d.validImg
  }

  /** The (category, position) pairs `loadSectionFeaturesFromCategory`
      appends for `m` images of `cat`. */
  function Indexed(cat: Category, m: nat): (r: seq<(Category, nat)>)
    ensures |r| == m
    ensures forall i :: 0 <= i < m ==> r[i] == (cat, i)
  {
    seq(m, i requires 0 <= i < m => (cat, i))
  }

  /** The category component of every index pair. */
  function Labels(idx: seq<(Category, nat)>): (r: seq<Category>)
    ensures |r| == |idx|
    ensures forall i :: 0 <= i < |idx| ==> r[i] == idx[i].0
  {
    MapSeq((p: (Category, nat)) => p.0, idx)
  }

  /** The positions of `labels` whose category is among `cats`, in
      increasing order. */
  function Kept(labels: seq<Category>, cats: seq<Category>): (ps: seq<nat>)
    ensures |ps| <= |labels|
    ensures forall j :: 0 <= j < |ps| ==> ps[j] < |labels| && labels[ps[j]] in cats
    ensures forall p :: 0 <= p < |labels| && labels[p] in cats ==> p in ps
    decreases |labels|
  {
    if labels == [] then []
    else
      var n := |labels| - 1;
      Kept(labels[..n], cats) + (if labels[n] in cats then [n] else [])
  }

  /** The kept positions are strictly increasing, so `convergeFeatures`
      keeps the stored order. */
  lemma {:induction false} KeptIncreasing(labels: seq<Category>, cats: seq<Category>, j: nat, k: nat)
    requires j < k < |Kept(labels, cats)|
    ensures Kept(labels, cats)[j] < Kept(labels, cats)[k]
    decreases |labels|
  {
    var n := |labels| - 1;
    var qs := Kept(labels[..n], cats);
    if k < |qs| {
      KeptIncreasing(labels[..n], cats, j, k);
    }
  }

  /** One stacked batch: feature rows and the label of each row. */
  datatype Batch = Batch(features: seq<Feature>, labels: seq<Category>)

  /** What `convergeFeatures` returns for a section with the given features
      and labels; None when nothing matches, where stacking the empty list
      raises. */
  function Filter(feats: seq<Feature>, labels: seq<Category>, cats: seq<Category>): (r: Option<Batch>)
    requires |feats| == |labels|
    ensures r.None? <==> forall p :: 0 <= p < |labels| ==> labels[p] !in cats
    ensures r.Some? ==> |r.value.features| == |r.value.labels| > 0
    ensures r.Some? ==> forall j :: 0 <= j < |r.value.labels| ==> r.value.labels[j] in cats
    ensures r.Some? ==> var ps := Kept(labels, cats);
                        |r.value.features| == |ps|
                        && forall j :: 0 <= j < |ps| ==>
                             r.value.features[j] == feats[ps[j]] && r.value.labels[j] == labels[ps[j]]
  {
    var ps := Kept(labels, cats);
    if ps == [] then None
    else
      assert labels[ps[0]] in cats;
      Some(Batch(Pick(feats, ps), Pick(labels, ps)))
  }

  /** One round of the loop of `convergeFeatures`. */
  lemma CollectStep(feats: seq<Feature>, labels: seq<Category>, cats: seq<Category>, i: nat)
    requires |feats| == |labels| && i < |labels|
    ensures var ps, qs := Kept(labels[..i], cats), Kept(labels[..i + 1], cats);
            && (labels[i] in cats ==>
                  Pick(feats, qs) == Pick(feats, ps) + [feats[i]] && Pick(labels, qs) == Pick(labels, ps) + [labels[i]])
            && (labels[i] !in cats ==> Pick(feats, qs) == Pick(feats, ps) && Pick(labels, qs) == Pick(labels, ps))
  {
    KeptStep(labels, cats, i);
    var ps := Kept(labels[..i], cats);
    if labels[i] in cats {
      PickAppend(feats, ps, i);
      PickAppend(labels, ps, i);
    } else {
      assert ps + [] == ps;
    }
  }

  /** `Kept` gains position `i` exactly when label `i` is in `cats`. */
  lemma KeptStep(labels: seq<Category>, cats: seq<Category>, i: nat)
    requires i < |labels|
    ensures Kept(labels[..i + 1], cats) == Kept(labels[..i], cats) + (if labels[i] in cats then [i] else [])
  {
    assert labels[..i + 1][..i] == labels[..i];
  }

  /** `[c for c in labels if c in cats]`, written front to back. */
  function InOrder(labels: seq<Category>, cats: seq<Category>): seq<Category>
  {
    if labels == [] then []
    else (if labels[0] in cats then [labels[0]] else []) + InOrder(labels[1..], cats)
  }

  lemma {:induction false} InOrderAppend(a: seq<Category>, b: seq<Category>, cats: seq<Category>)
    ensures InOrder(a + b, cats) == InOrder(a, cats) + InOrder(b, cats)
    decreases |a|
  {
    if a == [] {
      assert a + b == b;
    } else {
      var h := if a[0] in cats then [a[0]] else [];
      assert (a + b)[0] == a[0] && (a + b)[1..] == a[1..] + b;
      assert InOrder(a + b, cats) == h + InOrder(a[1..] + b, cats);
      InOrderAppend(a[1..], b, cats);
      assert InOrder(a, cats) == h + InOrder(a[1..], cats);
      assert h + (InOrder(a[1..], cats) + InOrder(b, cats)) == (h + InOrder(a[1..], cats)) + InOrder(b, cats);
    }
  }

  /** The labels at the kept positions are exactly the in-order
      subsequence of the labels that lie in `cats`. */
  lemma {:induction false} KeptLabelsInOrder(labels: seq<Category>, cats: seq<Category>)
    ensures Pick(labels, Kept(labels, cats)) == InOrder(labels, cats)
    decreases |labels|
  {
    if labels != [] {
      var n := |labels| - 1;
      var front := labels[..n];
      var qs := Kept(front, cats);
      KeptLabelsInOrder(front, cats);
      assert labels == front + [labels[n]];
      InOrderAppend(front, [labels[n]], cats);
      assert [labels[n]][1..] == [];
      PickPrefix(labels, n, qs);
      if labels[n] in cats {
        PickAppend(labels, qs, n);
      } else {
        assert qs + [] == qs;
      }
    }
  }

  /** Positions below `n` pick the same elements from `s` and from `s[..n]`. */
  lemma PickPrefix<T>(s: seq<T>, n: nat, ps: seq<nat>)
    requires n <= |s|
    requires forall j :: 0 <= j < |ps| ==> ps[j] < n
    ensures Pick(s, ps) == Pick(s[..n], ps)
  {
  }

  /** The labels `convergeFeatures` returns are exactly the section's
      categories that lie in `cats`, in stored order. */
  lemma FilterLabelsInOrder(feats: seq<Feature>, labels: seq<Category>, cats: seq<Category>)
    requires |feats| == |labels|
    ensures Filter(feats, labels, cats).Some? ==> Filter(feats, labels, cats).value.labels == InOrder(labels, cats)
    ensures Filter(feats, labels, cats).None? ==> InOrder(labels, cats) == []
  {
    KeptLabelsInOrder(labels, cats);
  }

  /** The prefix of `order` whose categories all have an end index:
      `loadSectionFeaturesFromCategory` raises KeyError on the first one
      that has none. */
  function LoadablePrefix(order: seq<Category>, endIndex: map<Category, EndIndex>): (m: nat)
    ensures m <= |order|
    ensures forall i :: 0 <= i < m ==> order[i] in endIndex
    ensures m < |order| ==> order[m] !in endIndex
    decreases |order|
  {
    if order == [] || order[0] !in endIndex then 0
    else 1 + LoadablePrefix(order[1..], endIndex)
  }

  /** Appending `x` to the list under `key` of a dictionary that already
      extends `base` by `pre` extends `base` by `pre + [x]`. */
  lemma GrowStep<T>(m: map<string, seq<T>>, base: map<string, seq<T>>, key: string, pre: seq<T>, x: T)
    requires key in base && m == base[key := base[key] + pre]
    ensures m[key := m[key] + [x]] == base[key := base[key] + (pre + [x])]
  {
    AppendAssoc(base[key], pre, [x]);
  }

  /** `LoadablePrefix` is the first position without an end index. */
  lemma {:induction false} PrefixIsLoadable(order: seq<Category>, endIndex: map<Category, EndIndex>, k: nat)
    requires k <= |order|
    requires forall i :: 0 <= i < k ==> order[i] in endIndex
    requires k < |order| ==> order[k] !in endIndex
    ensures LoadablePrefix(order, endIndex) == k
    decreases k
  {
    if k > 0 {
      PrefixIsLoadable(order[1..], endIndex, k - 1);
    }
  }

  /** The images of `section` of category `c`, none when `c` has no data. */
  function ImagesOf(data: map<Category, CategorySplit>, c: Category, section: string): seq<Image>
  {
    if c in data then SectionImages(data[c], section) else []
  }

  /** The images one section holds after loading the categories `order`. */
  function LoadedImages(data: map<Category, CategorySplit>, order: seq<Category>, section: string): seq<Image>
    decreases |order|
  {
    if order == [] then []
    else
      var n := |order| - 1;
      LoadedImages(data, order[..n], section) + ImagesOf(data, order[n], section)
  }

  /** The index pairs one section holds after loading the categories `order`. */
  function LoadedIndex(data: map<Category, CategorySplit>, order: seq<Category>, section: string): seq<(Category, nat)>
    decreases |order|
  {
    if order == [] then []
    else
      var n := |order| - 1;
      LoadedIndex(data, order[..n], section) + Indexed(order[n], |ImagesOf(data, order[n], section)|)
  }

  class DataLoader {
    /** `dataimg` (its keys, in dict order, and its values). */
    const dataOrder: seq<Category>
    const dataImg: map<Category, CategorySplit>
    const dEndIndex: map<Category, EndIndex>
    /** `FeatureLoader.getFeaturesFrom`. */
    const extract: Image -> Feature

    var dCatIndex: map<string, seq<(Category, nat)>>
    var dImg: map<string, seq<Image>>
    var dFeatures: map<string, seq<Feature>>
    var sec: string

    /** The three dictionaries of lists have both section keys. */
    ghost predicate Shaped()
      reads this
    {
      && TrainSection in dImg && ValidSection in dImg
      && TrainSection in dFeatures && ValidSection in dFeatures
      && TrainSection in dCatIndex && ValidSection in dCatIndex
      && NoDup(dataOrder)
      && (forall c :: c in dataOrder <==> c in dataImg)
    }

    /** One section's three lists are aligned and every feature is the
        extractor applied to the image in the same slot. */
    ghost predicate Aligned(s: string)
      reads this
      requires Shaped() && (s == TrainSection || s == ValidSection)
    {
      && |dImg[s]| == |dCatIndex[s]|
      && dFeatures[s] == MapSeq(extract, dImg[s])
    }

    ghost predicate Valid()
      reads this
    {
      Shaped() && Aligned(TrainSection) && Aligned(ValidSection) && (sec == TrainSection || sec == ValidSection)
    }

    constructor (dataOrder: seq<Category>, dataImg: map<Category, CategorySplit>,
                 dEndIndex: map<Category, EndIndex>, extract: Image -> Feature)
      requires NoDup(dataOrder) && forall c :: c in dataOrder <==> c in dataImg
      ensures Valid()
      ensures this.dataOrder == dataOrder && this.dataImg == dataImg
      ensures this.dEndIndex == dEndIndex && this.extract == extract
      ensures dImg == map[TrainSection := [], ValidSection := []]
      ensures dFeatures == map[TrainSection := [], ValidSection := []]
      ensures dCatIndex == map[TrainSection := [], ValidSection := []]
      ensures sec == TrainSection
    {
      this.dataOrder := dataOrder;
      this.dataImg := dataImg;
      this.dEndIndex := dEndIndex;
      this.extract := extract;
      dCatIndex := map[TrainSection := [], ValidSection := []];
      dImg := map[TrainSection := [], ValidSection := []];
      dFeatures := map[TrainSection := [], ValidSection := []];
      sec := TrainSection;
    }

    /** `addInDictionnaryImg`: a section that is not a key raises KeyError. */
    method AddImage(section: string, img: Image) returns (ok: bool)
      modifies this`dImg
      ensures ok == (section in old(dImg))
      ensures ok ==> dImg == old(dImg)[section := old(dImg)[section] + [img]]
      ensures !ok ==> dImg == old(dImg)
    {
      ok := section in dImg;
      if ok {
        dImg := dImg[section := dImg[section] + [img]];
      }
    }

    /** `addInDictionnaryFeatures`. */
    method AddFeature(section: string, feature: Feature) returns (ok: bool)
      modifies this`dFeatures
      ensures ok == (section in old(dFeatures))
      ensures ok ==> dFeatures == old(dFeatures)[section := old(dFeatures)[section] + [feature]]
      ensures !ok ==> dFeatures == old(dFeatures)
    {
      ok := section in dFeatures;
      if ok {
        dFeatures := dFeatures[section := dFeatures[section] + [feature]];
      }
    }

    /** `addInDictCategorieIndex`. */
    method AddCategoryIndex(section: string, cat: Category, index: nat) returns (ok: bool)
      modifies this`dCatIndex
      ensures ok == (section in old(dCatIndex))
      ensures ok ==> dCatIndex == old(dCatIndex)[section := old(dCatIndex)[section] + [(cat, index)]]
      ensures !ok ==> dCatIndex == old(dCatIndex)
    {
      ok := section in dCatIndex;
      if ok {
        dCatIndex := dCatIndex[section := dCatIndex[section] + [(cat, index)]];
      }
    }

    /** `setSection`. */
    method SetSection(section: string)
      modifies this`sec
      ensures sec == SectionOf(section)
    {
      if section == TrainSection {
        sec := section;
      } else {
        sec := ValidSection;
      }
    }

    /** `__getitem__`: position `i` of the current section, with Python's
        negative indices; out of range raises IndexError (None). */
    function Get(i: int): (r: Option<(Image, Feature, Category)>)
      reads this
      requires Valid()
      ensures r.Some? <==> -|dImg[sec]| <= i < |dImg[sec]|
      ensures r.Some? ==> var j := if i < 0 then |dImg[sec]| + i else i;
                          r.value == (dImg[sec][j], dFeatures[sec][j], dCatIndex[sec][j].0)
      ensures r.Some? ==> r.value.1 == extract(r.value.0)
    {
      match PyIndex(dCatIndex[sec], i)
      case None => None
      case Some(entry) =>
        var (cat, index) := entry;
        Some((PyIndex(dImg[sec], i).value, PyIndex(dFeatures[sec], i).value, cat))
    }

    /** The current section as the sequence of what `Get` returns. */
    ghost function Samples(): (r: seq<(Image, Feature, Category)>)
      reads this
      requires Valid()
      ensures |r| == |dImg[sec]|
      ensures forall i :: 0 <= i < |r| ==> Get(i) == Some(r[i])
    {
      var imgs, feats, idx := dImg[sec], dFeatures[sec], dCatIndex[sec];
      seq(|imgs|, i requires 0 <= i < |imgs| && |imgs| == |feats| == |idx| => (imgs[i], feats[i], idx[i].0))
    }

    /** The three lists of `section` hold their contents from `d`, `f`
        and `c`, followed by the first `i` images of `imgs` of `cat`, their
        features and their index pairs. */
    ghost predicate Grown(section: string, cat: Category, imgs: seq<Image>, i: nat,
                          d: map<string, seq<Image>>, f: map<string, seq<Feature>>,
                          c: map<string, seq<(Category, nat)>>)
      reads this
      requires i <= |imgs| && section in d && section in f && section in c
    {
      && dImg == d[section := d[section] + imgs[..i]]
      && dFeatures == f[section := f[section] + MapSeq(extract, imgs[..i])]
      && dCatIndex == c[section := c[section] + Indexed(cat, i)]
    }

    /** The body of the loop of `loadSectionFeaturesFromCategory`: the
        `i`-th image, its index pair and its feature go to the end of
        their lists. */
    method AppendSample(section: string, cat: Category, imgs: seq<Image>, i: nat,
                        ghost d: map<string, seq<Image>>, ghost f: map<string, seq<Feature>>,
                        ghost c: map<string, seq<(Category, nat)>>)
      requires Valid() && (section == TrainSection || section == ValidSection)
      requires i < |imgs| && section in d && section in f && section in c
      requires Grown(section, cat, imgs, i, d, f, c)
      modifies this`dImg, this`dFeatures, this`dCatIndex
      ensures Valid()
      ensures Grown(section, cat, imgs, i + 1, d, f, c)
    {
      var img := imgs[i];
      var feature := extract(img);
      assert imgs[..i + 1] == imgs[..i] + [img];
      assert Indexed(cat, i + 1) == Indexed(cat, i) + [(cat, i)];
      MapSeqAppend(extract, imgs[..i], [img]);
      MapSeqAppend(extract, dImg[section], [img]);
      assert MapSeq(extract, [img]) == [feature];
      GrowStep(dImg, d, section, imgs[..i], img);
      GrowStep(dFeatures, f, section, MapSeq(extract, imgs[..i]), feature);
      GrowStep(dCatIndex, c, section, Indexed(cat, i), (cat, i));
      var added := AddImage(section, img);
      added := AddCategoryIndex(section, cat, i);
      added := AddFeature(section, feature);
    }

    /** `loadSectionFeaturesFromCategory`: appends, in lockstep, every image
        of `cat` in `section`, its index pair and its feature. A category
        without an end index or without data raises KeyError before
        anything is appended. */
    method LoadSection(cat: Category, section: string) returns (ok: bool)
      requires Valid() && (section == TrainSection || section == ValidSection)
      modifies this`dImg, this`dFeatures, this`dCatIndex
      ensures Valid()
      ensures ok == (cat in dEndIndex && cat in dataImg)
      ensures !ok ==> dImg == old(dImg) && dFeatures == old(dFeatures) && dCatIndex == old(dCatIndex)
      ensures ok ==> var imgs := SectionImages(dataImg[cat], section);
                     && dImg == old(dImg)[section := old(dImg)[section] + imgs]
                     && dFeatures == old(dFeatures)[section := old(dFeatures)[section] + MapSeq(extract, imgs)]
                     && dCatIndex == old(dCatIndex)[section := old(dCatIndex)[section] + Indexed(cat, |imgs|)]
    {
      ok := cat in dEndIndex && cat in dataImg;
      if !ok {
        return;
      }
      var imgs := SectionImages(dataImg[cat], section);
      ghost var d, f, c := dImg, dFeatures, dCatIndex;
      assert imgs[..0] == [] && MapSeq(extract, imgs[..0]) == [] && Indexed(cat, 0) == [];
      assert d[section] + [] == d[section] && f[section] + [] == f[section] && c[section] + [] == c[section];
      var i := 0;
      while i < |imgs|
        invariant 0 <= i <= |imgs|
        invariant Valid() && Grown(section, cat, imgs, i, d, f, c)
      {
        AppendSample(section, cat, imgs, i, d, f, c);
        i := i + 1;
      }
      assert imgs[..i] == imgs;
    }

    /** After loading the first `k` categories of `dataOrder` on top of
        the lists `t`, `v` (images) and `ti`, `vi` (index pairs). */
    ghost predicate LoadedUpTo(k: nat, t: seq<Image>, v: seq<Image>, ti: seq<(Category, nat)>, vi: seq<(Category, nat)>)
      reads this
      requires Shaped() && k <= |dataOrder|
    {
      && (forall i :: 0 <= i < k ==> dataOrder[i] in dEndIndex)
      && dImg[TrainSection] == t + LoadedImages(dataImg, dataOrder[..k], TrainSection)
      && dImg[ValidSection] == v + LoadedImages(dataImg, dataOrder[..k], ValidSection)
      && dCatIndex[TrainSection] == ti + LoadedIndex(dataImg, dataOrder[..k], TrainSection)
      && dCatIndex[ValidSection] == vi + LoadedIndex(dataImg, dataOrder[..k], ValidSection)
    }

    /** One iteration of `load`: the training then the validation section
        of the `k`-th category. */
    method LoadCategory(k: nat, ghost t: seq<Image>, ghost v: seq<Image>,
                        ghost ti: seq<(Category, nat)>, ghost vi: seq<(Category, nat)>) returns (ok: bool)
      requires Valid() && k < |dataOrder| && LoadedUpTo(k, t, v, ti, vi)
      modifies this`dImg, this`dFeatures, this`dCatIndex
      ensures Valid()
      ensures ok == (dataOrder[k] in dEndIndex)
      ensures !ok ==> dImg == old(dImg) && dFeatures == old(dFeatures) && dCatIndex == old(dCatIndex)
      ensures ok ==> LoadedUpTo(k + 1, t, v, ti, vi)
    {
      SectionsDiffer();
      var cat := dataOrder[k];
      ok := LoadSection(cat, TrainSection);
      if ok {
        ok := LoadSection(cat, ValidSection);
        LoadStep(k, TrainSection);
        LoadStep(k, ValidSection);
        AppendAssoc(t, LoadedImages(dataImg, dataOrder[..k], TrainSection), ImagesOf(dataImg, cat, TrainSection));
        AppendAssoc(v, LoadedImages(dataImg, dataOrder[..k], ValidSection), ImagesOf(dataImg, cat, ValidSection));
        AppendAssoc(ti, LoadedIndex(dataImg, dataOrder[..k], TrainSection), Indexed(cat, |ImagesOf(dataImg, cat, TrainSection)|));
        AppendAssoc(vi, LoadedIndex(dataImg, dataOrder[..k], ValidSection), Indexed(cat, |ImagesOf(dataImg, cat, ValidSection)|));
      }
    }

    /** `load`: for every category in dict order, the training then the
        validation section; stops at the first category without an end
        index. */
    method Load() returns (ok: bool)
      requires Valid()
      modifies this`dImg, this`dFeatures, this`dCatIndex
      ensures Valid()
      ensures var m := LoadablePrefix(dataOrder, dEndIndex);
              && (ok <==> m == |dataOrder|)
              && dImg[TrainSection] == old(dImg[TrainSection]) + LoadedImages(dataImg, dataOrder[..m], TrainSection)
              && dImg[ValidSection] == old(dImg[ValidSection]) + LoadedImages(dataImg, dataOrder[..m], ValidSection)
              && dCatIndex[TrainSection] == old(dCatIndex[TrainSection]) + LoadedIndex(dataImg, dataOrder[..m], TrainSection)
              && dCatIndex[ValidSection] == old(dCatIndex[ValidSection]) + LoadedIndex(dataImg, dataOrder[..m], ValidSection)
    {
      ghost var t, v := dImg[TrainSection], dImg[ValidSection];
      ghost var ti, vi := dCatIndex[TrainSection], dCatIndex[ValidSection];
      assert dataOrder[..0] == [];
      var k := 0;
      while k < |dataOrder|
        invariant 0 <= k <= |dataOrder|
        invariant Valid() && LoadedUpTo(k, t, v, ti, vi)
      {
        ok := LoadCategory(k, t, v, ti, vi);
        if !ok {
          PrefixIsLoadable(dataOrder, dEndIndex, k);
          return;
        }
        k := k + 1;
      }
      PrefixIsLoadable(dataOrder, dEndIndex, k);
      ok := true;
    }

    lemma LoadStep(k: nat, s: string)
      requires k < |dataOrder|
      ensures LoadedImages(dataImg, dataOrder[..k + 1], s)
                == LoadedImages(dataImg, dataOrder[..k], s) + ImagesOf(dataImg, dataOrder[k], s)
      ensures LoadedIndex(dataImg, dataOrder[..k + 1], s)
                == LoadedIndex(dataImg, dataOrder[..k], s) + Indexed(dataOrder[k], |ImagesOf(dataImg, dataOrder[k], s)|)
    {
      assert dataOrder[..k + 1][..k] == dataOrder[..k];
    }

    /** The loop of `convergeFeatures` over the current section: keeps, in
        stored order, the feature and the category of every entry whose
        category is in `categories`; stacking an empty list raises (None). */
    method Collect(categories: seq<Category>) returns (r: Option<Batch>)
      requires Valid()
      ensures r == Filter(dFeatures[sec], Labels(dCatIndex[sec]), categories)
    {
      var lFeatures: seq<Feature> := [];
      var lCat: seq<Category> := [];
      ghost var feats, labels := dFeatures[sec], Labels(dCatIndex[sec]);
      var n := |dCatIndex[sec]|;
      for i := 0 to n
        invariant lFeatures == Pick(feats, Kept(labels[..i], categories))
        invariant lCat == Pick(labels, Kept(labels[..i], categories))
      {
        var (img, f, cat) := Get(i).value;
        CollectStep(feats, labels, categories, i);
        if cat !in categories {
          continue;
        }
        lCat := lCat + [cat];
        lFeatures := lFeatures + [f];
      }
      assert labels[..n] == labels;
      if lFeatures == [] {
        r := None;
      } else {
        r := Some(Batch(lFeatures, lCat));
      }
    }

    /** `convergeFeatures`: selects the (normalised) section, then collects
        its matching entries. Nothing but the section changes. */
    method ConvergeFeatures(categories: seq<Category>, section: string) returns (r: Option<Batch>)
      requires Valid()
      modifies this`sec
      ensures Valid()
      ensures sec == SectionOf(section)
      ensures r == Filter(dFeatures[sec], Labels(dCatIndex[sec]), categories)
    {
      SetSection(section);
      r := Collect(categories);
    }
  }

  /** After `load` from a fresh store, the training section holds, category
      by category in dict order, each category's training images, and the
      index pair of every slot names the category and the position of the
      image within its category. */
  lemma {:induction false} LoadedIndexDescribesImages(data: map<Category, CategorySplit>, order: seq<Category>,
                                                     section: string, i: nat)
    requires forall c :: c in order ==> c in data
    requires i < |LoadedImages(data, order, section)|
    ensures |LoadedIndex(data, order, section)| == |LoadedImages(data, order, section)|
    ensures var (c, p) := LoadedIndex(data, order, section)[i];
            c in data && p < |SectionImages(data[c], section)|
            && LoadedImages(data, order, section)[i] == SectionImages(data[c], section)[p]
    decreases |order|
  {
    var n := |order| - 1;
    var front := order[..n];
    assert forall c :: c in front ==> c in order;
    LoadedLengths(data, front, section);
    var imgs := SectionImages(data[order[n]], section);
    if i < |LoadedImages(data, front, section)| {
      LoadedIndexDescribesImages(data, front, section, i);
    }
  }

  lemma {:induction false} LoadedLengths(data: map<Category, CategorySplit>, order: seq<Category>, section: string)
    requires forall c :: c in order ==> c in data
    ensures |LoadedIndex(data, order, section)| == |LoadedImages(data, order, section)|
    decreases |order|
  {
    if order != [] {
      var n := |order| - 1;
      assert forall c :: c in order[..n] ==> c in order;
      LoadedLengths(data, order[..n], section);
    }
  }
}
