/** The raw-data loader: lists the image files of every category folder,
    splits each category's file list into a training prefix and a validation
    suffix, and decodes both halves. Directory listing and image decoding
    are parameters (`listDir`, `imread`). */
module MatrixLoading {
  import opened Common

  /** `d_endindex[cat]`: the sizes of the training and validation slices. */
  datatype EndIndex = EndIndex(train: nat, valid: nat)

  /** `data[cat]`: the two file-name lists and the images decoded from them. */
  datatype CategorySplit = CategorySplit(
    trainFile: seq<string>,
    validFile: seq<string>,
    trainImg: seq<Image>,
    validImg: seq<Image>)

  /** `validation_p`: the fraction of each category used for training. */
  const ValidationP: real := 0.75

  /** `int(n * validation_p)`: the training slice size, the floor of 3n/4. */
  function TrainSize(n: nat): (t: nat)
    ensures 4 * t <= 3 * n < 4 * t + 4
    ensures t <= n
  {
    3 * n / 4
  }

  /** The integer definition agrees with truncating the real product
      (for the non-negative product, truncation is the floor). */
  lemma TrainSizeIsTruncatedProduct(n: nat)
    ensures TrainSize(n) == ((n as real) * ValidationP).Floor
  {
    var t := TrainSize(n);
    assert (n as real) * ValidationP == (3 * n) as real / 4.0;
    assert t as real <= (n as real) * ValidationP < t as real + 1.0;
  }

  /** The end indices recorded for a category holding `n` files. */
  function EndIndexOf(n: nat): (e: EndIndex)
    ensures e.train == TrainSize(n)
    ensures e.train + e.valid == n
  {
    EndIndex(TrainSize(n), n - TrainSize(n))
  }

  /** `l_img[:train]` and `l_img[train:]`: the two slices partition the list. */
  function Split(l: seq<string>): (r: (seq<string>, seq<string>))
    ensures r.0 + r.1 == l
    ensures |r.0| == EndIndexOf(|l|).train && |r.1| == EndIndexOf(|l|).valid
  {
    var t := TrainSize(|l|);
    (l[..t], l[t..])
  }

  /** The record stored in `data[cat]` for the file list `l`. */
  function SplitOf(l: seq<string>, imread: string -> Image): (r: CategorySplit)
    ensures r.trainFile + r.validFile == l
    ensures |r.trainFile| == EndIndexOf(|l|).train
    ensures |r.validFile| == EndIndexOf(|l|).valid
    ensures r.trainImg == MapSeq(imread, r.trainFile)
    ensures r.validImg == MapSeq(imread, r.validFile)
  {
    var (tf, vf) := Split(l);
    CategorySplit(tf, vf, MapSeq(imread, tf), MapSeq(imread, vf))
  }

  predicate EndsWithSlash(p: string)
  {
    |p| > 0 && p[|p| - 1] == '/'
  }

  /** The folder path after `if path[-1] != "/": path += "/"` (a non-empty
      path; an empty one raises IndexError in the source). */
  function Normalize(p: string): (r: string)
    requires p != ""
    ensures EndsWithSlash(r)
    ensures |p| <= |r| <= |p| + 1 && r[..|p|] == p
    ensures EndsWithSlash(p) ==> r == p
  {
    if p[|p| - 1] != '/' then p + "/" else p
  }

  /** The trailing slash is added at most once. */
  lemma NormalizeIdempotent(p: string)
    requires p != ""
    ensures Normalize(Normalize(p)) == Normalize(p)
  {
  }

  /** `os.path.join(a, b)` for two POSIX path components. */
  function PathJoin(a: string, b: string): (r: string)
    ensures |b| > 0 && b[0] == '/' ==> r == b
    ensures !(|b| > 0 && b[0] == '/') && (a == "" || EndsWithSlash(a)) ==> r == a + b
    ensures !(|b| > 0 && b[0] == '/') && !(a == "" || EndsWithSlash(a)) ==> r == a + "/" + b
  {
    if |b| > 0 && b[0] == '/' then b
    else if a == "" || a[|a| - 1] == '/' then a + b
    else a + "/" + b
  }

  /** The entries `addInDictionnaryImg` builds for the listed names of one
      category folder, in listing order. */
  function Entries(p: string, cat: Category, names: seq<string>): (r: seq<string>)
    ensures |r| == |names|
    ensures forall i :: 0 <= i < |names| ==> r[i] == PathJoin(p + cat, names[i])
  {
    MapSeq((f: string) => PathJoin(p + cat, f), names)
  }

  /** For a normalised folder, a category with a plain name and a relative
      file name, an entry is `path + cat + "/" + name`. */
  lemma EntryIsFolderCategoryName(p: string, cat: Category, name: string)
    requires EndsWithSlash(p) && cat != "" && !EndsWithSlash(cat)
    requires !(|name| > 0 && name[0] == '/')
    ensures PathJoin(p + cat, name) == p + cat + "/" + name
  {
    assert (p + cat)[|p + cat| - 1] == cat[|cat| - 1];
  }

  /** `d_img` after `fillDictionnaryImg` has walked `cats` with folder `p`. */
  function Filled(d: map<Category, seq<string>>, p: string, cats: seq<Category>,
                  listDir: string -> seq<string>): (r: map<Category, seq<string>>)
    requires forall c :: c in cats ==> c in d
    ensures r.Keys == d.Keys
    decreases |cats|
  {
    if cats == [] then d
    else
      var prev := Filled(d, p, cats[..|cats| - 1], listDir);
      var c := cats[|cats| - 1];
      prev[c := prev[c] + Entries(p, c, listDir(p + c))]
  }

  lemma FilledStep(d: map<Category, seq<string>>, p: string, cats: seq<Category>, i: nat,
                   listDir: string -> seq<string>)
    requires forall c :: c in cats ==> c in d
    requires i < |cats|
    ensures forall c :: c in cats[..i + 1] ==> c in d
    ensures forall c :: c in cats[..i] ==> c in d
    ensures Filled(d, p, cats[..i + 1], listDir)
            == Filled(d, p, cats[..i], listDir)[cats[i] := Filled(d, p, cats[..i], listDir)[cats[i]] + Entries(p, cats[i], listDir(p + cats[i]))]
  {
    assert cats[..i + 1][..i] == cats[..i];
  }

  /** With distinct categories, every category's list gains exactly the
      entries of its own folder, in listing order, and nothing else changes. */
  lemma {:induction false} FilledAt(d: map<Category, seq<string>>, p: string, cats: seq<Category>,
                                    listDir: string -> seq<string>, c: Category)
    requires forall x :: x in cats ==> x in d
    requires NoDup(cats) && c in d
    ensures c in cats ==> Filled(d, p, cats, listDir)[c] == d[c] + Entries(p, c, listDir(p + c))
    ensures c !in cats ==> Filled(d, p, cats, listDir)[c] == d[c]
    decreases |cats|
  {
    if cats != [] {
      var front := cats[..|cats| - 1];
      assert forall x :: x in front ==> x in cats;
      assert NoDup(front);
      FilledAt(d, p, front, listDir, c);
      if c == cats[|cats| - 1] {
        assert c !in front by {
          forall i | 0 <= i < |front| ensures front[i] != c {
            assert front[i] == cats[i];
          }
        }
      } else {
        assert c in cats <==> c in front;
      }
    }
  }

  /** The key order of a Python dict after assigning the keys `cats` in turn:
      a key already present keeps its place, a new key goes to the end. */
  function AppendNew(keys: seq<Category>, cats: seq<Category>): (r: seq<Category>)
    ensures NoDup(keys) ==> NoDup(r)
    ensures forall c :: c in r <==> c in keys || c in cats
    ensures |keys| <= |r| && r[..|keys|] == keys
    decreases |cats|
  {
    if cats == [] then keys
    else
      var prev := AppendNew(keys, cats[..|cats| - 1]);
      var c := cats[|cats| - 1];
      assert forall x :: x in cats <==> x in cats[..|cats| - 1] || x == c;
      if c in prev then prev else prev + [c]
  }

  /** Starting from keys none of which is among distinct `cats`, the new
      keys follow in the order of `cats`: a fresh loader's `data` keys are
      its category list. */
  lemma {:induction false} AppendNewFresh(keys: seq<Category>, cats: seq<Category>)
    requires NoDup(cats) && forall c :: c in cats ==> c !in keys
    ensures AppendNew(keys, cats) == keys + cats
    decreases |cats|
  {
    if cats != [] {
      var n := |cats| - 1;
      var front := cats[..n];
      NoDupInit(cats);
      AppendNewFresh(keys, front);
      assert cats[n] !in keys + front;
      assert keys + front + [cats[n]] == keys + cats;
    }
  }

  /** `data[cat]` for every category `cat` of `cats` whose list is known. */
  function Splits(dimg: map<Category, seq<string>>, cats: seq<Category>, imread: string -> Image)
    : map<Category, CategorySplit>
  {
    map c | c in cats && c in dimg :: SplitOf(dimg[c], imread)
  }

  /** `d_endindex[cat]` for every category `cat` of `cats` whose list is known. */
  function EndIndices(dimg: map<Category, seq<string>>, cats: seq<Category>): map<Category, EndIndex>
  {
    map c | c in cats && c in dimg :: EndIndexOf(|dimg[c]|)
  }

  /** One more round adds (or overwrites) exactly the entry of `cats[i]`. */
  lemma SplitsStep(dimg: map<Category, seq<string>>, cats: seq<Category>, i: nat, imread: string -> Image)
    requires i < |cats| && cats[i] in dimg
    ensures Splits(dimg, cats[..i + 1], imread) == Splits(dimg, cats[..i], imread)[cats[i] := SplitOf(dimg[cats[i]], imread)]
    ensures EndIndices(dimg, cats[..i + 1]) == EndIndices(dimg, cats[..i])[cats[i] := EndIndexOf(|dimg[cats[i]]|)]
  {
    assert forall c :: c in cats[..i + 1] <==> c in cats[..i] || c == cats[i] by {
      assert cats[..i + 1] == cats[..i] + [cats[i]];
    }
  }

  lemma MergeUpdate<K, V>(a: map<K, V>, b: map<K, V>, k: K, v: V)
    ensures (a + b)[k := v] == a + b[k := v]
  {
  }

  /** The invariant of a `MatrixLoader`: every category has a file list and
      end indices, and the recorded key order of `data` lists each of its
      keys once. */
  ghost predicate LoaderInv(cats: seq<Category>, dimg: map<Category, seq<string>>,
                            endIdx: map<Category, EndIndex>, data: map<Category, CategorySplit>,
                            keys: seq<Category>)
  {
    && (forall c :: c in cats <==> c in dimg)
    && (forall c :: c in cats <==> c in endIdx)
    && NoDup(keys)
    && (forall c :: c in keys <==> c in data)
  }

  /** `data`, its key order and `d_endindex` after the category loop of
      `generateTrainAndValidMatrixImg` has visited `done`, starting from
      `d0`, `k0` and `e0`. */
  ghost predicate SplitProgress(done: seq<Category>, dimg: map<Category, seq<string>>,
                                d0: map<Category, CategorySplit>, k0: seq<Category>, e0: map<Category, EndIndex>,
                                imread: string -> Image,
                                data: map<Category, CategorySplit>, keys: seq<Category>, endIdx: map<Category, EndIndex>)
  {
    && data == d0 + Splits(dimg, done, imread)
    && endIdx == e0 + EndIndices(dimg, done)
    && keys == AppendNew(k0, done)
  }

  /** One round of the category loop of `generateTrainAndValidMatrixImg`,
      on values: recording `cats[i]` moves the progress on by one category
      and keeps the invariant. */
  lemma RecordStep(cats: seq<Category>, dimg: map<Category, seq<string>>, i: nat, imread: string -> Image,
                   d0: map<Category, CategorySplit>, k0: seq<Category>, e0: map<Category, EndIndex>,
                   data: map<Category, CategorySplit>, keys: seq<Category>, endIdx: map<Category, EndIndex>,
                   data': map<Category, CategorySplit>, keys': seq<Category>, endIdx': map<Category, EndIndex>)
    requires i < |cats|
    requires LoaderInv(cats, dimg, endIdx, data, keys)
    requires SplitProgress(cats[..i], dimg, d0, k0, e0, imread, data, keys, endIdx)
    requires data' == data[cats[i] := SplitOf(dimg[cats[i]], imread)]
    requires endIdx' == endIdx[cats[i] := EndIndexOf(|dimg[cats[i]]|)]
    requires keys' == if cats[i] in data then keys else keys + [cats[i]]
    ensures LoaderInv(cats, dimg, endIdx', data', keys')
    ensures SplitProgress(cats[..i + 1], dimg, d0, k0, e0, imread, data', keys', endIdx')
  {
    var cat := cats[i];
    SplitsStep(dimg, cats, i, imread);
    AppendNewStep(k0, cats, i);
    MergeUpdate(d0, Splits(dimg, cats[..i], imread), cat, SplitOf(dimg[cat], imread));
    MergeUpdate(e0, EndIndices(dimg, cats[..i]), cat, EndIndexOf(|dimg[cat]|));
    if cat !in data {
      NoDupSnoc(keys, cat);
    }
  }

  /** One more category for `AppendNew`. */
  lemma AppendNewStep(keys: seq<Category>, cats: seq<Category>, i: nat)
    requires i < |cats|
    ensures var prev := AppendNew(keys, cats[..i]);
            AppendNew(keys, cats[..i + 1]) == if cats[i] in prev then prev else prev + [cats[i]]
  {
    assert cats[..i + 1][..i] == cats[..i];
  }

  class MatrixLoader {
    var path: string
    const categories: seq<Category>
    /** `d_img`: per category, the joined paths of its image files. */
    var dImg: map<Category, seq<string>>
    var dEndIndex: map<Category, EndIndex>
    var data: map<Category, CategorySplit>
    /** The insertion order of the keys of `data`. */
    var dataKeys: seq<Category>

    ghost predicate Valid()
      reads this
    {
      LoaderInv(categories, dImg, dEndIndex, data, dataKeys)
    }

    constructor (path: string, categories: seq<Category>)
      ensures Valid()
      ensures this.path == path && this.categories == categories
      ensures dImg == map c | c in categories :: []
      ensures dEndIndex == map c | c in categories :: EndIndex(0, 0)
      ensures data == map[] && dataKeys == []
    {
      this.path := path;
      this.categories := categories;
      dImg := map c | c in categories :: [];
      dEndIndex := map c | c in categories :: EndIndex(0, 0);
      data := map[];
      dataKeys := [];
    }

    /** `addInDictionnaryImg`: a category that is not a key raises KeyError. */
    method AddInDictionnaryImg(cat: Category, imgId: string) returns (ok: bool)
      modifies this`dImg
      ensures ok == (cat in old(dImg))
      ensures ok ==> dImg == old(dImg)[cat := old(dImg)[cat] + [PathJoin(path + cat, imgId)]]
      ensures !ok ==> dImg == old(dImg)
    {
      ok := cat in dImg;
      if ok {
        dImg := dImg[cat := dImg[cat] + [PathJoin(path + cat, imgId)]];
      }
    }

    /** The inner loop of `fillDictionnaryImg`: one entry per listed file of
        the folder of `cat`, in listing order. */
    method FillCategory(cat: Category, listDir: string -> seq<string>)
      requires Valid() && cat in dImg
      modifies this`dImg
      ensures Valid()
      ensures dImg == old(dImg)[cat := old(dImg)[cat] + Entries(path, cat, listDir(path + cat))]
    {
      var names := listDir(path + cat);
      var j := 0;
      assert Entries(path, cat, names[..0]) == [];
      assert old(dImg)[cat] + [] == old(dImg)[cat];
      assert old(dImg)[cat := old(dImg)[cat] + []] == old(dImg);
      while j < |names|
        invariant 0 <= j <= |names|
        invariant dImg == old(dImg)[cat := old(dImg)[cat] + Entries(path, cat, names[..j])]
      {
        var added := AddInDictionnaryImg(cat, names[j]);
        assert old(dImg)[cat] + Entries(path, cat, names[..j]) + [PathJoin(path + cat, names[j])]
            == old(dImg)[cat] + (Entries(path, cat, names[..j]) + [PathJoin(path + cat, names[j])]);
        assert Entries(path, cat, names[..j + 1]) == Entries(path, cat, names[..j]) + [PathJoin(path + cat, names[j])];
        j := j + 1;
      }
      assert names[..j] == names;
    }

    /** `fillDictionnaryImg`: the folder path gets its trailing slash inside
        the category loop, so an empty path raises IndexError on the first
        category and an empty category list leaves the path as it is. */
    method FillDictionnaryImg(listDir: string -> seq<string>) returns (ok: bool)
      requires Valid()
      modifies this`path, this`dImg
      ensures Valid()
      ensures ok <==> (categories == [] || old(path) != "")
      ensures !ok ==> path == old(path) && dImg == old(dImg)
      ensures ok && categories == [] ==> path == old(path)
      ensures ok && categories != [] ==> path == Normalize(old(path))
      ensures ok ==> dImg == Filled(old(dImg), path, categories, listDir)
    {
      ok := true;
      var i := 0;
      while i < |categories|
        invariant 0 <= i <= |categories|
        invariant Valid()
        invariant i == 0 ==> path == old(path) && dImg == old(dImg)
        invariant i > 0 ==> old(path) != "" && path == Normalize(old(path))
        invariant dImg == Filled(old(dImg), path, categories[..i], listDir)
      {
        var cat := categories[i];
        if path == "" {
          ok := false;
          return;
        }
        if path[|path| - 1] != '/' {
          path := path + "/";
        }
        assert path == Normalize(old(path)) by {
          if i > 0 { NormalizeIdempotent(old(path)); }
        }
        FilledStep(old(dImg), path, categories, i, listDir);
        FillCategory(cat, listDir);
        i := i + 1;
      }
      assert categories[..i] == categories;
    }

    /** One round of the category loop of `generateTrainAndValidMatrixImg`:
        `d_endindex[cat]` and `data[cat]` are set from the file list of
        `cat`; a new key of `data` goes to the end of its key order. */
    method RecordSplit(cat: Category, imread: string -> Image)
      requires cat in dImg
      modifies this`dEndIndex, this`data, this`dataKeys
      ensures dEndIndex == old(dEndIndex)[cat := EndIndexOf(|dImg[cat]|)]
      ensures data == old(data)[cat := SplitOf(dImg[cat], imread)]
      ensures dataKeys == if cat in old(data) then old(dataKeys) else old(dataKeys) + [cat]
    {
      var lImg := dImg[cat];
      var t := TrainSize(|lImg|);
      dEndIndex := dEndIndex[cat := EndIndex(t, |lImg| - t)];
      var trainingFile := lImg[..t];
      var validFile := lImg[t..];
      var trainingImg := MapSeq(imread, trainingFile);
      var validImg := MapSeq(imread, validFile);
      if cat !in data {
        dataKeys := dataKeys + [cat];
      }
      data := data[cat := CategorySplit(trainingFile, validFile, trainingImg, validImg)];
    }

    /** The category loop of `generateTrainAndValidMatrixImg`. */
    method SplitAll(imread: string -> Image)
      requires Valid()
      modifies this`dEndIndex, this`data, this`dataKeys
      ensures Valid()
      ensures data == old(data) + Splits(dImg, categories, imread)
      ensures dEndIndex == old(dEndIndex) + EndIndices(dImg, categories)
      ensures dataKeys == AppendNew(old(dataKeys), categories)
    {
      ghost var d0, k0, e0 := data, dataKeys, dEndIndex;
      assert categories[..0] == [];
      assert d0 + Splits(dImg, [], imread) == d0;
      assert e0 + EndIndices(dImg, []) == e0;
      var i := 0;
      while i < |categories|
        invariant 0 <= i <= |categories|
        invariant LoaderInv(categories, dImg, dEndIndex, data, dataKeys)
        invariant SplitProgress(categories[..i], dImg, d0, k0, e0, imread, data, dataKeys, dEndIndex)
      {
        ghost var d, k, e := data, dataKeys, dEndIndex;
        RecordSplit(categories[i], imread);
        RecordStep(categories, dImg, i, imread, d0, k0, e0, d, k, e, data, dataKeys, dEndIndex);
        i := i + 1;
      }
      assert categories[..i] == categories;
    }

    /** `generateTrainAndValidMatrixImg`: fill `d_img`, then for every
        category record its end indices and its split, decoded. */
    method GenerateTrainAndValidMatrixImg(listDir: string -> seq<string>, imread: string -> Image)
      returns (ok: bool)
      requires Valid()
      modifies this`path, this`dImg, this`dEndIndex, this`data, this`dataKeys
      ensures Valid()
      ensures ok <==> (categories == [] || old(path) != "")
      ensures !ok ==> path == old(path) && dImg == old(dImg) && dEndIndex == old(dEndIndex)
                      && data == old(data) && dataKeys == old(dataKeys)
      ensures ok && categories != [] ==> path == Normalize(old(path))
      ensures ok ==> dImg == Filled(old(dImg), path, categories, listDir)
      ensures ok ==> data == old(data) + Splits(dImg, categories, imread)
      ensures ok ==> dEndIndex == old(dEndIndex) + EndIndices(dImg, categories)
      ensures ok ==> dataKeys == AppendNew(old(dataKeys), categories)
    {
      ok := FillDictionnaryImg(listDir);
      if ok {
        SplitAll(imread);
      }
    }
  }
}
