/** Shared vocabulary of the model: categories, raw images, feature vectors,
    and the few pieces of Python list semantics the pipeline relies on. */
module Common {

  datatype Option<+T> = None | Some(value: T)

  /** A category label, such as "happy" or "sad". */
  type Category = string

  /** A decoded greyscale image: a matrix of pixel intensities. */
  datatype Image = Image(pixels: seq<seq<int>>)

  /** A feature vector extracted from one image (singular values of a
      per-image principal component fit). */
  datatype Feature = Feature(values: seq<real>)

  predicate NoDup<T(==)>(s: seq<T>)
  {
    forall i, j :: 0 <= i < j < |s| ==> s[i] != s[j]
  }

  /** Python's `s[i]`: negative indices count from the end, anything
      outside `-|s| .. |s|-1` raises IndexError (here: None). */
  function PyIndex<T>(s: seq<T>, i: int): (r: Option<T>)
    ensures r.Some? <==> -|s| <= i < |s|
    ensures 0 <= i < |s| ==> r == Some(s[i])
    ensures -|s| <= i < 0 ==> r == Some(s[|s| + i])
  {
    if 0 <= i < |s| then Some(s[i])
    else if -|s| <= i < 0 then Some(s[|s| + i])
    else None
  }

  /** Python's `s[i:]`, which never raises: a negative start counts from
      the end and every start is clamped into `0 .. |s|`. */
  function PySliceFrom<T>(s: seq<T>, i: int): (r: seq<T>)
    ensures |r| <= |s| && r == s[|s| - |r|..]
    ensures 0 <= i <= |s| ==> r == s[i..]
    ensures -|s| <= i < 0 ==> r == s[|s| + i..]
    ensures i < -|s| ==> r == s
    ensures |s| < i ==> r == []
  {
    if i >= |s| then []
    else if i >= 0 then s[i..]
    else if |s| + i >= 0 then s[|s| + i..]
    else s
  }

  /** Python's `range(start, stop, step)` for a positive step. */
  function PyRange(start: int, stop: int, step: nat): (r: seq<int>)
    requires step > 0
    ensures forall i :: 0 <= i < |r| ==> r[i] == start + i * step && r[i] < stop
    ensures r == [] <==> stop <= start
    ensures r != [] ==> stop <= r[|r| - 1] + step
    ensures step == 1 ==> |r| == if start < stop then stop - start else 0
    decreases stop - start
  {
    if stop <= start then [] else [start] + PyRange(start + step, stop, step)
  }

  lemma AppendAssoc<T>(a: seq<T>, b: seq<T>, c: seq<T>)
    ensures (a + b) + c == a + (b + c)
  {
  }

  lemma NoDupSnoc<T>(s: seq<T>, x: T)
    requires NoDup(s) && x !in s
    ensures NoDup(s + [x])
  {
  }

  /** Dropping the last element keeps distinctness, and the dropped
      element is not among the rest. */
  lemma NoDupInit<T>(s: seq<T>)
    requires NoDup(s) && s != []
    ensures NoDup(s[..|s| - 1]) && s[|s| - 1] !in s[..|s| - 1]
    ensures forall x :: x in s[..|s| - 1] ==> x in s
  {
    var n := |s| - 1;
    forall i | 0 <= i < n ensures s[..n][i] != s[n] {
      assert s[..n][i] == s[i];
    }
  }

  /** Python's `[f(x) for x in s]`. */
  function MapSeq<A, B>(f: A -> B, s: seq<A>): (r: seq<B>)
    ensures |r| == |s|
    ensures forall i :: 0 <= i < |s| ==> r[i] == f(s[i])
  {
    seq(|s|, i requires 0 <= i < |s| => f(s[i]))
  }

  lemma MapSeqAppend<A, B>(f: A -> B, a: seq<A>, b: seq<A>)
    ensures MapSeq(f, a + b) == MapSeq(f, a) + MapSeq(f, b)
  {
  }

  /** The elements of `s` at the positions `ps`, in the order of `ps`. */
  function Pick<T>(s: seq<T>, ps: seq<nat>): (r: seq<T>)
    requires forall j :: 0 <= j < |ps| ==> ps[j] < |s|
    ensures |r| == |ps|
    ensures forall j :: 0 <= j < |ps| ==> r[j] == s[ps[j]]
  {
    seq(|ps|, j requires 0 <= j < |ps| => s[ps[j]])
  }

  lemma PickAppend<T>(s: seq<T>, ps: seq<nat>, i: nat)
    requires forall j :: 0 <= j < |ps| ==> ps[j] < |s|
    requires i < |s|
    ensures Pick(s, ps + [i]) == Pick(s, ps) + [s[i]]
  {
  }

  /** Distinct positions of a duplicate-free sequence pick distinct elements. */
  lemma PickNoDup<T>(s: seq<T>, ps: seq<nat>)
    requires forall j :: 0 <= j < |ps| ==> ps[j] < |s|
    requires NoDup(s) && NoDup(ps)
    ensures NoDup(Pick(s, ps))
  {
    var r := Pick(s, ps);
    forall i, j | 0 <= i < j < |r|
      ensures r[i] != r[j]
    {
      assert ps[i] != ps[j];
    }
  }
}
