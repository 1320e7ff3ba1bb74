/** Where a copy puts an object: the source prefix is replaced by the destination. */
module Images {
  import opened Paths

  /** `destination` followed by what comes after `source` in the path. */
  function Image(src: Path, dst: Path, p: Path): (q: Path)
    requires |src| <= |p|
  {
    dst + p[|src|..]
  }

  lemma ImageBack(src: Path, dst: Path, p: Path)
    requires src <= p
    ensures dst <= Image(src, dst, p) && Image(dst, src, Image(src, dst, p)) == p
  {
    assert Image(src, dst, p)[|dst|..] == p[|src|..];
    assert src + p[|src|..] == p;
  }

  lemma ImageSelf(src: Path, dst: Path)
    ensures Image(src, dst, src) == dst
  {
    assert src[|src|..] == [];
  }

  /** One component at a time: the image of a child is the child of the image. */
  lemma ImageStep(src: Path, dst: Path, p: Path)
    requires Canonical(src) && Canonical(dst) && Canonical(p) && Within(src, p) && p != src
    ensures Parent(p) != ROOT && Within(src, Parent(p)) && src <= Parent(p) && Canonical(Parent(p))
    ensures Image(src, dst, p) == Image(src, dst, Parent(p)) + [SLASH] + Leaf(p)
  {
    CanonicalNonempty(src);
    ParentFacts(p);
    WithinStep(src, p);
    SuffixJoin(src, dst, Parent(p), Leaf(p));
  }

  lemma SuffixJoin(src: Path, dst: Path, d: Path, n: Path)
    requires |src| <= |d|
    ensures Image(src, dst, d + [SLASH] + n) == Image(src, dst, d) + [SLASH] + n
  {
    assert (d + [SLASH] + n)[|src|..] == d[|src|..] + ([SLASH] + n);
  }

  lemma {:induction false} ImageCanonical(src: Path, dst: Path, p: Path)
    requires Canonical(src) && Canonical(dst) && Canonical(p) && Within(src, p)
    ensures src <= p && Canonical(Image(src, dst, p)) && Within(dst, Image(src, dst, p))
    ensures Depth(Image(src, dst, p)) == Depth(dst) + Depth(p) - Depth(src)
    ensures p != src ==> Canonical(Parent(p)) && Within(src, Parent(p)) && src <= Parent(p)
                         && Parent(Image(src, dst, p)) == Image(src, dst, Parent(p))
                         && Image(src, dst, p) != dst
    decreases Depth(p)
  {
    CanonicalNonempty(src);
    if p == src {
      ImageSelf(src, dst);
    } else {
      ImageStep(src, dst, p);
      ParentFacts(p);
      ImageCanonical(src, dst, Parent(p));
      var d := Image(src, dst, Parent(p));
      CanonicalNonempty(d);
      ChildFacts(d, Leaf(p));
      assert |Image(src, dst, p)| > |dst|;
    }
  }

  /** Source and image never meet when neither path is within the other. */
  lemma Disjoint(src: Path, dst: Path, q: Path)
    requires !Within(src, dst) && !Within(dst, src)
    ensures !(Within(src, q) && Within(dst, q))
  {
    if Within(src, q) && Within(dst, q) { WithinComparable(src, dst, q); }
  }
}
