/** Index arithmetic of the site's widgets: the generic slider (`go`,
    `next`, `prev`), the projects carousel (`show`, `next`, `prev`), the
    hero slider's autoplay step, the lightbox (`open`, `next`, `prev`), and
    the index-to-class rules of the gallery grid and the reveal effects. */
module Indexing {
  import opened Numbers

  /** `go(i)` of the slider and `show(idx)` of the carousel:
      `(i + n) % n` for `n` slides. */
  function Wrap(i: int, n: int): (r: int)
    requires n >= 1
    ensures i >= -n ==> 0 <= r < n
    ensures 0 <= i < n ==> r == i
    ensures i == n ==> r == 0
    ensures i == -1 ==> r == n - 1
  {
    JsRem(i + n, n)
  }

  /** `next()`: `go(idx + 1)`. */
  function SlideNext(idx: int, n: int): (r: int)
    requires n >= 1
    ensures 0 <= idx < n ==> 0 <= r < n
    ensures 0 <= idx < n - 1 ==> r == idx + 1
    ensures idx == n - 1 ==> r == 0
  {
    Wrap(idx + 1, n)
  }

  /** `prev()`: `go(idx - 1)`. */
  function SlidePrev(idx: int, n: int): (r: int)
    requires n >= 1
    ensures 0 <= idx < n ==> 0 <= r < n
    ensures 0 < idx < n ==> r == idx - 1
    ensures idx == 0 ==> r == n - 1
  {
    Wrap(idx - 1, n)
  }

  /** Stepping forward and then back (or back and then forward) returns to
      the slide the widget was showing. */
  lemma NextPrevInverse(idx: int, n: int)
    requires 0 <= idx < n
    ensures SlidePrev(SlideNext(idx, n), n) == idx
    ensures SlideNext(SlidePrev(idx, n), n) == idx
  {
    if idx == n - 1 {
      assert SlideNext(idx, n) == 0;
    } else {
      assert SlideNext(idx, n) == idx + 1;
    }
    if idx == 0 {
      assert SlidePrev(idx, n) == n - 1;
    } else {
      assert SlidePrev(idx, n) == idx - 1;
    }
  }

  /** The hero slider's timer step `idx = (idx + 1) % slides.length`. */
  function HeroStep(idx: int, n: int): (r: int)
    requires n >= 1
    ensures 0 <= idx < n ==> 0 <= r < n
    ensures 0 <= idx < n - 1 ==> r == idx + 1
    ensures idx == n - 1 ==> r == 0
  {
    JsRem(idx + 1, n)
  }

  /** The slide shown after `k` timer ticks. */
  function HeroAfter(idx: int, n: int, k: nat): int
    requires n >= 1
    decreases k
  {
    if k == 0 then idx else HeroAfter(HeroStep(idx, n), n, k - 1)
  }

  /** After `k` ticks the hero slider shows slide `(idx + k) mod n`. */
  lemma {:induction false} HeroOrbit(idx: int, n: int, k: nat)
    requires 0 <= idx < n
    ensures HeroAfter(idx, n, k) == (idx + k) % n
    decreases k
  {
    if k == 0 {
      DivModUnique(idx, n, 0, idx);
    } else {
      var next := HeroStep(idx, n);
      HeroOrbit(next, n, k - 1);
      if idx == n - 1 {
        ModShift(k - 1, n);
        assert k - 1 + n == idx + k;
      } else {
        assert next + (k - 1) == idx + k;
      }
    }
  }

  /** The autoplay comes back to its starting slide after `n` ticks and
      reaches every slide on the way. */
  lemma HeroVisitsEverySlide(idx: int, n: int, target: int)
    requires 0 <= idx < n && 0 <= target < n
    ensures HeroAfter(idx, n, n) == idx
    ensures HeroAfter(idx, n, (target - idx + n) % n) == target
  {
    HeroOrbit(idx, n, n);
    DivModUnique(idx + n, n, 1, idx);
    var k := (target - idx + n) % n;
    HeroOrbit(idx, n, k);
    if idx <= target {
      DivModUnique(target - idx + n, n, 1, target - idx);
      DivModUnique(idx + k, n, 0, target);
    } else {
      DivModUnique(target - idx + n, n, 0, target - idx + n);
      DivModUnique(idx + k, n, 1, target);
    }
  }

  /** The lightbox: how many images it browses, which one it shows, and
      whether it is open. */
  datatype Lightbox = Lightbox(count: nat, index: int, shown: bool)

  /** `open(index)`: nothing happens without images; otherwise the index is
      clamped into the list and the lightbox is shown. */
  function LightboxOpen(lb: Lightbox, i: int): (r: Lightbox)
    ensures r.count == lb.count
    ensures lb.count == 0 ==> r == lb
    ensures lb.count > 0 ==> r.shown && 0 <= r.index < lb.count
    ensures 0 <= i < lb.count ==> r.index == i
    ensures lb.count > 0 && i < 0 ==> r.index == 0
    ensures lb.count > 0 && i >= lb.count ==> r.index == lb.count - 1
  {
    if lb.count == 0 then lb
    else lb.(index := ClampIndex(i, 0, lb.count - 1), shown := true)
  }

  /** `close()`: the lightbox is hidden and keeps its place. */
  function LightboxClose(lb: Lightbox): (r: Lightbox)
    ensures !r.shown && r.count == lb.count && r.index == lb.index
  {
    lb.(shown := false)
  }

  /** `next()`: `open((lightboxIndex + 1) % length)`; with no images the
      remainder is not a number and `open` returns at once. */
  function LightboxNext(lb: Lightbox): (r: Lightbox)
    ensures lb.count == 0 ==> r == lb
    ensures 0 <= lb.index < lb.count - 1 ==> r.index == lb.index + 1 && r.shown
    ensures lb.index == lb.count - 1 >= 0 ==> r.index == 0 && r.shown
  {
    if lb.count == 0 then lb
    else LightboxOpen(lb, JsRem(lb.index + 1, lb.count))
  }

  /** `prev()`: `open((lightboxIndex - 1 + length) % length)`. */
  function LightboxPrev(lb: Lightbox): (r: Lightbox)
    ensures lb.count == 0 ==> r == lb
    ensures 0 < lb.index < lb.count ==> r.index == lb.index - 1 && r.shown
    ensures 0 == lb.index < lb.count ==> r.index == lb.count - 1 && r.shown
  {
    if lb.count == 0 then lb
    else LightboxOpen(lb, JsRem(lb.index - 1 + lb.count, lb.count))
  }

  /** Browsing forward and back in the lightbox returns to the same image. */
  lemma LightboxNextPrev(lb: Lightbox)
    requires 0 <= lb.index < lb.count
    ensures LightboxPrev(LightboxNext(lb)).index == lb.index
    ensures LightboxNext(LightboxPrev(lb)).index == lb.index
  {
    if lb.index == lb.count - 1 {
      assert LightboxNext(lb).index == 0;
    } else {
      assert LightboxNext(lb).index == lb.index + 1;
    }
    if lb.index == 0 {
      assert LightboxPrev(lb).index == lb.count - 1;
    } else {
      assert LightboxPrev(lb).index == lb.index - 1;
    }
  }

  /** Extra size class of a gallery tile. */
  datatype Tile = Regular | Large | Wide

  /** Tile `idx` of the gallery grid is `large` when `idx % 17 == 0`,
      otherwise `wide` when `idx % 11 == 0`. */
  function GalleryTile(idx: nat): (t: Tile)
    ensures t == Large <==> idx % 17 == 0
    ensures t == Wide <==> idx % 11 == 0 && idx % 17 != 0
    ensures t == Regular <==> idx % 11 != 0 && idx % 17 != 0
  {
    if idx % 17 == 0 then Large else if idx % 11 == 0 then Wide else Regular
  }

  /** Two large tiles are at least 17 positions apart. */
  lemma LargeTilesSpaced(i: nat, j: nat)
    requires i < j && GalleryTile(i) == Large && GalleryTile(j) == Large
    ensures j - i >= 17
  {
    var a, b := i / 17, j / 17;
    assert i == 17 * a && j == 17 * b;
    assert a < b;
    assert j - i == 17 * (b - a);
  }

  /** Slide-in direction of a revealed element. */
  datatype Reveal = FromLeft | FromRight | FromBelow

  /** Element `i` of the reveal candidates: chapters and features
      (`paired`) alternate left/right, every other element cycles through
      left, right and up. */
  function RevealDirection(paired: bool, i: nat): (d: Reveal)
    ensures paired ==> d != FromBelow && (d == FromLeft <==> i % 2 == 0)
    ensures !paired ==> (d == FromLeft <==> i % 3 == 0) && (d == FromRight <==> i % 3 == 1)
                        && (d == FromBelow <==> i % 3 == 2)
  {
    if paired then (if i % 2 == 0 then FromLeft else FromRight)
    else if i % 3 == 0 then FromLeft
    else if i % 3 == 1 then FromRight
    else FromBelow
  }

  /** Neighbouring chapters slide in from opposite sides, and any three
      consecutive other elements use all three directions. */
  lemma RevealAlternates(i: nat)
    ensures RevealDirection(true, i) != RevealDirection(true, i + 1)
    ensures {RevealDirection(false, i), RevealDirection(false, i + 1), RevealDirection(false, i + 2)}
            == {FromLeft, FromRight, FromBelow}
  {
    var h := i / 2;
    if i % 2 == 0 {
      DivModUnique(i + 1, 2, h, 1);
    } else {
      DivModUnique(i + 1, 2, h + 1, 0);
    }
    var q := i / 3;
    if i % 3 == 0 {
      DivModUnique(i + 1, 3, q, 1);
      DivModUnique(i + 2, 3, q, 2);
    } else if i % 3 == 1 {
      DivModUnique(i + 1, 3, q, 2);
      DivModUnique(i + 2, 3, q + 1, 0);
    } else {
      DivModUnique(i + 1, 3, q + 1, 0);
      DivModUnique(i + 2, 3, q + 1, 1);
    }
  }
}
