/** The window-overlap test of hcam_widgets/misc.py: two rectangular CCD
    windows, each given by its lower-left pixel and its size. */
module Windows {

  /** A window with lower-left pixel `(xl, yl)` and size `nx` by `ny`. */
  datatype Window = Window(xl: int, yl: int, nx: int, ny: int)

  /** `overlap(xl1, yl1, nx1, ny1, xl2, yl2, nx2, ny2)`, comparison for
      comparison. */
  predicate Overlap(w1: Window, w2: Window) {
    && w2.xl < w1.xl + w1.nx && w2.xl + w2.nx > w1.xl
    && w2.yl < w1.yl + w1.ny && w2.yl + w2.ny > w1.yl
  }

  /** Pixel `(x, y)` lies in the half-open window `[xl, xl+nx) × [yl, yl+ny)`. */
  predicate Contains(w: Window, x: int, y: int) {
    w.xl <= x < w.xl + w.nx && w.yl <= y < w.yl + w.ny
  }

  /** A pixel common to two windows, when there is one: the larger of the
      lower-left corners. */
  function CommonCorner(w1: Window, w2: Window): (p: (int, int))
    ensures Overlap(w1, w2) && w1.nx > 0 && w1.ny > 0 && w2.nx > 0 && w2.ny > 0
      ==> Contains(w1, p.0, p.1) && Contains(w2, p.0, p.1)
  {
    (if w1.xl < w2.xl then w2.xl else w1.xl, if w1.yl < w2.yl then w2.yl else w1.yl)
  }

  /** Swapping the windows does not change the answer. */
  lemma OverlapSymmetric(w1: Window, w2: Window)
    ensures Overlap(w1, w2) <==> Overlap(w2, w1)
  {
  }

  /** For windows of positive size the test is exactly "some pixel lies in
      both windows". */
  lemma OverlapIffCommonPixel(w1: Window, w2: Window)
    requires w1.nx > 0 && w1.ny > 0 && w2.nx > 0 && w2.ny > 0
    ensures Overlap(w1, w2) <==> exists x, y :: Contains(w1, x, y) && Contains(w2, x, y)
  {
    if Overlap(w1, w2) {
      var p := CommonCorner(w1, w2);
      assert Contains(w1, p.0, p.1) && Contains(w2, p.0, p.1);
    }
  }

  /** Windows that only share an edge, side by side or one above the other,
      do not overlap. */
  lemma SharedEdgeNoOverlap(w1: Window, w2: Window)
    requires w2.xl == w1.xl + w1.nx || w2.yl == w1.yl + w1.ny
      || w1.xl == w2.xl + w2.nx || w1.yl == w2.yl + w2.ny
    ensures !Overlap(w1, w2)
  {
  }
}
