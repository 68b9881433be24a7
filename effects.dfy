/**
 * What the window manager's requests do to the server-side state it cares
 * about: the border each window shows, the live pixmaps and graphics
 * contexts, the input focus, the pointer grab and the windows already
 * destroyed. Requests that only move, stack or map windows leave this state
 * alone, and the server refuses every request naming a destroyed window.
 */
module Effects {
  import opened Protocol
  import opened Config

  /** One PolyFillRectangle into a pixmap: the foreground it used and its rectangles. */
  datatype Paint = Paint(colour: Colour, rects: seq<Rect>)

  datatype Pixmap = Pixmap(width: int, height: int, paints: seq<Paint>)

  /** A window border: one pixel value, or a copy of a pixmap tiled around the window. */
  datatype Border = Pixel(colour: Colour) | Tiled(pixmap: Pixmap)

  datatype Screen = Screen(
    borders: map<Window, Border>,
    pixmaps: map<Window, Pixmap>,
    gcs: map<Window, Colour>,       // live graphics contexts and their foreground
    inputFocus: Option<Window>,     // None until the window manager first sets it
    grabbed: bool,
    gone: set<Window>)              // windows whose clients have been killed

  const Initial: Screen := Screen(map[], map[], map[], None, false, {})

  /**
   * One request carried out. A request naming a destroyed window fails
   * (BadWindow or BadDrawable) and changes nothing.
   */
  function Apply(sc: Screen, r: Request): Screen {
    if r.Target().Some? && r.Target().value in sc.gone then sc
    else match r
    case SetBorderPixel(w, c) => sc.(borders := sc.borders[w := Pixel(c)])
    case CreatePixmap(w, width, height) => sc.(pixmaps := sc.pixmaps[w := Pixmap(width, height, [])])
    case CreateGC(w) => sc.(gcs := sc.gcs[w := 0])
    case SetForeground(w, c) => if w in sc.gcs then sc.(gcs := sc.gcs[w := c]) else sc
    case FillRectangles(w, rects) =>
      if w in sc.pixmaps && w in sc.gcs then
        var p := sc.pixmaps[w];
        sc.(pixmaps := sc.pixmaps[w := p.(paints := p.paints + [Paint(sc.gcs[w], rects)])])
      else sc
    case SetBorderPixmap(w) =>
      if w in sc.pixmaps then sc.(borders := sc.borders[w := Tiled(sc.pixmaps[w])]) else sc
    case FreePixmap(w) => sc.(pixmaps := sc.pixmaps - {w})
    case FreeGC(w) => sc.(gcs := sc.gcs - {w})
    case SetInputFocus(w) => sc.(inputFocus := Some(w))
    // the window is already destroyed when its client is killed: it wears no border any more
    case KillClient(w) => sc.(borders := sc.borders - {w}, gone := sc.gone + {w})
    case GrabPointer => sc.(grabbed := true)
    case UngrabPointer => sc.(grabbed := false)
    case _ => sc
  }

  /** The screen after the server has carried out `rs` in order. */
  function Replay(sc: Screen, rs: seq<Request>): Screen
    decreases |rs|
  {
    if rs == [] then sc else Replay(Apply(sc, rs[0]), rs[1..])
  }

  /** Carrying out two batches one after the other is carrying out their concatenation. */
  lemma {:induction false} ReplayAppend(sc: Screen, a: seq<Request>, b: seq<Request>)
    ensures Replay(sc, a + b) == Replay(Replay(sc, a), b)
    decreases |a|
  {
    if a == [] {
      assert a + b == b;
    } else {
      assert (a + b)[0] == a[0];
      assert (a + b)[1..] == a[1..] + b;
      ReplayAppend(Apply(sc, a[0]), a[1..], b);
    }
  }

  /** A batch followed by an ungrab ends with the pointer free and nothing else changed by the ungrab. */
  lemma ReplayUngrab(sc: Screen, rs: seq<Request>)
    ensures Replay(sc, rs + [UngrabPointer]) == Replay(sc, rs).(grabbed := false)
  {
    var x := Replay(sc, rs);
    ReplayAppend(sc, rs, [UngrabPointer]);
    ApplyUngrab(x);
    assert Replay(x, [UngrabPointer]) == Replay(Apply(x, UngrabPointer), []);
  }

  /** An ungrab frees the pointer and changes nothing else. */
  lemma ApplyUngrab(sc: Screen)
    ensures Apply(sc, UngrabPointer) == sc.(grabbed := false)
  {
  }

  /** Requests that change nothing this model keeps track of. */
  predicate Inert(q: Request) {
    q.SelectInput? || q.SetBorderWidth? || q.MapWindow? || q.Raise?
    || q.WarpPointer? || q.MoveWindow? || q.ResizeWindow?
  }

  /** A batch of inert requests leaves the screen as it was. */
  lemma {:induction false} ReplayInert(sc: Screen, rs: seq<Request>)
    requires forall q :: q in rs ==> Inert(q)
    ensures Replay(sc, rs) == sc
    decreases |rs|
  {
    if rs != [] {
      assert rs[0] in rs;
      assert forall q :: q in rs[1..] ==> q in rs;
      ReplayInert(sc, rs[1..]);
    }
  }

  /** A batch of requests all naming one destroyed window changes nothing. */
  lemma {:induction false} ReplayGone(sc: Screen, w: Window, rs: seq<Request>)
    requires w in sc.gone
    requires forall q :: q in rs ==> q.Target() == Some(w)
    ensures Replay(sc, rs) == sc
    decreases |rs|
  {
    if rs != [] {
      assert rs[0] in rs;
      assert forall q :: q in rs[1..] ==> q in rs;
      ReplayGone(sc, w, rs[1..]);
    }
  }

  /** A window is recorded as destroyed only by a KillClient for it. */
  lemma {:induction false} GoneKilled(sc: Screen, rs: seq<Request>, w: Window)
    requires w in Replay(sc, rs).gone
    ensures w in sc.gone || KillClient(w) in rs
    decreases |rs|
  {
    if rs != [] {
      GoneKilled(Apply(sc, rs[0]), rs[1..], w);
      ApplyGone(sc, rs[0], w);
      assert forall q :: q in rs[1..] ==> q in rs;
    }
  }

  /** One request records `w` as destroyed only if it is a KillClient for `w`. */
  lemma ApplyGone(sc: Screen, q: Request, w: Window)
    ensures w in Apply(sc, q).gone ==> w in sc.gone || q == KillClient(w)
  {
  }

  /** The colour next to the window: the pixel, or the last paint of the tiled pixmap. */
  function Accent(b: Border): Option<Colour> {
    match b
    case Pixel(c) => Some(c)
    case Tiled(p) => if p.paints == [] then None else Some(p.paints[|p.paints| - 1].colour)
  }

  predicate ShowsFocus(b: Border) {
    Accent(b) == Some(FOCUSCOL)
  }
}
