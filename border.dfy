/**
 * The border renderer: the requests that decorate one window as focused or
 * unfocused, in the ringed form (a pixmap with an outer ring and an accent)
 * or the flat form (one border pixel).
 */
module Border {
  import opened Protocol
  import opened Config
  import opened Effects

  function AccentColour(active: bool): Colour {
    if active then FOCUSCOL else UNFOCUSCOL
  }

  /** The accent bands of a border pixmap for a w x h window with border b. */
  function InnerRects(w: int, h: int, b: int, outer: int): (r: seq<Rect>)
    ensures |r| == 5
  {
    [Rect(w, 0, b - outer, h + b - outer),
     Rect(w + b + outer, 0, b - outer, h + b - outer),
     Rect(0, h, w + b - outer, b - outer),
     Rect(0, h + b + outer, w + b - outer, b - outer),
     Rect(w + b + outer, b + h + outer, b, b)]
  }

  /** The outer-ring bands of the same pixmap. */
  function OuterRects(w: int, h: int, b: int, outer: int): (r: seq<Rect>)
    ensures |r| == 5
  {
    [Rect(w + b - outer, 0, outer, h + b * 2),
     Rect(w + b, 0, outer, h + b * 2),
     Rect(0, h + b - outer, w + b * 2, outer),
     Rect(0, h + b, w + b * 2, outer),
     Rect(1, 1, 1, 1)]
  }

  function Right(r: Rect): int { r.x + r.width }

  function Bottom(r: Rect): int { r.y + r.height }

  /**
   * The pixmap tiles the border starting at the window's inner corner, so its
   * columns w .. w+2b cover the right border and then the left one. Across
   * them the bands run accent, ring, ring, accent without gap or overlap: the
   * ring is 2*outer thick where the two borders meet, each accent b-outer.
   * The rows h .. h+2b are laid out the same way, and the ring bands run
   * the whole height (width) of the pixmap.
   */
  lemma RingLayout(w: int, h: int, b: int, outer: int)
    requires 0 <= outer <= b
    ensures var i, o := InnerRects(w, h, b, outer), OuterRects(w, h, b, outer);
      && i[0].x == w && Right(i[0]) == o[0].x && Right(o[0]) == o[1].x
      && Right(o[1]) == i[1].x && Right(i[1]) == w + 2 * b
      && i[2].y == h && Bottom(i[2]) == o[2].y && Bottom(o[2]) == o[3].y
      && Bottom(o[3]) == i[3].y && Bottom(i[3]) == h + 2 * b
      && i[0].width == i[1].width == i[2].height == i[3].height == b - outer
      && o[0].width == o[1].width == o[2].height == o[3].height == outer
      && o[0].y == o[1].y == 0 && Bottom(o[0]) == Bottom(o[1]) == h + 2 * b
      && o[2].x == o[3].x == 0 && Right(o[2]) == Right(o[3]) == w + 2 * b
  {
  }

  /** Flat strategy: one border-pixel change. */
  function FlatBorder(win: Window, active: bool): seq<Request> {
    [SetBorderPixel(win, AccentColour(active))]
  }

  /** A CreatePixmap of the given size and a CreateGC drawing into it. */
  function Creation(win: Window, width: int, height: int): seq<Request> {
    [CreatePixmap(win, width, height), CreateGC(win)]
  }

  /** One ChangeGC of the foreground followed by one PolyFillRectangle. */
  function Painting(win: Window, colour: Colour, rects: seq<Rect>): seq<Request> {
    [SetForeground(win, colour), FillRectangles(win, rects)]
  }

  /** The pixmap becomes the border; then it and its context are freed. */
  function Installation(win: Window): seq<Request> {
    [SetBorderPixmap(win), FreePixmap(win), FreeGC(win)]
  }

  /**
   * Ringed strategy: a pixmap of the window's size plus its border on each
   * side, the ring painted in OUTERCOL, then the accent in the focus colour,
   * installed as the border and released with its graphics context.
   */
  function RingedBorder(win: Window, g: Geometry, active: bool, outer: nat): seq<Request> {
    var w, h, b := g.width, g.height, g.borderWidth;
    Creation(win, w + b * 2, h + b * 2)
      + Painting(win, OUTERCOL, OuterRects(w, h, b, outer))
      + Painting(win, AccentColour(active), InnerRects(w, h, b, outer))
      + Installation(win)
  }

  /**
   * Whether a decoration goes ahead: the ringed build gives up on the null
   * window and on a window without a geometry reply; the flat one never does.
   */
  predicate Decoratable(outer: nat, srv: Server, win: Window) {
    outer == 0 || (win != NONE && win in srv.geometry)
  }

  /** Requests that draw or install a border, or make and free what drawing needs. */
  predicate Drawing(q: Request) {
    q.SetBorderPixel? || q.CreatePixmap? || q.CreateGC? || q.SetForeground? || q.FillRectangles?
    || q.SetBorderPixmap? || q.FreePixmap? || q.FreeGC?
  }

  /** The requests `focus` sends to decorate `win`, or None when it returns early. */
  function Decoration(outer: nat, srv: Server, win: Window, active: bool): (r: Option<seq<Request>>)
    ensures r.Some? <==> Decoratable(outer, srv, win)
    ensures r.Some? ==> forall q :: q in r.value ==> Drawing(q) && q.Target() == Some(win)
  {
    if outer == 0 then Some(FlatBorder(win, active))
    else if win == NONE then None
    else if win !in srv.geometry then None
    else Some(RingedBorder(win, srv.geometry[win], active, outer))
  }

  /** The border a successful decoration leaves on the window. */
  function Installed(outer: nat, srv: Server, win: Window, active: bool): (b: Border)
    requires Decoratable(outer, srv, win)
    ensures Accent(b) == Some(AccentColour(active))
    ensures b.Pixel? <==> outer == 0
    // the ringed border is (w+2b) x (h+2b), the ring painted first and the accent over it
    ensures outer > 0 ==>
      var g := srv.geometry[win];
      && b.pixmap.width == g.width + 2 * g.borderWidth
      && b.pixmap.height == g.height + 2 * g.borderWidth
      && |b.pixmap.paints| == 2
      && b.pixmap.paints[0] == Paint(OUTERCOL, OuterRects(g.width, g.height, g.borderWidth, outer))
      && b.pixmap.paints[1].rects == InnerRects(g.width, g.height, g.borderWidth, outer)
  {
    if outer == 0 then Pixel(AccentColour(active)) else Tiled(RingPixmap(srv.geometry[win], active, outer))
  }

  /**
   * The screen after a successful decoration: the window wears the
   * installed border, the ringed build leaves no pixmap or graphics context
   * of the window behind, and nothing else changes.
   */
  function Redecorated(outer: nat, srv: Server, win: Window, active: bool, sc: Screen): Screen
    requires Decoratable(outer, srv, win)
  {
    sc.(borders := sc.borders[win := Installed(outer, srv, win, active)],
        pixmaps := if outer == 0 then sc.pixmaps else sc.pixmaps - {win},
        gcs := if outer == 0 then sc.gcs else sc.gcs - {win})
  }

  /** One request at the head of a batch is carried out first. */
  lemma ReplayStep(sc: Screen, rs: seq<Request>)
    requires rs != []
    ensures Replay(sc, rs) == Replay(Apply(sc, rs[0]), rs[1..])
  {
  }

  /** The pixmap the ringed strategy paints: the ring first, the accent over it. */
  function RingPixmap(g: Geometry, active: bool, outer: nat): Pixmap {
    var w, h, b := g.width, g.height, g.borderWidth;
    Pixmap(w + b * 2, h + b * 2,
           [Paint(OUTERCOL, OuterRects(w, h, b, outer)), Paint(AccentColour(active), InnerRects(w, h, b, outer))])
  }

  lemma CreationEffect(sc: Screen, win: Window, width: int, height: int)
    requires win !in sc.gone
    ensures Replay(sc, Creation(win, width, height))
         == sc.(pixmaps := sc.pixmaps[win := Pixmap(width, height, [])], gcs := sc.gcs[win := 0])
  {
    var s1 := sc.(pixmaps := sc.pixmaps[win := Pixmap(width, height, [])]);
    assert Apply(sc, CreatePixmap(win, width, height)) == s1;
    assert Apply(s1, CreateGC(win)) == s1.(gcs := sc.gcs[win := 0]);
    ReplayPair(sc, CreatePixmap(win, width, height), CreateGC(win));
  }

  lemma ReplayPair(sc: Screen, r0: Request, r1: Request)
    ensures Replay(sc, [r0, r1]) == Apply(Apply(sc, r0), r1)
  {
    ReplayStep(sc, [r0, r1]);
    ReplayStep(Apply(sc, r0), [r1]);
  }

  lemma PaintingEffect(sc: Screen, win: Window, colour: Colour, rects: seq<Rect>)
    requires win in sc.pixmaps && win in sc.gcs && win !in sc.gone
    ensures var p := sc.pixmaps[win];
      Replay(sc, Painting(win, colour, rects))
        == sc.(pixmaps := sc.pixmaps[win := p.(paints := p.paints + [Paint(colour, rects)])],
               gcs := sc.gcs[win := colour])
  {
    var s1 := sc.(gcs := sc.gcs[win := colour]);
    assert Apply(sc, SetForeground(win, colour)) == s1;
    var p := sc.pixmaps[win];
    assert s1.pixmaps[win] == p && s1.gcs[win] == colour;
    assert Apply(s1, FillRectangles(win, rects)) == s1.(pixmaps := sc.pixmaps[win := p.(paints := p.paints + [Paint(colour, rects)])]);
    ReplayPair(sc, SetForeground(win, colour), FillRectangles(win, rects));
  }

  lemma InstallationEffect(sc: Screen, win: Window)
    requires win in sc.pixmaps && win !in sc.gone
    ensures Replay(sc, Installation(win))
         == sc.(borders := sc.borders[win := Tiled(sc.pixmaps[win])], pixmaps := sc.pixmaps - {win}, gcs := sc.gcs - {win})
  {
    var s1 := sc.(borders := sc.borders[win := Tiled(sc.pixmaps[win])]);
    assert Apply(sc, SetBorderPixmap(win)) == s1;
    var s2 := s1.(pixmaps := sc.pixmaps - {win});
    assert Apply(s1, FreePixmap(win)) == s2;
    assert Apply(s2, FreeGC(win)) == s2.(gcs := sc.gcs - {win});
    ReplayStep(sc, Installation(win));
    assert Installation(win)[1..] == [FreePixmap(win), FreeGC(win)];
    ReplayPair(s1, FreePixmap(win), FreeGC(win));
  }

  /** Four batches carried out one after another. */
  lemma ReplayFour(sc: Screen, a: seq<Request>, b: seq<Request>, c: seq<Request>, d: seq<Request>,
                   s1: Screen, s2: Screen, s3: Screen)
    requires Replay(sc, a) == s1 && Replay(s1, b) == s2 && Replay(s2, c) == s3
    ensures Replay(sc, a + b + c + d) == Replay(s3, d)
  {
    ReplayAppend(sc, a + b + c, d);
    ReplayAppend(sc, a + b, c);
    ReplayAppend(sc, a, b);
  }

  /** The ringed requests are four batches built from the pixmap they paint. */
  lemma RingedBatches(win: Window, g: Geometry, active: bool, outer: nat)
    ensures var p := RingPixmap(g, active, outer);
      RingedBorder(win, g, active, outer)
        == Creation(win, p.width, p.height)
           + Painting(win, p.paints[0].colour, p.paints[0].rects)
           + Painting(win, p.paints[1].colour, p.paints[1].rects)
           + Installation(win)
  {
  }

  /** A key written and then dropped leaves the map as if it had only been dropped. */
  lemma DropUpdated<V>(m: map<Window, V>, win: Window, v: V)
    ensures m[win := v] - {win} == m - {win}
  {
  }

  /** What the four batches of a ringed decoration leave behind, for any two-paint pixmap. */
  lemma BatchesEffect(sc: Screen, win: Window, width: int, height: int, a: Paint, b: Paint)
    requires win !in sc.gone
    ensures Replay(sc, Creation(win, width, height)
                       + Painting(win, a.colour, a.rects)
                       + Painting(win, b.colour, b.rects)
                       + Installation(win))
         == sc.(borders := sc.borders[win := Tiled(Pixmap(width, height, [a, b]))],
                pixmaps := sc.pixmaps - {win}, gcs := sc.gcs - {win})
  {
    var s1 := sc.(pixmaps := sc.pixmaps[win := Pixmap(width, height, [])], gcs := sc.gcs[win := 0]);
    CreationEffect(sc, win, width, height);
    PaintingEffect(s1, win, a.colour, a.rects);
    assert [] + [a] == [a];
    var s2 := s1.(pixmaps := s1.pixmaps[win := Pixmap(width, height, [a])], gcs := s1.gcs[win := a.colour]);
    PaintingEffect(s2, win, b.colour, b.rects);
    assert [a] + [b] == [a, b];
    var s3 := s2.(pixmaps := s2.pixmaps[win := Pixmap(width, height, [a, b])], gcs := s2.gcs[win := b.colour]);
    ReplayFour(sc, Creation(win, width, height), Painting(win, a.colour, a.rects),
               Painting(win, b.colour, b.rects), Installation(win), s1, s2, s3);
    InstallationEffect(s3, win);
    DropUpdated(s2.pixmaps, win, Pixmap(width, height, [a, b]));
    DropUpdated(s1.pixmaps, win, Pixmap(width, height, [a]));
    DropUpdated(sc.pixmaps, win, Pixmap(width, height, []));
    DropUpdated(s2.gcs, win, b.colour);
    DropUpdated(s1.gcs, win, a.colour);
    DropUpdated(sc.gcs, win, 0);
  }

  /** What the ringed requests leave behind. */
  lemma RingedEffect(sc: Screen, win: Window, g: Geometry, active: bool, outer: nat)
    requires win !in sc.gone
    ensures Replay(sc, RingedBorder(win, g, active, outer))
         == sc.(borders := sc.borders[win := Tiled(RingPixmap(g, active, outer))],
                pixmaps := sc.pixmaps - {win}, gcs := sc.gcs - {win})
  {
    var p := RingPixmap(g, active, outer);
    RingedBatches(win, g, active, outer);
    BatchesEffect(sc, win, p.width, p.height, p.paints[0], p.paints[1]);
    assert [p.paints[0], p.paints[1]] == p.paints;
  }

  /**
   * A decoration changes the border of `win` and nothing else: the ringed one
   * leaves no pixmap or graphics context of its own behind, and neither
   * touches the input focus or the pointer grab. Once `win` is destroyed it
   * changes nothing at all.
   */
  lemma DecorationEffect(outer: nat, srv: Server, win: Window, active: bool, sc: Screen)
    requires Decoratable(outer, srv, win)
    ensures Replay(sc, Decoration(outer, srv, win, active).value)
         == if win in sc.gone then sc else Redecorated(outer, srv, win, active, sc)
  {
    if win in sc.gone {
      ReplayGone(sc, win, Decoration(outer, srv, win, active).value);
    } else if outer == 0 {
      ReplayStep(sc, FlatBorder(win, active));
    } else {
      RingedEffect(sc, win, srv.geometry[win], active, outer);
    }
  }

  /** Occurrences of requests of one kind. */
  function Count(rs: seq<Request>, kind: Request -> bool): nat {
    if rs == [] then 0 else (if kind(rs[0]) then 1 else 0) + Count(rs[1..], kind)
  }

  function One(b: bool): nat { if b then 1 else 0 }

  lemma {:induction false} CountAppend(a: seq<Request>, b: seq<Request>, kind: Request -> bool)
    ensures Count(a + b, kind) == Count(a, kind) + Count(b, kind)
    decreases |a|
  {
    if a == [] {
      assert a + b == b;
    } else {
      assert (a + b)[1..] == a[1..] + b;
      CountAppend(a[1..], b, kind);
    }
  }

  lemma CountSingle(r: Request, kind: Request -> bool)
    ensures Count([r], kind) == One(kind(r))
  {
    assert [r][1..] == [];
  }

  lemma CountPair(r0: Request, r1: Request, kind: Request -> bool)
    ensures Count([r0, r1], kind) == One(kind(r0)) + One(kind(r1))
  {
    assert [r0, r1][1..] == [r1];
    CountSingle(r1, kind);
  }

  lemma CountTriple(r0: Request, r1: Request, r2: Request, kind: Request -> bool)
    ensures Count([r0, r1, r2], kind) == One(kind(r0)) + One(kind(r1)) + One(kind(r2))
  {
    assert [r0, r1, r2][1..] == [r1, r2];
    CountPair(r1, r2, kind);
  }

  /** The nine ringed requests counted one by one. */
  lemma RingedCount(win: Window, g: Geometry, active: bool, outer: nat, kind: Request -> bool)
    ensures var p := RingPixmap(g, active, outer);
      Count(RingedBorder(win, g, active, outer), kind)
        == One(kind(CreatePixmap(win, p.width, p.height))) + One(kind(CreateGC(win)))
           + One(kind(SetForeground(win, p.paints[0].colour))) + One(kind(FillRectangles(win, p.paints[0].rects)))
           + One(kind(SetForeground(win, p.paints[1].colour))) + One(kind(FillRectangles(win, p.paints[1].rects)))
           + One(kind(SetBorderPixmap(win))) + One(kind(FreePixmap(win))) + One(kind(FreeGC(win)))
  {
    var p := RingPixmap(g, active, outer);
    var a := Creation(win, p.width, p.height);
    var b := Painting(win, p.paints[0].colour, p.paints[0].rects);
    var c := Painting(win, p.paints[1].colour, p.paints[1].rects);
    var d := Installation(win);
    RingedBatches(win, g, active, outer);
    CountAppend(a + b + c, d, kind);
    CountAppend(a + b, c, kind);
    CountAppend(a, b, kind);
    CountPair(CreatePixmap(win, p.width, p.height), CreateGC(win), kind);
    CountPair(SetForeground(win, p.paints[0].colour), FillRectangles(win, p.paints[0].rects), kind);
    CountPair(SetForeground(win, p.paints[1].colour), FillRectangles(win, p.paints[1].rects), kind);
    CountTriple(SetBorderPixmap(win), FreePixmap(win), FreeGC(win), kind);
  }

  predicate IsBorderPixel(r: Request) { r.SetBorderPixel? }

  predicate IsCreatePixmap(r: Request) { r.CreatePixmap? }

  predicate IsFreePixmap(r: Request) { r.FreePixmap? }

  predicate IsBorderPixmap(r: Request) { r.SetBorderPixmap? }

  /**
   * Strategy selection: the flat build sends exactly one request per
   * decoration, a border-pixel change; the ringed build creates, installs
   * and frees exactly one pixmap and sends no border-pixel change.
   */
  lemma StrategyRequests(outer: nat, srv: Server, win: Window, active: bool)
    requires Decoratable(outer, srv, win)
    ensures var d := Decoration(outer, srv, win, active).value;
      if outer == 0 then
        |d| == 1 && IsBorderPixel(d[0])
      else
        && Count(d, IsBorderPixel) == 0
        && Count(d, IsCreatePixmap) == 1
        && Count(d, IsBorderPixmap) == 1
        && Count(d, IsFreePixmap) == 1
  {
    if outer > 0 {
      var g := srv.geometry[win];
      RingedCount(win, g, active, outer, IsBorderPixel);
      RingedCount(win, g, active, outer, IsCreatePixmap);
      RingedCount(win, g, active, outer, IsBorderPixmap);
      RingedCount(win, g, active, outer, IsFreePixmap);
    }
  }
}
