/** What the event loop does with each kind of notification. */
module Handling {
  import opened Protocol
  import opened Config
  import opened Effects
  import opened Border
  import opened Drag
  import opened WindowManager
  import opened Properties

  /** A create or map notification for an override-redirect window is ignored altogether. */
  lemma OverrideRedirectIgnored(cfg: Setup, srv: Server, s: State, w: Window)
    ensures Dispatch(cfg, srv, s, CreateNotify(w, true)) == s
    ensures Dispatch(cfg, srv, s, MapNotify(w, true)) == s
  {
  }

  /**
   * A create notification for a managed window subscribes it (enter events,
   * the configured border width) before focusing it; the window ends up
   * focused whenever it can be decorated.
   */
  lemma CreateSubscribesThenFocuses(cfg: Setup, srv: Server, s: State, w: Window)
    ensures var t := Dispatch(cfg, srv, s, CreateNotify(w, false));
      && |Sent(s, t)| >= 2
      && Sent(s, t)[..2] == [SelectInput(w, {EnterWindow}), SetBorderWidth(w, BORDERWIDTH)]
      && t.focus == (if Decoratable(cfg.outer, srv, w) then w else s.focus)
      && t.mode == s.mode && t.dragWin == s.dragWin
  {
    var u := Subscribed(s, w);
    var t := Dispatch(cfg, srv, s, CreateNotify(w, false));
    SentChain(s, u, t);
  }

  /** A map notification for a managed window maps it before focusing it. */
  lemma MapMapsThenFocuses(cfg: Setup, srv: Server, s: State, w: Window)
    ensures var t := Dispatch(cfg, srv, s, MapNotify(w, false));
      && |Sent(s, t)| >= 1
      && Sent(s, t)[0] == MapWindow(w)
      && t.focus == (if Decoratable(cfg.outer, srv, w) then w else s.focus)
  {
    var u := s.(log := s.log + [MapWindow(w)]);
    var t := Dispatch(cfg, srv, s, MapNotify(w, false));
    SentChain(s, u, t);
  }

  /**
   * A destroy notification only asks the server to kill the client; the
   * window is recorded as destroyed and, unless it already was, left
   * without a border.
   */
  lemma DestroyKills(cfg: Setup, srv: Server, s: State, w: Window, sc: Screen)
    ensures var t := Dispatch(cfg, srv, s, DestroyNotify(w));
      var after := Replay(sc, Sent(s, t));
      && Sent(s, t) == [KillClient(w)] && t.focus == s.focus && t.mode == s.mode
      && w in after.gone
      && (w !in sc.gone ==> after.borders == sc.borders - {w} && after.gone == sc.gone + {w})
  {
    ReplayOne(sc, KillClient(w));
  }

  /**
   * A press on no window or on the root records it as the drag target but
   * sends nothing and keeps the drag mode.
   */
  lemma PressOnRoot(cfg: Setup, srv: Server, s: State, child: Window, detail: nat)
    requires child == NONE || child == cfg.root
    ensures var t := Dispatch(cfg, srv, s, ButtonPress(child, detail));
      Sent(s, t) == [] && t.mode == s.mode && t.dragWin == child && t.focus == s.focus
  {
  }

  /**
   * A press on a client raises it, warps the pointer to its centre (button
   * 1, a move) or to its bottom-right corner (any other button, a resize),
   * and grabs the pointer.
   */
  lemma PressOnClient(cfg: Setup, srv: Server, s: State, child: Window, detail: nat)
    requires child != NONE && child != cfg.root && child in srv.geometry
    ensures var t := Dispatch(cfg, srv, s, ButtonPress(child, detail));
      var g := srv.geometry[child];
      && |Sent(s, t)| == 3
      && Sent(s, t)[0] == Raise(child)
      && Sent(s, t)[1].WarpPointer? && Sent(s, t)[1].win == child
      && (detail == 1 ==> 2 * Sent(s, t)[1].x <= g.width < 2 * Sent(s, t)[1].x + 2
                          && 2 * Sent(s, t)[1].y <= g.height < 2 * Sent(s, t)[1].y + 2)
      && (detail != 1 ==> Sent(s, t)[1].x == g.width && Sent(s, t)[1].y == g.height)
      && Sent(s, t)[2] == GrabPointer
      && t.mode == (if detail == 1 then Move else Resize)
      && t.dragWin == child
  {
  }

  /** Pointer motion outside a drag does nothing. */
  lemma MotionIdle(cfg: Setup, srv: Server, s: State)
    requires s.mode == Idle
    ensures Dispatch(cfg, srv, s, MotionNotify) == s
  {
  }

  /** In a move, motion without a geometry reply for the target sends nothing and changes nothing. */
  lemma MoveWithoutReply(cfg: Setup, srv: Server, s: State)
    requires s.mode == Move && s.dragWin !in srv.geometry
    ensures Dispatch(cfg, srv, s, MotionNotify) == s
  {
  }

  /**
   * In a move, the target is re-placed once, each axis by the clamp of the
   * pointer: centred on it, or pinned to an edge. A window that fits on the
   * screen is placed with its origin on the screen, at most one pixel of an
   * odd-sized window hanging past the far edges.
   */
  lemma MoveOnScreen(cfg: Setup, srv: Server, s: State)
    requires s.mode == Move && s.dragWin in srv.geometry
    ensures var t := Dispatch(cfg, srv, s, MotionNotify);
      var g := srv.geometry[s.dragWin];
      && |Sent(s, t)| == 1
      && Sent(s, t)[0]
         == MoveWindow(s.dragWin, ClampAxis(srv.pointer.x, g.width, cfg.width),
                       ClampAxis(srv.pointer.y, g.height, cfg.height))
      && (g.width + 2 * BORDERWIDTH <= cfg.width ==>
            0 <= Sent(s, t)[0].x <= cfg.width - 2 * BORDERWIDTH - 2 * (g.width / 2))
      && (g.height + 2 * BORDERWIDTH <= cfg.height ==>
            0 <= Sent(s, t)[0].y <= cfg.height - 2 * BORDERWIDTH - 2 * (g.height / 2))
      && t.mode == Move && t.dragWin == s.dragWin && t.focus == s.focus
  {
  }

  /**
   * In a resize, the target is given, as inside size, the pointer's offset
   * from its outer origin, without any clamping.
   */
  lemma ResizeToPointer(cfg: Setup, srv: Server, s: State)
    requires s.mode == Resize && s.dragWin in srv.geometry
    ensures var t := Dispatch(cfg, srv, s, MotionNotify);
      var g := srv.geometry[s.dragWin];
      && |Sent(s, t)| == 1
      && Sent(s, t)[0].ResizeWindow? && Sent(s, t)[0].win == s.dragWin
      && g.x + Sent(s, t)[0].width == srv.pointer.x
      && g.y + Sent(s, t)[0].height == srv.pointer.y
      && t.mode == Resize
  {
  }

  /**
   * A button release focuses the drag target and then releases the pointer
   * grab; the drag mode is left as it was.
   */
  lemma ReleaseFocusesAndUngrabs(cfg: Setup, srv: Server, s: State, sc: Screen)
    ensures var t := Dispatch(cfg, srv, s, ButtonRelease);
      && |Sent(s, t)| >= 1
      && Sent(s, t)[|Sent(s, t)| - 1] == UngrabPointer
      && !Replay(sc, Sent(s, t)).grabbed
      && t.focus == (if Decoratable(cfg.outer, srv, s.dragWin) then s.dragWin else s.focus)
      && t.mode == s.mode && t.dragWin == s.dragWin
  {
    var u := FocusStep(cfg, srv, s, s.dragWin, true);
    var t := Dispatch(cfg, srv, s, ButtonRelease);
    SentAppended(u, [UngrabPointer]);
    SentChain(s, u, t);
    ReleaseSteps(cfg, srv, s, sc);
  }

  /**
   * After a configure notification the configured window is the focused
   * one, whenever it can be decorated; otherwise the focus stays.
   */
  lemma ConfigureFocuses(cfg: Setup, srv: Server, s: State, w: Window)
    ensures var t := Dispatch(cfg, srv, s, ConfigureNotify(w));
      t.focus == (if Decoratable(cfg.outer, srv, w) then w else s.focus)
  {
  }

  /**
   * The drag target is never cleared: a move, its release and a press on
   * the root leave the dispatcher in move mode with the root as target.
   */
  lemma StaleDragTarget(cfg: Setup, srv: Server, s: State, c: Window)
    requires c != NONE && c != cfg.root && c in srv.geometry
    ensures var t1 := Dispatch(cfg, srv, s, ButtonPress(c, 1));
      var t2 := Dispatch(cfg, srv, t1, ButtonRelease);
      var t3 := Dispatch(cfg, srv, t2, ButtonPress(cfg.root, 1));
      t3.mode == Move && t3.dragWin == cfg.root
  {
  }

}
