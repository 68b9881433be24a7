/**
 * What the window manager promises: the effect of `focus`, the answer to
 * each notification, and the single-focus invariant over a whole run.
 */
module Properties {
  import opened Protocol
  import opened Config
  import opened Effects
  import opened Border
  import opened Drag
  import opened WindowManager

  /** Sending on from `s` to `u` and then to `t` sends both stretches, in order. */
  lemma SentChain(s: State, u: State, t: State)
    requires Extends(s, u) && Extends(u, t)
    ensures Extends(s, t) && Sent(s, t) == Sent(s, u) + Sent(u, t)
  {
    assert t.log == s.log + Sent(s, u) + Sent(u, t);
  }

  /** Appending a batch sends exactly that batch. */
  lemma SentAppended(s: State, rs: seq<Request>)
    ensures Extends(s, s.(log := s.log + rs)) && Sent(s, s.(log := s.log + rs)) == rs
  {
  }

  /** A one-request batch is carried out by `Apply`. */
  lemma ReplayOne(sc: Screen, q: Request)
    ensures Replay(sc, [q]) == Apply(sc, q)
  {
    ReplayStep(sc, [q]);
  }

  /**
   * `focus(win, false)` only redecorates `win`: the focused window is kept,
   * the input focus is never set, and the screen changes only by the
   * unfocused decoration of `win`, when it can be drawn and `win` still
   * exists.
   */
  lemma FocusPassive(cfg: Setup, srv: Server, s: State, win: Window, sc: Screen)
    ensures var t := FocusStep(cfg, srv, s, win, false);
      && t.focus == s.focus
      && (forall q :: q in Sent(s, t) ==> q.Target() == Some(win) && !q.SetInputFocus?)
      && Replay(sc, Sent(s, t))
         == (if Decoratable(cfg.outer, srv, win) && win !in sc.gone
             then Redecorated(cfg.outer, srv, win, false, sc)
             else sc)
  {
    var t := FocusStep(cfg, srv, s, win, false);
    if Decoratable(cfg.outer, srv, win) {
      var d := Decoration(cfg.outer, srv, win, false).value;
      SentAppended(s, d);
      assert t == s.(log := s.log + d);
      DecorationEffect(cfg.outer, srv, win, false, sc);
    } else {
      assert Sent(s, t) == [];
    }
  }

  /**
   * The first two steps of `focus(win, true)`: decorate as focused, then give
   * the input focus; the server refuses both for a destroyed window.
   */
  lemma FocusGiven(cfg: Setup, srv: Server, s: State, win: Window, sc: Screen)
    requires Decoratable(cfg.outer, srv, win)
    ensures var d := Decoration(cfg.outer, srv, win, true).value;
      var given := s.(log := s.log + d + [SetInputFocus(win)]);
      && Extends(s, given)
      && (forall q :: q in Sent(s, given) ==> q.Target() == Some(win))
      && Replay(sc, Sent(s, given))
         == if win in sc.gone then sc else Redecorated(cfg.outer, srv, win, true, sc).(inputFocus := Some(win))
  {
    var d := Decoration(cfg.outer, srv, win, true).value;
    var given := s.(log := s.log + d + [SetInputFocus(win)]);
    assert given.log == s.log + (d + [SetInputFocus(win)]);
    SentAppended(s, d + [SetInputFocus(win)]);
    ReplayAppend(sc, d, [SetInputFocus(win)]);
    DecorationEffect(cfg.outer, srv, win, true, sc);
    ReplayOne(Replay(sc, d), SetInputFocus(win));
  }

  /**
   * The screen `focus(win, true)` leaves behind when `win` still exists: `win`
   * decorated as focused with the input focus, then the previously focused
   * window `prev` decorated as unfocused when it is another window that
   * can be drawn and still exists.
   */
  function Refocused(cfg: Setup, srv: Server, prev: Window, win: Window, sc: Screen): Screen
    requires Decoratable(cfg.outer, srv, win)
  {
    var lit := Redecorated(cfg.outer, srv, win, true, sc).(inputFocus := Some(win));
    if win != prev && Decoratable(cfg.outer, srv, prev) && prev !in sc.gone
    then Redecorated(cfg.outer, srv, prev, false, lit)
    else lit
  }

  /** The requests of `focus(win, true)` leave `Refocused` behind. */
  lemma FocusRefocuses(cfg: Setup, srv: Server, s: State, win: Window, sc: Screen)
    requires Decoratable(cfg.outer, srv, win) && win !in sc.gone
    ensures var t := FocusStep(cfg, srv, s, win, true);
      && t.focus == win
      && Replay(sc, Sent(s, t)) == Refocused(cfg, srv, s.focus, win, sc)
      && (win == s.focus ==> forall q :: q in Sent(s, t) ==> q.Target() == Some(win))
  {
    var t := FocusStep(cfg, srv, s, win, true);
    var d := Decoration(cfg.outer, srv, win, true).value;
    var given := s.(log := s.log + d + [SetInputFocus(win)]);
    var sc1 := Redecorated(cfg.outer, srv, win, true, sc).(inputFocus := Some(win));
    FocusGiven(cfg, srv, s, win, sc);
    if win == s.focus {
      assert t == given;
    } else {
      var inner := FocusStep(cfg, srv, given, s.focus, false);
      assert t == inner.(focus := win);
      SentChain(s, given, inner);
      ReplayAppend(sc, Sent(s, given), Sent(given, inner));
      FocusPassive(cfg, srv, given, s.focus, sc1);
    }
  }

  /**
   * `focus(win, true)` on a window it can decorate and that still exists:
   * `win` becomes the focused window and gets the input focus; the
   * previously focused window, when it differs, is decorated as unfocused
   * after `win` is decorated as focused; when it is the same window no other
   * window is touched. No pixmap or graphics context outlives the call.
   */
  lemma FocusActive(cfg: Setup, srv: Server, s: State, win: Window, sc: Screen)
    requires Decoratable(cfg.outer, srv, win) && win !in sc.gone
    ensures var t := FocusStep(cfg, srv, s, win, true);
      var after := Replay(sc, Sent(s, t));
      var lit := sc.borders[win := Installed(cfg.outer, srv, win, true)];
      && t.focus == win
      && after.inputFocus == Some(win)
      && after.grabbed == sc.grabbed
      && after.gone == sc.gone
      && after.borders
         == (if win != s.focus && Decoratable(cfg.outer, srv, s.focus) && s.focus !in sc.gone
             then lit[s.focus := Installed(cfg.outer, srv, s.focus, false)]
             else lit)
      && (sc.pixmaps == map[] ==> after.pixmaps == map[])
      && (sc.gcs == map[] ==> after.gcs == map[])
      && (win == s.focus ==> forall q :: q in Sent(s, t) ==> q.Target() == Some(win))
  {
    FocusRefocuses(cfg, srv, s, win, sc);
  }

  /**
   * `focus(win, true)` on a destroyed window: the server refuses its
   * decoration and its input focus, but `win` still becomes the focused
   * window and the previously focused one, when it differs, is still
   * decorated as unfocused.
   */
  lemma FocusOnDestroyed(cfg: Setup, srv: Server, s: State, win: Window, sc: Screen)
    requires Decoratable(cfg.outer, srv, win) && win in sc.gone
    ensures var t := FocusStep(cfg, srv, s, win, true);
      && t.focus == win
      && Replay(sc, Sent(s, t))
         == if win != s.focus && Decoratable(cfg.outer, srv, s.focus) && s.focus !in sc.gone
            then Redecorated(cfg.outer, srv, s.focus, false, sc)
            else sc
  {
    var t := FocusStep(cfg, srv, s, win, true);
    var d := Decoration(cfg.outer, srv, win, true).value;
    var given := s.(log := s.log + d + [SetInputFocus(win)]);
    FocusGiven(cfg, srv, s, win, sc);
    if win != s.focus {
      var inner := FocusStep(cfg, srv, given, s.focus, false);
      assert t == inner.(focus := win);
      SentChain(s, given, inner);
      ReplayAppend(sc, Sent(s, given), Sent(given, inner));
      FocusPassive(cfg, srv, given, s.focus, sc);
    }
  }

  /**
   * The requests of `focus(win, true)` in order: the focused decoration of
   * `win`, its input focus, then exactly one unfocused decoration of the
   * previously focused window when that is another window, and nothing
   * more.
   */
  lemma FocusOrder(cfg: Setup, srv: Server, s: State, win: Window)
    requires Decoratable(cfg.outer, srv, win)
    ensures var t := FocusStep(cfg, srv, s, win, true);
      var focused := Decoration(cfg.outer, srv, win, true).value + [SetInputFocus(win)];
      Sent(s, t)
        == if win != s.focus && Decoratable(cfg.outer, srv, s.focus)
           then focused + Decoration(cfg.outer, srv, s.focus, false).value
           else focused
  {
    var t := FocusStep(cfg, srv, s, win, true);
    var d := Decoration(cfg.outer, srv, win, true).value;
    var given := s.(log := s.log + d + [SetInputFocus(win)]);
    assert given.log == s.log + (d + [SetInputFocus(win)]);
    SentAppended(s, d + [SetInputFocus(win)]);
    if win != s.focus {
      var inner := FocusStep(cfg, srv, given, s.focus, false);
      SentChain(s, given, inner);
      if Decoratable(cfg.outer, srv, s.focus) {
        SentAppended(given, Decoration(cfg.outer, srv, s.focus, false).value);
      } else {
        assert Sent(given, inner) == [];
      }
    }
  }

  /** Window `w` wears the focus colour on its border. */
  predicate Wears(sc: Screen, w: Window) {
    w in sc.borders && ShowsFocus(sc.borders[w])
  }

  /** Screens with the same borders have the same windows wearing the focus colour. */
  lemma SameBorders(a: Screen, b: Screen)
    requires a.borders == b.borders
    ensures forall w :: Wears(b, w) <==> Wears(a, w)
  {
  }

  /** The notifications whose handling calls `focus`. */
  predicate Focuses(ev: Event) {
    ev.CreateNotify? || ev.EnterNotify? || ev.MapNotify? || ev.ButtonRelease? || ev.ConfigureNotify?
  }

  /**
   * While `srv` answers, an unfocus of the focused window cannot go amiss:
   * the server can redraw it, or it wears no border at all (it has been
   * destroyed, or nothing has been focused yet).
   */
  predicate Redrawing(cfg: Setup, srv: Server, s: State, sc: Screen) {
    Decoratable(cfg.outer, srv, s.focus) || s.focus !in sc.borders
  }

  /**
   * The single-focus invariant between the loop state and the screen:
   * - only the focused window wears the focus colour;
   * - a destroyed window wears no border;
   * - while the input focus has never been set, the focused window is the
   *   root or a destroyed window, and it does not wear the focus colour;
   * - once it has been set, a focused window that still exists holds the
   *   input focus and wears the focus colour;
   * - no border pixmap or graphics context is left allocated;
   * - the pointer is grabbed only once a drag has begun.
   */
  ghost predicate Consistent(cfg: Setup, s: State, sc: Screen) {
    && (forall w :: Wears(sc, w) ==> w == s.focus)
    && (forall w :: w in sc.gone ==> w !in sc.borders)
    && (sc.inputFocus.None? ==> (s.focus == cfg.root || s.focus in sc.gone) && !Wears(sc, s.focus))
    && (sc.inputFocus.Some? && s.focus !in sc.gone ==> sc.inputFocus == Some(s.focus) && Wears(sc, s.focus))
    && sc.pixmaps == map[] && sc.gcs == map[]
    && (sc.grabbed ==> s.mode != Idle)
  }

  /** Start-up is consistent: nothing is drawn, nothing is grabbed. */
  lemma StartConsistent(cfg: Setup)
    ensures Consistent(cfg, Start(cfg), Replay(Initial, Start(cfg).log))
  {
  }

  /**
   * Focusing keeps the invariant whenever the previously focused window is
   * redrawable, whether or not `win` still exists.
   */
  lemma FocusConsistent(cfg: Setup, srv: Server, s: State, win: Window, sc: Screen)
    requires Consistent(cfg, s, sc)
    requires Redrawing(cfg, srv, s, sc)
    ensures var t := FocusStep(cfg, srv, s, win, true);
      Consistent(cfg, t, Replay(sc, Sent(s, t)))
  {
    var t := FocusStep(cfg, srv, s, win, true);
    if !Decoratable(cfg.outer, srv, win) {
      assert Sent(s, t) == [];
    } else if win in sc.gone {
      FocusDestroyedConsistent(cfg, srv, s, win, sc);
    } else {
      FocusLiveConsistent(cfg, srv, s, win, sc);
    }
  }

  /** Focusing a window that still exists: it alone wears the focus colour and holds the input focus. */
  lemma FocusLiveConsistent(cfg: Setup, srv: Server, s: State, win: Window, sc: Screen)
    requires Consistent(cfg, s, sc) && Redrawing(cfg, srv, s, sc)
    requires Decoratable(cfg.outer, srv, win) && win !in sc.gone
    ensures var t := FocusStep(cfg, srv, s, win, true);
      Consistent(cfg, t, Replay(sc, Sent(s, t)))
  {
    var t := FocusStep(cfg, srv, s, win, true);
    FocusActive(cfg, srv, s, win, sc);
    var after := Replay(sc, Sent(s, t));
    assert after.borders[win] == Installed(cfg.outer, srv, win, true);
    assert Wears(after, win);
    assert !Wears(after, s.focus) || s.focus == win;
    forall v | Wears(after, v) && v != win
      ensures Wears(sc, v)
    {
    }
  }

  /** Redrawing the only window that may wear the focus colour as unfocused leaves none wearing it. */
  lemma UnfocusClears(cfg: Setup, srv: Server, prev: Window, sc: Screen)
    requires Decoratable(cfg.outer, srv, prev)
    requires forall w :: Wears(sc, w) ==> w == prev
    ensures forall v :: !Wears(Redecorated(cfg.outer, srv, prev, false, sc), v)
  {
    var after := Redecorated(cfg.outer, srv, prev, false, sc);
    assert after.borders[prev] == Installed(cfg.outer, srv, prev, false);
    forall v | v != prev
      ensures !Wears(after, v)
    {
      assert (v in after.borders) == (v in sc.borders);
      assert v in sc.borders ==> after.borders[v] == sc.borders[v];
      assert Wears(after, v) == Wears(sc, v);
    }
  }

  /**
   * Focusing a destroyed window: the server refuses its decoration and input
   * focus, the previous window is unfocused, and no window wears the focus
   * colour any more.
   */
  lemma FocusDestroyedConsistent(cfg: Setup, srv: Server, s: State, win: Window, sc: Screen)
    requires Consistent(cfg, s, sc) && Redrawing(cfg, srv, s, sc)
    requires Decoratable(cfg.outer, srv, win) && win in sc.gone
    ensures var t := FocusStep(cfg, srv, s, win, true);
      && (forall v :: !Wears(Replay(sc, Sent(s, t)), v))
      && Consistent(cfg, t, Replay(sc, Sent(s, t)))
  {
    var t := FocusStep(cfg, srv, s, win, true);
    FocusOnDestroyed(cfg, srv, s, win, sc);
    if win != s.focus && Decoratable(cfg.outer, srv, s.focus) && s.focus !in sc.gone {
      UnfocusClears(cfg, srv, s.focus, sc);
    } else {
      assert s.focus !in sc.borders;
      assert !Wears(sc, s.focus);
    }
  }

  /** Inert requests keep the invariant for an unchanged focus and mode. */
  lemma InertConsistent(cfg: Setup, s: State, rs: seq<Request>, sc: Screen)
    requires Consistent(cfg, s, sc)
    requires forall q :: q in rs ==> Inert(q)
    ensures Replay(sc, rs) == sc
    ensures Consistent(cfg, s.(log := s.log + rs), Replay(sc, Sent(s, s.(log := s.log + rs))))
  {
    SentAppended(s, rs);
    ReplayInert(sc, rs);
  }

  /**
   * A destroy notification keeps the invariant: the destroyed window loses
   * its border and is recorded as destroyed.
   */
  lemma DestroyConsistent(cfg: Setup, srv: Server, s: State, w: Window, sc: Screen)
    requires Consistent(cfg, s, sc)
    ensures var t := Dispatch(cfg, srv, s, DestroyNotify(w));
      && Replay(sc, Sent(s, t)) == sc.(borders := sc.borders - {w}, gone := sc.gone + {w})
      && Consistent(cfg, t, Replay(sc, Sent(s, t)))
  {
    var t := Dispatch(cfg, srv, s, DestroyNotify(w));
    var after := sc.(borders := sc.borders - {w}, gone := sc.gone + {w});
    SentAppended(s, [KillClient(w)]);
    ReplayOne(sc, KillClient(w));
    assert t == s.(log := s.log + [KillClient(w)]);
    if w in sc.gone {
      assert sc.borders - {w} == sc.borders;
      assert sc.gone + {w} == sc.gone;
    }
    forall v | Wears(after, v)
      ensures Wears(sc, v)
    {
    }
  }

  /**
   * Once the focused window is destroyed, the next notification needs
   * nothing of the server to keep single focus: whatever `next` answers,
   * the focused window is redrawable.
   */
  lemma DestroyedFocusRedrawing(cfg: Setup, srv: Server, next: Server, s: State, sc: Screen)
    requires Consistent(cfg, s, sc)
    ensures var t := Dispatch(cfg, srv, s, DestroyNotify(s.focus));
      t.focus == s.focus && Redrawing(cfg, next, t, Replay(sc, Sent(s, t)))
  {
    DestroyConsistent(cfg, srv, s, s.focus, sc);
  }

  /**
   * Every notification keeps the invariant, provided the focused window is
   * redrawable while a notification that calls `focus` is handled (always
   * so for the flat border).
   */
  lemma DispatchConsistent(cfg: Setup, srv: Server, s: State, ev: Event, sc: Screen)
    requires Consistent(cfg, s, sc)
    requires Answered(cfg, s, ev, srv)
    requires Focuses(ev) ==> Redrawing(cfg, srv, s, sc)
    ensures var t := Dispatch(cfg, srv, s, ev);
      Consistent(cfg, t, Replay(sc, Sent(s, t)))
  {
    var t := Dispatch(cfg, srv, s, ev);
    match ev
    case CreateNotify(w, overrideRedirect) =>
      if overrideRedirect {
        assert Sent(s, t) == [];
      } else {
        var u := Subscribed(s, w);
        InertConsistent(cfg, s, Sent(s, u), sc);
        ThenFocusConsistent(cfg, srv, s, u, w, sc);
      }
    case DestroyNotify(w) =>
      DestroyConsistent(cfg, srv, s, w, sc);
    case EnterNotify(w) =>
      FocusConsistent(cfg, srv, s, w, sc);
    case MapNotify(w, overrideRedirect) =>
      if overrideRedirect {
        assert Sent(s, t) == [];
      } else {
        var u := s.(log := s.log + [MapWindow(w)]);
        InertConsistent(cfg, s, [MapWindow(w)], sc);
        ThenFocusConsistent(cfg, srv, s, u, w, sc);
      }
    case ButtonPress(child, detail) =>
      PressConsistent(cfg, srv, s, child, detail, sc);
    case MotionNotify =>
      InertConsistent(cfg, s, Sent(s, t), sc);
      assert t == s.(log := s.log + Sent(s, t));
    case ButtonRelease =>
      ReleaseConsistent(cfg, srv, s, sc);
    case ConfigureNotify(w) =>
      ConfigureConsistent(cfg, srv, s, w, sc);
    case Unhandled =>
      assert Sent(s, t) == [];
  }

  /** Inert requests followed by `focus(win, true)` keep the invariant. */
  lemma ThenFocusConsistent(cfg: Setup, srv: Server, s: State, u: State, win: Window, sc: Screen)
    requires Consistent(cfg, u, sc) && Extends(s, u) && Replay(sc, Sent(s, u)) == sc
    requires u.focus == s.focus && u.mode == s.mode
    requires Redrawing(cfg, srv, s, sc)
    ensures var t := FocusStep(cfg, srv, u, win, true);
      Extends(s, t) && Consistent(cfg, t, Replay(sc, Sent(s, t)))
  {
    var t := FocusStep(cfg, srv, u, win, true);
    FocusConsistent(cfg, srv, u, win, sc);
    SentChain(s, u, t);
    ReplayAppend(sc, Sent(s, u), Sent(u, t));
  }

  /** A button release is `focus` on the drag target followed by an ungrab, which only frees the pointer. */
  lemma ReleaseSteps(cfg: Setup, srv: Server, s: State, sc: Screen)
    ensures var t := Dispatch(cfg, srv, s, ButtonRelease);
      var u := FocusStep(cfg, srv, s, s.dragWin, true);
      && t.focus == u.focus && t.mode == u.mode
      && Replay(sc, Sent(s, t)) == Replay(sc, Sent(s, u)).(grabbed := false)
  {
    var t := Dispatch(cfg, srv, s, ButtonRelease);
    var u := FocusStep(cfg, srv, s, s.dragWin, true);
    SentAppended(u, [UngrabPointer]);
    assert t == u.(log := u.log + [UngrabPointer]);
    SentChain(s, u, t);
    ReplayUngrab(sc, Sent(s, u));
  }

  /** A button release keeps the invariant: it focuses the drag target and releases the grab. */
  lemma ReleaseConsistent(cfg: Setup, srv: Server, s: State, sc: Screen)
    requires Consistent(cfg, s, sc)
    requires Redrawing(cfg, srv, s, sc)
    ensures var t := Dispatch(cfg, srv, s, ButtonRelease);
      Consistent(cfg, t, Replay(sc, Sent(s, t)))
  {
    var u := FocusStep(cfg, srv, s, s.dragWin, true);
    FocusConsistent(cfg, srv, s, s.dragWin, sc);
    ReleaseSteps(cfg, srv, s, sc);
    var sc1 := Replay(sc, Sent(s, u));
    SameBorders(sc1, sc1.(grabbed := false));
  }

  /**
   * A release after the drag target was destroyed: the server refuses the
   * decoration and input focus of the dead target, the previously focused
   * window is still decorated as unfocused, and the dead target becomes the
   * focused window. No window wears the focus colour then, while the input
   * focus stays where it was.
   */
  lemma ReleaseOnDestroyedTarget(cfg: Setup, srv: Server, s: State, sc: Screen)
    requires Consistent(cfg, s, sc) && Redrawing(cfg, srv, s, sc)
    requires s.dragWin in sc.gone && Decoratable(cfg.outer, srv, s.dragWin)
    ensures var t := Dispatch(cfg, srv, s, ButtonRelease);
      var after := Replay(sc, Sent(s, t));
      && t.focus == s.dragWin
      && after.inputFocus == sc.inputFocus
      && (forall w :: !Wears(after, w))
      && (s.focus != s.dragWin && s.focus !in sc.gone && Decoratable(cfg.outer, srv, s.focus) ==>
            s.focus in after.borders && after.borders[s.focus] == Installed(cfg.outer, srv, s.focus, false))
  {
    var u := FocusStep(cfg, srv, s, s.dragWin, true);
    FocusOnDestroyed(cfg, srv, s, s.dragWin, sc);
    FocusDestroyedConsistent(cfg, srv, s, s.dragWin, sc);
    ReleaseSteps(cfg, srv, s, sc);
    var sc1 := Replay(sc, Sent(s, u));
    SameBorders(sc1, sc1.(grabbed := false));
  }

  /** A configure notification keeps the invariant: both of its focus calls do. */
  lemma ConfigureConsistent(cfg: Setup, srv: Server, s: State, w: Window, sc: Screen)
    requires Consistent(cfg, s, sc)
    requires Redrawing(cfg, srv, s, sc)
    ensures var t := Dispatch(cfg, srv, s, ConfigureNotify(w));
      Consistent(cfg, t, Replay(sc, Sent(s, t)))
  {
    var t := Dispatch(cfg, srv, s, ConfigureNotify(w));
    var u := if w != s.focus then FocusStep(cfg, srv, s, w, true) else s;
    if w != s.focus {
      FocusConsistent(cfg, srv, s, w, sc);
    }
    if u == s {
      assert Sent(s, u) == [];
    }
    var sc1 := Replay(sc, Sent(s, u));
    assert Redrawing(cfg, srv, u, sc1);
    FocusConsistent(cfg, srv, u, u.focus, sc1);
    SentChain(s, u, t);
    ReplayAppend(sc, Sent(s, u), Sent(u, t));
  }

  /** A press keeps the invariant: it grabs the pointer only when it starts a drag. */
  lemma PressConsistent(cfg: Setup, srv: Server, s: State, child: Window, detail: nat, sc: Screen)
    requires Consistent(cfg, s, sc)
    requires child != NONE && child != cfg.root ==> child in srv.geometry
    ensures var t := Press(cfg, srv, s, child, detail);
      Consistent(cfg, t, Replay(sc, Sent(s, t)))
  {
    var t := Press(cfg, srv, s, child, detail);
    if child == NONE || child == cfg.root {
      assert Sent(s, t) == [];
    } else {
      var at := WarpTarget(detail, srv.geometry[child]);
      var quiet := [Raise(child), WarpPointer(child, at.x, at.y)];
      assert Sent(s, t) == quiet + [GrabPointer];
      ReplayAppend(sc, quiet, [GrabPointer]);
      ReplayInert(sc, quiet);
      ReplayOne(sc, GrabPointer);
      SameBorders(sc, sc.(grabbed := true));
    }
  }

  /**
   * A feed, read from the screen `sc`, whose every notification is answered
   * and, when it calls `focus`, arrives while the focused window is
   * redrawable.
   */
  predicate Redrawable(cfg: Setup, s: State, sc: Screen, feed: seq<Input>)
    decreases |feed|
  {
    feed == [] || feed[0].event.None?
    || (&& Answered(cfg, s, feed[0].event.value, feed[0].server)
        && (Focuses(feed[0].event.value) ==> Redrawing(cfg, feed[0].server, s, sc))
        && var t := Dispatch(cfg, feed[0].server, s, feed[0].event.value);
           Redrawable(cfg, t, Replay(sc, Sent(s, t)), feed[1..]))
  }

  lemma {:induction false} RedrawableFeedable(cfg: Setup, s: State, sc: Screen, feed: seq<Input>)
    requires Redrawable(cfg, s, sc, feed)
    ensures Feedable(cfg, s, feed)
    decreases |feed|
  {
    if feed != [] && feed[0].event.Some? {
      var t := Dispatch(cfg, feed[0].server, s, feed[0].event.value);
      RedrawableFeedable(cfg, t, Replay(sc, Sent(s, t)), feed[1..]);
    }
  }

  /** With the flat border every answered feed is redrawable. */
  lemma {:induction false} FlatRedrawable(cfg: Setup, s: State, sc: Screen, feed: seq<Input>)
    requires cfg.outer == 0 && Feedable(cfg, s, feed)
    ensures Redrawable(cfg, s, sc, feed)
    decreases |feed|
  {
    if feed != [] && feed[0].event.Some? {
      var t := Dispatch(cfg, feed[0].server, s, feed[0].event.value);
      FlatRedrawable(cfg, t, Replay(sc, Sent(s, t)), feed[1..]);
    }
  }

  /** The invariant holds after a whole run of the loop over a redrawable feed. */
  lemma {:induction false} RunConsistent(cfg: Setup, s: State, feed: seq<Input>, sc: Screen)
    requires Consistent(cfg, s, sc) && Redrawable(cfg, s, sc, feed)
    ensures Feedable(cfg, s, feed)
    ensures var r := Run(cfg, s, feed);
      Consistent(cfg, r.state, Replay(sc, Sent(s, r.state)))
    decreases |feed|
  {
    RedrawableFeedable(cfg, s, sc, feed);
    var r := Run(cfg, s, feed);
    if feed == [] || feed[0].event.None? {
      assert r.state == s;
      assert Sent(s, s) == [];
    } else {
      var ev := feed[0].event.value;
      var u := Dispatch(cfg, feed[0].server, s, ev);
      DispatchConsistent(cfg, feed[0].server, s, ev, sc);
      RunConsistent(cfg, u, feed[1..], Replay(sc, Sent(s, u)));
      assert r == Run(cfg, u, feed[1..]);
      SentChain(s, u, r.state);
      ReplayAppend(sc, Sent(s, u), Sent(u, r.state));
    }
  }

  /**
   * Single focus over a run from start-up: no window wears the focus colour
   * but the focused one; once the input focus has been set, a focused window
   * that still exists holds it and wears the focus colour; a focused window
   * that was destroyed (its client killed) wears nothing, and then no window
   * wears the focus colour.
   */
  lemma SingleFocus(cfg: Setup, feed: seq<Input>)
    requires Redrawable(cfg, Start(cfg), Initial, feed)
    ensures Feedable(cfg, Start(cfg), feed)
    ensures var r := Run(cfg, Start(cfg), feed);
      var sc := Replay(Initial, r.state.log);
      && Consistent(cfg, r.state, sc)
      && (forall w :: Wears(sc, w) ==> w == r.state.focus)
      && (sc.inputFocus.Some? && r.state.focus !in sc.gone ==>
            sc.inputFocus == Some(r.state.focus) && Wears(sc, r.state.focus))
      && (r.state.focus in sc.gone ==> KillClient(r.state.focus) in r.state.log && !Wears(sc, r.state.focus))
  {
    RunConsistent(cfg, Start(cfg), feed, Initial);
    var r := Run(cfg, Start(cfg), feed);
    assert Sent(Start(cfg), r.state) == r.state.log;
    if r.state.focus in Replay(Initial, r.state.log).gone {
      GoneKilled(Initial, r.state.log, r.state.focus);
    }
  }

  /**
   * With the flat border, the one the program is built with, single focus
   * holds over every answered run from start-up.
   */
  lemma FlatSingleFocus(cfg: Setup, feed: seq<Input>)
    requires Built(cfg) && Feedable(cfg, Start(cfg), feed)
    ensures var r := Run(cfg, Start(cfg), feed);
      var sc := Replay(Initial, r.state.log);
      && (forall w :: Wears(sc, w) ==> w == r.state.focus)
      && (sc.inputFocus.Some? && r.state.focus !in sc.gone ==>
            sc.inputFocus == Some(r.state.focus) && Wears(sc, r.state.focus))
      && (r.state.focus in sc.gone ==> KillClient(r.state.focus) in r.state.log && !Wears(sc, r.state.focus))
  {
    FlatRedrawable(cfg, Start(cfg), Initial, feed);
    SingleFocus(cfg, feed);
  }

  /** The first step of `ClosingFocusedWindow`: creating `a` from start-up focuses it. */
  lemma CreateFromStart(cfg: Setup, a: Window, srv: Server)
    requires a != NONE && a in srv.geometry
    ensures Redrawing(cfg, srv, Start(cfg), Initial)
    ensures var t := Dispatch(cfg, srv, Start(cfg), CreateNotify(a, false));
      var sc := Replay(Initial, Sent(Start(cfg), t));
      t.focus == a && Consistent(cfg, t, sc) && sc.gone == {}
  {
    var s0 := Start(cfg);
    var t := Dispatch(cfg, srv, s0, CreateNotify(a, false));
    var u := Subscribed(s0, a);
    StartConsistent(cfg);
    assert Replay(Initial, Start(cfg).log) == Initial;
    InertConsistent(cfg, s0, Sent(s0, u), Initial);
    SentChain(s0, u, t);
    ReplayAppend(Initial, Sent(s0, u), Sent(u, t));
    FocusActive(cfg, srv, u, a, Initial);
    DispatchConsistent(cfg, srv, s0, CreateNotify(a, false), Initial);
  }

  /** The last two steps of `ClosingFocusedWindow`: destroying the focused `a`, then entering `b`. */
  lemma DestroyThenEnter(cfg: Setup, a: Window, b: Window, srvGone: Server, srvB: Server, s: State, sc: Screen)
    requires Consistent(cfg, s, sc) && s.focus == a && sc.gone == {} && a != b && b in srvB.geometry && b != NONE
    ensures var feed := [Input(Some(DestroyNotify(a)), srvGone), Input(Some(EnterNotify(b)), srvB)];
      Redrawable(cfg, s, sc, feed)
    ensures var t2 := Dispatch(cfg, srvGone, s, DestroyNotify(a));
      var t3 := Dispatch(cfg, srvB, t2, EnterNotify(b));
      var sc3 := Replay(Replay(sc, Sent(s, t2)), Sent(t2, t3));
      && t3.focus == b && sc3.inputFocus == Some(b)
      && Wears(sc3, b) && (forall w :: Wears(sc3, w) ==> w == b)
  {
    var feed := [Input(Some(DestroyNotify(a)), srvGone), Input(Some(EnterNotify(b)), srvB)];
    var t2 := Dispatch(cfg, srvGone, s, DestroyNotify(a));
    DestroyConsistent(cfg, srvGone, s, a, sc);
    DestroyedFocusRedrawing(cfg, srvGone, srvB, s, sc);
    var sc2 := Replay(sc, Sent(s, t2));
    assert sc2.gone == {a};
    var t3 := Dispatch(cfg, srvB, t2, EnterNotify(b));
    FocusActive(cfg, srvB, t2, b, sc2);
    FocusLiveConsistent(cfg, srvB, t2, b, sc2);
    assert feed[1..][1..] == [];
    assert Redrawable(cfg, t2, sc2, feed[1..]);
  }

  /**
   * Closing the focused window in the ringed build: a session that creates
   * `a`, destroys it (no reply for `a` any more) and enters `b` meets the
   * hypothesis of `SingleFocus`, and ends with `b` focused, holding the
   * input focus and alone wearing the focus colour.
   */
  lemma ClosingFocusedWindow(cfg: Setup, a: Window, b: Window, srvA: Server, srvGone: Server, srvB: Server)
    requires a != NONE && b != NONE && a != b
    requires a in srvA.geometry && a !in srvGone.geometry && b in srvB.geometry
    ensures var feed := [Input(Some(CreateNotify(a, false)), srvA), Input(Some(DestroyNotify(a)), srvGone),
                         Input(Some(EnterNotify(b)), srvB)];
      Redrawable(cfg, Start(cfg), Initial, feed) && Feedable(cfg, Start(cfg), feed)
    ensures var feed := [Input(Some(CreateNotify(a, false)), srvA), Input(Some(DestroyNotify(a)), srvGone),
                         Input(Some(EnterNotify(b)), srvB)];
      var r := Run(cfg, Start(cfg), feed);
      var sc := Replay(Initial, r.state.log);
      && r.state.focus == b && sc.inputFocus == Some(b)
      && Wears(sc, b) && (forall w :: Wears(sc, w) ==> w == b)
  {
    var feed := [Input(Some(CreateNotify(a, false)), srvA), Input(Some(DestroyNotify(a)), srvGone),
                 Input(Some(EnterNotify(b)), srvB)];
    var rest := [Input(Some(DestroyNotify(a)), srvGone), Input(Some(EnterNotify(b)), srvB)];
    var s0 := Start(cfg);
    CreateFromStart(cfg, a, srvA);
    var t1 := Dispatch(cfg, srvA, s0, CreateNotify(a, false));
    var sc1 := Replay(Initial, Sent(s0, t1));
    DestroyThenEnter(cfg, a, b, srvGone, srvB, t1, sc1);
    assert feed[1..] == rest && feed[0].event.value == CreateNotify(a, false);
    assert Redrawable(cfg, s0, Initial, feed);
    RedrawableFeedable(cfg, s0, Initial, feed);
    RedrawableFeedable(cfg, t1, sc1, rest);
    var t2 := Dispatch(cfg, srvGone, t1, DestroyNotify(a));
    var t3 := Dispatch(cfg, srvB, t2, EnterNotify(b));
    RunStep(cfg, s0, feed);
    RunStep(cfg, t1, rest);
    assert rest[1..] == [Input(Some(EnterNotify(b)), srvB)];
    RunStep(cfg, t2, rest[1..]);
    assert rest[1..][1..] == [];
    assert Run(cfg, s0, feed).state == t3;
    SentChain(s0, t1, t2);
    SentChain(s0, t2, t3);
    ReplayAppend(Initial, Sent(s0, t1), Sent(t1, t2));
    ReplayAppend(Initial, Sent(s0, t2), Sent(t2, t3));
    assert Sent(s0, t3) == t3.log;
  }

  /** The loop handles the first notification of a feed, then runs on over the rest. */
  lemma RunStep(cfg: Setup, s: State, feed: seq<Input>)
    requires Feedable(cfg, s, feed) && feed != [] && feed[0].event.Some?
    ensures Feedable(cfg, Dispatch(cfg, feed[0].server, s, feed[0].event.value), feed[1..])
    ensures Run(cfg, s, feed) == Run(cfg, Dispatch(cfg, feed[0].server, s, feed[0].event.value), feed[1..])
  {
  }
}