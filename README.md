# swm in Dafny

swm is a small X11 window manager. It gives the window under the pointer
the input focus and draws that window's border in a focus colour. It moves
a window by dragging it with button 1 and resizes it with any other
button. This project models the control loop of `swm.cxx`:

- `focus` and `subscribe`;
- the dispatch of create, destroy, enter, map, button-press, motion,
  button-release and configure notifications;
- the drag session the loop carries between notifications;
- the move-clamp and resize arithmetic;
- both border renderers: the ringed pixmap and the flat border pixel.

The build constants come from `config.hxx`.

**Which renderer runs.** `config.hxx` declares `OUTER` as a typed
`static constexpr` constant (config.hxx:8), not as a macro. The
preprocessor test `#if OUTER > 0` at swm.cxx:80 therefore sees an unknown
identifier, which it reads as 0. The program as built always draws the
flat border (swm.cxx:127-129), and the ringed branch (swm.cxx:81-126) is
compiled out. The model keeps both renderers, selected by `Setup.outer`:

- `outer == 0` is the program as built (`Config.BUILT_OUTER`,
  `WindowManager.Built`), and `Properties.FlatSingleFocus` is the
  single-focus theorem for it;
- a positive `outer` (`config.hxx` gives `OUTER` the value 1) models the
  ringed branch, which `config.hxx` never selects.

The identifier `mode` that the ringed branch reads at swm.cxx:118 is
undeclared; compiling that branch out is what lets the file build. The
model reads it as the `active` parameter, which the flat branch uses at
swm.cxx:128.

Modules:

- `Config` holds the constants of `config.hxx`.
- `Protocol` holds window ids, the server's replies, the notifications and
  the requests the window manager sends.
- `Effects` is a small semantics of those requests. It tracks window
  borders, live pixmaps and graphics contexts, the input focus, the
  pointer grab and the windows already destroyed. The server refuses every
  request naming a destroyed window, so such a request changes nothing. It
  lets the model state what the requests do, not just which ones are sent.
- `Border` holds the two renderers and what they leave on the screen.
- `Drag` holds the mode, the warp target, the clamp and the resize.
- `WindowManager` has two layers:
  - pure functions over the loop state (focused window, drag target, drag
    mode, requests sent so far);
  - the class `WM`, whose fields are updated in place as the C globals and
    loop variables are. Its methods are proved equal to the functions.
- `Properties` holds the effect of `focus` and the single-focus invariant
  over whole runs of the loop.
- `Handling` holds one lemma per kind of notification.

The server's answers while one notification is handled are an explicit
`Server` value:

- geometry replies, with a window absent from the map getting no reply;
- the QueryPointer reply.

A run of the loop is a finite `feed` of such inputs. An input without an
event stands for a broken connection, which ends the loop.

Some behaviour of the code that the model keeps as written:

- **Subscription mask.** `subscribe` fills two mask values but passes only
  the EVENT_MASK bit, so the server reads only the first value, and a
  subscribed window selects enter events only (swm.cxx:141-145).
  `Subscribed` sends `SelectInput(win, {EnterWindow})`.
- **Drag session.** The drag mode is never reset: not on release and not
  when a geometry reply is missing (swm.cxx:233-234, 262-265).
  `Handling.StaleDragTarget` shows that a press on the root after a
  finished drag leaves move mode with the root as its target.
- **Focus order.** `focus(win, true)` decorates `win` and gives it the
  input focus before it unfocuses the previous window (swm.cxx:131-138,
  `Properties.FocusOrder`).
- **Destroyed windows.** The destroy handler only kills the client
  (swm.cxx:174-177): `focuswin` and the drag target can still name the
  destroyed window. A later `focus` on it has its decoration and input
  focus refused by the server, but it still unfocuses the previous window
  and makes the dead window `focuswin` (swm.cxx:132-137). After a release
  on a destroyed drag target, no window wears the focus colour and the
  input focus stays where it was (`Properties.ReleaseOnDestroyedTarget`).
- **Single focus.** `Properties.SingleFocus` shows, after any run from
  start-up and of the modelled server:
  - only the focused window wears the focus colour;
  - once the input focus has been set, a focused window that still exists
    holds it and wears the focus colour;
  - a focused window that was destroyed wears nothing, so then no window
    wears the focus colour.

  The modelled server grants the input focus to every window it has not
  destroyed. X also refuses it for a window that is not viewable, and the
  create handler focuses a window before it is mapped (swm.cxx:166-172).
  Between a create and its map, the real keyboard focus therefore stays on
  the previous window, which already wears the unfocused border; a window
  that is created and never mapped leaves it so. The model also treats
  window 0 as a window: a press on the empty desktop followed by a release
  runs `focus(0, true)` (swm.cxx:192-196, 262-263), and in the model window
  0 then holds the input focus and wears the focus colour, while the server
  would reject the border requests for no window and set the keyboard focus
  to none. Both gaps are listed under "Left out".
- **Single focus in the ringed branch.** `focus` draws nothing when the
  geometry query gets no reply (swm.cxx:83-86), so the unfocus of the
  previous window is skipped when the server does not answer for it.
  `Properties.SingleFocus` therefore assumes one thing of each notification
  that calls `focus` (create, enter, map, release, configure): the focused
  window can be redrawn, or it wears no border. A destroyed window wears no
  border, so the assumption holds when the focused window's DestroyNotify
  is handled before the next notification that calls `focus`
  (`Properties.DestroyedFocusRedrawing`, `Properties.ClosingFocusedWindow`).
  When the server delivers the EnterNotify for the window beneath first, as
  it does when it unmaps a closing window under the pointer, the assumption
  fails for that run, and the ringed statement says nothing about it.
  `Properties.FlatSingleFocus` proves the same for the flat build, with no
  such assumption, for every run in which the server answers the queries
  the code dereferences unchecked.
- **Move-clamp bound.** The clamp at swm.cxx:236-246 only guarantees
  `0 <= x <= SW - 2*BORDERWIDTH - 2*(w/2)`. An odd-width window placed at
  the last unclamped position therefore ends one pixel past the screen edge
  (`Drag.ClampOddWidthOverhang`).
- **Resize jump.** The resize sets the inside size to the pointer's offset
  from the geometry reply's x and y, which are the window's outer corner
  (swm.cxx:252-253), while the press warps the pointer to the inside
  bottom-right corner (swm.cxx:214). The first motion of a resize thus
  widens and heightens the window by BORDERWIDTH (`Drag.ResizeAtWarpPoint`).

## Model

| member | source | states |
|---|---|---|
| Border.Decoration | swm.cxx:80-129 | A decoration is drawn exactly when the flat build is configured or the window is non-null with a geometry reply. Every request it sends is a drawing request aimed at that window. |
| Border.Installed | swm.cxx:104-129 | The installed border's visible accent is FOCUSCOL when active and UNFOCUSCOL otherwise. It is a plain pixel exactly in the flat build. Otherwise it is a (w+2b)x(h+2b) pixmap with the OUTERCOL ring painted first and the accent rectangles over it. |
| Border.RingLayout | swm.cxx:92-102 | Across the 2b border columns and rows the rectangles run accent, ring, ring, accent without gap or overlap. Each accent is b-outer thick and each ring outer. The ring bands span the whole pixmap. |
| Border.DecorationEffect | swm.cxx:104-129 | Carrying out a decoration installs the border on the window and changes nothing else. The ringed build leaves no pixmap or graphics context of the window allocated. On a destroyed window it changes nothing at all. |
| Border.StrategyRequests | swm.cxx:80-129 | The flat build sends a single border-pixel change. The ringed build sends no border-pixel change and exactly one pixmap creation, one border-pixmap installation and one pixmap free. |
| Drag.ModeFor | swm.cxx:200-214 | Button 1 starts a move and any other button starts a resize; a press never yields idle. |
| Drag.WarpTarget | swm.cxx:200-214 | The warp point lies within the window. It is the centre (rounded down) for button 1 and the bottom-right corner otherwise. |
| Drag.ClampAxis | swm.cxx:236-246 | Per axis: pinned to 0 when the pointer is short of half the window; flush with the far edge, borders included, when it would pass it; otherwise centred on the pointer. A fitting window gets 0 <= x <= SW-2B-2(w/2). |
| Drag.ResizeExtent | swm.cxx:250-253 | The new inside size is the pointer's offset from the window's outer origin, unclamped. It is non-positive when the pointer is left of or above that origin. |
| Drag.ResizeAtWarpPoint | swm.cxx:210-253 | At the point a resize press warps to, the inside bottom-right corner, the resize gives the window its width and height plus one border width. |
| Drag.ClampEvenWidthOnScreen | swm.cxx:236-246 | An even-sized window that fits stays entirely on screen. |
| Drag.ClampOddWidthOverhang | swm.cxx:236-246 | An odd-sized window at the last unclamped position hangs one pixel past the screen edge. |
| Effects.GoneKilled | swm.cxx:174-177 | A window is recorded as destroyed only through a KillClient for it. |
| WindowManager.FocusStep | swm.cxx:77-139 | focus only ever appends requests and keeps the drag state. The focused window becomes `win` exactly when active and decoratable. Nothing at all happens when the decoration cannot be drawn. |
| WindowManager.Subscribed | swm.cxx:141-150 | Subscribing appends requests aimed only at the subscribed window and leaves focus and drag state alone. |
| WindowManager.Press | swm.cxx:192-226 | A press always records the child as drag target. On the null window or the root it sends nothing and keeps the mode. On a client it sends three requests and sets the mode for the button. |
| WindowManager.Motion | swm.cxx:228-260 | Motion sends at most one request, aimed at the drag target, and never changes focus, target or mode. |
| WindowManager.Dispatch | swm.cxx:160-275 | Every notification only appends requests. Only a press changes the drag target or mode. Once a drag has begun the mode never returns to idle. |
| WindowManager.Run | swm.cxx:152-279 | A run only appends requests and keeps a begun drag. It reports a broken connection exactly when the feed contains a missing event. |
| WindowManager.WM.constructor | swm.cxx:44 | The manager starts with the root focused, no drag target, idle mode and nothing sent. |
| WindowManager.WM.Focus | swm.cxx:77-139 | The in-place focus, with its nested unfocus call, leaves the object in the state `FocusStep` specifies. |
| WindowManager.WM.Subscribe | swm.cxx:141-150 | The in-place subscribe appends exactly the subscription requests. |
| WindowManager.WM.Handle | swm.cxx:163-274 | One pass of the loop body updates focus, drag target, mode and log exactly as `Dispatch` specifies. |
| WindowManager.WM.EventsLoop | swm.cxx:152-279 | The loop over a feed ends in the state and with the broken-connection flag that `Run` specifies. |
| Properties.FocusPassive | swm.cxx:77-131 | focus(win, false) keeps the focused window and never sets the input focus. It sends only requests aimed at `win`. It changes the screen only by win's unfocused border, and only when win can be drawn and still exists. |
| Properties.FocusActive | swm.cxx:77-139 | focus(win, true) on an existing window makes `win` focused, with the focus border and the modelled input focus (granted to any existing window; X would refuse it for an unmapped one, see Left out). A different previous window that can be drawn and still exists gets the unfocused border. Focusing the focused window touches no other window. No pixmap or context outlives the call. |
| Properties.FocusOnDestroyed | swm.cxx:77-139 | focus(win, true) on a destroyed window still makes it the focused window. The server refuses its decoration and input focus. The previous window, when it differs, can be drawn and still exists, still gets the unfocused border. |
| Properties.FocusOrder | swm.cxx:104-138 | The requests of focus(win, true) are win's focused decoration, then its input focus. They are followed by exactly one unfocused decoration of the previous window when it differs, and by nothing when it is the same. |
| Properties.FocusConsistent | swm.cxx:77-139 | The single-focus invariant holds after focus(win, true), whether or not win still exists, whenever the previous window can be redrawn or wears no border. The invariant: only the focused window wears the focus colour; a destroyed window wears no border; an existing focused window holds the input focus and wears the focus colour once the input focus has been set; nothing is left allocated; a grab only during a drag. |
| Properties.DispatchConsistent | swm.cxx:160-275 | Every notification preserves the single-focus invariant. Only the notifications that call focus need the focused window to be redrawable or borderless. |
| Properties.DestroyConsistent | swm.cxx:174-177 | A destroy notification removes exactly the destroyed window's border from the screen, records the window as destroyed, and keeps the single-focus invariant. |
| Properties.DestroyedFocusRedrawing | swm.cxx:174-177 | After the focused window is destroyed it stays focused and wears no border, so the next step needs no reply from the server for it. |
| Properties.ReleaseOnDestroyedTarget | swm.cxx:262-265 | A release whose drag target was destroyed makes the dead target focused and unfocuses the previous window. No window then wears the focus colour, and the input focus is left where it was. |
| Properties.ClosingFocusedWindow | swm.cxx:166-177 | Creating a, destroying it while the server no longer answers for it, and entering b meets the hypothesis of SingleFocus. It ends with b focused, holding the input focus and alone wearing the focus colour. |
| Properties.SingleFocus | swm.cxx:152-279 | The hypothesis: in every notification that calls focus, the focused window can be redrawn or has no border. After any such run from start-up, only the focused window wears the focus colour. Once the input focus has been set, an existing focused window holds the modelled input focus (viewability is not modelled, see Left out) and wears the focus colour. A destroyed focused window was killed by a KillClient in the log and wears nothing. |
| Properties.FlatSingleFocus | swm.cxx:127-139 | For the program as built (flat border), the same single-focus statement holds after every run from start-up in which the server answers the queries the code dereferences unchecked (geometry for a press on a client and for a resize motion). |
| Handling.OverrideRedirectIgnored | swm.cxx:166-190 | Create and map notifications for override-redirect windows change nothing and send nothing. |
| Handling.CreateSubscribesThenFocuses | swm.cxx:166-172 | A managed window is first subscribed to enter events and given width BORDERWIDTH, then focused. |
| Handling.MapMapsThenFocuses | swm.cxx:184-190 | A managed window is mapped first, then focused. |
| Handling.DestroyKills | swm.cxx:174-177 | A destroy notification sends only KillClient for the window and keeps focus and mode. The window is recorded as destroyed and, unless it already was, loses its border. |
| Handling.PressOnRoot | swm.cxx:192-196 | A press on no window or the root sends nothing and keeps the mode, though it replaces the drag target. |
| Handling.PressOnClient | swm.cxx:198-225 | A press on a client raises it and warps to its centre (button 1) or corner (other buttons). It then grabs the pointer, with mode move or resize. |
| Handling.MotionIdle | swm.cxx:228-260 | Motion outside a drag changes nothing. |
| Handling.MoveWithoutReply | swm.cxx:230-234 | In a move, motion without a geometry reply sends nothing and keeps mode and target. |
| Handling.MoveOnScreen | swm.cxx:230-248 | In a move, one configure places the target at the clamp of the pointer on each axis (`ClampAxis` of pointer, size and screen extent); a fitting window gets 0 <= x <= SW-2B-2(w/2), and likewise for y. |
| Handling.ResizeToPointer | swm.cxx:249-259 | In a resize, one configure sets the inside width and height to the pointer's offset from the window's outer origin. |
| Handling.ReleaseFocusesAndUngrabs | swm.cxx:262-265 | A release focuses the drag target when it can be decorated, ends with an ungrab that leaves the pointer free, and keeps the mode. |
| Handling.ConfigureFocuses | swm.cxx:267-273 | After a configure notification the configured window is focused whenever it can be decorated. |
| Handling.StaleDragTarget | swm.cxx:192-265 | A move, its release and a press on the root leave move mode with the root as drag target. |

## Left out

- `deploy`, `cleanup` and `main` are not modelled (swm.cxx:30-75, 282-292). They cover connection set-up, the root button grabs, `atexit` and `errx`. The model starts in the state `deploy` leaves: the root focused.
- The XCB transport is not modelled: connection, event reading, `xcb_flush`, `free` and identifier generation. Requests are abstract log entries, and a pixmap or graphics context is named by the window it decorates.
- Replies are a per-notification `Server` value, which holds the geometry map and the pointer position. A missing QueryPointer reply, which the code dereferences unchecked, is not modelled.
- The button-press and resize paths dereference the geometry reply without a null check. They are modelled with a precondition (`Answered`), not with a crash.
- The infinite event loop is a finite feed of inputs. The fatal stop on a broken connection is the `broken` result.
- The `MOD` modifier and the button grabs belong to `deploy` and are not modelled.
- Integer widths are not modelled: the `short` truncation of geometry in `focus`, 16-bit coordinates, and the uint32 wrap of negative `values[]` entries are left out. All arithmetic is on unbounded integers.
- Drag.ResizeExtent: a non-positive size is returned as is, while the server would receive it wrapped to a huge unsigned value.
- Drag.ClampAxis: the negative origin that the code can compute for a window wider than the screen is returned as is, not wrapped.
- Pixel-level rendering is not modelled, so nothing says that every rectangle lies inside the pixmap. The fifth rectangle of each list relies on server clipping.
- Stacking, mapping, warping, moving and resizing are logged but do not change the modelled screen. A window is not modelled as a screen object. Killing the client of a destroyed window removes its border and records the window as destroyed. Later requests naming it are refused.
- When the window holding the input focus is destroyed, the server moves the focus back to the pointer root. This revert is not modelled: the modelled input focus keeps naming the destroyed window. The single-focus statements only speak of the input focus while the focused window exists.
- A request naming a window the server never created is not refused; only destroyed windows are tracked.
- Properties.SingleFocus: viewability is not modelled. X refuses SetInputFocus for an unmapped window, so between a create and its map (swm.cxx:166-172 focuses first) the real keyboard focus stays on the previous window, which now wears UNFOCUSCOL, and a window created and never mapped leaves it there. The model grants that focus, so its input-focus clause is stronger than what the server does in that interval; the same holds for Properties.FlatSingleFocus and Properties.FocusActive.
- Properties.SingleFocus: window 0 is not refused. A press on the empty desktop and its release run focus(0, true) (swm.cxx:192-196, 262-263); the model lets window 0 hold the input focus and wear FOCUSCOL, while X rejects the border requests for no window and sets the keyboard focus to none.
- Properties.SingleFocus: in the ringed branch the hypothesis fails for the order the server produces when a focused window under the pointer is closed: unmapping it delivers the EnterNotify of the window beneath before the DestroyNotify, and the unfocus of the closing window then gets no geometry reply. The ringed theorem does not cover such runs; the flat one (Properties.FlatSingleFocus) does.
- One `Server` value answers every query made while one notification is handled, so the repeated geometry queries of `focus` within one configure notification (swm.cxx:83-84, 135, 270-272) get the same reply; a reply that changes between them is not modelled.
- The geometry map may hold a reply for window 0; a move whose target is window 0 then uses that reply, while the server would answer a query for no window with an error.
- `config.h` is not included by `swm.cxx` and is not part of this model.
