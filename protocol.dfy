/**
 * The vocabulary the window manager shares with the X server: identifiers,
 * replies, the notifications it consumes and the requests it sends.
 */
module Protocol {
  /** An X resource identifier; 0 is XCB_NONE. */
  type Window = nat

  const NONE: Window := 0

  /** A pixel value as the server takes it (0xRRGGBB). */
  type Colour = nat

  datatype Option<+T> = None | Some(value: T)

  /** A GetGeometry reply. */
  datatype Geometry = Geometry(x: int, y: int, width: nat, height: nat, borderWidth: nat)

  datatype Point = Point(x: int, y: int)

  /** An xcb_rectangle_t. */
  datatype Rect = Rect(x: int, y: int, width: int, height: int)

  /** Event-mask bits a client can select on a window; the window manager only ever selects enter events. */
  datatype EventMask = EnterWindow

  /**
   * The server's answers while one notification is handled: a window absent
   * from `geometry` gets no GetGeometry reply; `pointer` is the QueryPointer
   * reply, relative to the root window.
   */
  datatype Server = Server(geometry: map<Window, Geometry>, pointer: Point)

  /** The notifications the dispatcher tells apart; `Unhandled` stands for every other kind. */
  datatype Event =
    | CreateNotify(window: Window, overrideRedirect: bool)
    | DestroyNotify(window: Window)
    | EnterNotify(window: Window)          // the `event` field of the notification
    | MapNotify(window: Window, overrideRedirect: bool)
    | ButtonPress(child: Window, detail: nat)
    | MotionNotify
    | ButtonRelease
    | ConfigureNotify(window: Window)
    | Unhandled

  /**
   * The requests the window manager sends. A border pixmap and its graphics
   * context are named by the window they decorate; both are freed by the
   * call that makes them.
   */
  datatype Request =
    | SelectInput(win: Window, mask: set<EventMask>)        // ChangeWindowAttributes(EVENT_MASK)
    | SetBorderWidth(win: Window, width: int)               // ConfigureWindow(BORDER_WIDTH)
    | SetBorderPixel(win: Window, colour: Colour)           // ChangeWindowAttributes(BORDER_PIXEL)
    | CreatePixmap(win: Window, width: int, height: int)
    | CreateGC(win: Window)
    | SetForeground(win: Window, colour: Colour)            // ChangeGC(FOREGROUND)
    | FillRectangles(win: Window, rects: seq<Rect>)         // PolyFillRectangle
    | SetBorderPixmap(win: Window)                          // ChangeWindowAttributes(BORDER_PIXMAP)
    | FreePixmap(win: Window)
    | FreeGC(win: Window)
    | SetInputFocus(win: Window)
    | KillClient(win: Window)
    | MapWindow(win: Window)
    | Raise(win: Window)                                    // ConfigureWindow(STACK_MODE = Above)
    | WarpPointer(win: Window, x: int, y: int)
    | GrabPointer
    | UngrabPointer
    | MoveWindow(win: Window, x: int, y: int)               // ConfigureWindow(X | Y)
    | ResizeWindow(win: Window, width: int, height: int)    // ConfigureWindow(WIDTH | HEIGHT)
  {
    /** The window a request is about, if any. */
    function Target(): Option<Window> {
      if GrabPointer? || UngrabPointer? then None else Some(win)
    }
  }
}
