/**
 * The input handlers of the client (examples/ui.c): how pointer position,
 * buttons, keys and modifiers become client state and shell requests, and how
 * the need_redraw flag schedules redraws.
 *
 * The handlers run on the corrected window_resize (Shm.WindowResizeFixed),
 * whose new window is stored back into the client record; see Shm.WindowResize
 * for the procedure as written.
 */
module Ui {
  import opened Resources
  import opened Shm

  /** wl_shell_surface.resize, from the Wayland core protocol. */
  const RESIZE_NONE: int := 0
  const RESIZE_TOP: int := 1
  const RESIZE_BOTTOM: int := 2
  const RESIZE_LEFT: int := 4
  const RESIZE_TOP_LEFT: int := 5
  const RESIZE_BOTTOM_LEFT: int := 6
  const RESIZE_RIGHT: int := 8
  const RESIZE_TOP_RIGHT: int := 9
  const RESIZE_BOTTOM_RIGHT: int := 10

  /** The width of the band along each border in which a press starts a resize. */
  const MARGIN: int := 10

  /** The client's own modifier bits. */
  const MOD_MASK_NONE: bv32 := 0
  const MOD_MASK_CTRL: bv32 := 1
  const MOD_MASK_ALT: bv32 := 2
  const MOD_MASK_SHIFT: bv32 := 4
  const MOD_MASK_LOGO: bv32 := 8

  /** BTN_LEFT from linux/input-event-codes.h. */
  const BTN_LEFT: nat := 0x110
  const WL_POINTER_BUTTON_STATE_PRESSED: nat := 1
  const WL_KEYBOARD_KEY_STATE_PRESSED: nat := 1

  /** The bytes of 'q', 'f' and 'r'. */
  const KEY_Q: bv8 := 0x71
  const KEY_F: bv8 := 0x66
  const KEY_R: bv8 := 0x72

  /** The size the window takes when it leaves fullscreen or on 'r'. */
  const DEFAULT_SIZE: int := 400

  /** C's `n / 4` on int, which truncates toward zero. */
  function Quarter(n: int): (q: int)
    ensures n >= 0 ==> 0 <= n - 4 * q < 4
    ensures n < 0 ==> 0 <= 4 * q - n < 4
  {
    if n >= 0 then n / 4 else -((-n) / 4)
  }

  predicate IsEdge(edge: int)
  {
    edge in {RESIZE_NONE, RESIZE_TOP, RESIZE_BOTTOM, RESIZE_LEFT, RESIZE_TOP_LEFT,
             RESIZE_BOTTOM_LEFT, RESIZE_RIGHT, RESIZE_TOP_RIGHT, RESIZE_BOTTOM_RIGHT}
  }

  /** The pointer is at least MARGIN away from every border (it may sit exactly MARGIN away). */
  predicate Inside(px: real, py: real, width: int, height: int)
  {
    MARGIN as real <= px <= (width - MARGIN) as real && MARGIN as real <= py <= (height - MARGIN) as real
  }

  /**
   * get_resize_state on the pointer position (px, py) and the window size
   * reported by window_get_width_height. The left and right bands win over the
   * top and bottom ones, and each band is split into a corner zone of a quarter
   * of the window at either end.
   */
  function GetResizeState(px: real, py: real, width: int, height: int): (edge: int)
    ensures IsEdge(edge)
    ensures edge == RESIZE_NONE <==> Inside(px, py, width, height)
  {
    if px < MARGIN as real then
      if py < Quarter(height) as real then RESIZE_TOP_LEFT
      else if py > (height - Quarter(height)) as real then RESIZE_BOTTOM_LEFT
      else RESIZE_LEFT
    else if px > (width - MARGIN) as real then
      if py < Quarter(height) as real then RESIZE_TOP_RIGHT
      else if py > (height - Quarter(height)) as real then RESIZE_BOTTOM_RIGHT
      else RESIZE_RIGHT
    else if py < MARGIN as real then
      if px < Quarter(width) as real then RESIZE_TOP_LEFT
      else if px > (width - Quarter(width)) as real then RESIZE_TOP_RIGHT
      else RESIZE_TOP
    else if py > (height - MARGIN) as real then
      if px < Quarter(width) as real then RESIZE_BOTTOM_LEFT
      else if px > (width - Quarter(width)) as real then RESIZE_BOTTOM_RIGHT
      else RESIZE_BOTTOM
    else
      RESIZE_NONE
  }

  /** The edge made of the given sides: each side is one bit of the protocol value. */
  function Sides(top: bool, bottom: bool, left: bool, right: bool): int
  {
    (if top then RESIZE_TOP else 0) + (if bottom then RESIZE_BOTTOM else 0)
    + (if left then RESIZE_LEFT else 0) + (if right then RESIZE_RIGHT else 0)
  }

  /** In the left or right band, which take precedence over the top and bottom ones. */
  predicate SideBand(px: real, width: int)
  {
    px < MARGIN as real || px > (width - MARGIN) as real
  }

  /** In the top or bottom band (and not in a side band). */
  predicate EndBand(px: real, py: real, width: int, height: int)
  {
    !SideBand(px, width) && (py < MARGIN as real || py > (height - MARGIN) as real)
  }

  predicate NearLeft(px: real, py: real, width: int, height: int)
  {
    || px < MARGIN as real
    || (EndBand(px, py, width, height) && px < Quarter(width) as real)
  }

  predicate NearRight(px: real, py: real, width: int, height: int)
  {
    || (!(px < MARGIN as real) && px > (width - MARGIN) as real)
    || (EndBand(px, py, width, height) && !(px < Quarter(width) as real) && px > (width - Quarter(width)) as real)
  }

  predicate NearTop(px: real, py: real, width: int, height: int)
  {
    || (SideBand(px, width) && py < Quarter(height) as real)
    || (!SideBand(px, width) && py < MARGIN as real)
  }

  predicate NearBottom(px: real, py: real, width: int, height: int)
  {
    || (SideBand(px, width) && !(py < Quarter(height) as real) && py > (height - Quarter(height)) as real)
    || (EndBand(px, py, width, height) && !(py < MARGIN as real))
  }

  /**
   * The classifier side by side: the edge holds exactly the sides the pointer
   * is near, never two opposite sides, and a corner only where a band meets a
   * quarter zone. In the left band the edge is TOP_LEFT, BOTTOM_LEFT or LEFT
   * by comparing py with height/4 and height - height/4; the right band is
   * symmetric; the top and bottom bands split at width/4 in the same way.
   */
  lemma ResizeStateBySide(px: real, py: real, width: int, height: int)
    ensures GetResizeState(px, py, width, height) ==
              Sides(NearTop(px, py, width, height), NearBottom(px, py, width, height),
                    NearLeft(px, py, width, height), NearRight(px, py, width, height))
    ensures !(NearTop(px, py, width, height) && NearBottom(px, py, width, height))
    ensures !(NearLeft(px, py, width, height) && NearRight(px, py, width, height))
    ensures (|| NearLeft(px, py, width, height) || NearRight(px, py, width, height)
             || NearTop(px, py, width, height) || NearBottom(px, py, width, height))
            <==> !Inside(px, py, width, height)
  {
  }

  /**
   * The modifier set keyboard_handle_modifiers computes from the effective xkb
   * mask, given the xkb indices of Control, Mod1, Shift and Mod4.
   */
  function ModsFor(mask: bv32, ctrl: nat, alt: nat, shift: nat, logo: nat): (mods: bv32)
    requires ctrl < 32 && alt < 32 && shift < 32 && logo < 32
    ensures mods < 16
    ensures mods & MOD_MASK_CTRL != 0 <==> mask & (1 << ctrl) != 0
    ensures mods & MOD_MASK_ALT != 0 <==> mask & (1 << alt) != 0
    ensures mods & MOD_MASK_SHIFT != 0 <==> mask & (1 << shift) != 0
    ensures mods & MOD_MASK_LOGO != 0 <==> mask & (1 << logo) != 0
  {
    (if mask & (1 << ctrl) != 0 then MOD_MASK_CTRL else MOD_MASK_NONE)
    | (if mask & (1 << alt) != 0 then MOD_MASK_ALT else MOD_MASK_NONE)
    | (if mask & (1 << shift) != 0 then MOD_MASK_SHIFT else MOD_MASK_NONE)
    | (if mask & (1 << logo) != 0 then MOD_MASK_LOGO else MOD_MASK_NONE)
  }

  datatype KeyAction = Ignore | Quit | Fullscreen | ResizeAndRedraw | Redraw

  /**
   * What keyboard_handle_key does with a key, once xkb has written its UTF-8
   * text into `utf8` (the bytes xkb_keysym_to_utf8 wrote, terminating NUL
   * included, so a key without text gives at most the NUL).
   */
  function KeyDecision(state: nat, utf8: seq<bv8>): (a: KeyAction)
    ensures a == Ignore <==> state != WL_KEYBOARD_KEY_STATE_PRESSED || |utf8| <= 1
    ensures a == Quit <==> state == WL_KEYBOARD_KEY_STATE_PRESSED && |utf8| > 1 && utf8[0] == KEY_Q
    ensures a == Fullscreen <==> state == WL_KEYBOARD_KEY_STATE_PRESSED && |utf8| > 1 && utf8[0] == KEY_F
    ensures a == ResizeAndRedraw <==> state == WL_KEYBOARD_KEY_STATE_PRESSED && |utf8| > 1 && utf8[0] == KEY_R
    ensures a == Redraw <==>
              state == WL_KEYBOARD_KEY_STATE_PRESSED && |utf8| > 1 && utf8[0] !in {KEY_Q, KEY_F, KEY_R}
  {
    var len := if |utf8| > 0 then |utf8| - 1 else 0;
    if state == WL_KEYBOARD_KEY_STATE_PRESSED && len != 0 then
      if utf8[0] == KEY_Q then Quit
      else if utf8[0] == KEY_F then Fullscreen
      else if utf8[0] == KEY_R then ResizeAndRedraw
      else Redraw
    else
      Ignore
  }

  datatype ShellRequest = NoRequest | MoveRequest | ResizeRequest(edges: int)

  /** What pointer_handle_button asks of the shell, given the edge stored by the last motion. */
  function ButtonDecision(button: nat, state: nat, resize: int): (r: ShellRequest)
    ensures r == NoRequest <==> button != BTN_LEFT || state != WL_POINTER_BUTTON_STATE_PRESSED
    ensures r == MoveRequest <==> button == BTN_LEFT && state == WL_POINTER_BUTTON_STATE_PRESSED && resize == 0
    ensures r.ResizeRequest? <==> button == BTN_LEFT && state == WL_POINTER_BUTTON_STATE_PRESSED && resize != 0
    ensures r.ResizeRequest? ==> r.edges == resize
  {
    if button == BTN_LEFT && state == WL_POINTER_BUTTON_STATE_PRESSED then
      if resize != 0 then ResizeRequest(resize) else MoveRequest
    else
      NoRequest
  }

  /** The xkb part of the client record: the modifier indices of the keymap and the current modifier set. */
  class Xkb {
    const ctrl: nat
    const alt: nat
    const shift: nat
    const logo: nat
    var mods: bv32

    /** Every index names a bit of a 32-bit mask. */
    predicate Valid()
    {
      ctrl < 32 && alt < 32 && shift < 32 && logo < 32
    }

    /** The record once the keymap handler has looked the indices up. */
    constructor (ctrl: nat, alt: nat, shift: nat, logo: nat)
      requires ctrl < 32 && alt < 32 && shift < 32 && logo < 32
      ensures Valid() && this.ctrl == ctrl && this.alt == alt && this.shift == shift && this.logo == logo
      ensures mods == MOD_MASK_NONE
    {
      this.ctrl, this.alt, this.shift, this.logo := ctrl, alt, shift, logo;
      mods := MOD_MASK_NONE;
    }
  }

  /** Nothing the process owns or the compositor holds has changed. */
  twostate predicate ResourcesKept(os: Os)
    reads os
  {
    unchanged(os`fds, os`maps, os`pools, os`buffers, os`heap, os`calls)
  }

  /** The client record, struct wayland_t, reduced to what the handlers read and write. */
  class Wayland {
    const os: Os
    /** The wl_shm global and the wl_surface. */
    const handles: ClientHandles
    const shellSurface: nat
    const seat: nat
    const xkb: Xkb
    var window: Window?
    /** The pointer position of the last motion event. */
    var px: real
    var py: real
    /** The edge under the pointer at the last motion event. */
    var resize: int
    var fullscreen: bool
    var needRedraw: bool

    /** The window, when there is one, is live and presents on this client's surface. */
    ghost predicate Valid()
      reads this`window, os, window, if window == null then {} else window.Repr
    {
      && os.Valid()
      && (window != null ==> window.Valid(os) && window.ui == handles && window.surface == handles.surface)
    }

    /**
     * The record as init_ui leaves it: zero-filled by xzalloc, with the window
     * window_create returned and need_redraw set.
     */
    constructor (os: Os, handles: ClientHandles, shellSurface: nat, seat: nat, xkb: Xkb, window: Window?)
      requires os.Valid()
      requires window != null ==> window.Valid(os) && window.ui == handles && window.surface == handles.surface
      ensures Valid()
      ensures this.os == os && this.handles == handles && this.shellSurface == shellSurface
      ensures this.seat == seat && this.xkb == xkb && this.window == window
      ensures px == 0.0 && py == 0.0 && resize == RESIZE_NONE && !fullscreen && needRedraw
    {
      this.os, this.handles, this.shellSurface, this.seat, this.xkb := os, handles, shellSurface, seat, xkb;
      this.window := window;
      px, py, resize, fullscreen := 0.0, 0.0, RESIZE_NONE, false;
      needRedraw := true;
    }

    /** window_resize(ui->window, width, height), with the new window stored back. */
    method ResizeWindow(width: int, height: int)
      requires Valid() && window != null && FrameFits(os, width, height)
      modifies this`window, os`fds, os`maps, os`pools, os`buffers, os`heap, os`next, os`calls
      ensures Valid()
      ensures Resized(os, old(window), window, width, height)
    {
      window := WindowResizeFixed(os, window, width, height);
    }

    /** What ui_toggle_fullscreen does, `before` being the window it started with. */
    twostate predicate Toggled(before: Window?)
      reads this, os, window, if window == null then {} else window.Repr
      reads before, if before == null then {} else before.Repr
    {
      && fullscreen == !old(fullscreen)
      && (fullscreen ==>
            && os.log == old(os.log) + [SetFullscreen(shellSurface)]
            && needRedraw == old(needRedraw) && window == before && ResourcesKept(os))
      && (!fullscreen ==>
            && os.log == old(os.log) + [SetToplevel(shellSurface)]
            && needRedraw && before != null && Resized(os, before, window, DEFAULT_SIZE, DEFAULT_SIZE))
    }

    /**
     * ui_toggle_fullscreen: entering fullscreen asks the shell for it and
     * touches nothing else; leaving it asks for a toplevel, resizes the window
     * to 400 x 400 and schedules a redraw.
     */
    method ToggleFullscreen()
      requires Valid()
      requires fullscreen ==> window != null && FrameFits(os, DEFAULT_SIZE, DEFAULT_SIZE)
      modifies this`fullscreen, this`needRedraw, this`window, os`log
      modifies os`fds, os`maps, os`pools, os`buffers, os`heap, os`next, os`calls
      ensures Valid()
      ensures Toggled(old(window))
    {
      fullscreen := !fullscreen;
      if fullscreen {
        os.Emit(SetFullscreen(shellSurface));
      } else {
        os.Emit(SetToplevel(shellSurface));
        ResizeWindow(DEFAULT_SIZE, DEFAULT_SIZE);
        needRedraw := true;
      }
    }

    /**
     * keyboard_handle_key after the keysym has become `utf8`: 'q' asks the
     * caller to quit and changes nothing, 'f' toggles fullscreen and nothing
     * more, 'r' resizes to 400 x 400 and schedules a redraw, any other key with
     * text schedules a redraw, and a release or a key without text changes
     * nothing.
     */
    method KeyboardHandleKey(state: nat, utf8: seq<bv8>) returns (quit: bool)
      requires Valid()
      requires KeyDecision(state, utf8) == ResizeAndRedraw ==>
                 window != null && FrameFits(os, DEFAULT_SIZE, DEFAULT_SIZE)
      requires KeyDecision(state, utf8) == Fullscreen && fullscreen ==>
                 window != null && FrameFits(os, DEFAULT_SIZE, DEFAULT_SIZE)
      modifies this`fullscreen, this`needRedraw, this`window, os`log
      modifies os`fds, os`maps, os`pools, os`buffers, os`heap, os`next, os`calls
      ensures Valid()
      ensures quit <==> KeyDecision(state, utf8) == Quit
      ensures KeyDecision(state, utf8) in {Ignore, Quit} ==>
                && fullscreen == old(fullscreen) && needRedraw == old(needRedraw)
                && window == old(window) && os.log == old(os.log) && ResourcesKept(os)
      ensures KeyDecision(state, utf8) == Fullscreen ==> Toggled(old(window))
      ensures KeyDecision(state, utf8) == ResizeAndRedraw ==>
                && needRedraw && fullscreen == old(fullscreen) && os.log == old(os.log)
                && Resized(os, old(window), window, DEFAULT_SIZE, DEFAULT_SIZE)
      ensures KeyDecision(state, utf8) == Redraw ==>
                && needRedraw && fullscreen == old(fullscreen)
                && window == old(window) && os.log == old(os.log) && ResourcesKept(os)
    {
      quit := false;
      var len := |utf8|;
      if len > 0 {
        len := len - 1;
      }
      if state == WL_KEYBOARD_KEY_STATE_PRESSED && len != 0 {
        if utf8[0] == KEY_Q {
          return true;
        }
        if utf8[0] == KEY_F {
          ToggleFullscreen();
          return;
        }
        if utf8[0] == KEY_R {
          ResizeWindow(DEFAULT_SIZE, DEFAULT_SIZE);
        }
        needRedraw := true;
      }
    }

    /**
     * keyboard_handle_modifiers once xkb has serialised the effective mask:
     * the modifier set is rebuilt from nothing, one bit per modifier.
     */
    method KeyboardHandleModifiers(effective: bv32)
      requires xkb.Valid()
      modifies xkb`mods
      ensures xkb.mods == ModsFor(effective, xkb.ctrl, xkb.alt, xkb.shift, xkb.logo)
    {
      xkb.mods := MOD_MASK_NONE;
      if effective & (1 << xkb.ctrl) != 0 {
        xkb.mods := xkb.mods | MOD_MASK_CTRL;
      }
      if effective & (1 << xkb.alt) != 0 {
        xkb.mods := xkb.mods | MOD_MASK_ALT;
      }
      if effective & (1 << xkb.shift) != 0 {
        xkb.mods := xkb.mods | MOD_MASK_SHIFT;
      }
      if effective & (1 << xkb.logo) != 0 {
        xkb.mods := xkb.mods | MOD_MASK_LOGO;
      }
    }

    /**
     * pointer_handle_motion with the position already converted from fixed
     * point: stores it, classifies it against the window size and schedules
     * a redraw.
     */
    method PointerHandleMotion(sx: real, sy: real)
      requires Valid() && window != null
      modifies this`px, this`py, this`resize, this`needRedraw
      ensures Valid()
      ensures px == sx && py == sy && needRedraw
      ensures resize == GetResizeState(sx, sy, window.rect.width, window.rect.height)
      ensures IsEdge(resize)
    {
      px := sx;
      py := sy;
      var width, height := WindowGetWidthHeight(window);
      resize := GetResizeState(px, py, width, height);
      needRedraw := true;
    }

    /**
     * pointer_handle_button: a left press asks the shell to resize along the
     * stored edge, or to move when the pointer is on no edge; anything else
     * asks nothing.
     */
    method PointerHandleButton(serial: nat, button: nat, state: nat)
      modifies os`log
      ensures ButtonDecision(button, state, resize) == NoRequest ==> os.log == old(os.log)
      ensures ButtonDecision(button, state, resize) == MoveRequest ==>
                os.log == old(os.log) + [Move(shellSurface, seat, serial)]
      ensures ButtonDecision(button, state, resize).ResizeRequest? ==>
                os.log == old(os.log) + [Resize(shellSurface, seat, serial, resize)]
    {
      if button == BTN_LEFT && state == WL_POINTER_BUTTON_STATE_PRESSED {
        if resize != 0 {
          os.Emit(Resize(shellSurface, seat, serial, resize));
        } else {
          os.Emit(Move(shellSurface, seat, serial));
        }
      }
    }

    /** handle_configure: resizes the window to the size the shell suggests and schedules a redraw. */
    method HandleConfigure(edges: nat, width: int, height: int)
      requires Valid() && window != null && FrameFits(os, width, height)
      modifies this`window, this`needRedraw
      modifies os`fds, os`maps, os`pools, os`buffers, os`heap, os`next, os`calls
      ensures Valid() && needRedraw
      ensures Resized(os, old(window), window, width, height)
    {
      ResizeWindow(width, height);
      needRedraw := true;
    }

    /**
     * ui_redraw: redraws the window once if a redraw is pending and nothing
     * otherwise; either way no redraw is pending afterwards.
     */
    method UiRedraw()
      requires Valid() && (needRedraw ==> window != null)
      modifies this`needRedraw, os`log
      ensures Valid() && !needRedraw
      ensures old(needRedraw) ==> os.log == old(os.log) + RedrawRequests(window)
      ensures !old(needRedraw) ==> os.log == old(os.log)
    {
      if needRedraw {
        WindowRedraw(os, window);
        needRedraw := false;
      }
    }
  }
}
