/**
 * Concrete runs that exhibit each resource bug of the procedures as written,
 * next to the same run on the corrected procedure, and two properties of
 * sequences of handler calls. Strides are those of ARGB32, 4 bytes a pixel.
 */
module Scenarios {
  import opened Resources
  import opened Shm
  import opened Ui

  /** Four bytes a pixel, with no padding. */
  function Argb32Stride(width: int): int
  {
    4 * width
  }

  /**
   * window_resize as written, on a 640 x 480 window and a run in which no call
   * fails: afterwards the caller's window is freed, yet a window record is
   * still allocated that no pointer reaches.
   */
  method ResizeLosesNewWindow() returns (os: Os, w: Window)
    ensures w !in os.heap
    ensures exists lost: Window :: lost in os.heap && lost != w
  {
    os := new Os({}, Argb32Stride);
    var created := WindowCreate(os, ClientHandles(0, 1), 640, 480);
    assert !FaultIn(os.failing, 0, os.calls);
    w := created;
    WindowResize(os, w, DEFAULT_SIZE, DEFAULT_SIZE);
  }

  /** The same run with the corrected window_resize: the caller gets a live 400 x 400 window back. */
  method ResizeKeepsNewWindow() returns (os: Os, w: Window?)
    ensures w != null && w in os.heap && w.Valid(os)
    ensures w.rect == Rect(0, 0, DEFAULT_SIZE, DEFAULT_SIZE)
  {
    os := new Os({}, Argb32Stride);
    var created := WindowCreate(os, ClientHandles(0, 1), 640, 480);
    assert !FaultIn(os.failing, 0, os.calls);
    var before := os.calls;
    w := WindowResizeFixed(os, created, DEFAULT_SIZE, DEFAULT_SIZE);
    assert !FaultIn(os.failing, before, os.calls);
    assert w.Wired();
  }

  /**
   * window_create as written when its first checked call, the malloc of the
   * pool record, fails: it returns null and the window record stays
   * allocated. The corrected window_create leaves the heap empty.
   */
  method CreateFailureLeaksWindow() returns (leaked: set<object>, leakedFixed: set<object>)
    ensures |leaked| == 1
    ensures leakedFixed == {}
  {
    var os := new Os({0}, Argb32Stride);
    var w := WindowCreate(os, ClientHandles(0, 1), 640, 480);
    FaultInOne(os.failing, 0);
    FaultInSplit(os.failing, 0, 1, os.calls);
    assert w == null;
    leaked := os.heap;
    ghost var lw: Window :| fresh(lw) && os.heap == {} + {lw};
    assert leaked == {lw};

    var osFixed := new Os({0}, Argb32Stride);
    var wFixed := WindowCreateFixed(osFixed, ClientHandles(0, 1), 640, 480);
    FaultInOne(osFixed.failing, 0);
    FaultInSplit(osFixed.failing, 0, 1, osFixed.calls);
    leakedFixed := osFixed.heap;
  }

  /**
   * make_shm_pool as written when wl_shm_create_pool, its third checked call,
   * fails: it reports failure, yet a 4096-byte mapping stays, and its address
   * is handed back only through an out-parameter the caller ignores on this
   * path. The corrected make_shm_pool leaves no mapping.
   */
  method PoolFailureLeaksMapping() returns (maps: map<nat, nat>, mapsFixed: map<nat, nat>)
    ensures |maps| == 1 && 4096 in maps.Values
    ensures mapsFixed == map[]
  {
    var os := new Os({2}, Argb32Stride);
    var pool, data := MakeShmPool(os, 4096);
    FaultInOne(os.failing, 2);
    FaultInSplit(os.failing, 0, 2, 3);
    assert pool.None? && data >= 0 && os.maps == map[data := 4096];
    maps := os.maps;
    assert maps[data] == 4096;

    var osFixed := new Os({2}, Argb32Stride);
    var poolFixed, _ := MakeShmPoolFixed(osFixed, 4096);
    FaultInOne(osFixed.failing, 2);
    FaultInSplit(osFixed.failing, 0, 2, osFixed.calls);
    mapsFixed := osFixed.maps;
  }

  /**
   * ui_toggle_fullscreen twice, from either state, restores the fullscreen
   * flag, and since one of the two calls left fullscreen, a redraw is pending.
   */
  method ToggleTwice(ui: Wayland)
    requires ui.Valid() && ui.window != null && FrameFits(ui.os, DEFAULT_SIZE, DEFAULT_SIZE)
    modifies ui`fullscreen, ui`needRedraw, ui`window, ui.os`log
    modifies ui.os`fds, ui.os`maps, ui.os`pools, ui.os`buffers, ui.os`heap, ui.os`next, ui.os`calls
    ensures ui.Valid()
    ensures ui.fullscreen == old(ui.fullscreen) && ui.needRedraw
    ensures old(ui.fullscreen) ==>
              ui.os.log == old(ui.os.log) + [SetToplevel(ui.shellSurface), SetFullscreen(ui.shellSurface)]
    ensures !old(ui.fullscreen) ==>
              ui.os.log == old(ui.os.log) + [SetFullscreen(ui.shellSurface), SetToplevel(ui.shellSurface)]
  {
    ui.ToggleFullscreen();
    ui.ToggleFullscreen();
  }

  /**
   * One or more motion events between two passes of the dispatch loop cost
   * one redraw: the flag they set is consumed by a single ui_redraw.
   */
  method MotionsCoalesce(ui: Wayland, xs: seq<real>, ys: seq<real>)
    requires ui.Valid() && ui.window != null && |xs| == |ys| > 0
    modifies ui`px, ui`py, ui`resize, ui`needRedraw, ui.os`log
    ensures ui.Valid() && !ui.needRedraw
    ensures ui.os.log == old(ui.os.log) + RedrawRequests(ui.window)
  {
    var i := 0;
    while i < |xs|
      invariant 0 <= i <= |xs|
      invariant ui.Valid() && ui.window != null && ui.window == old(ui.window)
      invariant i > 0 ==> ui.needRedraw
      invariant ui.os.log == old(ui.os.log)
    {
      ui.PointerHandleMotion(xs[i], ys[i]);
      i := i + 1;
    }
    ui.UiRedraw();
  }
}
