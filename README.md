# Shared-memory window and input handlers of a minimal Wayland client

This project models, in Dafny, the core of a small Wayland client (the `examples/` client of a wlroots
fork) and proves properties of that model.

It covers two source files:

- `examples/shm.c`: the shared-memory buffer pool and the window built on it.
  - A pool maps one anonymous file, registers it with the compositor as a `wl_shm_pool`, and hands out
    byte ranges by bumping `used`.
  - `create_shm_surface_from_pool` draws a cairo surface over one such range and describes the same
    bytes to the compositor as a `wl_buffer`.
  - The surface's user-data destroy hook releases the buffer and, if it was given the pool, the pool.
  - A window owns the surface. Creating a window builds the pool for exactly one frame and the surface
    in it. Destroying the window tears it all down. Resizing is destroy-then-create.
- `examples/ui.c`: the input handlers.
  - The resize-edge classifier and the move-or-resize decision.
  - The key decision and the modifier mask mapping.
  - Fullscreen toggling.
  - The `need_redraw` flag that schedules redraws.

Files:

- `resources.dfy` (module `Resources`): the world outside the client, as a class `Os`.
  - It tracks open descriptors, mappings, compositor pools and buffers, the heap records the process
    owns, and the log of requests sent.
  - Every call the source checks for failure consults a fault script: the k-th checked call fails
    iff k is in `failing`. `FaultIn` says whether a run of calls contains a failure.
- `bump.dfy` (module `Bump`): bump allocation as a sequence of ranges that tile the used prefix of a
  pool, with the lemmas that make grants disjoint and contiguous.
- `shm.dfy` (module `Shm`): the pool, surface user data, cairo surface and window records as classes,
  and the procedures of `shm.c` as methods over them.
  - Members named `...Fixed` are corrected versions of procedures that leak or lose a resource (see
    Findings).
- `ui.dfy` (module `Ui`): the classifier and decisions as functions, and the client record
  `wayland_t` as a class whose methods are the handlers.
- `scenarios.dfy` (module `Scenarios`):
  - concrete runs that exhibit each finding next to the corrected procedure;
  - toggling fullscreen twice;
  - several motion events between two redraws.

Three details of the code that the model follows as written:

- Window creation is not all-or-nothing. Both failure paths of `window_create` (shm.c:218-219 and
  225-226) return without freeing the window record. A failed `wl_shm_create_pool` (shm.c:95-99)
  can also leave a mapping behind.
- `shm_pool_destroy` unmaps the memory before it destroys the compositor pool (shm.c:138-139).
  `Shm.ShmPoolDestroy` makes the two calls in that order, but the `Os` state cannot observe the
  order of two releases.
- The comment in front of `shm_pool_destroy` (shm.c:134) says the memory is not unmapped. The code
  does unmap it, and `Shm.ShmPoolDestroy` unmaps it.

## Model

| member | source | states |
|---|---|---|
| `Resources.Os.Malloc` | examples/shm.c:105-108 | a checked malloc succeeds iff its call is not scripted to fail; only then is the record owned by the process |
| `Resources.Os.Track` | examples/shm.c:206 | the unchecked malloc of the window record always adds the record to the heap |
| `Resources.Os.Free` | examples/shm.c:112 | free removes exactly that record from the heap |
| `Resources.Os.CreateAnonymousFile` | examples/shm.c:81-86 | returns -1 and opens nothing on failure, otherwise a descriptor that was not open before and is now |
| `Resources.Os.Close` | examples/shm.c:97 | close removes exactly that descriptor |
| `Resources.Os.Mmap` | examples/shm.c:88-93 | returns -1 (MAP_FAILED) and maps nothing on failure, otherwise a new address mapped with the requested length |
| `Resources.Os.Munmap` | examples/shm.c:138 | munmap of a live mapping of that length removes exactly it |
| `Resources.Os.CreatePool` | examples/shm.c:95 | wl_shm_create_pool returns None and registers nothing on failure, otherwise a new pool handle of the given size |
| `Resources.Os.DestroyPool` | examples/shm.c:139 | wl_shm_pool_destroy removes exactly that pool |
| `Resources.Os.CreateBuffer` | examples/shm.c:192-195 | wl_shm_pool_create_buffer adds one new buffer with exactly the given pool, offset, size, stride and format |
| `Resources.Os.DestroyBuffer` | examples/shm.c:68 | wl_buffer_destroy removes exactly that buffer |
| `Bump.TilesAppend` | examples/shm.c:128-129 | granting the next len bytes at the end of a tiled prefix [lo, hi) gives a tiling of [lo, hi + len) |
| `Bump.TilesTotal` | examples/shm.c:122-132 | the grants of a tiling add up to exactly the tiled length |
| `Bump.TilesContiguous` | examples/shm.c:122-132 | every grant lies inside the tiled range and starts where the one before it ends |
| `Bump.TilesDisjoint` | examples/shm.c:122-132 | an earlier grant ends at or before a later one starts, so grants never overlap |
| `Shm.DataLength` | examples/shm.c:143-151 | stride * height fits a C int, and is zero iff the height or the stride is zero |
| `Shm.ShmPool.Allocate` | examples/shm.c:122-132 | when used + len > size it returns nothing and changes nothing; otherwise it returns offset = old used and address data + old used, used grows by len, and used <= size is kept |
| `Shm.GrantsDisjoint` | examples/shm.c:122-132 | whatever allocations a valid pool has served, its grants are pairwise disjoint, contiguous, inside [0, size) and add up to used |
| `Shm.ShmPoolDestroy` | examples/shm.c:134-141 | releases the pool's mapping, its wl_shm_pool and its record, each once, and nothing else; the memory is unmapped despite the comment |
| `Shm.ShmSurfaceDataDestroy` | examples/shm.c:64-73 | always releases the buffer and the record; releases the pool's mapping, wl_shm_pool and record iff the record owns a pool |
| `Shm.CairoSurfaceDestroy` | examples/shm.c:238 | destroying the surface runs the user-data hook (when set) and frees the surface |
| `Shm.MakeShmPool` | examples/shm.c:75-100 | the descriptor it opens is closed on every path; it fails iff one of its checked calls fails; if the file or the mapping fails nothing is mapped; if registering the pool fails the new mapping stays |
| `Shm.MakeShmPoolFixed` | examples/shm.c:75-100 | as MakeShmPool, but a failure leaves no mapping and no pool behind |
| `Shm.ShmPoolCreate` | examples/shm.c:102-120 | returns a fresh valid pool of the requested size with used = 0, or null iff some checked call failed, with the record freed and no pool registered |
| `Shm.ShmPoolCreateFixed` | examples/shm.c:102-120 | as ShmPoolCreate over the corrected MakeShmPoolFixed: null leaves heap, pools and mappings as they were |
| `Shm.DrawFromPool` | examples/shm.c:171-197 | fails iff the frame does not fit the pool, then changes nothing; otherwise takes the next stride * height bytes and describes exactly them (offset = old used, ARGB8888) as a new buffer |
| `Shm.CreateShmSurfaceFromPool` | examples/shm.c:153-198 | fails iff the record's malloc fails or the pool is exhausted, and then changes nothing; on success the user data does not own the pool and the buffer spec matches the surface |
| `Shm.Window.constructor` | examples/shm.c:206-214 | the window record gets rectangle (0, 0, width, height), the client and the client's surface |
| `Shm.BindSurface` | examples/shm.c:221-231 | when the surface is made, the pool is handed to its hook and the window becomes valid; otherwise the pool is destroyed again |
| `Shm.FillWindow` | examples/shm.c:216-231 | fails iff a checked call fails; on success the window owns a pool of exactly one frame that is fully used by its one grant |
| `Shm.FillWindowFixed` | examples/shm.c:216-231 | as FillWindow over ShmPoolCreateFixed: failure leaves every resource as it was |
| `Shm.WindowCreate` | examples/shm.c:200-234 | returns null iff a checked call fails; on success a fresh valid window of (0, 0, w, h) whose pool holds exactly one frame; on failure the window record stays allocated |
| `Shm.WindowCreateFixed` | examples/shm.c:200-234 | as WindowCreate, but a failure leaves heap, pools, buffers and mappings exactly as they were |
| `Shm.WindowDestroy` | examples/shm.c:236-240 | releases exactly the window's records, its buffer, its pool and its mapping, each once |
| `Shm.WindowResize` | examples/shm.c:242-247 | the caller's window is freed with its mapping, wl_shm_pool and wl_buffer. A fresh window record is allocated that nothing returns. With no failing call it is a live window of the new size holding one new pool, mapping and buffer. Otherwise it is the record window_create leaks, possibly beside one frame-sized mapping |
| `Shm.WindowResizeFixed` | examples/shm.c:242-247 | the old window's records, mapping, wl_shm_pool and wl_buffer are released. The result is null iff a checked call failed, and then nothing else exists. Otherwise it is a fresh live window of the new size. Its pool, mapping and buffer were not live before and are the only ones added. Open descriptors are unchanged on both paths |
| `Shm.BufferOfWindow` | examples/shm.c:51-59 | the buffer found through a live window's cairo surface is the window's own registered wl_buffer, at offset 0 of its pool and of its size |
| `Shm.WindowRedraw` | examples/shm.c:249-259 | paints, attaches the window's own buffer at (0, 0), damages exactly the window rectangle and commits, in that order, and nothing else |
| `Shm.WindowGetWidthHeight` | examples/shm.c:261-265 | returns the rectangle's width and height |
| `Ui.Quarter` | examples/ui.c:271-273 | height/4 truncates toward zero as C does, also for a negative size |
| `Ui.GetResizeState` | examples/ui.c:263-300 | the result is one of the nine protocol edge values, and NONE exactly when 10 <= px <= width-10 and 10 <= py <= height-10 |
| `Ui.ResizeStateBySide` | examples/ui.c:270-299 | the edge is the sum of the sides the pointer is near. Left band: TOP_LEFT/BOTTOM_LEFT/LEFT by height/4 and height - height/4; right band symmetric; top and bottom bands only outside them, split at width/4. Never two opposite sides |
| `Ui.ModsFor` | examples/ui.c:209-218 | each of CTRL, ALT, SHIFT and LOGO is set iff the bit at its xkb index is set in the effective mask, and nothing else, so mods < 16 |
| `Ui.KeyDecision` | examples/ui.c:180-195 | a release or a key without text is ignored; with text, 'q' quits, 'f' toggles fullscreen, 'r' resizes and redraws, any other key redraws |
| `Ui.ButtonDecision` | examples/ui.c:321-326 | a left press asks for resize along the stored edge if it is nonzero and for move otherwise; other buttons and releases ask nothing |
| `Ui.Wayland.constructor` | examples/ui.c:501-516 | the record starts outside fullscreen, with the pointer at (0, 0), no edge, the created window and a redraw pending |
| `Ui.Wayland.ResizeWindow` | examples/ui.c:373 | window_resize on the record's window, with the result stored back. The old window's resources are released. The record then holds a fresh window of the new size with exactly one new pool, mapping and buffer, or null iff a checked call failed, with nothing new allocated. The new pool, mapping and buffer handles were not live before. Open descriptors are unchanged |
| `Ui.Wayland.ToggleFullscreen` | examples/ui.c:156-168 | flips fullscreen. Entering sends set_fullscreen and changes nothing else, need_redraw included. Leaving sends set_toplevel, sets need_redraw and resizes to 400 x 400 as ResizeWindow states, leaving the descriptors unchanged |
| `Ui.Wayland.KeyboardHandleKey` | examples/ui.c:170-196 | does what KeyDecision says: nothing on an ignored key or 'q' (which asks to quit); 'f' exactly ToggleFullscreen; 'r' a 400 x 400 resize and need_redraw; any other key only need_redraw |
| `Ui.Wayland.KeyboardHandleModifiers` | examples/ui.c:198-219 | the modifier set is rebuilt from nothing as ModsFor of the effective mask |
| `Ui.Wayland.PointerHandleMotion` | examples/ui.c:302-315 | stores the position, sets resize to GetResizeState of it and the window size, and sets need_redraw |
| `Ui.Wayland.PointerHandleButton` | examples/ui.c:317-327 | sends exactly the request ButtonDecision names (move, or resize with the stored edge) or nothing |
| `Ui.Wayland.HandleConfigure` | examples/ui.c:368-375 | resizes the window to the suggested size as ResizeWindow states, descriptors unchanged, and sets need_redraw |
| `Ui.Wayland.UiRedraw` | examples/ui.c:551-557 | if need_redraw is set, makes one window_redraw's requests; otherwise none; need_redraw is clear afterwards |
| `Scenarios.ResizeLosesNewWindow` | examples/shm.c:242-247 | after window_resize as written, the caller's window is freed while another window record stays allocated |
| `Scenarios.ResizeKeepsNewWindow` | examples/shm.c:242-247 | after the corrected resize the caller holds a live, valid 400 x 400 window |
| `Scenarios.CreateFailureLeaksWindow` | examples/shm.c:216-219 | when the pool record's malloc fails, window_create leaves one record allocated; the corrected one leaves none |
| `Scenarios.PoolFailureLeaksMapping` | examples/shm.c:95-99 | when wl_shm_create_pool fails, make_shm_pool leaves one 4096-byte mapping; the corrected one leaves none |
| `Scenarios.ToggleTwice` | examples/ui.c:156-168 | two toggles restore the fullscreen flag, leave a redraw pending and send set_fullscreen and set_toplevel in the order of the starting state |
| `Scenarios.MotionsCoalesce` | examples/ui.c:551-557 | one or more motion events followed by one ui_redraw make exactly one redraw's requests |

## Left out

- Registry binding, `init_ui` and `exit_ui` beyond the state `init_ui` leaves behind, and the
  dispatch loop: these are sequences of foreign Wayland calls and blocking I/O.
  `Ui.Wayland.constructor` takes the window `window_create` returned as a parameter.
- xkb: keymap loading, the keysym lookup and the UTF-8 conversion, and `xkb_state_update_mask` and
  serialisation.
  - `Ui.KeyDecision` takes the bytes `xkb_keysym_to_utf8` wrote, NUL included.
  - `Ui.Wayland.KeyboardHandleModifiers` takes the effective mask.
  - Modifier indices must be below 32, because a larger shift is undefined in C. `1 << 31` on a C
    `int` is undefined too. The model gives index 31 bit 31, which is what compilers produce.
- The cursor, data-device, surface-enter/leave, ping and text-input listeners: they are stubs or
  plain request forwarding.
- Painting: `paint_surface` is the single opaque `Painted` request.
- The internals of the C library, cairo and libwayland calls. Each is an abstract effect on `Os`.
  - `cairo_format_stride_for_width` is an uninterpreted function of the width.
- `Shm.WindowCreate`, `Shm.WindowCreateFixed`, `Shm.WindowResize`, `Shm.WindowResizeFixed` and the
  handlers that resize (`Ui.Wayland.ResizeWindow`, `ToggleFullscreen`, `KeyboardHandleKey`,
  `HandleConfigure`) require `FrameFits`. Under it the stride and the height are non-negative, and
  `stride * height` fits a C int.
  - `Shm.DataLength`, `Shm.DrawFromPool`, `Shm.CreateShmSurfaceFromPool`, `Shm.BindSurface`,
    `Shm.FillWindow` and `Shm.FillWindowFixed` require it too. Their only caller is window_create
    (shm.c:217, 222), so they inherit the same restriction.
  - The source checks none of this. `handle_configure` (ui.c:373) passes the compositor's int32 size
    unchanged, and cairo gives a stride of -1 for a negative or too-large width.
  - With a negative size, the source goes on with a negative `int size` (shm.c:76, 81). At best it
    then takes a failure path that leaks the window record. The model does not cover those runs.
- `Ui.GetResizeState`: the pointer position is a real number, not a float converted from 24.8 fixed
  point. The comparisons with int bounds are exact, while C converts ints above 2^24 to float
  inexactly. The subtraction `width - 10` is unbounded, while in C it overflows only within 10 of
  INT_MIN.
- `Resources.Os.Track`: the malloc of the window record, cairo surface creation and
  `wl_shm_pool_create_buffer` are modelled as never failing, because the source never checks them.
- `size_t` arithmetic in `shm_pool_allocate`: `used + size` cannot wrap here, because both are at
  most `INT_MAX`.
- `Ui.Wayland.KeyboardHandleKey`: 'q' calls `exit(0)` in the source. The model returns `quit` and
  changes nothing.
- `Ui.Wayland.ResizeWindow`: the handlers run on the corrected `window_resize`.
  - As written, `ui->window` keeps pointing at the freed window, so the next redraw or motion event
    uses freed memory.
  - `Shm.WindowResize` models that procedure, and `Scenarios.ResizeLosesNewWindow` exhibits it.
- Each `Window` records its owner's `shm` and `surface` (`ClientHandles`) instead of a pointer to the
  whole client record.
- Compositor-side timing: the compositor reads the single buffer asynchronously, and a resize can
  destroy a buffer it still holds. This is concurrency outside the client.
- `Shm.WindowResize`: when a checked call fails, it says only that the mappings either lost just
  the old window's mapping or also gained one fresh frame-sized mapping, as `Shm.WindowCreate` does.
- `Shm.WindowCreate` and `Shm.FillWindow`: on failure, say only that the mappings either are
  unchanged or gained exactly one fresh mapping of the frame's size. They do not say which failing
  call leads to which case. `Shm.MakeShmPool` says that exactly.

## Findings

| source | as written | input that shows it | evidently intended | confidence | as-written member | corrected member |
|---|---|---|---|---|---|---|
| examples/shm.c:242-247 | the new window is assigned only to the parameter `window`; the caller keeps a pointer to the destroyed window and the new one is unreachable | any valid window, e.g. 640 x 480 resized to 400 x 400 with no failing call | return the new window so that the caller stores it (`ui->window = window_resize(...)`) | high, not executed | `Shm.WindowResize`, `Scenarios.ResizeLosesNewWindow` | `Shm.WindowResizeFixed`, `Scenarios.ResizeKeepsNewWindow` |
| examples/shm.c:206-227 | both failure paths return NULL without freeing the malloc'ed window record | a run whose first checked call, the malloc of the pool record, fails | free the window record before returning NULL | high, not executed | `Shm.WindowCreate`, `Scenarios.CreateFailureLeaksWindow` | `Shm.WindowCreateFixed` |
| examples/shm.c:88-99 | when `wl_shm_create_pool` returns NULL the mapping is not unmapped, and `shm_pool_create` then frees the record that held its address | a run whose third checked call, `wl_shm_create_pool`, fails | unmap the region before returning NULL | medium (libwayland returns NULL only when out of memory), not executed | `Shm.MakeShmPool`, `Scenarios.PoolFailureLeaksMapping` | `Shm.MakeShmPoolFixed`, `Shm.ShmPoolCreateFixed` |
