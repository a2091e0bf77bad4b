/**
 * The shared-memory buffer pool and the window built on it (examples/shm.c).
 *
 * A pool owns one mapping of an anonymous file and one wl_shm_pool; it hands
 * out byte ranges by bumping `used`. A cairo surface drawn into one such range
 * carries a ShmSurfaceData record whose destroy hook releases the wl_buffer and,
 * when the record was given the pool, the pool too. A window owns the cairo
 * surface; destroying the surface therefore tears down everything the window
 * allocated.
 *
 * Members named ...Fixed are the corrected versions of procedures whose
 * as-written behaviour leaks or loses a resource; the window handlers of the
 * Ui module run on them.
 */
module Shm {
  import opened Resources
  import opened Bump

  datatype Rect = Rect(x: int, y: int, width: int, height: int)

  /** The two fields of the client record that this file reads: the wl_shm global and the wl_surface. */
  datatype ClientHandles = ClientHandles(shm: nat, surface: nat)

  /** A successful pool allocation: the offset inside the pool and the address it maps to. */
  datatype Grant = Grant(offset: nat, addr: nat)

  /** One ARGB32 frame of width x height has a non-negative stride and its byte length fits a C int. */
  predicate FrameFits(os: Os, width: int, height: int)
  {
    0 <= os.strideForWidth(width) && 0 <= height && os.strideForWidth(width) * height <= INT_MAX
  }

  /**
   * data_length_for_shm_surface: the bytes of one ARGB32 frame, stride * height,
   * for a frame whose length a C int can hold.
   */
  function DataLength(os: Os, rect: Rect): (n: nat)
    requires FrameFits(os, rect.width, rect.height)
    ensures n <= INT_MAX
    ensures n == 0 <==> rect.height == 0 || os.strideForWidth(rect.width) == 0
  {
    os.strideForWidth(rect.width) * rect.height
  }

  class ShmPool {
    /** The wl_shm_pool. */
    var pool: nat
    var size: nat
    var used: nat
    /** Base address of the mapping. */
    var data: nat
    /** The ranges handed out so far, in order. */
    ghost var granted: seq<Range>

    /** The record as malloc returns it, before any field is set. */
    constructor ()
      ensures size == 0 && used == 0 && granted == []
    {
      pool, size, used, data := 0, 0, 0, 0;
      granted := [];
    }

    /** The allocator invariant: the grants tile [0, used) and used <= size, a size that a C int can hold. */
    ghost predicate Valid()
      reads this
    {
      size <= INT_MAX && used <= size && Tiles(granted, 0, used)
    }

    /** The pool's record, mapping and wl_shm_pool are all live, and the mapping has the pool's size. */
    ghost predicate Live(os: Os)
      reads this, os
    {
      && this in os.heap
      && pool in os.pools && os.pools[pool] == size
      && data in os.maps && os.maps[data] == size
    }

    /**
     * shm_pool_allocate: the next `len` bytes, or nothing when they do not fit;
     * a refused request changes nothing.
     */
    method Allocate(len: nat) returns (r: Option<Grant>)
      requires Valid()
      modifies this`used, this`granted
      ensures Valid()
      ensures old(used) + len > size ==> r == None && used == old(used) && granted == old(granted)
      ensures old(used) + len <= size ==>
                && r == Some(Grant(old(used), data + old(used)))
                && used == old(used) + len
                && granted == old(granted) + [Range(old(used), len)]
    {
      if used + len > size {
        return None;
      }
      var offset := used;
      TilesAppend(granted, 0, used, len);
      used := used + len;
      granted := granted + [Range(offset, len)];
      r := Some(Grant(offset, data + offset));
    }
  }

  /**
   * Whatever sequence of allocations a pool has served, the grants are pairwise
   * disjoint, contiguous, inside [0, size), and add up to `used`.
   */
  lemma GrantsDisjoint(p: ShmPool)
    requires p.Valid()
    ensures forall i, j :: 0 <= i < j < |p.granted| ==> End(p.granted[i]) <= p.granted[j].offset
    ensures forall i :: 0 <= i < |p.granted| ==> End(p.granted[i]) <= p.size
    ensures forall i :: 0 < i < |p.granted| ==> p.granted[i].offset == End(p.granted[i - 1])
    ensures TotalLen(p.granted) == p.used
  {
    TilesDisjoint(p.granted, 0, p.used);
    TilesContiguous(p.granted, 0, p.used);
    TilesTotal(p.granted, 0, p.used);
  }

  class ShmSurfaceData {
    var buffer: nat
    /** The pool to destroy with the surface, when the surface owns it. */
    var pool: ShmPool?

    constructor ()
      ensures pool == null
    {
      buffer := 0;
      pool := null;
    }
  }

  /** A cairo image surface drawing into `stride * height` bytes at `data`. */
  class CairoSurface {
    const id: nat
    const data: nat
    const width: int
    const height: int
    const stride: int
    /** The user data attached under shm_surface_data_key; its destroy hook is ShmSurfaceDataDestroy. */
    var userData: ShmSurfaceData?

    constructor (id: nat, data: nat, width: int, height: int, stride: int)
      ensures this.id == id && this.data == data && this.width == width
      ensures this.height == height && this.stride == stride && userData == null
    {
      this.id, this.data, this.width, this.height, this.stride := id, data, width, height, stride;
      userData := null;
    }
  }

  /** get_buffer_from_cairo_surface */
  function BufferOf(cs: CairoSurface): nat
    requires cs.userData != null
    reads cs, cs.userData
  {
    cs.userData.buffer
  }

  /**
   * shm_pool_destroy: releases the mapping, the wl_shm_pool and the record,
   * each exactly once. The memory IS unmapped, although the comment in front
   * of the C function says otherwise.
   */
  method ShmPoolDestroy(os: Os, p: ShmPool)
    requires p.Live(os)
    modifies os`maps, os`pools, os`heap
    ensures os.maps == old(os.maps) - {p.data}
    ensures os.pools == old(os.pools) - {p.pool}
    ensures os.heap == old(os.heap) - {p}
  {
    os.Munmap(p.data, p.size);
    os.DestroyPool(p.pool);
    os.Free(p);
  }

  /**
   * shm_surface_data_destroy, the destroy hook: always releases the wl_buffer and
   * the record, and destroys the pool only when the record owns one.
   */
  method ShmSurfaceDataDestroy(os: Os, d: ShmSurfaceData)
    requires d in os.heap && d.buffer in os.buffers
    requires d.pool != null ==> d.pool.Live(os)
    modifies os`buffers, os`maps, os`pools, os`heap
    ensures os.buffers == old(os.buffers) - {d.buffer}
    ensures d.pool == null ==> os.maps == old(os.maps) && os.pools == old(os.pools)
    ensures d.pool == null ==> os.heap == old(os.heap) - {d}
    ensures d.pool != null ==> os.maps == old(os.maps) - {d.pool.data} && os.pools == old(os.pools) - {d.pool.pool}
    ensures d.pool != null ==> os.heap == old(os.heap) - {d, d.pool}
  {
    os.DestroyBuffer(d.buffer);
    if d.pool != null {
      ShmPoolDestroy(os, d.pool);
    }
    os.Free(d);
  }

  /** cairo_surface_destroy of a surface's last reference: runs the user-data hook, then frees the surface. */
  method CairoSurfaceDestroy(os: Os, cs: CairoSurface)
    requires cs in os.heap
    requires cs.userData != null ==> cs.userData in os.heap && cs.userData.buffer in os.buffers
    requires cs.userData != null && cs.userData.pool != null ==> cs.userData.pool.Live(os)
    modifies os`buffers, os`maps, os`pools, os`heap
    ensures cs.userData == null ==> os.buffers == old(os.buffers) && os.heap == old(os.heap) - {cs}
    ensures cs.userData == null ==> os.maps == old(os.maps) && os.pools == old(os.pools)
    ensures cs.userData != null ==> os.buffers == old(os.buffers) - {cs.userData.buffer}
    ensures cs.userData != null && cs.userData.pool == null ==>
              os.maps == old(os.maps) && os.pools == old(os.pools) && os.heap == old(os.heap) - {cs, cs.userData}
    ensures cs.userData != null && cs.userData.pool != null ==>
              && os.maps == old(os.maps) - {cs.userData.pool.data}
              && os.pools == old(os.pools) - {cs.userData.pool.pool}
              && os.heap == old(os.heap) - {cs, cs.userData, cs.userData.pool}
  {
    if cs.userData != null {
      ShmSurfaceDataDestroy(os, cs.userData);
    }
    os.Free(cs);
  }

  /**
   * make_shm_pool as written: creates an anonymous file, maps it, registers it
   * with the compositor and closes the descriptor. The descriptor is closed on
   * every path that opened it. When wl_shm_create_pool fails the mapping is
   * left in place and its address is lost to the caller.
   */
  method MakeShmPool(os: Os, size: nat) returns (pool: Option<nat>, data: int)
    requires os.Valid() && size <= INT_MAX
    modifies os`fds, os`maps, os`pools, os`next, os`calls
    ensures os.Valid()
    ensures os.fds == old(os.fds)
    ensures old(os.calls) < os.calls
    ensures pool.None? <==> FaultIn(os.failing, old(os.calls), os.calls)
    ensures pool.Some? ==> pool.value !in old(os.pools) && os.pools == old(os.pools)[pool.value := size]
    ensures pool.None? ==> os.pools == old(os.pools)
    // the file cannot be created: nothing is mapped
    ensures old(os.calls) in os.failing ==> os.calls == old(os.calls) + 1 && os.maps == old(os.maps)
    // the mapping fails: nothing is mapped
    ensures old(os.calls) !in os.failing && old(os.calls) + 1 in os.failing ==>
              os.calls == old(os.calls) + 2 && os.maps == old(os.maps)
    // the mapping is made, and it stays whether or not the pool can be registered
    ensures old(os.calls) !in os.failing && old(os.calls) + 1 !in os.failing ==>
              && os.calls == old(os.calls) + 3
              && 0 <= data && data !in old(os.maps) && os.maps == old(os.maps)[data := size]
  {
    var fd := os.CreateAnonymousFile(size);
    if fd < 0 {
      FaultInOne(os.failing, old(os.calls));
      return None, -1;
    }
    data := os.Mmap(size, fd);
    if data == -1 {
      FaultInOne(os.failing, old(os.calls) + 1);
      FaultInSplit(os.failing, old(os.calls), old(os.calls) + 1, os.calls);
      os.Close(fd);
      return None, data;
    }
    pool := os.CreatePool(fd, size);
    FaultInOne(os.failing, old(os.calls));
    FaultInOne(os.failing, old(os.calls) + 1);
    FaultInOne(os.failing, old(os.calls) + 2);
    FaultInSplit(os.failing, old(os.calls), old(os.calls) + 1, old(os.calls) + 2);
    FaultInSplit(os.failing, old(os.calls), old(os.calls) + 2, os.calls);
    os.Close(fd);
  }

  /** make_shm_pool, corrected: a failed wl_shm_create_pool also unmaps the memory, so failure leaves no trace. */
  method MakeShmPoolFixed(os: Os, size: nat) returns (pool: Option<nat>, data: int)
    requires os.Valid() && size <= INT_MAX
    modifies os`fds, os`maps, os`pools, os`next, os`calls
    ensures os.Valid()
    ensures os.fds == old(os.fds)
    ensures old(os.calls) < os.calls
    ensures pool.None? <==> FaultIn(os.failing, old(os.calls), os.calls)
    ensures pool.Some? ==>
              && 0 <= data && data !in old(os.maps) && os.maps == old(os.maps)[data := size]
              && pool.value !in old(os.pools) && os.pools == old(os.pools)[pool.value := size]
    ensures pool.None? ==> os.pools == old(os.pools) && os.maps == old(os.maps)
    ensures old(os.calls) in os.failing ==> os.calls == old(os.calls) + 1
    ensures old(os.calls) !in os.failing && old(os.calls) + 1 in os.failing ==> os.calls == old(os.calls) + 2
    ensures old(os.calls) !in os.failing && old(os.calls) + 1 !in os.failing ==> os.calls == old(os.calls) + 3
  {
    var fd := os.CreateAnonymousFile(size);
    if fd < 0 {
      FaultInOne(os.failing, old(os.calls));
      return None, -1;
    }
    data := os.Mmap(size, fd);
    if data == -1 {
      FaultInOne(os.failing, old(os.calls) + 1);
      FaultInSplit(os.failing, old(os.calls), old(os.calls) + 1, os.calls);
      os.Close(fd);
      return None, data;
    }
    pool := os.CreatePool(fd, size);
    FaultInOne(os.failing, old(os.calls));
    FaultInOne(os.failing, old(os.calls) + 1);
    FaultInOne(os.failing, old(os.calls) + 2);
    FaultInSplit(os.failing, old(os.calls), old(os.calls) + 1, old(os.calls) + 2);
    FaultInSplit(os.failing, old(os.calls), old(os.calls) + 2, os.calls);
    if pool.None? {
      os.Munmap(data, size);
    }
    os.Close(fd);
  }

  /**
   * shm_pool_create as written: a fresh, empty pool of `size` bytes, or null
   * with the record freed (and, through MakeShmPool, possibly a lost mapping).
   */
  method ShmPoolCreate(os: Os, size: nat) returns (p: ShmPool?)
    requires os.Valid() && size <= INT_MAX
    modifies os`fds, os`maps, os`pools, os`heap, os`next, os`calls
    ensures os.Valid() && os.fds == old(os.fds)
    ensures old(os.calls) < os.calls
    ensures p == null <==> FaultIn(os.failing, old(os.calls), os.calls)
    ensures p != null ==>
              && fresh(p) && p.Valid() && p.Live(os)
              && p.size == size && p.used == 0 && p.granted == []
              && os.heap == old(os.heap) + {p}
              && p.pool !in old(os.pools) && os.pools == old(os.pools)[p.pool := size]
              && p.data !in old(os.maps) && os.maps == old(os.maps)[p.data := size]
    ensures p == null ==> os.heap == old(os.heap) && os.pools == old(os.pools)
    ensures p == null ==>
              os.maps == old(os.maps) || exists a: nat :: a !in old(os.maps) && os.maps == old(os.maps)[a := size]
  {
    var record := new ShmPool();
    var ok := os.Malloc(record);
    FaultInOne(os.failing, old(os.calls));
    if !ok {
      return null;
    }
    var handle, data := MakeShmPool(os, size);
    FaultInSplit(os.failing, old(os.calls), old(os.calls) + 1, os.calls);
    if handle.None? {
      os.Free(record);
      return null;
    }
    record.pool, record.data := handle.value, data;
    record.size := size;
    record.used := 0;
    p := record;
  }

  /** shm_pool_create over the corrected MakeShmPoolFixed: a failure leaves every resource as it was. */
  method ShmPoolCreateFixed(os: Os, size: nat) returns (p: ShmPool?)
    requires os.Valid() && size <= INT_MAX
    modifies os`fds, os`maps, os`pools, os`heap, os`next, os`calls
    ensures os.Valid() && os.fds == old(os.fds)
    ensures old(os.calls) < os.calls
    ensures p == null <==> FaultIn(os.failing, old(os.calls), os.calls)
    ensures p != null ==>
              && fresh(p) && p.Valid() && p.Live(os)
              && p.size == size && p.used == 0 && p.granted == []
              && os.heap == old(os.heap) + {p}
              && p.pool !in old(os.pools) && os.pools == old(os.pools)[p.pool := size]
              && p.data !in old(os.maps) && os.maps == old(os.maps)[p.data := size]
    ensures p == null ==> os.heap == old(os.heap) && os.pools == old(os.pools) && os.maps == old(os.maps)
  {
    var record := new ShmPool();
    var ok := os.Malloc(record);
    FaultInOne(os.failing, old(os.calls));
    if !ok {
      return null;
    }
    var handle, data := MakeShmPoolFixed(os, size);
    FaultInSplit(os.failing, old(os.calls), old(os.calls) + 1, os.calls);
    if handle.None? {
      os.Free(record);
      return null;
    }
    record.pool, record.data := handle.value, data;
    record.size := size;
    record.used := 0;
    p := record;
  }

  /**
   * The drawing half of create_shm_surface_from_pool: takes stride * height
   * bytes from the pool, draws a cairo surface over them with `d` as its user
   * data and describes the same bytes to the compositor as a wl_buffer. Only an
   * exhausted pool makes it fail, and then nothing changes.
   */
  method DrawFromPool(os: Os, rect: Rect, pool: ShmPool, d: ShmSurfaceData) returns (cs: CairoSurface?)
    requires os.Valid() && pool.Valid() && pool.Live(os)
    requires FrameFits(os, rect.width, rect.height)
    requires d in os.heap && d.pool == null
    modifies os`heap, os`buffers, os`next, pool`used, pool`granted, d`buffer
    ensures os.Valid() && pool.Valid() && pool.Live(os)
    ensures cs == null <==> old(pool.used) + DataLength(os, rect) > pool.size
    ensures cs == null ==> os.heap == old(os.heap) && os.buffers == old(os.buffers)
    ensures cs == null ==> pool.used == old(pool.used) && pool.granted == old(pool.granted)
    ensures cs != null ==>
              && fresh(cs) && cs.userData == d
              && os.heap == old(os.heap) + {cs}
              && pool.used == old(pool.used) + DataLength(os, rect)
              && pool.granted == old(pool.granted) + [Range(old(pool.used), DataLength(os, rect))]
              && cs.data == pool.data + old(pool.used)
              && cs.width == rect.width && cs.height == rect.height
              && cs.stride == os.strideForWidth(rect.width)
              && d.buffer !in old(os.buffers)
              && os.buffers == old(os.buffers)[d.buffer :=
                   BufferSpec(pool.pool, old(pool.used), rect.width, rect.height,
                              os.strideForWidth(rect.width), WL_SHM_FORMAT_ARGB8888)]
  {
    var stride := os.strideForWidth(rect.width);
    var length := stride * rect.height;
    var mapped := pool.Allocate(length);
    if mapped.None? {
      return null;
    }
    var id := os.NewHandle();
    cs := new CairoSurface(id, mapped.value.addr, rect.width, rect.height, stride);
    os.Track(cs);
    cs.userData := d;
    d.buffer := os.CreateBuffer(BufferSpec(pool.pool, mapped.value.offset, rect.width, rect.height,
                                           stride, WL_SHM_FORMAT_ARGB8888));
  }

  /**
   * create_shm_surface_from_pool: a fresh user-data record, which does not own
   * the pool, and then DrawFromPool. It fails exactly when the record's malloc
   * fails or the pool is exhausted, and then changes nothing.
   */
  method CreateShmSurfaceFromPool(os: Os, rect: Rect, pool: ShmPool) returns (cs: CairoSurface?)
    requires os.Valid() && pool.Valid() && pool.Live(os)
    requires FrameFits(os, rect.width, rect.height)
    modifies os`heap, os`buffers, os`next, os`calls, pool`used, pool`granted
    ensures os.Valid() && pool.Valid() && pool.Live(os)
    ensures os.calls == old(os.calls) + 1
    ensures cs == null <==> old(os.calls) in os.failing || old(pool.used) + DataLength(os, rect) > pool.size
    ensures cs == null ==> os.heap == old(os.heap) && os.buffers == old(os.buffers)
    ensures cs == null ==> pool.used == old(pool.used) && pool.granted == old(pool.granted)
    ensures cs != null ==>
              && fresh(cs) && cs.userData != null && fresh(cs.userData) && cs.userData.pool == null
              && os.heap == old(os.heap) + {cs, cs.userData}
              && pool.used == old(pool.used) + DataLength(os, rect)
              && pool.granted == old(pool.granted) + [Range(old(pool.used), DataLength(os, rect))]
              && cs.data == pool.data + old(pool.used)
              && cs.width == rect.width && cs.height == rect.height
              && cs.stride == os.strideForWidth(rect.width)
              && cs.userData.buffer !in old(os.buffers)
              && os.buffers == old(os.buffers)[cs.userData.buffer :=
                   BufferSpec(pool.pool, old(pool.used), rect.width, rect.height,
                              os.strideForWidth(rect.width), WL_SHM_FORMAT_ARGB8888)]
  {
    var d := new ShmSurfaceData();
    var ok := os.Malloc(d);
    if !ok {
      return null;
    }
    d.pool := null;
    cs := DrawFromPool(os, rect, pool, d);
    if cs == null {
      os.Free(d);
    }
  }

  class Window {
    var rect: Rect
    var ui: ClientHandles
    /** The wl_surface the window presents on. */
    var surface: nat
    var cairoSurface: CairoSurface?
    /** The window record, its cairo surface, the surface's user data and the pool. */
    ghost var Repr: set<object>

    /** The record as window_create fills it before any pool exists. */
    constructor (rect: Rect, ui: ClientHandles, surface: nat)
      ensures this.rect == rect && this.ui == ui && this.surface == surface
      ensures cairoSurface == null && Repr == {this}
    {
      this.rect, this.ui, this.surface := rect, ui, surface;
      cairoSurface := null;
      Repr := {this};
    }

    /** The ownership tree: window -> cairo surface -> user data -> pool. */
    ghost predicate Wired()
      reads this, Repr
    {
      && this in Repr
      && cairoSurface != null && cairoSurface in Repr
      && cairoSurface.userData != null && cairoSurface.userData in Repr
      && cairoSurface.userData.pool != null && cairoSurface.userData.pool in Repr
      && Repr == {this, cairoSurface, cairoSurface.userData, cairoSurface.userData.pool}
    }

    ghost function Data(): ShmSurfaceData
      requires Wired()
      reads this, Repr
    {
      cairoSurface.userData
    }

    ghost function Pool(): ShmPool
      requires Wired()
      reads this, Repr
    {
      cairoSurface.userData.pool
    }

    /**
     * A live window: every record it owns is allocated, its pool holds exactly
     * one frame and is fully used by the single grant the surface draws into,
     * and its wl_buffer describes that frame.
     */
    ghost predicate Valid(os: Os)
      reads this, Repr, os
    {
      && Wired()
      && Repr <= os.heap
      && FrameFits(os, rect.width, rect.height)
      && Pool().Valid() && Pool().Live(os)
      && Pool().size == DataLength(os, rect)
      && Pool().used == Pool().size
      && Pool().granted == [Range(0, Pool().size)]
      && cairoSurface.data == Pool().data
      && cairoSurface.width == rect.width && cairoSurface.height == rect.height
      && cairoSurface.stride == os.strideForWidth(rect.width)
      && Data().buffer in os.buffers
      && os.buffers[Data().buffer] ==
           BufferSpec(Pool().pool, 0, rect.width, rect.height, os.strideForWidth(rect.width), WL_SHM_FORMAT_ARGB8888)
    }
  }

  /** What a successful window_create promises about the new window and the resources it took. */
  twostate predicate Created(os: Os, new w: Window, ui: ClientHandles, width: int, height: int)
    reads os, w, w.Repr
  {
    && fresh(w) && w.Valid(os) && fresh(w.Repr)
    && w.rect == Rect(0, 0, width, height) && w.ui == ui && w.surface == ui.surface
    && os.heap == old(os.heap) + w.Repr
    && w.Pool().pool !in old(os.pools) && os.pools == old(os.pools)[w.Pool().pool := w.Pool().size]
    && w.Pool().data !in old(os.maps) && os.maps == old(os.maps)[w.Pool().data := w.Pool().size]
    && w.Data().buffer !in old(os.buffers)
    && os.buffers == old(os.buffers)[w.Data().buffer := os.buffers[w.Data().buffer]]
  }

  /**
   * The second half of window_create: draws the window into its fresh pool and
   * hands the pool to the surface's destroy hook. When the surface cannot be
   * made, the pool is destroyed again.
   */
  method BindSurface(os: Os, window: Window, pool: ShmPool) returns (ok: bool)
    requires os.Valid() && FrameFits(os, window.rect.width, window.rect.height)
    requires window.Repr == {window} && window in os.heap
    requires pool.Valid() && pool.Live(os) && pool.used == 0 && pool.granted == []
    requires pool.size == DataLength(os, window.rect)
    modifies os`heap, os`maps, os`pools, os`buffers, os`next, os`calls
    modifies window`cairoSurface, window`Repr, pool`used, pool`granted
    ensures os.Valid()
    ensures os.calls == old(os.calls) + 1
    ensures ok <==> !FaultIn(os.failing, old(os.calls), os.calls)
    ensures ok ==> && window.Valid(os) && window.Pool() == pool && fresh(window.Repr - {window, pool})
                   && os.heap == old(os.heap) + window.Repr
                   && os.maps == old(os.maps) && os.pools == old(os.pools)
                   && window.Data().buffer !in old(os.buffers)
                   && os.buffers == old(os.buffers)[window.Data().buffer := os.buffers[window.Data().buffer]]
    ensures !ok ==> && os.heap == old(os.heap) - {pool} && os.buffers == old(os.buffers)
                    && os.maps == old(os.maps) - {pool.data} && os.pools == old(os.pools) - {pool.pool}
  {
    var cs := CreateShmSurfaceFromPool(os, window.rect, pool);
    FaultInOne(os.failing, old(os.calls));
    window.cairoSurface := cs;
    if cs == null {
      ShmPoolDestroy(os, pool);
      return false;
    }
    var d := cs.userData;
    d.pool := pool;
    window.Repr := {window, cs, d, pool};
    assert window.Wired() && window.Pool() == pool && window.Data() == d;
    return true;
  }

  /** What the pool-and-surface half of window_create leaves behind when it succeeds. */
  twostate predicate Filled(os: Os, window: Window)
    reads os, window, window.Repr
  {
    && window.Valid(os) && fresh(window.Repr - {window})
    && os.heap == old(os.heap) + window.Repr
    && window.Pool().pool !in old(os.pools) && os.pools == old(os.pools)[window.Pool().pool := window.Pool().size]
    && window.Pool().data !in old(os.maps) && os.maps == old(os.maps)[window.Pool().data := window.Pool().size]
    && window.Data().buffer !in old(os.buffers)
    && os.buffers == old(os.buffers)[window.Data().buffer := os.buffers[window.Data().buffer]]
  }

  /**
   * The part of window_create after the record is filled in, as written: a
   * pool sized for one frame, then the surface drawn into it. A failed pool
   * creation can leave a mapping behind (see MakeShmPool).
   */
  method FillWindow(os: Os, window: Window) returns (ok: bool)
    requires os.Valid() && FrameFits(os, window.rect.width, window.rect.height)
    requires window.Repr == {window} && window in os.heap
    modifies os`fds, os`maps, os`pools, os`buffers, os`heap, os`next, os`calls
    modifies window`cairoSurface, window`Repr
    ensures os.Valid() && os.fds == old(os.fds)
    ensures old(os.calls) < os.calls
    ensures ok <==> !FaultIn(os.failing, old(os.calls), os.calls)
    ensures ok ==> Filled(os, window)
    ensures !ok ==> os.heap == old(os.heap) && os.pools == old(os.pools) && os.buffers == old(os.buffers)
    ensures !ok ==>
              || os.maps == old(os.maps)
              || exists a: nat :: a !in old(os.maps) && os.maps == old(os.maps)[a := DataLength(os, window.rect)]
  {
    var pool := ShmPoolCreate(os, DataLength(os, window.rect));
    if pool == null {
      return false;
    }
    var afterPool := os.calls;
    ok := BindSurface(os, window, pool);
    FaultInSplit(os.failing, old(os.calls), afterPool, os.calls);
  }

  /** FillWindow over the corrected ShmPoolCreateFixed: a failure leaves every resource as it was. */
  method FillWindowFixed(os: Os, window: Window) returns (ok: bool)
    requires os.Valid() && FrameFits(os, window.rect.width, window.rect.height)
    requires window.Repr == {window} && window in os.heap
    modifies os`fds, os`maps, os`pools, os`buffers, os`heap, os`next, os`calls
    modifies window`cairoSurface, window`Repr
    ensures os.Valid() && os.fds == old(os.fds)
    ensures old(os.calls) < os.calls
    ensures ok <==> !FaultIn(os.failing, old(os.calls), os.calls)
    ensures ok ==> Filled(os, window)
    ensures !ok ==> && os.heap == old(os.heap) && os.pools == old(os.pools)
                    && os.buffers == old(os.buffers) && os.maps == old(os.maps)
  {
    var pool := ShmPoolCreateFixed(os, DataLength(os, window.rect));
    if pool == null {
      return false;
    }
    var afterPool := os.calls;
    ok := BindSurface(os, window, pool);
    FaultInSplit(os.failing, old(os.calls), afterPool, os.calls);
  }

  /**
   * window_create as written: a window at (0, 0, width, height) whose pool is
   * sized for exactly one frame, which the one allocation then fills. It fails
   * exactly when a checked call fails, and then returns null and leaks the
   * window record, which the source never frees (and, through MakeShmPool,
   * possibly a mapping).
   */
  method WindowCreate(os: Os, ui: ClientHandles, width: int, height: int) returns (w: Window?)
    requires os.Valid() && FrameFits(os, width, height)
    modifies os`fds, os`maps, os`pools, os`buffers, os`heap, os`next, os`calls
    ensures os.Valid() && os.fds == old(os.fds)
    ensures old(os.calls) < os.calls
    ensures w == null <==> FaultIn(os.failing, old(os.calls), os.calls)
    ensures w != null ==> Created(os, w, ui, width, height)
    ensures w == null ==> os.pools == old(os.pools) && os.buffers == old(os.buffers)
    ensures w == null ==> exists lw: Window :: fresh(lw) && os.heap == old(os.heap) + {lw}
    ensures w == null ==>
              || os.maps == old(os.maps)
              || exists a: nat :: a !in old(os.maps) && os.maps == old(os.maps)[a := DataLength(os, Rect(0, 0, width, height))]
  {
    var window := new Window(Rect(0, 0, width, height), ui, ui.surface);
    os.Track(window);
    var ok := FillWindow(os, window);
    if !ok {
      return null;
    }
    w := window;
  }

  /** window_create, corrected: both failure paths free the window record, so a failure leaves no trace. */
  method WindowCreateFixed(os: Os, ui: ClientHandles, width: int, height: int) returns (w: Window?)
    requires os.Valid() && FrameFits(os, width, height)
    modifies os`fds, os`maps, os`pools, os`buffers, os`heap, os`next, os`calls
    ensures os.Valid() && os.fds == old(os.fds)
    ensures old(os.calls) < os.calls
    ensures w == null <==> FaultIn(os.failing, old(os.calls), os.calls)
    ensures w != null ==> Created(os, w, ui, width, height)
    ensures w == null ==>
              && os.heap == old(os.heap) && os.pools == old(os.pools)
              && os.buffers == old(os.buffers) && os.maps == old(os.maps)
  {
    var window := new Window(Rect(0, 0, width, height), ui, ui.surface);
    os.Track(window);
    var ok := FillWindowFixed(os, window);
    if !ok {
      os.Free(window);
      return null;
    }
    w := window;
  }

  /**
   * window_destroy: destroying the cairo surface runs the hook, which releases
   * the wl_buffer and the owned pool; then the record is freed. Every resource
   * the window owns is released exactly once and nothing else is touched.
   */
  method WindowDestroy(os: Os, w: Window)
    requires w.Valid(os)
    modifies os`buffers, os`maps, os`pools, os`heap
    ensures os.heap == old(os.heap) - w.Repr
    ensures os.buffers == old(os.buffers) - {w.Data().buffer}
    ensures os.pools == old(os.pools) - {w.Pool().pool}
    ensures os.maps == old(os.maps) - {w.Pool().data}
  {
    CairoSurfaceDestroy(os, w.cairoSurface);
    os.Free(w);
  }

  /**
   * What a successful window_resize leaves: every resource the old window
   * owned is released, and in its place there is a fresh live window of the
   * new size on the same surface, with one new pool, mapping and wl_buffer.
   */
  twostate predicate ReplacedBy(os: Os, w: Window, new nw: Window, width: int, height: int)
    reads os, w, w.Repr, nw, nw.Repr
  {
    && w.Wired() && fresh(nw) && fresh(nw.Repr) && nw.Valid(os)
    && nw.ui == w.ui && nw.surface == w.ui.surface && nw.rect == Rect(0, 0, width, height)
    && os.heap == old(os.heap) - w.Repr + nw.Repr
    && nw.Pool().pool !in old(os.pools) - {w.Pool().pool}
    && nw.Pool().data !in old(os.maps) - {w.Pool().data}
    && nw.Data().buffer !in old(os.buffers) - {w.Data().buffer}
    && os.pools == (old(os.pools) - {w.Pool().pool})[nw.Pool().pool := nw.Pool().size]
    && os.maps == (old(os.maps) - {w.Pool().data})[nw.Pool().data := nw.Pool().size]
    && os.buffers == (old(os.buffers) - {w.Data().buffer})[nw.Data().buffer := os.buffers[nw.Data().buffer]]
  }

  /**
   * What the corrected window_resize leaves: the old window's resources are
   * released; a fresh window replaces it unless a checked call failed, and then
   * nothing does.
   */
  twostate predicate Resized(os: Os, w: Window, new nw: Window?, width: int, height: int)
    reads os, w, w.Repr, nw, if nw == null then {} else nw.Repr
  {
    && w.Wired() && os.fds == old(os.fds)
    && (nw == null <==> FaultIn(os.failing, old(os.calls), os.calls))
    && (nw != null ==> ReplacedBy(os, w, nw, width, height))
    && (nw == null ==>
          && os.heap == old(os.heap) - w.Repr
          && os.pools == old(os.pools) - {w.Pool().pool}
          && os.maps == old(os.maps) - {w.Pool().data}
          && os.buffers == old(os.buffers) - {w.Data().buffer})
  }

  /**
   * What window_resize as written leaves, `lost` being the window record that
   * window_create allocated: the old window's resources are released; when no
   * checked call failed, `lost` is a live window of the new size holding one
   * new pool, mapping and wl_buffer; otherwise it is the record window_create
   * leaked, possibly beside a frame-sized mapping.
   */
  twostate predicate ResizedAsWritten(os: Os, w: Window, new lost: Window, width: int, height: int)
    reads os, w, w.Repr, lost, lost.Repr
  {
    && w.Wired() && fresh(lost) && lost in os.heap && FrameFits(os, width, height)
    && (!FaultIn(os.failing, old(os.calls), os.calls) ==> ReplacedBy(os, w, lost, width, height))
    && (FaultIn(os.failing, old(os.calls), os.calls) ==>
          && os.heap == old(os.heap) - w.Repr + {lost}
          && os.pools == old(os.pools) - {w.Pool().pool}
          && os.buffers == old(os.buffers) - {w.Data().buffer}
          && (|| os.maps == old(os.maps) - {w.Pool().data}
              || exists a: nat :: && a !in old(os.maps) - {w.Pool().data}
                                  && os.maps == (old(os.maps) - {w.Pool().data})[a := DataLength(os, Rect(0, 0, width, height))]))
  }

  /**
   * window_resize as written: destroys the window, then creates a new one and
   * stores it only in its own parameter. The caller keeps a pointer to the freed
   * window, and the window record window_create allocated, live or leaked, is
   * referenced by nothing.
   */
  method WindowResize(os: Os, w: Window, width: int, height: int)
    requires os.Valid() && w.Valid(os) && FrameFits(os, width, height)
    modifies os`fds, os`maps, os`pools, os`buffers, os`heap, os`next, os`calls
    ensures os.Valid() && os.fds == old(os.fds)
    ensures old(os.calls) < os.calls
    ensures w.Repr !! os.heap
    ensures exists lost: Window :: ResizedAsWritten(os, w, lost, width, height)
  {
    var ui := w.ui;
    WindowDestroy(os, w);
    ghost var maps1 := os.maps;
    var created := WindowCreate(os, ui, width, height);
    if created != null {
      assert ResizedAsWritten(os, w, created, width, height);
    } else {
      ghost var lw: Window :| fresh(lw) && os.heap == old(os.heap) - w.Repr + {lw};
      assert maps1 == old(os.maps) - {w.Pool().data};
      assert ResizedAsWritten(os, w, lw, width, height);
    }
  }

  /** window_resize, corrected: hands the new window (or null) back to the caller. */
  method WindowResizeFixed(os: Os, w: Window, width: int, height: int) returns (nw: Window?)
    requires os.Valid() && w.Valid(os) && FrameFits(os, width, height)
    modifies os`fds, os`maps, os`pools, os`buffers, os`heap, os`next, os`calls
    ensures os.Valid() && os.fds == old(os.fds)
    ensures old(os.calls) < os.calls
    ensures w.Repr !! os.heap
    ensures Resized(os, w, nw, width, height)
  {
    var ui := w.ui;
    WindowDestroy(os, w);
    nw := WindowCreateFixed(os, ui, width, height);
  }

  /**
   * The wl_buffer get_buffer_from_cairo_surface finds through a live window's
   * cairo surface is the window's own: registered with the compositor, in the
   * window's pool at offset 0, and of the window's size.
   */
  lemma BufferOfWindow(os: Os, w: Window)
    requires w.Valid(os)
    ensures BufferOf(w.cairoSurface) == w.Data().buffer && BufferOf(w.cairoSurface) in os.buffers
    ensures os.buffers[BufferOf(w.cairoSurface)].pool == w.Pool().pool
    ensures os.buffers[BufferOf(w.cairoSurface)].offset == 0
    ensures os.buffers[BufferOf(w.cairoSurface)].width == w.rect.width
    ensures os.buffers[BufferOf(w.cairoSurface)].height == w.rect.height
  {
  }

  /**
   * The requests of one redraw of `w`: paint its cairo surface, attach its own
   * buffer at (0, 0), damage exactly its rectangle, commit.
   */
  ghost function RedrawRequests(w: Window): seq<Event>
    requires w.Wired()
    reads w, w.Repr
  {
    [ Painted(w.cairoSurface.id),
      Attached(w.surface, w.Data().buffer, 0, 0),
      Damaged(w.surface, w.rect.x, w.rect.y, w.rect.width, w.rect.height),
      Committed(w.surface) ]
  }

  /** window_redraw: makes the requests of RedrawRequests, in that order, and nothing else. */
  method WindowRedraw(os: Os, w: Window)
    requires w.Valid(os)
    modifies os`log
    ensures os.log == old(os.log) + RedrawRequests(w)
  {
    os.Emit(Painted(w.cairoSurface.id));
    os.Emit(Attached(w.surface, BufferOf(w.cairoSurface), 0, 0));
    os.Emit(Damaged(w.surface, w.rect.x, w.rect.y, w.rect.width, w.rect.height));
    os.Emit(Committed(w.surface));
  }

  /** window_get_width_height */
  method WindowGetWidthHeight(w: Window) returns (width: int, height: int)
    ensures width == w.rect.width && height == w.rect.height
  {
    width := w.rect.width;
    height := w.rect.height;
  }
}
