/**
 * The world outside the client, reduced to what the shared-memory code and the
 * input handlers touch: file descriptors, memory mappings, compositor-side
 * wl_shm_pool and wl_buffer objects, heap records owned by the process, and the
 * requests sent to the compositor that are not resources (painting, attach,
 * damage, commit, shell-surface requests).
 *
 * Handles are natural numbers drawn from one counter, so a handle that is
 * handed out is never live already. Calls that the source checks for failure
 * consult a fault script: the k-th such call fails iff k is in `failing`.
 */
module Resources {

  const INT_MAX: int := 0x7fff_ffff

  /** wl_shm.format argb8888 of the Wayland core protocol. */
  const WL_SHM_FORMAT_ARGB8888: nat := 0

  datatype Option<T> = None | Some(value: T)

  /** Some fallible call numbered in [lo, hi) fails. */
  ghost predicate FaultIn(failing: set<nat>, lo: nat, hi: nat)
  {
    exists k :: lo <= k < hi && k in failing
  }

  /** A run of calls is faulty iff one of its two consecutive parts is. */
  lemma FaultInSplit(failing: set<nat>, a: nat, b: nat, c: nat)
    requires a <= b <= c
    ensures FaultIn(failing, a, c) <==> FaultIn(failing, a, b) || FaultIn(failing, b, c)
  {
  }

  lemma FaultInOne(failing: set<nat>, a: nat)
    ensures FaultIn(failing, a, a + 1) <==> a in failing
  {
  }

  /** What a wl_buffer describes: a byte range of a pool and its image layout. */
  datatype BufferSpec = BufferSpec(pool: nat, offset: nat, width: int, height: int, stride: int, format: nat)

  /** Requests that reach the compositor or the painter without creating a resource. */
  datatype Event =
    | Painted(target: nat)
    | Attached(surface: nat, buffer: nat, x: int, y: int)
    | Damaged(surface: nat, x: int, y: int, width: int, height: int)
    | Committed(surface: nat)
    | SetFullscreen(shellSurface: nat)
    | SetToplevel(shellSurface: nat)
    | Move(shellSurface: nat, seat: nat, serial: nat)
    | Resize(shellSurface: nat, seat: nat, serial: nat, edges: int)

  class Os {
    /** Open file descriptors. */
    var fds: set<nat>
    /** Live mappings: base address to length. */
    var maps: map<nat, nat>
    /** Live wl_shm_pool objects: handle to the size they were created with. */
    var pools: map<nat, nat>
    /** Live wl_buffer objects. */
    var buffers: map<nat, BufferSpec>
    /** Records the process has allocated and not freed. */
    var heap: set<object>
    /** Requests in the order they were made. */
    var log: seq<Event>
    /** The next fresh handle. */
    var next: nat
    /** How many fallible calls have been made. */
    var calls: nat
    /** Which fallible calls fail. */
    const failing: set<nat>
    /** cairo_format_stride_for_width for ARGB32, left uninterpreted. */
    const strideForWidth: int -> int

    /** Every live handle was issued before `next`, so a handle issued now is fresh. */
    ghost predicate Valid()
      reads this`fds, this`maps, this`pools, this`buffers, this`next
    {
      && (forall fd :: fd in fds ==> fd < next)
      && (forall a :: a in maps ==> a < next)
      && (forall p :: p in pools ==> p < next)
      && (forall b :: b in buffers ==> b < next)
    }

    constructor (failing: set<nat>, strideForWidth: int -> int)
      ensures Valid()
      ensures fds == {} && maps == map[] && pools == map[] && buffers == map[]
      ensures heap == {} && log == [] && calls == 0
      ensures this.failing == failing && this.strideForWidth == strideForWidth
    {
      fds, maps, pools, buffers := {}, map[], map[], map[];
      heap, log, next, calls := {}, [], 0, 0;
      this.failing := failing;
      this.strideForWidth := strideForWidth;
    }

    /** Consults the fault script for the next fallible call. */
    method Fails() returns (failed: bool)
      modifies this`calls
      ensures calls == old(calls) + 1
      ensures failed <==> old(calls) in failing
    {
      failed := calls in failing;
      calls := calls + 1;
    }

    method NewHandle() returns (h: nat)
      requires Valid()
      modifies this`next
      ensures Valid()
      ensures h == old(next) && next == h + 1
    {
      h := next;
      next := next + 1;
    }

    /** A checked malloc: on success the record `o` belongs to the process. */
    method Malloc(o: object) returns (ok: bool)
      requires o !in heap
      modifies this`heap, this`calls
      ensures calls == old(calls) + 1
      ensures ok <==> old(calls) !in failing
      ensures heap == if ok then old(heap) + {o} else old(heap)
    {
      var failed := Fails();
      ok := !failed;
      if ok {
        heap := heap + {o};
      }
    }

    /** An allocation whose result the source never checks. */
    method Track(o: object)
      requires o !in heap
      modifies this`heap
      ensures heap == old(heap) + {o}
    {
      heap := heap + {o};
    }

    method Free(o: object)
      requires o in heap
      modifies this`heap
      ensures heap == old(heap) - {o}
    {
      heap := heap - {o};
    }

    /** os_create_anonymous_file: a new descriptor, or -1. */
    method CreateAnonymousFile(size: int) returns (fd: int)
      requires Valid()
      modifies this`fds, this`next, this`calls
      ensures Valid()
      ensures calls == old(calls) + 1
      ensures old(calls) in failing ==> fd == -1 && fds == old(fds)
      ensures old(calls) !in failing ==> 0 <= fd && fd !in old(fds) && fds == old(fds) + {fd}
    {
      var failed := Fails();
      if failed {
        fd := -1;
      } else {
        fd := NewHandle();
        fds := fds + {fd};
      }
    }

    method Close(fd: nat)
      requires fd in fds
      modifies this`fds
      ensures fds == old(fds) - {fd}
    {
      fds := fds - {fd};
    }

    /** mmap of `fd`, shared and read-write: a new base address, or -1 for MAP_FAILED. */
    method Mmap(size: nat, fd: nat) returns (addr: int)
      requires Valid() && fd in fds
      modifies this`maps, this`next, this`calls
      ensures Valid()
      ensures calls == old(calls) + 1
      ensures old(calls) in failing ==> addr == -1 && maps == old(maps)
      ensures old(calls) !in failing ==> 0 <= addr && addr !in old(maps) && maps == old(maps)[addr := size]
    {
      var failed := Fails();
      if failed {
        addr := -1;
      } else {
        addr := NewHandle();
        maps := maps[addr := size];
      }
    }

    method Munmap(addr: nat, len: nat)
      requires addr in maps && maps[addr] == len
      modifies this`maps
      ensures maps == old(maps) - {addr}
    {
      maps := maps - {addr};
    }

    /** wl_shm_create_pool: a new pool object over `fd`, or NULL. */
    method CreatePool(fd: nat, size: nat) returns (pool: Option<nat>)
      requires Valid() && fd in fds
      modifies this`pools, this`next, this`calls
      ensures Valid()
      ensures calls == old(calls) + 1
      ensures old(calls) in failing ==> pool == None && pools == old(pools)
      ensures old(calls) !in failing ==>
                pool.Some? && pool.value !in old(pools) && pools == old(pools)[pool.value := size]
    {
      var failed := Fails();
      if failed {
        pool := None;
      } else {
        var h := NewHandle();
        pool := Some(h);
        pools := pools[h := size];
      }
    }

    method DestroyPool(pool: nat)
      requires pool in pools
      modifies this`pools
      ensures pools == old(pools) - {pool}
    {
      pools := pools - {pool};
    }

    /** wl_shm_pool_create_buffer; the source never checks its result. */
    method CreateBuffer(spec: BufferSpec) returns (buffer: nat)
      requires Valid() && spec.pool in pools
      modifies this`buffers, this`next
      ensures Valid()
      ensures buffer !in old(buffers) && buffers == old(buffers)[buffer := spec]
    {
      buffer := NewHandle();
      buffers := buffers[buffer := spec];
    }

    method DestroyBuffer(buffer: nat)
      requires buffer in buffers
      modifies this`buffers
      ensures buffers == old(buffers) - {buffer}
    {
      buffers := buffers - {buffer};
    }

    method Emit(e: Event)
      modifies this`log
      ensures log == old(log) + [e]
    {
      log := log + [e];
    }
  }
}
