/**
 * Buffer objects of the display driver (src/omap_dumb.c).
 *
 * A buffer object (BO) is a kernel allocation bound to a display framebuffer,
 * shared by reference counting, with a cached export name, a cached CPU
 * mapping and a nested CPU-access guard.  Every call into the kernel or libdrm
 * is replaced by its answer, passed in as a parameter, and recorded in the
 * device's call log, so that the order and number of kernel calls can be
 * stated.
 */
module Dumb {

  datatype Option<T> = None | Some(value: T)

  const U32_LIMIT: int := 0x1_0000_0000
  type u32 = x: int | 0 <= x < U32_LIMIT
  type u8 = x: int | 0 <= x < 256

  /** Allocation flag passed for every buffer (EXYNOS_BO_NONCONTIG of libdrm). */
  const BO_NONCONTIG: nat := 1
  /** Flags word of the CPU-acquire request. */
  const CPU_ACQUIRE_SHARED: nat := 0x0
  const CPU_ACQUIRE_EXCLUSIVE: nat := 0x1

  function CeilDiv(n: nat, d: nat): nat
    requires d > 0
  {
    (n + d - 1) / d
  }

  /**
   * Row stride in bytes: the row's bytes rounded up to a multiple of 64.
   * The C code computes in 32-bit unsigned arithmetic, so `width * bpp + 7`
   * wraps; the stride stays 64-aligned even then.
   */
  function Pitch(width: u32, bpp: u8): (p: u32)
    ensures p % 64 == 0
    ensures width * bpp + 7 < U32_LIMIT ==>
      CeilDiv(width * bpp, 8) <= p < CeilDiv(width * bpp, 8) + 64
  {
    var rowBytes := Wrap32(width * bpp + 7) / 8;
    ((rowBytes + 63) / 64) * 64
  }

  /** Allocation size: height rows of `pitch` bytes, a 32-bit product. */
  function Size(height: u32, pitch: u32): (s: u32)
    ensures height * pitch < U32_LIMIT ==> s == height * pitch
  {
    Wrap32(height * pitch)
  }

  /** Truncation of a non-negative C result to 32 unsigned bits. */
  function Wrap32(x: nat): (r: u32)
    ensures x < U32_LIMIT ==> r == x
  {
    x % U32_LIMIT
  }

  /** A 1920-pixel row at 32 bits per pixel is already 64-aligned. */
  lemma FullHdGeometry()
    ensures Pitch(1920, 32) == 7680
    ensures Size(1080, 7680) == 7680 * 1080
  {
  }

  /** Bytes per pixel (omap_bo_Bpp): bits per pixel rounded up to whole bytes. */
  function BytesPerPixel(bpp: u8): (r: nat)
    ensures 8 * r >= bpp && 8 * r < bpp + 8
  {
    (bpp + 7) / 8
  }

  /** One kernel or libdrm call, with the answer it gave. */
  datatype Call =
    | BoCreate(size: nat, flags: nat, result: Option<nat>)
    | AddFb(width: u32, height: u32, depth: u8, bpp: u8, pitch: u32, handle: nat, ret: int, fbId: nat)
    | AddFb2(width: u32, height: u32, format: u32, handle: nat, pitch: u32, ret: int, fbId: nat)
    | RmFb(fbId: nat)
    | BoDestroy(handle: nat)
    | Flink(handle: nat, ret: int, name: nat)
    | Mmap(handle: nat, addr: nat)
    | CpuAcquire(handle: nat, flags: nat, ret: int)
    | CpuRelease(handle: nat, ret: int)

  /** Effect of one call on the multiset of live allocation handles. */
  function BoDelta(live: multiset<nat>, c: Call): multiset<nat>
  {
    match c
    case BoCreate(_, _, Some(h)) => live + multiset{h}
    case BoDestroy(h) => live - multiset{h}
    case _ => live
  }

  /** Effect of one call on the multiset of live framebuffer ids. */
  function FbDelta(live: multiset<nat>, c: Call): multiset<nat>
  {
    match c
    case AddFb(_, _, _, _, _, _, ret, fb) => if ret >= 0 then live + multiset{fb} else live
    case AddFb2(_, _, _, _, _, ret, fb) => if ret >= 0 then live + multiset{fb} else live
    case RmFb(fb) => live - multiset{fb}
    case _ => live
  }

  /** Allocations created and not yet destroyed by the calls of `log`. */
  function LiveBos(log: seq<Call>): multiset<nat>
  {
    if log == [] then multiset{} else BoDelta(LiveBos(log[..|log| - 1]), log[|log| - 1])
  }

  /** Framebuffers added and not yet removed by the calls of `log`. */
  function LiveFbs(log: seq<Call>): multiset<nat>
  {
    if log == [] then multiset{} else FbDelta(LiveFbs(log[..|log| - 1]), log[|log| - 1])
  }

  lemma LiveAppend(log: seq<Call>, c: Call)
    ensures LiveBos(log + [c]) == BoDelta(LiveBos(log), c)
    ensures LiveFbs(log + [c]) == FbDelta(LiveFbs(log), c)
  {
    assert (log + [c])[..|log|] == log;
  }

  /** Framebuffer binding call: legacy AddFB when a depth is given, AddFB2 with the four-cc code otherwise. */
  function BindCall(width: u32, height: u32, depth: u8, bpp: u8, pitch: u32, format: u32,
                    handle: nat, ret: int, fbId: nat): (c: Call)
    ensures c.AddFb? || c.AddFb2?
    ensures c.AddFb? <==> depth != 0
    ensures c.handle == handle && c.pitch == pitch && c.ret == ret && c.fbId == fbId
  {
    if depth != 0 then AddFb(width, height, depth, bpp, pitch, handle, ret, fbId)
    else AddFb2(width, height, format, handle, pitch, ret, fbId)
  }

  /** Kernel calls of omap_bo_new for the given answers. */
  function NewCalls(width: u32, height: u32, depth: u8, bpp: u8, format: u32,
                    memOk: bool, alloc: Option<nat>, fbRet: int, fbId: nat): seq<Call>
  {
    var pitch := Pitch(width, bpp);
    var create := [BoCreate(Size(height, pitch), BO_NONCONTIG, alloc)];
    if !memOk then []
    else if alloc.None? then create
    else
      var bind := [BindCall(width, height, depth, bpp, pitch, format, alloc.value, fbRet, fbId)];
      if fbRet < 0 then create + bind + [BoDestroy(alloc.value)] else create + bind
  }

  /** Whether `c` is a framebuffer bind the kernel refused. */
  predicate FailedBind(c: Call)
  {
    (c.AddFb? || c.AddFb2?) && c.ret < 0
  }

  /**
   * Rollback of a failed construction: the allocation made is destroyed and
   * the refused bind added no framebuffer, so nothing stays live.
   */
  lemma {:induction false} RollbackNoLeak(log: seq<Call>, size: nat, flags: nat, handle: nat, bind: Call)
    requires FailedBind(bind)
    ensures var after := log + [BoCreate(size, flags, Some(handle)), bind, BoDestroy(handle)];
      LiveBos(after) == LiveBos(log) && LiveFbs(after) == LiveFbs(log)
  {
    var created := log + [BoCreate(size, flags, Some(handle))];
    var bound := created + [bind];
    assert bound + [BoDestroy(handle)] == log + [BoCreate(size, flags, Some(handle)), bind, BoDestroy(handle)];
    LiveAppend(log, BoCreate(size, flags, Some(handle)));
    LiveAppend(created, bind);
    BoDestroyStep(bound, handle);
    assert LiveBos(bound) == LiveBos(log) + multiset{handle};
  }

  /** A successful construction leaves exactly one more allocation and one more framebuffer live. */
  lemma {:induction false} CreateBindLive(log: seq<Call>, size: nat, flags: nat, handle: nat, bind: Call)
    requires (bind.AddFb? || bind.AddFb2?) && bind.ret >= 0
    ensures var after := log + [BoCreate(size, flags, Some(handle)), bind];
      LiveBos(after) == LiveBos(log) + multiset{handle} && LiveFbs(after) == LiveFbs(log) + multiset{bind.fbId}
  {
    var create := BoCreate(size, flags, Some(handle));
    LiveAppend(log, create);
    LiveAppend(log + [create], bind);
    assert log + [create] + [bind] == log + [create, bind];
  }

  /** Removing a framebuffer leaves the allocations alone. */
  lemma RmFbStep(log: seq<Call>, fbId: nat)
    ensures LiveBos(log + [RmFb(fbId)]) == LiveBos(log)
    ensures LiveFbs(log + [RmFb(fbId)]) == LiveFbs(log) - multiset{fbId}
  {
    LiveAppend(log, RmFb(fbId));
  }

  /** Destroying an allocation leaves the framebuffers alone. */
  lemma BoDestroyStep(log: seq<Call>, handle: nat)
    ensures LiveBos(log + [BoDestroy(handle)]) == LiveBos(log) - multiset{handle}
    ensures LiveFbs(log + [BoDestroy(handle)]) == LiveFbs(log)
  {
    LiveAppend(log, BoDestroy(handle));
  }

  // ---------------------------------------------------------------------
  // CPU-access guard (omap_bo_cpu_prep / omap_bo_cpu_fini) as pure steps
  // ---------------------------------------------------------------------

  /** The guard's part of a BO: acquire_cnt, acquired_exclusive, dirty. */
  datatype Access = Access(count: nat, exclusive: bool, dirty: bool)

  /** Outcome of one guard operation: new state, return code, kernel calls issued. */
  datatype AccessStep = AccessStep(next: Access, ret: int, calls: seq<Call>)

  function AcquireFlags(write: bool): nat
  {
    if write then CPU_ACQUIRE_EXCLUSIVE else CPU_ACQUIRE_SHARED
  }

  /**
   * omap_bo_cpu_prep: only the first acquire reaches the kernel; a write
   * request while the BO is held shared is refused with 1.
   */
  function PrepStep(g: Access, handle: nat, write: bool, ioctlRet: int): (s: AccessStep)
    ensures s.calls != [] <==> g.count == 0
    ensures g.count == 0 ==> s.calls == [CpuAcquire(handle, AcquireFlags(write), ioctlRet)] && s.ret == ioctlRet
    ensures s.ret == 0 <==> s.next.count == g.count + 1
    ensures s.ret != 0 ==> s.next == g
    ensures g.count > 0 ==> (s.ret != 0 <==> write && !g.exclusive)
    ensures g.count > 0 && write && !g.exclusive ==> s.ret == 1
    ensures g.count > 0 ==> s.next.exclusive == g.exclusive && s.next.dirty == g.dirty
    ensures g.count == 0 && s.ret == 0 ==> s.next.exclusive == write && s.next.dirty == (g.dirty || write)
  {
    if g.count > 0 then
      if write && !g.exclusive then AccessStep(g, 1, [])
      else AccessStep(g.(count := g.count + 1), 0, [])
    else
      var call := CpuAcquire(handle, AcquireFlags(write), ioctlRet);
      if ioctlRet != 0 then AccessStep(g, ioctlRet, [call])
      else AccessStep(Access(1, write, if write then true else g.dirty), 0, [call])
  }

  /** omap_bo_cpu_fini: only the last release reaches the kernel; its failure does not restore the count. */
  function FiniStep(g: Access, handle: nat, ioctlRet: int): (s: AccessStep)
    requires g.count > 0
    ensures s.next == g.(count := g.count - 1)
    ensures s.calls != [] <==> g.count == 1
    ensures g.count == 1 ==> s.calls == [CpuRelease(handle, ioctlRet)] && s.ret == ioctlRet
    ensures g.count > 1 ==> s.ret == 0
  {
    var next := g.(count := g.count - 1);
    if next.count != 0 then AccessStep(next, 0, [])
    else AccessStep(next, ioctlRet, [CpuRelease(handle, ioctlRet)])
  }

  /** A use of the guard: prepare, finish, or clear the dirty flag. */
  datatype AccessOp = Prep(write: bool, ioctlRet: int) | Fini(ioctlRet: int) | ClearDirty

  /** State and kernel calls after a sequence of guard uses; None once a finish trips the source's assertion. */
  datatype AccessRun = AccessRun(state: Access, calls: seq<Call>)

  function Then(calls: seq<Call>, rest: Option<AccessRun>): Option<AccessRun>
  {
    match rest
    case None => None
    case Some(r) => Some(AccessRun(r.state, calls + r.calls))
  }

  lemma ThenNil(rest: Option<AccessRun>)
    ensures Then([], rest) == rest
  {
    match rest
    case None =>
    case Some(r) => assert [] + r.calls == r.calls;
  }

  lemma ThenThen(c1: seq<Call>, c2: seq<Call>, rest: Option<AccessRun>)
    ensures Then(c1, Then(c2, rest)) == Then(c1 + c2, rest)
  {
    match rest
    case None =>
    case Some(r) => assert c1 + (c2 + r.calls) == (c1 + c2) + r.calls;
  }

  function Run(g: Access, handle: nat, ops: seq<AccessOp>): Option<AccessRun>
    decreases |ops|
  {
    if ops == [] then Some(AccessRun(g, []))
    else match ops[0]
      case Prep(w, r) =>
        var s := PrepStep(g, handle, w, r);
        Then(s.calls, Run(s.next, handle, ops[1..]))
      case Fini(r) =>
        if g.count == 0 then None
        else
          var s := FiniStep(g, handle, r);
          Then(s.calls, Run(s.next, handle, ops[1..]))
      case ClearDirty =>
        Run(g.(dirty := false), handle, ops[1..])
  }

  function Repeat(op: AccessOp, n: nat): (ops: seq<AccessOp>)
    ensures |ops| == n
    ensures forall i :: 0 <= i < n ==> ops[i] == op
  {
    if n == 0 then [] else [op] + Repeat(op, n - 1)
  }

  /** Running `a + b` is running `a` and then `b` from where `a` left the guard. */
  lemma {:induction false} RunAppend(g: Access, handle: nat, a: seq<AccessOp>, b: seq<AccessOp>)
    ensures Run(g, handle, a + b) ==
      match Run(g, handle, a)
      case None => None
      case Some(r) => Then(r.calls, Run(r.state, handle, b))
    decreases |a|
  {
    if a == [] {
      assert a + b == b;
      ThenNil(Run(g, handle, b));
    } else {
      assert (a + b)[0] == a[0];
      assert (a + b)[1..] == a[1..] + b;
      match a[0] {
        case Prep(w, r) =>
          var s := PrepStep(g, handle, w, r);
          RunAppend(s.next, handle, a[1..], b);
          match Run(s.next, handle, a[1..]) {
            case None =>
            case Some(t) => ThenThen(s.calls, t.calls, Run(t.state, handle, b));
          }
        case Fini(r) =>
          if g.count > 0 {
            var s := FiniStep(g, handle, r);
            RunAppend(s.next, handle, a[1..], b);
            match Run(s.next, handle, a[1..]) {
              case None =>
              case Some(t) => ThenThen(s.calls, t.calls, Run(t.state, handle, b));
            }
          }
        case ClearDirty =>
          RunAppend(g.(dirty := false), handle, a[1..], b);
      }
    }
  }

  /** Re-entrant acquires in a mode the holder allows only count up, without kernel calls. */
  lemma {:induction false} NestedPreps(g: Access, handle: nat, write: bool, r: int, k: nat)
    requires g.count > 0 && (write ==> g.exclusive)
    ensures Run(g, handle, Repeat(Prep(write, r), k)) == Some(AccessRun(g.(count := g.count + k), []))
    decreases k
  {
    if k > 0 {
      var ops := Repeat(Prep(write, r), k);
      assert ops[0] == Prep(write, r) && ops[1..] == Repeat(Prep(write, r), k - 1);
      NestedPreps(g.(count := g.count + 1), handle, write, r, k - 1);
      ThenNil(Run(g.(count := g.count + 1), handle, ops[1..]));
    }
  }

  /** k releases of a guard held k deep issue exactly one kernel release, the last one. */
  lemma {:induction false} NestedFinis(g: Access, handle: nat, r: int, k: nat)
    requires k >= 1 && g.count == k
    ensures Run(g, handle, Repeat(Fini(r), k)) == Some(AccessRun(g.(count := 0), [CpuRelease(handle, r)]))
    decreases k
  {
    var ops := Repeat(Fini(r), k);
    assert ops[0] == Fini(r) && ops[1..] == Repeat(Fini(r), k - 1);
    if k == 1 {
      assert ops[1..] == [];
      assert [CpuRelease(handle, r)] + [] == [CpuRelease(handle, r)];
    } else {
      NestedFinis(g.(count := k - 1), handle, r, k - 1);
      ThenNil(Run(g.(count := k - 1), handle, ops[1..]));
    }
  }

  /**
   * n nested acquires in one mode followed by n releases reach the kernel
   * exactly twice: one acquire with the mode's flags and one release.
   */
  lemma {:induction false} NestedAccessPairs(g: Access, handle: nat, write: bool, n: nat, rel: int)
    requires g.count == 0 && n >= 1
    ensures Run(g, handle, Repeat(Prep(write, 0), n) + Repeat(Fini(rel), n)) ==
      Some(AccessRun(Access(0, write, g.dirty || write),
                     [CpuAcquire(handle, AcquireFlags(write), 0), CpuRelease(handle, rel)]))
  {
    var preps := Repeat(Prep(write, 0), n);
    var first := Access(1, write, g.dirty || write);
    assert preps[0] == Prep(write, 0) && preps[1..] == Repeat(Prep(write, 0), n - 1);
    NestedPreps(first, handle, write, 0, n - 1);
    assert [CpuAcquire(handle, AcquireFlags(write), 0)] + [] == [CpuAcquire(handle, AcquireFlags(write), 0)];
    assert Run(g, handle, preps) == Some(AccessRun(first.(count := n), [CpuAcquire(handle, AcquireFlags(write), 0)]));
    RunAppend(g, handle, preps, Repeat(Fini(rel), n));
    NestedFinis(first.(count := n), handle, rel, n);
    assert [CpuAcquire(handle, AcquireFlags(write), 0)] + [CpuRelease(handle, rel)]
      == [CpuAcquire(handle, AcquireFlags(write), 0), CpuRelease(handle, rel)];
  }

  /**
   * A write acquire on a fresh BO leaves it dirty; clearing makes it clean,
   * and a later read acquire keeps it clean.
   */
  lemma DirtyAfterWriteOnly(handle: nat)
    ensures var newBo := Access(0, false, true);
      Run(newBo, handle, [Prep(true, 0)]) == Some(AccessRun(Access(1, true, true), [CpuAcquire(handle, CPU_ACQUIRE_EXCLUSIVE, 0)]))
      && Run(newBo, handle, [Prep(true, 0), Fini(0), ClearDirty, Prep(false, 0)]) ==
         Some(AccessRun(Access(1, false, false), [CpuAcquire(handle, CPU_ACQUIRE_EXCLUSIVE, 0), CpuRelease(handle, 0),
                                                   CpuAcquire(handle, CPU_ACQUIRE_SHARED, 0)]))
  {
    var newBo := Access(0, false, true);
    var acq := CpuAcquire(handle, CPU_ACQUIRE_EXCLUSIVE, 0);
    var rel := CpuRelease(handle, 0);
    var shared := CpuAcquire(handle, CPU_ACQUIRE_SHARED, 0);
    assert [Prep(true, 0)][1..] == [];
    assert [acq] + [] == [acq];
    var last := [Prep(false, 0)];
    assert last[1..] == [];
    assert Run(Access(0, true, false), handle, last) == Some(AccessRun(Access(1, false, false), [shared])) by {
      assert [shared] + [] == [shared];
    }
    var tail := [ClearDirty] + last;
    assert tail[1..] == last;
    assert Run(Access(0, true, true), handle, tail) == Some(AccessRun(Access(1, false, false), [shared]));
    assert [rel] + [shared] == [rel, shared];
    var ops := [Fini(0)] + tail;
    assert ops[1..] == tail;
    assert Run(Access(1, true, true), handle, ops) == Some(AccessRun(Access(1, false, false), [rel, shared]));
    var all := [Prep(true, 0)] + ops;
    assert all[1..] == ops;
    assert [acq] + [rel, shared] == [acq, rel, shared];
    assert all == [Prep(true, 0), Fini(0), ClearDirty, Prep(false, 0)];
  }

  // ---------------------------------------------------------------------
  // Device and buffer objects
  // ---------------------------------------------------------------------

  /** The device handle; `log` records every kernel call made through it. */
  class Device {
    const fd: int
    var log: seq<Call>

    constructor (fd: int)
      ensures this.fd == fd && log == []
    {
      this.fd := fd;
      log := [];
    }
  }

  /** struct omap_bo together with the cached fields of its exynos_bo. */
  class Bo {
    const dev: Device
    const handle: nat
    const fbId: nat
    const width: u32
    const height: u32
    const pitch: u32
    const depth: u8
    const bpp: u8
    const pixelFormat: u32
    /** Export (flink) name cached by libdrm; 0 until exported. */
    var name: nat
    /** CPU mapping address cached by libdrm; 0 until mapped. */
    var vaddr: nat
    var refcnt: nat
    var acquiredExclusive: bool
    var acquireCnt: nat
    var dirty: bool
    /** False once the BO has been destroyed and freed. */
    var alive: bool

    ghost predicate Valid()
      reads this
    {
      alive <==> refcnt > 0
    }

    function AccessState(): Access
      reads this
    {
      Access(acquireCnt, acquiredExclusive, dirty)
    }

    constructor (dev: Device, handle: nat, fbId: nat, width: u32, height: u32, depth: u8, bpp: u8, pixelFormat: u32)
      ensures Valid() && alive
      ensures this.dev == dev && this.handle == handle && this.fbId == fbId
      ensures this.width == width && this.height == height && this.pitch == Pitch(width, bpp)
      ensures this.depth == depth && this.bpp == bpp && this.pixelFormat == pixelFormat
      ensures name == 0 && vaddr == 0 && refcnt == 1
      ensures AccessState() == Access(0, false, true)
    {
      this.dev := dev;
      this.handle := handle;
      this.fbId := fbId;
      this.width := width;
      this.height := height;
      this.pitch := Pitch(width, bpp);
      this.depth := depth;
      this.bpp := bpp;
      this.pixelFormat := pixelFormat;
      name := 0;
      vaddr := 0;
      refcnt := 1;
      acquiredExclusive := false;
      acquireCnt := 0;
      dirty := true;
      alive := true;
    }

    /** omap_bo_reference: the BO must be referenced already; adds one reference. */
    method Reference()
      requires Valid() && refcnt > 0
      modifies this`refcnt
      ensures Valid() && alive
      ensures refcnt == old(refcnt) + 1
    {
      refcnt := refcnt + 1;
    }

    /** omap_bo_del: remove the framebuffer, then destroy the allocation, then free. */
    method Del()
      requires refcnt == 0 && alive
      modifies this`alive, dev`log
      ensures Valid() && !alive
      ensures dev.log == old(dev.log) + [RmFb(fbId), BoDestroy(handle)]
      ensures LiveBos(dev.log) == LiveBos(old(dev.log)) - multiset{handle}
      ensures LiveFbs(dev.log) == LiveFbs(old(dev.log)) - multiset{fbId}
    {
      ghost var log0 := dev.log;
      dev.log := dev.log + [RmFb(fbId)];
      RmFbStep(log0, fbId);
      ghost var log1 := dev.log;
      dev.log := dev.log + [BoDestroy(handle)];
      BoDestroyStep(log1, handle);
      assert dev.log == log0 + [RmFb(fbId), BoDestroy(handle)];
      alive := false;
    }

    /**
     * omap_bo_get_name: the cached name without a kernel call when there is
     * one; otherwise flink, caching the name on success; 0 on failure.
     */
    method GetName(flinkRet: int, flinkName: nat) returns (n: nat)
      requires Valid() && alive
      modifies this`name, dev`log
      ensures n == name
      ensures old(name) != 0 ==> name == old(name) && dev.log == old(dev.log)
      ensures old(name) == 0 ==> dev.log == old(dev.log) + [Flink(handle, flinkRet, flinkName)]
      ensures old(name) == 0 ==> name == if flinkRet == 0 then flinkName else 0
    {
      if name != 0 {
        return name;
      }
      dev.log := dev.log + [Flink(handle, flinkRet, flinkName)];
      if flinkRet != 0 {
        return 0;
      }
      name := flinkName;
      n := name;
    }

    /** omap_bo_map: the cached mapping when there is one; otherwise map, caching on success; 0 (NULL) on failure. */
    method Map(mapAddr: nat) returns (addr: nat)
      requires Valid() && alive
      modifies this`vaddr, dev`log
      ensures addr == vaddr
      ensures old(vaddr) != 0 ==> vaddr == old(vaddr) && dev.log == old(dev.log)
      ensures old(vaddr) == 0 ==> vaddr == mapAddr && dev.log == old(dev.log) + [Mmap(handle, mapAddr)]
    {
      if vaddr != 0 {
        return vaddr;
      }
      dev.log := dev.log + [Mmap(handle, mapAddr)];
      vaddr := mapAddr;
      addr := mapAddr;
    }

    /** omap_bo_cpu_prep, with `write` standing for `op & OMAP_GEM_WRITE`. */
    method CpuPrep(write: bool, ioctlRet: int) returns (ret: int)
      requires Valid() && alive
      modifies this`acquireCnt, this`acquiredExclusive, this`dirty, dev`log
      ensures Valid()
      ensures var s := PrepStep(old(AccessState()), handle, write, ioctlRet);
        AccessState() == s.next && ret == s.ret && dev.log == old(dev.log) + s.calls
    {
      if acquireCnt > 0 {
        if write && !acquiredExclusive {
          return 1;
        }
        acquireCnt := acquireCnt + 1;
        return 0;
      }
      dev.log := dev.log + [CpuAcquire(handle, AcquireFlags(write), ioctlRet)];
      ret := ioctlRet;
      if ret == 0 {
        acquiredExclusive := write;
        acquireCnt := acquireCnt + 1;
        if acquiredExclusive {
          dirty := true;
        }
      }
    }

    /** omap_bo_cpu_fini: requires a held guard; only the last release reaches the kernel. */
    method CpuFini(ioctlRet: int) returns (ret: int)
      requires Valid() && alive && acquireCnt > 0
      modifies this`acquireCnt, dev`log
      ensures Valid()
      ensures var s := FiniStep(old(AccessState()), handle, ioctlRet);
        AccessState() == s.next && ret == s.ret && dev.log == old(dev.log) + s.calls
    {
      acquireCnt := acquireCnt - 1;
      if acquireCnt != 0 {
        return 0;
      }
      dev.log := dev.log + [CpuRelease(handle, ioctlRet)];
      ret := ioctlRet;
    }

    /** omap_bo_clear_dirty; omap_bo_get_dirty reads the `dirty` field. */
    method ClearDirty()
      modifies this`dirty
      ensures !dirty
    {
      dirty := false;
    }
  }

  /**
   * A BO as omap_bo_new leaves it: live with one reference, the given
   * geometry, handle and framebuffer, the guard free and dirty, and no
   * cached name or mapping.
   */
  ghost predicate BuiltAs(bo: Bo, dev: Device, handle: nat, fbId: nat, width: u32, height: u32,
                          depth: u8, bpp: u8, format: u32)
    reads bo
  {
    && bo.Valid() && bo.alive && bo.dev == dev && bo.handle == handle && bo.fbId == fbId
    && bo.width == width && bo.height == height && bo.pitch == Pitch(width, bpp)
    && bo.depth == depth && bo.bpp == bpp && bo.pixelFormat == format
    && bo.refcnt == 1 && bo.AccessState() == Access(0, false, true) && bo.name == 0 && bo.vaddr == 0
  }

  /**
   * omap_bo_new: allocate, then bind a legacy (depth != 0) or four-cc
   * (depth == 0) framebuffer; when the bind fails the allocation is
   * destroyed and NULL returned.  `memOk` is calloc's answer, `alloc` the
   * allocator's (a handle or failure), `fbRet`/`fbId` the bind's.
   */
  method NewBo(dev: Device, width: u32, height: u32, depth: u8, bpp: u8, format: u32,
               memOk: bool, alloc: Option<nat>, fbRet: int, fbId: nat) returns (bo: Bo?)
    modifies dev`log
    ensures bo == null <==> !memOk || alloc.None? || fbRet < 0
    ensures dev.log == old(dev.log) + NewCalls(width, height, depth, bpp, format, memOk, alloc, fbRet, fbId)
    ensures bo == null ==> LiveBos(dev.log) == LiveBos(old(dev.log)) && LiveFbs(dev.log) == LiveFbs(old(dev.log))
    ensures bo != null ==> (fresh(bo) && BuiltAs(bo, dev, alloc.value, fbId, width, height, depth, bpp, format)
      && LiveBos(dev.log) == LiveBos(old(dev.log)) + multiset{bo.handle}
      && LiveFbs(dev.log) == LiveFbs(old(dev.log)) + multiset{fbId})
  {
    ghost var log0 := dev.log;
    if !memOk {
      assert log0 + [] == log0;
      return null;
    }
    var pitch := Pitch(width, bpp);
    var size := Size(height, pitch);
    var create := BoCreate(size, BO_NONCONTIG, alloc);
    dev.log := dev.log + [create];
    if alloc.None? {
      LiveAppend(log0, create);
      assert dev.log == log0 + NewCalls(width, height, depth, bpp, format, memOk, alloc, fbRet, fbId);
      return null;
    }
    var handle := alloc.value;
    var bind: Call;
    if depth != 0 {
      bind := AddFb(width, height, depth, bpp, pitch, handle, fbRet, fbId);
    } else {
      bind := AddFb2(width, height, format, handle, pitch, fbRet, fbId);
    }
    assert bind == BindCall(width, height, depth, bpp, pitch, format, handle, fbRet, fbId);
    dev.log := dev.log + [bind];
    if fbRet < 0 {
      dev.log := dev.log + [BoDestroy(handle)];
      assert NewCalls(width, height, depth, bpp, format, memOk, alloc, fbRet, fbId) == [create, bind, BoDestroy(handle)];
      assert dev.log == log0 + [create, bind, BoDestroy(handle)];
      RollbackNoLeak(log0, size, BO_NONCONTIG, handle, bind);
      return null;
    }
    assert NewCalls(width, height, depth, bpp, format, memOk, alloc, fbRet, fbId) == [create, bind];
    assert dev.log == log0 + [create, bind];
    CreateBindLive(log0, size, BO_NONCONTIG, handle, bind);
    bo := new Bo(dev, handle, fbId, width, height, depth, bpp, format);
  }

  /** omap_bo_new_with_depth: a legacy-bound BO, pixel format 0. */
  method NewWithDepth(dev: Device, width: u32, height: u32, depth: u8, bpp: u8,
                      memOk: bool, alloc: Option<nat>, fbRet: int, fbId: nat) returns (bo: Bo?)
    modifies dev`log
    ensures bo == null <==> !memOk || alloc.None? || fbRet < 0
    ensures dev.log == old(dev.log) + NewCalls(width, height, depth, bpp, 0, memOk, alloc, fbRet, fbId)
    ensures bo == null ==> LiveBos(dev.log) == LiveBos(old(dev.log)) && LiveFbs(dev.log) == LiveFbs(old(dev.log))
    ensures bo != null ==> (fresh(bo) && BuiltAs(bo, dev, alloc.value, fbId, width, height, depth, bpp, 0)
      && LiveBos(dev.log) == LiveBos(old(dev.log)) + multiset{bo.handle}
      && LiveFbs(dev.log) == LiveFbs(old(dev.log)) + multiset{fbId})
  {
    bo := NewBo(dev, width, height, depth, bpp, 0, memOk, alloc, fbRet, fbId);
  }

  /** omap_bo_new_with_format: depth 0, so always bound through AddFB2 with the four-cc code. */
  method NewWithFormat(dev: Device, width: u32, height: u32, format: u32, bpp: u8,
                       memOk: bool, alloc: Option<nat>, fbRet: int, fbId: nat) returns (bo: Bo?)
    modifies dev`log
    ensures bo == null <==> !memOk || alloc.None? || fbRet < 0
    ensures dev.log == old(dev.log) + NewCalls(width, height, 0, bpp, format, memOk, alloc, fbRet, fbId)
    ensures memOk && alloc.Some? ==> dev.log[|old(dev.log)| + 1].AddFb2?
    ensures bo == null ==> LiveBos(dev.log) == LiveBos(old(dev.log)) && LiveFbs(dev.log) == LiveFbs(old(dev.log))
    ensures bo != null ==> (fresh(bo) && BuiltAs(bo, dev, alloc.value, fbId, width, height, 0, bpp, format)
      && LiveBos(dev.log) == LiveBos(old(dev.log)) + multiset{bo.handle}
      && LiveFbs(dev.log) == LiveFbs(old(dev.log)) + multiset{fbId})
  {
    bo := NewBo(dev, width, height, 0, bpp, format, memOk, alloc, fbRet, fbId);
  }

  /**
   * omap_bo_unreference: NULL is ignored; otherwise the BO must be
   * referenced, loses one reference, and is destroyed exactly when the
   * count drops from 1 to 0.
   */
  method Unreference(bo: Bo?) returns (destroyed: bool)
    requires bo != null ==> bo.Valid() && bo.refcnt > 0
    modifies (if bo == null then {} else {bo})`refcnt, (if bo == null then {} else {bo})`alive,
             (if bo == null then {} else {bo.dev})`log
    ensures bo == null ==> !destroyed
    ensures bo != null ==> bo.Valid() && bo.refcnt == old(bo.refcnt) - 1
    ensures bo != null ==> (destroyed <==> old(bo.refcnt) == 1)
    ensures bo != null && !destroyed ==> bo.alive && bo.dev.log == old(bo.dev.log)
    ensures bo != null && destroyed ==> (!bo.alive
      && bo.dev.log == old(bo.dev.log) + [RmFb(bo.fbId), BoDestroy(bo.handle)]
      && LiveBos(bo.dev.log) == LiveBos(old(bo.dev.log)) - multiset{bo.handle}
      && LiveFbs(bo.dev.log) == LiveFbs(old(bo.dev.log)) - multiset{bo.fbId})
    ensures bo != null ==> bo.AccessState() == old(bo.AccessState()) && bo.name == old(bo.name) && bo.vaddr == old(bo.vaddr)
  {
    destroyed := false;
    if bo == null {
      return;
    }
    bo.refcnt := bo.refcnt - 1;
    if bo.refcnt == 0 {
      bo.Del();
      destroyed := true;
    }
  }
}
