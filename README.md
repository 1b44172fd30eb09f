# Buffer objects and DRI2 swap scheduling of the armsoc display driver

This project models the two coupled parts of the X display driver for Rockchip/Exynos
display hardware:

- **Buffer objects** (`src/omap_dumb.c`, module `Dumb`). A BO is a kernel allocation
  bound to a display framebuffer. It has a 64-byte-aligned row pitch, is shared by
  reference counting, caches its export name and its CPU mapping, and guards CPU access
  with a nested acquire/release counter.
- **DRI2 swap scheduling** (`src/omap_dri2.c`, module `Dri2`). For each swap the driver
  decides whether the drawable can be page-flipped. It then picks the BO that backs the
  front pixmap and either flips or blits. It holds extra references on both pixmaps while
  the swap is in flight. It finalises the swap command after the last display output
  reports completion, and keeps the per-output scanout table up to date.

Every call into the kernel, libdrm, the X server or drmmode is replaced by its answer,
which is passed in as a parameter:

- the allocator's handle;
- the framebuffer bind's return code;
- the ioctl result;
- the drawable lookup;
- the page-flip count.

Kernel calls are appended to `Device.log`, so the order and number of kernel calls is part
of each contract. The allocations and framebuffers still alive are computed from the log
(`LiveBos`, `LiveFbs`). Six requests to the X server, drmmode and the BO layer are appended to
`Screen.events`: `CreatePixmap`, `omap_bo_add_fb`, the copy of `OMAPDRI2CopyRegion`,
`drmmode_page_flip`, `DRI2SwapComplete` and `drmmode_scanout_set`. Other calls are not
recorded as events:

- the answers of `drmmode_set_flip_mode`, `drmmode_set_blit_mode`, the drawable lookup and
  the scanout match are parameters;
- `GetWindowPixmap` is the `drawPix` argument;
- `DestroyPixmap` and pixmap references are `refcnt` changes.

The CPU-access guard is specified by pure step functions (`PrepStep`, `FiniStep`, `Run`).
The `Bo` methods are proved against these functions. The lemmas about `Run` state what
nesting does.

The swap scheduler is a `Screen` class with these fields: the device `dev`, the fixed-size
`scanouts` array, the shared scanout BO `scanoutBo`, `pendingFlips`, `hasResized`, the
`events` record, a reference to the `serial` counter, and the ghost set `outstanding` of
commands in flight. The X server's serial
counter (`SerialCounter`) and the vblank query's message limit (`MscErrorLimit`) are
process-wide in the source. They are objects of their own: `GetMsc` takes the one process-wide
`MscErrorLimit`, and screens are meant to be built over one shared `SerialCounter`.
The invariant `Screen.Valid` ties `pendingFlips` to the set of commands in flight. Every operation
preserves it.

## Model

| member | source | states |
|---|---|---|
| Dumb.Pitch | src/omap_dumb.c:120-121 | the pitch is a multiple of 64 and, when the 32-bit row arithmetic does not wrap, ceil(width·bpp/8) ≤ pitch < ceil(width·bpp/8) + 64 |
| Dumb.Size | src/omap_dumb.c:122 | the size is height·pitch whenever that product fits in 32 bits |
| Dumb.FullHdGeometry | src/omap_dumb.c:121-122 | 1920 pixels at 32 bpp give pitch 7680, and 1080 rows give size 7680·1080 |
| Dumb.BytesPerPixel | src/omap_dumb.c:288-291 | bytes per pixel is bpp/8 rounded up: 8·r ≥ bpp > 8·r − 8 |
| Dumb.BindCall | src/omap_dumb.c:137-170 | a BO with a non-zero depth is bound with the legacy AddFB, otherwise with AddFB2; the call carries the BO handle, the pitch and the kernel's answer |
| Dumb.RollbackNoLeak | src/omap_dumb.c:186-189 | an allocation followed by a refused bind and the rollback destroy leaves the live allocations and live framebuffers unchanged |
| Dumb.CreateBindLive | src/omap_dumb.c:124-184 | a successful allocation and bind add exactly one live allocation and one live framebuffer |
| Dumb.RmFbStep | src/omap_dumb.c:218 | removing a framebuffer takes exactly that framebuffer out of the live framebuffers and leaves the live allocations alone |
| Dumb.BoDestroyStep | src/omap_dumb.c:224 | destroying an allocation takes exactly that handle out of the live allocations and leaves the live framebuffers alone |
| Dumb.NewBo | src/omap_dumb.c:104-190 | the result is NULL exactly when calloc, the allocation or the bind fails; the kernel calls made are NewCalls; a failure leaks nothing; a success records width, height, pitch, depth, bpp and format, with refcnt 1, no acquire, not exclusive and dirty, and adds one live allocation and one live framebuffer |
| Dumb.NewWithDepth | src/omap_dumb.c:192-196 | the constructor with pixel format 0: NULL exactly when NewBo fails, the same kernel calls, no leak on failure; on success the BO has the given geometry, handle, framebuffer and depth, refcnt 1, a free dirty guard, and adds one allocation and one framebuffer to the live sets |
| Dumb.NewWithFormat | src/omap_dumb.c:198-202 | the constructor with depth 0, so the bind is always AddFB2: NULL exactly when NewBo fails, no leak on failure; on success the BO has the given geometry, handle, framebuffer and format, refcnt 1, a free dirty guard, and adds one allocation and one framebuffer to the live sets |
| Dumb.Bo.constructor | src/omap_dumb.c:172-184 | a new BO holds the given geometry and format, refcnt 1, acquire count 0, not exclusive, dirty |
| Dumb.Bo.Reference | src/omap_dumb.c:238-242 | requires a referenced BO and adds exactly one reference |
| Dumb.Unreference | src/omap_dumb.c:228-236 | NULL is a no-op; otherwise it requires refcnt > 0, subtracts one, and destroys the BO exactly on the 1→0 transition (RmFB, then the allocation destroy) |
| Dumb.Bo.Del | src/omap_dumb.c:204-226 | the framebuffer is removed before the allocation is destroyed, and both leave the live sets |
| Dumb.Bo.GetName | src/omap_dumb.c:244-265 | a cached name is returned without a kernel call; otherwise flink is called once, and the result is the new name or 0 on failure |
| Dumb.Bo.Map | src/omap_dumb.c:308-327 | a cached mapping is returned without a kernel call; otherwise the mapping is made once |
| Dumb.PrepStep | src/omap_dumb.c:329-360 | only an acquire from count 0 reaches the kernel (flag 0x1 for write, 0x0 for read); success raises the count by one; a failure changes nothing; a write on a shared hold is refused with 1; a re-entrant acquire keeps the mode and the dirty flag; the first write acquire sets dirty |
| Dumb.FiniStep | src/omap_dumb.c:362-380 | requires a held guard and lowers the count by one; only the last release reaches the kernel and returns its answer |
| Dumb.Bo.CpuPrep | src/omap_dumb.c:329-360 | the BO's guard fields, the return code and the kernel calls are those of PrepStep |
| Dumb.Bo.CpuFini | src/omap_dumb.c:362-380 | the BO's guard fields, the return code and the kernel calls are those of FiniStep |
| Dumb.Bo.ClearDirty | src/omap_dumb.c:387-390 | after clearing, get_dirty (the `dirty` field) is false |
| Dumb.Repeat | src/omap_dumb.c:329-380 | a sequence of n copies of one guard operation |
| Dumb.RunAppend | src/omap_dumb.c:329-380 | running two sequences of guard operations one after the other is running their concatenation |
| Dumb.NestedPreps | src/omap_dumb.c:335-342 | re-entrant acquires in a mode the holder allows only count up and make no kernel call |
| Dumb.NestedFinis | src/omap_dumb.c:368-370 | k releases of a guard held k deep make one kernel release, the last one |
| Dumb.NestedAccessPairs | src/omap_dumb.c:329-380 | n nested acquires followed by n releases make exactly one acquire (with the mode's flags) and one release |
| Dumb.DirtyAfterWriteOnly | src/omap_dumb.c:350-390 | a write acquire leaves the BO dirty; after clear_dirty, a read acquire keeps it clean |
| Dri2.SwapPixmapChoice | src/omap_dri2.c:77-85 | SwapPixmap: the front buffer stands for the drawable's own pixmap, any other buffer for its stored pixmap; a buffer stands for its stored pixmap exactly when it is not the front or the drawable's pixmap is that stored one |
| Dri2.CanFlip | src/omap_dri2.c:87-105 | false for a non-window; false when a given back BO's size differs from the drawable's; otherwise true exactly when some scanout matches |
| Dri2.CanFlipWithoutBo | src/omap_dri2.c:97-99 | without a back BO the size check is skipped, so whatever flips with a BO also flips without one |
| Dri2.BumpsSerial | src/omap_dri2.c:461-478 | the serial is bumped exactly when a resize is pending or a buffer's recorded canflip is known and differs from the new value: a pending resize bumps, a changed recorded value bumps, and with neither nothing bumps |
| Dri2.SteadyCanflipKeepsSerial | src/omap_dri2.c:461-481 | with no resize, a repeated canflip value or a first swap does not bump the serial |
| Dri2.CanflipChangeBumpsSerial | src/omap_dri2.c:461-478 | a change of canflip on either buffer bumps the serial |
| Dri2.Flips | src/omap_dri2.c:483 | a flip is chosen exactly when both framebuffer ids are non-zero, canflip holds and no resize is pending; a flip implies that the front BO was switched to the scanout's |
| Dri2.FlipOutcome | src/omap_dri2.c:498-521 | ret < 0 gives FAIL, countdown −(ret+1) and FALSE; ret = 0 gives FAKE_FLIP; ret > 0 gives no flag and countdown ret; the countdown is 0 exactly when ret is 0 or −1 |
| Dri2.CallsUntilFinal | src/omap_dri2.c:332-333 | counting SwapComplete's own pre-decrement step (CountdownStep, Finalises), a command created with count N ≥ 1 takes N calls and one with count ≤ 0 takes one |
| Dri2.FinalisedByLastCall | src/omap_dri2.c:332-333 | of the calls a command receives, the k-th finalises it exactly when k is CallsUntilFinal of its initial count; the earlier ones only count down |
| Dri2.FlipCountdown | src/omap_dri2.c:507-518 | a flip reported by ret outputs finalises on the ret-th completion; a partial failure finalises on the last flipped output's completion |
| Dri2.FirstHolding | src/omap_dri2.c:358-365 | the index of the first scanout slot showing the BO: no earlier slot shows it, and the slot at that index does |
| Dri2.ValidateFirst | src/omap_dri2.c:358-365 | after a flip, a slot is valid iff it was valid before or it is the first slot showing the destination BO; the BOs do not change |
| Dri2.InvalidateAll | src/omap_dri2.c:351-356 | after a blit, every slot keeps its BO and is invalid |
| Dri2.BlitThenFlip | src/omap_dri2.c:348-367 | a completed blit followed by a completed flip leaves exactly the first slot showing the flipped BO valid |
| Dri2.ValidateFirstIdempotent | src/omap_dri2.c:358-365 | validating the same BO twice changes nothing further |
| Dri2.Ust | src/omap_dri2.c:290-292 | ust is sec·1000000 + usec as an unsigned 64-bit value |
| Dri2.UstRoundTrip | src/omap_dri2.c:290-292 | when usec is below one second and nothing wraps, sec and usec can be recovered from ust |
| Dri2.UstMonotonic | src/omap_dri2.c:290-292 | a later vblank time gives a larger ust as long as nothing wraps |
| Dri2.GetMsc | src/omap_dri2.c:268-298 | success iff the vblank query succeeds, returning ust and the reply's sequence; each failure logs only while the process-wide limit lasts, so at most five failures are ever logged, across all screens |
| Dri2.Screen.CreateBuffer | src/omap_dri2.c:126-197 | the front buffer takes one more reference on the drawable's pixmap; other attachments request a new pixmap (scanout-capable when the drawable can flip); the buffer starts with previous_canflip −1 and cpp = bpp/8; a framebuffer is requested only for a flippable non-front buffer |
| Dri2.Screen.SwitchFront | src/omap_dri2.c:428-449 | the front pixmap gets the matching scanout's BO when it can flip and no resize is pending, otherwise the shared scanout BO; the new BO is referenced before the old one is released, so reassigning the same BO never destroys it; the old BO is destroyed only when this was its last reference; the BO that is neither the old nor the new front keeps its references and liveness, and the frame is field by field, so no BO's guard, name or mapping changes |
| Dri2.Screen.Enqueue | src/omap_dri2.c:451-456 | the new command is counted among the outstanding swaps and the pending flips exactly once, starts with countdown 0 and no flags, and holds one extra reference on each of its two pixmaps |
| Dri2.Screen.NoteCanflip | src/omap_dri2.c:461-481 | the window pixmap's serial is bumped exactly when BumpsSerial holds; afterwards both buffers record the new canflip |
| Dri2.Screen.Dispatch | src/omap_dri2.c:483-540 | a flip requests the page flip of the source framebuffer and takes its flags, countdown and return value from FlipOutcome, completing at once when the countdown is 0; a blit copies the drawable, completes at once and clears has_resized |
| Dri2.Screen.PageFlip | src/omap_dri2.c:489-521 | a refused flip sets SWAP_FAIL and reports failure, a flip no output took sets SWAP_FAKE_FLIP; the countdown is the one FlipOutcome gives, and a countdown of 0 completes the command at once, dropping its references and its pending count |
| Dri2.Screen.Commit | src/omap_dri2.c:451-542 | once the mode is set, the command holds one extra reference on each pixmap and counts as pending exactly once; a command completed at once gives both back |
| Dri2.Screen.CommitIfSet | src/omap_dri2.c:437-542 | when the display mode could not be set, FALSE with no command and nothing changed; otherwise exactly Commit's outcome; the swap pixmaps keep their BOs either way |
| Dri2.Screen.ScheduleSwap | src/omap_dri2.c:393-543 | the whole schedule: the front BO switch; on a mode failure nothing else changes and FALSE is returned; only dst's stored pixmap gets a new BO, the swap pixmaps keep theirs; otherwise the serial rule, previous_canflip, and the choice between flip and blit with their outcomes; the frame is field by field: the shared scanout BO pointer stays as it was; every BO field other than the switched BOs' reference counts and the old front's liveness (with its RmFB and destroy in the log) stays as it was; the window pixmap's serial changes only by the serial rule |
| Dri2.Screen.InvalidateScanouts | src/omap_dri2.c:351-356 | the blit loop leaves the table as InvalidateAll of the old table |
| Dri2.Screen.ValidateScanout | src/omap_dri2.c:358-365 | the flip loop leaves the table as ValidateFirst of the old table |
| Dri2.Screen.SwapComplete | src/omap_dri2.c:322-379 | the countdown takes one CountdownStep and the command is finalised exactly when Finalises holds of the old count, with no other effect before that; at finalisation, pixmaps are exchanged only for a flip that did not fail, is not fake and whose drawable is found; the client is told exactly when the command did not fail and the drawable is found; scanout_set is called only for real flips; both pixmap references and one pending flip are always dropped |

## Left out

- Device setup and teardown (`omap_device_new`, `omap_device_del`) are not modelled. They only allocate and free.
- The ioctl number encoding of the CPU acquire and release requests is not modelled. The kernel's exclusion semantics and the mmap addresses are only what the oracle answers.
- `omap_bo_del` asserts that RmFB succeeded. The model takes the removal as successful, so runs that would abort on that assertion are outside it.
- Dumb.Pitch: the C arithmetic wraps `width * bpp + 7` at 32 bits, and the model computes that wrap. The bound ceil(width·bpp/8) ≤ pitch < … + 64 is stated only when nothing wraps.
- The `omap_bo_width`, `omap_bo_height`, `omap_bo_pitch` and similar getters are plain field reads of `Dumb.Bo`. `omap_bo_get_dirty` is the `dirty` field.
- Dumb.Bo.CpuFini: the `op` argument is unused by the source and not a parameter.
- `OMAPDRI2CopyRegion` (GC, region and CopyArea) is not modelled: a blit is recorded as a `Copied` event.
- `CreatePixmap` and `DestroyPixmap` internals are not modelled. A new pixmap is a parameter, and dropping a reference lowers its `refcnt`.
- `OMAPPixmapExchange` is not part of this model. It is taken to swap the two pixmaps' BOs.
- `dixLookupDrawable` becomes the `found` input. `drmmode_scanout_from_drawable` becomes the `hit` index into the scanout array. `drmmode_set_flip_mode` and `drmmode_set_blit_mode` become booleans, and `drmmode_page_flip` becomes its integer answer.
- `drmmode_scanout_set` and the completion callback are recorded as events.
- The value of `MAX_SCANOUTS` is in a header that is not part of this model. The scanout array's length stands for it.
- The `OMAP_USE_PAGE_FLIP_EVENTS` switch: only the events-enabled branch is modelled.
- On the early `return FALSE` after a failed mode set, the source leaks the command. The model creates no command and touches no counter.
- Dri2.Screen.CreateBuffer: the source goes on with a NULL BO and crashes later. The model returns no buffer. A failed name lookup leaks the buffer and the front pixmap's extra reference; the model keeps the reference and returns no buffer.
- Dri2.Screen.CreateBuffer: the framebuffer request's result is ignored by the source and is not modelled. The buffer's pitch and flags fields are not modelled.
- `omap_bo_get_name` has two views. `src/omap_dri2.c` treats its result as an error code with an out-parameter; `src/omap_dumb.c` returns the name. Each module models its own file's view.
- Dri2.Screen.ScheduleSwap: requires the back buffer's pixmap to have a BO. The source passes a NULL back BO to `canflip`, which then skips only the size check (src/omap_dri2.c:97), and on to `omap_bo_get_fb` (src/omap_dri2.c:458), whose definition is not part of this model. The model never builds a buffer whose pixmap has no BO, because its CreateBuffer returns no buffer where the pixmap has no BO (see the CreateBuffer line above), so the case cannot arise within it.
- Dri2.Screen.ScheduleSwap: the source and destination pixmaps of a swap are required to be distinct, and so are the buffers' pixmaps. The model does not cover a swap of a pixmap with itself.
- The serial counter wrap of `NEXT_SERIAL_NUMBER` is not modelled; the counter only grows.
- `OMAPDRI2DestroyBuffer`, `OMAPDRI2ReuseBufferNotify`, `OMAPDRI2ScheduleWaitMSC` (a stub returning FALSE), and `DRI2ScreenInit` registration with its version check are not modelled.
- The `OMAPDRI2CloseScreen` busy-wait depends on event delivery, so it is not modelled. Its exit condition is `pendingFlips <= 0`, and `Screen.Valid` ties `pendingFlips` to the commands still in flight.
- Debug and error logging is not modelled, apart from the five-message limit in GetMSC.
