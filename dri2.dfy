/**
 * DRI2 swap scheduling of the display driver (src/omap_dri2.c).
 *
 * Per frame the scheduler decides between a page flip and a blit, points the
 * front pixmap at a scanout-capable BO, keeps extra references on both
 * pixmaps while a swap is in flight, and finalises each swap command after
 * the last display output reports completion.  The X server (drawable
 * lookup, pixmap creation, the completion callback) and drmmode (scanout
 * lookup, flip/blit mode, page flip) are replaced by their answers, passed in
 * as parameters; what the driver asks of them is recorded in `events`.
 */
module Dri2 {
  import opened Dumb

  /** DRI2BufferFrontLeft */
  const FRONT_LEFT: nat := 0
  /** Flags of a swap command (OMAP_SWAP_FAKE_FLIP, OMAP_SWAP_FAIL). */
  const SWAP_FAKE_FLIP: bv32 := 1
  const SWAP_FAIL: bv32 := 2
  /** previous_canflip of a buffer that has not been swapped yet. */
  const CANFLIP_UNKNOWN: int := -1
  /** How many vblank-query failures are logged in the process's lifetime. */
  const MSC_ERROR_LIMIT: nat := 5
  const USEC_PER_SEC: nat := 1000000
  const U64_LIMIT: int := 0x1_0000_0000_0000_0000

  /** Completion type reported to DRI2 (DRI2_FLIP_COMPLETE, DRI2_BLIT_COMPLETE). */
  datatype SwapType = FlipComplete | BlitComplete

  /** What the X server tells about a drawable. */
  datatype Drawable = Drawable(id: nat, isWindow: bool, width: int, height: int, depth: nat, x: int, y: int)

  datatype Dims = Dims(width: int, height: int)

  /** One entry of the per-output scanout table: the BO it shows and whether that is known to be current. */
  datatype Scanout = Scanout(bo: Bo?, valid: bool)

  /** What the driver asks of the X server and of drmmode, in order. */
  datatype Event =
    | PixmapRequested(width: int, height: int, depth: nat, scanout: bool)
    | FbRequested(fbBo: Bo)
    | Copied(drawId: nat)
    | FlipRequested(drawId: nat, fbId: nat)
    | Completed(client: nat, drawId: nat, kind: SwapType)
    | ScanoutSet(x: int, y: int, bo: Bo?)

  // ---------------------------------------------------------------------
  // Decisions
  // ---------------------------------------------------------------------

  /**
   * canflip: only a window can be flipped, only when the back BO (if any)
   * has the drawable's size, and only when some output scans out a buffer
   * matching the drawable (`scanoutMatches`, drmmode's answer).
   */
  function CanFlip(d: Drawable, back: Option<Dims>, scanoutMatches: bool): (r: bool)
    ensures !d.isWindow ==> !r
    ensures back.Some? && back.value != Dims(d.width, d.height) ==> !r
    ensures d.isWindow && (back.None? || back.value == Dims(d.width, d.height)) ==> (r <==> scanoutMatches)
  {
    if !d.isWindow then false
    else if back.Some? && (back.value.width != d.width || back.value.height != d.height) then false
    else scanoutMatches
  }

  /** Leaving the back BO out only drops a check: whatever can flip with it can flip without it. */
  lemma CanFlipWithoutBo(d: Drawable, back: Dims, scanoutMatches: bool)
    ensures CanFlip(d, Some(back), scanoutMatches) ==> CanFlip(d, None, scanoutMatches)
  {
  }

  /** The C truth value stored in previous_canflip. */
  function CanflipValue(b: bool): int
  {
    if b then 1 else 0
  }

  /**
   * Whether ScheduleSwap bumps the window pixmap's serial: a buffer that was
   * swapped before changed between flippable and not, or a resize is pending.
   */
  function BumpsSerial(srcPrevious: int, dstPrevious: int, canFlip: bool, hasResized: bool): (b: bool)
    ensures hasResized ==> b
    ensures (!hasResized && srcPrevious in {CANFLIP_UNKNOWN, CanflipValue(canFlip)}
             && dstPrevious in {CANFLIP_UNKNOWN, CanflipValue(canFlip)}) ==> !b
    ensures ((srcPrevious != CANFLIP_UNKNOWN && srcPrevious != CanflipValue(canFlip))
             || (dstPrevious != CANFLIP_UNKNOWN && dstPrevious != CanflipValue(canFlip))) ==> b
  {
    (srcPrevious != CANFLIP_UNKNOWN && srcPrevious != CanflipValue(canFlip))
    || (dstPrevious != CANFLIP_UNKNOWN && dstPrevious != CanflipValue(canFlip))
    || hasResized
  }

  /** Whether ScheduleSwap points the front pixmap at the matching scanout's BO. */
  function SwitchesFront(canFlip: bool, hasResized: bool): bool
  {
    canFlip && !hasResized
  }

  /**
   * Whether ScheduleSwap page-flips rather than blits: both BOs have a
   * framebuffer, the drawable can flip and no resize is pending.
   */
  function Flips(srcFbId: nat, dstFbId: nat, canFlip: bool, hasResized: bool): (r: bool)
    ensures r ==> SwitchesFront(canFlip, hasResized)
    ensures r <==> srcFbId != 0 && dstFbId != 0 && SwitchesFront(canFlip, hasResized)
  {
    srcFbId != 0 && dstFbId != 0 && canFlip && !hasResized
  }

  /** Flags, countdown and return value that a page-flip result gives a flip command. */
  datatype FlipResult = FlipResult(flags: bv32, swapCount: int, ok: bool)

  /**
   * drmmode_page_flip returns the number of outputs that will report
   * completion, 0 when none had to flip, or a negative error whose magnitude
   * minus one counts outputs already flipped.
   */
  function FlipOutcome(ret: int): (r: FlipResult)
    ensures r.swapCount >= 0
    ensures r.ok <==> ret >= 0
    ensures r.flags & SWAP_FAIL != 0 <==> ret < 0
    ensures r.flags & SWAP_FAKE_FLIP != 0 <==> ret == 0
    ensures r.swapCount == 0 <==> ret == 0 || ret == -1
    ensures ret > 0 ==> r.swapCount == ret && r.flags == 0
    ensures ret < 0 ==> r.swapCount == -(ret + 1)
  {
    if ret < 0 then FlipResult(SWAP_FAIL, -(ret + 1), false)
    else if ret == 0 then FlipResult(SWAP_FAKE_FLIP, 0, true)
    else FlipResult(0, ret, true)
  }

  /** One SwapComplete call on a command's countdown: the count is decremented first. */
  function CountdownStep(count: int): int
  {
    count - 1
  }

  /** Whether the SwapComplete call that finds the countdown at `count` finalises the command. */
  predicate Finalises(count: int)
  {
    CountdownStep(count) <= 0
  }

  /** The countdown after `k` SwapComplete calls. */
  function AfterCalls(count: int, k: nat): int
    decreases k
  {
    if k == 0 then count else AfterCalls(CountdownStep(count), k - 1)
  }

  /**
   * The number of SwapComplete calls a command created with countdown
   * `count` takes to be finalised, counted call by call.
   */
  function CallsUntilFinal(count: int): (n: nat)
    ensures n == if count >= 1 then count else 1
    decreases if count > 0 then count else 0
  {
    if Finalises(count) then 1 else 1 + CallsUntilFinal(CountdownStep(count))
  }

  /**
   * Of the calls a command receives before it is gone, exactly the
   * CallsUntilFinal(count)-th finalises it; the ones before only count down.
   */
  lemma {:induction false} FinalisedByLastCall(count: int, k: nat)
    requires k < CallsUntilFinal(count)
    ensures Finalises(AfterCalls(count, k)) <==> k == CallsUntilFinal(count) - 1
  {
    if k > 0 {
      FinalisedByLastCall(CountdownStep(count), k - 1);
    }
  }

  /** Index of the first slot showing `bo`, or |s| when none does. */
  function FirstHolding(s: seq<Scanout>, bo: Bo?): (k: nat)
    ensures k <= |s|
    ensures forall j :: 0 <= j < k ==> s[j].bo != bo
    ensures k < |s| ==> s[k].bo == bo
  {
    if s == [] then 0
    else if s[0].bo == bo then 0
    else 1 + FirstHolding(s[1..], bo)
  }

  /** Table after a completed flip: the first slot showing `bo` becomes valid, nothing else changes. */
  function ValidateFirst(s: seq<Scanout>, bo: Bo?): (r: seq<Scanout>)
    ensures |r| == |s|
    ensures forall i :: 0 <= i < |s| ==> r[i].bo == s[i].bo
    ensures forall i :: 0 <= i < |s| ==>
      r[i].valid == (s[i].valid || (s[i].bo == bo && forall j :: 0 <= j < i ==> s[j].bo != bo))
  {
    var k := FirstHolding(s, bo);
    if k < |s| then s[k := s[k].(valid := true)] else s
  }

  /** Table after a completed blit: every slot keeps its BO and is no longer valid. */
  function InvalidateAll(s: seq<Scanout>): (r: seq<Scanout>)
    ensures |r| == |s|
    ensures forall i :: 0 <= i < |s| ==> r[i].bo == s[i].bo && !r[i].valid
  {
    seq(|s|, i requires 0 <= i < |s| => s[i].(valid := false))
  }

  /** A completed blit followed by a completed flip leaves exactly the first slot showing the flipped BO valid. */
  lemma BlitThenFlip(s: seq<Scanout>, bo: Bo?)
    ensures var r := ValidateFirst(InvalidateAll(s), bo);
      forall i :: 0 <= i < |s| ==> (r[i].valid <==> i == FirstHolding(s, bo))
  {
  }

  /** Reporting the same flip twice changes the table no further. */
  lemma ValidateFirstIdempotent(s: seq<Scanout>, bo: Bo?)
    ensures ValidateFirst(ValidateFirst(s, bo), bo) == ValidateFirst(s, bo)
  {
  }

  /** A flip with `ret` outputs to report is finalised by the ret-th completion; a partial failure by the last flipped output's. */
  lemma FlipCountdown(ret: int)
    ensures ret > 0 ==> CallsUntilFinal(FlipOutcome(ret).swapCount) == ret
    ensures ret < -1 ==> CallsUntilFinal(FlipOutcome(ret).swapCount) == -(ret + 1)
    ensures FlipOutcome(ret).swapCount == 0 ==> CallsUntilFinal(FlipOutcome(ret).swapCount) == 1
  {
  }

  /** Once a buffer pair has swapped, the serial stays put while flippability does not change. */
  lemma SteadyCanflipKeepsSerial(canFlip: bool)
    ensures !BumpsSerial(CanflipValue(canFlip), CanflipValue(canFlip), canFlip, false)
    ensures !BumpsSerial(CANFLIP_UNKNOWN, CANFLIP_UNKNOWN, canFlip, false)
  {
  }

  /** A change of flippability on either buffer bumps the serial. */
  lemma CanflipChangeBumpsSerial(before: bool, now: bool, other: int, hasResized: bool)
    requires before != now
    ensures BumpsSerial(CanflipValue(before), other, now, hasResized)
    ensures BumpsSerial(other, CanflipValue(before), now, hasResized)
  {
  }

  /** Unadjusted system time (ust) of a vblank reply: sec·10⁶ + usec as a 64-bit unsigned value. */
  function Ust(sec: int, usec: int): (u: nat)
    ensures u < U64_LIMIT
    ensures 0 <= sec * USEC_PER_SEC + usec < U64_LIMIT ==> u == sec * USEC_PER_SEC + usec
  {
    (sec * USEC_PER_SEC + usec) % U64_LIMIT
  }

  /** A reply with usec below one second is recovered from its ust. */
  lemma UstRoundTrip(sec: nat, usec: nat)
    requires usec < USEC_PER_SEC && sec * USEC_PER_SEC + usec < U64_LIMIT
    ensures Ust(sec, usec) / USEC_PER_SEC == sec && Ust(sec, usec) % USEC_PER_SEC == usec
  {
  }

  /** Later replies give larger ust values while the sum fits in 64 bits. */
  lemma UstMonotonic(sec1: nat, usec1: nat, sec2: nat, usec2: nat)
    requires usec1 < USEC_PER_SEC && usec2 < USEC_PER_SEC
    requires sec2 * USEC_PER_SEC + usec2 < U64_LIMIT
    requires sec1 < sec2 || (sec1 == sec2 && usec1 < usec2)
    ensures Ust(sec1, usec1) < Ust(sec2, usec2)
  {
  }

  // ---------------------------------------------------------------------
  // X-server records
  // ---------------------------------------------------------------------

  /** A pixmap with its driver private's BO. */
  class Pixmap {
    const width: int
    const height: int
    const bitsPerPixel: nat
    var refcnt: int
    var bo: Bo?
    var serial: nat

    constructor (width: int, height: int, bitsPerPixel: nat, bo: Bo?)
      ensures this.width == width && this.height == height && this.bitsPerPixel == bitsPerPixel
      ensures this.bo == bo && refcnt == 1 && serial == 0
    {
      this.width := width;
      this.height := height;
      this.bitsPerPixel := bitsPerPixel;
      this.bo := bo;
      refcnt := 1;
      serial := 0;
    }
  }

  /** OMAPDRI2BufferRec: a DRI2 buffer, its backing pixmap and the canflip value of its last swap. */
  class Buffer {
    const attachment: nat
    const pixmap: Pixmap
    const format: nat
    const cpp: nat
    const name: nat
    var previousCanflip: int

    constructor (attachment: nat, pixmap: Pixmap, format: nat, cpp: nat, name: nat)
      ensures this.attachment == attachment && this.pixmap == pixmap && this.format == format
      ensures this.cpp == cpp && this.name == name && previousCanflip == CANFLIP_UNKNOWN
    {
      this.attachment := attachment;
      this.pixmap := pixmap;
      this.format := format;
      this.cpp := cpp;
      this.name := name;
      previousCanflip := CANFLIP_UNKNOWN;
    }
  }

  /** struct _OMAPDRISwapCmd: one swap in flight, found again by drawable id. */
  class SwapCmd {
    var kind: SwapType
    const client: nat
    const drawId: nat
    const dstPix: Pixmap
    const srcPix: Pixmap
    var swapCount: int
    var flags: bv32
    const x: int
    const y: int

    constructor (client: nat, drawId: nat, dstPix: Pixmap, srcPix: Pixmap, x: int, y: int)
      ensures this.client == client && this.drawId == drawId && this.dstPix == dstPix && this.srcPix == srcPix
      ensures this.x == x && this.y == y && swapCount == 0 && flags == 0
    {
      this.client := client;
      this.drawId := drawId;
      this.dstPix := dstPix;
      this.srcPix := srcPix;
      this.x := x;
      this.y := y;
      kind := BlitComplete;
      swapCount := 0;
      flags := 0;
    }
  }

  /** The old front BO loses a reference when it is not the new one. */
  predicate Released(oldBo: Bo?, newBo: Bo?)
  {
    oldBo != null && oldBo != newBo
  }

  /** Kernel calls made when the old front BO loses its last reference. */
  function ReleaseCalls(oldBo: Bo?, newBo: Bo?, lastRef: bool): seq<Call>
  {
    if Released(oldBo, newBo) && lastRef then [RmFb(oldBo.fbId), BoDestroy(oldBo.handle)] else []
  }

  /**
   * The front buffer stands for the drawable's own pixmap, any other buffer
   * for its stored pixmap; the two coincide only when the front buffer's
   * stored pixmap is the drawable's current one.
   */
  lemma SwapPixmapChoice(buf: Buffer, drawPix: Pixmap)
    ensures buf.attachment == FRONT_LEFT ==> SwapPixmap(buf, drawPix) == drawPix
    ensures buf.attachment != FRONT_LEFT ==> SwapPixmap(buf, drawPix) == buf.pixmap
    ensures SwapPixmap(buf, drawPix) == buf.pixmap <==> buf.attachment != FRONT_LEFT || drawPix == buf.pixmap
  {
  }

  /** A BO the front switch neither takes nor releases a reference on. */
  predicate Bystander(b: Bo?, oldFront: Bo?, newFront: Bo?)
  {
    b != null && b != oldFront && b != newFront
  }

  /** draw2pix(dri2draw(pDraw, buf)): the front buffer stands for the drawable's own pixmap. */
  function SwapPixmap(buf: Buffer, drawPix: Pixmap): Pixmap
  {
    if buf.attachment == FRONT_LEFT then drawPix else buf.pixmap
  }

  /** The X server's NEXT_SERIAL_NUMBER counter: one per server, every screen refers to the same one. */
  class SerialCounter {
    var next: nat

    constructor ()
      ensures next == 0
    {
      next := 0;
    }
  }

  /**
   * The `limit` counter static to OMAPDRI2GetMSC: one per process, so every
   * screen's failures draw on the same five messages. `logged` counts the
   * messages written so far.
   */
  class MscErrorLimit {
    var remaining: int
    ghost var logged: nat

    ghost predicate Valid()
      reads this
    {
      0 <= remaining <= MSC_ERROR_LIMIT && logged + remaining == MSC_ERROR_LIMIT
    }

    constructor ()
      ensures Valid() && remaining == MSC_ERROR_LIMIT && logged == 0
    {
      remaining := MSC_ERROR_LIMIT;
      logged := 0;
    }
  }

  /**
   * OMAPDRI2GetMSC: on success ust and msc of the reply; on failure FALSE,
   * logging only while the process-wide limit lasts, so at most five
   * failures are ever logged, whichever screens they come from.
   */
  method GetMsc(limit: MscErrorLimit, ret: int, sec: int, usec: int, sequence: u32) returns (ok: bool, ust: nat, msc: nat)
    requires limit.Valid()
    modifies limit`remaining, limit`logged
    ensures limit.Valid() && limit.logged <= MSC_ERROR_LIMIT
    ensures ok <==> ret == 0
    ensures ok ==> ust == Ust(sec, usec) && msc == sequence
    ensures ok ==> limit.remaining == old(limit.remaining) && limit.logged == old(limit.logged)
    ensures !ok ==> limit.remaining == (if old(limit.remaining) > 0 then old(limit.remaining) - 1 else 0)
    ensures !ok ==> limit.logged == old(limit.logged) + (if old(limit.remaining) > 0 then 1 else 0)
  {
    if ret != 0 {
      if limit.remaining != 0 {
        limit.logged := limit.logged + 1;
        limit.remaining := limit.remaining - 1;
      }
      return false, 0, 0;
    }
    ust := Ust(sec, usec);
    msc := sequence;
    ok := true;
  }

  /** The driver's per-screen state (OMAPRec) that the scheduler uses. */
  class Screen {
    const dev: Device
    /** pOMAP->scanouts[MAX_SCANOUTS]; MAX_SCANOUTS is the array's length. */
    const scanouts: array<Scanout>
    /** pOMAP->scanout: the shared BO a blitting front pixmap is given. */
    var scanoutBo: Bo
    var pendingFlips: int
    var hasResized: bool
    var events: seq<Event>
    /** The X server's serial number counter, shared by every screen. */
    const serial: SerialCounter
    /** Swap commands dispatched and not yet finalised. */
    ghost var outstanding: set<SwapCmd>

    ghost predicate Valid()
      reads this
    {
      && pendingFlips == |outstanding|
      && (forall c :: c in outstanding ==> c.srcPix != c.dstPix)
    }

    constructor (dev: Device, scanouts: array<Scanout>, scanoutBo: Bo, serial: SerialCounter)
      ensures Valid()
      ensures this.dev == dev && this.scanouts == scanouts && this.scanoutBo == scanoutBo && this.serial == serial
      ensures pendingFlips == 0 && !hasResized && events == [] && outstanding == {}
    {
      this.dev := dev;
      this.scanouts := scanouts;
      this.scanoutBo := scanoutBo;
      this.serial := serial;
      pendingFlips := 0;
      hasResized := false;
      events := [];
      outstanding := {};
    }

    /** A BO the scheduler may take a reference on. */
    ghost predicate Referenced(b: Bo?)
      reads this, b
    {
      b != null && b.Valid() && b.refcnt > 0 && b.dev == dev
    }

    /** A nullable BO as a frame. */
    static function BoSet(b: Bo?): set<Bo>
    {
      if b == null then {} else {b}
    }

    /** canflip(pDraw, src_priv->bo) as ScheduleSwap asks it. */
    function SrcCanFlip(d: Drawable, src: Buffer, hit: Option<nat>): bool
      reads src.pixmap
      requires src.pixmap.bo != null
    {
      CanFlip(d, Some(Dims(src.pixmap.bo.width as int, src.pixmap.bo.height as int)), hit.Some?)
    }

    /** The BO the front pixmap is given: the matched scanout's when it switches, else the shared one. */
    function NewFront(hit: Option<nat>, switch: bool): Bo?
      reads this, scanouts
    {
      if switch then HitBo(hit) else scanoutBo
    }

    /** The BO of the scanout drmmode matched, or null. */
    function HitBo(hit: Option<nat>): Bo?
      reads scanouts
    {
      if hit.Some? && hit.value < scanouts.Length then scanouts[hit.value].bo else null
    }

    /**
     * The first half of OMAPDRI2ScheduleSwap: a drawable that can flip (and
     * is not resizing) gets the matching scanout's BO as its front buffer,
     * any other the shared scanout BO; the new BO is referenced before the
     * old one is released, then flip or blit mode is requested.
     */
    method SwitchFront(dst: Buffer, hit: Option<nat>, switch: bool, flipModeOk: bool, blitModeOk: bool)
      returns (modeOk: bool)
      requires switch ==> hit.Some? && hit.value < scanouts.Length && Referenced(scanouts[hit.value].bo)
      requires Referenced(scanoutBo)
      requires dst.pixmap.bo != null ==> Referenced(dst.pixmap.bo)
      modifies dst.pixmap`bo, BoSet(dst.pixmap.bo)`refcnt, BoSet(dst.pixmap.bo)`alive, BoSet(HitBo(hit))`refcnt,
               scanoutBo`refcnt, dev`log
      ensures dst.pixmap.bo == NewFront(hit, switch) && NewFront(hit, switch) != null
      ensures modeOk == (if switch then flipModeOk else blitModeOk)
      ensures NewFront(hit, switch).Valid() && NewFront(hit, switch).alive
      ensures NewFront(hit, switch).refcnt
                == old(NewFront(hit, switch).refcnt) + (if old(dst.pixmap.bo) == NewFront(hit, switch) then 0 else 1)
      ensures Released(old(dst.pixmap.bo), NewFront(hit, switch)) ==>
        && old(dst.pixmap.bo).Valid() && old(dst.pixmap.bo).refcnt == old(dst.pixmap.bo.refcnt) - 1
        && (old(dst.pixmap.bo).alive <==> old(dst.pixmap.bo.refcnt) > 1)
      ensures dev.log == old(dev.log) + ReleaseCalls(old(dst.pixmap.bo), NewFront(hit, switch), old(dst.pixmap.bo != null && dst.pixmap.bo.refcnt == 1))
      // the BO that is neither the old nor the new front keeps its reference count
      ensures Bystander(HitBo(hit), old(dst.pixmap.bo), NewFront(hit, switch)) ==>
        HitBo(hit).refcnt == old(HitBo(hit).refcnt) && HitBo(hit).alive == old(HitBo(hit).alive)
      ensures Bystander(scanoutBo, old(dst.pixmap.bo), NewFront(hit, switch)) ==>
        scanoutBo.refcnt == old(scanoutBo.refcnt) && scanoutBo.alive == old(scanoutBo.alive)
    {
      var oldBo := dst.pixmap.bo;
      var newBo: Bo;
      if switch {
        newBo := scanouts[hit.value].bo;
        dst.pixmap.bo := newBo;
        newBo.Reference();
        var _ := Unreference(oldBo);
        modeOk := flipModeOk;
      } else {
        newBo := scanoutBo;
        newBo.Reference();
        var _ := Unreference(oldBo);
        dst.pixmap.bo := newBo;
        modeOk := blitModeOk;
      }
    }

    /**
     * OMAPDRI2ScheduleSwap: switch the front BO (SwitchFront) and give up
     * when the display mode cannot be set; otherwise take an extra reference
     * on both pixmaps and count the swap as pending, bump the window
     * pixmap's serial when the drawable's flippability changed or a resize
     * is pending, record this frame's canflip in both buffers, then either
     * page-flip the source framebuffer (completing at once when no output has
     * to report) or copy the source to the destination and complete at once.
     * `flipRet` is drmmode_page_flip's answer and `found` the drawable lookup
     * of an immediate completion.  The ghost results name the decisions taken.
     */
    method ScheduleSwap(client: nat, d: Drawable, dst: Buffer, src: Buffer, drawPix: Pixmap,
                        hit: Option<nat>, flipModeOk: bool, blitModeOk: bool, flipRet: int, found: bool)
      returns (ok: bool, cmd: SwapCmd?, ghost canFlip: bool, ghost front: Bo?, ghost modeOk: bool, ghost flip: bool)
      requires Valid()
      requires src.pixmap != dst.pixmap && src.pixmap.bo != null
      requires SwapPixmap(src, drawPix) != SwapPixmap(dst, drawPix)
      requires hit.Some? ==> hit.value < scanouts.Length && Referenced(scanouts[hit.value].bo)
      requires Referenced(scanoutBo)
      requires dst.pixmap.bo != null ==> Referenced(dst.pixmap.bo)
      modifies this`pendingFlips, this`outstanding, this`events, this`hasResized, serial`next, scanouts,
               src`previousCanflip, dst`previousCanflip, drawPix`serial,
               {SwapPixmap(src, drawPix), SwapPixmap(dst, drawPix)}`refcnt,
               {SwapPixmap(src, drawPix), SwapPixmap(dst, drawPix), dst.pixmap}`bo,
               BoSet(dst.pixmap.bo) + BoSet(HitBo(hit)) + {scanoutBo}`refcnt, BoSet(dst.pixmap.bo)`alive, dev`log
      ensures Valid()
      // the front BO switch
      ensures canFlip == old(SrcCanFlip(d, src, hit))
      ensures front == old(NewFront(hit, SwitchesFront(canFlip, hasResized))) && front != null
      ensures dst.pixmap.bo == front && src.pixmap.bo == old(src.pixmap.bo)
      // only dst's stored pixmap is given a new BO; the swap pixmaps keep theirs otherwise
      ensures SwapPixmap(dst, drawPix) != dst.pixmap ==> SwapPixmap(dst, drawPix).bo == old(SwapPixmap(dst, drawPix).bo)
      ensures SwapPixmap(src, drawPix) != dst.pixmap ==> SwapPixmap(src, drawPix).bo == old(SwapPixmap(src, drawPix).bo)
      ensures front.Valid() && front.alive
      ensures front.refcnt == old(front.refcnt) + (if old(dst.pixmap.bo) == front then 0 else 1)
      ensures Released(old(dst.pixmap.bo), front) ==>
        && old(dst.pixmap.bo).Valid() && old(dst.pixmap.bo).refcnt == old(dst.pixmap.bo.refcnt) - 1
        && (old(dst.pixmap.bo).alive <==> old(dst.pixmap.bo.refcnt) > 1)
      ensures dev.log == old(dev.log) + ReleaseCalls(old(dst.pixmap.bo), front, old(dst.pixmap.bo != null && dst.pixmap.bo.refcnt == 1))
      ensures Bystander(old(HitBo(hit)), old(dst.pixmap.bo), front) ==>
        old(HitBo(hit)).refcnt == old(HitBo(hit).refcnt) && old(HitBo(hit)).alive == old(HitBo(hit).alive)
      ensures Bystander(scanoutBo, old(dst.pixmap.bo), front) ==>
        scanoutBo.refcnt == old(scanoutBo.refcnt) && scanoutBo.alive == old(scanoutBo.alive)
      // the mode cannot be set: nothing else happens
      ensures modeOk == (if SwitchesFront(canFlip, old(hasResized)) then flipModeOk else blitModeOk)
      ensures !modeOk ==>
        && !ok && cmd == null && pendingFlips == old(pendingFlips) && outstanding == old(outstanding)
        && events == old(events) && hasResized == old(hasResized) && scanouts[..] == old(scanouts[..])
        && serial.next == old(serial.next) && drawPix.serial == old(drawPix.serial)
        && src.previousCanflip == old(src.previousCanflip) && dst.previousCanflip == old(dst.previousCanflip)
        && SwapPixmap(src, drawPix).refcnt == old(SwapPixmap(src, drawPix).refcnt)
        && SwapPixmap(dst, drawPix).refcnt == old(SwapPixmap(dst, drawPix).refcnt)
      // a command is dispatched
      ensures modeOk ==>
        && cmd != null && fresh(cmd) && cmd.client == client && cmd.drawId == d.id && cmd.x == d.x && cmd.y == d.y
        && cmd.srcPix == SwapPixmap(src, drawPix) && cmd.dstPix == SwapPixmap(dst, drawPix)
        && src.previousCanflip == CanflipValue(canFlip) && dst.previousCanflip == CanflipValue(canFlip)
      ensures modeOk && BumpsSerial(old(src.previousCanflip), old(dst.previousCanflip), canFlip, old(hasResized)) ==>
        serial.next == old(serial.next) + 1 && drawPix.serial == serial.next
      ensures !(modeOk && BumpsSerial(old(src.previousCanflip), old(dst.previousCanflip), canFlip, old(hasResized))) ==>
        serial.next == old(serial.next) && drawPix.serial == old(drawPix.serial)
      ensures flip == (modeOk && Flips(old(src.pixmap.bo).fbId, front.fbId, canFlip, old(hasResized)))
      // page flip
      ensures flip ==>
        && cmd != null && cmd.kind == FlipComplete && cmd.flags == FlipOutcome(flipRet).flags
        && ok == FlipOutcome(flipRet).ok && hasResized == old(hasResized)
      ensures flip && FlipOutcome(flipRet).swapCount > 0 ==>
        && cmd != null && cmd in outstanding && cmd.swapCount == FlipOutcome(flipRet).swapCount
        && pendingFlips == old(pendingFlips) + 1 && outstanding == old(outstanding) + {cmd}
        && SwapPixmap(src, drawPix).refcnt == old(SwapPixmap(src, drawPix).refcnt) + 1
        && SwapPixmap(dst, drawPix).refcnt == old(SwapPixmap(dst, drawPix).refcnt) + 1
        && events == old(events) + [FlipRequested(d.id, old(src.pixmap.bo).fbId)]
        && scanouts[..] == old(scanouts[..])
      ensures flip && FlipOutcome(flipRet).swapCount == 0 ==>
        && cmd != null && pendingFlips == old(pendingFlips) && outstanding == old(outstanding)
        && SwapPixmap(src, drawPix).refcnt == old(SwapPixmap(src, drawPix).refcnt)
        && SwapPixmap(dst, drawPix).refcnt == old(SwapPixmap(dst, drawPix).refcnt)
        && events == old(events) + [FlipRequested(d.id, old(src.pixmap.bo).fbId)]
             + (if flipRet == 0 && found then [Completed(client, d.id, FlipComplete)] else [])
        && scanouts[..] == (if flipRet == 0 && found then ValidateFirst(old(scanouts[..]), cmd.dstPix.bo) else old(scanouts[..]))
      // blit
      ensures modeOk && !flip ==>
        && ok && cmd != null && cmd.kind == BlitComplete && !hasResized
        && pendingFlips == old(pendingFlips) && outstanding == old(outstanding)
        && SwapPixmap(src, drawPix).refcnt == old(SwapPixmap(src, drawPix).refcnt)
        && SwapPixmap(dst, drawPix).refcnt == old(SwapPixmap(dst, drawPix).refcnt)
        && events == old(events) + [Copied(d.id)] + (if found then [Completed(client, d.id, BlitComplete)] else [])
        && scanouts[..] == (if found then InvalidateAll(old(scanouts[..])) else old(scanouts[..]))
    {
      var srcBo := src.pixmap.bo;
      var newCanflip := SrcCanFlip(d, src, hit);
      var switch := SwitchesFront(newCanflip, hasResized);
      canFlip, front := newCanflip, NewFront(hit, switch);
      var setMode := SwitchFront(dst, hit, switch, flipModeOk, blitModeOk);
      modeOk := setMode;
      var dstBo := dst.pixmap.bo;
      ok, cmd, flip := CommitIfSet(setMode, client, d, dst, src, drawPix, srcBo.fbId, dstBo.fbId, newCanflip, flipRet, found);
    }

    /**
     * OMAPDRI2ScheduleSwap after the front BO switch: FALSE with nothing
     * else done when the display mode could not be set, otherwise Commit.
     */
    method CommitIfSet(setMode: bool, client: nat, d: Drawable, dst: Buffer, src: Buffer, drawPix: Pixmap,
                       srcFbId: nat, dstFbId: nat, canFlip: bool, flipRet: int, found: bool)
      returns (ok: bool, cmd: SwapCmd?, ghost flip: bool)
      requires Valid()
      requires SwapPixmap(src, drawPix) != SwapPixmap(dst, drawPix)
      modifies this`pendingFlips, this`outstanding, this`events, this`hasResized, serial`next, scanouts,
               src`previousCanflip, dst`previousCanflip, drawPix`serial,
               {SwapPixmap(src, drawPix), SwapPixmap(dst, drawPix)}`refcnt,
               {SwapPixmap(src, drawPix), SwapPixmap(dst, drawPix)}`bo
      ensures Valid()
      ensures SwapPixmap(src, drawPix).bo == old(SwapPixmap(src, drawPix).bo)
      ensures SwapPixmap(dst, drawPix).bo == old(SwapPixmap(dst, drawPix).bo)
      ensures !setMode ==>
        && !ok && cmd == null && pendingFlips == old(pendingFlips) && outstanding == old(outstanding)
        && events == old(events) && hasResized == old(hasResized) && scanouts[..] == old(scanouts[..])
        && serial.next == old(serial.next) && drawPix.serial == old(drawPix.serial)
        && src.previousCanflip == old(src.previousCanflip) && dst.previousCanflip == old(dst.previousCanflip)
        && SwapPixmap(src, drawPix).refcnt == old(SwapPixmap(src, drawPix).refcnt)
        && SwapPixmap(dst, drawPix).refcnt == old(SwapPixmap(dst, drawPix).refcnt)
      ensures setMode ==>
        && cmd != null && fresh(cmd) && cmd.client == client && cmd.drawId == d.id && cmd.x == d.x && cmd.y == d.y
        && cmd.srcPix == SwapPixmap(src, drawPix) && cmd.dstPix == SwapPixmap(dst, drawPix)
        && src.previousCanflip == CanflipValue(canFlip) && dst.previousCanflip == CanflipValue(canFlip)
      ensures setMode && BumpsSerial(old(src.previousCanflip), old(dst.previousCanflip), canFlip, old(hasResized)) ==>
        serial.next == old(serial.next) + 1 && drawPix.serial == serial.next
      ensures !(setMode && BumpsSerial(old(src.previousCanflip), old(dst.previousCanflip), canFlip, old(hasResized))) ==>
        serial.next == old(serial.next) && drawPix.serial == old(drawPix.serial)
      ensures flip == (setMode && Flips(srcFbId, dstFbId, canFlip, old(hasResized)))
      ensures flip ==>
        && cmd != null && cmd.kind == FlipComplete && cmd.flags == FlipOutcome(flipRet).flags
        && ok == FlipOutcome(flipRet).ok && hasResized == old(hasResized)
      ensures flip && FlipOutcome(flipRet).swapCount > 0 ==>
        && cmd != null && cmd in outstanding && cmd.swapCount == FlipOutcome(flipRet).swapCount
        && pendingFlips == old(pendingFlips) + 1 && outstanding == old(outstanding) + {cmd}
        && SwapPixmap(src, drawPix).refcnt == old(SwapPixmap(src, drawPix).refcnt) + 1
        && SwapPixmap(dst, drawPix).refcnt == old(SwapPixmap(dst, drawPix).refcnt) + 1
        && events == old(events) + [FlipRequested(d.id, srcFbId)]
        && scanouts[..] == old(scanouts[..])
      ensures flip && FlipOutcome(flipRet).swapCount == 0 ==>
        && cmd != null && pendingFlips == old(pendingFlips) && outstanding == old(outstanding)
        && SwapPixmap(src, drawPix).refcnt == old(SwapPixmap(src, drawPix).refcnt)
        && SwapPixmap(dst, drawPix).refcnt == old(SwapPixmap(dst, drawPix).refcnt)
        && events == old(events) + [FlipRequested(d.id, srcFbId)]
             + (if flipRet == 0 && found then [Completed(client, d.id, FlipComplete)] else [])
        && scanouts[..] == (if flipRet == 0 && found then ValidateFirst(old(scanouts[..]), cmd.dstPix.bo) else old(scanouts[..]))
      ensures setMode && !flip ==>
        && ok && cmd != null && cmd.kind == BlitComplete && !hasResized
        && pendingFlips == old(pendingFlips) && outstanding == old(outstanding)
        && SwapPixmap(src, drawPix).refcnt == old(SwapPixmap(src, drawPix).refcnt)
        && SwapPixmap(dst, drawPix).refcnt == old(SwapPixmap(dst, drawPix).refcnt)
        && events == old(events) + [Copied(d.id)] + (if found then [Completed(client, d.id, BlitComplete)] else [])
        && scanouts[..] == (if found then InvalidateAll(old(scanouts[..])) else old(scanouts[..]))
    {
      if !setMode {
        return false, null, false;
      }
      ok, cmd, flip := Commit(client, d, dst, src, drawPix, srcFbId, dstFbId, canFlip, flipRet, found);
    }

    /**
     * OMAPDRI2ScheduleSwap once the display mode is set: the command holds an
     * extra reference on both pixmaps and counts as pending, the canflip
     * bookkeeping runs (NoteCanflip), and the swap is dispatched.
     */
    method Commit(client: nat, d: Drawable, dst: Buffer, src: Buffer, drawPix: Pixmap,
                  srcFbId: nat, dstFbId: nat, canFlip: bool, flipRet: int, found: bool)
      returns (ok: bool, cmd: SwapCmd, ghost flip: bool)
      requires Valid()
      requires SwapPixmap(src, drawPix) != SwapPixmap(dst, drawPix)
      modifies this`pendingFlips, this`outstanding, this`events, this`hasResized, serial`next, scanouts,
               src`previousCanflip, dst`previousCanflip, drawPix`serial,
               {SwapPixmap(src, drawPix), SwapPixmap(dst, drawPix)}`refcnt,
               {SwapPixmap(src, drawPix), SwapPixmap(dst, drawPix)}`bo
      ensures Valid()
      ensures fresh(cmd) && cmd.client == client && cmd.drawId == d.id && cmd.x == d.x && cmd.y == d.y
      ensures cmd.srcPix == SwapPixmap(src, drawPix) && cmd.dstPix == SwapPixmap(dst, drawPix)
      ensures cmd.srcPix.bo == old(SwapPixmap(src, drawPix).bo) && cmd.dstPix.bo == old(SwapPixmap(dst, drawPix).bo)
      ensures src.previousCanflip == CanflipValue(canFlip) && dst.previousCanflip == CanflipValue(canFlip)
      ensures BumpsSerial(old(src.previousCanflip), old(dst.previousCanflip), canFlip, old(hasResized)) ==>
        serial.next == old(serial.next) + 1 && drawPix.serial == serial.next
      ensures !BumpsSerial(old(src.previousCanflip), old(dst.previousCanflip), canFlip, old(hasResized)) ==>
        serial.next == old(serial.next) && drawPix.serial == old(drawPix.serial)
      ensures flip == Flips(srcFbId, dstFbId, canFlip, old(hasResized))
      ensures flip ==>
        && cmd.kind == FlipComplete && cmd.flags == FlipOutcome(flipRet).flags
        && ok == FlipOutcome(flipRet).ok && hasResized == old(hasResized)
      ensures flip && FlipOutcome(flipRet).swapCount > 0 ==>
        && cmd in outstanding && cmd.swapCount == FlipOutcome(flipRet).swapCount
        && pendingFlips == old(pendingFlips) + 1 && outstanding == old(outstanding) + {cmd}
        && cmd.srcPix.refcnt == old(SwapPixmap(src, drawPix).refcnt) + 1 && cmd.dstPix.refcnt == old(SwapPixmap(dst, drawPix).refcnt) + 1
        && events == old(events) + [FlipRequested(d.id, srcFbId)]
        && scanouts[..] == old(scanouts[..])
      ensures flip && FlipOutcome(flipRet).swapCount == 0 ==>
        && pendingFlips == old(pendingFlips) && outstanding == old(outstanding)
        && cmd.srcPix.refcnt == old(SwapPixmap(src, drawPix).refcnt) && cmd.dstPix.refcnt == old(SwapPixmap(dst, drawPix).refcnt)
        && events == old(events) + [FlipRequested(d.id, srcFbId)]
             + (if flipRet == 0 && found then [Completed(client, d.id, FlipComplete)] else [])
        && scanouts[..] == (if flipRet == 0 && found then ValidateFirst(old(scanouts[..]), cmd.dstPix.bo) else old(scanouts[..]))
      ensures !flip ==>
        && ok && cmd.kind == BlitComplete && !hasResized
        && pendingFlips == old(pendingFlips) && outstanding == old(outstanding)
        && cmd.srcPix.refcnt == old(SwapPixmap(src, drawPix).refcnt) && cmd.dstPix.refcnt == old(SwapPixmap(dst, drawPix).refcnt)
        && events == old(events) + [Copied(d.id)] + (if found then [Completed(client, d.id, BlitComplete)] else [])
        && scanouts[..] == (if found then InvalidateAll(old(scanouts[..])) else old(scanouts[..]))
    {
      cmd := Enqueue(client, d, SwapPixmap(src, drawPix), SwapPixmap(dst, drawPix));
      NoteCanflip(src, dst, drawPix, canFlip);
      var flips := Flips(srcFbId, dstFbId, canFlip, hasResized);
      flip := flips;
      ok := Dispatch(cmd, d, srcFbId, flips, flipRet, found);
    }

    /**
     * Allocation of the swap command: it takes an extra reference on both
     * pixmaps and is counted among the pending flips until it completes.
     */
    method Enqueue(client: nat, d: Drawable, srcPix: Pixmap, dstPix: Pixmap) returns (cmd: SwapCmd)
      requires Valid() && srcPix != dstPix
      modifies this`pendingFlips, this`outstanding, srcPix`refcnt, dstPix`refcnt
      ensures Valid()
      ensures fresh(cmd) && cmd in outstanding && outstanding == old(outstanding) + {cmd}
      ensures pendingFlips == old(pendingFlips) + 1
      ensures cmd.client == client && cmd.drawId == d.id && cmd.x == d.x && cmd.y == d.y
      ensures cmd.srcPix == srcPix && cmd.dstPix == dstPix && cmd.swapCount == 0 && cmd.flags == 0
      ensures srcPix.refcnt == old(srcPix.refcnt) + 1 && dstPix.refcnt == old(dstPix.refcnt) + 1
    {
      cmd := new SwapCmd(client, d.id, dstPix, srcPix, d.x, d.y);
      srcPix.refcnt := srcPix.refcnt + 1;
      dstPix.refcnt := dstPix.refcnt + 1;
      pendingFlips := pendingFlips + 1;
      outstanding := outstanding + {cmd};
    }

    /**
     * Bump the window pixmap's serial when either buffer's flippability
     * changed since its last swap or a resize is pending (forcing DRI2 to
     * reallocate the buffers), then record this frame's canflip in both.
     */
    method NoteCanflip(src: Buffer, dst: Buffer, drawPix: Pixmap, canFlip: bool)
      modifies serial`next, src`previousCanflip, dst`previousCanflip, drawPix`serial
      ensures src.previousCanflip == CanflipValue(canFlip) && dst.previousCanflip == CanflipValue(canFlip)
      ensures BumpsSerial(old(src.previousCanflip), old(dst.previousCanflip), canFlip, hasResized) ==>
        serial.next == old(serial.next) + 1 && drawPix.serial == serial.next
      ensures !BumpsSerial(old(src.previousCanflip), old(dst.previousCanflip), canFlip, hasResized) ==>
        serial.next == old(serial.next) && drawPix.serial == old(drawPix.serial)
    {
      if BumpsSerial(src.previousCanflip, dst.previousCanflip, canFlip, hasResized) {
        serial.next := serial.next + 1;
        drawPix.serial := serial.next;
      }
      src.previousCanflip := CanflipValue(canFlip);
      dst.previousCanflip := CanflipValue(canFlip);
    }

    /**
     * The second half of OMAPDRI2ScheduleSwap for a command already counted
     * as pending: a flip asks drmmode to flip the source framebuffer and
     * sets the countdown from its answer, completing at once when no output
     * has to report; a blit copies the drawable and completes at once,
     * clearing a pending resize.
     */
    method Dispatch(cmd: SwapCmd, d: Drawable, srcFbId: nat, flips: bool, flipRet: int, found: bool)
      returns (ok: bool)
      requires Valid() && cmd in outstanding && cmd.swapCount == 0 && cmd.flags == 0 && cmd.drawId == d.id
      modifies this`events, this`hasResized, this`pendingFlips, this`outstanding, scanouts,
               cmd`kind, cmd`flags, cmd`swapCount,
               cmd.srcPix`refcnt, cmd.srcPix`bo, cmd.dstPix`refcnt, cmd.dstPix`bo
      ensures Valid()
      ensures cmd.srcPix.bo == old(cmd.srcPix.bo) && cmd.dstPix.bo == old(cmd.dstPix.bo)
      ensures flips ==>
        && cmd.kind == FlipComplete && cmd.flags == FlipOutcome(flipRet).flags
        && ok == FlipOutcome(flipRet).ok && hasResized == old(hasResized)
      ensures flips && FlipOutcome(flipRet).swapCount > 0 ==>
        && cmd in outstanding && cmd.swapCount == FlipOutcome(flipRet).swapCount
        && pendingFlips == old(pendingFlips) && outstanding == old(outstanding)
        && cmd.srcPix.refcnt == old(cmd.srcPix.refcnt) && cmd.dstPix.refcnt == old(cmd.dstPix.refcnt)
        && events == old(events) + [FlipRequested(d.id, srcFbId)]
        && scanouts[..] == old(scanouts[..])
      ensures flips && FlipOutcome(flipRet).swapCount == 0 ==>
        && pendingFlips == old(pendingFlips) - 1 && outstanding == old(outstanding) - {cmd}
        && cmd.srcPix.refcnt == old(cmd.srcPix.refcnt) - 1 && cmd.dstPix.refcnt == old(cmd.dstPix.refcnt) - 1
        && events == old(events) + [FlipRequested(d.id, srcFbId)]
             + (if flipRet == 0 && found then [Completed(cmd.client, d.id, FlipComplete)] else [])
        && scanouts[..] == (if flipRet == 0 && found then ValidateFirst(old(scanouts[..]), cmd.dstPix.bo) else old(scanouts[..]))
      ensures !flips ==>
        && ok && cmd.kind == BlitComplete && !hasResized
        && pendingFlips == old(pendingFlips) - 1 && outstanding == old(outstanding) - {cmd}
        && cmd.srcPix.refcnt == old(cmd.srcPix.refcnt) - 1 && cmd.dstPix.refcnt == old(cmd.dstPix.refcnt) - 1
        && events == old(events) + [Copied(d.id)] + (if found then [Completed(cmd.client, d.id, BlitComplete)] else [])
        && scanouts[..] == (if found then InvalidateAll(old(scanouts[..])) else old(scanouts[..]))
    {
      if flips {
        ok := PageFlip(cmd, d, srcFbId, flipRet, found);
      } else {
        events := events + [Copied(d.id)];
        cmd.kind := BlitComplete;
        var _ := SwapComplete(cmd, found);
        hasResized := false;
        ok := true;
      }
    }

    /**
     * The flip branch of Dispatch: request the flip, take FAIL / FAKE_FLIP
     * and the countdown from drmmode's answer, and complete at once when no
     * output has to report.
     */
    method PageFlip(cmd: SwapCmd, d: Drawable, srcFbId: nat, flipRet: int, found: bool) returns (ok: bool)
      requires Valid() && cmd in outstanding && cmd.swapCount == 0 && cmd.flags == 0 && cmd.drawId == d.id
      modifies this`events, this`pendingFlips, this`outstanding, scanouts,
               cmd`kind, cmd`flags, cmd`swapCount,
               cmd.srcPix`refcnt, cmd.srcPix`bo, cmd.dstPix`refcnt, cmd.dstPix`bo
      ensures Valid()
      ensures cmd.srcPix.bo == old(cmd.srcPix.bo) && cmd.dstPix.bo == old(cmd.dstPix.bo)
      ensures cmd.kind == FlipComplete && cmd.flags == FlipOutcome(flipRet).flags && ok == FlipOutcome(flipRet).ok
      ensures FlipOutcome(flipRet).swapCount > 0 ==>
        && cmd in outstanding && cmd.swapCount == FlipOutcome(flipRet).swapCount
        && pendingFlips == old(pendingFlips) && outstanding == old(outstanding)
        && cmd.srcPix.refcnt == old(cmd.srcPix.refcnt) && cmd.dstPix.refcnt == old(cmd.dstPix.refcnt)
        && events == old(events) + [FlipRequested(d.id, srcFbId)]
        && scanouts[..] == old(scanouts[..])
      ensures FlipOutcome(flipRet).swapCount == 0 ==>
        && pendingFlips == old(pendingFlips) - 1 && outstanding == old(outstanding) - {cmd}
        && cmd.srcPix.refcnt == old(cmd.srcPix.refcnt) - 1 && cmd.dstPix.refcnt == old(cmd.dstPix.refcnt) - 1
        && events == old(events) + [FlipRequested(d.id, srcFbId)]
             + (if flipRet == 0 && found then [Completed(cmd.client, d.id, FlipComplete)] else [])
        && scanouts[..] == (if flipRet == 0 && found then ValidateFirst(old(scanouts[..]), cmd.dstPix.bo) else old(scanouts[..]))
    {
      cmd.kind := FlipComplete;
      events := events + [FlipRequested(d.id, srcFbId)];
      if flipRet < 0 {
        cmd.flags := cmd.flags | SWAP_FAIL;
        cmd.swapCount := -(flipRet + 1);
        if cmd.swapCount == 0 {
          var _ := SwapComplete(cmd, found);
        }
        ok := false;
      } else {
        if flipRet == 0 {
          cmd.flags := cmd.flags | SWAP_FAKE_FLIP;
        }
        cmd.swapCount := flipRet;
        if cmd.swapCount == 0 {
          var _ := SwapComplete(cmd, found);
        }
        ok := true;
      }
    }

    /**
     * OMAPDRI2CreateBuffer: the front buffer takes another reference on the
     * drawable's pixmap, other attachments get a new pixmap (scanout-capable
     * when the drawable can flip); the buffer starts with previous_canflip
     * -1, and a framebuffer is requested for a flippable back buffer.
     * `newPix` is what CreatePixmap returns, `nameRet`/`name` the name lookup's answer.
     */
    method CreateBuffer(d: Drawable, attachment: nat, format: nat, drawPix: Pixmap, newPix: Pixmap,
                        scanoutMatches: bool, memOk: bool, nameRet: int, name: nat) returns (buf: Buffer?)
      modifies this`events, drawPix`refcnt
      ensures var front := attachment == FRONT_LEFT;
        var pix := if front then drawPix else newPix;
        var flippable := CanFlip(d, None, scanoutMatches);
        && drawPix.refcnt == old(drawPix.refcnt) + (if memOk && front then 1 else 0)
        && (buf != null <==> memOk && pix.bo != null && nameRet == 0)
        && (buf != null ==>
              && fresh(buf) && buf.attachment == attachment && buf.pixmap == pix
              && buf.format == format && buf.cpp == pix.bitsPerPixel / 8 && buf.name == name
              && buf.previousCanflip == CANFLIP_UNKNOWN)
        && events == old(events)
             + (if memOk && !front then [PixmapRequested(d.width, d.height, d.depth, flippable)] else [])
             + (if buf != null && flippable && !front then [FbRequested(pix.bo)] else [])
    {
      if !memOk {
        return null;
      }
      var pix: Pixmap;
      if attachment == FRONT_LEFT {
        pix := drawPix;
        pix.refcnt := pix.refcnt + 1;
      } else {
        events := events + [PixmapRequested(d.width, d.height, d.depth, CanFlip(d, None, scanoutMatches))];
        pix := newPix;
      }
      var bo := pix.bo;
      if bo == null {
        return null;
      }
      if nameRet != 0 {
        return null;
      }
      buf := new Buffer(attachment, pix, format, pix.bitsPerPixel / 8, name);
      if CanFlip(d, None, scanoutMatches) && attachment != FRONT_LEFT {
        events := events + [FbRequested(bo)];
      }
    }

    /** The blit branch of SwapComplete: no scanout is known to be current any more. */
    method InvalidateScanouts()
      modifies scanouts
      ensures scanouts[..] == InvalidateAll(old(scanouts[..]))
    {
      for i := 0 to scanouts.Length
        invariant forall j :: 0 <= j < i ==> scanouts[j] == old(scanouts[j]).(valid := false)
        invariant forall j :: i <= j < scanouts.Length ==> scanouts[j] == old(scanouts[j])
      {
        scanouts[i] := scanouts[i].(valid := false);
      }
    }

    /** The flip branch of SwapComplete: the first scanout showing `bo` is current again. */
    method ValidateScanout(bo: Bo?)
      modifies scanouts
      ensures scanouts[..] == ValidateFirst(old(scanouts[..]), bo)
    {
      ghost var k := FirstHolding(scanouts[..], bo);
      var i := 0;
      while i < scanouts.Length
        invariant 0 <= i <= k
        invariant scanouts[..] == old(scanouts[..])
      {
        if scanouts[i].bo == bo {
          scanouts[i] := scanouts[i].(valid := true);
          break;
        }
        i := i + 1;
      }
    }

    /**
     * OMAPDRI2SwapComplete: one output reported completion.  The command is
     * finalised once its countdown is no longer positive: unless it failed
     * and if its drawable still exists (`found`, the lookup's answer), the
     * pixmaps exchange BOs for a real flip, the client is told, and the
     * scanout table is updated; in every case both extra pixmap references
     * and the in-flight count are dropped.
     */
    method SwapComplete(cmd: SwapCmd, found: bool) returns (finalised: bool)
      requires Valid() && cmd in outstanding
      modifies this`pendingFlips, this`outstanding, this`events, scanouts, cmd`swapCount,
               cmd.srcPix`refcnt, cmd.srcPix`bo, cmd.dstPix`refcnt, cmd.dstPix`bo
      ensures Valid()
      ensures cmd.swapCount == CountdownStep(old(cmd.swapCount))
      ensures finalised <==> Finalises(old(cmd.swapCount))
      ensures !finalised ==>
        && pendingFlips == old(pendingFlips) && outstanding == old(outstanding) && events == old(events)
        && scanouts[..] == old(scanouts[..])
        && cmd.srcPix.refcnt == old(cmd.srcPix.refcnt) && cmd.dstPix.refcnt == old(cmd.dstPix.refcnt)
      ensures finalised ==>
        && pendingFlips == old(pendingFlips) - 1 && outstanding == old(outstanding) - {cmd}
        && cmd.srcPix.refcnt == old(cmd.srcPix.refcnt) - 1 && cmd.dstPix.refcnt == old(cmd.dstPix.refcnt) - 1
      ensures var live := finalised && cmd.flags & SWAP_FAIL == 0 && found;
        var exchange := live && cmd.kind == FlipComplete && cmd.flags & SWAP_FAKE_FLIP == 0;
        && (exchange ==> cmd.srcPix.bo == old(cmd.dstPix.bo) && cmd.dstPix.bo == old(cmd.srcPix.bo))
        && (!exchange ==> cmd.srcPix.bo == old(cmd.srcPix.bo) && cmd.dstPix.bo == old(cmd.dstPix.bo))
        && (finalised && !live ==> events == old(events) && scanouts[..] == old(scanouts[..]))
        && (live && cmd.kind == BlitComplete ==>
              events == old(events) + [Completed(cmd.client, cmd.drawId, BlitComplete)]
              && scanouts[..] == InvalidateAll(old(scanouts[..])))
        && (live && cmd.kind == FlipComplete ==>
              events == old(events) + [Completed(cmd.client, cmd.drawId, FlipComplete)]
                + (if cmd.flags & SWAP_FAKE_FLIP == 0 then [ScanoutSet(cmd.x, cmd.y, cmd.dstPix.bo)] else [])
              && scanouts[..] == ValidateFirst(old(scanouts[..]), cmd.dstPix.bo))
    {
      cmd.swapCount := cmd.swapCount - 1;
      if cmd.swapCount > 0 {
        return false;
      }
      if cmd.flags & SWAP_FAIL == 0 && found {
        if cmd.kind != BlitComplete && cmd.flags & SWAP_FAKE_FLIP == 0 {
          cmd.srcPix.bo, cmd.dstPix.bo := cmd.dstPix.bo, cmd.srcPix.bo;
        }
        events := events + [Completed(cmd.client, cmd.drawId, cmd.kind)];
        if cmd.kind == BlitComplete {
          InvalidateScanouts();
        } else {
          var dstBo := cmd.dstPix.bo;
          ValidateScanout(dstBo);
          if cmd.flags & SWAP_FAKE_FLIP == 0 {
            events := events + [ScanoutSet(cmd.x, cmd.y, dstBo)];
          }
        }
      }
      cmd.srcPix.refcnt := cmd.srcPix.refcnt - 1;
      cmd.dstPix.refcnt := cmd.dstPix.refcnt - 1;
      pendingFlips := pendingFlips - 1;
      outstanding := outstanding - {cmd};
      finalised := true;
    }
  }
}
