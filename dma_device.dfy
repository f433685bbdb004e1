/** One STM32F4 DMA stream (`DMA_dev<stream, channel>`): the two transfer
    endpoints, the decision `submit` makes from them, and the translation of
    the device's status flags into the stream's interrupt bits.

    The vendor library is not part of this model. Its masks are fields of a
    `Vendor` value, assumed apart from one another (`VendorWf`), and every call
    into it is recorded in a ghost log of `HwCall`s. A 32-bit mask is the
    set of its bit positions: `|` is union, `&` intersection, and a mask is
    zero when the set is empty. */
module DmaDevice {
  import opened Ecl

  /** Role of a transfer endpoint. */
  datatype Role = Memory | Periphery

  /** An endpoint: its role and its address, 0 standing for a null pointer. */
  datatype Endpoint = Endpoint(role: Role, address: nat)

  /** The transfer directions the stream can be set up for. */
  datatype Direction = MemoryToMemory | PeripheralToMemory | MemoryToPeripheral

  /** The fields of the stream's init structure that `submit` fills in. */
  datatype Config = Config(channel: nat, memoryInc: bool, periphBase: nat, memBase: nat,
                           bufferSize: nat, dir: Direction, periphInc: bool)

  /** The vendor masks for this stream: its status flags (`flags::HT`, `TC`,
      `ERR`), its pending interrupt bits (the `*_IF` masks), and the
      interrupt enable bits `DMA_IT_HT`, `DMA_IT_TC`, `DMA_IT_TE`,
      `DMA_IT_FE`. */
  datatype Vendor = Vendor(ht: Mask, tc: Mask, err: Mask,
                           htIf: Mask, tcIf: Mask, errIf: Mask,
                           itHt: Mask, itTc: Mask, itTe: Mask, itFe: Mask)

  /** A bit position of a 32-bit word. */
  type Bit = i: nat | i < 32

  /** A 32-bit mask, as the set of its bits. */
  type Mask = set<Bit>

  /** Three masks, none of which lies within the other two together. They
      may share bits, as the vendor's flag constants share the bits that
      select a status register. */
  predicate Apart3(a: Mask, b: Mask, c: Mask)
  {
    !(a <= b + c) && !(b <= a + c) && !(c <= a + b)
  }

  /** What the translations of `enable_IRQ` and `complete_IRQ` rely on: the
      three status flags are apart, so are their pending bits, and so are
      the enable bits of the three sources, ERR's being the error and FIFO
      bits, each of which reaches beyond HT's and TC's. */
  predicate VendorWf(v: Vendor)
  {
    && Apart3(v.ht, v.tc, v.err)
    && Apart3(v.htIf, v.tcIf, v.errIf)
    && !(v.itHt <= v.itTc + v.itTe + v.itFe)
    && !(v.itTc <= v.itHt + v.itTe + v.itFe)
    && !(v.itTe <= v.itHt + v.itTc)
    && !(v.itFe <= v.itHt + v.itTc)
  }

  /** Every bit of a 32-bit word: the `s_t` value -1. */
  const AllBits: Mask := set i: Bit | i < 32

  /** Every bit of `mask` is set in `flags`. */
  predicate Covers(flags: Mask, mask: Mask)
  {
    mask <= flags
  }

  /** No bit of `s` lies outside `mask`. */
  predicate Within(s: Mask, mask: Mask)
  {
    s <= mask
  }

  /** A call into the vendor library or the interrupt manager. */
  datatype HwCall =
    | ClockEnable
    | StreamCmd(enable: bool)
    | ClearFlag(mask: Mask)
    | ClearPending(mask: Mask)
    | Configure(cfg: Config)
    | ItConfig(mask: Mask, enable: bool)
    | IrqMask
    | IrqUnmask
    | IrqClear
    | Subscribe(handler: nat)
    | Unsubscribe

  /** The decision `submit` takes from the endpoints: `None` when the
      buffer that bounds the transfer is too small, else the configuration
      the stream is set up with. */
  function Plan(channel: nat, origin: Endpoint, dest: Endpoint,
                originSize: nat, destSize: nat): Option<Config>
  {
    if dest.role == Memory then
      if destSize < originSize then None
      else if origin.role == Memory then
        Some(Config(channel, true, origin.address, dest.address, destSize, MemoryToMemory, true))
      else
        Some(Config(channel, true, origin.address, dest.address, destSize, PeripheralToMemory, false))
    else
      if originSize < destSize then None
      else Some(Config(channel, true, dest.address, origin.address, originSize,
                       MemoryToPeripheral, false))
  }

  /** `submit` refuses exactly when the destination is memory and smaller
      than the origin, or the destination is a periphery and larger than
      the origin. */
  lemma PlanRefuses(channel: nat, origin: Endpoint, dest: Endpoint, originSize: nat, destSize: nat)
    ensures Plan(channel, origin, dest, originSize, destSize).None? <==>
              (dest.role == Memory && destSize < originSize)
              || (dest.role == Periphery && originSize < destSize)
  {
  }

  /** The direction table: memory to memory, periphery to memory, and
      anything to a periphery. Only memory-to-memory steps the peripheral
      address; the memory address always steps. */
  lemma PlanDirection(channel: nat, origin: Endpoint, dest: Endpoint, originSize: nat, destSize: nat)
    requires Plan(channel, origin, dest, originSize, destSize).Some?
    ensures var c := Plan(channel, origin, dest, originSize, destSize).value;
            && c.dir == (if dest.role == Periphery then MemoryToPeripheral
                         else if origin.role == Memory then MemoryToMemory
                         else PeripheralToMemory)
            && (c.periphInc <==> c.dir == MemoryToMemory)
            && c.memoryInc && c.channel == channel
  {
  }

  /** An accepted transfer is as long as the larger endpoint, which is the
      one that bounds it; the memory address is the destination's when the
      destination is memory and the origin's otherwise. */
  lemma PlanBounds(channel: nat, origin: Endpoint, dest: Endpoint, originSize: nat, destSize: nat)
    requires Plan(channel, origin, dest, originSize, destSize).Some?
    ensures var c := Plan(channel, origin, dest, originSize, destSize).value;
            && c.bufferSize >= originSize && c.bufferSize >= destSize
            && (c.bufferSize == originSize || c.bufferSize == destSize)
            && (dest.role == Memory ==>
                  c.bufferSize == destSize && c.memBase == dest.address && c.periphBase == origin.address)
            && (dest.role == Periphery ==>
                  c.bufferSize == originSize && c.memBase == origin.address && c.periphBase == dest.address)
  {
  }

  /** The interrupt enable bits `enable_IRQ` sets for `flags`: HT enables
      the half-transfer interrupt, TC the transfer-complete one, ERR both
      the transfer-error and the FIFO-error ones. */
  function EnableBits(v: Vendor, flags: Mask): (r: Mask)
    requires VendorWf(v)
    ensures Covers(r, v.itHt) <==> Covers(flags, v.ht)
    ensures Covers(r, v.itTc) <==> Covers(flags, v.tc)
    ensures Covers(r, v.itTe) <==> Covers(flags, v.err)
    ensures Covers(r, v.itFe) <==> Covers(flags, v.err)
    ensures Within(r, v.itHt + v.itTc + v.itTe + v.itFe)
  {
    (if Covers(flags, v.ht) then v.itHt else {})
    + (if Covers(flags, v.tc) then v.itTc else {})
    + (if Covers(flags, v.err) then v.itTe + v.itFe else {})
  }

  /** The pending bits `complete_IRQ` clears for `flags`: each of HT, TC
      and ERR maps to the stream's own pending bit. */
  function PendingBits(v: Vendor, flags: Mask): (r: Mask)
    requires VendorWf(v)
    ensures Covers(r, v.htIf) <==> Covers(flags, v.ht)
    ensures Covers(r, v.tcIf) <==> Covers(flags, v.tc)
    ensures Covers(r, v.errIf) <==> Covers(flags, v.err)
    ensures Within(r, v.htIf + v.tcIf + v.errIf)
  {
    (if Covers(flags, v.ht) then v.htIf else {})
    + (if Covers(flags, v.tc) then v.tcIf else {})
    + (if Covers(flags, v.err) then v.errIf else {})
  }

  /** The calls `enable_IRQ` makes for a non-zero `flags`: disable every
      interrupt source, enable the selected ones, then mask, clear,
      subscribe the handler and unmask. */
  function EnableCalls(v: Vendor, handler: nat, flags: Mask): seq<HwCall>
    requires VendorWf(v)
  {
    [ItConfig(v.itTe + v.itFe + v.itTc + v.itHt, false), ItConfig(EnableBits(v, flags), true),
     IrqMask, IrqClear, Subscribe(handler), IrqUnmask]
  }

  /** `DMA_dev<stream, channel>`. */
  class DmaDev {
    const v: Vendor
    const channel: nat
    var origin: Endpoint
    var destination: Endpoint
    var originSize: nat
    var destinationSize: nat
    /** Every call made into the vendor library, oldest first. */
    ghost var log: seq<HwCall>

    /** An endpoint has a size exactly when it has an address. */
    ghost predicate Valid()
      reads this
    {
      && VendorWf(v)
      && (origin.address == 0 <==> originSize == 0)
      && (destination.address == 0 <==> destinationSize == 0)
    }

    /** Both endpoints start as null memory of size 0; the controller's
        clock is switched on. */
    constructor (v: Vendor, channel: nat)
      requires VendorWf(v)
      ensures Valid() && this.v == v && this.channel == channel
      ensures origin == Endpoint(Memory, 0) && destination == Endpoint(Memory, 0)
      ensures originSize == 0 && destinationSize == 0
      ensures log == [ClockEnable]
    {
      this.v := v;
      this.channel := channel;
      origin := Endpoint(Memory, 0);
      destination := Endpoint(Memory, 0);
      originSize := 0;
      destinationSize := 0;
      log := [ClockEnable];
    }

    /** `set_origin`: refuses a null address or a zero size and changes
        nothing; otherwise stores the endpoint and its size. */
    method SetOrigin(r: Role, address: nat, size: nat) returns (rc: int)
      requires Valid()
      modifies this
      ensures Valid() && log == old(log)
      ensures destination == old(destination) && destinationSize == old(destinationSize)
      ensures rc == -1 <==> address == 0 || size == 0
      ensures rc == -1 ==> origin == old(origin) && originSize == old(originSize)
      ensures rc != -1 ==> rc == 0 && origin == Endpoint(r, address) && originSize == size
    {
      if address == 0 || size == 0 {
        return -1;
      }
      origin := Endpoint(r, address);
      originSize := size;
      return 0;
    }

    /** `set_destination`: the same for the destination endpoint. */
    method SetDestination(r: Role, address: nat, size: nat) returns (rc: int)
      requires Valid()
      modifies this
      ensures Valid() && log == old(log)
      ensures origin == old(origin) && originSize == old(originSize)
      ensures rc == -1 <==> address == 0 || size == 0
      ensures rc == -1 ==> destination == old(destination) && destinationSize == old(destinationSize)
      ensures rc != -1 ==> rc == 0 && destination == Endpoint(r, address) && destinationSize == size
    {
      if address == 0 || size == 0 {
        return -1;
      }
      destination := Endpoint(r, address);
      destinationSize := size;
      return 0;
    }

    /** `get_status`: the subset of HT, TC and ERR whose hardware flag
        `isSet` reports as set. */
    method GetStatus(isSet: Mask -> bool) returns (flags: Mask)
      requires VendorWf(v)
      ensures Covers(flags, v.ht) <==> isSet(v.ht)
      ensures Covers(flags, v.tc) <==> isSet(v.tc)
      ensures Covers(flags, v.err) <==> isSet(v.err)
      ensures Within(flags, v.ht + v.tc + v.err)
    {
      flags := {};
      if isSet(v.ht) {
        flags := flags + v.ht;
      }
      if isSet(v.tc) {
        flags := flags + v.tc;
      }
      if isSet(v.err) {
        flags := flags + v.err;
      }
    }

    /** `submit`: disables the stream, then either refuses the transfer or
        clears the stream's flags and pending interrupts, configures it
        with `Plan`'s decision and enables it. */
    method Submit() returns (rc: int)
      requires Valid()
      modifies this
      ensures Valid()
      ensures origin == old(origin) && destination == old(destination)
      ensures originSize == old(originSize) && destinationSize == old(destinationSize)
      ensures var plan := Plan(channel, origin, destination, originSize, destinationSize);
              && (plan.None? ==> rc == -1 && log == old(log) + [StreamCmd(false)])
              && (plan.Some? ==> rc == 0 && log == old(log) + [
                    StreamCmd(false), ClearFlag(v.tc + v.ht + v.err),
                    ClearPending(v.tcIf + v.htIf + v.errIf),
                    Configure(plan.value), StreamCmd(true)])
    {
      log := log + [StreamCmd(false)];
      var periphBase, memBase, bufferSize, dir, periphInc;
      if destination.role == Memory {
        if destinationSize < originSize {
          return -1;
        }
        periphBase := origin.address;
        memBase := destination.address;
        bufferSize := destinationSize;
        if origin.role == Memory {
          dir := MemoryToMemory;
          periphInc := true;
        } else {
          dir := PeripheralToMemory;
          periphInc := false;
        }
      } else {
        if originSize < destinationSize {
          return -1;
        }
        bufferSize := originSize;
        memBase := origin.address;
        periphBase := destination.address;
        dir := MemoryToPeripheral;
        periphInc := false;
      }
      var init := Config(channel, true, periphBase, memBase, bufferSize, dir, periphInc);
      log := log + [ClearFlag(v.tc + v.ht + v.err), ClearPending(v.tcIf + v.htIf + v.errIf)];
      log := log + [Configure(init), StreamCmd(true)];
      return 0;
    }

    /** `complete`: disables the stream and detaches its interrupt. */
    method Complete() returns (rc: int)
      modifies this
      ensures rc == 0 && log == old(log) + [StreamCmd(false), IrqMask, Unsubscribe]
      ensures origin == old(origin) && destination == old(destination)
      ensures originSize == old(originSize) && destinationSize == old(destinationSize)
    {
      log := log + [StreamCmd(false), IrqMask, Unsubscribe];
      return 0;
    }

    /** `enable_IRQ`: refuses an empty flag set and makes no call;
        otherwise enables exactly the interrupt sources of `flags` and
        subscribes `handler`. */
    method EnableIrq(handler: nat, flags: Mask := AllBits) returns (rc: int)
      requires Valid()
      modifies this
      ensures Valid()
      ensures origin == old(origin) && destination == old(destination)
      ensures originSize == old(originSize) && destinationSize == old(destinationSize)
      ensures rc == -1 <==> flags == {}
      ensures flags == {} ==> log == old(log)
      ensures flags != {} ==> rc == 0 && log == old(log) + EnableCalls(v, handler, flags)
    {
      if flags == {} {
        return -1;
      }
      var itFlags: Mask := {};
      if v.ht <= flags {
        itFlags := itFlags + v.itHt;
      }
      if v.tc <= flags {
        itFlags := itFlags + v.itTc;
      }
      if v.err <= flags {
        itFlags := itFlags + (v.itTe + v.itFe);
      }
      assert itFlags == EnableBits(v, flags);
      var toClear := v.itTe + v.itFe + v.itTc + v.itHt;
      log := log + [ItConfig(toClear, false), ItConfig(itFlags, true)];
      log := log + [IrqMask, IrqClear, Subscribe(handler), IrqUnmask];
      return 0;
    }

    /** `complete_IRQ`: clears the status flags `flags` and the pending bits
        they map to, skipping either call when its mask is empty, inside a
        mask/unmask of the stream's interrupt. */
    method CompleteIrq(flags: Mask := AllBits) returns (rc: int)
      requires Valid()
      modifies this
      ensures Valid() && rc == 0
      ensures origin == old(origin) && destination == old(destination)
      ensures originSize == old(originSize) && destinationSize == old(destinationSize)
      ensures log == old(log) + [IrqMask]
                     + (if flags != {} then [ClearFlag(flags)] else [])
                     + (if PendingBits(v, flags) != {} then [ClearPending(PendingBits(v, flags))] else [])
                     + [IrqClear, IrqUnmask]
    {
      var itFlags: Mask := {};
      if v.ht <= flags {
        itFlags := itFlags + v.htIf;
      }
      if v.tc <= flags {
        itFlags := itFlags + v.tcIf;
      }
      if v.err <= flags {
        itFlags := itFlags + v.errIf;
      }
      assert itFlags == PendingBits(v, flags);
      log := log + [IrqMask];
      if flags != {} {
        log := log + [ClearFlag(flags)];
      }
      if itFlags != {} {
        log := log + [ClearPending(itFlags)];
      }
      log := log + [IrqClear, IrqUnmask];
      return 0;
    }
  }

  /** A non-empty flag set may still select no interrupt source: flags
      outside HT, TC and ERR are accepted by `enable_IRQ` and enable
      nothing. */
  lemma EnableNothing(v: Vendor, flags: Mask)
    requires VendorWf(v) && flags != {}
    requires flags !! (v.ht + v.tc + v.err)
    ensures EnableBits(v, flags) == {}
  {
  }

  /** The default `flags` of -1 selects every source: `enable_IRQ`
      enables all four interrupt sources and `complete_IRQ` clears all
      three pending bits. */
  lemma AllFlagsSelectAll(v: Vendor)
    requires VendorWf(v)
    ensures EnableBits(v, AllBits) == v.itHt + v.itTc + v.itTe + v.itFe
    ensures PendingBits(v, AllBits) == v.htIf + v.tcIf + v.errIf
  {
    forall m: Mask
      ensures m <= AllBits
    {
      forall b | b in m
        ensures b in AllBits
      {
      }
    }
  }
}
