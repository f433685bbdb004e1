/** GPIO pin helpers of the Tiva C TM4C123G platform (`ecl::gpio_hw`):
    gathering pins into one 8-bit bin (`pin_bin`) and looking up a pin's
    interrupt flag (`get_pin_intflag`).

    A pin (`gpio_hw::num`) is an `int`-based enumeration; it is modelled by
    the 32-bit pattern of its value, so values outside the eight named pins
    are representable, as they are in the program. */
module PinCfg {

  /** The value of a `gpio_hw::num`, as a 32-bit pattern. */
  type Num = bv32

  /** `GPIO_PIN_0` .. `GPIO_PIN_7` of TivaWare's `gpio.h`. */
  const GpioPin: seq<Num> := [0x01, 0x02, 0x04, 0x08, 0x10, 0x20, 0x40, 0x80]

  /** `GPIO_INT_PIN_0` .. `GPIO_INT_PIN_7` of TivaWare's `gpio.h`. */
  const GpioIntPin: seq<bv32> := [0x01, 0x02, 0x04, 0x08, 0x10, 0x20, 0x40, 0x80]

  /** The value `get_pin_intflag` gives for anything but a named pin. */
  const NoIntFlag: bv32 := 0xff

  /** Storing a pin's value in a `uint8_t` keeps its low eight bits. */
  function Low8(n: Num): bv8
  {
    (n & 0xff) as bv8
  }

  /** Every bit of `part` is set in `whole`. */
  predicate Covers(whole: bv8, part: bv8)
  {
    whole & part == part
  }

  /** `pin_bin<pins...>::pins`: the OR of the pins' values, each level of
      the recursion truncated to eight bits. A bin holds at least one pin. */
  function PinBin(pins: seq<Num>): bv8
    requires |pins| >= 1
  {
    if |pins| == 1 then Low8(pins[0])
    else PinBin(pins[1..]) | Low8(pins[0])
  }

  /** The bin has every bit of every pin it gathers. */
  lemma {:induction false} PinBinCoversPins(pins: seq<Num>)
    requires |pins| >= 1
    ensures forall i :: 0 <= i < |pins| ==> Covers(PinBin(pins), Low8(pins[i]))
    decreases |pins|
  {
    if |pins| > 1 {
      PinBinCoversPins(pins[1..]);
      forall i | 1 <= i < |pins|
        ensures Covers(PinBin(pins), Low8(pins[i]))
      {
        assert pins[i] == pins[1..][i - 1];
      }
    }
  }

  /** The bin has no other bit: any byte holding every pin's bits holds the
      whole bin. */
  lemma {:induction false} PinBinLeast(pins: seq<Num>, x: bv8)
    requires |pins| >= 1
    requires forall i :: 0 <= i < |pins| ==> Covers(x, Low8(pins[i]))
    ensures Covers(x, PinBin(pins))
    decreases |pins|
  {
    if |pins| > 1 {
      forall i | 0 <= i < |pins[1..]|
        ensures Covers(x, Low8(pins[1..][i]))
      {
        assert pins[1..][i] == pins[i + 1];
      }
      PinBinLeast(pins[1..], x);
      assert Covers(x, Low8(pins[0]));
    }
  }

  /** The bin depends only on which pins are listed: reordering or repeating
      pins does not change it. */
  lemma PinBinOfSet(pins: seq<Num>, others: seq<Num>)
    requires |pins| >= 1 && |others| >= 1
    requires forall p :: p in pins <==> p in others
    ensures PinBin(pins) == PinBin(others)
  {
    PinBinCoversPins(pins);
    PinBinCoversPins(others);
    forall i | 0 <= i < |others|
      ensures Covers(PinBin(pins), Low8(others[i]))
    {
      assert others[i] in pins;
      var j :| 0 <= j < |pins| && pins[j] == others[i];
    }
    forall i | 0 <= i < |pins|
      ensures Covers(PinBin(others), Low8(pins[i]))
    {
      assert pins[i] in others;
      var j :| 0 <= j < |others| && others[j] == pins[i];
    }
    PinBinLeast(others, PinBin(pins));
    PinBinLeast(pins, PinBin(others));
  }

  /** Gathering the named pins `GPIO_PIN_k` sets exactly their bits. */
  lemma PinBinNamedPins(ks: seq<nat>)
    requires |ks| >= 1 && forall i :: 0 <= i < |ks| ==> ks[i] < 8
    ensures var bin := PinBin(seq(|ks|, i requires 0 <= i < |ks| => GpioPin[ks[i]]));
            forall k :: 0 <= k < 8 ==>
              (Covers(bin, Low8(GpioPin[k])) <==> k in ks)
  {
    var pins := seq(|ks|, i requires 0 <= i < |ks| => GpioPin[ks[i]]);
    var bin := PinBin(pins);
    PinBinCoversPins(pins);
    forall k | 0 <= k < 8
      ensures Covers(bin, Low8(GpioPin[k])) <==> k in ks
    {
      if k in ks {
        var i :| 0 <= i < |ks| && ks[i] == k;
        assert pins[i] == GpioPin[k];
      } else {
        var x := !Low8(GpioPin[k]);
        forall i | 0 <= i < |pins|
          ensures Covers(x, Low8(pins[i]))
        {
          assert ks[i] != k;
        }
        PinBinLeast(pins, x);
      }
    }
  }

  /** `get_pin_intflag`: a named pin's interrupt flag, `0xff` for any other
      value. */
  function GetPinIntFlag(n: Num): (r: bv32)
    ensures forall k :: 0 <= k < 8 ==> (n == GpioPin[k] <==> r == GpioIntPin[k])
    ensures (forall k :: 0 <= k < 8 ==> n != GpioPin[k]) ==> r == NoIntFlag
  {
    match n
    case 0x01 => GpioIntPin[0]
    case 0x02 => GpioIntPin[1]
    case 0x04 => GpioIntPin[2]
    case 0x08 => GpioIntPin[3]
    case 0x10 => GpioIntPin[4]
    case 0x20 => GpioIntPin[5]
    case 0x40 => GpioIntPin[6]
    case 0x80 => GpioIntPin[7]
    case _ => NoIntFlag
  }
}
