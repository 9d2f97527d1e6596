/** The sketch's globals and output pins as one object, updated in place as
    `setup()` and `loop()` update them. Every method is proved to leave the
    object in the state the matching function of `Control` computes, so the
    properties proved there hold of the device. */
module Board {
  import opened Millis
  import opened Control
  import opened BlinkProperties

  class Device {
    // Each channel: its flag (`aFlag` .. `dFlag`) with the levels of its
    // relay and indicator pins.
    var a: ChannelLines
    var b: ChannelLines
    var c: ChannelLines
    var d: ChannelLines
    var stopFlag: bool
    var iFlag: bool
    /** Pending boot sleep (set by the build option `INTERRUPT_AT_START`). */
    var softInterrupt: bool
    // Blink bookkeeping and the panic indicator pin.
    var stateStop: bool
    var millisAnterior: u32
    var stopIndicator: bool
    // The sleep indicator pins.
    var enabledIndicator: bool
    var disabledIndicator: bool

    /** The device's state as a value. */
    function Snapshot(): State
      reads this
    {
      State(a, b, c, d, stopFlag, iFlag, softInterrupt, Blink(),
            enabledIndicator, disabledIndicator)
    }

    /** The blink bookkeeping and the panic indicator as a value. */
    function Blink(): Blinker
      reads this
    {
      Blinker(stateStop, millisAnterior, stopIndicator)
    }

    /** `setup()`: indicators dark except DISABLED, relays off, flags down. */
    constructor ()
      ensures Snapshot() == Boot() && Valid(Snapshot())
    {
      var off := ChannelLines(flag := false, relay := HIGH, indicator := LOW);
      a, b, c, d := off, off, off, off;
      enabledIndicator := LOW;
      disabledIndicator := HIGH;
      stopIndicator := LOW;
      stopFlag, iFlag := false, false;
      softInterrupt := InterruptAtStart;
      stateStop := LOW;
      millisAnterior := 0;
    }

    /** The sleep gate. Waiting for the interrupt line's release changes
        nothing; power-down ends when the wake interrupt cancels it, and the
        pass carries on from the state entered here. */
    method ScanGate(interruptLevel: bool)
      modifies this`iFlag, this`softInterrupt, this`disabledIndicator, this`enabledIndicator
      ensures Snapshot() == EnterSleep(old(Snapshot()), interruptLevel)
    {
      if (interruptLevel == LOW && !iFlag) || softInterrupt {
        iFlag := !iFlag;
        if softInterrupt {
          softInterrupt := !softInterrupt;
        }
        disabledIndicator := LOW;
        enabledIndicator := HIGH;
      }
    }

    /** The blink loop: while the panic button reads HIGH and panic is not yet
        engaged, read the clock and flip the panic indicator once per blink
        period. */
    method BlinkUntilPressed(samples: seq<Sample>)
      requires !stopFlag ==> EndsBlink(samples)
      modifies this`stateStop, this`millisAnterior, this`stopIndicator
      ensures Snapshot() == BlinkStage(old(Snapshot()), samples)
    {
      ghost var k := if stopFlag then 0 else FirstLow(samples);
      var i := 0;
      while !stopFlag && samples[i].panicLevel == HIGH
        invariant 0 <= i <= k
        invariant stopFlag ==> i == 0 && Blink() == old(Blink())
        invariant !stopFlag ==> k < |samples| && samples[k].panicLevel == LOW
        invariant !stopFlag ==> BlinkRun(Blink(), samples[i..]) == BlinkRun(old(Blink()), samples)
        decreases k - i
      {
        ghost var before := Blink();
        var millisActual := samples[i].now;
        if Elapsed(millisActual, millisAnterior) >= BlinkPeriod {
          millisAnterior := millisActual;
          if stateStop == LOW {
            stateStop := HIGH;
          } else {
            stateStop := LOW;
          }
          stopIndicator := stateStop;
        }
        assert Blink() == BlinkTick(before, samples[i].now);
        assert samples[i..][1..] == samples[i + 1..];
        i := i + 1;
      }
    }

    /** Panic engage: every indicator dark, every relay off, flags kept. */
    method ForceOutputsOff()
      modifies this`a, this`b, this`c, this`d
      ensures Snapshot() == Engage(old(Snapshot()))
    {
      a := a.(indicator := LOW, relay := HIGH);
      b := b.(indicator := LOW, relay := HIGH);
      c := c.(indicator := LOW, relay := HIGH);
      d := d.(indicator := LOW, relay := HIGH);
    }

    /** Panic restore: every indicator shows its flag, every relay the inverse. */
    method ShowOutputs()
      modifies this`a, this`b, this`c, this`d
      ensures Snapshot() == Restore(old(Snapshot()))
    {
      a := a.(indicator := a.flag, relay := !a.flag);
      b := b.(indicator := b.flag, relay := !b.flag);
      c := c.(indicator := c.flag, relay := !c.flag);
      d := d.(indicator := d.flag, relay := !d.flag);
    }

    /** The panic button: on a press, light or clear the panic indicator,
        force every channel off (engage) or show every channel from its flag
        (restore), blink until the next press when engaging, then show and
        flip `stopFlag`. Waiting for the button's release changes nothing. */
    method ScanPanic(panicLevel: bool, samples: seq<Sample>)
      requires panicLevel == LOW && !stopFlag ==> EndsBlink(samples)
      modifies this
      ensures Snapshot() == PanicButton(old(Snapshot()), panicLevel, samples)
    {
      if panicLevel == LOW {
        stopIndicator := !stopFlag;
        if !stopFlag {
          ForceOutputsOff();
        } else if stopFlag {
          ShowOutputs();
        }
        BlinkUntilPressed(samples);
        stopIndicator := !stopFlag;
        stopFlag := !stopFlag;
      }
    }

    /** A channel block: a press toggles the channel's flag and shows it on
        the indicator, with the inverse on the relay. Waiting for the
        button's release changes nothing. */
    method ScanChannel(ch: Channel, level: bool)
      modifies this`a, this`b, this`c, this`d
      ensures Snapshot() == PollButton(old(Snapshot()), ch, level)
    {
      if level == LOW {
        match ch
        case A =>
          a := a.(flag := !a.flag);
          a := a.(indicator := a.flag, relay := !a.flag);
        case B =>
          b := b.(flag := !b.flag);
          b := b.(indicator := b.flag, relay := !b.flag);
        case C =>
          c := c.(flag := !c.flag);
          c := c.(indicator := c.flag, relay := !c.flag);
        case D =>
          d := d.(flag := !d.flag);
          d := d.(indicator := d.flag, relay := !d.flag);
      }
    }

    /** The wake acknowledgment: after a sleep, swap the sleep indicators back
        and lower the sleep flag. Waiting for the line's release changes
        nothing. */
    method AcknowledgeWake()
      modifies this`enabledIndicator, this`disabledIndicator, this`iFlag
      ensures Snapshot() == WakeAck(old(Snapshot()))
    {
      if iFlag {
        enabledIndicator := LOW;
        disabledIndicator := HIGH;
        iFlag := !iFlag;
      }
    }

    /** The four channel blocks, A to D in order. */
    method ScanChannels(inp: PassInput)
      modifies this`a, this`b, this`c, this`d
      ensures Snapshot() == PollChannels(old(Snapshot()), inp)
    {
      ScanChannel(A, inp.aLevel);
      ScanChannel(B, inp.bLevel);
      ScanChannel(C, inp.cLevel);
      ScanChannel(D, inp.dLevel);
    }

    /** One pass of `loop()`: gate, panic, channels A to D, acknowledgment. */
    method Step(inp: PassInput)
      requires PassCompletes(Snapshot(), inp)
      modifies this
      ensures Snapshot() == Pass(old(Snapshot()), inp)
    {
      ScanGate(inp.interruptLevel);
      ScanPanic(inp.panicLevel, inp.blink);
      ScanChannels(inp);
      AcknowledgeWake();
    }
  }
}
