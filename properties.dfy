/** What the controller's passes promise: channel isolation, the output
    polarity invariant, the panic override and restore, the one-shot boot
    sleep and the sleep flag's round trip within a pass. */
module ControlProperties {
  import opened Control

  /** Between passes the sleep flag is down, so the gate's `!iFlag` test is
      redundant there: the gate fires exactly when the interrupt line reads
      LOW or the boot sleep is pending. */
  lemma GateFiresBetweenPasses(s: State, interruptLevel: bool)
    requires Valid(s)
    ensures GateFires(s, interruptLevel) <==> interruptLevel == LOW || s.softInterrupt
  {
  }

  /** A channel block keeps the polarity invariant of every channel. */
  lemma PollButtonKeepsConsistent(s: State, ch: Channel, level: bool)
    requires AllConsistent(s)
    ensures AllConsistent(PollButton(s, ch, level))
  {
  }

  /** A handled panic press engages (relay off, indicator dark) or restores
      (outputs shown from the flag) each channel; the blink loop and the
      panic indicator writes do not touch the channels. */
  lemma PanicPressChannel(s: State, samples: seq<Sample>, ch: Channel)
    ensures Chan(PanicPress(s, samples), ch)
            == if s.stopFlag then Show(Chan(s, ch)) else Darken(Chan(s, ch))
  {
    var lit := PanicLit(s);
    var driven := DriveOutputs(lit);
    assert Chan(driven, ch) == if s.stopFlag then Show(Chan(s, ch)) else Darken(Chan(s, ch));
    assert Chan(BlinkStage(driven, samples), ch) == Chan(driven, ch);
  }

  /** Where channel polling starts: the gate leaves the channels alone and
      a panic press engages or restores them. */
  lemma AfterPanicChannel(s: State, inp: PassInput, ch: Channel)
    ensures Chan(AfterPanic(s, inp), ch)
            == if inp.panicLevel == HIGH then Chan(s, ch)
               else if s.stopFlag then Show(Chan(s, ch))
               else Darken(Chan(s, ch))
  {
    var slept := EnterSleep(s, inp.interruptLevel);
    assert Chan(slept, ch) == Chan(s, ch) && slept.stopFlag == s.stopFlag;
    if inp.panicLevel == LOW {
      PanicPressChannel(slept, inp.blink, ch);
    }
  }

  /** What one pass does to a channel: panic first overrides (engage) or
      re-shows (restore) the outputs, then the channel's own button toggles
      it. The channel blocks do not test `stopFlag`, so a press read after
      the blink loop ended toggles even in the pass that engaged panic. */
  lemma PassChannel(s: State, inp: PassInput, ch: Channel)
    ensures var afterPanic :=
              if inp.panicLevel == HIGH then Chan(s, ch)
              else if s.stopFlag then Show(Chan(s, ch))
              else Darken(Chan(s, ch));
            Chan(Pass(s, inp), ch)
            == if ButtonLevel(inp, ch) == LOW then Toggle(afterPanic) else afterPanic
  {
    AfterPanicChannel(s, inp, ch);
    assert Chan(Pass(s, inp), ch) == Chan(BeforeAck(s, inp), ch);
  }

  /** A stored channel flag changes in a pass exactly when that channel's
      button is pressed: panic never writes the flags. */
  lemma PassFlag(s: State, inp: PassInput, ch: Channel)
    ensures Chan(Pass(s, inp), ch).flag == (Chan(s, ch).flag != (ButtonLevel(inp, ch) == LOW))
  {
    PassChannel(s, inp, ch);
  }

  /** Every pass keeps the between-passes invariant: the sleep flag is down,
      ENABLED is dark and DISABLED lit, the panic indicator shows `stopFlag`,
      and every channel shows its flag with inverse relay, except that while
      panic is engaged a channel may instead be held forced off. */
  lemma PassKeepsValid(s: State, inp: PassInput)
    requires Valid(s)
    ensures Valid(Pass(s, inp))
  {
    var r := Pass(s, inp);
    SleepFlagRoundTrip(s, inp);
    forall ch
      ensures Consistent(Chan(r, ch)) || Forced(Chan(r, ch))
      ensures !r.stopFlag ==> Consistent(Chan(r, ch))
    {
      PassChannel(s, inp, ch);
    }
  }

  /** Any number of passes from a valid state keep the invariant. */
  lemma {:induction false} RunKeepsValid(s: State, inputs: seq<PassInput>)
    requires Valid(s)
    ensures Valid(Run(s, inputs))
    decreases |inputs|
  {
    if inputs != [] {
      PassKeepsValid(s, inputs[0]);
      RunKeepsValid(Pass(s, inputs[0]), inputs[1..]);
    }
  }

  /** Every state the device reaches from `setup()` is valid. */
  lemma ReachableIsValid(inputs: seq<PassInput>)
    ensures Valid(Run(Boot(), inputs))
  {
    RunKeepsValid(Boot(), inputs);
  }

  /** The sleep flag within one pass: when the pass starts with it down, the
      gate raises it exactly when it fires, the device sleeps with ENABLED lit
      and DISABLED dark, the acknowledgment runs exactly when the gate fired,
      and the pass ends with the flag down, ENABLED dark and DISABLED lit. */
  lemma SleepFlagRoundTrip(s: State, inp: PassInput)
    requires !s.iFlag
    ensures var asleep := EnterSleep(s, inp.interruptLevel);
            asleep.iFlag == GateFires(s, inp.interruptLevel)
            && (asleep.iFlag ==> asleep.enabledIndicator == HIGH && asleep.disabledIndicator == LOW)
    ensures BeforeAck(s, inp).iFlag == GateFires(s, inp.interruptLevel)
    ensures !Pass(s, inp).iFlag
    ensures GateFires(s, inp.interruptLevel) ==>
              Pass(s, inp).enabledIndicator == LOW && Pass(s, inp).disabledIndicator == HIGH
    ensures !GateFires(s, inp.interruptLevel) ==>
              Pass(s, inp).enabledIndicator == s.enabledIndicator
              && Pass(s, inp).disabledIndicator == s.disabledIndicator
  {
    var asleep := EnterSleep(s, inp.interruptLevel);
    var panicked := AfterPanic(s, inp);
    assert panicked.iFlag == asleep.iFlag;
    assert panicked.enabledIndicator == asleep.enabledIndicator;
    assert panicked.disabledIndicator == asleep.disabledIndicator;
  }

  /** The boot sleep forces the gate on the pass it is pending in and is
      consumed there: after any pass it is down. */
  lemma SoftInterruptConsumed(s: State, inp: PassInput)
    ensures s.softInterrupt ==> GateFires(s, inp.interruptLevel)
    ensures !Pass(s, inp).softInterrupt
  {
  }

  /** Once consumed, the boot sleep never comes back, however many passes run. */
  lemma {:induction false} SoftInterruptNeverReturns(s: State, inputs: seq<PassInput>)
    requires !s.softInterrupt || inputs != []
    ensures !Run(s, inputs).softInterrupt
    decreases |inputs|
  {
    if inputs != [] {
      SoftInterruptConsumed(s, inputs[0]);
      SoftInterruptNeverReturns(Pass(s, inputs[0]), inputs[1..]);
    }
  }

  /** The first pass after boot goes to sleep whatever the interrupt line
      reads, with every relay off; it ends awake, with no boot sleep pending
      and ENABLED dark, DISABLED lit. */
  lemma BootSleepsFirst(inp: PassInput)
    ensures GateFires(Boot(), inp.interruptLevel)
    ensures var asleep := EnterSleep(Boot(), inp.interruptLevel);
            asleep.iFlag && asleep.enabledIndicator == HIGH && asleep.disabledIndicator == LOW
            && forall ch :: Chan(asleep, ch).relay == HIGH && !Chan(asleep, ch).flag
    ensures var r := Pass(Boot(), inp);
            !r.iFlag && !r.softInterrupt
            && r.enabledIndicator == LOW && r.disabledIndicator == HIGH
  {
    SleepFlagRoundTrip(Boot(), inp);
    SoftInterruptConsumed(Boot(), inp);
  }

  /** Engaging panic and then restoring it, with no channel press between,
      brings every channel back to exactly its pre-panic flag, relay and
      indicator, and the panic indicator back to dark. */
  lemma EngageThenRestore(s: State, first: seq<Sample>, second: seq<Sample>)
    requires !s.stopFlag && AllConsistent(s)
    ensures var engaged := PanicPress(s, first);
            engaged.stopFlag && AllForced(engaged) && SameFlags(engaged, s)
    ensures var r := PanicPress(PanicPress(s, first), second);
            SameChannels(r, s) && !r.stopFlag && r.blink.stopIndicator == LOW
  {
    var r := PanicPress(PanicPress(s, first), second);
    forall ch
      ensures Chan(r, ch) == Chan(s, ch)
    {
      assert Consistent(Chan(s, ch));
      assert Consistent(Chan(r, ch));
    }
  }

  /** The same round trip over two whole passes that press panic and no
      channel button: the sleep gate does not touch the channels. */
  lemma PanicRoundTrip(s: State, first: PassInput, second: PassInput)
    requires Valid(s) && !s.stopFlag
    requires first.panicLevel == LOW && second.panicLevel == LOW
    requires forall ch :: ButtonLevel(first, ch) == HIGH && ButtonLevel(second, ch) == HIGH
    ensures var engaged := Pass(s, first);
            engaged.stopFlag && AllForced(engaged) && SameFlags(engaged, s)
    ensures var r := Pass(Pass(s, first), second);
            SameChannels(r, s) && !r.stopFlag
  {
    var engaged := Pass(s, first);
    var r := Pass(engaged, second);
    forall ch
      ensures Forced(Chan(engaged, ch)) && Chan(engaged, ch).flag == Chan(s, ch).flag
      ensures Chan(r, ch) == Chan(s, ch)
    {
      PassChannel(s, first, ch);
      PassChannel(engaged, second, ch);
      assert Consistent(Chan(s, ch));
    }
    PassKeepsValid(s, first);
  }

  /** A channel press read in the same pass that engaged panic, after the
      blink loop ended, still toggles that channel and shows it, while panic
      stays engaged and the other channels stay forced off. */
  lemma PressAfterEngageToggles(s: State, inp: PassInput, ch: Channel)
    requires !s.stopFlag && inp.panicLevel == LOW
    requires ButtonLevel(inp, ch) == LOW
    requires forall o :: o != ch ==> ButtonLevel(inp, o) == HIGH
    ensures var r := Pass(s, inp);
            r.stopFlag && Chan(r, ch).flag == !Chan(s, ch).flag && Consistent(Chan(r, ch))
            && forall o :: o != ch ==> Forced(Chan(r, o))
  {
    forall o
      ensures o != ch ==> Forced(Chan(Pass(s, inp), o))
    {
      PassChannel(s, inp, o);
    }
    PassChannel(s, inp, ch);
  }

  /** Channels are not locked out by `stopFlag` itself: in a pass that does
      not press panic, a channel press toggles the channel even while panic is
      engaged, and panic stays engaged. */
  lemma ChannelsNotLockedWhileEngaged(s: State, inp: PassInput, ch: Channel)
    requires s.stopFlag && inp.panicLevel == HIGH && ButtonLevel(inp, ch) == LOW
    ensures var r := Pass(s, inp);
            r.stopFlag && Chan(r, ch).flag == !Chan(s, ch).flag && Consistent(Chan(r, ch))
  {
    PassChannel(s, inp, ch);
  }

  /** Engaging panic is the only way a pass breaks a channel's polarity:
      when a channel shows its flag before a pass and not after, the pass
      pressed panic from the disengaged state and left the channel's button
      alone. */
  lemma OnlyEngageBreaksPolarity(s: State, inp: PassInput, ch: Channel)
    requires Consistent(Chan(s, ch)) && !Consistent(Chan(Pass(s, inp), ch))
    ensures inp.panicLevel == LOW && !s.stopFlag && ButtonLevel(inp, ch) == HIGH
    ensures Forced(Chan(Pass(s, inp), ch))
  {
    PassChannel(s, inp, ch);
  }

  /** Boot, wake from the boot sleep, press A, engage panic, restore panic:
      A ends on with its relay energised (LOW) and its indicator lit, and
      while panic was engaged A's relay was off but its flag was kept. */
  lemma ScenarioBootPressPanic(wake: PassInput, pressA: PassInput, engage: PassInput, restore: PassInput)
    requires wake.panicLevel == HIGH && forall ch :: ButtonLevel(wake, ch) == HIGH
    requires pressA == PassInput(HIGH, HIGH, [], LOW, HIGH, HIGH, HIGH)
    requires engage.panicLevel == LOW && engage.interruptLevel == HIGH
    requires forall ch :: ButtonLevel(engage, ch) == HIGH
    requires restore.panicLevel == LOW && restore.interruptLevel == HIGH
    requires forall ch :: ButtonLevel(restore, ch) == HIGH
    ensures var s1 := Pass(Boot(), wake);
            !s1.iFlag && s1.disabledIndicator == HIGH && forall ch :: !Chan(s1, ch).flag
    ensures var s2 := Pass(Pass(Boot(), wake), pressA);
            s2.a == ChannelLines(true, LOW, HIGH)
    ensures var s3 := Pass(Pass(Pass(Boot(), wake), pressA), engage);
            s3.a == ChannelLines(true, HIGH, LOW) && s3.stopFlag
    ensures var s4 := Pass(Pass(Pass(Pass(Boot(), wake), pressA), engage), restore);
            s4.a == ChannelLines(true, LOW, HIGH) && !s4.stopFlag
  {
    var s1 := Pass(Boot(), wake);
    BootSleepsFirst(wake);
    PassKeepsValid(Boot(), wake);
    forall ch
      ensures !Chan(s1, ch).flag
    {
      PassFlag(Boot(), wake, ch);
    }
    var s2 := Pass(s1, pressA);
    PassChannel(s1, pressA, A);
    PassKeepsValid(s1, pressA);
    var s3 := Pass(s2, engage);
    PassChannel(s2, engage, A);
    PassKeepsValid(s2, engage);
    PassChannel(s3, restore, A);
  }
}
