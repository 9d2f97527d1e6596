/** The relay controller's state and one pass of its polling loop, as pure
    functions over values. `Board.Device` runs the same transitions in place
    and is proved equal to them; the lemmas in `ControlProperties` and
    `BlinkProperties` state what the transitions promise.

    Pin levels are booleans with HIGH = true. Buttons and the interrupt line
    have pull-ups, so LOW means pressed. Relays are driven active-low: relay
    HIGH is the load off. */
module Control {
  import opened Millis

  const HIGH: bool := true
  const LOW: bool := false

  /** The build option that makes the first pass go straight to sleep. */
  const InterruptAtStart: bool := true

  datatype Channel = A | B | C | D

  /** One channel: its stored flag (`aFlag` .. `dFlag`) and the levels last
      written to its relay and indicator pins. */
  datatype ChannelLines = ChannelLines(flag: bool, relay: bool, indicator: bool)

  /** The blink bookkeeping (`stateStop`, `millisAnterior`) and the level last
      written to the panic indicator pin. */
  datatype Blinker = Blinker(stateStop: bool, millisAnterior: u32, stopIndicator: bool)

  /** Everything one pass of the loop reads and writes, between two passes. */
  datatype State = State(
    a: ChannelLines, b: ChannelLines, c: ChannelLines, d: ChannelLines,
    stopFlag: bool,
    iFlag: bool,
    softInterrupt: bool,
    blink: Blinker,
    enabledIndicator: bool,
    disabledIndicator: bool)

  /** One iteration of the blink loop: the panic button level it tests and the
      clock value it then reads. */
  datatype Sample = Sample(panicLevel: bool, now: u32)

  /** What one pass reads: the level of each input at the moment the pass
      tests it, and the samples the blink loop consumes when panic engages. */
  datatype PassInput = PassInput(
    interruptLevel: bool,
    panicLevel: bool,
    blink: seq<Sample>,
    aLevel: bool, bLevel: bool, cLevel: bool, dLevel: bool)

  function Chan(s: State, ch: Channel): ChannelLines {
    match ch
    case A => s.a
    case B => s.b
    case C => s.c
    case D => s.d
  }

  function ButtonLevel(inp: PassInput, ch: Channel): bool {
    match ch
    case A => inp.aLevel
    case B => inp.bLevel
    case C => inp.cLevel
    case D => inp.dLevel
  }

  /** `r` and `s` agree on everything but the four channels. */
  predicate SameExceptChannels(r: State, s: State) {
    r.(a := s.a, b := s.b, c := s.c, d := s.d) == s
  }

  predicate SameFlags(r: State, s: State) {
    forall ch :: Chan(r, ch).flag == Chan(s, ch).flag
  }

  predicate SameChannels(r: State, s: State) {
    forall ch :: Chan(r, ch) == Chan(s, ch)
  }

  /** The polarity the channel blocks maintain: indicator shows the flag and
      the relay is its inverse. */
  predicate Consistent(l: ChannelLines) {
    l.relay == !l.flag && l.indicator == l.flag
  }

  /** The outputs panic forces: relay off, indicator dark. */
  predicate Forced(l: ChannelLines) {
    l.relay == HIGH && l.indicator == LOW
  }

  predicate AllConsistent(s: State) {
    forall ch :: Consistent(Chan(s, ch))
  }

  predicate AllForced(s: State) {
    forall ch :: Forced(Chan(s, ch))
  }

  function WithChan(s: State, ch: Channel, l: ChannelLines): (r: State)
    ensures Chan(r, ch) == l
    ensures forall o :: o != ch ==> Chan(r, o) == Chan(s, o)
    ensures SameExceptChannels(r, s)
  {
    match ch
    case A => s.(a := l)
    case B => s.(b := l)
    case C => s.(c := l)
    case D => s.(d := l)
  }

  /** The state `setup()` leaves: every relay off, every indicator dark except
      the DISABLED one, all flags false, boot sleep pending. It already
      satisfies the between-passes invariant. */
  function Boot(): (r: State)
    ensures Valid(r) && !r.stopFlag && r.softInterrupt == InterruptAtStart
    ensures forall ch :: !Chan(r, ch).flag && Chan(r, ch).relay == HIGH
                         && Chan(r, ch).indicator == LOW
    ensures r.blink.stateStop == LOW && r.blink.millisAnterior == 0
  {
    var off := ChannelLines(false, HIGH, LOW);
    State(off, off, off, off,
          stopFlag := false, iFlag := false, softInterrupt := InterruptAtStart,
          blink := Blinker(LOW, 0, LOW),
          enabledIndicator := LOW, disabledIndicator := HIGH)
  }

  /** What holds between two passes of the loop. */
  predicate Valid(s: State) {
    && !s.iFlag
    && s.enabledIndicator == LOW && s.disabledIndicator == HIGH
    && s.blink.stopIndicator == s.stopFlag
    && (!s.stopFlag ==> AllConsistent(s))
    && (forall ch :: Consistent(Chan(s, ch)) || Forced(Chan(s, ch)))
  }

  // ----- Sleep gate -----------------------------------------------------------

  /** The gate's condition: the interrupt line is held LOW while no sleep is
      pending acknowledgment, or the boot sleep is still pending. */
  predicate GateFires(s: State, interruptLevel: bool) {
    (interruptLevel == LOW && !s.iFlag) || s.softInterrupt
  }

  /** The sleep gate up to power-down: the state the device sleeps in. The
      wake interrupt only cancels the sleep, so the pass resumes from here. */
  function EnterSleep(s: State, interruptLevel: bool): (r: State)
    ensures GateFires(s, interruptLevel) ==>
              r.iFlag == !s.iFlag && !r.softInterrupt
              && r.disabledIndicator == LOW && r.enabledIndicator == HIGH
    ensures !GateFires(s, interruptLevel) ==> r == s
    ensures SameChannels(r, s) && r.stopFlag == s.stopFlag && r.blink == s.blink
  {
    if GateFires(s, interruptLevel) then
      var soft := if s.softInterrupt then !s.softInterrupt else s.softInterrupt;
      s.(iFlag := !s.iFlag, softInterrupt := soft,
         disabledIndicator := LOW, enabledIndicator := HIGH)
    else
      s
  }

  /** The wake acknowledgment at the end of a pass. */
  function WakeAck(s: State): (r: State)
    ensures s.iFlag ==>
              !r.iFlag && r.enabledIndicator == LOW && r.disabledIndicator == HIGH
    ensures !s.iFlag ==> r == s
    ensures SameChannels(r, s) && r.stopFlag == s.stopFlag && r.blink == s.blink
    ensures r.softInterrupt == s.softInterrupt
  {
    if s.iFlag then
      s.(enabledIndicator := LOW, disabledIndicator := HIGH, iFlag := !s.iFlag)
    else
      s
  }

  // ----- Panic ----------------------------------------------------------------

  /** The outputs panic forces on one channel: relay off, indicator dark. */
  function Darken(l: ChannelLines): (r: ChannelLines)
    ensures Forced(r) && r.flag == l.flag
  {
    l.(indicator := LOW, relay := HIGH)
  }

  /** The outputs restored on one channel: shown from its stored flag. */
  function Show(l: ChannelLines): (r: ChannelLines)
    ensures Consistent(r) && r.flag == l.flag
  {
    l.(indicator := l.flag, relay := !l.flag)
  }

  /** Panic engage: every relay off and every indicator dark; flags kept. */
  function Engage(s: State): (r: State)
    ensures AllForced(r) && SameFlags(r, s) && SameExceptChannels(r, s)
  {
    s.(a := Darken(s.a), b := Darken(s.b), c := Darken(s.c), d := Darken(s.d))
  }

  /** Panic restore: every channel's outputs shown from its stored flag. */
  function Restore(s: State): (r: State)
    ensures AllConsistent(r) && SameFlags(r, s) && SameExceptChannels(r, s)
  {
    s.(a := Show(s.a), b := Show(s.b), c := Show(s.c), d := Show(s.d))
  }

  /** One blink-loop iteration after the button was seen released: when a full
      blink period has passed on the wrapping clock, the phase flips, the time
      is remembered and the indicator shows the new phase. */
  function BlinkTick(bl: Blinker, now: u32): (t: Blinker)
    ensures t != bl <==> (now as int - bl.millisAnterior as int) % Modulus >= BlinkPeriod as int
    ensures t != bl ==> t == Blinker(!bl.stateStop, now, !bl.stateStop)
  {
    if Elapsed(now, bl.millisAnterior) >= BlinkPeriod then
      var phase := if bl.stateStop == LOW then HIGH else LOW;
      Blinker(phase, now, phase)
    else
      bl
  }

  /** The blink loop over its samples: it ticks while the panic button reads
      HIGH and stops at the first LOW sample. A sequence with no LOW sample is
      a loop that has not ended yet; the result is then the state so far. */
  function BlinkRun(bl: Blinker, samples: seq<Sample>): (r: Blinker)
    ensures r == bl || r.stopIndicator == r.stateStop
    decreases |samples|
  {
    if samples == [] || samples[0].panicLevel == LOW then bl
    else BlinkRun(BlinkTick(bl, samples[0].now), samples[1..])
  }

  /** The blink loop's phase and flip time do not depend on the level the
      panic indicator had when it started. */
  lemma {:induction false} BlinkRunIgnoresIndicator(bl: Blinker, level: bool, samples: seq<Sample>)
    ensures var r := BlinkRun(bl.(stopIndicator := level), samples);
            r.stateStop == BlinkRun(bl, samples).stateStop
            && r.millisAnterior == BlinkRun(bl, samples).millisAnterior
    decreases |samples|
  {
    if samples != [] && samples[0].panicLevel == HIGH {
      var t := BlinkTick(bl, samples[0].now);
      if t == bl {
        BlinkRunIgnoresIndicator(bl, level, samples[1..]);
      } else {
        assert BlinkTick(bl.(stopIndicator := level), samples[0].now) == t;
      }
    }
  }

  /** The panic indicator lit when panic is about to engage, dark when it is
      about to be restored. */
  function PanicLit(s: State): (r: State)
    ensures r.blink.stopIndicator == !s.stopFlag
    ensures r.(blink := s.blink) == s
    ensures r.blink.(stopIndicator := s.blink.stopIndicator) == s.blink
  {
    s.(blink := s.blink.(stopIndicator := !s.stopFlag))
  }

  /** Engage when panic is off, restore when it is on. */
  function DriveOutputs(s: State): (r: State)
    ensures forall ch :: Chan(r, ch) == if s.stopFlag then Show(Chan(s, ch)) else Darken(Chan(s, ch))
    ensures SameExceptChannels(r, s)
  {
    if !s.stopFlag then Engage(s) else Restore(s)
  }

  /** The blink loop, which only runs when panic is being engaged. */
  function BlinkStage(s: State, samples: seq<Sample>): (r: State)
    ensures r.(blink := s.blink) == s
    ensures s.stopFlag ==> r == s
    ensures !s.stopFlag ==> r.blink == BlinkRun(s.blink, samples)
    ensures r.blink == s.blink || r.blink.stopIndicator == r.blink.stateStop
  {
    if !s.stopFlag then s.(blink := BlinkRun(s.blink, samples)) else s
  }

  /** The end of a handled press: the panic indicator shows the new mode and
      `stopFlag` flips. */
  function FlipStop(s: State): (r: State)
    ensures r.stopFlag == !s.stopFlag && r.blink.stopIndicator == r.stopFlag
    ensures r.(stopFlag := s.stopFlag, blink := s.blink) == s
    ensures r.blink.(stopIndicator := s.blink.stopIndicator) == s.blink
  {
    s.(blink := s.blink.(stopIndicator := !s.stopFlag), stopFlag := !s.stopFlag)
  }

  /** A handled panic press: light or clear the panic indicator, engage or
      restore the outputs, blink until the next press when engaging, then
      show and flip `stopFlag`. */
  function PanicPress(s: State, samples: seq<Sample>): (r: State)
    ensures r.stopFlag == !s.stopFlag && r.blink.stopIndicator == r.stopFlag
    ensures SameFlags(r, s)
    ensures !s.stopFlag ==> AllForced(r)
    ensures s.stopFlag ==> AllConsistent(r)
    ensures s.stopFlag ==> r.blink.stateStop == s.blink.stateStop
                           && r.blink.millisAnterior == s.blink.millisAnterior
    ensures !s.stopFlag ==> r.blink.stateStop == BlinkRun(s.blink, samples).stateStop
                            && r.blink.millisAnterior == BlinkRun(s.blink, samples).millisAnterior
    ensures r.iFlag == s.iFlag && r.softInterrupt == s.softInterrupt
    ensures r.enabledIndicator == s.enabledIndicator
    ensures r.disabledIndicator == s.disabledIndicator
  {
    BlinkRunIgnoresIndicator(s.blink, !s.stopFlag, samples);
    FlipStop(BlinkStage(DriveOutputs(PanicLit(s)), samples))
  }

  /** The panic block: a LOW button is a handled press, a HIGH one changes
      nothing. Each press flips the panic mode and never a channel flag. */
  function PanicButton(s: State, level: bool, samples: seq<Sample>): (r: State)
    ensures level == HIGH ==> r == s
    ensures r.stopFlag == (s.stopFlag != (level == LOW))
    ensures SameFlags(r, s)
    ensures r.iFlag == s.iFlag && r.softInterrupt == s.softInterrupt
  {
    if level == LOW then PanicPress(s, samples) else s
  }

  // ----- Channels -------------------------------------------------------------

  /** A channel press: the flag flips and the outputs show it. */
  function Toggle(l: ChannelLines): (r: ChannelLines)
    ensures r.flag == !l.flag && Consistent(r)
  {
    var flag := !l.flag;
    ChannelLines(flag, !flag, flag)
  }

  /** One channel block: a LOW button toggles that channel and nothing else. */
  function PollButton(s: State, ch: Channel, level: bool): (r: State)
    ensures level == LOW ==>
              Chan(r, ch).flag == !Chan(s, ch).flag && Consistent(Chan(r, ch))
    ensures level == HIGH ==> r == s
    ensures forall o :: o != ch ==> Chan(r, o) == Chan(s, o)
    ensures SameExceptChannels(r, s)
  {
    if level == LOW then WithChan(s, ch, Toggle(Chan(s, ch))) else s
  }

  /** The four channel blocks, A to D: each channel is toggled exactly when
      its own button reads LOW, independently of the others. */
  function PollChannels(s: State, inp: PassInput): (r: State)
    ensures forall ch :: Chan(r, ch)
              == if ButtonLevel(inp, ch) == LOW then Toggle(Chan(s, ch)) else Chan(s, ch)
    ensures SameExceptChannels(r, s)
  {
    var sa := PollButton(s, A, inp.aLevel);
    var sb := PollButton(sa, B, inp.bLevel);
    var sc := PollButton(sb, C, inp.cLevel);
    PollButton(sc, D, inp.dLevel)
  }

  // ----- One pass and many ----------------------------------------------------

  /** The state after the panic block of a pass: where channel polling starts. */
  function AfterPanic(s: State, inp: PassInput): State {
    PanicButton(EnterSleep(s, inp.interruptLevel), inp.panicLevel, inp.blink)
  }

  /** The state the wake acknowledgment of a pass starts from. */
  function BeforeAck(s: State, inp: PassInput): State {
    PollChannels(AfterPanic(s, inp), inp)
  }

  /** One pass of the loop: gate, panic, channels A to D, wake acknowledgment. */
  function Pass(s: State, inp: PassInput): (r: State)
    ensures r.stopFlag == (s.stopFlag != (inp.panicLevel == LOW))
    ensures !r.softInterrupt
    ensures !r.iFlag
  {
    WakeAck(BeforeAck(s, inp))
  }

  /** The loop called once per input, as the runtime does forever. Panic is a
      toggle: it ends engaged exactly when it started engaged or was pressed
      an odd number of times, but not both. */
  function Run(s: State, inputs: seq<PassInput>): (r: State)
    ensures r.stopFlag == (s.stopFlag != (PanicPresses(inputs) % 2 == 1))
    decreases |inputs|
  {
    if inputs == [] then s else Run(Pass(s, inputs[0]), inputs[1..])
  }

  /** How many passes press the panic button. */
  function PanicPresses(inputs: seq<PassInput>): nat
    decreases |inputs|
  {
    if inputs == [] then 0
    else (if inputs[0].panicLevel == LOW then 1 else 0) + PanicPresses(inputs[1..])
  }

  /** The blink samples hold the press that ends the blink loop. */
  predicate EndsBlink(samples: seq<Sample>) {
    exists k :: 0 <= k < |samples| && samples[k].panicLevel == LOW
  }

  /** A pass returns: when it engages panic, its blink loop sees a press. */
  predicate PassCompletes(s: State, inp: PassInput) {
    inp.panicLevel == LOW && !s.stopFlag ==> EndsBlink(inp.blink)
  }
}
