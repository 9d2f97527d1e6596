/** Properties of the panic indicator's blink loop. */
module BlinkProperties {
  import opened Millis
  import opened Control

  /** The index of the sample that ends the blink loop: the first LOW one. */
  ghost function FirstLow(samples: seq<Sample>): (k: nat)
    requires EndsBlink(samples)
    ensures k < |samples| && samples[k].panicLevel == LOW
    ensures forall j :: 0 <= j < k ==> samples[j].panicLevel == HIGH
    decreases |samples|
  {
    if samples[0].panicLevel == LOW then 0
    else
      assert EndsBlink(samples[1..]) by {
        var k :| 0 <= k < |samples| && samples[k].panicLevel == LOW;
        assert samples[1..][k - 1] == samples[k];
      }
      1 + FirstLow(samples[1..])
  }

  /** An illustration of `Millis.Elapsed` and the contract of `BlinkTick`:
      the clock wrapping around zero does not stall the blink, since 512 ms
      after 0xFFFF_FF00 is 0x100, and that is a full period. */
  lemma BlinkTickAcrossWrap()
    ensures BlinkTick(Blinker(LOW, 0xFFFF_FF00, LOW), 0x100) == Blinker(HIGH, 0x100, HIGH)
  {
  }

  /** Samples after the press that ends the loop are never read. */
  lemma {:induction false} BlinkRunIgnoresLaterSamples(bl: Blinker, samples: seq<Sample>, later: seq<Sample>)
    requires EndsBlink(samples)
    ensures BlinkRun(bl, samples + later) == BlinkRun(bl, samples)
    decreases |samples|
  {
    if samples[0].panicLevel == HIGH {
      assert EndsBlink(samples[1..]) by {
        var k := FirstLow(samples);
        assert samples[1..][k - 1] == samples[k];
      }
      assert (samples + later)[1..] == samples[1..] + later;
      BlinkRunIgnoresLaterSamples(BlinkTick(bl, samples[0].now), samples[1..], later);
    }
  }

  /** The press that ends the loop has no effect itself: its clock value is
      never read, so the loop gives what the HIGH samples before it give. */
  lemma {:induction false} BlinkRunStopsAtPress(bl: Blinker, samples: seq<Sample>)
    requires EndsBlink(samples)
    ensures BlinkRun(bl, samples) == BlinkRun(bl, samples[..FirstLow(samples)])
    decreases |samples|
  {
    if samples[0].panicLevel == HIGH {
      var k := FirstLow(samples);
      assert EndsBlink(samples[1..]) by {
        assert samples[1..][k - 1] == samples[k];
      }
      assert FirstLow(samples[1..]) == k - 1;
      assert samples[1..][..k - 1] == samples[..k][1..];
      BlinkRunStopsAtPress(BlinkTick(bl, samples[0].now), samples[1..]);
    }
  }

  /** The loop ticks on every sample before the ending press: when the
      first sample a full period after the last flip is still HIGH, the loop
      flips there and carries on from the samples after it. */
  lemma {:induction false} BlinkRunFirstDue(bl: Blinker, samples: seq<Sample>, j: nat)
    requires j < |samples| && forall i :: 0 <= i <= j ==> samples[i].panicLevel == HIGH
    requires forall i :: 0 <= i < j ==> Elapsed(samples[i].now, bl.millisAnterior) < BlinkPeriod
    requires Elapsed(samples[j].now, bl.millisAnterior) >= BlinkPeriod
    ensures BlinkRun(bl, samples)
            == BlinkRun(Blinker(!bl.stateStop, samples[j].now, !bl.stateStop), samples[j + 1..])
    decreases j
  {
    if j > 0 {
      assert BlinkTick(bl, samples[0].now) == bl;
      assert samples[1..][j..] == samples[j + 1..];
      BlinkRunFirstDue(bl, samples[1..], j - 1);
    }
  }

  /** While less than a blink period has passed since the last flip at every
      sample, the loop changes nothing. */
  lemma {:induction false} BlinkRunQuiet(bl: Blinker, samples: seq<Sample>)
    requires forall j :: 0 <= j < |samples| ==> Elapsed(samples[j].now, bl.millisAnterior) < BlinkPeriod
    ensures BlinkRun(bl, samples) == bl
    decreases |samples|
  {
    if samples != [] && samples[0].panicLevel == HIGH {
      assert BlinkTick(bl, samples[0].now) == bl;
      BlinkRunQuiet(bl, samples[1..]);
    }
  }

  /** The remembered flip time is the old one or the clock value of a sample
      the loop ticked on, one read before the ending press. */
  lemma {:induction false} BlinkRunRemembersSampleTime(bl: Blinker, samples: seq<Sample>)
    ensures var r := BlinkRun(bl, samples);
            r.millisAnterior == bl.millisAnterior
            || exists j :: 0 <= j < |samples|
                           && (forall i :: 0 <= i <= j ==> samples[i].panicLevel == HIGH)
                           && r.millisAnterior == samples[j].now
    decreases |samples|
  {
    if samples != [] && samples[0].panicLevel == HIGH {
      var next := BlinkTick(bl, samples[0].now);
      var r := BlinkRun(next, samples[1..]);
      BlinkRunRemembersSampleTime(next, samples[1..]);
      if r.millisAnterior == next.millisAnterior {
        if next.millisAnterior != bl.millisAnterior {
          assert samples[0].panicLevel == HIGH && r.millisAnterior == samples[0].now;
        }
      } else {
        var j :| 0 <= j < |samples[1..]|
                 && (forall i :: 0 <= i <= j ==> samples[1..][i].panicLevel == HIGH)
                 && r.millisAnterior == samples[1..][j].now;
        forall i | 0 <= i <= j + 1
          ensures samples[i].panicLevel == HIGH
        {
          if i > 0 {
            assert samples[i] == samples[1..][i - 1];
          }
        }
        assert samples[j + 1] == samples[1..][j];
      }
    }
  }
}
