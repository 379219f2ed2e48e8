/** The charge-wait block of `boardInit` on targets with function-switch LEDs:
    while USB power is present the radio stays off and the six function-switch
    LEDs show the battery voltage as a ladder. */
module ChargeLadder {
  import opened Events

  /** Battery voltages, in units of 10 mV, that light LEDs 0 to 5. */
  const Thresholds: seq<nat> := [660, 700, 740, 780, 820, 842]

  ghost predicate Ascending(ts: seq<nat>) {
    forall i, j :: 0 <= i < j < |ts| ==> ts[i] < ts[j]
  }

  lemma ThresholdsAscend()
    ensures |Thresholds| == 6 && Ascending(Thresholds)
  {
  }

  /** How many of the thresholds `ts` the voltage `v` has reached. */
  function Reached(ts: seq<nat>, v: nat): (k: nat)
    ensures k <= |ts|
  {
    if ts == [] then 0 else (if ts[0] <= v then 1 else 0) + Reached(ts[1..], v)
  }

  /** Because the thresholds ascend, the ones reached are exactly the first
      `Reached(ts, v)` of them. */
  lemma {:induction false} ReachedIsPrefix(ts: seq<nat>, v: nat)
    requires Ascending(ts)
    ensures forall i :: 0 <= i < |ts| ==> (ts[i] <= v <==> i < Reached(ts, v))
  {
    if ts != [] {
      var rest := ts[1..];
      assert Ascending(rest) by {
        forall i, j | 0 <= i < j < |rest| ensures rest[i] < rest[j] {
          assert rest[i] == ts[i + 1] && rest[j] == ts[j + 1];
        }
      }
      ReachedIsPrefix(rest, v);
      if ts[0] > v && |rest| > 0 {
        assert rest[0] == ts[1] > v;
      }
      forall i | 1 <= i < |ts| ensures (ts[i] <= v <==> i < Reached(ts, v)) {
        assert rest[i - 1] == ts[i];
      }
    }
  }

  lemma LadderExamples()
    ensures Reached(Thresholds, 741) == 3
    ensures Reached(Thresholds, 659) == 0
    ensures Reached(Thresholds, 900) == 6
  {
  }

  /** `Reached` on the six charge thresholds, case by case. */
  lemma ReachedLadder(v: nat)
    ensures Reached(Thresholds, v) ==
      if v >= 842 then 6 else if v >= 820 then 5 else if v >= 780 then 4
      else if v >= 740 then 3 else if v >= 700 then 2 else if v >= 660 then 1 else 0
  {
    var t1: seq<nat> := [700, 740, 780, 820, 842];
    var t2: seq<nat> := [740, 780, 820, 842];
    var t3: seq<nat> := [780, 820, 842];
    var t4: seq<nat> := [820, 842];
    var t5: seq<nat> := [842];
    assert Thresholds[1..] == t1 && t1[1..] == t2 && t2[1..] == t3;
    assert t3[1..] == t4 && t4[1..] == t5 && t5[1..] == [];
    assert Reached(t5, v) == if v >= 842 then 1 else 0;
    assert Reached(t4, v) == (if v >= 820 then 1 else 0) + Reached(t5, v);
    assert Reached(t3, v) == (if v >= 780 then 1 else 0) + Reached(t4, v);
    assert Reached(t2, v) == (if v >= 740 then 1 else 0) + Reached(t3, v);
    assert Reached(t1, v) == (if v >= 700 then 1 else 0) + Reached(t2, v);
  }

  /** The LED switch-ons of one pass that lights `n` LEDs: LEDs 0 to n-1, in order. */
  function Ladder(n: nat): (r: seq<Event>)
    ensures |r| == n && forall k :: 0 <= k < n ==> r[k] == FsLedOn(k)
  {
    if n == 0 then [] else Ladder(n - 1) + [FsLedOn(n - 1)]
  }

  /** The LEDs lit by a pass that lights `n` LEDs. */
  function Lit(n: nat): (s: set<nat>)
    ensures forall i: nat :: i in s <==> i < n
  {
    if n == 0 then {} else Lit(n - 1) + {n - 1}
  }

  /** A pass that lights `n` LEDs switches on LED `i` exactly when `i < n`. */
  lemma LadderLeds(n: nat)
    ensures forall i :: FsLedOn(i) in Ladder(n) <==> i in Lit(n)
  {
    forall i | FsLedOn(i) in Ladder(n) ensures i in Lit(n) {
      var k :| 0 <= k < n && Ladder(n)[k] == FsLedOn(i);
    }
    forall i: nat | i < n ensures FsLedOn(i) in Ladder(n) {
      assert Ladder(n)[i] == FsLedOn(i);
    }
  }

  /** The LEDs a voltage lights are those whose threshold it reaches. */
  lemma LitMeansReached(v: nat)
    ensures forall i: nat :: i in Lit(Reached(Thresholds, v)) <==> i < |Thresholds| && Thresholds[i] <= v
  {
    ThresholdsAscend();
    ReachedIsPrefix(Thresholds, v);
  }

  /** One pass of the ladder: LED `i` is switched on when the voltage is at least
      the `i`-th threshold, in ascending order; LEDs are never switched off. */
  method LightLadder(v: nat) returns (events: seq<Event>, on: set<nat>)
    ensures events == Ladder(Reached(Thresholds, v))
    ensures on == Lit(Reached(Thresholds, v))
  {
    ReachedLadder(v);
    events, on := [], {};
    if v >= 660 {
      events, on := events + [FsLedOn(0)], on + {0};
    }
    if v >= 700 {
      events, on := events + [FsLedOn(1)], on + {1};
    }
    if v >= 740 {
      events, on := events + [FsLedOn(2)], on + {2};
    }
    if v >= 780 {
      events, on := events + [FsLedOn(3)], on + {3};
    }
    if v >= 820 {
      events, on := events + [FsLedOn(4)], on + {4};
    }
    if v >= 842 {
      events, on := events + [FsLedOn(5)], on + {5};
    }
  }

  /** One reading of the charge loop: is USB still plugged, and the battery
      voltage read in that iteration. */
  datatype ChargeSample = ChargeSample(plugged: bool, voltage: nat)

  /** The number of loop iterations: samples up to the first one that finds USB
      unplugged (running out of samples counts as unplugged). */
  function Charging(samples: seq<ChargeSample>): (n: nat)
    ensures n <= |samples|
    ensures forall j :: 0 <= j < n ==> samples[j].plugged
    ensures n < |samples| ==> !samples[n].plugged
  {
    if samples == [] || !samples[0].plugged then 0 else 1 + Charging(samples[1..])
  }

  /** LEDs switched on during the first `n` iterations: each iteration adds the
      LEDs its voltage lights. */
  function LitAfter(samples: seq<ChargeSample>, n: nat): set<nat>
    requires n <= |samples|
  {
    if n == 0 then {} else LitAfter(samples, n - 1) + Lit(Reached(Thresholds, samples[n - 1].voltage))
  }

  /** Reference characterisation: after `n` iterations LED `i` is lit exactly
      when some voltage read so far reaches threshold `i`. */
  lemma {:induction false} LitAfterMeaning(samples: seq<ChargeSample>, n: nat)
    requires n <= |samples|
    ensures forall i: nat :: i in LitAfter(samples, n) <==>
      i < |Thresholds| && exists j :: 0 <= j < n && Thresholds[i] <= samples[j].voltage
  {
    if n > 0 {
      LitAfterMeaning(samples, n - 1);
      LitMeansReached(samples[n - 1].voltage);
      forall i: nat ensures i in LitAfter(samples, n) <==>
        i < |Thresholds| && exists j :: 0 <= j < n && Thresholds[i] <= samples[j].voltage
      {
        if i < |Thresholds| && Thresholds[i] <= samples[n - 1].voltage {
          assert i in Lit(Reached(Thresholds, samples[n - 1].voltage));
        }
      }
    }
  }

  /** The highest voltage read in the first `n` iterations (0 before any). */
  function Peak(samples: seq<ChargeSample>, n: nat): (m: nat)
    requires n <= |samples|
    ensures forall j :: 0 <= j < n ==> samples[j].voltage <= m
    ensures n == 0 ==> m == 0
    ensures n > 0 ==> exists j :: 0 <= j < n && samples[j].voltage == m
  {
    if n == 0 then 0
    else if samples[n - 1].voltage > Peak(samples, n - 1) then samples[n - 1].voltage
    else Peak(samples, n - 1)
  }

  /** The lit LEDs only ever gain members as the loop goes on. */
  lemma {:induction false} LitAfterGrows(samples: seq<ChargeSample>, m: nat, n: nat)
    requires m <= n <= |samples|
    ensures LitAfter(samples, m) <= LitAfter(samples, n)
    decreases n
  {
    if m < n {
      LitAfterGrows(samples, m, n - 1);
    }
  }

  /** At any point the lit LEDs form the prefix 0..k-1, where k is the number of
      thresholds the highest voltage seen so far has reached. */
  lemma LitAfterIsPrefix(samples: seq<ChargeSample>, n: nat)
    requires n <= |samples|
    ensures forall i: nat :: i in LitAfter(samples, n) <==> i < Reached(Thresholds, Peak(samples, n))
  {
    var m := Peak(samples, n);
    LitAfterMeaning(samples, n);
    ThresholdsAscend();
    ReachedIsPrefix(Thresholds, m);
    forall i: nat | i < |Thresholds|
      ensures i in LitAfter(samples, n) <==> Thresholds[i] <= m
    {
      if Thresholds[i] <= m {
        var j :| 0 <= j < n && samples[j].voltage == m;
      }
    }
  }

  /** The events the charge-wait block can produce. */
  predicate IsChargeEvent(e: Event) {
    e.UsbInit? || e.DelaysInit? || e.AdcInit? || e.GetAdc? || e.PwrOn? || e.PwrOff?
    || e.InternalModuleOff? || e.ExternalModuleOff? || e.DelayMs? || e.FsLedOn?
  }

  /** Bring-up before the loop: USB, delays, the ADC and a first conversion. */
  const HeaderInit: seq<Event> := [UsbInit, DelaysInit, AdcInit, GetAdc]

  /** Both module rails off once the power latch is on. */
  const ModulesOff: seq<Event> := [InternalModuleOff, ExternalModuleOff]

  const ChargeHeader: seq<Event> := HeaderInit + [PwrOn] + ModulesOff

  /** A sample that still finds USB plugged is not past the last iteration. */
  lemma ChargingContinues(samples: seq<ChargeSample>, j: nat)
    requires j <= Charging(samples) && j < |samples| && samples[j].plugged
    ensures j < Charging(samples)
  {
  }

  /** The header waits nowhere. */
  lemma HeaderNoWait()
    ensures Count(ChargeHeader, DelayMs(20)) == 0
  {
    CountAbsent(ChargeHeader, DelayMs(20));
  }

  /** The header powers on once. */
  lemma HeaderPowersOnce()
    ensures Count(ChargeHeader, PwrOn) == 1
  {
    CountMiddle(HeaderInit, [PwrOn], ModulesOff, PwrOn);
  }

  /** The header lights no LED, and holds only charge-block events. */
  lemma HeaderFacts()
    ensures forall i :: FsLedOn(i) !in ChargeHeader
    ensures forall e :: e in ChargeHeader ==> IsChargeEvent(e) && e != PwrOff
  {
  }

  /** One iteration waits 20 ms once. */
  lemma IterationWaits(events: seq<Event>, n: nat)
    ensures Count(events + ([GetAdc, DelayMs(20)] + Ladder(n)), DelayMs(20)) == Count(events, DelayMs(20)) + 1
  {
    assert DelayMs(20) !in Ladder(n);
    CountAbsent(Ladder(n), DelayMs(20));
    CountConcat([GetAdc, DelayMs(20)], Ladder(n), DelayMs(20));
    CountConcat(events, [GetAdc, DelayMs(20)] + Ladder(n), DelayMs(20));
  }

  /** One iteration switches on the LEDs of its pass. */
  lemma IterationLeds(events: seq<Event>, lit: set<nat>, n: nat)
    requires forall i :: FsLedOn(i) in events <==> i in lit
    ensures forall i :: FsLedOn(i) in events + ([GetAdc, DelayMs(20)] + Ladder(n)) <==> i in lit + Lit(n)
  {
    LadderLeds(n);
    forall i ensures FsLedOn(i) in events + ([GetAdc, DelayMs(20)] + Ladder(n)) <==> i in lit + Lit(n) {
      InConcat(events, [GetAdc, DelayMs(20)] + Ladder(n), FsLedOn(i));
    }
  }

  /** One iteration reads the ADC, waits and switches LEDs on, and nothing else. */
  lemma IterationKinds(events: seq<Event>, n: nat)
    requires forall e :: e in events ==> e == GetAdc || e == DelayMs(20) || e.FsLedOn?
    ensures forall e :: e in events + ([GetAdc, DelayMs(20)] + Ladder(n)) ==>
      e == GetAdc || e == DelayMs(20) || e.FsLedOn?
  {
    forall e | e in events + ([GetAdc, DelayMs(20)] + Ladder(n))
      ensures e == GetAdc || e == DelayMs(20) || e.FsLedOn?
    {
      InConcat(events, [GetAdc, DelayMs(20)] + Ladder(n), e);
    }
  }

  /** Every 20 ms wait of a trace that starts with the header comes after the
      delay service and the ADC have been initialised. */
  lemma HeaderPrecedesDelays(events: seq<Event>)
    requires |events| >= |ChargeHeader| && events[..|ChargeHeader|] == ChargeHeader
    ensures forall k :: 0 <= k < |events| && events[k].DelayMs? ==>
      DelaysInit in events[..k] && AdcInit in events[..k]
  {
    assert forall k :: 0 <= k < |ChargeHeader| ==> events[k] == ChargeHeader[k];
    forall k | 0 <= k < |events| && events[k].DelayMs?
      ensures DelaysInit in events[..k] && AdcInit in events[..k]
    {
      assert events[..k][1] == DelaysInit && events[..k][2] == AdcInit;
    }
  }

  /** The events of the first `n` iterations of the charge loop: each reads the
      ADC, waits 20 ms and lights the LEDs its voltage reaches. */
  function LoopTrace(samples: seq<ChargeSample>, n: nat): seq<Event>
    requires n <= |samples|
  {
    if n == 0 then []
    else LoopTrace(samples, n - 1) + ([GetAdc, DelayMs(20)] + Ladder(Reached(Thresholds, samples[n - 1].voltage)))
  }

  /** After `n` iterations the loop has waited 20 ms `n` times. */
  lemma {:induction false} LoopTraceWaits(samples: seq<ChargeSample>, n: nat)
    requires n <= |samples|
    ensures Count(LoopTrace(samples, n), DelayMs(20)) == n
  {
    if n > 0 {
      LoopTraceWaits(samples, n - 1);
      IterationWaits(LoopTrace(samples, n - 1), Reached(Thresholds, samples[n - 1].voltage));
    }
  }

  /** After `n` iterations the loop has switched on exactly the LEDs that some
      voltage read so far reaches. */
  lemma {:induction false} LoopTraceLeds(samples: seq<ChargeSample>, n: nat)
    requires n <= |samples|
    ensures forall i :: FsLedOn(i) in LoopTrace(samples, n) <==> i in LitAfter(samples, n)
  {
    if n > 0 {
      LoopTraceLeds(samples, n - 1);
      IterationLeds(LoopTrace(samples, n - 1), LitAfter(samples, n - 1), Reached(Thresholds, samples[n - 1].voltage));
    }
  }

  /** The loop only reads the ADC, waits and switches LEDs on. */
  lemma {:induction false} LoopTraceKinds(samples: seq<ChargeSample>, n: nat)
    requires n <= |samples|
    ensures forall e :: e in LoopTrace(samples, n) ==> e == GetAdc || e == DelayMs(20) || e.FsLedOn?
  {
    if n > 0 {
      LoopTraceKinds(samples, n - 1);
      IterationKinds(LoopTrace(samples, n - 1), Reached(Thresholds, samples[n - 1].voltage));
    }
  }

  /** The `while (usbPlugged())` loop: one ADC read, a 20 ms wait and a pass of
      the ladder per sample, for as long as the samples find USB plugged. */
  method ChargeLoop(samples: seq<ChargeSample>) returns (events: seq<Event>, lit: set<nat>)
    ensures events == LoopTrace(samples, Charging(samples))
    ensures lit == LitAfter(samples, Charging(samples))
  {
    events, lit := [], {};
    var j := 0;
    while j < |samples| && samples[j].plugged
      invariant j <= Charging(samples)
      invariant events == LoopTrace(samples, j)
      invariant lit == LitAfter(samples, j)
      decreases |samples| - j
    {
      ChargingContinues(samples, j);
      var ladder, on := LightLadder(samples[j].voltage);
      events := events + ([GetAdc, DelayMs(20)] + ladder);
      lit := lit + on;
      j := j + 1;
    }
  }

  /** In a trace that starts with the header and has no later ADC start, every
      ADC start comes after the delay service was initialised. */
  lemma HeaderPrecedesAdc(t: seq<Event>)
    requires |t| >= |ChargeHeader| && t[..|ChargeHeader|] == ChargeHeader
    requires AdcInit !in t[|ChargeHeader|..]
    ensures forall k :: 0 <= k < |t| && t[k] == AdcInit ==> DelaysInit in t[..k]
  {
    assert forall k :: 0 <= k < |ChargeHeader| ==> t[k] == ChargeHeader[k];
    forall k | 0 <= k < |t| && t[k] == AdcInit ensures DelaysInit in t[..k] {
      if k >= 2 {
        assert t[..k][1] == DelaysInit;
      }
    }
  }

  /** The events of the charge-wait block, given the answer of the second
      `usbPlugged()` call and the samples of the loop. */
  function ChargeBlock(pluggedAtEntry: bool, samples: seq<ChargeSample>): seq<Event> {
    if !pluggedAtEntry then [UsbInit]
    else ChargeHeader + LoopTrace(samples, Charging(samples)) + [PwrOff]
  }

  /** The charge-wait block: USB is initialised and its plugged state primed;
      only when the second query finds USB plugged are delays, the ADC and the
      power latch brought up and both module rails switched off; the loop then
      runs for as long as USB stays plugged, and the power latch is released
      afterwards. `pluggedAtEntry` is the answer to the second `usbPlugged()`
      call; the first call only primes the debounce and its answer is not used. */
  method ChargeWait(pluggedAtEntry: bool, samples: seq<ChargeSample>)
    returns (events: seq<Event>, lit: set<nat>)
    ensures events == ChargeBlock(pluggedAtEntry, samples)
    ensures lit == if pluggedAtEntry then LitAfter(samples, Charging(samples)) else {}
  {
    events, lit := [UsbInit], {};
    if !pluggedAtEntry {
      return;
    }
    var body;
    body, lit := ChargeLoop(samples);
    events := ChargeHeader + body + [PwrOff];
  }

  /** What the charge-wait block does: without USB it only starts USB; with USB
      it runs the header, powers on once, waits once per iteration after the
      delay service and the ADC, lights the LEDs the voltages reach, and ends
      with the one release of the power latch. */
  lemma ChargeBlockFacts(pluggedAtEntry: bool, samples: seq<ChargeSample>)
    ensures var events := ChargeBlock(pluggedAtEntry, samples);
      && |events| > 0 && events[0] == UsbInit
      && (pluggedAtEntry ==>
            |events| > |ChargeHeader| && events[..|ChargeHeader|] == ChargeHeader &&
            events[|events| - 1] == PwrOff && PwrOff !in events[..|events| - 1])
      && Count(events, DelayMs(20)) == (if pluggedAtEntry then Charging(samples) else 0)
      && Count(events, PwrOn) == (if pluggedAtEntry then 1 else 0)
      && (forall e :: e in events ==> IsChargeEvent(e))
  {
    if pluggedAtEntry {
      var body := LoopTrace(samples, Charging(samples));
      LoopTraceWaits(samples, Charging(samples));
      LoopTraceKinds(samples, Charging(samples));
      BlockShape(body);
      BlockWaits(body);
      BlockPowersOnce(body);
    }
  }

  /** With USB plugged the block starts USB, then the delay service, then the ADC. */
  lemma ChargeBlockAdcStart(samples: seq<ChargeSample>)
    ensures var events := ChargeBlock(true, samples);
      |events| > 2 && events[2] == AdcInit && events[..2] == [UsbInit, DelaysInit]
  {
    var events := ChargeBlock(true, samples);
    assert events == HeaderInit + ([PwrOn] + ModulesOff + LoopTrace(samples, Charging(samples)) + [PwrOff]);
  }

  /** The LEDs the block switches on are those of the lit set, and its waits and
      ADC start come after the services they need. */
  lemma ChargeBlockLedsAndOrder(pluggedAtEntry: bool, samples: seq<ChargeSample>)
    ensures var events := ChargeBlock(pluggedAtEntry, samples);
      var lit := if pluggedAtEntry then LitAfter(samples, Charging(samples)) else {};
      && (forall i :: FsLedOn(i) in events <==> i in lit)
      && Preceded(events, DelaysInit, DelayMs(20)) && Preceded(events, AdcInit, DelayMs(20))
      && Preceded(events, DelaysInit, AdcInit)
  {
    if pluggedAtEntry {
      var body := LoopTrace(samples, Charging(samples));
      LoopTraceLeds(samples, Charging(samples));
      LoopTraceKinds(samples, Charging(samples));
      BlockLeds(body);
      BlockOrder(body);
    }
  }

  /** The block around the loop: the header, the loop's events, the release. */
  lemma BlockShape(body: seq<Event>)
    requires forall e :: e in body ==> e == GetAdc || e == DelayMs(20) || e.FsLedOn?
    ensures var t := ChargeHeader + body + [PwrOff];
      && |t| > |ChargeHeader| && t[..|ChargeHeader|] == ChargeHeader
      && t[|t| - 1] == PwrOff && PwrOff !in t[..|t| - 1]
      && (forall e :: e in t ==> IsChargeEvent(e))
  {
    var t := ChargeHeader + body + [PwrOff];
    assert t[..|t| - 1] == ChargeHeader + body;
    assert t[..|ChargeHeader|] == ChargeHeader;
    HeaderFacts();
  }

  /** The block waits exactly as often as its loop does. */
  lemma BlockWaits(body: seq<Event>)
    ensures Count(ChargeHeader + body + [PwrOff], DelayMs(20)) == Count(body, DelayMs(20))
  {
    HeaderNoWait();
    CountConcat(ChargeHeader, body, DelayMs(20));
    CountConcat(ChargeHeader + body, [PwrOff], DelayMs(20));
  }

  /** The block powers on once: in its header. */
  lemma BlockPowersOnce(body: seq<Event>)
    requires forall e :: e in body ==> e == GetAdc || e == DelayMs(20) || e.FsLedOn?
    ensures Count(ChargeHeader + body + [PwrOff], PwrOn) == 1
  {
    HeaderPowersOnce();
    assert PwrOn !in body;
    CountAbsent(body, PwrOn);
    CountConcat(ChargeHeader, body, PwrOn);
    CountConcat(ChargeHeader + body, [PwrOff], PwrOn);
  }

  /** The block lights the LEDs its loop lights. */
  lemma BlockLeds(body: seq<Event>)
    ensures forall i :: FsLedOn(i) in ChargeHeader + body + [PwrOff] <==> FsLedOn(i) in body
  {
    HeaderFacts();
    forall i ensures FsLedOn(i) in ChargeHeader + body + [PwrOff] <==> FsLedOn(i) in body {
      InConcat(ChargeHeader, body, FsLedOn(i));
      InConcat(ChargeHeader + body, [PwrOff], FsLedOn(i));
    }
  }

  /** Ordering over the block: waits and ADC starts come after their services. */
  lemma BlockOrder(body: seq<Event>)
    requires forall e :: e in body ==> e == GetAdc || e == DelayMs(20) || e.FsLedOn?
    ensures var t := ChargeHeader + body + [PwrOff];
      && (forall k :: 0 <= k < |t| && t[k].DelayMs? ==> DelaysInit in t[..k] && AdcInit in t[..k])
      && (forall k :: 0 <= k < |t| && t[k] == AdcInit ==> DelaysInit in t[..k])
  {
    var t := ChargeHeader + body + [PwrOff];
    assert t[..|ChargeHeader|] == ChargeHeader;
    HeaderPrecedesDelays(t);
    assert t[|ChargeHeader|..] == body + [PwrOff];
    HeaderPrecedesAdc(t);
  }
}
