/** The power-down sequence: switch the displays off, wait for the power button
    to be released while servicing the watchdog, cut the power latch, then spin
    forever servicing the watchdog and requesting standby. */
module BoardOff {
  import opened Events
  import opened Features

  /** One answer of `pwrPressed()`, read from a finite record of the button.
      Reading past the end of the record means the button has been released. */
  predicate Pressed(button: seq<bool>, i: nat) {
    i < |button| && button[i]
  }

  /** Index of the first sample, from `i` on, that reports the button released. */
  function HoldEnd(button: seq<bool>, i: nat): (r: nat)
    ensures i <= r && (r == i || r <= |button|)
    ensures !Pressed(button, r)
    ensures forall k :: i <= k < r ==> Pressed(button, k)
    decreases |button| - i
  {
    if Pressed(button, i) then HoldEnd(button, i + 1) else i
  }

  /** Displays and status LED off, before anything waits for the button. */
  function OffPrefix(f: FeatureSet): seq<Event> {
    Opt(f.statusLeds, [LedOff]) + [BacklightDisable] + Opt(f.topLcd, [ToplcdOff])
  }

  /** The `while (pwrPressed())` loop from sample `i` on: one watchdog service
      per sample that still reports the button pressed. */
  function HoldLoop(button: seq<bool>, i: nat): seq<Event>
    decreases |button| - i
  {
    if Pressed(button, i) then [WatchdogReset] + HoldLoop(button, i + 1) else []
  }

  /** The watchdog services issued while the button is held; none on a target
      without a power button. */
  function HoldPhase(f: FeatureSet, button: seq<bool>): seq<Event> {
    Opt(f.pwrButtonPress, HoldLoop(button, 0))
  }

  /** The samples read before the power latch is cut. */
  function IdleStart(f: FeatureSet, button: seq<bool>): nat {
    if f.pwrButtonPress then HoldEnd(button, 0) + 1 else 0
  }

  /** Everything before the LCD is switched off: the display-off prefix, the
      button wait and, on RadioMaster STM32F407 boards, an LCD re-init. */
  function BeforeCut(f: FeatureSet, button: seq<bool>): seq<Event> {
    OffPrefix(f) + HoldPhase(f, button) + Opt(f.radiomasterF407, [LcdInit])
  }

  /** LCD off, systick off, power latch off, interrupts off. */
  const PowerCut: seq<Event> := [LcdOff, SystickOff, PwrOff, DisableIrq]

  /** One iteration of the final `while (1)` loop, reading sample `j`. */
  function IdleStep(f: FeatureSet, button: seq<bool>, j: nat): seq<Event> {
    [WatchdogReset] + Opt(f.pwrButtonPress && !Pressed(button, j), [Standby])
  }

  /** `n` iterations of the final loop, the first one reading sample `j`. */
  function Idle(f: FeatureSet, button: seq<bool>, j: nat, n: nat): seq<Event>
    decreases n
  {
    if n == 0 then [] else IdleStep(f, button, j) + Idle(f, button, j + 1, n - 1)
  }

  /** The events of `boardOff` up to and including `fuel` iterations of the
      final loop. */
  function OffTrace(f: FeatureSet, button: seq<bool>, fuel: nat): seq<Event> {
    BeforeCut(f, button) + PowerCut + Idle(f, button, IdleStart(f, button), fuel)
  }

  /** `boardOff`, run until `fuel` iterations of its final loop are done. */
  method PowerDown(f: FeatureSet, button: seq<bool>, fuel: nat) returns (t: seq<Event>)
    ensures t == OffTrace(f, button, fuel)
  {
    t := DisplaysOff(f);
    var hold, next := WaitRelease(f, button);
    t := t + hold;
    ghost var t0 := t;
    if f.radiomasterF407 {
      t := t + [LcdInit];
    }
    assert t == t0 + Opt(f.radiomasterF407, [LcdInit]);
    t := t + [LcdOff, SystickOff, PwrOff, DisableIrq];
    var idle := Spin(f, button, next, fuel);
    t := t + idle;
  }

  /** Status LED, backlight and top LCD off. */
  method DisplaysOff(f: FeatureSet) returns (t: seq<Event>)
    ensures t == OffPrefix(f)
  {
    t := [];
    if f.statusLeds {
      t := t + [LedOff];
    }
    assert t == Opt(f.statusLeds, [LedOff]);
    t := t + [BacklightDisable];
    ghost var t0 := t;
    if f.topLcd {
      t := t + [ToplcdOff];
    }
    assert t == t0 + Opt(f.topLcd, [ToplcdOff]);
  }

  /** The `while (pwrPressed())` loop; `next` is the index of the next unread
      button sample. */
  method WaitRelease(f: FeatureSet, button: seq<bool>) returns (t: seq<Event>, next: nat)
    ensures t == HoldPhase(f, button)
    ensures next == IdleStart(f, button)
  {
    t := [];
    next := 0;
    if f.pwrButtonPress {
      var pressed := Pressed(button, next);
      next := next + 1;
      while pressed
        invariant 1 <= next <= |button| + 1
        invariant pressed == Pressed(button, next - 1)
        invariant HoldEnd(button, next - 1) == HoldEnd(button, 0)
        invariant t + HoldLoop(button, next - 1) == HoldLoop(button, 0)
        decreases |button| + 1 - next
      {
        t := t + [WatchdogReset];
        pressed := Pressed(button, next);
        next := next + 1;
      }
    }
  }

  /** `fuel` iterations of the `while (1)` loop, reading the button from sample
      `next` on. */
  method Spin(f: FeatureSet, button: seq<bool>, next: nat, fuel: nat) returns (t: seq<Event>)
    ensures t == Idle(f, button, next, fuel)
  {
    t := [];
    var j := next;
    var n := 0;
    while n < fuel
      invariant n <= fuel
      invariant f.pwrButtonPress ==> j == next + n
      invariant t == Idle(f, button, next, n)
    {
      IdleSnoc(f, button, next, n);
      ghost var t0 := t;
      t := t + [WatchdogReset];
      if f.pwrButtonPress {
        var pressed := Pressed(button, j);
        j := j + 1;
        if !pressed {
          t := t + [Standby];
        }
      }
      assert t == t0 + IdleStep(f, button, next + n);
      n := n + 1;
    }
  }

  /** One more iteration of the final loop appends one more step. */
  lemma {:induction false} IdleSnoc(f: FeatureSet, button: seq<bool>, j: nat, n: nat)
    ensures Idle(f, button, j, n + 1) == Idle(f, button, j, n) + IdleStep(f, button, j + n)
    decreases n
  {
    if n > 0 {
      IdleSnoc(f, button, j + 1, n - 1);
    }
  }

  /** While the button is held, the loop only services the watchdog, once per
      sample that reports it pressed. */
  lemma {:induction false} HoldLoopOnlyServices(button: seq<bool>, i: nat)
    ensures forall x :: x in HoldLoop(button, i) ==> x == WatchdogReset
    ensures |HoldLoop(button, i)| == HoldEnd(button, i) - i
    ensures Count(HoldLoop(button, i), WatchdogReset) == HoldEnd(button, i) - i
    decreases |button| - i
  {
    if Pressed(button, i) {
      var r := HoldLoop(button, i + 1);
      HoldLoopOnlyServices(button, i + 1);
      assert ([WatchdogReset] + r)[1..] == r;
    }
  }

  /** A turn of the final loop is a watchdog service, followed by a standby
      request exactly when a radio with a power button reads it released. */
  lemma IdleStepShape(f: FeatureSet, button: seq<bool>, j: nat)
    ensures f.pwrButtonPress && !Pressed(button, j) ==> IdleStep(f, button, j) == [WatchdogReset, Standby]
    ensures !(f.pwrButtonPress && !Pressed(button, j)) ==> IdleStep(f, button, j) == [WatchdogReset]
  {
  }

  /** The final loop services the watchdog once per iteration. */
  lemma {:induction false} IdleServiceCount(f: FeatureSet, button: seq<bool>, j: nat, n: nat)
    ensures Count(Idle(f, button, j, n), WatchdogReset) == n
    decreases n
  {
    if n > 0 {
      var s := IdleStep(f, button, j);
      var r := Idle(f, button, j + 1, n - 1);
      IdleServiceCount(f, button, j + 1, n - 1);
      IdleStepShape(f, button, j);
      StepThenCount(s, r);
      assert Idle(f, button, j, n) == s + r;
    }
  }

  /** A final-loop step holds one watchdog service. */
  lemma StepThenCount(s: seq<Event>, r: seq<Event>)
    requires s == [WatchdogReset] || s == [WatchdogReset, Standby]
    ensures Count(s + r, WatchdogReset) == Count(r, WatchdogReset) + 1
  {
    CountConcat(s, r, WatchdogReset);
    if |s| == 2 {
      assert s[1..] == [Standby] && s[1..][1..] == [];
    } else {
      assert s[1..] == [];
    }
  }

  /** Each turn of the final loop starts with the watchdog service, and the
      loop does nothing but that and request standby. */
  lemma {:induction false} IdleServices(f: FeatureSet, button: seq<bool>, j: nat, n: nat)
    ensures n > 0 ==> |Idle(f, button, j, n)| > 0 && Idle(f, button, j, n)[0] == WatchdogReset
    ensures forall x :: x in Idle(f, button, j, n) ==> x == WatchdogReset || x == Standby
    decreases n
  {
    if n > 0 {
      var s := IdleStep(f, button, j);
      var r := Idle(f, button, j + 1, n - 1);
      IdleServices(f, button, j + 1, n - 1);
      IdleStepShape(f, button, j);
      StepThenKinds(s, r);
      assert Idle(f, button, j, n) == s + r;
    }
  }

  /** A final-loop step followed by more final-loop steps holds nothing but
      watchdog services and standby requests, and starts with a service. */
  lemma StepThenKinds(s: seq<Event>, r: seq<Event>)
    requires s == [WatchdogReset] || s == [WatchdogReset, Standby]
    requires forall x :: x in r ==> x == WatchdogReset || x == Standby
    ensures (s + r)[0] == WatchdogReset
    ensures forall x :: x in s + r ==> x == WatchdogReset || x == Standby
  {
    forall x | x in s + r ensures x == WatchdogReset || x == Standby {
      assert x in s || x in r;
    }
  }

  /** In the final loop every standby request comes right after a watchdog
      service, and only on a target with a power button. */
  lemma {:induction false} IdleStandby(f: FeatureSet, button: seq<bool>, j: nat, n: nat)
    ensures forall k :: 0 <= k < |Idle(f, button, j, n)| && Idle(f, button, j, n)[k] == Standby ==>
              f.pwrButtonPress && k > 0 && Idle(f, button, j, n)[k - 1] == WatchdogReset
    decreases n
  {
    if n > 0 {
      var s := IdleStep(f, button, j);
      var r := Idle(f, button, j + 1, n - 1);
      IdleStandby(f, button, j + 1, n - 1);
      IdleServices(f, button, j + 1, n - 1);
      IdleStepShape(f, button, j);
      StepThenRest(f, s, r);
      assert Idle(f, button, j, n) == s + r;
    }
  }

  /** A final-loop step followed by more final-loop steps keeps the standby rule. */
  lemma StepThenRest(f: FeatureSet, s: seq<Event>, r: seq<Event>)
    requires s == [WatchdogReset] || (s == [WatchdogReset, Standby] && f.pwrButtonPress)
    requires r != [] ==> r[0] == WatchdogReset
    requires forall k :: 0 <= k < |r| && r[k] == Standby ==> f.pwrButtonPress && k > 0 && r[k - 1] == WatchdogReset
    ensures forall k :: 0 <= k < |s + r| && (s + r)[k] == Standby ==>
              f.pwrButtonPress && k > 0 && (s + r)[k - 1] == WatchdogReset
  {
    var u := s + r;
    forall k | 0 <= k < |u| && u[k] == Standby
      ensures f.pwrButtonPress && k > 0 && u[k - 1] == WatchdogReset
    {
      if k >= |s| {
        assert u[k] == r[k - |s|];
        if k - |s| > 0 {
          assert u[k - 1] == r[k - |s| - 1];
        }
      }
    }
  }

  /** Events of the display-off prefix. */
  predicate IsPrefixEvent(e: Event) {
    e == LedOff || e == BacklightDisable || e == ToplcdOff
  }

  /** Events that can come before the power cut. */
  predicate IsBeforeCutEvent(e: Event) {
    IsPrefixEvent(e) || e == WatchdogReset || e == LcdInit
  }

  /** The display-off prefix and its gating. */
  lemma PrefixShape(f: FeatureSet)
    ensures forall x :: x in OffPrefix(f) ==> IsPrefixEvent(x)
    ensures BacklightDisable in OffPrefix(f)
    ensures LedOff in OffPrefix(f) <==> f.statusLeds
    ensures ToplcdOff in OffPrefix(f) <==> f.topLcd
  {
  }

  /** Before the power cut: the displays go off before the first watchdog
      service of the button wait. */
  lemma BeforeCutShape(f: FeatureSet, button: seq<bool>)
    ensures forall x :: x in BeforeCut(f, button) ==> IsBeforeCutEvent(x)
    ensures DisplaysGated(f, BeforeCut(f, button))
    ensures DisplaysBeforeServices(BeforeCut(f, button))
  {
    var p := OffPrefix(f);
    var h := HoldPhase(f, button);
    var l := Opt(f.radiomasterF407, [LcdInit]);
    PrefixShape(f);
    HoldLoopOnlyServices(button, 0);
    OptKinds(f.pwrButtonPress, HoldLoop(button, 0), WatchdogReset);
    OptKinds(f.radiomasterF407, [LcdInit], LcdInit);
    BeforeCutParts(p, h, l);
  }

  /** The button wait services the watchdog once per sample that reports the
      button held, and nothing else before the cut does. */
  lemma BeforeCutServices(f: FeatureSet, button: seq<bool>)
    ensures Count(BeforeCut(f, button), WatchdogReset) == (if f.pwrButtonPress then HoldEnd(button, 0) else 0)
  {
    var p := OffPrefix(f);
    var h := HoldPhase(f, button);
    var l := Opt(f.radiomasterF407, [LcdInit]);
    PrefixShape(f);
    assert WatchdogReset !in p && WatchdogReset !in l;
    HoldLoopOnlyServices(button, 0);
    assert Count(h, WatchdogReset) == (if f.pwrButtonPress then HoldEnd(button, 0) else 0);
    CountMiddle(p, h, l, WatchdogReset);
  }

  /** The order and contents of the phases before the cut, from their kinds. */
  lemma BeforeCutParts(p: seq<Event>, h: seq<Event>, l: seq<Event>)
    requires forall x :: x in p ==> IsPrefixEvent(x)
    requires forall x :: x in h ==> x == WatchdogReset
    requires forall x :: x in l ==> x == LcdInit
    ensures forall x :: x in p + h + l ==> IsBeforeCutEvent(x)
    ensures forall x :: IsPrefixEvent(x) ==> (x in p + h + l <==> x in p)
    ensures DisplaysBeforeServices(p + h + l)
  {
    forall x | x in p + h + l ensures IsBeforeCutEvent(x) && (IsPrefixEvent(x) ==> x in p) {
      assert x in p + h || x in l;
      assert x in p || x in h || x in l;
    }
    assert WatchdogReset !in p;
    assert LedOff !in h && BacklightDisable !in h && ToplcdOff !in h;
    AllBeforeConcat(p, h, LedOff, WatchdogReset);
    AllBeforeConcat(p, h, BacklightDisable, WatchdogReset);
    AllBeforeConcat(p, h, ToplcdOff, WatchdogReset);
    assert LedOff !in l && BacklightDisable !in l && ToplcdOff !in l;
    DisplaysBeforeServicesExtend(p + h, l);
  }

  /** The display-off steps all come before every watchdog service. */
  ghost predicate DisplaysBeforeServices(t: seq<Event>) {
    && AllBefore(t, LedOff, WatchdogReset)
    && AllBefore(t, BacklightDisable, WatchdogReset)
    && AllBefore(t, ToplcdOff, WatchdogReset)
  }

  /** Phases without display-off steps can follow. */
  lemma DisplaysBeforeServicesExtend(t: seq<Event>, s: seq<Event>)
    requires DisplaysBeforeServices(t)
    requires LedOff !in s && BacklightDisable !in s && ToplcdOff !in s
    ensures DisplaysBeforeServices(t + s)
  {
    AllBeforeExtend(t, s, LedOff, WatchdogReset);
    AllBeforeExtend(t, s, BacklightDisable, WatchdogReset);
    AllBeforeExtend(t, s, ToplcdOff, WatchdogReset);
  }

  /** The power cut holds all four of its steps and none of the display or
      standby steps. */
  lemma PowerCutMembers()
    ensures LcdOff in PowerCut && SystickOff in PowerCut && PwrOff in PowerCut
    ensures DisableIrq in PowerCut && Standby !in PowerCut
    ensures LedOff !in PowerCut && BacklightDisable !in PowerCut && ToplcdOff !in PowerCut
  {
  }

  /** Inside the power cut, each step comes after the one before it. */
  lemma PowerCutOrder()
    ensures AllBefore(PowerCut, LcdOff, SystickOff)
    ensures AllBefore(PowerCut, SystickOff, PwrOff)
    ensures AllBefore(PowerCut, PwrOff, DisableIrq)
  {
    forall k | 0 <= k < |PowerCut|
      ensures PowerCut[k] == LcdOff <==> k == 0
      ensures PowerCut[k] == SystickOff <==> k == 1
      ensures PowerCut[k] == PwrOff <==> k == 2
      ensures PowerCut[k] == DisableIrq <==> k == 3
    {
    }
  }

  /** The power cut steps run in order, after everything of `q` and
      before the final loop `i`. */
  lemma CutOrder(q: seq<Event>, i: seq<Event>)
    requires forall x :: x in q ==> IsBeforeCutEvent(x)
    requires forall x :: x in i ==> x == WatchdogReset || x == Standby
    ensures AllBefore(q + PowerCut + i, LcdOff, SystickOff)
    ensures AllBefore(q + PowerCut + i, SystickOff, PwrOff)
    ensures AllBefore(q + PowerCut + i, PwrOff, DisableIrq)
  {
    assert LcdOff !in q && SystickOff !in q && PwrOff !in q && DisableIrq !in q;
    PowerCutOrder();
    AllBeforeMiddle(q, PowerCut, i, LcdOff, SystickOff);
    AllBeforeMiddle(q, PowerCut, i, SystickOff, PwrOff);
    AllBeforeMiddle(q, PowerCut, i, PwrOff, DisableIrq);
  }

  /** No standby request comes before interrupts are off. */
  lemma CutBeforeStandby(q: seq<Event>, i: seq<Event>)
    requires forall x :: x in q ==> IsBeforeCutEvent(x)
    ensures Preceded(q + PowerCut + i, DisableIrq, Standby)
  {
    PowerCutMembers();
    assert Standby !in q;
    InConcat(q, PowerCut, DisableIrq);
    InConcat(q, PowerCut, Standby);
    PrecededAcross(q + PowerCut, i, DisableIrq, Standby);
  }

  /** A standby request right after a watchdog service stays so when phases
      without standby requests are put in front. */
  lemma StandbyAfterService(q: seq<Event>, i: seq<Event>, pwrButtonPress: bool)
    requires Standby !in q
    requires i != [] ==> i[0] == WatchdogReset
    requires forall k :: 0 <= k < |i| && i[k] == Standby ==> pwrButtonPress && k > 0 && i[k - 1] == WatchdogReset
    ensures forall k :: 0 <= k < |q + i| && (q + i)[k] == Standby ==>
              pwrButtonPress && k > 0 && (q + i)[k - 1] == WatchdogReset
  {
    var u := q + i;
    forall k | 0 <= k < |q| ensures u[k] != Standby {
      assert u[k] == q[k];
    }
    forall k | 0 <= k < |u| && u[k] == Standby
      ensures pwrButtonPress && k > 0 && u[k - 1] == WatchdogReset
    {
      assert u[k] == i[k - |q|];
      if k - |q| > 0 {
        assert u[k - 1] == i[k - |q| - 1];
      }
    }
  }

  /** The display steps the features ask for are in `t`, and only those. */
  ghost predicate DisplaysGated(f: FeatureSet, t: seq<Event>) {
    && BacklightDisable in t
    && (LedOff in t <==> f.statusLeds)
    && (ToplcdOff in t <==> f.topLcd)
  }

  /** The LCD is switched off only after one watchdog service per sample that
      reported the button held. */
  ghost predicate LcdOffAfterHold(f: FeatureSet, button: seq<bool>, t: seq<Event>) {
    exists k :: 0 <= k < |t| && t[k] == LcdOff &&
      Count(t[..k], WatchdogReset) == (if f.pwrButtonPress then HoldEnd(button, 0) else 0)
  }

  /** The first half of what the power-down trace `t` shows: the displays are
      off before the button wait, and the LCD is switched off only after the
      wait. */
  ghost predicate DisplaysOffFirst(f: FeatureSet, button: seq<bool>, t: seq<Event>) {
    DisplaysGated(f, t) && DisplaysBeforeServices(t) && LcdOffAfterHold(f, button, t)
  }

  /** The second half: LCD off, systick off, power latch off and interrupts off
      all happen, in that order; standby requests come only after interrupts are
      off, on a target with a power button, each right after a watchdog
      service. */
  ghost predicate CutThenSpin(pwrButtonPress: bool, t: seq<Event>) {
    && LcdOff in t && SystickOff in t && PwrOff in t && DisableIrq in t
    && AllBefore(t, LcdOff, SystickOff)
    && AllBefore(t, SystickOff, PwrOff)
    && AllBefore(t, PwrOff, DisableIrq)
    && Preceded(t, DisableIrq, Standby)
    && (forall k :: 0 <= k < |t| && t[k] == Standby ==> pwrButtonPress && k > 0 && t[k - 1] == WatchdogReset)
  }

  /** Display steps of `q` are those of `q` followed by the cut and the final loop. */
  lemma GatedOf(f: FeatureSet, q: seq<Event>, i: seq<Event>)
    requires DisplaysGated(f, q)
    requires forall x :: x in i ==> x == WatchdogReset || x == Standby
    ensures DisplaysGated(f, q + PowerCut + i)
  {
    PowerCutMembers();
    assert LedOff !in i && BacklightDisable !in i && ToplcdOff !in i;
    InConcat(q, PowerCut, LedOff);
    InConcat(q, PowerCut, BacklightDisable);
    InConcat(q, PowerCut, ToplcdOff);
    InConcat(q + PowerCut, i, LedOff);
    InConcat(q + PowerCut, i, BacklightDisable);
    InConcat(q + PowerCut, i, ToplcdOff);
  }

  /** The cut and the final loop keep the display steps first. */
  lemma ServicesOf(q: seq<Event>, i: seq<Event>)
    requires DisplaysBeforeServices(q)
    requires forall x :: x in i ==> x == WatchdogReset || x == Standby
    ensures DisplaysBeforeServices(q + PowerCut + i)
  {
    PowerCutMembers();
    assert LedOff !in i && BacklightDisable !in i && ToplcdOff !in i;
    DisplaysBeforeServicesExtend(q, PowerCut);
    DisplaysBeforeServicesExtend(q + PowerCut, i);
  }

  /** The LCD-off step opens the cut, so what comes before it is `q`. */
  lemma LcdOffAfterHoldOf(f: FeatureSet, button: seq<bool>, q: seq<Event>, i: seq<Event>)
    requires Count(q, WatchdogReset) == (if f.pwrButtonPress then HoldEnd(button, 0) else 0)
    ensures LcdOffAfterHold(f, button, q + PowerCut + i)
  {
    PrefixOfConcat(q, PowerCut, i);
  }

  /** The first half, from the facts about the phase before the cut `q` and the
      final loop `i`. */
  lemma DisplaysOffFirstOf(f: FeatureSet, button: seq<bool>, q: seq<Event>, i: seq<Event>)
    requires DisplaysGated(f, q) && DisplaysBeforeServices(q)
    requires Count(q, WatchdogReset) == (if f.pwrButtonPress then HoldEnd(button, 0) else 0)
    requires forall x :: x in i ==> x == WatchdogReset || x == Standby
    ensures DisplaysOffFirst(f, button, q + PowerCut + i)
  {
    GatedOf(f, q, i);
    ServicesOf(q, i);
    LcdOffAfterHoldOf(f, button, q, i);
  }

  /** The second half, from the facts about the phase before the cut `q` and
      the final loop `i`. */
  lemma CutThenSpinOf(pwrButtonPress: bool, q: seq<Event>, i: seq<Event>)
    requires forall x :: x in q ==> IsBeforeCutEvent(x)
    requires forall x :: x in i ==> x == WatchdogReset || x == Standby
    requires i != [] ==> i[0] == WatchdogReset
    requires forall k :: 0 <= k < |i| && i[k] == Standby ==> pwrButtonPress && k > 0 && i[k - 1] == WatchdogReset
    ensures CutThenSpin(pwrButtonPress, q + PowerCut + i)
  {
    CutOrder(q, i);
    CutBeforeStandby(q, i);
    PowerCutMembers();
    InConcat(q, PowerCut, Standby);
    CutPresent(q, i);
    StandbyAfterService(q + PowerCut, i, pwrButtonPress);
  }

  /** Every step of the power cut happens. */
  lemma CutPresent(q: seq<Event>, i: seq<Event>)
    ensures var t := q + PowerCut + i;
      LcdOff in t && SystickOff in t && PwrOff in t && DisableIrq in t
  {
    var t := q + PowerCut + i;
    assert t[|q|] == LcdOff && t[|q| + 1] == SystickOff;
    assert t[|q| + 2] == PwrOff && t[|q| + 3] == DisableIrq;
  }

  /** `boardOff` switches the displays off before waiting for the button, waits
      for its release servicing only the watchdog, then switches the LCD off,
      stops systick, cuts the power latch and disables interrupts, in that
      order; standby is requested only after that, right after a watchdog
      service. */
  lemma PowerDownOrder(f: FeatureSet, button: seq<bool>, fuel: nat)
    ensures DisplaysOffFirst(f, button, OffTrace(f, button, fuel))
    ensures CutThenSpin(f.pwrButtonPress, OffTrace(f, button, fuel))
  {
    var j := IdleStart(f, button);
    BeforeCutShape(f, button);
    BeforeCutServices(f, button);
    IdleServices(f, button, j, fuel);
    IdleStandby(f, button, j, fuel);
    DisplaysOffFirstOf(f, button, BeforeCut(f, button), Idle(f, button, j, fuel));
    CutThenSpinOf(f.pwrButtonPress, BeforeCut(f, button), Idle(f, button, j, fuel));
  }

  /** `boardOff` never returns: one more turn of the final loop only appends to
      the trace, the appended turn starts with a watchdog service, and it
      requests standby exactly when the button sample it reads is released. */
  lemma PowerDownNeverReturns(f: FeatureSet, button: seq<bool>, fuel: nat)
    ensures |OffTrace(f, button, fuel)| < |OffTrace(f, button, fuel + 1)|
    ensures OffTrace(f, button, fuel + 1)[..|OffTrace(f, button, fuel)|] == OffTrace(f, button, fuel)
    ensures OffTrace(f, button, fuel + 1)[|OffTrace(f, button, fuel)|] == WatchdogReset
    ensures Standby in OffTrace(f, button, fuel + 1)[|OffTrace(f, button, fuel)|..] <==>
              f.pwrButtonPress && !Pressed(button, IdleStart(f, button) + fuel)
  {
    var q := BeforeCut(f, button) + PowerCut;
    var j := IdleStart(f, button);
    IdleSnoc(f, button, j, fuel);
    AppendAssoc(q, Idle(f, button, j, fuel), IdleStep(f, button, j + fuel));
    SplitAt(OffTrace(f, button, fuel), IdleStep(f, button, j + fuel));
  }
}
