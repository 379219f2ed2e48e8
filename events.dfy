/** Abstract events: each driver call, register write or busy-wait step of the
    boot and power-down sequences becomes one event appended to a trace. */
module Events {

  datatype Event =
    // clocks, radio links and option bytes
    | AudioClockEnable | SyscfgClockEnable | BluetoothInit | BorProgram
    // power detection and module ports
    | TrainerInit | PwrInit | ModulePortsInit | PxxFastBaudrate | HeartbeatCallbacks
    // status LED
    | LedInit | LedBlue | LedGreen | LedOff
    // charge-wait block
    | UsbInit | DelaysInit | AdcInit | GetAdc | PwrOn | PwrOff
    | InternalModuleOff | ExternalModuleOff | DelayMs(ms: nat) | FsLedOn(led: nat)
    // inputs, interrupts and the remaining drivers
    | KeysInit | SwitchInit | RotaryEncoderInit | EnableIrq | SticksPwmDetect | GimbalInit
    | AdcInitFailed | LcdInit | AudioInit | Timer2MhzInit | Timer1msInit | DebugSerialInit
    | HapticInit | Pxx2Probe | DebugFreeze | ToplcdInit | UsbChargerInit | JackDetectInit
    | SpeakerEnableInit | SpeakerEnable | HeadphoneTrainerSwitchInit | RtcInit
    | BacklightInit | LcdContrast
    // power-down
    | BacklightDisable | ToplcdOff | WatchdogReset | LcdOff | SystickOff | DisableIrq | Standby

  /** Every occurrence of `b` in `t` has an `a` somewhere before it: the
      dependency of `b` on `a` is met each time `b` runs. */
  ghost predicate Preceded(t: seq<Event>, a: Event, b: Event) {
    forall j {:trigger t[..j]} :: 0 <= j < |t| && t[j] == b ==> a in t[..j]
  }

  /** `b` happens in `t`, and always after an `a`. */
  ghost predicate Before(t: seq<Event>, a: Event, b: Event) {
    b in t && Preceded(t, a, b)
  }

  /** Some `b` happens after some `a`. */
  ghost predicate Follows(t: seq<Event>, a: Event, b: Event) {
    exists i, j :: 0 <= i < j < |t| && t[i] == a && t[j] == b
  }

  /** Appending the first `b` after an `a` establishes the dependency. */
  lemma BeforeIntro(t: seq<Event>, a: Event, b: Event)
    requires a in t && b !in t
    ensures Before(t + [b], a, b)
  {
    var u := t + [b];
    forall j | 0 <= j < |u| && u[j] == b
      ensures a in u[..j]
    {
      assert u[..j] == t;
    }
  }

  /** Whatever runs afterwards cannot break a dependency already met. */
  lemma BeforeExtend(t: seq<Event>, s: seq<Event>, a: Event, b: Event)
    requires Before(t, a, b)
    ensures Before(t + s, a, b)
  {
    var u := t + s;
    var k :| 0 <= k < |t| && t[k] == b;
    assert a in t[..k];
    var i :| 0 <= i < k && t[..k][i] == a;
    assert u[k] == b;
    forall j | 0 <= j < |u| && u[j] == b
      ensures a in u[..j]
    {
      if j < |t| {
        assert u[j] == t[j];
        assert a in t[..j];
        var i' :| 0 <= i' < j && t[..j][i'] == a;
        assert u[..j][i'] == a;
      } else {
        assert u[..j][i] == t[i];
      }
    }
  }

  /** An event appended right after an `a`, with anything after it, depends on
      that `a` at every occurrence. */
  lemma BeforeAt(p: seq<Event>, s: seq<Event>, a: Event, b: Event)
    requires a in p && b !in p
    ensures Before(p + [b] + s, a, b)
  {
    BeforeIntro(p, a, b);
    BeforeExtend(p + [b], s, a, b);
  }

  /** After a phase that runs `a` and no `b`, every later `b` depends on that `a`. */
  lemma PrecededAcross(p: seq<Event>, s: seq<Event>, a: Event, b: Event)
    requires a in p && b !in p
    ensures Preceded(p + s, a, b)
  {
    var u := p + s;
    var i :| 0 <= i < |p| && p[i] == a;
    forall j | 0 <= j < |p| ensures u[j] != b {
      assert u[j] == p[j];
    }
    forall j | 0 <= j < |u| && u[j] == b
      ensures a in u[..j]
    {
      assert u[..j][i] == a;
    }
  }

  /** A phase that runs `a` and no `b`, followed by one that runs `b`: every `b`
      depends on that `a`. */
  lemma BeforeAcross(p: seq<Event>, s: seq<Event>, a: Event, b: Event)
    requires a in p && b !in p && b in s
    ensures Before(p + s, a, b)
  {
    PrecededAcross(p, s, a, b);
    var k :| 0 <= k < |s| && s[k] == b;
    assert (p + s)[|p| + k] == b;
  }

  /** A dependency met inside a later phase stays met when an earlier phase
      that never runs `b` is put in front of it. */
  lemma BeforeShift(p: seq<Event>, t: seq<Event>, a: Event, b: Event)
    requires b !in p && Before(t, a, b)
    ensures Before(p + t, a, b)
  {
    var u := p + t;
    forall j | 0 <= j < |p| ensures u[j] != b {
      assert u[j] == p[j];
    }
    forall j | |p| <= j < |u| && u[j] == b
      ensures a in u[..j]
    {
      var m := j - |p|;
      assert t[m] == b;
      assert a in t[..m];
      var i :| 0 <= i < m && t[..m][i] == a;
      assert u[..j][|p| + i] == t[i];
    }
    var k :| 0 <= k < |t| && t[k] == b;
    assert u[|p| + k] == b;
  }

  /** Two phases that each meet a dependency meet it together. */
  lemma PrecededConcat(p: seq<Event>, t: seq<Event>, a: Event, b: Event)
    requires Preceded(p, a, b) && Preceded(t, a, b)
    ensures Preceded(p + t, a, b)
  {
    var u := p + t;
    forall j | 0 <= j < |u| && u[j] == b
      ensures a in u[..j]
    {
      if j < |p| {
        assert u[j] == p[j];
        assert a in p[..j];
        var i :| 0 <= i < j && p[..j][i] == a;
        assert u[..j][i] == p[i];
      } else {
        var m := j - |p|;
        assert t[m] == u[j];
        assert a in t[..m];
        var i :| 0 <= i < m && t[..m][i] == a;
        assert u[..j][|p| + i] == t[i];
      }
    }
  }

  /** Some `b` happens after some `a` once every `b` needs an `a` first. */
  lemma BeforeFollows(t: seq<Event>, a: Event, b: Event)
    requires Before(t, a, b)
    ensures Follows(t, a, b)
  {
    var k :| 0 <= k < |t| && t[k] == b;
    assert a in t[..k];
    var i :| 0 <= i < k && t[..k][i] == a;
    assert t[i] == a;
  }

  /** `Follows` survives an earlier phase put in front. */
  lemma FollowsShift(p: seq<Event>, t: seq<Event>, a: Event, b: Event)
    requires Follows(t, a, b)
    ensures Follows(p + t, a, b)
  {
    var i, j :| 0 <= i < j < |t| && t[i] == a && t[j] == b;
    var u := p + t;
    assert u[|p| + i] == a && u[|p| + j] == b;
  }

  /** A trace without `b` meets any dependency of `b`. */
  lemma PrecededVacuous(t: seq<Event>, a: Event, b: Event)
    requires b !in t
    ensures Preceded(t, a, b)
  {
    forall j | 0 <= j < |t| ensures t[j] != b {
      assert t[j] in t;
    }
  }

  /** Every `a` of `t` comes before every `b` of `t`. */
  ghost predicate AllBefore(t: seq<Event>, a: Event, b: Event) {
    forall i, j :: 0 <= i < |t| && 0 <= j < |t| && t[i] == a && t[j] == b ==> i < j
  }

  /** All `a` of the first phase come before all `b` of the second one. */
  lemma AllBeforeConcat(p: seq<Event>, s: seq<Event>, a: Event, b: Event)
    requires a !in s && b !in p
    ensures AllBefore(p + s, a, b)
  {
    var u := p + s;
    forall k | 0 <= k < |u|
      ensures u[k] == a ==> k < |p|
      ensures u[k] == b ==> k >= |p|
    {
      if k < |p| {
        assert u[k] == p[k];
      } else {
        assert u[k] == s[k - |p|];
      }
    }
  }

  /** Appending a phase without `a` keeps every `a` before every `b`. */
  lemma AllBeforeExtend(t: seq<Event>, s: seq<Event>, a: Event, b: Event)
    requires AllBefore(t, a, b) && a !in s
    ensures AllBefore(t + s, a, b)
  {
    var u := t + s;
    forall k | |t| <= k < |u| ensures u[k] != a {
      assert u[k] == s[k - |t|];
    }
    forall k | 0 <= k < |t| ensures u[k] == t[k] {
    }
  }

  /** The first phase of three is what comes before the second one starts. */
  lemma PrefixOfConcat(q: seq<Event>, s: seq<Event>, r: seq<Event>)
    requires s != []
    ensures |q| < |q + s + r| && (q + s + r)[|q|] == s[0] && (q + s + r)[..|q|] == q
  {
  }

  /** An ordering that holds inside the one phase running `a` and `b` holds
      across the whole trace. */
  lemma AllBeforeMiddle(q: seq<Event>, s: seq<Event>, r: seq<Event>, a: Event, b: Event)
    requires a !in q && b !in q && a !in r && b !in r
    requires AllBefore(s, a, b)
    ensures AllBefore(q + s + r, a, b)
  {
    var u := q + s + r;
    forall k | 0 <= k < |u|
      ensures k < |q| ==> u[k] != a && u[k] != b
      ensures |q| <= k < |q| + |s| ==> u[k] == s[k - |q|]
      ensures |q| + |s| <= k ==> u[k] != a && u[k] != b
    {
      if k < |q| {
        assert u[k] == q[k];
      } else if k >= |q| + |s| {
        assert u[k] == r[k - |q| - |s|];
      }
    }
  }

  /** How many times `e` occurs in `t`. */
  function Count(t: seq<Event>, e: Event): (n: nat)
    ensures n <= |t|
  {
    if t == [] then 0 else (if t[0] == e then 1 else 0) + Count(t[1..], e)
  }

  /** Counting over two phases adds up. */
  lemma {:induction false} CountConcat(a: seq<Event>, b: seq<Event>, e: Event)
    ensures Count(a + b, e) == Count(a, e) + Count(b, e)
    decreases |a|
  {
    if a == [] {
      assert a + b == b;
    } else {
      assert (a + b)[1..] == a[1..] + b;
      CountConcat(a[1..], b, e);
    }
  }

  /** An event that does not occur is counted zero times, and one that is
      counted occurs. */
  lemma {:induction false} CountAbsent(t: seq<Event>, e: Event)
    ensures e !in t <==> Count(t, e) == 0
    decreases |t|
  {
    if t != [] {
      CountAbsent(t[1..], e);
      assert e in t <==> t[0] == e || e in t[1..];
    }
  }

  /** Only the middle phase contributes when the outer ones lack `e`. */
  lemma CountMiddle(p: seq<Event>, h: seq<Event>, l: seq<Event>, e: Event)
    requires e !in p && e !in l
    ensures Count(p + h + l, e) == Count(h, e)
  {
    CountAbsent(p, e);
    CountAbsent(l, e);
    CountConcat(p, h, e);
    CountConcat(p + h, l, e);
  }

  /** `s` when `c` holds, nothing otherwise: a step that a build option or a
      collaborator's answer can switch off. */
  function Opt(c: bool, s: seq<Event>): seq<Event> {
    if c then s else []
  }

  /** Membership in two phases run one after the other. */
  lemma InConcat(p: seq<Event>, s: seq<Event>, e: Event)
    ensures e in p + s <==> e in p || e in s
  {
    if e in p + s {
      var k :| 0 <= k < |p + s| && (p + s)[k] == e;
      if k >= |p| {
        assert s[k - |p|] == e;
      }
    }
  }

  /** An optional step made of one kind of event holds only that kind. */
  lemma OptKinds(c: bool, s: seq<Event>, e: Event)
    requires forall x :: x in s ==> x == e
    ensures forall x :: x in Opt(c, s) ==> x == e
  {
  }

  /** Regrouping a concatenation of three phases. */
  lemma AppendAssoc(a: seq<Event>, b: seq<Event>, c: seq<Event>)
    ensures a + (b + c) == a + b + c
  {
  }

  /** Splitting a concatenation where its first part ends. */
  lemma SplitAt(p: seq<Event>, s: seq<Event>)
    ensures (p + s)[..|p|] == p && (p + s)[|p|..] == s
  {
  }

  /** A `b` in the middle part with no `a` ahead of it in the first two parts:
      the dependency of `b` on `a` is not met. */
  lemma NotPrecededMiddle(p: seq<Event>, s: seq<Event>, l: seq<Event>, a: Event, b: Event, k: nat)
    requires k < |s| && s[k] == b
    requires a !in p && a !in s[..k]
    ensures !Preceded(p + s + l, a, b)
  {
    var t := p + s + l;
    assert t[|p| + k] == b;
    assert t[..|p| + k] == p + s[..k];
    InConcat(p, s[..k], a);
  }

  /** The first `x` of `p + d`, when `p` has none and `d` starts with one. */
  lemma FirstAfter(p: seq<Event>, d: seq<Event>, x: Event)
    requires x !in p && |d| > 0 && d[0] == x
    ensures var t := p + d; |p| < |t| && t[|p|] == x && t[..|p|] == p && x !in t[..|p|]
  {
    SplitAt(p, d);
  }
}
