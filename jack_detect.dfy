/** The headphone-jack detector: two consecutive raw samples must agree before
    the reported level changes. */
module JackDetect {

  /** The two statics of the detector: the reported level and the level of the
      previous raw sample, both as "plugged" (true) or "not plugged" (false). */
  datatype DebounceState = DebounceState(debounced: bool, last: bool)

  /** Both statics start out false. */
  const Initial := DebounceState(false, false)

  /** The input has a pull-up: a high pin means nothing is plugged in. */
  function PluggedLevel(gpioHigh: bool): bool {
    !gpioHigh
  }

  /** One call of the detector, branch by branch. */
  function Step(s: DebounceState, gpioHigh: bool): DebounceState {
    if gpioHigh then
      DebounceState(if !s.last then false else s.debounced, false)
    else
      DebounceState(if s.last then true else s.debounced, true)
  }

  /** The debounce rule: the new level is adopted when it repeats the previous
      raw level, otherwise the reported level is kept; the raw level is remembered. */
  lemma StepRule(s: DebounceState, gpioHigh: bool)
    ensures Step(s, gpioHigh).last == PluggedLevel(gpioHigh)
    ensures PluggedLevel(gpioHigh) == s.last ==> Step(s, gpioHigh).debounced == PluggedLevel(gpioHigh)
    ensures PluggedLevel(gpioHigh) != s.last ==> Step(s, gpioHigh).debounced == s.debounced
  {
  }

  /** The state after a run of samples, read one after the other. */
  function Final(s: DebounceState, gpio: seq<bool>): DebounceState
    decreases |gpio|
  {
    if gpio == [] then s else Final(Step(s, gpio[0]), gpio[1..])
  }

  /** The value returned by each call in a run of samples. */
  function Outputs(s: DebounceState, gpio: seq<bool>): (r: seq<bool>)
    ensures |r| == |gpio|
    decreases |gpio|
  {
    if gpio == [] then []
    else
      var next := Step(s, gpio[0]);
      [next.debounced] + Outputs(next, gpio[1..])
  }

  /** The raw level that sample `k` is compared with: the previous sample, or
      the remembered level for the first one. */
  function PreviousLevel(s: DebounceState, gpio: seq<bool>, k: nat): bool
    requires k < |gpio|
  {
    if k == 0 then s.last else PluggedLevel(gpio[k - 1])
  }

  /** Sample `k` confirms its level: it agrees with the raw sample before it. */
  predicate Agrees(s: DebounceState, gpio: seq<bool>, k: nat)
    requires k < |gpio|
  {
    PluggedLevel(gpio[k]) == PreviousLevel(s, gpio, k)
  }

  /** Reading one more sample is one more step. */
  lemma {:induction false} FinalSnoc(s: DebounceState, gpio: seq<bool>, g: bool)
    ensures Final(s, gpio + [g]) == Step(Final(s, gpio), g)
    decreases |gpio|
  {
    if gpio == [] {
      assert gpio + [g] == [g];
      assert [g][1..] == [];
    } else {
      assert (gpio + [g])[0] == gpio[0];
      assert (gpio + [g])[1..] == gpio[1..] + [g];
      FinalSnoc(Step(s, gpio[0]), gpio[1..], g);
    }
  }

  /** The `k`-th answer is the reported level once samples `0..k` have been read. */
  lemma {:induction false} OutputIsFinal(s: DebounceState, gpio: seq<bool>, k: nat)
    requires k < |gpio|
    ensures Outputs(s, gpio)[k] == Final(s, gpio[..k + 1]).debounced
    decreases k
  {
    if k == 0 {
      assert gpio[..1] == [gpio[0]];
      assert [gpio[0]][1..] == [];
    } else {
      OutputIsFinal(Step(s, gpio[0]), gpio[1..], k - 1);
      assert gpio[..k + 1][0] == gpio[0];
      assert gpio[..k + 1][1..] == gpio[1..][..k];
    }
  }

  /** After each call the remembered raw level is that of the sample just read. */
  lemma {:induction false} FinalRemembersLastSample(s: DebounceState, gpio: seq<bool>)
    requires gpio != []
    ensures Final(s, gpio).last == PluggedLevel(gpio[|gpio| - 1])
    decreases |gpio|
  {
    if |gpio| > 1 {
      FinalRemembersLastSample(Step(s, gpio[0]), gpio[1..]);
    }
  }

  /** Reference characterisation: the reported level is that of the latest
      sample that agreed with its predecessor; samples after it change nothing. */
  lemma {:induction false} LatestAgreementWins(s: DebounceState, gpio: seq<bool>, k: nat)
    requires k < |gpio| && Agrees(s, gpio, k)
    requires forall j :: k < j < |gpio| ==> !Agrees(s, gpio, j)
    ensures Final(s, gpio).debounced == PluggedLevel(gpio[k])
    decreases |gpio|
  {
    var next := Step(s, gpio[0]);
    var rest := gpio[1..];
    assert forall j :: 0 <= j < |rest| ==> (Agrees(next, rest, j) <==> Agrees(s, gpio, j + 1));
    if k == 0 {
      NoAgreementKeepsLevel(next, rest);
    } else {
      LatestAgreementWins(next, rest, k - 1);
    }
  }

  /** Reference characterisation, other half: without any agreeing sample the
      reported level is the one the detector started with. */
  lemma {:induction false} NoAgreementKeepsLevel(s: DebounceState, gpio: seq<bool>)
    requires forall j :: 0 <= j < |gpio| ==> !Agrees(s, gpio, j)
    ensures Final(s, gpio).debounced == s.debounced
    decreases |gpio|
  {
    if gpio != [] {
      var next := Step(s, gpio[0]);
      var rest := gpio[1..];
      assert !Agrees(s, gpio, 0);
      assert forall j :: 0 <= j < |rest| ==> (Agrees(next, rest, j) <==> Agrees(s, gpio, j + 1));
      NoAgreementKeepsLevel(next, rest);
    }
  }

  /** A single-sample glitch never changes the output: a sample that differs from
      the one before it returns what the previous call returned, and a sample
      that repeats the one before it returns that sample's level. */
  lemma GlitchIgnored(s: DebounceState, gpio: seq<bool>, k: nat)
    requires 0 < k < |gpio|
    ensures gpio[k] != gpio[k - 1] ==> Outputs(s, gpio)[k] == Outputs(s, gpio)[k - 1]
    ensures gpio[k] == gpio[k - 1] ==> Outputs(s, gpio)[k] == PluggedLevel(gpio[k])
  {
    OutputIsFinal(s, gpio, k);
    OutputIsFinal(s, gpio, k - 1);
    assert gpio[..k + 1] == gpio[..k] + [gpio[k]];
    FinalSnoc(s, gpio[..k], gpio[k]);
    FinalRemembersLastSample(s, gpio[..k]);
  }

  /** The detector starts by reporting "not plugged", whatever the first sample. */
  lemma FirstResultNotPlugged(gpioHigh: bool)
    ensures Outputs(Initial, [gpioHigh]) == [false]
  {
  }

  /** Plugged levels 0,1,1,0,0,1 (pin levels high,low,low,high,high,low)
      are reported as 0,0,1,1,0,0. */
  lemma ExampleRun()
    ensures Outputs(Initial, [true, false, false, true, true, false])
         == [false, false, true, true, false, false]
  {
  }

  /** The detector with its two statics. */
  class JackDetector {
    var debouncedState: bool
    var lastState: bool

    function State(): DebounceState
      reads this
    {
      DebounceState(debouncedState, lastState)
    }

    constructor ()
      ensures State() == Initial
    {
      debouncedState := false;
      lastState := false;
    }

    /** `isJackPlugged`: read the pin once, update both statics, report the level. */
    method IsJackPlugged(gpioHigh: bool) returns (plugged: bool)
      modifies this
      ensures State() == Step(old(State()), gpioHigh)
      ensures plugged == debouncedState
    {
      if gpioHigh {
        if !lastState {
          debouncedState := false;
        }
        lastState := false;
      } else {
        if lastState {
          debouncedState := true;
        }
        lastState := true;
      }
      plugged := debouncedState;
    }
  }

  /** A fresh detector polled with the samples of `ExampleRun` gives the same answers. */
  method ExampleClient() returns (answers: seq<bool>)
    ensures answers == [false, false, true, true, false, false]
  {
    var d := new JackDetector();
    var a0 := d.IsJackPlugged(true);
    var a1 := d.IsJackPlugged(false);
    var a2 := d.IsJackPlugged(false);
    var a3 := d.IsJackPlugged(true);
    var a4 := d.IsJackPlugged(true);
    var a5 := d.IsJackPlugged(false);
    answers := [a0, a1, a2, a3, a4, a5];
  }
}
