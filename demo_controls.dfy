/** The floating demo panel: the attack timer, its mm:ss rendering and the
    scenario buttons. */
module DemoControls {
  import opened Text
  import opened UiTypes

  /** The attacks offered in the dropdown, in display order. */
  const ATTACK_IDS: seq<ScenarioType> :=
    [BruteForceScenario, SqlInjectionScenario, DdosScenario, RansomwareScenario]

  /** formatTime: zero-padded minutes, a colon, zero-padded seconds. */
  function FormatTime(seconds: nat): (r: string)
    ensures |r| >= 5 && r[|r| - 3] == ':'
    ensures IsDigitString(r[..|r| - 3]) && DigitsValue(r[..|r| - 3]) == seconds / 60
    ensures IsDigitString(r[|r| - 2..]) && DigitsValue(r[|r| - 2..]) == seconds % 60
    ensures DigitsValue(r[..|r| - 3]) * 60 + DigitsValue(r[|r| - 2..]) == seconds
    ensures DigitsValue(r[|r| - 2..]) < 60
    ensures seconds < 6000 ==> |r| == 5
  {
    var mins := Pad2(NatToString(seconds / 60));
    var secs := Pad2(NatToString(seconds % 60));
    Pad2NatToString(seconds / 60);
    Pad2NatToString(seconds % 60);
    var r := mins + ":" + secs;
    assert r[..|r| - 3] == mins;
    assert r[|r| - 2..] == secs;
    r
  }

  /** The panel's state; `scenario` and `isStreaming` are the page's state the panel
      reads and sets through its props. */
  class DemoPanel {
    var scenario: ScenarioType
    var isStreaming: bool
    var showDropdown: bool
    var timer: nat

    /** The timer runs only during an attack: in the normal scenario it reads 0. */
    predicate Valid()
      reads this
    {
      scenario == NormalFlow ==> timer == 0
    }

    constructor(scenario: ScenarioType, isStreaming: bool)
      ensures Valid()
      ensures this.scenario == scenario && this.isStreaming == isStreaming
      ensures !showDropdown && timer == 0
    {
      this.scenario := scenario;
      this.isStreaming := isStreaming;
      showDropdown := false;
      timer := 0;
    }

    /** The effect on `[scenario]`: back in the normal scenario the timer is reset;
        under an attack the running count is kept. */
    method ScenarioChanged()
      modifies this
      ensures scenario == old(scenario) && isStreaming == old(isStreaming) && showDropdown == old(showDropdown)
      ensures timer == if scenario == NormalFlow then 0 else old(timer)
      ensures Valid()
    {
      if scenario == NormalFlow {
        timer := 0;
      }
    }

    /** One second of the interval, which exists only while an attack runs. */
    method Tick()
      requires Valid()
      modifies this
      ensures scenario == old(scenario) && isStreaming == old(isStreaming) && showDropdown == old(showDropdown)
      ensures timer == if scenario != NormalFlow then old(timer) + 1 else old(timer)
      ensures Valid()
    {
      if scenario != NormalFlow {
        timer := timer + 1;
      }
    }

    /** HEALTHY FLOW: nothing happens when already normal; otherwise back to normal
        with the dropdown closed, and the effect resets the timer. */
    method HealthyFlow()
      requires Valid()
      modifies this
      ensures old(scenario) == NormalFlow ==>
        scenario == old(scenario) && showDropdown == old(showDropdown) && timer == old(timer)
      ensures old(scenario) != NormalFlow ==> scenario == NormalFlow && !showDropdown && timer == 0
      ensures isStreaming == old(isStreaming)
      ensures Valid()
    {
      if scenario == NormalFlow {
        return;
      }
      scenario := NormalFlow;
      showDropdown := false;
      ScenarioChanged();
    }

    /** The SIMULATE ATTACK button opens or closes the dropdown. */
    method ToggleDropdown()
      modifies this
      ensures showDropdown == !old(showDropdown)
      ensures scenario == old(scenario) && isStreaming == old(isStreaming) && timer == old(timer)
    {
      showDropdown := !showDropdown;
    }

    /** Choosing an attack from the dropdown: the scenario changes, the dropdown
        closes, and a timer already running keeps counting. */
    method SelectAttack(id: ScenarioType)
      requires id in ATTACK_IDS
      requires Valid()
      modifies this
      ensures scenario == id && !showDropdown
      ensures timer == old(timer) && isStreaming == old(isStreaming)
      ensures Valid()
    {
      scenario := id;
      showDropdown := false;
      ScenarioChanged();
    }

    /** STOP ATTACK: normal scenario, dropdown closed, timer at 0. */
    method StopAttack()
      modifies this
      ensures scenario == NormalFlow && !showDropdown && timer == 0
      ensures isStreaming == old(isStreaming)
      ensures Valid()
    {
      scenario := NormalFlow;
      showDropdown := false;
      timer := 0;
      ScenarioChanged();
    }

    /** FEED_LIVE / FEED_PAUSED. */
    method ToggleStreaming()
      modifies this
      ensures isStreaming == !old(isStreaming)
      ensures scenario == old(scenario) && showDropdown == old(showDropdown) && timer == old(timer)
    {
      isStreaming := !isStreaming;
    }

    /** RESET_SYS: the page's reset (which returns to the normal scenario), then the
        timer at 0 and the dropdown closed. */
    method Reset()
      modifies this
      ensures scenario == NormalFlow && !showDropdown && timer == 0
      ensures isStreaming == old(isStreaming)
      ensures Valid()
    {
      scenario := NormalFlow;
      timer := 0;
      showDropdown := false;
      ScenarioChanged();
    }
  }
}
