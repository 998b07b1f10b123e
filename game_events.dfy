/**
 * Rule evaluation (src/game_event_processor.rs): which configured event actions fire for a new
 * telemetry snapshot, given the health seen at the previous one.
 */
module GameEvents {
  import opened Wrappers
  import opened Text
  import opened Configuration
  import opened Messages

  /** The coordinator's memory of the previous snapshot, updated in place on every evaluation. */
  class GameStateSnapshot {
    var lastHealthPercentage: Option<real>

    constructor ()
      ensures lastHealthPercentage == None
    {
      lastHealthPercentage := None;
    }
  }

  /** Health changes at or below this size are treated as noise. */
  const DamageThreshold: real := 0.01

  /** Both readings exist and health went down by more than the threshold. */
  predicate HealthDropped(current: Option<real>, last: Option<real>) {
    current.Some? && last.Some? && current.value < last.value && last.value - current.value > DamageThreshold
  }

  /** Rules are recognised by a keyword in their name; only the damage keywords have an effect. */
  predicate IsDamageRule(name: string) {
    Contains(name, "урона") || Contains(name, "damage")
  }

  /** The rules that a health drop triggers: enabled ones whose name marks them as damage rules. */
  predicate RespondsToDamage(rule: EventActionSetting) {
    rule.enabled && IsDamageRule(rule.name)
  }

  /** The outcome of the evaluation loop: per rule, in order, its action if the rule fires. */
  function FiringActions(rules: seq<EventActionSetting>, current: Option<real>, last: Option<real>): (r: seq<DeviceAction>)
    ensures |r| <= |rules|
    ensures r != [] ==> current.Some? && last.Some? && current.value < last.value
  {
    if rules == [] then []
    else
      var init := rules[..|rules| - 1];
      var rule := rules[|rules| - 1];
      FiringActions(init, current, last)
        + (if RespondsToDamage(rule) && HealthDropped(current, last) then [rule.deviceAction] else [])
  }

  /** Reference definition: the actions of the damage rules, in settings order. */
  function DamageActions(rules: seq<EventActionSetting>): (r: seq<DeviceAction>)
    ensures |r| <= |rules|
    ensures forall a :: a in r <==> exists i :: 0 <= i < |rules| && RespondsToDamage(rules[i]) && rules[i].deviceAction == a
  {
    if rules == [] then []
    else
      var init := rules[..|rules| - 1];
      var rule := rules[|rules| - 1];
      var r := DamageActions(init) + (if RespondsToDamage(rule) then [rule.deviceAction] else []);
      assert forall i :: 0 <= i < |init| ==> init[i] == rules[i];
      r
  }

  /**
   * Damage actions keep settings order, one per damage rule: those of joined rule lists are
   * those of the halves, joined, and a single rule contributes its action exactly when it is an
   * enabled damage rule. Together these fix the result action by action.
   */
  lemma {:induction false} DamageActionsAppend(first: seq<EventActionSetting>, second: seq<EventActionSetting>)
    ensures DamageActions(first + second) == DamageActions(first) + DamageActions(second)
    ensures |second| == 1 ==>
              DamageActions(second) == if RespondsToDamage(second[0]) then [second[0].deviceAction] else []
    decreases |second|
  {
    if second == [] {
      assert first + second == first;
    } else {
      var init := second[..|second| - 1];
      assert (first + second)[..|first + second| - 1] == first + init;
      assert (first + second)[|first + second| - 1] == second[|second| - 1];
      DamageActionsAppend(first, init);
    }
  }

  /**
   * All damage rules fire together or none does: the result is every damage rule's action when
   * health dropped, and nothing otherwise (in particular, nothing without a previous reading).
   */
  lemma {:induction false} FiringIsAllOrNothing(rules: seq<EventActionSetting>, current: Option<real>, last: Option<real>)
    ensures FiringActions(rules, current, last) == if HealthDropped(current, last) then DamageActions(rules) else []
    decreases |rules|
  {
    if rules != [] {
      FiringIsAllOrNothing(rules[..|rules| - 1], current, last);
    }
  }

  /**
   * `process_war_thunder_data`: evaluate every rule against the new snapshot and the remembered
   * health, then remember the new health (absent included).
   */
  method ProcessWarThunderData(indicators: Indicators, settings: ApplicationSettings, previous: GameStateSnapshot)
    returns (actions: seq<DeviceAction>)
    modifies previous
    ensures actions == FiringActions(settings.eventActions, indicators.healthPercentage, old(previous.lastHealthPercentage))
    ensures previous.lastHealthPercentage == indicators.healthPercentage
  {
    var rules := settings.eventActions;
    var last := previous.lastHealthPercentage;
    actions := [];
    var i := 0;
    while i < |rules|
      invariant 0 <= i <= |rules|
      invariant actions == FiringActions(rules[..i], indicators.healthPercentage, last)
    {
      var rule := rules[i];
      assert rules[..i + 1][..i] == rules[..i];
      if rule.enabled {
        if IsDamageRule(rule.name) {
          if indicators.healthPercentage.Some? && last.Some? {
            var current, lastHealth := indicators.healthPercentage.value, last.value;
            if current < lastHealth && lastHealth - current > DamageThreshold {
              actions := actions + [rule.deviceAction];
            }
          }
        }
      }
      i := i + 1;
    }
    assert rules[..i] == rules;
    previous.lastHealthPercentage := indicators.healthPercentage;
  }
}
