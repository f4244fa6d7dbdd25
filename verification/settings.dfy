/** The notification switches on the Settings page. */
module Settings {
  /** The labels whose rows carry a switch. */
  const SwitchLabels: set<string> :=
    {"Email Notifications", "Push Notifications", "Telegram Sync", "SMS Alerts"}

  const InitialSwitches: map<string, bool> := map[
    "Email Notifications" := true, "Push Notifications" := true,
    "Telegram Sync" := false, "SMS Alerts" := true]

  /** The switch drawn as on: `toggleStates[label]` is truthy, and a label
      never stored reads as `undefined`, hence off. */
  predicate IsOn(m: map<string, bool>, row: string) {
    row in m && m[row]
  }

  /** `handleToggle(label)`: the label is stored as the negation of how it
      read; every other label keeps its value. */
  function Toggle(m: map<string, bool>, row: string): (r: map<string, bool>)
    ensures r.Keys == m.Keys + {row}
    ensures IsOn(r, row) <==> !IsOn(m, row)
    ensures forall l :: l in m && l != row ==> l in r && r[l] == m[l]
  {
    m[row := !IsOn(m, row)]
  }

  /** Switching twice leaves every switch looking as it did; the stored
      map gains the row with `false` if it was not there. */
  lemma ToggleTwice(m: map<string, bool>, row: string, other: string)
    ensures IsOn(Toggle(Toggle(m, row), row), other) == IsOn(m, other)
    ensures row in m ==> Toggle(Toggle(m, row), row) == m
    ensures row !in m ==> Toggle(Toggle(m, row), row) == m[row := false]
  {
  }

  /** The page starts with every switchable row stored, and only Telegram
      Sync off. */
  lemma InitialState()
    ensures InitialSwitches.Keys == SwitchLabels
    ensures forall l :: l in SwitchLabels ==> (IsOn(InitialSwitches, l) <==> l != "Telegram Sync")
  {
  }

  /** Toggling only ever changes one switch. */
  lemma ToggleIsLocal(m: map<string, bool>, row: string, other: string)
    requires other != row
    ensures IsOn(Toggle(m, row), other) == IsOn(m, other)
  {
  }
}
