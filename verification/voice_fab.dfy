/** The floating voice-assistant button: opening the panel starts
    listening, closing it stops. */
module VoiceFab {
  datatype Fab = Fab(isOpen: bool, isListening: bool)

  const Closed: Fab := Fab(false, false)

  /** `handleToggle`: open flips; listening follows what open becomes. */
  function Toggle(f: Fab): (r: Fab)
    ensures r.isOpen != f.isOpen
    ensures r.isListening == r.isOpen
  {
    Fab(!f.isOpen, !f.isOpen)
  }

  /** The state after `k` presses from a closed button. */
  function Pressed(k: nat): (r: Fab)
    ensures r.isListening == r.isOpen
  {
    if k == 0 then Closed else Toggle(Pressed(k - 1))
  }

  /** After an odd number of presses the panel is open and listening, after
      an even number closed and silent. */
  lemma {:induction false} PressParity(k: nat)
    ensures Pressed(k) == Fab(k % 2 == 1, k % 2 == 1)
  {
    if k > 0 {
      PressParity(k - 1);
    }
  }

  /** From a reachable state two presses change nothing. */
  lemma TwoPressesRestore(k: nat)
    ensures Toggle(Toggle(Pressed(k))) == Pressed(k)
  {
  }
}
