/** The tarot unlock gate (app.py:189-214): on every pass of the script
    the completion rate decides whether the session's card slot may
    hold a card, and the one button the gate shows may change it. */
module TarotGate {
  import opened Wrappers
  import opened Gateways

  /** The completion rate at which the gate opens. */
  const UnlockRate := 60

  /** Which of the gate's buttons was pressed in this pass: the draw
      button (shown only while the slot is empty) or the reset button
      (shown only while it holds a card). */
  datatype Press = NoPress | DrawPress | ResetPress

  predicate Unlocked(rate: int)
  {
    rate >= UnlockRate
  }

  /** The slot after one pass. `reply` is what the tarot API would answer
      if a draw is made. Below the threshold the slot is emptied; above
      it an empty slot is filled by a draw and a filled slot is emptied
      by a reset. */
  function GateStep(rate: int, slot: Option<TarotCard>, press: Press, reply: Option<TarotCard>): (next: Option<TarotCard>)
    ensures !Unlocked(rate) ==> next.None?
    ensures Unlocked(rate) && slot.None? && press == DrawPress ==> next == Some(GetTarotCard(reply))
    ensures Unlocked(rate) && slot.Some? && press == ResetPress ==> next.None?
    ensures next.Some? && next != slot ==> Unlocked(rate) && slot.None? && press == DrawPress
    ensures next.None? && slot.Some? ==> !Unlocked(rate) || press == ResetPress
    ensures Unlocked(rate) && press == NoPress ==> next == slot
  {
    if rate >= UnlockRate then
      if slot.None? then
        if press == DrawPress then Some(GetTarotCard(reply)) else None
      else
        if press == ResetPress then None else slot
    else
      None
  }

  /** Whether the pass ends in `st.rerun()`: a draw or a reset did happen. */
  function Reruns(rate: int, slot: Option<TarotCard>, press: Press): (rerun: bool)
    ensures rerun ==> Unlocked(rate) && press != NoPress
  {
    rate >= UnlockRate && ((slot.None? && press == DrawPress) || (slot.Some? && press == ResetPress))
  }

  /** A rerun happens exactly when a button of the open gate changed the
      slot; locking the gate empties the slot without a rerun. */
  lemma RerunIffChanged(rate: int, slot: Option<TarotCard>, press: Press, reply: Option<TarotCard>)
    ensures Reruns(rate, slot, press) <==> Unlocked(rate) && GateStep(rate, slot, press, reply) != slot
  {
  }

  /** Re-evaluating the gate without a press changes nothing further:
      the state depends on the rate, not on how often the script ran. */
  lemma GateSettles(rate: int, slot: Option<TarotCard>, press: Press, reply: Option<TarotCard>, reply': Option<TarotCard>)
    ensures var next := GateStep(rate, slot, press, reply);
            GateStep(rate, next, NoPress, reply') == next
  {
  }

  /** A card drawn before the rate fell under the threshold is gone for
      good: raising the rate again finds an empty slot. */
  lemma RelockDiscardsCard(low: int, high: int, slot: Option<TarotCard>, press: Press, reply: Option<TarotCard>, reply': Option<TarotCard>)
    requires !Unlocked(low)
    ensures GateStep(high, GateStep(low, slot, press, reply), NoPress, reply').None?
  {
  }
}
