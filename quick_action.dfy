/**
 * `QuickActionManager`: the hand-off of a dictated sentence from the
 * Shortcuts intent to the add-bill sheet.  The intent stores the text and
 * raises a flag; the sheet takes the text exactly once.
 */
module QuickAction {
  import opened Common

  class QuickActionManager {
    /** `pendingInputText`: the sentence waiting to be consumed. */
    var pendingInputText: Option<string>
    /** `shouldShowAddTransaction`: whether the add-bill sheet should open. */
    var shouldShowAddTransaction: bool

    /** Nothing pending, no sheet requested. */
    constructor ()
      ensures pendingInputText == None && !shouldShowAddTransaction
    {
      pendingInputText := None;
      shouldShowAddTransaction := false;
    }

    /** `handleIncomingText(_:)`: the newest sentence replaces any pending one and the sheet is requested. */
    method HandleIncomingText(text: string)
      modifies this
      ensures pendingInputText == Some(text) && shouldShowAddTransaction
    {
      pendingInputText := Some(text);
      shouldShowAddTransaction := true;
    }

    /** `consumePendingText()`: hands out the pending sentence and forgets it; the flag is left alone. */
    method ConsumePendingText() returns (text: Option<string>)
      modifies this`pendingInputText
      ensures text == old(pendingInputText)
      ensures pendingInputText == None
    {
      text := pendingInputText;
      pendingInputText := None;
    }
  }

  /**
   * A sentence handed in is consumed once: the first consume returns it, a
   * second returns nothing, and the sheet request survives both.
   */
  method ConsumeOnce(m: QuickActionManager, s: string) returns (first: Option<string>, second: Option<string>)
    modifies m
    ensures first == Some(s) && second == None
    ensures m.pendingInputText == None && m.shouldShowAddTransaction
  {
    m.HandleIncomingText(s);
    first := m.ConsumePendingText();
    second := m.ConsumePendingText();
  }

  /** Two sentences in a row before any consume: the later one wins. */
  method LastWriteWins(m: QuickActionManager, s: string, t: string) returns (taken: Option<string>)
    modifies m
    ensures taken == Some(t) && m.pendingInputText == None
  {
    m.HandleIncomingText(s);
    m.HandleIncomingText(t);
    taken := m.ConsumePendingText();
  }
}
