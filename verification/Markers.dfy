/** The words interrupts and ends of turns go by: in the marker file, and in what
    an agent reports. */
module Markers {
  import opened Text
  import opened Interrupts
  import opened Wrappers

  // ---- The marker file ----

  function MarkerToken(interrupt: Interrupt): string {
    match interrupt case Cancel => "cancel" case Pause => "pause" case Kill => "kill"
  }

  function MarkerText(interrupt: Interrupt, stamp: string): string {
    MarkerToken(interrupt) + " requested at " + stamp + "\n"
  }

  /** The first word decides; whatever is unknown is a cancel. */
  function FromMarkerText(text: string): Interrupt {
    var (word, _) := Word(TrimStart(text));
    if word == "pause" then Pause else if word == "kill" then Kill else Cancel
  }

  /** The interrupt the operator asked for is the one read back, from the marker
      as from the status it settles at; and no other status stands for one. */
  lemma InterruptReadsBack(interrupt: Interrupt, stamp: string)
    ensures FromMarkerText(MarkerText(interrupt, stamp)) == interrupt
    ensures forall status :: InterruptOf(status) == Some(interrupt) <==> status == JobStatus(interrupt)
  {
    var token, rest := MarkerToken(interrupt), " requested at " + stamp + "\n";
    assert MarkerText(interrupt, stamp) == token + rest;
    assert TrimStart(token + rest) == token + rest;
    WordEndsAtSpace(token, rest);
    assert "pause"[0] == 'p' && "kill"[0] == 'k' && "cancel"[0] == 'c';
  }

  /** A marker of an older build, whatever it holds, reads as a cancel unless it
      opens with one of the two other words. */
  lemma OtherMarkersCancel(text: string)
    ensures FromMarkerText(text) == Cancel <==>
            Word(TrimStart(text)).0 != "pause" && Word(TrimStart(text)).0 != "kill"
  {
  }

  // ---- The end of a turn ----

  /** The job status of the word a turn reports for its end. */
  function SessionJobStatus(word: string): Status {
    if word == "completed" || word == "end_turn" then Finished
    else if word == "cancelled" then Cancelled
    else if word == "failed" || word == "interrupted" then Failed
    else Observed
  }

  /** The words of one status are not those of another, and only the word
      `cancelled` keeps a turn from being cached as cancelled. */
  lemma StatusOfWord(word: string)
    ensures SessionJobStatus(word) == Cancelled <==> word == "cancelled"
    ensures SessionJobStatus(word) == Finished <==> word in {"completed", "end_turn"}
    ensures SessionJobStatus(word) == Failed <==> word in {"failed", "interrupted"}
    ensures SessionJobStatus(word) == Observed <==>
            word !in {"completed", "end_turn", "cancelled", "failed", "interrupted"}
  {
    assert "completed"[1] == 'o' && "cancelled"[1] == 'a' && "end_turn"[0] == 'e';
    assert "failed"[0] == 'f' && "interrupted"[0] == 'i';
  }
}
