/** The feedback page: a text box, the notes added in this session, and the
    list of every note kept in browser storage under `userFeedback`. Both
    lists get each new note, and removing a note removes it from both. */
module Feedback {
  import opened Prelude
  import opened Navigation

  /** The note made from the box. The clock is read twice: `idNow` is the
      reading whose decimal text becomes the id, `stampNow` the later reading
      kept as the timestamp (the two differ when a millisecond passes between
      them). The text is trimmed. */
  function NewPoint(text: string, idNow: nat, stampNow: nat): (p: FeedbackPoint)
    ensures p.text == Trim(text) && p.timestamp == stampNow
    ensures p.id == NatToString(idNow)
  {
    FeedbackPoint(NatToString(idNow), Trim(text), stampNow)
  }

  /** `points.filter(point => point.id !== id)`. */
  function Without(points: seq<FeedbackPoint>, id: string): (r: seq<FeedbackPoint>)
    ensures forall i :: 0 <= i < |r| ==> r[i].id != id && r[i] in points
    ensures forall i :: 0 <= i < |points| && points[i].id != id ==> points[i] in r
  {
    Filter(points, (p: FeedbackPoint) => p.id != id)
  }

  /** Removing keeps the other notes in their order. */
  lemma WithoutKeepsOrder(points: seq<FeedbackPoint>, id: string)
    ensures IsSubsequence(Without(points, id), points)
  {
    FilterIsSubsequence(points, (p: FeedbackPoint) => p.id != id);
  }

  /** Removing twice is removing once. */
  lemma WithoutIdempotent(points: seq<FeedbackPoint>, id: string)
    ensures Without(Without(points, id), id) == Without(points, id)
  {
    var r := Without(points, id);
    FilterAll(r, (p: FeedbackPoint) => p.id != id);
  }

  /** A note added at a time no other note carries, then removed by its id,
      leaves the list as it was. */
  lemma AddThenRemove(points: seq<FeedbackPoint>, text: string, idNow: nat, stampNow: nat)
    requires forall i :: 0 <= i < |points| ==> points[i].id != NatToString(idNow)
    ensures Without(points + [NewPoint(text, idNow, stampNow)], NatToString(idNow)) == points
  {
    var keep := (p: FeedbackPoint) => p.id != NatToString(idNow);
    FilterAppend(points, [NewPoint(text, idNow, stampNow)], keep);
    FilterAll(points, keep);
    assert Filter([NewPoint(text, idNow, stampNow)], keep) == [];
  }

  /** Two notes whose ids were read in the same millisecond share an id, so
      removing one removes both, whatever their timestamps. */
  lemma SameMillisecondRemovesBoth(a: string, b: string, idNow: nat, stampA: nat, stampB: nat)
    ensures Without([NewPoint(a, idNow, stampA), NewPoint(b, idNow, stampB)], NatToString(idNow)) == []
  {
    var keep := (p: FeedbackPoint) => p.id != NatToString(idNow);
    var x, y := NewPoint(a, idNow, stampA), NewPoint(b, idNow, stampB);
    assert [x, y] == [x] + [y];
    FilterAppend([x], [y], keep);
    assert Filter([x], keep) == [] && Filter([y], keep) == [];
  }

  /** The Back button, `navigate(location.state?.from || '/')`: `from`, or
      "/" when it is missing or empty. Unlike `getReferrer` it passes no
      state, so even from the investments page it goes back by path alone. */
  function FeedbackBack(from: Option<string>): (d: Destination)
    ensures d.Path?
    ensures from.Some? && from.value != "" ==> d.path == from.value
    ensures from.None? || from == Some("") ==> d.path == "/"
  {
    Referrer(from, None, "/")
  }

  class Page {
    /** The notes added since the page was opened. */
    var points: seq<FeedbackPoint>
    /** The text box. */
    var current: string
    /** `JSON.parse(localStorage.getItem('userFeedback') || '[]')`. */
    var stored: seq<FeedbackPoint>

    /** A fresh page over what storage holds; nothing stored reads as `[]`. */
    constructor(saved: Option<seq<FeedbackPoint>>)
      ensures points == [] && current == ""
      ensures stored == (if saved.Some? then saved.value else [])
    {
      points := [];
      current := "";
      stored := if saved.Some? then saved.value else [];
    }

    method SetCurrent(text: string)
      modifies this
      ensures current == text && points == old(points) && stored == old(stored)
    {
      current := text;
    }

    /** The Add button is disabled exactly when the trimmed box is empty. */
    function AddDisabled(): (r: bool)
      reads this
      ensures r <==> forall i :: 0 <= i < |current| ==> IsSpace(current[i])
    {
      TrimEmptyIff(current);
      Trim(current) == ""
    }

    /** `addFeedbackPoint` with the two clock readings: nothing happens for a
        blank box; otherwise the note goes to the end of both lists and the box
        is cleared. */
    method AddFeedbackPoint(idNow: nat, stampNow: nat)
      modifies this
      ensures old(AddDisabled()) ==> points == old(points) && current == old(current) && stored == old(stored)
      ensures !old(AddDisabled()) ==>
        points == old(points) + [NewPoint(old(current), idNow, stampNow)]
        && stored == old(stored) + [NewPoint(old(current), idNow, stampNow)]
        && current == ""
    {
      if Trim(current) != "" {
        var newPoint := FeedbackPoint(NatToString(idNow), Trim(current), stampNow);
        points := points + [newPoint];
        current := "";
        stored := stored + [newPoint];
      }
    }

    /** `removeFeedbackPoint(id)`: every note with that id leaves both lists. */
    method RemoveFeedbackPoint(id: string)
      modifies this
      ensures points == Without(old(points), id) && stored == Without(old(stored), id)
      ensures current == old(current)
    {
      points := Filter(points, (p: FeedbackPoint) => p.id != id);
      stored := Filter(stored, (p: FeedbackPoint) => p.id != id);
    }

    /** Enter without Shift adds the note; every other key leaves the page as it is. */
    method HandleKeyPress(key: string, shiftKey: bool, idNow: nat, stampNow: nat)
      modifies this
      ensures !(key == "Enter" && !shiftKey) || old(AddDisabled()) ==>
        points == old(points) && current == old(current) && stored == old(stored)
      ensures key == "Enter" && !shiftKey && !old(AddDisabled()) ==>
        points == old(points) + [NewPoint(old(current), idNow, stampNow)]
        && stored == old(stored) + [NewPoint(old(current), idNow, stampNow)]
        && current == ""
    {
      if key == "Enter" && !shiftKey {
        AddFeedbackPoint(idNow, stampNow);
      }
    }
  }
}
