/**
 * The track selection menu: one item per track, shown one at a time and
 * slid left and right; selecting an unlocked track makes it the scene's
 * active track and closes the menu. Each unlocked item draws a row of ten
 * stars, lit according to the best position reached on the track.
 * Animation and drawing are not part of this model.
 */
module TrackSelection {
  import opened Wrappers

  /** The parts of a track that the menu reads. */
  datatype Track = Track(name: string, locked: bool)

  /** A menu item: its track and the best position reached on it (-1 when none). */
  datatype TrackItem = TrackItem(track: Track, bestPos: int)

  const NumStars: nat := 10

  datatype StarColour = Yellow | Grey

  /** Star i is lit when a position has been reached and it is at most 10 - i. */
  predicate Lit(i: int, bestPos: int) {
    bestPos != -1 && NumStars - i >= bestPos
  }

  /** How many stars are lit: none without a position, else 11 - bestPos clamped to 0..10. */
  function LitCount(bestPos: int): (n: nat)
    ensures n <= NumStars
  {
    if bestPos == -1 then 0
    else if 11 - bestPos < 0 then 0
    else if 11 - bestPos > NumStars then NumStars
    else 11 - bestPos
  }

  /** The number of yellow stars in a row. */
  function Yellows(cs: seq<StarColour>): nat {
    if cs == [] then 0
    else Yellows(cs[..|cs| - 1]) + (if cs[|cs| - 1] == Yellow then 1 else 0)
  }

  /** The star colours renderStars draws: none for a locked track, else ten. */
  method StarColours(item: TrackItem) returns (colours: seq<StarColour>)
    ensures item.track.locked ==> colours == []
    ensures !item.track.locked ==> |colours| == NumStars
    ensures forall i :: 0 <= i < |colours| ==> (colours[i] == Yellow <==> Lit(i, item.bestPos))
  {
    colours := [];
    if !item.track.locked {
      var i := 0;
      while i < NumStars
        invariant 0 <= i <= NumStars && |colours| == i
        invariant forall k :: 0 <= k < i ==> (colours[k] == Yellow <==> Lit(k, item.bestPos))
      {
        if item.bestPos != -1 && NumStars - i >= item.bestPos {
          colours := colours + [Yellow];
        } else {
          colours := colours + [Grey];
        }
        i := i + 1;
      }
    }
  }

  /** The lit stars of a row form a prefix: a lit star has only lit stars before it. */
  lemma LitStarsArePrefix(i: int, j: int, bestPos: int)
    requires 0 <= i <= j && Lit(j, bestPos)
    ensures Lit(i, bestPos)
  {
  }

  /** In a row drawn for bestPos, exactly LitCount(bestPos) stars are yellow. */
  lemma {:induction false} YellowsOfRow(cs: seq<StarColour>, bestPos: int)
    requires |cs| <= NumStars
    requires forall i :: 0 <= i < |cs| ==> (cs[i] == Yellow <==> Lit(i, bestPos))
    ensures |cs| == NumStars ==> Yellows(cs) == LitCount(bestPos)
    ensures bestPos == -1 ==> Yellows(cs) == 0
    ensures bestPos != -1 ==> Yellows(cs) == Clamp(11 - bestPos, |cs|)
  {
    if cs != [] {
      YellowsOfRow(cs[..|cs| - 1], bestPos);
    }
  }

  /** x limited to 0..hi. */
  function Clamp(x: int, hi: nat): nat {
    if x < 0 then 0 else if x > hi then hi else x
  }

  /** Scene: the track the race will be run on. */
  class Scene {
    var activeTrack: Option<Track>

    constructor ()
      ensures activeTrack == None
    {
      activeTrack := None;
    }
  }

  class TrackSelectionMenu {
    const scene: Scene
    var items: seq<TrackItem>
    var currentIndex: int
    var itemsToShow: seq<int>
    var selectedTrack: Option<Track>
    var wrapAround: bool
    var isDone: bool

    /** The current index is a valid item position, or 0 while the menu is empty. */
    ghost predicate Valid()
      reads this
    {
      0 <= currentIndex && (if items == [] then currentIndex == 0 else currentIndex < |items|)
    }

    constructor (s: Scene)
      ensures Valid() && scene == s
      ensures items == [] && selectedTrack == None && !wrapAround && !isDone
    {
      scene := s;
      items := [];
      currentIndex := 0;
      itemsToShow := [];
      selectedTrack := None;
      wrapAround := false;
      isDone := false;
    }

    /** addTrack: append an item and show only the first one. */
    method AddTrack(item: TrackItem)
      modifies this
      ensures Valid()
      ensures items == old(items) + [item] && currentIndex == 0 && itemsToShow == [0]
      ensures selectedTrack == old(selectedTrack) && wrapAround == old(wrapAround) && isDone == old(isDone)
    {
      items := items + [item];
      currentIndex := 0;
      itemsToShow := [0];
    }

    /** left: move to the previous item unless at the first; both items are shown while sliding. */
    method Left()
      requires Valid()
      modifies this
      ensures Valid()
      ensures old(currentIndex) > 0 ==> currentIndex == old(currentIndex) - 1 &&
                                        itemsToShow == [old(currentIndex), currentIndex]
      ensures old(currentIndex) == 0 ==> currentIndex == 0 && itemsToShow == old(itemsToShow)
      ensures items == old(items) && selectedTrack == old(selectedTrack)
      ensures wrapAround == old(wrapAround) && isDone == old(isDone)
    {
      var prevIndex := currentIndex;
      if prevIndex > 0 {
        currentIndex := currentIndex - 1;
        itemsToShow := [prevIndex, currentIndex];
      }
    }

    /** right: move to the next item unless at the last; both items are shown while sliding. */
    method Right()
      requires Valid()
      modifies this
      ensures Valid()
      ensures old(currentIndex) + 1 < |items| ==> currentIndex == old(currentIndex) + 1 &&
                                                  itemsToShow == [old(currentIndex), currentIndex]
      ensures old(currentIndex) + 1 >= |items| ==> currentIndex == old(currentIndex) && itemsToShow == old(itemsToShow)
      ensures items == old(items) && selectedTrack == old(selectedTrack)
      ensures wrapAround == old(wrapAround) && isDone == old(isDone)
    {
      var prevIndex := currentIndex;
      if prevIndex + 1 < |items| {
        currentIndex := currentIndex + 1;
        itemsToShow := [prevIndex, currentIndex];
      }
    }

    /** up: the same as left. */
    method Up()
      requires Valid()
      modifies this
      ensures Valid()
      ensures old(currentIndex) > 0 ==> currentIndex == old(currentIndex) - 1 &&
                                        itemsToShow == [old(currentIndex), currentIndex]
      ensures old(currentIndex) == 0 ==> currentIndex == 0 && itemsToShow == old(itemsToShow)
      ensures items == old(items) && selectedTrack == old(selectedTrack)
      ensures wrapAround == old(wrapAround) && isDone == old(isDone)
    {
      Left();
    }

    /** down: the same as right. */
    method Down()
      requires Valid()
      modifies this
      ensures Valid()
      ensures old(currentIndex) + 1 < |items| ==> currentIndex == old(currentIndex) + 1 &&
                                                  itemsToShow == [old(currentIndex), currentIndex]
      ensures old(currentIndex) + 1 >= |items| ==> currentIndex == old(currentIndex) && itemsToShow == old(itemsToShow)
      ensures items == old(items) && selectedTrack == old(selectedTrack)
      ensures wrapAround == old(wrapAround) && isDone == old(isDone)
    {
      Right();
    }

    /**
     * selectCurrentItem: an unlocked track becomes the selected and the
     * scene's active track and the menu is done; a locked one changes
     * nothing.
     */
    method SelectCurrentItem()
      requires Valid() && items != []
      modifies this, scene
      ensures Valid()
      ensures var t := old(items[currentIndex].track);
              if t.locked then
                selectedTrack == old(selectedTrack) && scene.activeTrack == old(scene.activeTrack) && isDone == old(isDone)
              else
                selectedTrack == Some(t) && scene.activeTrack == Some(t) && isDone
      ensures items == old(items) && currentIndex == old(currentIndex) && itemsToShow == old(itemsToShow)
      ensures wrapAround == old(wrapAround)
    {
      var selection := items[currentIndex].track;
      if !selection.locked {
        selectedTrack := Some(selection);
        scene.activeTrack := selectedTrack;
        isDone := true;
      }
    }

    function SelectedTrack(): Option<Track>
      reads this
    {
      selectedTrack
    }
  }
}
