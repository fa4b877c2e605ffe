/** The floating selection toolbar: shown above a non-empty text selection, hidden by an
    empty selection or by a click anywhere outside it. */
module BubbleMenu {
  import opened Wrappers

  /** A screen position in pixels. */
  datatype Point = Point(x: real, y: real)

  /** The screen coordinates of a document position (left and top edges). */
  datatype Coords = Coords(left: real, top: real)

  /** The toolbar's position for a selection: centred between its two ends, 50 pixels above
      its start. */
  function MenuPosition(start: Coords, end: Coords): (r: Point)
    ensures r.x - start.left == end.left - r.x
    ensures r.y + 50.0 == start.top
  {
    Point((start.left + end.left) / 2.0, start.top - 50.0)
  }

  /** What the link button does with the prompt's answer. */
  datatype LinkCommand = NoCommand | UnsetLink | SetLink(href: string)

  /** A cancelled prompt does nothing, an empty answer removes the link over the whole
      linked range, any other answer becomes the link's address as typed. */
  function LinkDecision(answer: Option<string>): (r: LinkCommand)
    ensures r == NoCommand <==> answer.None?
    ensures r == UnsetLink <==> answer == Some("")
    ensures r.SetLink? <==> answer.Some? && answer.value != []
    ensures r.SetLink? ==> r.href == answer.value
  {
    match answer
    case None => NoCommand
    case Some(url) => if url == "" then UnsetLink else SetLink(url)
  }

  class Toolbar {
    /** Whether an editor is attached; without one no listener is installed. */
    const hasEditor: bool
    var isVisible: bool
    var position: Point

    constructor (hasEditor: bool)
      ensures this.hasEditor == hasEditor && !isVisible && position == Point(0.0, 0.0)
    {
      this.hasEditor := hasEditor;
      isVisible := false;
      position := Point(0.0, 0.0);
    }

    /** The toolbar is drawn, at `position`, only while visible and with an editor. */
    function Rendered(): (r: Option<Point>)
      reads this
      ensures r.Some? <==> isVisible && hasEditor
      ensures r.Some? ==> r.value == position
    {
      if isVisible && hasEditor then Some(position) else None
    }

    /** The editor's selection changed to `from..to`; `start` and `end` are the screen
        coordinates of its two ends. */
    method OnSelectionUpdate(from: nat, to: nat, start: Coords, end: Coords)
      modifies this
      ensures hasEditor ==> (isVisible <==> from != to)
      ensures hasEditor && from != to ==> position == MenuPosition(start, end)
      ensures !hasEditor || from == to ==> position == old(position)
      ensures !hasEditor ==> isVisible == old(isVisible)
    {
      if hasEditor {
        if from != to {
          position := MenuPosition(start, end);
          isVisible := true;
        } else {
          isVisible := false;
        }
      }
    }

    /** A click in the page. Clicks on the toolbar stop there; any other click hides it. */
    method OnClick(insideToolbar: bool)
      modifies this`isVisible
      ensures hasEditor && !insideToolbar ==> !isVisible && Rendered().None?
      ensures !hasEditor || insideToolbar ==> isVisible == old(isVisible)
    {
      if hasEditor && !insideToolbar {
        isVisible := false;
      }
    }
  }
}
