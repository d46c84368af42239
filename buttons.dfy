/**
 * The six on-screen buttons: their fixed rectangles, pygame's point
 * containment test, and the scan that finds the button under the pointer.
 */
module Buttons {
  import opened Options

  datatype Button =
    | PlayButton | PauseButton | StopButton | NextButton | PrevButton | SelectFolderButton

  /** A pygame `Rect`: left, top, width, height. */
  datatype Rect = Rect(x: int, y: int, w: int, h: int)

  /** `Rect.collidepoint`: the left and top edges are inside, the right and bottom edges are not. */
  predicate Contains(r: Rect, px: int, py: int): (inside: bool)
    ensures inside ==> r.w > 0 && r.h > 0
  {
    r.x <= px < r.x + r.w && r.y <= py < r.y + r.h
  }

  const ButtonWidth := 100
  const ButtonHeight := 40
  const ButtonTop := 50
  /** `screen_width`: every button lies inside the window. */
  const ScreenWidth := 800

  /** The rectangle `setup_buttons` gives each button. */
  function ButtonRect(b: Button): (r: Rect)
    ensures r.y == ButtonTop && r.h == ButtonHeight
    ensures r.w == if b == SelectFolderButton then 150 else ButtonWidth
    ensures 20 <= r.x && r.x + r.w <= ScreenWidth
  {
    match b
    case PlayButton => Rect(20, ButtonTop, ButtonWidth, ButtonHeight)
    case PauseButton => Rect(140, ButtonTop, ButtonWidth, ButtonHeight)
    case StopButton => Rect(260, ButtonTop, ButtonWidth, ButtonHeight)
    case NextButton => Rect(380, ButtonTop, ButtonWidth, ButtonHeight)
    case PrevButton => Rect(500, ButtonTop, ButtonWidth, ButtonHeight)
    case SelectFolderButton => Rect(620, ButtonTop, 150, ButtonHeight)
  }

  /** The button dictionary in its insertion order, which is the order both scans visit it. */
  function Layout(): (layout: seq<(Button, Rect)>)
    ensures |layout| == 6
    ensures forall k :: 0 <= k < |layout| ==> layout[k].1 == ButtonRect(layout[k].0)
  {
    [ (PlayButton, ButtonRect(PlayButton)),
      (PauseButton, ButtonRect(PauseButton)),
      (StopButton, ButtonRect(StopButton)),
      (NextButton, ButtonRect(NextButton)),
      (PrevButton, ButtonRect(PrevButton)),
      (SelectFolderButton, ButtonRect(SelectFolderButton)) ]
  }

  /** Every button appears in the layout exactly once. */
  lemma LayoutListsEveryButtonOnce(b: Button)
    ensures exists k :: 0 <= k < |Layout()| && Layout()[k].0 == b
    ensures forall j, k :: 0 <= j < k < |Layout()| ==> Layout()[j].0 != Layout()[k].0
  {
    match b
    case PlayButton => assert Layout()[0].0 == b;
    case PauseButton => assert Layout()[1].0 == b;
    case StopButton => assert Layout()[2].0 == b;
    case NextButton => assert Layout()[3].0 == b;
    case PrevButton => assert Layout()[4].0 == b;
    case SelectFolderButton => assert Layout()[5].0 == b;
  }

  /** No point lies in two buttons' rectangles. */
  lemma ButtonsAreDisjoint(a: Button, b: Button, px: int, py: int)
    requires Contains(ButtonRect(a), px, py) && Contains(ButtonRect(b), px, py)
    ensures a == b
  {
  }

  /** Disjointness stated over layout positions, as the click scan needs it. */
  lemma LayoutIsDisjoint(j: int, k: int, px: int, py: int)
    requires 0 <= j < |Layout()| && 0 <= k < |Layout()|
    requires Contains(Layout()[j].1, px, py) && Contains(Layout()[k].1, px, py)
    ensures j == k
  {
  }

  /**
   * The first button in `layout` whose rectangle contains the point, as
   * the scan in `handle_hover` finds it; None when no rectangle does.
   */
  function HitTest(layout: seq<(Button, Rect)>, px: int, py: int): (hit: Option<Button>)
    ensures hit.None? <==> forall k :: 0 <= k < |layout| ==> !Contains(layout[k].1, px, py)
    ensures hit.Some? ==>
      exists k :: 0 <= k < |layout| && layout[k].0 == hit.value && Contains(layout[k].1, px, py) &&
        forall j :: 0 <= j < k ==> !Contains(layout[j].1, px, py)
  {
    if layout == [] then None
    else if Contains(layout[0].1, px, py) then Some(layout[0].0)
    else
      var rest := HitTest(layout[1..], px, py);
      assert forall k :: 1 <= k < |layout| ==> layout[k] == layout[1..][k - 1];
      rest
  }

  /** Over the real layout, the hit is the unique button containing the point. */
  lemma {:induction false} HitTestFindsContainingButton(px: int, py: int, b: Button)
    ensures HitTest(Layout(), px, py) == Some(b) <==> Contains(ButtonRect(b), px, py)
  {
    var hit := HitTest(Layout(), px, py);
    if Contains(ButtonRect(b), px, py) {
      LayoutListsEveryButtonOnce(b);
      var k :| 0 <= k < |Layout()| && Layout()[k].0 == b;
      assert hit.Some?;
      var c := hit.value;
      var j :| 0 <= j < |Layout()| && Layout()[j].0 == c && Contains(Layout()[j].1, px, py);
      ButtonsAreDisjoint(b, c, px, py);
    }
    if hit == Some(b) {
      var j :| 0 <= j < |Layout()| && Layout()[j].0 == b && Contains(Layout()[j].1, px, py);
    }
  }

  /** Over the real layout, a point outside every rectangle hits nothing. */
  lemma {:induction false} HitTestMissesOutside(px: int, py: int)
    ensures HitTest(Layout(), px, py).None? <==> forall b :: !Contains(ButtonRect(b), px, py)
  {
    if HitTest(Layout(), px, py).None? {
      forall b ensures !Contains(ButtonRect(b), px, py) {
        HitTestFindsContainingButton(px, py, b);
      }
    } else {
      HitTestFindsContainingButton(px, py, HitTest(Layout(), px, py).value);
    }
  }
}
