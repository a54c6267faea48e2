/**
 * The swipeable card: a horizontal drag moves the card by the drag distance,
 * clamped to 150 pixels either way; past 120 pixels the first action on the
 * side being revealed is marked, and releasing the touch fires the marked
 * action and puts the card back.
 *
 * An action's callback is not modelled: firing an action appends its id to
 * the card's `fired` log.
 */
module Swipe {
  import opened Types

  datatype SwipeAction = SwipeAction(id: string, caption: string, color: string, bgColor: string)

  /** The largest distance the card moves either way. */
  const MaxSwipe: int := 150
  /** The distance past which a side's actions are shown. */
  const SwipeThreshold: int := 80
  /** The distance past which an action is marked and fires on release. */
  const ActionThreshold: int := 120

  function Abs(x: int): nat
  {
    if x < 0 then -x else x
  }

  function Min(a: int, b: int): int
  {
    if a <= b then a else b
  }

  function Max(a: int, b: int): int
  {
    if a >= b then a else b
  }

  /** The drag delta clamped into [-150, 150]. */
  function Clamp(delta: int): (r: int)
    ensures -MaxSwipe <= r <= MaxSwipe
    ensures -MaxSwipe <= delta <= MaxSwipe ==> r == delta
    ensures delta > MaxSwipe ==> r == MaxSwipe
    ensures delta < -MaxSwipe ==> r == -MaxSwipe
  {
    Max(-MaxSwipe, Min(MaxSwipe, delta))
  }

  /** A positive offset reveals the left actions, any other the right ones. */
  function SideActions(x: int, left: seq<SwipeAction>, right: seq<SwipeAction>): seq<SwipeAction>
  {
    if x > 0 then left else right
  }

  /** The index the move handler computes: floor(|x| / 120) - 1, capped at the last action. */
  function ActionIndex(x: int, n: nat): int
  {
    Min(Abs(x) / ActionThreshold - 1, n - 1)
  }

  /** Within the clamp range and past the threshold, the computed index is always the first action. */
  lemma ActionIndexIsFirst(x: int, n: nat)
    requires ActionThreshold < Abs(x) <= MaxSwipe && n > 0
    ensures ActionIndex(x, n) == 0
  {
  }

  /** `id || null`: an empty id marks nothing. */
  function IdOrNull(id: string): Option<string>
  {
    if id == [] then None else Some(id)
  }

  /**
   * The mark after a touch move to offset x: cleared at or below the action
   * threshold; past it, the side's action at the computed index; left as it
   * was when that side has no actions.
   */
  function MoveTrigger(x: int, left: seq<SwipeAction>, right: seq<SwipeAction>, prev: Option<string>): (r: Option<string>)
    requires -MaxSwipe <= x <= MaxSwipe
    ensures Abs(x) <= ActionThreshold ==> r == None
    ensures Abs(x) > ActionThreshold && |SideActions(x, left, right)| > 0
            ==> r == IdOrNull(SideActions(x, left, right)[0].id)
    ensures Abs(x) > ActionThreshold && |SideActions(x, left, right)| == 0 ==> r == prev
  {
    if Abs(x) > ActionThreshold then
      var actions := SideActions(x, left, right);
      if |actions| > 0 then
        ActionIndexIsFirst(x, |actions|);
        IdOrNull(actions[ActionIndex(x, |actions|)].id)
      else prev
    else None
  }

  /** The first action with the given id. */
  function FindAction(actions: seq<SwipeAction>, id: string): (r: Option<SwipeAction>)
    ensures r.Some? ==> r.value in actions && r.value.id == id
    ensures r.None? <==> forall a :: a in actions ==> a.id != id
  {
    if actions == [] then None
    else if actions[0].id == id then Some(actions[0])
    else FindAction(actions[1..], id)
  }

  /**
   * The action a touch end fires: only past the action threshold, only when
   * an action is marked, and only the one on the revealed side with the
   * marked id.
   */
  function EndFires(x: int, marked: Option<string>, left: seq<SwipeAction>, right: seq<SwipeAction>): (r: Option<SwipeAction>)
    ensures r.Some? ==> Abs(x) > ActionThreshold && r.value in SideActions(x, left, right)
                        && marked == Some(r.value.id) && r.value.id != []
    ensures r.None? <==> Abs(x) <= ActionThreshold || marked.None? || marked.value == []
                         || forall a :: a in SideActions(x, left, right) ==> a.id != marked.value
  {
    if Abs(x) > ActionThreshold then
      var actions := SideActions(x, left, right);
      if |actions| > 0 && marked.Some? && marked.value != [] then FindAction(actions, marked.value)
      else None
    else None
  }

  /**
   * A swipe past the threshold that ends where it was marked fires the first
   * action of the revealed side (when its id is not empty), and a swipe that
   * ends at or below the threshold fires nothing.
   */
  lemma SwipeFiresFirstAction(x: int, left: seq<SwipeAction>, right: seq<SwipeAction>, prev: Option<string>)
    requires -MaxSwipe <= x <= MaxSwipe
    ensures var side := SideActions(x, left, right);
            var fired := EndFires(x, MoveTrigger(x, left, right, prev), left, right);
            (Abs(x) > ActionThreshold && |side| > 0 && side[0].id != [] ==> fired == Some(side[0]))
            && (Abs(x) <= ActionThreshold ==> fired.None?)
  {
    var side := SideActions(x, left, right);
    if Abs(x) > ActionThreshold && |side| > 0 && side[0].id != [] {
      assert MoveTrigger(x, left, right, prev) == Some(side[0].id);
    }
  }

  /** The mark, when set, is the id of the first action on one side. */
  predicate MarkFromSides(marked: Option<string>, left: seq<SwipeAction>, right: seq<SwipeAction>)
  {
    marked.Some? ==> (|left| > 0 && marked.value == left[0].id) || (|right| > 0 && marked.value == right[0].id)
  }

  /** A touch move keeps the mark one of the two first actions. */
  lemma MoveKeepsMark(x: int, left: seq<SwipeAction>, right: seq<SwipeAction>, prev: Option<string>)
    requires -MaxSwipe <= x <= MaxSwipe
    requires MarkFromSides(prev, left, right)
    ensures MarkFromSides(MoveTrigger(x, left, right, prev), left, right)
  {
  }

  /** The card's drag state; the action lists and the disabled flag are its props. */
  class SwipeCard {
    var translateX: int
    var isDragging: bool
    var actionTriggered: Option<string>
    var startX: int
    var currentX: int
    var fired: seq<string>
    const leftActions: seq<SwipeAction>
    const rightActions: seq<SwipeAction>
    const disabled: bool

    /**
     * The offset stays within the clamp range, a card at rest sits at 0 with
     * nothing marked, a disabled card never drags, and the mark is always the
     * first action of a side.
     */
    predicate Valid()
      reads this
    {
      -MaxSwipe <= translateX <= MaxSwipe
      && (!isDragging ==> translateX == 0 && actionTriggered.None?)
      && (disabled ==> !isDragging)
      && MarkFromSides(actionTriggered, leftActions, rightActions)
    }

    constructor (left: seq<SwipeAction>, right: seq<SwipeAction>, isDisabled: bool)
      ensures Valid()
      ensures leftActions == left && rightActions == right && disabled == isDisabled
      ensures translateX == 0 && !isDragging && actionTriggered.None? && fired == []
    {
      leftActions := left;
      rightActions := right;
      disabled := isDisabled;
      translateX := 0;
      isDragging := false;
      actionTriggered := None;
      startX := 0;
      currentX := 0;
      fired := [];
    }

    /** handleTouchStart: start dragging from x, unless disabled. */
    method TouchStart(x: int)
      requires Valid()
      modifies this
      ensures Valid()
      ensures disabled ==> unchanged(this)
      ensures !disabled ==> isDragging && startX == x && currentX == x
                            && translateX == old(translateX) && actionTriggered == old(actionTriggered)
                            && fired == old(fired)
    {
      if disabled {
        return;
      }
      isDragging := true;
      startX := x;
      currentX := x;
    }

    /** handleTouchMove: follow the finger, clamped, and mark or clear an action. */
    method TouchMove(x: int)
      requires Valid()
      modifies this
      ensures Valid()
      ensures !old(isDragging) || disabled ==> unchanged(this)
      ensures old(isDragging) && !disabled ==>
                isDragging && currentX == x && startX == old(startX)
                && translateX == Clamp(x - old(startX))
                && actionTriggered == MoveTrigger(translateX, leftActions, rightActions, old(actionTriggered))
                && fired == old(fired)
    {
      if !isDragging || disabled {
        return;
      }
      currentX := x;
      var deltaX := currentX - startX;
      var clampedDelta := Clamp(deltaX);
      translateX := clampedDelta;
      MoveKeepsMark(clampedDelta, leftActions, rightActions, actionTriggered);
      actionTriggered := MoveTrigger(clampedDelta, leftActions, rightActions, actionTriggered);
    }

    /** handleTouchEnd: fire the marked action past the threshold, then return to rest. */
    method TouchEnd()
      requires Valid()
      modifies this
      ensures Valid()
      ensures !old(isDragging) || disabled ==> unchanged(this)
      ensures old(isDragging) && !disabled ==>
                !isDragging && translateX == 0 && actionTriggered.None?
                && startX == old(startX) && currentX == old(currentX)
                && var a := EndFires(old(translateX), old(actionTriggered), leftActions, rightActions);
                   fired == old(fired) + (if a.Some? then [a.value.id] else [])
    {
      if !isDragging || disabled {
        return;
      }
      isDragging := false;
      var a := EndFires(translateX, actionTriggered, leftActions, rightActions);
      if a.Some? {
        fired := fired + [a.value.id];
      }
      translateX := 0;
      actionTriggered := None;
    }

    /** handleMouseDown: as a touch start. */
    method MouseDown(x: int)
      requires Valid()
      modifies this
      ensures Valid()
      ensures disabled ==> unchanged(this)
      ensures !disabled ==> isDragging && startX == x && currentX == x
                            && translateX == old(translateX) && actionTriggered == old(actionTriggered)
                            && fired == old(fired)
    {
      if disabled {
        return;
      }
      isDragging := true;
      startX := x;
      currentX := x;
    }

    /** handleMouseMove: follow the pointer, clamped; the mouse never marks an action. */
    method MouseMove(x: int)
      requires Valid()
      modifies this
      ensures Valid()
      ensures !old(isDragging) || disabled ==> unchanged(this)
      ensures old(isDragging) && !disabled ==>
                isDragging && currentX == x && startX == old(startX)
                && translateX == Clamp(x - old(startX))
                && actionTriggered == old(actionTriggered) && fired == old(fired)
    {
      if !isDragging || disabled {
        return;
      }
      currentX := x;
      translateX := Clamp(currentX - startX);
    }

    /** handleMouseUp, also bound to mouse leave: back to rest, firing nothing. */
    method MouseUp()
      requires Valid()
      modifies this
      ensures Valid()
      ensures !old(isDragging) || disabled ==> unchanged(this)
      ensures old(isDragging) && !disabled ==>
                !isDragging && translateX == 0 && actionTriggered.None?
                && startX == old(startX) && currentX == old(currentX) && fired == old(fired)
    {
      if !isDragging || disabled {
        return;
      }
      isDragging := false;
      translateX := 0;
      actionTriggered := None;
    }

    /** Whether a side's action strip is shown: it has actions and the card is past 80 pixels that way. */
    function ActionsVisible(left: bool): (r: bool)
      reads this
      ensures r ==> Abs(translateX) > SwipeThreshold
      ensures r <==> if left then |leftActions| > 0 && translateX > SwipeThreshold
                     else |rightActions| > 0 && translateX < -SwipeThreshold
    {
      if left then |leftActions| > 0 && translateX > SwipeThreshold
      else |rightActions| > 0 && translateX < -SwipeThreshold
    }
  }

  // ---------------------------------------------------------------------
  // The pre-configured habit and task cards
  // ---------------------------------------------------------------------

  datatype Sides = Sides(left: seq<SwipeAction>, right: seq<SwipeAction>)

  function Ids(actions: seq<SwipeAction>): (r: seq<string>)
    ensures |r| == |actions| && forall i :: 0 <= i < |actions| ==> r[i] == actions[i].id
  {
    if actions == [] then [] else [actions[0].id] + Ids(actions[1..])
  }

  function CompleteAction(doneLabel: string, completed: bool): SwipeAction
  {
    SwipeAction("complete", if completed then "Undo" else doneLabel, "text-white",
                if completed then "bg-orange-500" else "bg-green-500")
  }

  const DeleteAction: SwipeAction := SwipeAction("delete", "Delete", "text-white", "bg-red-500")

  /** SwipeableHabitCard: each flag says whether that callback was given. */
  function HabitCardActions(onComplete: bool, onEdit: bool, onDelete: bool, completed: bool): (s: Sides)
    ensures Ids(s.left) == (if onComplete then ["complete"] else [])
    ensures Ids(s.right) == (if onEdit then ["edit"] else []) + (if onDelete then ["delete"] else [])
    ensures onComplete ==> s.left[0].caption == (if completed then "Undo" else "Complete")
  {
    Sides(
      if onComplete then [CompleteAction("Complete", completed)] else [],
      (if onEdit then [SwipeAction("edit", "Edit", "text-white", "bg-blue-500")] else [])
      + (if onDelete then [DeleteAction] else []))
  }

  /** SwipeableTaskCard: as the habit card, with archive in place of edit and "Done" for complete. */
  function TaskCardActions(onComplete: bool, onArchive: bool, onDelete: bool, completed: bool): (s: Sides)
    ensures Ids(s.left) == (if onComplete then ["complete"] else [])
    ensures Ids(s.right) == (if onArchive then ["archive"] else []) + (if onDelete then ["delete"] else [])
    ensures onComplete ==> s.left[0].caption == (if completed then "Undo" else "Done")
  {
    Sides(
      if onComplete then [CompleteAction("Done", completed)] else [],
      (if onArchive then [SwipeAction("archive", "Archive", "text-white", "bg-gray-500")] else [])
      + (if onDelete then [DeleteAction] else []))
  }

  /**
   * On a habit card a right swipe past the threshold completes the habit, and
   * a left swipe past it edits when an edit callback is given and deletes
   * otherwise.
   */
  lemma HabitCardSwipes(onComplete: bool, onEdit: bool, onDelete: bool, completed: bool, x: int, prev: Option<string>)
    requires -MaxSwipe <= x <= MaxSwipe && Abs(x) > ActionThreshold
    ensures var s := HabitCardActions(onComplete, onEdit, onDelete, completed);
            var fired := EndFires(x, MoveTrigger(x, s.left, s.right, prev), s.left, s.right);
            (x > 0 && onComplete ==> fired.Some? && fired.value.id == "complete")
            && (x < 0 && onEdit ==> fired.Some? && fired.value.id == "edit")
            && (x < 0 && !onEdit && onDelete ==> fired.Some? && fired.value.id == "delete")
  {
    var s := HabitCardActions(onComplete, onEdit, onDelete, completed);
    SwipeFiresFirstAction(x, s.left, s.right, prev);
    var side := SideActions(x, s.left, s.right);
    if |side| > 0 {
      assert Ids(side)[0] == side[0].id;
    }
  }
}
