/** `MainTabs`: the five tabs in their fixed order, the clamped one-step move
    and the swipe that triggers it. */
module Tabs {
  import opened Text

  datatype ExoTab = FeedTab | ExploreTab | NotificationsTab | ChatsTab | ProfileTab

  /** `ExoTab.allCases`, in declaration order. */
  const AllTabs: seq<ExoTab> := [FeedTab, ExploreTab, NotificationsTab, ChatsTab, ProfileTab]

  /** A swipe whose predicted end lies further than this from the start
      changes tab. */
  const SwipeThreshold: real := 40.0

  /** `ExoTab.allCases.firstIndex(of:)` */
  function TabIndex(t: ExoTab): (r: nat)
    ensures r < |AllTabs| && AllTabs[r] == t
  {
    match t
    case FeedTab => 0
    case ExploreTab => 1
    case NotificationsTab => 2
    case ChatsTab => 3
    case ProfileTab => 4
  }

  /** Every tab occurs exactly once, at its own index. */
  lemma TabsInOrder()
    ensures |AllTabs| == 5
    ensures forall i :: 0 <= i < |AllTabs| ==> TabIndex(AllTabs[i]) == i
  {
  }

  /** `max(0, min(allCases.count - 1, current + direction))` */
  function MovedIndex(current: int, direction: int): (r: int)
    ensures 0 <= r < |AllTabs|
  {
    Max(0, Min(|AllTabs| - 1, current + direction))
  }

  /** From a tab, one step left or right moves one place, except past either
      end, where it stays put. */
  lemma MovedIndexSteps(current: int, direction: int)
    requires 0 <= current < |AllTabs|
    requires direction == 1 || direction == -1
    ensures current == 0 && direction == -1 ==> MovedIndex(current, direction) == current
    ensures current == |AllTabs| - 1 && direction == 1 ==> MovedIndex(current, direction) == current
    ensures !(current == 0 && direction == -1) && !(current == |AllTabs| - 1 && direction == 1)
      ==> MovedIndex(current, direction) == current + direction
  {
  }

  class MainTabs {
    var selection: ExoTab

    constructor ()
      ensures selection == FeedTab
    {
      selection := FeedTab;
    }

    /** `moveTab(_:)`: select the tab at the clamped index; reports whether
        the selection changed (which is when the haptic feedback fires). */
    method MoveTab(direction: int) returns (moved: bool)
      modifies this
      ensures selection == AllTabs[MovedIndex(TabIndex(old(selection)), direction)]
      ensures moved <==> selection != old(selection)
    {
      var current := TabIndex(selection);
      var newIndex := Max(0, Min(|AllTabs| - 1, current + direction));
      if newIndex == current {
        return false;
      }
      selection := AllTabs[newIndex];
      moved := true;
    }

    /** The drag gesture's `onEnded`: a swipe left beyond the threshold moves
        to the next tab, a swipe right beyond it to the previous one. */
    method OnDragEnded(predictedWidth: real)
      modifies this
      ensures predictedWidth < -SwipeThreshold ==> selection == AllTabs[MovedIndex(TabIndex(old(selection)), 1)]
      ensures predictedWidth > SwipeThreshold ==> selection == AllTabs[MovedIndex(TabIndex(old(selection)), -1)]
      ensures -SwipeThreshold <= predictedWidth <= SwipeThreshold ==> selection == old(selection)
    {
      if predictedWidth < -SwipeThreshold {
        var _ := MoveTab(1);
      }
      if predictedWidth > SwipeThreshold {
        var _ := MoveTab(-1);
      }
    }
  }
}
