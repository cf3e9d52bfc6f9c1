/**
 * The reviewer's screen: a list of assigned submissions, a detail view for
 * the one selected, and a five-star overall rating on that view. The state is
 * the selected id (none while the list is shown) and the rating.
 *
 * `Next` states the effect of one click; the class `ReviewFlow` holds the two
 * state variables as fields and its handlers are proved against `Next`. A
 * click on a button the current view does not render changes nothing.
 */
module ReviewPicker {
  import opened Util

  datatype Status = Pending | Completed

  /** One entry of the assignment list. */
  datatype Assignment = Assignment(id: int, title: string, kind: string, due: string, status: Status)

  /** The fixed list the component shows, in display order. */
  const AssignedReviews: seq<Assignment> := [
    Assignment(1, "Peer Submission #A547", "Academic Paper", "Jan 26, 2026", Pending),
    Assignment(2, "Peer Submission #B892", "Code Review", "Jan 25, 2026", Pending),
    Assignment(3, "Peer Submission #C123", "Design Work", "Jan 28, 2026", Completed)
  ]

  /** The ids of the list: the only values a selection can take. */
  predicate IsAssignedId(id: int)
  {
    exists i :: 0 <= i < |AssignedReviews| && AssignedReviews[i].id == id
  }

  /** The assigned ids are 1, 2 and 3, one per entry. */
  lemma AssignedIds()
    ensures forall id :: IsAssignedId(id) <==> id in {1, 2, 3}
    ensures forall i, j :: 0 <= i < j < |AssignedReviews| ==> AssignedReviews[i].id != AssignedReviews[j].id
  {
    forall id | id in {1, 2, 3} ensures IsAssignedId(id) {
      assert AssignedReviews[id - 1].id == id;
    }
  }

  /** The highest rating a star click can set. */
  const MaxRating := 5

  /** The component's two state variables. */
  datatype Picker = Picker(selected: Option<int>, rating: int)

  const Initial := Picker(None, 0)

  /** Which of the two views is rendered. */
  datatype View = ListView | DetailView

  function ViewOf(p: Picker): View
  {
    if p.selected == None then ListView else DetailView
  }

  /** The buttons of the two views. */
  datatype Click =
    | Choose(index: int)   // the button of list entry `index`, list view
    | BackToReviews        // detail view
    | Star(star: int)      // star button 1..5, detail view
    | BackToDashboard      // list view, leaves through onBack

  /** Every reachable state: the selection is empty or an assigned id, and the rating is within 0..5. */
  predicate Inv(p: Picker)
  {
    && (p.selected.None? || IsAssignedId(p.selected.value))
    && 0 <= p.rating <= MaxRating
  }

  /** The state after one click. */
  function Next(p: Picker, c: Click): (r: Picker)
    ensures Inv(p) ==> Inv(r)
    ensures c.Choose? && p.selected == None && 0 <= c.index < |AssignedReviews| ==>
      r == Picker(Some(AssignedReviews[c.index].id), p.rating)
    ensures c == BackToReviews ==> r == Picker(None, p.rating)
    ensures c.Star? && p.selected != None && 1 <= c.star <= MaxRating ==> r == p.(rating := c.star)
    ensures r.rating != p.rating ==> c.Star? && r.rating == c.star && 1 <= c.star <= MaxRating
    ensures r.selected != p.selected ==> c.Choose? || c == BackToReviews
    ensures c == BackToDashboard ==> r == p
  {
    match c
    case Choose(i) =>
      if p.selected == None && 0 <= i < |AssignedReviews| then p.(selected := Some(AssignedReviews[i].id)) else p
    case BackToReviews => p.(selected := None)
    case Star(s) =>
      if p.selected != None && 1 <= s <= MaxRating then p.(rating := s) else p
    case BackToDashboard => p
  }

  /** Whether the click hands control back to the dashboard through `onBack`. */
  function LeavesFlow(p: Picker, c: Click): bool
  {
    c == BackToDashboard && ViewOf(p) == ListView
  }

  /**
   * Each view's buttons act only in that view: the list is shown exactly when
   * nothing is selected, the detail view's buttons do nothing on the list, and
   * the list's buttons do nothing on the detail view.
   */
  lemma ViewGatesClicks(p: Picker, c: Click)
    ensures ViewOf(p) == ListView <==> p.selected == None
    ensures ViewOf(p) == ListView && (c.Star? || c == BackToReviews) ==> Next(p, c) == p
    ensures ViewOf(p) == DetailView && c.Choose? ==> Next(p, c) == p
    ensures ViewOf(p) == DetailView ==> !LeavesFlow(p, c)
  {
  }

  /** Opening an entry and going back returns to the list exactly as it was, rating included. */
  lemma ChooseThenBack(p: Picker, i: int)
    requires p.selected == None && 0 <= i < |AssignedReviews|
    ensures ViewOf(Next(p, Choose(i))) == DetailView
    ensures Next(Next(p, Choose(i)), BackToReviews) == p
  {
  }

  /** The state after a sequence of clicks, first click first. */
  function Run(p: Picker, clicks: seq<Click>): Picker
    decreases |clicks|
  {
    if clicks == [] then p else Run(Next(p, clicks[0]), clicks[1..])
  }

  /** Every reachable state is valid: the rating never leaves 0..5 and a selection is always an assigned id. */
  lemma {:induction false} RunKeepsInv(p: Picker, clicks: seq<Click>)
    requires Inv(p)
    ensures Inv(Run(p, clicks))
    decreases |clicks|
  {
    if clicks != [] {
      RunKeepsInv(Next(p, clicks[0]), clicks[1..]);
    }
  }

  /** From the initial state every reached selection is 1, 2 or 3 and every rating is within 0..5. */
  lemma ReachableIsValid(clicks: seq<Click>)
    ensures Run(Initial, clicks).selected.Some? ==> Run(Initial, clicks).selected.value in {1, 2, 3}
    ensures 0 <= Run(Initial, clicks).rating <= MaxRating
  {
    RunKeepsInv(Initial, clicks);
    AssignedIds();
  }

  /** The label of an entry's button. */
  function ButtonLabel(a: Assignment): string
  {
    if a.status == Pending then "Start Review" else "View Review"
  }

  /** The button reads "Start Review" exactly for a pending entry, "View Review" exactly for the others. */
  lemma LabelFollowsStatus(a: Assignment)
    ensures ButtonLabel(a) == "Start Review" <==> a.status == Pending
    ensures ButtonLabel(a) == "View Review" <==> a.status != Pending
  {
    assert "Start Review"[0] != "View Review"[0];
  }

  /** Star `s` (1..5) is drawn filled when `s <= rating`. */
  function Stars(rating: int): seq<bool>
  {
    [1 <= rating, 2 <= rating, 3 <= rating, 4 <= rating, 5 <= rating]
  }

  /** With a rating in 0..5 exactly the first `rating` stars are filled. */
  lemma {:induction false} FilledStarsMatchRating(rating: int)
    requires 0 <= rating <= MaxRating
    ensures forall i :: 0 <= i < MaxRating ==> (Stars(rating)[i] <==> i < rating)
    ensures CountTrue(Stars(rating)) == rating
  {
    CountTruePrefix(Stars(rating), rating);
  }

  /** The component: the selected id and the rating, updated by the click handlers. */
  class ReviewFlow {
    var selectedReview: Option<int>
    var rating: int

    /** The state as a value. */
    function State(): Picker
      reads this
    {
      Picker(selectedReview, rating)
    }

    ghost predicate Valid()
      reads this
    {
      Inv(State())
    }

    /** A fresh screen shows the list with no rating given. */
    constructor ()
      ensures Valid()
      ensures selectedReview == None && rating == 0
    {
      selectedReview := None;
      rating := 0;
    }

    /** The button of list entry `index`: opens that entry's detail view. */
    method ChooseReview(index: int)
      requires Valid()
      modifies this
      ensures Valid()
      ensures State() == Next(old(State()), Choose(index))
    {
      if selectedReview == None && 0 <= index < |AssignedReviews| {
        selectedReview := Some(AssignedReviews[index].id);
      }
    }

    /** "Back to Reviews": returns to the list, keeping the rating. */
    method BackToReviews()
      requires Valid()
      modifies this
      ensures Valid()
      ensures State() == Next(old(State()), Click.BackToReviews)
    {
      selectedReview := None;
    }

    /** Star button `star`: sets the rating to the star's number. */
    method ClickStar(star: int)
      requires Valid()
      modifies this
      ensures Valid()
      ensures State() == Next(old(State()), Star(star))
    {
      if selectedReview != None && 1 <= star <= MaxRating {
        rating := star;
      }
    }

    /** "Back to Dashboard": rendered on the list view only, where it calls `onBack`. */
    method BackToDashboard() returns (leave: bool)
      ensures leave <==> selectedReview == None
      ensures leave == LeavesFlow(State(), Click.BackToDashboard)
    {
      leave := selectedReview == None;
    }
  }
}
