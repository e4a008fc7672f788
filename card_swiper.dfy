/**
 * The picture swiper: five fixed cards stacked on one another. The card at
 * `currentIndex` follows the finger and can be flung off either side; the
 * cards after it wait behind it; the cards before it are gone.
 */
module CardSwiper {
  import opened Gesture

  /** An entry of `Users`: its key and the bundled picture it shows. */
  datatype User = User(id: string, picture: string)

  const Users: seq<User> := [
    User("1", "swiper-img/1.jpg"),
    User("2", "swiper-img/2.jpg"),
    User("3", "swiper-img/3.jpg"),
    User("4", "swiper-img/4.jpg"),
    User("5", "swiper-img/5.jpg")
  ]

  /** What `renderUsers` makes of one entry: nothing, the draggable card, or a card behind it. */
  datatype CardView = Hidden | Top(user: User) | Behind(user: User)

  /** The three branches of the `map` callback for the entry at index `i`. */
  function CardAt(user: User, i: nat, currentIndex: nat): (r: CardView)
    ensures r.Hidden? <==> i < currentIndex
    ensures r.Top? <==> i == currentIndex
    ensures r.Behind? <==> i > currentIndex
    ensures !r.Hidden? ==> r.user == user
  {
    if i < currentIndex then Hidden
    else if i == currentIndex then Top(user)
    else Behind(user)
  }

  /** `Array.prototype.reverse`, on a value. */
  function Reverse<T>(s: seq<T>): (r: seq<T>)
    ensures |r| == |s|
    ensures forall k :: 0 <= k < |s| ==> r[k] == s[|s| - 1 - k]
  {
    if s == [] then [] else Reverse(s[1..]) + [s[0]]
  }

  /** `users.map((item, i) => ...)`, before the reversal. */
  function Views(users: seq<User>, currentIndex: nat): (r: seq<CardView>)
    ensures |r| == |users|
    ensures forall i :: 0 <= i < |users| ==> r[i] == CardAt(users[i], i, currentIndex)
  {
    seq(|users|, i requires 0 <= i < |users| => CardAt(users[i], i, currentIndex))
  }

  /**
   * `renderUsers`: the views in reverse order, so that the entry at
   * `currentIndex` comes after every card waiting behind it and is drawn
   * above them.
   */
  function RenderUsers(users: seq<User>, currentIndex: nat): (r: seq<CardView>)
    ensures |r| == |users|
    ensures forall k :: 0 <= k < |users| ==> r[k] == CardAt(users[|users| - 1 - k], |users| - 1 - k, currentIndex)
  {
    Reverse(Views(users, currentIndex))
  }

  /** How many draggable cards a rendering holds. */
  function TopCount(views: seq<CardView>): nat
  {
    if views == [] then 0 else (if views[0].Top? then 1 else 0) + TopCount(views[1..])
  }

  lemma {:induction false} TopCountNone(views: seq<CardView>)
    requires forall k :: 0 <= k < |views| ==> !views[k].Top?
    ensures TopCount(views) == 0
  {
    if views != [] {
      assert !views[0].Top?;
      TopCountNone(views[1..]);
    }
  }

  lemma {:induction false} TopCountOne(views: seq<CardView>, p: nat)
    requires p < |views|
    requires forall k :: 0 <= k < |views| ==> (views[k].Top? <==> k == p)
    ensures TopCount(views) == 1
  {
    if p == 0 {
      TopCountNone(views[1..]);
    } else {
      assert !views[0].Top?;
      TopCountOne(views[1..], p - 1);
    }
  }

  /**
   * While cards remain there is exactly one draggable card, and it is the
   * entry at `currentIndex`; once all are swiped there is none.
   */
  lemma ExactlyOneTopCard(users: seq<User>, currentIndex: nat)
    ensures TopCount(RenderUsers(users, currentIndex)) == if currentIndex < |users| then 1 else 0
    ensures currentIndex < |users| ==>
      RenderUsers(users, currentIndex)[|users| - 1 - currentIndex] == Top(users[currentIndex])
  {
    var r := RenderUsers(users, currentIndex);
    if currentIndex < |users| {
      TopCountOne(r, |users| - 1 - currentIndex);
    } else {
      TopCountNone(r);
    }
  }

  /**
   * Every card waiting behind the draggable one comes before it in the
   * rendering, and only the swiped-away entries come after it.
   */
  lemma TopCardDrawnLast(users: seq<User>, currentIndex: nat, k: nat)
    requires currentIndex < |users| && k < |users|
    ensures var r := RenderUsers(users, currentIndex);
      && (k < |users| - 1 - currentIndex ==> r[k].Behind?)
      && (k > |users| - 1 - currentIndex ==> r[k].Hidden?)
  {
  }

  class Swiper {
    var currentIndex: nat
    /** The card position (`position`), in whole points. */
    var x: int
    var y: int

    /** The rendering of the fixed `Users` list. */
    function Rendered(): (r: seq<CardView>)
      reads this
      ensures |r| == |Users|
    {
      RenderUsers(Users, currentIndex)
    }

    constructor ()
      ensures currentIndex == 0 && x == 0 && y == 0
      ensures Rendered()[|Users| - 1] == Top(Users[0])
    {
      currentIndex, x, y := 0, 0, 0;
    }

    /**
     * `onPanResponderMove`: the card follows the finger on both axes. Only
     * the top card carries the pan handlers, so a card must remain.
     */
    method Move(dx: int, dy: int)
      requires currentIndex < |Users|
      modifies this
      ensures x == dx && y == dy && currentIndex == old(currentIndex)
    {
      x, y := dx, dy;
    }

    /**
     * `onPanResponderRelease` once its animation is over: a swipe either way
     * moves to the next entry and puts the position back at the origin; a
     * short drag springs back to the origin. As for `Move`, a card must
     * remain to be dragged.
     */
    method Release(dx: int, dy: int)
      requires currentIndex < |Users|
      modifies this
      ensures currentIndex == old(currentIndex) + (if Classify(dx) == SpringBack then 0 else 1)
      ensures x == 0 && y == 0
      ensures currentIndex <= |Users|
    {
      match Classify(dx)
      case SwipeRight =>
        currentIndex := currentIndex + 1;
        x, y := 0, 0;
      case SwipeLeft =>
        currentIndex := currentIndex + 1;
        x, y := 0, 0;
      case SpringBack =>
        x, y := 0, 0;
    }
  }

  /** Five swipes leave no card to drag; fewer leave exactly one. */
  lemma FiveSwipesEmptyTheStack(currentIndex: nat)
    ensures TopCount(RenderUsers(Users, currentIndex)) == if currentIndex < 5 then 1 else 0
  {
    ExactlyOneTopCard(Users, currentIndex);
  }
}
