/** IntroPage: the four-slide onboarding carousel. Animations, focus handling
    and timers are left out; each index change (including the one a timer
    applies) is one atomic step. */
module Intro {
  import opened Common
  import opened Entities
  import opened Storage
  import opened Auth

  datatype Slide = Slide(title: string, subtitle: string, text: string, img: string)

  const Slides: seq<Slide> := [
    Slide("Bienvenido", "Descubre una experiencia única",
      "Explora todas las características que tenemos preparadas para ti. Una plataforma diseñada para amantes de la música.",
      "assets/images/intro_1.png"),
    Slide("Explora", "Encuentra tu música favorita",
      "Navega entre miles de artistas, géneros y playlists cuidadosamente seleccionadas para todos los gustos musicales.",
      "assets/images/intro_2.png"),
    Slide("Descubre", "Recomendaciones inteligentes",
      "Recibe sugerencias personalizadas diariamente basadas en tus gustos y hábitos de escucha.",
      "assets/images/intro_3.png"),
    Slide("Listo", "Comienza tu experiencia",
      "Todo está configurado. Presiona comenzar y sumérgete en el mundo de la música como nunca antes.",
      "assets/images/intro_4.png")
  ]

  /** The index of the last slide. */
  const Last := |Slides| - 1

  /** `getSafeSlide(index)`: the slide at `index`, or the first slide when there is none there. */
  function GetSafeSlide(index: int): (s: Slide)
    ensures s in Slides
    ensures 0 <= index < |Slides| ==> s == Slides[index]
    ensures !(0 <= index < |Slides|) ==> s == Slides[0]
  {
    if 0 <= index < |Slides| then Slides[index] else Slides[0]
  }

  /** `getProgressValue()`: the share of slides seen so far. */
  function ProgressValue(index: int): real {
    (index + 1) as real / |Slides| as real
  }

  /** The progress is a quarter on the first slide, grows by a quarter per
      slide, and is complete exactly on the last one. */
  lemma ProgressValueSteps(i: int, j: int)
    requires 0 <= i < |Slides| && 0 <= j < |Slides|
    ensures ProgressValue(0) == 0.25 && ProgressValue(1) == 0.5
    ensures 0.25 <= ProgressValue(i) <= 1.0
    ensures ProgressValue(i) == 1.0 <==> i == Last
    ensures i < j ==> ProgressValue(i) < ProgressValue(j)
    ensures i + 1 < |Slides| ==> ProgressValue(i + 1) == ProgressValue(i) + 0.25
  {
  }

  /** `announceSlide()`: what the live region reads out for a slide. */
  function Announcement(index: int): string
    requires 0 <= index < |Slides|
  {
    Slides[index].title + ". " + Slides[index].subtitle
  }

  /** Different slides are announced differently. */
  lemma AnnouncementsDistinct(i: int, j: int)
    requires 0 <= i < |Slides| && 0 <= j < |Slides| && i != j
    ensures Announcement(i) != Announcement(j)
  {
    assert Announcement(i)[0] != Announcement(j)[0];
  }

  /** The storage key `goHome` marks: per user when someone is logged in,
      global otherwise. */
  function IntroSeenKey(user: Option<User>): string {
    if user.Some? then "introSeen_" + UserIdText(user.value) else "introSeen"
  }

  /** The global key is used exactly when no one is logged in, and different
      users get different keys. */
  lemma IntroSeenKeyChoice(u: Option<User>, v: Option<User>)
    ensures IntroSeenKey(u) == "introSeen" <==> u.None?
    ensures u.Some? && v.Some? && UserIdText(u.value) != UserIdText(v.value) ==> IntroSeenKey(u) != IntroSeenKey(v)
  {
    if u.Some? {
      assert |IntroSeenKey(u)| > |"introSeen"|;
      if v.Some? && IntroSeenKey(u) == IntroSeenKey(v) {
        assert UserIdText(u.value) == IntroSeenKey(u)[10..];
        assert UserIdText(v.value) == IntroSeenKey(v)[10..];
      }
    }
  }

  /** A slide change that a swipe asks for. */
  datatype Move = MoveNext | MovePrev | Stay

  function Abs(x: int): nat {
    if x < 0 then -x else x
  }

  /** The `touchend` handler: a start coordinate of 0 (or none yet, also falsy)
      ignores the touch; a mostly horizontal move of more than 50 pixels goes
      forward when the finger moved left and back when it moved right. */
  function TouchSwipe(startX: int, startY: int, endX: int, endY: int): (m: Move)
    ensures m != Stay <==>
      startX != 0 && startY != 0 && Abs(startX - endX) > Abs(startY - endY) && Abs(startX - endX) > 50
    ensures m == MoveNext ==> startX - endX > 50
    ensures m == MovePrev ==> endX - startX > 50
  {
    if startX == 0 || startY == 0 then Stay
    else
      var diffX, diffY := startX - endX, startY - endY;
      if Abs(diffX) > Abs(diffY) && Abs(diffX) > 50 then
        if diffX > 0 then MoveNext else MovePrev
      else Stay
  }

  /** The gesture's `onEnd`: more than 80 pixels to the right goes back, more
      than 80 to the left goes forward. */
  function GestureSwipe(deltaX: int): (m: Move)
    ensures m != Stay <==> Abs(deltaX) > 80
    ensures m == MovePrev <==> deltaX > 80
  {
    if Abs(deltaX) > 80 then
      if deltaX > 0 then MovePrev else MoveNext
    else Stay
  }

  /** When a touch and the gesture recogniser both act on the same finger
      movement, they move the same way. */
  lemma SwipesAgree(startX: int, startY: int, endX: int, endY: int)
    requires TouchSwipe(startX, startY, endX, endY) != Stay
    requires GestureSwipe(endX - startX) != Stay
    ensures TouchSwipe(startX, startY, endX, endY) == GestureSwipe(endX - startX)
  {
  }

  /** Mirroring a touch horizontally around its start swaps its direction. */
  lemma TouchSwipeMirror(startX: int, startY: int, endX: int, endY: int)
    ensures TouchSwipe(startX, startY, endX, endY) == MoveNext <==>
      TouchSwipe(startX, startY, 2 * startX - endX, endY) == MovePrev
  {
  }

  class IntroPage {
    var currentIndex: int
    var announceMessage: string
    var isLoading: bool
    /** The route the page navigated to ("" before `goHome`). */
    var navigatedTo: string
    const storage: Store
    const auth: AuthService

    /** The index always names a slide. */
    ghost predicate Valid()
      reads this, storage
    {
      0 <= currentIndex < |Slides| && storage.Valid()
    }

    constructor (storage: Store, auth: AuthService)
      requires storage.Valid()
      ensures Valid() && this.storage == storage && this.auth == auth
      ensures currentIndex == 0 && announceMessage == "" && !isLoading && navigatedTo == ""
    {
      this.storage, this.auth := storage, auth;
      currentIndex, announceMessage, isLoading, navigatedTo := 0, "", false, "";
    }

    method AnnounceSlide()
      requires Valid()
      modifies this
      ensures Valid() && announceMessage == Announcement(currentIndex)
      ensures currentIndex == old(currentIndex) && isLoading == old(isLoading) && navigatedTo == old(navigatedTo)
    {
      announceMessage := Slides[currentIndex].title + ". " + Slides[currentIndex].subtitle;
    }

    /** `nextWithAnimation`: nothing on the last slide, otherwise one slide on
        and the new slide announced. */
    method NextWithAnimation()
      requires Valid()
      modifies this
      ensures Valid()
      ensures old(currentIndex) < Last ==> currentIndex == old(currentIndex) + 1 && announceMessage == Announcement(currentIndex)
      ensures old(currentIndex) >= Last ==> currentIndex == old(currentIndex) && announceMessage == old(announceMessage)
      ensures isLoading == old(isLoading) && navigatedTo == old(navigatedTo)
    {
      if currentIndex >= |Slides| - 1 {
        return;
      }
      currentIndex := currentIndex + 1;
      AnnounceSlide();
    }

    /** `prevWithAnimation`: nothing on the first slide, otherwise one slide back. */
    method PrevWithAnimation()
      requires Valid()
      modifies this
      ensures Valid()
      ensures old(currentIndex) > 0 ==> currentIndex == old(currentIndex) - 1 && announceMessage == Announcement(currentIndex)
      ensures old(currentIndex) <= 0 ==> currentIndex == old(currentIndex) && announceMessage == old(announceMessage)
      ensures isLoading == old(isLoading) && navigatedTo == old(navigatedTo)
    {
      if currentIndex <= 0 {
        return;
      }
      currentIndex := currentIndex - 1;
      AnnounceSlide();
    }

    method Next()
      requires Valid()
      modifies this
      ensures Valid()
      ensures currentIndex == if old(currentIndex) < Last then old(currentIndex) + 1 else old(currentIndex)
      ensures currentIndex != old(currentIndex) ==> announceMessage == Announcement(currentIndex)
      ensures currentIndex == old(currentIndex) ==> announceMessage == old(announceMessage)
      ensures isLoading == old(isLoading) && navigatedTo == old(navigatedTo)
    {
      if currentIndex < |Slides| - 1 {
        NextWithAnimation();
      }
    }

    method Prev()
      requires Valid()
      modifies this
      ensures Valid()
      ensures currentIndex == if old(currentIndex) > 0 then old(currentIndex) - 1 else old(currentIndex)
      ensures currentIndex != old(currentIndex) ==> announceMessage == Announcement(currentIndex)
      ensures currentIndex == old(currentIndex) ==> announceMessage == old(announceMessage)
      ensures isLoading == old(isLoading) && navigatedTo == old(navigatedTo)
    {
      if currentIndex > 0 {
        PrevWithAnimation();
      }
    }

    /** `goToSlide(index)`: jumps only to an existing slide other than the current one. */
    method GoToSlide(index: int)
      requires Valid()
      modifies this
      ensures Valid()
      ensures 0 <= index < |Slides| && index != old(currentIndex) ==>
        currentIndex == index && announceMessage == Announcement(index)
      ensures !(0 <= index < |Slides| && index != old(currentIndex)) ==>
        currentIndex == old(currentIndex) && announceMessage == old(announceMessage)
      ensures isLoading == old(isLoading) && navigatedTo == old(navigatedTo)
    {
      if 0 <= index < |Slides| && index != currentIndex {
        currentIndex := index;
        AnnounceSlide();
        AnnounceSlide();
      }
    }

    /** `goHome`: marks the intro as seen under the key for the logged-in user
        (the global key when there is none) and goes to `/menu/home`. */
    method GoHome()
      requires Valid()
      modifies this, storage
      ensures Valid() && isLoading && navigatedTo == "/menu/home"
      ensures storage.data == old(storage.data)[IntroSeenKey(auth.currentUser) := Bool(true)]
      ensures currentIndex == old(currentIndex) && announceMessage == old(announceMessage)
    {
      isLoading := true;
      var key := if auth.currentUser.Some? then "introSeen_" + UserIdText(auth.currentUser.value) else "introSeen";
      storage.Set(key, Bool(true));
      navigatedTo := "/menu/home";
    }

    /** `skipToEnd`: on the last slide it finishes the intro; elsewhere it jumps to the last slide. */
    method SkipToEnd()
      requires Valid()
      modifies this, storage
      ensures Valid() && currentIndex == Last
      ensures old(currentIndex) == Last ==>
        isLoading && navigatedTo == "/menu/home" &&
        storage.data == old(storage.data)[IntroSeenKey(auth.currentUser) := Bool(true)]
      ensures old(currentIndex) != Last ==>
        announceMessage == Announcement(Last) && storage.data == old(storage.data) &&
        isLoading == old(isLoading) && navigatedTo == old(navigatedTo)
    {
      if currentIndex == |Slides| - 1 {
        GoHome();
      } else {
        currentIndex := |Slides| - 1;
        AnnounceSlide();
        AnnounceSlide();
      }
    }

    /** A finished touch: acts through `next`/`prev` as `TouchSwipe` decides. */
    method OnTouchEnd(startX: int, startY: int, endX: int, endY: int)
      requires Valid()
      modifies this
      ensures Valid()
      ensures TouchSwipe(startX, startY, endX, endY) == Stay ==> currentIndex == old(currentIndex)
      ensures TouchSwipe(startX, startY, endX, endY) == MoveNext ==>
        currentIndex == if old(currentIndex) < Last then old(currentIndex) + 1 else old(currentIndex)
      ensures TouchSwipe(startX, startY, endX, endY) == MovePrev ==>
        currentIndex == if old(currentIndex) > 0 then old(currentIndex) - 1 else old(currentIndex)
      ensures currentIndex != old(currentIndex) ==> announceMessage == Announcement(currentIndex)
      ensures currentIndex == old(currentIndex) ==> announceMessage == old(announceMessage)
      ensures isLoading == old(isLoading) && navigatedTo == old(navigatedTo)
    {
      var m := TouchSwipe(startX, startY, endX, endY);
      if m == MoveNext {
        Next();
      } else if m == MovePrev {
        Prev();
      }
    }

    /** A finished gesture: acts through the animated steps as `GestureSwipe` decides. */
    method OnGestureEnd(deltaX: int)
      requires Valid()
      modifies this
      ensures Valid()
      ensures GestureSwipe(deltaX) == Stay ==> currentIndex == old(currentIndex)
      ensures GestureSwipe(deltaX) == MoveNext ==>
        currentIndex == if old(currentIndex) < Last then old(currentIndex) + 1 else old(currentIndex)
      ensures GestureSwipe(deltaX) == MovePrev ==>
        currentIndex == if old(currentIndex) > 0 then old(currentIndex) - 1 else old(currentIndex)
      ensures currentIndex != old(currentIndex) ==> announceMessage == Announcement(currentIndex)
      ensures currentIndex == old(currentIndex) ==> announceMessage == old(announceMessage)
      ensures isLoading == old(isLoading) && navigatedTo == old(navigatedTo)
    {
      var m := GestureSwipe(deltaX);
      if m == MovePrev {
        PrevWithAnimation();
      } else if m == MoveNext {
        NextWithAnimation();
      }
    }
  }

  /** `next` then `prev` returns to the starting slide unless it was the last. */
  method NextThenPrev(p: IntroPage)
    requires p.Valid() && p.currentIndex < Last
    modifies p
    ensures p.Valid() && p.currentIndex == old(p.currentIndex)
  {
    p.Next();
    p.Prev();
  }

  /** Any number of `next` calls ends on the last slide at the furthest. */
  method ManyNexts(p: IntroPage, n: nat)
    requires p.Valid()
    modifies p
    ensures p.Valid()
    ensures p.currentIndex == if old(p.currentIndex) + n < Last then old(p.currentIndex) + n else Last
  {
    var i := 0;
    while i < n
      invariant 0 <= i <= n
      invariant p.Valid()
      invariant p.currentIndex == if old(p.currentIndex) + i < Last then old(p.currentIndex) + i else Last
    {
      p.Next();
      i := i + 1;
    }
  }
}
