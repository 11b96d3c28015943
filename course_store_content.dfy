/** `components/CourseStoreContent.tsx`: the course store and its checkout dialog. Unlike
    the other panels, "Buy Now" does not check that `onAuthRequired` was given (the prop is
    required here): a visitor who is not logged in always triggers it. `onSuccess` is an
    empty function. */
module CourseStoreContent {
  import opened Wrappers
  import opened CheckoutModal

  /** The fields of a store course that the page uses; ratings are integer tenths. */
  datatype StoreCourse = StoreCourse(id: int, title: string, category: string, author: string,
                                     price: string, rating: int, reviews: nat, lessons: nat,
                                     level: string, trending: bool)

  const STORE_COURSES: seq<StoreCourse> := [
    StoreCourse(1, "Mastering Next.js 14 & Framer Motion", "Development", "Alex Rivera", "$49.99", 49, 1240, 56, "Intermediate", true),
    StoreCourse(2, "Advanced UI Design Systems", "Design", "Sarah Valentine", "$69.00", 50, 2100, 84, "Expert", false),
    StoreCourse(3, "Fullstack Web Development Bootcamp", "Development", "Jordan Smith", "$99.00", 48, 3500, 120, "Beginner", true),
    StoreCourse(4, "Brand Strategy & Visual Identity", "Marketing", "Emily Chen", "$39.99", 47, 850, 24, "All Levels", false)
  ]

  /** The store's state plus the checkout dialog it keeps mounted. */
  class Store {
    var selectedCourse: Option<StoreCourse>
    var isCheckoutOpen: bool
    const checkout: Checkout

    ghost predicate Valid()
      reads this, checkout
    {
      CheckoutModal.Valid(checkout.State())
    }

    /** The dialog renders nothing without a course, and its content only while open. */
    predicate DialogVisible()
      reads this
    {
      isCheckoutOpen && selectedCourse.Some?
    }

    constructor ()
      ensures Valid() && fresh(checkout) && checkout.State() == INITIAL
      ensures selectedCourse == None && !isCheckoutOpen
    {
      selectedCourse := None;
      isCheckoutOpen := false;
      checkout := new Checkout();
    }

    /** `handleBuyNow`: a logged-in visitor gets the dialog for that course; anyone else
        only triggers `onAuthRequired`, which is reported in `authRequired`. */
    method BuyNow(course: StoreCourse, isLoggedIn: bool) returns (authRequired: bool)
      modifies this
      ensures authRequired <==> !isLoggedIn
      ensures !isLoggedIn ==> selectedCourse == old(selectedCourse) && isCheckoutOpen == old(isCheckoutOpen)
      ensures isLoggedIn ==> selectedCourse == Some(course) && isCheckoutOpen && DialogVisible()
    {
      authRequired := !isLoggedIn;
      if isLoggedIn {
        selectedCourse := Some(course);
        isCheckoutOpen := true;
      }
    }

    /** `onClose` from the backdrop or the close button; the selected course is kept. */
    method CloseCheckout()
      modifies this
      ensures !isCheckoutOpen && selectedCourse == old(selectedCourse)
    {
      isCheckoutOpen := false;
    }

    /** Submitting the card form, which is on screen only while the dialog is visible and in
        its "form" step. */
    method SubmitCheckout()
      requires Valid() && DialogVisible() && CanSubmit(checkout.State())
      modifies checkout
      ensures Valid() && checkout.State() == SubmitStep(old(checkout.State()))
    {
      checkout.HandleSubmit();
    }

    /** The dialog's pending timer fires; its `onClose` closes the dialog whether or not the
        visitor had already closed it. */
    method CheckoutTimer() returns (calls: seq<CheckoutCall>)
      requires Valid() && checkout.pending != NoTimer
      modifies this, checkout
      ensures Valid()
      ensures (checkout.State(), calls) == Fire(old(checkout.State()))
      ensures selectedCourse == old(selectedCourse)
      ensures isCheckoutOpen == (old(isCheckoutOpen) && OnClose !in calls)
    {
      calls := checkout.TimerFires();
      if OnClose in calls {
        CloseCheckout();
      }
    }
  }
}
