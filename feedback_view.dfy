/** The feedback view: one row per feedback in the store, each with a five-star rating. */
module FeedbackView {
  import opened Wrappers
  import opened Types
  import opened Rendering
  import opened AdminContext
  import opened Api

  /** A displayed feedback; the locale-formatted date is not part of the model. */
  datatype FeedbackRow = FeedbackRow(
    id: string,
    productId: string,
    productName: string,
    customerName: string,
    rating: int,
    comment: string,
    avatar: string)

  function FormatFeedback(f: Feedback): FeedbackRow {
    FeedbackRow(f.id, f.product.id, f.product.name, f.user.name, f.rating, f.content, Avatar(f.user.name))
  }

  /** The `feedbacks.map(...)` of the effect: one row per feedback, in the same order. */
  function FormatFeedbacks(fs: seq<Feedback>): (rows: seq<FeedbackRow>)
    ensures |rows| == |fs|
    ensures forall i :: 0 <= i < |fs| ==> rows[i] == FormatFeedback(fs[i])
    decreases |fs|
  {
    if fs == [] then [] else [FormatFeedback(fs[0])] + FormatFeedbacks(fs[1..])
  }

  /** The rows after the effect ran on `feedbacks`: recomputed only for a non-empty list. */
  function EffectRows(previous: seq<FeedbackRow>, feedbacks: seq<Feedback>): seq<FeedbackRow> {
    if |feedbacks| > 0 then FormatFeedbacks(feedbacks) else previous
  }

  class FeedbackView {
    var formattedFeedbacks: seq<FeedbackRow>

    constructor ()
      ensures formattedFeedbacks == []
    {
      formattedFeedbacks := [];
    }

    /** The effect that runs whenever the store's feedback list changes. */
    method OnFeedbacksChanged(feedbacks: seq<Feedback>)
      modifies this
      ensures formattedFeedbacks == EffectRows(old(formattedFeedbacks), feedbacks)
    {
      if |feedbacks| > 0 {
        formattedFeedbacks := FormatFeedbacks(feedbacks);
      }
    }
  }

  /** What the view shows for a store state and the rows it currently holds. */
  function Render(s: StoreState, rows: seq<FeedbackRow>): Screen<FeedbackRow> {
    ScreenOf(s.loading, s.error, rows)
  }

  /** `renderStars`: five stars, star `i` filled when `i < rating`. */
  function RenderStars(rating: int): (stars: seq<bool>)
    ensures |stars| == 5
  {
    seq(5, i => i < rating)
  }

  function Repeat(b: bool, n: nat): (r: seq<bool>)
    ensures |r| == n && forall i :: 0 <= i < n ==> r[i] == b
  {
    seq(n, _ => b)
  }

  /** A rating from 0 to 5 fills exactly the first `rating` stars. */
  lemma StarsFillPrefix(rating: int)
    requires 0 <= rating <= 5
    ensures RenderStars(rating) == Repeat(true, rating) + Repeat(false, 5 - rating)
  {
  }

  /** Ratings outside 0..5 saturate: all stars empty below, all filled above. */
  lemma StarsSaturate(rating: int)
    ensures rating <= 0 ==> RenderStars(rating) == Repeat(false, 5)
    ensures rating >= 5 ==> RenderStars(rating) == Repeat(true, 5)
  {
  }

  /**
   * After a failed refresh the effect keeps the previous rows, because the
   * emptied list does not trigger a recomputation; the view still shows the
   * error and not those stale rows.
   */
  lemma FailedRefreshHidesStaleRows(s: StoreState, x: Responses, previous: seq<FeedbackRow>)
    requires !AllFulfilled(ReadsOf(x))
    ensures EffectRows(previous, Refreshed(s, ReadsOf(x)).feedbacks) == previous
    ensures Render(Refreshed(s, ReadsOf(x)), previous) == ErrorScreen(FetchFailure)
  {
    FailedRefreshMessage(s, x);
  }
}
