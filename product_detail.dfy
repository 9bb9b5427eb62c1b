/** The product page: the answers to a product's custom questions, the star string of a
    review, the displayed price and the review form. */
module ProductDetail {
  import opened Seqs
  import Auth

  /** `data?.customQuestions ? Array(n).fill('') : []`: one empty answer per question. */
  function InitialAnswers(questions: Option<seq<string>>): (r: seq<string>)
    ensures questions.None? ==> r == []
    ensures questions.Some? ==> |r| == |questions.value|
    ensures forall i :: 0 <= i < |r| ==> r[i] == ""
  {
    if questions.None? then [] else seq(|questions.value|, _ => "")
  }

  /** `handleCustomAnswerChange`: `prev.map((a, i) => i === idx ? value : a)`. */
  function ChangeAnswer(answers: seq<string>, idx: int, value: string): (r: seq<string>)
    ensures |r| == |answers|
    ensures 0 <= idx < |answers| ==> r == answers[idx := value]
    ensures !(0 <= idx < |answers|) ==> r == answers
  {
    seq(|answers|, i requires 0 <= i < |answers| => if i == idx then value else answers[i])
  }

  /** Typing an answer and then restoring the old text gives back the same list. */
  lemma ChangeAnswerUndo(answers: seq<string>, idx: int, value: string)
    requires 0 <= idx < |answers|
    ensures ChangeAnswer(ChangeAnswer(answers, idx, value), idx, answers[idx]) == answers
  {
  }

  const FilledStar: char := '\U{2605}'
  const EmptyStar: char := '\U{2606}'

  /** `c.repeat(n)`. */
  function Repeat(c: char, n: nat): (r: string)
    ensures |r| == n && forall i :: 0 <= i < n ==> r[i] == c
  {
    if n == 0 then [] else [c] + Repeat(c, n - 1)
  }

  /** Every character of a repeated string is that character, so it occurs `n` times. */
  lemma {:induction false} RepeatCount(c: char, n: nat)
    ensures multiset(Repeat(c, n))[c] == n
  {
    if n > 0 {
      RepeatCount(c, n - 1);
      assert multiset(Repeat(c, n)) == multiset{c} + multiset(Repeat(c, n - 1));
    }
  }

  /** `'★'.repeat(rating) + '☆'.repeat(5 - rating)`; `repeat` throws a RangeError for a
      negative count, so a rating outside 0..5 gives no string. */
  function Stars(rating: int): (r: Option<string>)
    ensures r.Some? <==> 0 <= rating <= 5
    ensures r.Some? ==>
      (|r.value| == 5
       && (forall i :: 0 <= i < rating ==> r.value[i] == '\U{2605}')
       && (forall i :: rating <= i < 5 ==> r.value[i] == '\U{2606}'))
  {
    if rating < 0 || rating > 5 then None
    else Some(Repeat(FilledStar, rating) + Repeat(EmptyStar, 5 - rating))
  }

  /** The star string holds exactly `rating` filled and `5 - rating` empty stars. */
  lemma StarsCount(rating: int)
    requires 0 <= rating <= 5
    ensures multiset(Stars(rating).value)[FilledStar] == rating
    ensures multiset(Stars(rating).value)[EmptyStar] == 5 - rating
  {
    RepeatCount(FilledStar, rating);
    RepeatCount(EmptyStar, 5 - rating);
    assert multiset(Repeat(FilledStar, rating))[EmptyStar] == 0;
    assert multiset(Repeat(EmptyStar, 5 - rating))[FilledStar] == 0;
  }

  /** `getDisplayPrice`: prices above 1000 are read as paise and shown in rupees. */
  function DisplayPrice(price: real): (r: real)
    ensures price > 1000.0 ==> r * 100.0 == price
    ensures price <= 1000.0 ==> r == price
  {
    if price > 1000.0 then price / 100.0 else price
  }

  /** A positive price is never shown larger than it is, and a converted one stays above 10. */
  lemma DisplayPriceBounds(price: real)
    requires price > 0.0
    ensures 0.0 < DisplayPrice(price) <= price
    ensures price > 1000.0 ==> DisplayPrice(price) > 10.0
  {
  }

  /** The review form. */
  datatype ReviewDraft = ReviewDraft(text: string, rating: int)

  const EmptyDraft: ReviewDraft := ReviewDraft("", 5)

  /** The row handed to the `reviews` insert. */
  datatype ReviewRow = ReviewRow(productId: string, userId: string, rating: int, comment: string)

  /** `sent` is the row inserted, if any; `submitting` is `reviewSubmitting` afterwards. */
  datatype ReviewSubmission = ReviewSubmission(sent: Option<ReviewRow>, draft: ReviewDraft, submitting: bool)

  /** `handleReviewSubmit`. Nothing happens without a user. The insert's answer is not
      looked at: the form resets even when it reports an error, and only an insert that
      throws leaves the draft and the submitting flag as they were. */
  function SubmitReview(user: Option<Auth.User>, productId: string, draft: ReviewDraft, submitting: bool, insertThrows: bool)
    : (r: ReviewSubmission)
    ensures user.None? ==> r == ReviewSubmission(None, draft, submitting)
    ensures user.Some? ==> r.sent == Some(ReviewRow(productId, user.value.id, draft.rating, draft.text))
    ensures user.Some? && !insertThrows ==> r.draft == ReviewDraft("", 5) && !r.submitting
    ensures user.Some? && insertThrows ==> r.draft == draft && r.submitting
  {
    if user.None? then ReviewSubmission(None, draft, submitting)
    else
      var row := ReviewRow(productId, user.value.id, draft.rating, draft.text);
      if insertThrows then ReviewSubmission(Some(row), draft, true)
      else ReviewSubmission(Some(row), EmptyDraft, false)
  }
}
