/**
 * Client runs of the two components: each builds a blank component, drives
 * it through a sequence of events and returns what its callbacks received.
 */
module Scenarios {
  import opened Options
  import opened WriteReview
  import opened NavigatorSearch

  /**
   * Opening the search (the prop turns true, the input is auto-focused) and
   * typing a burst of keystrokes before the debounce fires commits the query
   * parameter on focus and then only the last value typed.
   */
  method TypeBurst(query: Option<string>, burst: seq<string>) returns (committed: seq<string>)
    requires |burst| > 0
    ensures committed == [query.GetOr(""), burst[|burst| - 1]]
  {
    var search := new Search(false);
    search.ReceiveProps(true, query);
    search.HandleFocus();
    for i := 0 to |burst|
      invariant search.Valid() && search.active
      invariant search.phrases == [query.GetOr("")]
      invariant i > 0 ==> search.pending && search.inputValue == burst[i - 1]
    {
      search.HandleInput(burst[i]);
    }
    search.FireDebounced();
    committed := search.phrases;
  }

  /**
   * A blur right after a keystroke commits the value at once; it does not
   * cancel the debounced commit, which later commits the same value again.
   */
  method BlurThenTimer(typed: string) returns (committed: seq<string>, stillPending: bool)
    ensures committed == [typed, typed]
    ensures !stillPending
  {
    var search := new Search(false);
    search.ReceiveProps(true, None);
    search.HandleInput(typed);
    search.HandleBlur();
    assert search.pending;
    search.FireDebounced();
    committed, stillPending := search.phrases, search.pending;
  }

  /** Submitting an empty search commits nothing and does not submit. */
  method SubmitEmpty() returns (committed: seq<string>, submitted: nat)
    ensures committed == [] && submitted == 0
  {
    var search := new Search(false);
    search.ReceiveProps(true, Some(""));
    search.HandleSubmit();
    committed, submitted := search.phrases, search.submits;
  }

  /** Submitting a typed search commits it and submits once. */
  method SubmitTyped(typed: string) returns (committed: seq<string>, submitted: nat)
    requires typed != ""
    ensures committed == [typed] && submitted == 1
  {
    var search := new Search(false);
    search.ReceiveProps(true, None);
    search.HandleInput(typed);
    search.HandleSubmit();
    committed, submitted := search.phrases, search.submits;
  }

  /**
   * A debounced commit reads the element when it fires: the search is closed
   * and reopened on another query before the timer fires, so the reopened
   * query is committed rather than the text typed earlier.
   */
  method ReopenBeforeTimer(typed: string, query: string) returns (committed: seq<string>, closes: seq<bool>)
    ensures committed == [query] && closes == [false]
  {
    var search := new Search(false);
    search.ReceiveProps(true, None);
    search.HandleInput(typed);
    search.HandleOverlayClick();
    search.ReceiveProps(false, None);
    var shown := search.Render();
    assert shown.Some? && shown.value.animation == Out;
    search.HandleAnimationEnd();
    assert search.Render() == None;
    search.ReceiveProps(true, Some(query));
    search.FireDebounced();
    committed, closes := search.phrases, search.toggles;
  }

  /** A debounced commit that fires after the search closed commits nothing. */
  method TimerAfterClose(typed: string) returns (committed: seq<string>)
    ensures committed == []
  {
    var search := new Search(false);
    search.ReceiveProps(true, None);
    search.HandleInput(typed);
    search.ReceiveProps(false, None);
    search.HandleAnimationEnd();
    search.FireDebounced();
    committed := search.phrases;
  }

  /**
   * A submit without a rate stores the rate error; choosing a rate and a valid
   * author afterwards does not clear it, so the second submit is blocked too.
   */
  method StaleRateError(maxLength: nat) returns (submitted: seq<Submission>, errors: Errors)
    requires maxLength >= 3
    ensures submitted == []
    ensures errors == map[Rate := RateRequired]
  {
    var form := new ReviewForm(map[], "", Some("p1"), maxLength);
    form.HandleSubmit();
    BlankDraftErrors(maxLength);
    assert form.validationErrors == map[Rate := RateRequired, Author := AuthorEmpty];
    form.ChangeRate(4);
    form.ChangeAuthor("Ann");
    assert form.validationErrors == map[Rate := RateRequired] by {
      assert form.validationErrors == form.validationErrors - {Author};
      assert map[Rate := RateRequired, Author := AuthorEmpty] - {Author} == map[Rate := RateRequired];
    }
    PassingDraft(form.draft, maxLength);
    form.HandleSubmit();
    submitted, errors := form.submissions, form.validationErrors;
  }

  /**
   * The update flag comes from the review prop: editing the rate of a review
   * that had none still submits it as a new review, and a review that had a
   * rate is submitted as an update even after the rate changed.
   */
  method UpdateFlag(maxLength: nat) returns (created: seq<Submission>, updated: seq<Submission>)
    requires maxLength >= 3
    ensures |created| == 1 && !created[0].updateRate && Get(created[0].draft, Rate) == Num(5)
    ensures |updated| == 1 && updated[0].updateRate && Get(updated[0].draft, Rate) == Num(2)
  {
    var blank := new ReviewForm(map[], "", Some("p1"), maxLength);
    blank.ChangeRate(5);
    blank.ChangeAuthor("Ann");
    assert blank.validationErrors == map[] by {
      assert blank.validationErrors == blank.validationErrors - {Author};
      var none: Errors := map[];
      assert none - {Author} == none;
    }
    PassingDraft(blank.draft, maxLength);
    blank.HandleSubmit();
    created := blank.submissions;

    var edit := new ReviewForm(map[Rate := Num(4), Author := Str("Bob")], "", Some("p1"), maxLength);
    edit.ChangeRate(2);
    PassingDraft(edit.draft, maxLength);
    edit.HandleSubmit();
    updated := edit.submissions;
  }

  /**
   * New props fill an empty author from the author name (the constructor does
   * not) and keep the stored errors.
   */
  method AuthorFallback(name: string) returns (initial: Value, received: Value, errors: Errors)
    requires name != ""
    ensures initial == Nil && received == Str(name) && errors == map[Author := AuthorEmpty]
  {
    var form := new ReviewForm(map[], name, Some("p1"), 10);
    initial := Get(form.draft, Author);
    form.ChangeAuthor("");
    assert form.validationErrors == map[Author := AuthorEmpty] by {
      var none: Errors := map[];
      assert none - {Author} == none;
    }
    form.ReceiveProps(map[Author := Str("")], name, Some("p1"));
    received := Get(form.draft, Author);
    errors := form.validationErrors;
  }
}
