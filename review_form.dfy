/**
 * The review form of the WriteReview page.
 *
 * The form keeps a draft review in its state together with a map from field
 * names to error messages. Three validation rules each start from the STORED
 * error map, set or delete the key of one field and return the whole map.
 * `formValid` merges the five rule results left to right (a later key wins),
 * stores the merge and reports whether it is empty. Because every rule result
 * carries the stored keys, the merge never drops an error that is already
 * stored: the rules here reproduce that.
 */
module WriteReview {
  import opened Options

  /** The four draft fields the form validates. */
  datatype Field = Rate | Author | Title | Review

  const AllFields: set<Field> := {Rate, Author, Title, Review}

  /** Error messages, as tags in place of their translated text. */
  datatype Msg = RateRequired | AuthorEmpty | TooLong

  /** A JavaScript value as it can stand in a draft field; `Nil` is `null` or `undefined`. */
  datatype Value = Num(n: int) | Str(s: string) | Nil

  /** A JavaScript object restricted to the draft fields: an absent key is not in the map. */
  type Record = map<Field, Value>

  type Errors = map<Field, Msg>

  /** `scope[f]`: an absent key reads as `undefined`. */
  function Get(scope: Record, f: Field): (v: Value)
    ensures f !in scope ==> v == Nil
  {
    if f in scope then scope[f] else Nil
  }

  /** JavaScript truthiness: `0`, `''`, `null` and `undefined` are falsy. */
  predicate Truthy(v: Value) {
    match v
    case Num(n) => n != 0
    case Str(s) => s != []
    case Nil => false
  }

  /** `v.length > max`: only a string has a length, for a number the comparison is false. */
  predicate Longer(v: Value, max: nat) {
    v.Str? && |v.s| > max
  }

  /** `a || b`. */
  function Or(a: Value, b: Value): (r: Value)
    ensures Truthy(a) ==> r == a
    ensures !Truthy(a) ==> r == b
  {
    if Truthy(a) then a else b
  }

  /** The messages an error of field `f` can carry. */
  predicate Allowed(f: Field, m: Msg) {
    match f
    case Rate => m == RateRequired
    case Author => m == AuthorEmpty || m == TooLong
    case Title => m == TooLong
    case Review => m == TooLong
  }

  /** Every stored error carries a message its own field's rule produces. */
  predicate WellFormed(e: Errors) {
    forall f :: f in e ==> Allowed(f, e[f])
  }

  // ---------------------------------------------------------------------------
  // The three rules. Each takes the stored error map (the copy made by the
  // `validationErrors` getter: maps are values here) and the scope to check.
  // ---------------------------------------------------------------------------

  /** `validateRate`: a falsy rate is an error, a truthy one clears it. */
  function ValidateRate(stored: Errors, scope: Record): (r: Errors)
    ensures Rate in r <==> !Truthy(Get(scope, Rate))
    ensures Rate in r ==> r[Rate] == RateRequired
    ensures r - {Rate} == stored - {Rate}
    ensures WellFormed(stored) ==> WellFormed(r)
  {
    if !Truthy(Get(scope, Rate)) then stored[Rate := RateRequired] else stored - {Rate}
  }

  /** `validateAuthor`: an empty author, or one longer than `max`, is an error. */
  function ValidateAuthor(stored: Errors, scope: Record, max: nat): (r: Errors)
    ensures !Truthy(Get(scope, Author)) ==> Author in r && r[Author] == AuthorEmpty
    ensures Longer(Get(scope, Author), max) ==> Author in r && r[Author] == TooLong
    ensures Author in r <==> !Truthy(Get(scope, Author)) || Longer(Get(scope, Author), max)
    ensures r - {Author} == stored - {Author}
    ensures WellFormed(stored) ==> WellFormed(r)
  {
    var a := Get(scope, Author);
    if !Truthy(a) then stored[Author := AuthorEmpty]
    else if Longer(a, max) then stored[Author := TooLong]
    else stored - {Author}
  }

  /** `validateLength(field)`: a non-empty value longer than `max` is an error. */
  function ValidateLength(stored: Errors, field: Field, scope: Record, max: nat): (r: Errors)
    ensures field in r <==> Longer(Get(scope, field), max)
    ensures field in r ==> r[field] == TooLong
    ensures !Truthy(Get(scope, field)) ==> field !in r
    ensures r - {field} == stored - {field}
    ensures WellFormed(stored) && field != Rate ==> WellFormed(r)
  {
    var v := Get(scope, field);
    if Truthy(v) && Longer(v, max) then stored[field := TooLong] else stored - {field}
  }

  /**
   * The getter `formValid` without its store: the five rule results merged
   * left to right, in the order rate, author, length(author), length(title),
   * length(review).
   */
  function FormErrors(stored: Errors, draft: Record, max: nat): (r: Errors)
    ensures stored.Keys <= r.Keys
    ensures WellFormed(stored) ==> WellFormed(r)
  {
    ValidateRate(stored, draft)
    + ValidateAuthor(stored, draft, max)
    + ValidateLength(stored, Author, draft, max)
    + ValidateLength(stored, Title, draft, max)
    + ValidateLength(stored, Review, draft, max)
  }

  // ---------------------------------------------------------------------------
  // A reference definition: the error each field has on its own.
  // ---------------------------------------------------------------------------

  /** The error of field `f` of `draft`, judged by that field's value alone. */
  function FieldError(f: Field, draft: Record, max: nat): Option<Msg> {
    var v := Get(draft, f);
    match f
    case Rate => if !Truthy(v) then Some(RateRequired) else None
    case Author =>
      if !Truthy(v) then Some(AuthorEmpty)
      else if Longer(v, max) then Some(TooLong)
      else None
    case Title => if Longer(v, max) then Some(TooLong) else None
    case Review => if Longer(v, max) then Some(TooLong) else None
  }

  /** The errors of `draft` when nothing is stored yet. */
  function FreshErrors(draft: Record, max: nat): (e: Errors)
    ensures forall f :: f in e <==> FieldError(f, draft, max).Some?
    ensures forall f :: f in e ==> e[f] == FieldError(f, draft, max).value
    ensures WellFormed(e)
  {
    map f | f in AllFields && FieldError(f, draft, max).Some? :: FieldError(f, draft, max).value
  }

  // ---------------------------------------------------------------------------
  // What `formValid` computes.
  // ---------------------------------------------------------------------------

  /** The merge holds the stored keys and the keys of the fields that fail now. */
  lemma FormErrorsKeys(stored: Errors, draft: Record, max: nat)
    ensures FormErrors(stored, draft, max).Keys == stored.Keys + FreshErrors(draft, max).Keys
  {
  }

  /**
   * With a well-formed stored map, the merge is the draft's own errors
   * overridden by every stored error: a stored error is never cleared.
   */
  lemma FormErrorsKeepStored(stored: Errors, draft: Record, max: nat)
    requires WellFormed(stored)
    ensures FormErrors(stored, draft, max) == FreshErrors(draft, max) + stored
  {
    var r := FormErrors(stored, draft, max);
    var e := FreshErrors(draft, max) + stored;
    FormErrorsKeys(stored, draft, max);
    forall f | f in r
      ensures r[f] == e[f]
    {
      FormErrorsAt(stored, draft, max, f);
    }
  }

  /** One key of the merge: a stored error wins; a key not stored takes its field's own message. */
  lemma FormErrorsAt(stored: Errors, draft: Record, max: nat, f: Field)
    requires WellFormed(stored)
    requires f in FormErrors(stored, draft, max)
    ensures f in stored ==> FormErrors(stored, draft, max)[f] == stored[f]
    ensures f !in stored ==> FormErrors(stored, draft, max)[f] == FieldError(f, draft, max).value
  {
  }

  /** On an empty stored map the merge is exactly the draft's own errors. */
  lemma FormErrorsFromEmpty(draft: Record, max: nat)
    ensures FormErrors(map[], draft, max) == FreshErrors(draft, max)
  {
  }

  /**
   * `formValid` returns true exactly when nothing is stored and the draft
   * passes every rule.
   */
  lemma FormValidIff(stored: Errors, draft: Record, max: nat)
    ensures FormErrors(stored, draft, max) == map[] <==>
      stored == map[]
      && Truthy(Get(draft, Rate))
      && Truthy(Get(draft, Author)) && !Longer(Get(draft, Author), max)
      && !Longer(Get(draft, Title), max)
      && !Longer(Get(draft, Review), max)
  {
  }

  /**
   * A failed submission with a falsy rate stores the rate error, and no later
   * `formValid` (whatever the draft is by then) can remove it.
   */
  lemma StaleRateErrorBlocks(stored: Errors, draft: Record, later: Record, max: nat)
    requires !Truthy(Get(draft, Rate))
    ensures Rate in FormErrors(stored, draft, max)
    ensures Rate in FormErrors(FormErrors(stored, draft, max), later, max)
    ensures FormErrors(FormErrors(stored, draft, max), later, max) != map[]
  {
  }

  /**
   * The author is checked by two rules; whenever the length rule reports an
   * error, the author rule reports the same one, and merging the two author
   * rules in either order after the rate rule gives the same map.
   */
  lemma AuthorRulesAgree(stored: Errors, scope: Record, max: nat)
    ensures Author in ValidateLength(stored, Author, scope, max) ==>
      ValidateAuthor(stored, scope, max) == ValidateLength(stored, Author, scope, max)
    ensures ValidateRate(stored, scope) + ValidateAuthor(stored, scope, max) + ValidateLength(stored, Author, scope, max)
      == ValidateRate(stored, scope) + ValidateLength(stored, Author, scope, max) + ValidateAuthor(stored, scope, max)
  {
  }

  /** A draft that passes every rule has no errors of its own. */
  lemma PassingDraft(draft: Record, max: nat)
    requires Truthy(Get(draft, Rate))
    requires Truthy(Get(draft, Author)) && !Longer(Get(draft, Author), max)
    requires !Longer(Get(draft, Title), max) && !Longer(Get(draft, Review), max)
    ensures FreshErrors(draft, max) == map[]
  {
  }

  /** A blank draft with rate 0 fails exactly on the rate and the author. */
  lemma BlankDraftErrors(max: nat)
    ensures FreshErrors(map[], max) == map[Rate := RateRequired, Author := AuthorEmpty]
    ensures FormErrors(map[], map[Rate := Num(0), Author := Str(""), Title := Str(""), Review := Str("")], max)
      == map[Rate := RateRequired, Author := AuthorEmpty]
  {
  }

  // ---------------------------------------------------------------------------
  // The component.
  // ---------------------------------------------------------------------------

  /** One call of the `submit` callback: the state and the update flag. */
  datatype Submission = Submission(draft: Record, productId: Option<string>, updateRate: bool)

  /** What `render` shows: the field values and their error texts. */
  datatype FormView = FormView(values: Record, errors: Errors)

  class ReviewForm {
    /** REVIEW_FORM_MAX_LENGTH. */
    const maxLength: nat

    // props
    var review: Record
    var authorName: string
    var productIdProp: Option<string>

    // state
    var draft: Record
    var productId: Option<string>
    var validationErrors: Errors

    /** The calls made to the `submit` callback, oldest first. */
    var submissions: seq<Submission>

    predicate Valid()
      reads this
    {
      WellFormed(validationErrors)
    }

    /** The constructor copies the review prop verbatim: no author fallback. */
    constructor (review: Record, authorName: string, productId: Option<string>, maxLength: nat)
      ensures Valid()
      ensures this.maxLength == maxLength
      ensures this.review == review && this.authorName == authorName && productIdProp == productId
      ensures draft == review && this.productId == productId
      ensures validationErrors == map[] && submissions == []
    {
      this.maxLength := maxLength;
      this.review := review;
      this.authorName := authorName;
      productIdProp := productId;
      draft := review;
      this.productId := productId;
      validationErrors := map[];
      submissions := [];
    }

    /**
     * `componentWillReceiveProps`: the new review's keys overwrite the draft,
     * the author falls back to the author name, the errors are kept.
     */
    method ReceiveProps(nextReview: Record, nextAuthorName: string, nextProductId: Option<string>)
      requires Valid()
      modifies this
      ensures Valid()
      ensures review == nextReview && authorName == nextAuthorName && productIdProp == nextProductId
      ensures Get(draft, Author) == Or(Get(nextReview, Author), Str(nextAuthorName))
      ensures forall f :: f != Author ==> Get(draft, f) == Get(old(draft) + nextReview, f)
      ensures draft.Keys == old(draft).Keys + nextReview.Keys + {Author}
      ensures validationErrors == old(validationErrors) && productId == old(productId)
      ensures submissions == old(submissions)
    {
      draft := draft + nextReview + map[Author := Or(Get(nextReview, Author), Str(nextAuthorName))];
      review, authorName, productIdProp := nextReview, nextAuthorName, nextProductId;
    }

    /** The getter `formValid`: stores the merged rule results. */
    method FormValid() returns (valid: bool)
      requires Valid()
      modifies this`validationErrors
      ensures Valid()
      ensures validationErrors == FormErrors(old(validationErrors), draft, maxLength)
      ensures validationErrors == FreshErrors(draft, maxLength) + old(validationErrors)
      ensures valid <==> validationErrors == map[]
    {
      FormErrorsKeepStored(validationErrors, draft, maxLength);
      validationErrors := FormErrors(validationErrors, draft, maxLength);
      valid := validationErrors == map[];
    }

    /**
     * `handleSubmit`: submits the state when `formValid` holds; whether it is
     * an update is taken from the rate of the review PROP, not of the draft.
     */
    method HandleSubmit()
      requires Valid()
      modifies this`validationErrors, this`submissions
      ensures Valid()
      ensures validationErrors == FreshErrors(draft, maxLength) + old(validationErrors)
      ensures old(validationErrors) != map[] ==> submissions == old(submissions)
      ensures submissions == old(submissions) +
        if validationErrors == map[] then [Submission(draft, productId, Truthy(Get(review, Rate)))] else []
    {
      var valid := FormValid();
      if !valid {
        return;
      }
      var updateRate := Truthy(Get(review, Rate));
      submissions := submissions + [Submission(draft, productId, updateRate)];
    }

    /** The rating scale's onChange: sets the rate and validates nothing. */
    method ChangeRate(rate: int)
      requires Valid()
      modifies this`draft
      ensures Valid()
      ensures draft == old(draft)[Rate := Num(rate)]
    {
      draft := draft[Rate := Num(rate)];
    }

    /** The author field's onChange: validates `{author}` alone. */
    method ChangeAuthor(author: string)
      requires Valid()
      modifies this`draft, this`validationErrors
      ensures Valid()
      ensures draft == old(draft)[Author := Str(author)]
      ensures Author in validationErrors <==> author == [] || |author| > maxLength
      ensures Author in validationErrors ==>
        validationErrors[Author] == if author == [] then AuthorEmpty else TooLong
      ensures validationErrors - {Author} == old(validationErrors) - {Author}
    {
      var errors := ValidateAuthor(validationErrors, map[Author := Str(author)], maxLength);
      draft := draft[Author := Str(author)];
      validationErrors := errors;
    }

    /** The title field's onChange: validates the length of `{title}` alone. */
    method ChangeTitle(title: string)
      requires Valid()
      modifies this`draft, this`validationErrors
      ensures Valid()
      ensures draft == old(draft)[Title := Str(title)]
      ensures Title in validationErrors <==> |title| > maxLength
      ensures Title in validationErrors ==> validationErrors[Title] == TooLong
      ensures validationErrors - {Title} == old(validationErrors) - {Title}
    {
      var errors := ValidateLength(validationErrors, Title, map[Title := Str(title)], maxLength);
      draft := draft[Title := Str(title)];
      validationErrors := errors;
    }

    /** The review text's onChange: validates the length of `{review}` alone. */
    method ChangeReview(text: string)
      requires Valid()
      modifies this`draft, this`validationErrors
      ensures Valid()
      ensures draft == old(draft)[Review := Str(text)]
      ensures Review in validationErrors <==> |text| > maxLength
      ensures Review in validationErrors ==> validationErrors[Review] == TooLong
      ensures validationErrors - {Review} == old(validationErrors) - {Review}
    {
      var errors := ValidateLength(validationErrors, Review, map[Review := Str(text)], maxLength);
      draft := draft[Review := Str(text)];
      validationErrors := errors;
    }

    /** `render`: nothing at all while the product id prop is null. */
    function Render(): (view: Option<FormView>)
      reads this
      ensures view.None? <==> productIdProp.None?
      ensures view.Some? ==> view.value.values == draft && view.value.errors == validationErrors
    {
      if productIdProp.None? then None else Some(FormView(draft, validationErrors))
    }
  }
}
