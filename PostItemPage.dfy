/**
 * The post page's submit handler: given what the item form hands over, the
 * signed-in user, a clock reading and the answers of storage and database, the
 * steps it takes (the `loading` flag, the upload, the insert, the toasts and
 * the redirect) and the row it inserts.
 */
module PostItemPage {
  import opened Strings
  import opened Runtime
  import opened Listings
  import ItemForm
  import opened UseItems

  /** The object passed to `insert` on `items`. */
  datatype InsertPayload = InsertPayload(
    userId: string,
    title: string,
    description: string,
    categoryId: Option<string>,
    kind: Kind,
    location: string,
    dateOccurred: string,
    imageUrl: Option<string>,
    contactInfo: ContactInfo)

  /** The observable steps of one submit on the post page. */
  datatype PostEffect =
    | ErrorToast(message: string)
    | SetLoading(on: bool)
    | Upload(key: string, file: File)
    | Insert(payload: InsertPayload)
    | SuccessToast(message: string)
    | Navigate(path: string)

  const LoginRequiredMessage := "You must be logged in to post an item"
  const PostFailedMessage := "Failed to post item"
  /** What the browser's `TypeError` says when `data.date` is undefined and `toISOString` is read off it. */
  const MissingDateMessage := "Cannot read properties of undefined (reading 'toISOString')"

  /** `data.category || null`. */
  function CategoryId(category: string): (r: Option<string>)
    ensures r.None? <==> category == ""
    ensures r.Some? ==> r.value == category
  {
    if category == "" then None else Some(category)
  }

  /** `iso.split('T')[0]`. */
  function DateOnly(iso: string): string
  {
    Split(iso, 'T')[0]
  }

  /** The date part is what comes before the first 'T': it holds no 'T', and it is the whole string or is followed by a 'T'. */
  lemma DateOnlyIsPrefix(iso: string)
    ensures 'T' !in DateOnly(iso)
    ensures |DateOnly(iso)| <= |iso| && iso[..|DateOnly(iso)|] == DateOnly(iso)
    ensures DateOnly(iso) == iso || iso[|DateOnly(iso)|] == 'T'
  {
    var parts := Split(iso, 'T');
    SplitPiecesClean(iso, 'T');
    JoinSplit(iso, 'T');
    if |parts| > 1 {
      assert iso == parts[0] + "T" + Join(parts[1..], "T");
    }
  }

  /** The other direction: a date followed by 'T' and a time yields that date. */
  lemma DateOnlyOfTimestamp(date: string, time: string)
    requires 'T' !in date
    ensures DateOnly(date + "T" + time) == date
  {
    SplitAppend(date, time, 'T');
    SplitWithoutSeparator(date, 'T');
  }

  lemma DateOnlyExample()
    ensures DateOnly("2024-03-15T09:30:00.000Z") == "2024-03-15"
  {
    var date, time := "2024-03-15", "09:30:00.000Z";
    assert date + "T" + time == "2024-03-15T09:30:00.000Z";
    DateOnlyOfTimestamp(date, time);
  }

  /** `error.message || 'Failed to post item'`. */
  function FailureMessage(message: string): (r: string)
    ensures r != ""
    ensures message != "" ==> r == message
    ensures message == "" ==> r == PostFailedMessage
  {
    if message != "" then message else PostFailedMessage
  }

  function SuccessMessage(kind: Kind): string
  {
    (if kind == Lost then "Lost" else "Found") + " item posted successfully!"
  }

  function RedirectTarget(kind: Kind): string
  {
    if kind == Lost then "/lost-items" else "/found-items"
  }

  /** The payload for a submission with a date, a user and the image URL found so far. */
  function Payload(sub: ItemForm.Submission, user: User, imageUrl: Option<string>): (p: InsertPayload)
    requires sub.form.date.Some?
    ensures p.contactInfo == ContactInfo(user.email, None)
  {
    var form := sub.form;
    InsertPayload(user.id, form.title, form.description, CategoryId(form.category), sub.kind,
      form.location, DateOnly(form.date.value.iso), imageUrl, ContactInfo(user.email, None))
  }

  /** How the `try` block ends: with an error caught (after the insert was sent, or before), or with the item posted. */
  datatype Outcome = Failed(sent: Option<InsertPayload>, message: string) | Posted(payload: InsertPayload)

  /** The outcome for a signed-in user, from the storage and database answers. */
  function AttemptOutcome(sub: ItemForm.Submission, user: User, storage: ItemForm.StorageAnswer, insertError: Option<BackendError>): Outcome
  {
    var form := sub.form;
    if form.image.Some? && storage.uploadError.Some? then
      Failed(None, FailureMessage(storage.uploadError.value.message))
    else if form.date.None? then
      Failed(None, MissingDateMessage)
    else
      var payload := Payload(sub, user, if form.image.Some? then Some(storage.publicUrl) else None);
      if insertError.Some? then Failed(Some(payload), FailureMessage(insertError.value.message))
      else Posted(payload)
  }

  /** The upload, when the submission carries an image. */
  function UploadSteps(sub: ItemForm.Submission, user: User, now: nat): seq<PostEffect>
  {
    if sub.form.image.Some? then [Upload(ItemForm.StorageKey(user.id, now, sub.form.image.value.name), sub.form.image.value)] else []
  }

  /** The steps that follow the upload: the insert if it was sent, then the toasts and the redirect. */
  function OutcomeSteps(kind: Kind, o: Outcome): seq<PostEffect>
  {
    match o
    case Failed(None, m) => [ErrorToast(m)]
    case Failed(Some(p), m) => [Insert(p), ErrorToast(m)]
    case Posted(p) => [Insert(p), SuccessToast(SuccessMessage(kind)), Navigate(RedirectTarget(kind))]
  }

  /** The steps of `handleSubmit(data)`: the login check, then the attempt between raising and lowering `loading`. */
  function PostEffects(sub: ItemForm.Submission, user: Option<User>, now: nat, storage: ItemForm.StorageAnswer, insertError: Option<BackendError>): seq<PostEffect>
  {
    if user.None? then [ErrorToast(LoginRequiredMessage)]
    else
      [SetLoading(true)] + UploadSteps(sub, user.value, now)
      + OutcomeSteps(sub.kind, AttemptOutcome(sub, user.value, storage, insertError)) + [SetLoading(false)]
  }

  predicate Inserts(effects: seq<PostEffect>)
  {
    exists e :: e in effects && e.Insert?
  }

  predicate Uploads(effects: seq<PostEffect>)
  {
    exists e :: e in effects && e.Upload?
  }

  predicate Navigates(effects: seq<PostEffect>)
  {
    exists e :: e in effects && e.Navigate?
  }

  predicate TouchesLoading(effects: seq<PostEffect>)
  {
    exists e :: e in effects && e.SetLoading?
  }

  /** Without a user the handler only reports the error: no `loading` change, no upload, no insert, no redirect. */
  lemma NoUserStops(sub: ItemForm.Submission, now: nat, storage: ItemForm.StorageAnswer, insertError: Option<BackendError>)
    ensures PostEffects(sub, None, now, storage, insertError) == [ErrorToast(LoginRequiredMessage)]
    ensures !TouchesLoading(PostEffects(sub, None, now, storage, insertError))
    ensures !Uploads(PostEffects(sub, None, now, storage, insertError))
    ensures !Inserts(PostEffects(sub, None, now, storage, insertError))
    ensures !Navigates(PostEffects(sub, None, now, storage, insertError))
  {
  }

  /** The insert goes out exactly when the upload did not fail (or there was none) and there is a date; the item is posted exactly when the database then reports no error. */
  lemma OutcomeCases(sub: ItemForm.Submission, user: User, storage: ItemForm.StorageAnswer, insertError: Option<BackendError>)
    ensures var o := AttemptOutcome(sub, user, storage, insertError);
      (o.Posted? || o.sent.Some?) <==>
        sub.form.date.Some? && (sub.form.image.None? || storage.uploadError.None?)
    ensures AttemptOutcome(sub, user, storage, insertError).Posted? <==>
      sub.form.date.Some? && (sub.form.image.None? || storage.uploadError.None?) && insertError.None?
    ensures sub.form.image.Some? && storage.uploadError.Some? ==>
      AttemptOutcome(sub, user, storage, insertError) == Failed(None, FailureMessage(storage.uploadError.value.message))
    ensures sub.form.date.Some? && (sub.form.image.None? || storage.uploadError.None?) && insertError.Some? ==>
      AttemptOutcome(sub, user, storage, insertError).Failed? &&
      AttemptOutcome(sub, user, storage, insertError).message == FailureMessage(insertError.value.message)
  {
  }

  /** The steps after the upload never touch `loading` or upload; they insert and redirect as the outcome says. */
  lemma OutcomeStepsFacts(kind: Kind, o: Outcome)
    ensures !TouchesLoading(OutcomeSteps(kind, o)) && !Uploads(OutcomeSteps(kind, o))
    ensures Inserts(OutcomeSteps(kind, o)) <==> o.Posted? || o.sent.Some?
    ensures Navigates(OutcomeSteps(kind, o)) <==> o.Posted?
    ensures |OutcomeSteps(kind, o)| >= 1
  {
    var s := OutcomeSteps(kind, o);
    match o {
      case Failed(None, m) =>
      case Failed(Some(p), m) => assert s[0] in s;
      case Posted(p) => assert s[0] in s && s[2] in s;
    }
  }

  /**
   * With a user, `loading` is raised first and lowered last on every path, and
   * not touched in between.
   */
  lemma LoadingBracket(sub: ItemForm.Submission, user: User, now: nat, storage: ItemForm.StorageAnswer, insertError: Option<BackendError>)
    ensures var e := PostEffects(sub, Some(user), now, storage, insertError);
      |e| >= 3 && e[0] == SetLoading(true) && e[|e| - 1] == SetLoading(false) &&
      !TouchesLoading(e[1..|e| - 1])
  {
    var e := PostEffects(sub, Some(user), now, storage, insertError);
    var u := UploadSteps(sub, user, now);
    var t := OutcomeSteps(sub.kind, AttemptOutcome(sub, user, storage, insertError));
    OutcomeStepsFacts(sub.kind, AttemptOutcome(sub, user, storage, insertError));
    assert e[1..|e| - 1] == u + t;
  }

  /** An upload happens exactly when there is a user and an image, right after `loading` is raised, under the key built from the user, the clock and the file name. */
  lemma UploadsExactly(sub: ItemForm.Submission, user: Option<User>, now: nat, storage: ItemForm.StorageAnswer, insertError: Option<BackendError>)
    ensures Uploads(PostEffects(sub, user, now, storage, insertError)) <==> user.Some? && sub.form.image.Some?
    ensures user.Some? && sub.form.image.Some? ==>
      PostEffects(sub, user, now, storage, insertError)[1] ==
        Upload(ItemForm.StorageKey(user.value.id, now, sub.form.image.value.name), sub.form.image.value)
  {
    if user.Some? {
      var e := PostEffects(sub, user, now, storage, insertError);
      var u := UploadSteps(sub, user.value, now);
      OutcomeStepsFacts(sub.kind, AttemptOutcome(sub, user.value, storage, insertError));
      if sub.form.image.Some? {
        assert e[1] == u[0] && e[1] in e;
      }
    }
  }

  /**
   * The insert is sent exactly when there is a user, a date, and either no
   * image or an upload without error; an upload error therefore skips it.
   */
  lemma InsertsExactly(sub: ItemForm.Submission, user: Option<User>, now: nat, storage: ItemForm.StorageAnswer, insertError: Option<BackendError>)
    ensures Inserts(PostEffects(sub, user, now, storage, insertError)) <==>
      user.Some? && sub.form.date.Some? && (sub.form.image.None? || storage.uploadError.None?)
  {
    if user.Some? {
      OutcomeCases(sub, user.value, storage, insertError);
      OutcomeStepsFacts(sub.kind, AttemptOutcome(sub, user.value, storage, insertError));
    }
  }

  /**
   * What is inserted: the user's id, the form's text fields, `category_id` null
   * exactly for an empty category, the date part of the ISO timestamp, the
   * public URL when there is an image and null when there is none, and the
   * user's email with a null phone.
   */
  lemma InsertedPayload(sub: ItemForm.Submission, user: User, now: nat, storage: ItemForm.StorageAnswer, insertError: Option<BackendError>, p: InsertPayload)
    requires Insert(p) in PostEffects(sub, Some(user), now, storage, insertError)
    ensures sub.form.date.Some?
    ensures p == InsertPayload(user.id, sub.form.title, sub.form.description,
        if sub.form.category == "" then None else Some(sub.form.category),
        sub.kind, sub.form.location, DateOnly(sub.form.date.value.iso),
        if sub.form.image.Some? then Some(storage.publicUrl) else None,
        ContactInfo(user.email, None))
    ensures 'T' !in p.dateOccurred && p.contactInfo.phone == None
  {
    var o := AttemptOutcome(sub, user, storage, insertError);
    OutcomeStepsFacts(sub.kind, o);
    assert Insert(p) in OutcomeSteps(sub.kind, o);
    DateOnlyIsPrefix(sub.form.date.value.iso);
  }

  /**
   * The redirect happens exactly when the insert goes through without error; it
   * is to the list of the posted kind and follows the success toast.
   */
  lemma RedirectsExactly(sub: ItemForm.Submission, user: Option<User>, now: nat, storage: ItemForm.StorageAnswer, insertError: Option<BackendError>)
    ensures Navigates(PostEffects(sub, user, now, storage, insertError)) <==>
      Inserts(PostEffects(sub, user, now, storage, insertError)) && insertError.None?
    ensures Navigates(PostEffects(sub, user, now, storage, insertError)) ==>
      var e := PostEffects(sub, user, now, storage, insertError);
      |e| >= 3 &&
      e[|e| - 3] == SuccessToast(SuccessMessage(sub.kind)) &&
      e[|e| - 2] == Navigate(if sub.kind == Lost then "/lost-items" else "/found-items")
  {
    InsertsExactly(sub, user, now, storage, insertError);
    if user.Some? {
      OutcomeCases(sub, user.value, storage, insertError);
      OutcomeStepsFacts(sub.kind, AttemptOutcome(sub, user.value, storage, insertError));
    }
  }

  /** A failed upload or insert is reported with the error's own message, or the fallback when that message is empty, just before `loading` is lowered. */
  lemma FailureReported(sub: ItemForm.Submission, user: User, now: nat, storage: ItemForm.StorageAnswer, insertError: Option<BackendError>)
    ensures var e := PostEffects(sub, Some(user), now, storage, insertError);
      sub.form.image.Some? && storage.uploadError.Some? ==>
        e[|e| - 2] == ErrorToast(FailureMessage(storage.uploadError.value.message)) && !Inserts(e)
    ensures var e := PostEffects(sub, Some(user), now, storage, insertError);
      sub.form.date.Some? && (sub.form.image.None? || storage.uploadError.None?) && insertError.Some? ==>
        e[|e| - 2] == ErrorToast(FailureMessage(insertError.value.message))
  {
    OutcomeCases(sub, user, storage, insertError);
    InsertsExactly(sub, Some(user), now, storage, insertError);
  }

  /** The page's state: the `loading` flag it passes to the form. */
  class PostPage {
    var loading: bool

    constructor()
      ensures !loading
    {
      loading := false;
    }

    /** `handleSubmit(data)`, with the `try`/`catch`/`finally` written out as a pending failure message. */
    method HandleSubmit(sub: ItemForm.Submission, user: Option<User>, now: nat, storage: ItemForm.StorageAnswer, insertError: Option<BackendError>)
      returns (effects: seq<PostEffect>)
      modifies this
      ensures effects == PostEffects(sub, user, now, storage, insertError)
      ensures user.None? ==> loading == old(loading)
      ensures user.Some? ==> !loading
    {
      if user.None? {
        return [ErrorToast(LoginRequiredMessage)];
      }
      var u := user.value;
      loading := true;
      effects := [SetLoading(true)];
      var failure: Option<string> := None;
      var imageUrl: Option<string> := None;
      if sub.form.image.Some? {
        var file := sub.form.image.value;
        effects := effects + [Upload(ItemForm.StorageKey(u.id, now, file.name), file)];
        if storage.uploadError.Some? {
          failure := Some(FailureMessage(storage.uploadError.value.message));
        } else {
          imageUrl := Some(storage.publicUrl);
        }
      }
      assert effects == [SetLoading(true)] + UploadSteps(sub, u, now);
      if failure.None? {
        if sub.form.date.None? {
          failure := Some(MissingDateMessage);
        } else {
          effects := effects + [Insert(Payload(sub, u, imageUrl))];
          if insertError.Some? {
            failure := Some(FailureMessage(insertError.value.message));
          } else {
            effects := effects + [SuccessToast(SuccessMessage(sub.kind)), Navigate(RedirectTarget(sub.kind))];
          }
        }
      }
      if failure.Some? {
        effects := effects + [ErrorToast(failure.value)];
      }
      assert effects == [SetLoading(true)] + UploadSteps(sub, u, now) + OutcomeSteps(sub.kind, AttemptOutcome(sub, u, storage, insertError));
      loading := false;
      effects := effects + [SetLoading(false)];
    }
  }
}
