/**
 * The item form component: its form state and the handlers that update it, the
 * derivation of the storage key for an uploaded image, and the submit handler's
 * sequence of checks (required fields, then the optional image upload, then the
 * hand-off to the page's `onSubmit`).
 */
module ItemForm {
  import opened Strings
  import opened Runtime
  import opened Listings

  /** The form's record state. */
  datatype FormData = FormData(
    title: string,
    description: string,
    category: string,
    location: string,
    date: Option<Date>,
    image: Option<File>)

  const InitialForm := FormData("", "", "", "", None, None)

  /** The keys of the form record, and the values `handleInputChange` writes. */
  datatype Field = Title | Description | Category | Location | DateField | ImageField

  datatype FieldValue = Text(text: string) | DateValue(date: Option<Date>) | FileValue(file: Option<File>)

  /** The value has the type of the field it is written to. */
  predicate Fits(field: Field, value: FieldValue)
  {
    match field
    case DateField => value.DateValue?
    case ImageField => value.FileValue?
    case _ => value.Text?
  }

  function Get(form: FormData, field: Field): (v: FieldValue)
    ensures Fits(field, v)
  {
    match field
    case Title => Text(form.title)
    case Description => Text(form.description)
    case Category => Text(form.category)
    case Location => Text(form.location)
    case DateField => DateValue(form.date)
    case ImageField => FileValue(form.image)
  }

  /** `{ ...prev, [field]: value }`. */
  function Updated(form: FormData, field: Field, value: FieldValue): (r: FormData)
    requires Fits(field, value)
    ensures Get(r, field) == value
    ensures forall g :: g != field ==> Get(r, g) == Get(form, g)
  {
    match field
    case Title => form.(title := value.text)
    case Description => form.(description := value.text)
    case Category => form.(category := value.text)
    case Location => form.(location := value.text)
    case DateField => form.(date := value.date)
    case ImageField => form.(image := value.file)
  }

  /** A form is determined by its six fields, so `Updated` changes the named field and nothing else. */
  lemma FormExtensional(a: FormData, b: FormData)
    requires forall g :: Get(a, g) == Get(b, g)
    ensures a == b
  {
    assert Get(a, Title) == Get(b, Title);
    assert Get(a, Description) == Get(b, Description);
    assert Get(a, Category) == Get(b, Category);
    assert Get(a, Location) == Get(b, Location);
    assert Get(a, DateField) == Get(b, DateField);
    assert Get(a, ImageField) == Get(b, ImageField);
  }

  /** Writing back what a field already holds changes nothing; the last write to a field wins. */
  lemma UpdatedLaws(form: FormData, field: Field, v: FieldValue, w: FieldValue)
    requires Fits(field, v) && Fits(field, w)
    ensures Updated(form, field, Get(form, field)) == form
    ensures Updated(Updated(form, field, v), field, w) == Updated(form, field, w)
  {
    FormExtensional(Updated(form, field, Get(form, field)), form);
    FormExtensional(Updated(Updated(form, field, v), field, w), Updated(form, field, w));
  }

  /** `file.name.split('.').pop()`: the text after the last dot, or the whole name when it has none. */
  function FileExtension(name: string): string
  {
    var pieces := Split(name, '.');
    pieces[|pieces| - 1]
  }

  /** The extension never holds a dot; a name without a dot is its own extension. */
  lemma ExtensionHasNoDot(name: string)
    ensures '.' !in FileExtension(name)
    ensures '.' !in name ==> FileExtension(name) == name
  {
    SplitPiecesClean(name, '.');
    if '.' !in name {
      SplitWithoutSeparator(name, '.');
    }
  }

  /** A name with a dot ends with a dot followed by its extension. */
  lemma NameEndsWithExtension(name: string)
    requires '.' in name
    ensures exists stem :: name == stem + "." + FileExtension(name)
  {
    var pieces := Split(name, '.');
    JoinSplit(name, '.');
    SplitPiecesClean(name, '.');
    var init := pieces[..|pieces| - 1];
    assert pieces == init + [FileExtension(name)];
    JoinSnoc(init, FileExtension(name), ".");
    assert name == Join(init, ".") + "." + FileExtension(name);
  }

  /** `${user.id}/${Date.now()}.${fileExt}`, with the clock reading passed in. */
  function StorageKey(userId: string, now: nat, fileName: string): string
  {
    userId + "/" + Decimal(now) + "." + FileExtension(fileName)
  }

  /** The key keeps the file's extension: reading the extension off the key gives the file's own. */
  lemma StorageKeyExtension(userId: string, now: nat, fileName: string)
    ensures FileExtension(StorageKey(userId, now, fileName)) == FileExtension(fileName)
  {
    var ext := FileExtension(fileName);
    var front := userId + "/" + Decimal(now);
    ExtensionHasNoDot(fileName);
    assert StorageKey(userId, now, fileName) == front + ['.'] + ext;
    SplitAppend(front, ext, '.');
    SplitWithoutSeparator(ext, '.');
  }

  /** What the storage service answers to an upload: an error, and otherwise the public URL of the key. */
  datatype StorageAnswer = StorageAnswer(uploadError: Option<BackendError>, publicUrl: string)

  /** `uploadImage`: the key it uploads under, if it gets that far, and the URL it resolves to (`null` is `None`). */
  datatype UploadResult = UploadResult(uploadedKey: Option<string>, url: Option<string>)

  function UploadImage(file: File, user: Option<User>, now: nat, storage: StorageAnswer): (r: UploadResult)
    ensures user.None? ==> r == UploadResult(None, None)
    ensures user.Some? ==> r.uploadedKey == Some(StorageKey(user.value.id, now, file.name))
    ensures r.url.Some? <==> user.Some? && storage.uploadError.None?
    ensures r.url.Some? ==> r.url.value == storage.publicUrl
  {
    if user.None? then UploadResult(None, None)
    else
      var key := StorageKey(user.value.id, now, file.name);
      if storage.uploadError.Some? then UploadResult(Some(key), None)
      else UploadResult(Some(key), Some(storage.publicUrl))
  }

  /** The title, description, location and date must be given; the category and the image need not. */
  predicate RequiredFilled(form: FormData)
  {
    form.title != "" && form.description != "" && form.location != "" && form.date.Some?
  }

  /** What `onSubmit` receives: the form record as it stands, with the button's type. */
  datatype Submission = Submission(form: FormData, kind: Kind)

  /** The observable steps of one submit: toasts, the storage upload, the call to `onSubmit`. */
  datatype FormEffect = ErrorToast(message: string) | StorageUpload(key: string, file: File) | OnSubmit(submission: Submission)

  const RequiredFieldsMessage := "Please fill in all required fields"
  const UploadFailedMessage := "Failed to upload image"

  /** The steps `handleSubmit(kind)` takes for a form, a user, a clock reading and a storage answer. */
  function SubmitEffects(form: FormData, kind: Kind, user: Option<User>, now: nat, storage: StorageAnswer): seq<FormEffect>
  {
    if !RequiredFilled(form) then [ErrorToast(RequiredFieldsMessage)]
    else if form.image.None? then [OnSubmit(Submission(form, kind))]
    else
      var up := UploadImage(form.image.value, user, now, storage);
      var uploads := if up.uploadedKey.Some? then [StorageUpload(up.uploadedKey.value, form.image.value)] else [];
      if up.url.None? || up.url.value == "" then uploads + [ErrorToast(UploadFailedMessage)]
      else uploads + [OnSubmit(Submission(form, kind))]
  }

  predicate Submits(effects: seq<FormEffect>)
  {
    exists i :: 0 <= i < |effects| && effects[i].OnSubmit?
  }

  predicate Uploads(effects: seq<FormEffect>)
  {
    exists i :: 0 <= i < |effects| && effects[i].StorageUpload?
  }

  /** A missing title, description, location or date stops the submit at the toast: no upload and no `onSubmit`. */
  lemma IncompleteFormStops(form: FormData, kind: Kind, user: Option<User>, now: nat, storage: StorageAnswer)
    requires !RequiredFilled(form)
    ensures SubmitEffects(form, kind, user, now, storage) == [ErrorToast(RequiredFieldsMessage)]
    ensures !Submits(SubmitEffects(form, kind, user, now, storage))
    ensures !Uploads(SubmitEffects(form, kind, user, now, storage))
  {
  }

  /**
   * `onSubmit` is reached exactly when the required fields are filled and either
   * there is no image or its upload produced a non-empty URL; it is then the last
   * step, reached once, and it gets the form unchanged (the image stays the file,
   * the URL is dropped) with the chosen type.
   */
  lemma SubmitsExactly(form: FormData, kind: Kind, user: Option<User>, now: nat, storage: StorageAnswer)
    ensures Submits(SubmitEffects(form, kind, user, now, storage)) <==>
      RequiredFilled(form) &&
      (form.image.None? || (user.Some? && storage.uploadError.None? && storage.publicUrl != ""))
    ensures forall i ::
      (0 <= i < |SubmitEffects(form, kind, user, now, storage)| &&
       SubmitEffects(form, kind, user, now, storage)[i].OnSubmit?) ==>
        (i == |SubmitEffects(form, kind, user, now, storage)| - 1 &&
         SubmitEffects(form, kind, user, now, storage)[i].submission == Submission(form, kind))
  {
    var e := SubmitEffects(form, kind, user, now, storage);
    if RequiredFilled(form) && form.image.Some? {
      var up := UploadImage(form.image.value, user, now, storage);
      if up.url.None? || up.url.value == "" {
        assert e[|e| - 1].ErrorToast? && forall i :: 0 <= i < |e| - 1 ==> e[i].StorageUpload?;
      } else {
        assert e[|e| - 1].OnSubmit? && forall i :: 0 <= i < |e| - 1 ==> e[i].StorageUpload?;
        assert Submits(e);
      }
    }
  }

  /** Without an image there is no upload and `onSubmit` is called once; with one, the upload happens exactly when a user is signed in. */
  lemma UploadsExactly(form: FormData, kind: Kind, user: Option<User>, now: nat, storage: StorageAnswer)
    requires RequiredFilled(form)
    ensures form.image.None? ==> SubmitEffects(form, kind, user, now, storage) == [OnSubmit(Submission(form, kind))]
    ensures Uploads(SubmitEffects(form, kind, user, now, storage)) <==> form.image.Some? && user.Some?
    ensures form.image.Some? && user.Some? ==>
      SubmitEffects(form, kind, user, now, storage)[0] ==
        StorageUpload(StorageKey(user.value.id, now, form.image.value.name), form.image.value)
  {
    var e := SubmitEffects(form, kind, user, now, storage);
    if form.image.None? {
      assert |e| == 1 && e[0].OnSubmit?;
    } else if user.None? {
      assert |e| == 1 && e[0].ErrorToast?;
    } else {
      assert e[0].StorageUpload?;
    }
  }

  /** The category is not checked: an empty category submits exactly as a chosen one does. */
  lemma CategoryNotRequired(form: FormData, c: string, kind: Kind, user: Option<User>, now: nat, storage: StorageAnswer)
    ensures Submits(SubmitEffects(form.(category := c), kind, user, now, storage)) ==
      Submits(SubmitEffects(form.(category := ""), kind, user, now, storage))
  {
    SubmitsExactly(form.(category := c), kind, user, now, storage);
    SubmitsExactly(form.(category := ""), kind, user, now, storage);
  }

  /** The form component's state: the record and the data URL of the image preview. */
  class Form {
    var formData: FormData
    var imagePreview: Option<string>

    constructor()
      ensures formData == InitialForm && imagePreview == None
    {
      formData := InitialForm;
      imagePreview := None;
    }

    /** `handleInputChange(field, value)`: the named field takes the value; every other field and the preview stay. */
    method HandleInputChange(field: Field, value: FieldValue)
      requires Fits(field, value)
      modifies this
      ensures formData == Updated(old(formData), field, value)
      ensures Get(formData, field) == value
      ensures forall g :: g != field ==> Get(formData, g) == Get(old(formData), g)
      ensures imagePreview == old(imagePreview)
    {
      formData := Updated(formData, field, value);
    }

    /**
     * `handleImageChange`: the first chosen file becomes the image; with no file
     * nothing changes. The preview is set later, when the file reader finishes.
     */
    method HandleImageChange(files: seq<File>)
      modifies this
      ensures |files| > 0 ==> formData == old(formData).(image := Some(files[0]))
      ensures |files| == 0 ==> formData == old(formData)
      ensures imagePreview == old(imagePreview)
    {
      if |files| > 0 {
        formData := formData.(image := Some(files[0]));
      }
    }

    /** `removeImage`: clears the image and the preview and leaves the other fields. */
    method RemoveImage()
      modifies this
      ensures formData == old(formData).(image := None)
      ensures imagePreview == None
    {
      formData := formData.(image := None);
      imagePreview := None;
    }

    /** `handleSubmit(kind)`: checks the required fields, uploads the image if there is one, then calls `onSubmit`. */
    method HandleSubmit(kind: Kind, user: Option<User>, now: nat, storage: StorageAnswer) returns (effects: seq<FormEffect>)
      ensures effects == SubmitEffects(formData, kind, user, now, storage)
    {
      if formData.title == "" || formData.description == "" || formData.location == "" || formData.date.None? {
        return [ErrorToast(RequiredFieldsMessage)];
      }
      effects := [];
      var imageUrl: Option<string> := None;
      if formData.image.Some? {
        var up := UploadImage(formData.image.value, user, now, storage);
        if up.uploadedKey.Some? {
          effects := effects + [StorageUpload(up.uploadedKey.value, formData.image.value)];
        }
        imageUrl := up.url;
        if imageUrl.None? || imageUrl.value == "" {
          effects := effects + [ErrorToast(UploadFailedMessage)];
          return;
        }
      }
      effects := effects + [OnSubmit(Submission(formData, kind))];
    }
  }
}
