/**
 * The news create screen: a form of text fields, rich-text content, a tag
 * list built from a free-text input, and a submit that reports success or
 * failure in one message line.
 */
module NewsCreate {
  import opened Js
  import opened Http

  const CreatedMessage := "News article created successfully."
  const CreateFallback := "Failed to create news."

  /** The form state; `content` is the editor's HTML. */
  datatype NewsForm = NewsForm(
    title: string,
    excerpt: string,
    content: string,
    category: string,
    tags: seq<string>,
    status: string,
    featuredImage: string,
    metaTitle: string,
    metaDescription: string,
    publishedAt: string)

  /** Every field empty, no tags, status "draft". */
  const InitialForm := NewsForm("", "", "", "", [], "draft", "", "", "", "")

  /** The inputs and the select `handleChange` serves, by their `name` attribute. */
  datatype NewsField = Title | Excerpt | Status | Category | FeaturedImage | MetaTitle | MetaDescription | PublishedAt

  /** `form[field]`: the value an input bound to `field` displays. */
  function FieldOf(form: NewsForm, field: NewsField): string {
    match field
    case Title => form.title
    case Excerpt => form.excerpt
    case Status => form.status
    case Category => form.category
    case FeaturedImage => form.featuredImage
    case MetaTitle => form.metaTitle
    case MetaDescription => form.metaDescription
    case PublishedAt => form.publishedAt
  }

  /** `setForm(prev => ({...prev, [field]: value}))`: one field changes, the tags and the content never do. */
  function WithField(form: NewsForm, field: NewsField, value: string): (r: NewsForm)
    ensures FieldOf(r, field) == value
    ensures forall other :: other != field ==> FieldOf(r, other) == FieldOf(form, other)
    ensures r.tags == form.tags && r.content == form.content
  {
    match field
    case Title => form.(title := value)
    case Excerpt => form.(excerpt := value)
    case Status => form.(status := value)
    case Category => form.(category := value)
    case FeaturedImage => form.(featuredImage := value)
    case MetaTitle => form.(metaTitle := value)
    case MetaDescription => form.(metaDescription := value)
    case PublishedAt => form.(publishedAt := value)
  }

  /** The tag list the input can produce: no duplicates, no empty tag, no surrounding whitespace. */
  predicate WellFormedTags(tags: seq<string>) {
    Distinct(tags) && forall t :: t in tags ==> t != "" && IsTrimmed(t)
  }

  /** What Enter does to the tag list: the trimmed input is appended unless it is blank or already there. */
  function AddedTag(tags: seq<string>, input: string): seq<string> {
    var value := Trim(input);
    if value == "" || Includes(tags, value) then tags else tags + [value]
  }

  /** The chip's remove button: every copy of `tag` leaves the list, the rest keep their order. */
  function RemovedTag(tags: seq<string>, tag: string): (r: seq<string>)
    ensures tag !in r
    ensures IsSubsequence(r, tags)
    ensures forall t :: t in tags && t != tag ==> t in r
    ensures forall t :: t in tags && t != tag ==> multiset(r)[t] == multiset(tags)[t]
  {
    FilterCounts(tags, (t: string) => t != tag);
    Filter(tags, (t: string) => t != tag)
  }

  /** The form is determined by its eight text fields, its tags and its content. */
  lemma FormsAgree(a: NewsForm, b: NewsForm)
    requires forall f :: FieldOf(a, f) == FieldOf(b, f)
    requires a.tags == b.tags && a.content == b.content
    ensures a == b
  {
    assert FieldOf(a, Title) == FieldOf(b, Title) && FieldOf(a, Excerpt) == FieldOf(b, Excerpt);
    assert FieldOf(a, Status) == FieldOf(b, Status) && FieldOf(a, Category) == FieldOf(b, Category);
    assert FieldOf(a, FeaturedImage) == FieldOf(b, FeaturedImage) && FieldOf(a, MetaTitle) == FieldOf(b, MetaTitle);
    assert FieldOf(a, MetaDescription) == FieldOf(b, MetaDescription) && FieldOf(a, PublishedAt) == FieldOf(b, PublishedAt);
  }

  /** Typing the value a field already shows changes nothing; typing twice keeps the last value. */
  lemma {:induction false} WithFieldLaws(form: NewsForm, field: NewsField, a: string, b: string)
    ensures WithField(form, field, FieldOf(form, field)) == form
    ensures WithField(WithField(form, field, a), field, b) == WithField(form, field, b)
  {
    FormsAgree(WithField(form, field, FieldOf(form, field)), form);
    FormsAgree(WithField(WithField(form, field, a), field, b), WithField(form, field, b));
  }

  /** Adding a tag keeps the list well formed. */
  lemma AddedTagWellFormed(tags: seq<string>, input: string)
    requires WellFormedTags(tags)
    ensures Distinct(AddedTag(tags, input))
    ensures forall t :: t in AddedTag(tags, input) ==> t != "" && IsTrimmed(t)
  {
    TrimIsTrimmedSlice(input);
  }

  /** Removing a tag keeps the list well formed. */
  lemma RemovedTagWellFormed(tags: seq<string>, tag: string)
    requires WellFormedTags(tags)
    ensures WellFormedTags(RemovedTag(tags, tag))
  {
    FilterKeepsDistinct(tags, (t: string) => t != tag);
  }

  /** After Enter the trimmed input is in the list, whether it was added now or before. */
  lemma AddedTagPresent(tags: seq<string>, input: string)
    requires Trim(input) != ""
    ensures Trim(input) in AddedTag(tags, input)
    ensures forall t :: t in tags ==> t in AddedTag(tags, input)
  {
  }

  /** A blank input (only whitespace) adds nothing. */
  lemma {:induction false} BlankInputAddsNothing(tags: seq<string>, input: string)
    requires forall i :: 0 <= i < |input| ==> IsWhitespace(input[i])
    ensures AddedTag(tags, input) == tags
  {
    TrimEmptyIff(input);
  }

  /** Surrounding whitespace makes no difference: the input and its trimmed form add the same tag. */
  lemma {:induction false} AddedTagIgnoresPadding(tags: seq<string>, input: string)
    ensures AddedTag(tags, Trim(input)) == AddedTag(tags, input)
  {
    TrimIdempotent(input);
  }

  /** Pressing Enter twice with the same input adds the tag once. */
  lemma AddedTagIdempotent(tags: seq<string>, input: string)
    ensures AddedTag(AddedTag(tags, input), input) == AddedTag(tags, input)
  {
  }

  /** Removing a tag that was just added restores the list as it was. */
  lemma {:induction false} RemoveUndoesAdd(tags: seq<string>, input: string)
    requires Trim(input) !in tags
    ensures RemovedTag(AddedTag(tags, input), Trim(input)) == tags
  {
    var value := Trim(input);
    var keep := (t: string) => t != value;
    if value != "" {
      FilterSnoc(tags, value, keep);
    }
    FilterKeepsAll(tags, keep);
  }

  /** The message line's style: `messageType` is null, "success" or "error". */
  datatype MessageType = Success | Error

  class NewsCreatePage {
    var form: NewsForm
    var tagInput: string
    var saving: bool
    var message: string
    var messageType: Option<MessageType>

    /** The tag list stays well formed (kept by every method below). */
    predicate TagsWellFormed()
      reads this
    {
      WellFormedTags(form.tags)
    }

    /** The initial `useState` values. */
    constructor ()
      ensures form == InitialForm && tagInput == "" && !saving && message == "" && messageType == None
      ensures TagsWellFormed()
    {
      form, tagInput := InitialForm, "";
      saving, message, messageType := false, "", None;
    }

    /** Typing in a text input or choosing a status. */
    method HandleChange(field: NewsField, value: string)
      requires TagsWellFormed()
      modifies this
      ensures TagsWellFormed()
      ensures form == WithField(old(form), field, value)
      ensures tagInput == old(tagInput) && saving == old(saving)
      ensures message == old(message) && messageType == old(messageType)
    {
      form := WithField(form, field, value);
    }

    /** The editor's `onUpdate`: the content becomes the editor's HTML. */
    method SetContent(html: string)
      requires TagsWellFormed()
      modifies this
      ensures TagsWellFormed()
      ensures form == old(form).(content := html)
      ensures tagInput == old(tagInput) && saving == old(saving)
      ensures message == old(message) && messageType == old(messageType)
    {
      form := form.(content := html);
    }

    /** Typing in the tag input. */
    method SetTagInput(value: string)
      requires TagsWellFormed()
      modifies this
      ensures TagsWellFormed()
      ensures tagInput == value
      ensures form == old(form) && saving == old(saving)
      ensures message == old(message) && messageType == old(messageType)
    {
      tagInput := value;
    }

    /**
     * A key press in the tag input. Only Enter on a non-blank input acts
     * (`handled`, when the default is prevented): the trimmed input joins the
     * tags unless it is already one, and the input is cleared even then.
     * The input sits inside the article form, so an Enter that is not
     * `handled` is the browser's implicit submission: the caller follows it
     * with `HandleSubmit` (unless the submit button is disabled while saving).
     */
    method HandleAddTag(key: string) returns (handled: bool)
      requires TagsWellFormed()
      modifies this
      ensures TagsWellFormed()
      ensures handled <==> key == "Enter" && Trim(old(tagInput)) != ""
      ensures handled ==> form.tags == AddedTag(old(form.tags), old(tagInput)) && tagInput == ""
      ensures handled ==> Trim(old(tagInput)) in form.tags
      ensures !handled ==> form == old(form) && tagInput == old(tagInput)
      ensures form == old(form).(tags := form.tags)
      ensures saving == old(saving) && message == old(message) && messageType == old(messageType)
    {
      handled := false;
      if key == "Enter" && Trim(tagInput) != "" {
        handled := true;
        var value := Trim(tagInput);
        AddedTagWellFormed(form.tags, tagInput);
        AddedTagPresent(form.tags, tagInput);
        if !Includes(form.tags, value) {
          form := form.(tags := form.tags + [value]);
        }
        tagInput := "";
      }
    }

    /** The remove button on a tag chip. */
    method RemoveTag(tag: string)
      requires TagsWellFormed()
      modifies this
      ensures TagsWellFormed()
      ensures form == old(form).(tags := RemovedTag(old(form.tags), tag))
      ensures tag !in form.tags
      ensures tagInput == old(tagInput) && saving == old(saving)
      ensures message == old(message) && messageType == old(messageType)
    {
      RemovedTagWellFormed(form.tags, tag);
      form := form.(tags := RemovedTag(form.tags, tag));
    }

    /**
     * Submitting the form, settled with `reply` to the `POST /news`: the
     * message line always shows afterwards, styled by the outcome; the form is
     * kept either way.
     */
    method HandleSubmit(reply: Response<()>)
      requires TagsWellFormed()
      modifies this
      ensures TagsWellFormed()
      ensures !saving && message != "" && messageType.Some?
      ensures reply.Ok? ==> message == CreatedMessage && messageType == Some(Success)
      ensures reply.Failed? ==> message == ErrorText(reply.message, CreateFallback) && messageType == Some(Error)
      ensures form == old(form) && tagInput == old(tagInput)
    {
      saving := true;
      message := "";
      messageType := None;
      match reply {
        case Ok(_) =>
          message := CreatedMessage;
          messageType := Some(Success);
        case Failed(msg) =>
          message := ErrorText(msg, CreateFallback);
          messageType := Some(Error);
      }
      saving := false;
    }
  }
}
