/**
 * The create-list form: two text fields and the per-field error messages.
 * Submitting normalises the input and either reports a blank title or
 * issues a `createList` mutation; the mutation's callbacks reset the form
 * or map the server's error onto the fields.
 */
module CreateListForm {
  import opened Api
  import opened Text
  import TodoRouter

  const TitleRequired := "Title is required"

  /** The `maxLength` attributes of the title input and the description textarea. */
  const TitleMaxLength := 100
  const DescriptionMaxLength := 500

  /** The message shown under each field, if any. */
  datatype FormErrors = FormErrors(title: Option<string>, description: Option<string>)

  const NoErrors := FormErrors(None, None)

  /**
   * The request a submission sends, or none when the title is blank: the
   * title trimmed, and the description trimmed or left out when blank.
   */
  function Submission(title: string, description: string): (r: Option<Request>)
    ensures r.None? <==> AllWhitespace(title)
    ensures r.Some? ==>
      && r.value.CreateList?
      && r.value.title == Trim(title) != []
      && (r.value.description.None? <==> AllWhitespace(description))
      && (r.value.description.Some? ==> r.value.description.value == Trim(description) != [])
  {
    TrimEmptyIff(title);
    TrimEmptyIff(description);
    if Trim(title) == [] then None
    else Some(CreateList(Trim(title), if Trim(description) == [] then None else Some(Trim(description))))
  }

  /**
   * Whatever the input fields can hold, a request the form sends passes
   * the server's input validation.
   */
  lemma SubmissionPassesValidation(title: string, description: string)
    requires |title| <= TitleMaxLength && |description| <= DescriptionMaxLength
    requires Submission(title, description).Some?
    ensures var req := Submission(title, description).value;
      TodoRouter.ValidateCreateList(req.title, req.description) == map[]
  {
  }

  /** The submit button is disabled while a create is pending or the title is blank. */
  function SubmitDisabled(isPending: bool, title: string): (disabled: bool)
    ensures disabled <==> isPending || AllWhitespace(title)
    ensures !disabled ==> forall description :: Submission(title, description).Some?
  {
    TrimEmptyIff(title);
    isPending || Trim(title) == []
  }

  /** The last of a field's messages, as the `forEach` that overwrites the field leaves it. */
  method LastMessage(messages: seq<string>) returns (last: Option<string>)
    ensures messages == [] <==> last.None?
    ensures messages != [] ==> last == Some(messages[|messages| - 1])
  {
    last := None;
    for i := 0 to |messages|
      invariant i == 0 <==> last.None?
      invariant i > 0 ==> last == Some(messages[i - 1])
    {
      last := Some(messages[i]);
    }
  }

  /** The field messages an error from `createList` produces. */
  function ErrorsFor(error: ClientError): (errors: FormErrors)
    ensures error.zodError.Some? ==>
      var fields := error.zodError.value;
      && (errors.title.Some? <==> MessagesOf(fields, "title") != [])
      && (errors.title.Some? ==> errors.title.value == MessagesOf(fields, "title")[|MessagesOf(fields, "title")| - 1])
      && (errors.description.Some? <==> MessagesOf(fields, "description") != [])
      && (errors.description.Some? ==>
            errors.description.value == MessagesOf(fields, "description")[|MessagesOf(fields, "description")| - 1])
    ensures error.zodError.None? ==> errors == FormErrors(Some(error.message), None)
  {
    match error.zodError
    case Some(fields) =>
      var title := MessagesOf(fields, "title");
      var description := MessagesOf(fields, "description");
      FormErrors(if title == [] then None else Some(title[|title| - 1]),
                 if description == [] then None else Some(description[|description| - 1]))
    case None => FormErrors(Some(error.message), None)
  }

  /**
   * When the server rejects the input of `createList`, each rejected field
   * shows the server's message for it and the other field shows nothing.
   */
  lemma RejectionShownPerField(title: string, description: Option<string>, rendered: string)
    requires TodoRouter.ValidateCreateList(title, description) != map[]
    ensures var fields := TodoRouter.ValidateCreateList(title, description);
      var errors := ErrorsFor(ToClientError(BadInput(fields), rendered));
      && (errors.title.Some? <==> "title" in fields)
      && (errors.title.Some? ==> errors.title.value == fields["title"][0])
      && (errors.description.Some? <==> "description" in fields)
      && (errors.description.Some? ==> errors.description.value == TodoRouter.DescriptionTooLong)
  {
  }

  /** The state of one form: its two fields and the messages under them. */
  class FormState {
    var title: string
    var description: string
    var errors: FormErrors

    /** The fields never hold more than their `maxLength`. */
    ghost predicate Valid()
      reads this
    {
      |title| <= TitleMaxLength && |description| <= DescriptionMaxLength
    }

    constructor ()
      ensures Valid()
      ensures title == "" && description == "" && errors == NoErrors
    {
      title, description, errors := "", "", NoErrors;
    }

    /** Typing in the title input; the input holds at most `TitleMaxLength` characters. */
    method ChangeTitle(value: string)
      requires Valid() && |value| <= TitleMaxLength
      modifies this
      ensures Valid()
      ensures title == value && description == old(description) && errors == old(errors)
    {
      title := value;
    }

    /** Typing in the description; the textarea holds at most `DescriptionMaxLength` characters. */
    method ChangeDescription(value: string)
      requires Valid() && |value| <= DescriptionMaxLength
      modifies this
      ensures Valid()
      ensures description == value && title == old(title) && errors == old(errors)
    {
      description := value;
    }

    /**
     * `handleSubmit`: clear the errors, then either flag a blank title or
     * issue the mutation, which the server's validation then accepts.
     */
    method HandleSubmit() returns (mutation: Option<Request>)
      requires Valid()
      modifies this
      ensures Valid()
      ensures title == old(title) && description == old(description)
      ensures mutation == Submission(old(title), old(description))
      ensures mutation.None? ==> errors == FormErrors(Some(TitleRequired), None)
      ensures mutation.Some? ==> errors == NoErrors
      ensures mutation.Some? ==>
        TodoRouter.ValidateCreateList(mutation.value.title, mutation.value.description) == map[]
    {
      errors := NoErrors;
      mutation := Submission(title, description);
      if mutation.None? {
        errors := FormErrors(Some(TitleRequired), None);
        return;
      }
      SubmissionPassesValidation(title, description);
    }

    /** `onError`: replace the messages by those the error carries. */
    method OnError(error: ClientError)
      requires Valid()
      modifies this
      ensures Valid()
      ensures title == old(title) && description == old(description)
      ensures errors == ErrorsFor(error)
    {
      match error.zodError
      case Some(fields) =>
        var titleMessage := LastMessage(MessagesOf(fields, "title"));
        var descriptionMessage := LastMessage(MessagesOf(fields, "description"));
        errors := FormErrors(titleMessage, descriptionMessage);
      case None =>
        errors := FormErrors(Some(error.message), None);
    }

    /** `onSuccess`: refresh the lists, empty the form and tell the parent. */
    method OnSuccess() returns (effects: seq<Effect>)
      modifies this
      ensures Valid()
      ensures title == "" && description == "" && errors == NoErrors
      ensures effects == [InvalidateAllLists, NotifyCreated]
    {
      effects := [InvalidateAllLists];
      title, description, errors := "", "", NoErrors;
      effects := effects + [NotifyCreated];
    }
  }
}
