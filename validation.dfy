/** `validatePostData`: the client-side gate in front of create and update. */
module Validation {
  import opened Wrappers
  import opened Text
  import opened Posts

  const MinTitleLength: nat := 3
  const MinContentLength: nat := 10

  /** "The title must be at least 3 characters" */
  const TitleMessage: string := "عنوان باید حداقل ۳ کاراکتر باشد"
  /** "The content must be at least 10 characters" */
  const ContentMessage: string := "محتوا باید حداقل ۱۰ کاراکتر باشد"
  /** The separator the messages are joined with: " and ". */
  const MessageSeparator: string := " و "

  /** JavaScript truthiness of an optional string field: present and not "". */
  predicate Truthy(field: Option<string>) {
    field.Some? && field.value != ""
  }

  /** `!field || field.trim().length < min` */
  predicate TooShort(field: Option<string>, min: nat) {
    !Truthy(field) || Utf16Length(Trim(field.value)) < min
  }

  /** The field is present and, trimmed, at least `min` UTF-16 units long. */
  predicate LongEnough(field: Option<string>, min: nat) {
    field.Some? && Utf16Length(Trim(field.value)) >= min
  }

  /** `validatePostData`: the messages of the violated rules, title first. */
  function ValidatePostData(data: PostData): seq<string> {
    (if TooShort(data.title, MinTitleLength) then [TitleMessage] else [])
    + (if TooShort(data.content, MinContentLength) then [ContentMessage] else [])
  }

  /**
   * Validation reports every violated rule and no other, at most one message
   * per field and the title's first; it reports nothing exactly when both the
   * title and the content are long enough.
   */
  lemma ValidationSpec(data: PostData)
    ensures var errors := ValidatePostData(data);
      && |errors| <= 2
      && (errors == [] <==> LongEnough(data.title, MinTitleLength) && LongEnough(data.content, MinContentLength))
      && (TitleMessage in errors <==> !LongEnough(data.title, MinTitleLength))
      && (ContentMessage in errors <==> !LongEnough(data.content, MinContentLength))
      && (forall k :: 0 <= k < |errors| ==> errors[k] == TitleMessage || errors[k] == ContentMessage)
      && (|errors| == 2 ==> errors == [TitleMessage, ContentMessage])
  {
    assert TitleMessage[0] != ContentMessage[0];
  }

  /** `errors.join(' و ')`, the message of the error create and update throw. */
  function ValidationError(errors: seq<string>): string {
    Join(errors, MessageSeparator)
  }

  /**
   * The message a rejected payload produces names each violated rule once,
   * title first.
   */
  lemma RejectionMessage(data: PostData)
    requires ValidatePostData(data) != []
    ensures var title, content := !LongEnough(data.title, MinTitleLength), !LongEnough(data.content, MinContentLength);
      ValidationError(ValidatePostData(data)) ==
        if title && content then TitleMessage + MessageSeparator + ContentMessage
        else if title then TitleMessage
        else ContentMessage
  {
    var errors := ValidatePostData(data);
    ValidationSpec(data);
    if |errors| == 2 {
      assert errors[1..] == [ContentMessage];
      assert Join(errors[1..], MessageSeparator) == ContentMessage;
    }
  }
}
