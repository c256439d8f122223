/**
 * `ContentRegistrationSection`: the text and file registration forms. Both
 * share one title; a submission is validated (title first, then content),
 * and an accepted one raises `isUploading` and arms a timer whose firing is
 * the separate completion step.
 */
module ContentRegistration {
  import opened Options
  import opened Ui
  import opened JsString

  /** What an armed timer will announce: the file's name is captured at submission. */
  datatype Submission = TextSubmission | FileSubmission(fileName: string)

  /** The notifications the form emits. */
  datatype Notice = TitleRequired | TextRequired | FileRequired | Registered(sub: Submission)

  /** The toast each notice shows; every rejection is destructive, a registration is not. */
  function ToastOf(n: Notice): (t: Toast)
    ensures t.variant == Destructive <==> !n.Registered?
  {
    match n
    case TitleRequired => Toast("Title Required", "Please provide a title for your content.", Destructive)
    case TextRequired => Toast("Text Required", "Please enter some text content to register.", Destructive)
    case FileRequired => Toast("File Required", "Please select a file to upload.", Destructive)
    case Registered(TextSubmission) =>
      Toast("Content Registered Successfully", "Your text content has been registered on the blockchain.", Default)
    case Registered(FileSubmission(name)) =>
      Toast("Content Registered Successfully", "Your file \"" + name + "\" has been registered on the blockchain.", Default)
  }

  /** The text form's checks: the rejection to show, or `None` when it passes. */
  function CheckText(title: string, text: string): (r: Option<Notice>)
    ensures r == Some(TitleRequired) <==> IsBlank(title)
    ensures r == Some(TextRequired) <==> !IsBlank(title) && IsBlank(text)
    ensures r.None? <==> !IsBlank(title) && !IsBlank(text)
  {
    if Trim(title) == "" then Some(TitleRequired)
    else if Trim(text) == "" then Some(TextRequired)
    else None
  }

  /** The file form's checks: the rejection to show, or `None` when it passes. */
  function CheckFile(title: string, file: Option<FileRef>): (r: Option<Notice>)
    ensures r == Some(TitleRequired) <==> IsBlank(title)
    ensures r == Some(FileRequired) <==> !IsBlank(title) && file.None?
    ensures r.None? <==> !IsBlank(title) && file.Some?
  {
    if Trim(title) == "" then Some(TitleRequired)
    else if file.None? then Some(FileRequired)
    else None
  }

  /** One title gates both forms: a blank one rejects either submission the same way. */
  lemma BlankTitleRejectsBoth(title: string, text: string, file: Option<FileRef>)
    requires IsBlank(title)
    ensures CheckText(title, text) == CheckFile(title, file) == Some(TitleRequired)
  {
  }

  class RegistrationForm {
    var isUploading: bool
    var text: string
    var title: string
    var file: Option<FileRef>
    /** Notifications emitted, oldest first. */
    var toasts: seq<Notice>
    /** Armed timers, in the order they will fire. */
    var timers: seq<Submission>

    /** The busy flag is only up while a registration is in flight. */
    predicate Valid()
      reads this
    {
      isUploading ==> timers != []
    }

    constructor ()
      ensures Valid()
      ensures !isUploading && text == "" && title == "" && file.None?
      ensures toasts == [] && timers == []
    {
      isUploading, text, title, file := false, "", "", None;
      toasts, timers := [], [];
    }

    /** The title input of either tab. */
    method SetTitle(t: string)
      modifies this`title
      ensures title == t
    {
      title := t;
    }

    method SetText(t: string)
      modifies this`text
      ensures text == t
    {
      text := t;
    }

    method HandleTextSubmit()
      requires Valid()
      modifies this`isUploading, this`toasts, this`timers
      ensures Valid()
      ensures var check := CheckText(old(title), old(text));
        if check.Some? then
          toasts == old(toasts) + [check.value] && isUploading == old(isUploading) && timers == old(timers)
        else
          toasts == old(toasts) && isUploading && timers == old(timers) + [TextSubmission]
    {
      if Trim(title) == "" {
        toasts := toasts + [TitleRequired];
        return;
      }
      if Trim(text) == "" {
        toasts := toasts + [TextRequired];
        return;
      }
      isUploading := true;
      timers := timers + [TextSubmission];
    }

    method HandleFileSubmit()
      requires Valid()
      modifies this`isUploading, this`toasts, this`timers
      ensures Valid()
      ensures var check := CheckFile(old(title), old(file));
        if check.Some? then
          toasts == old(toasts) + [check.value] && isUploading == old(isUploading) && timers == old(timers)
        else
          toasts == old(toasts) && isUploading && timers == old(timers) + [FileSubmission(old(file).value.name)]
    {
      if Trim(title) == "" {
        toasts := toasts + [TitleRequired];
        return;
      }
      if file.None? {
        toasts := toasts + [FileRequired];
        return;
      }
      isUploading := true;
      timers := timers + [FileSubmission(file.value.name)];
    }

    /** The file input: only a selection with a first file replaces `file`. */
    method HandleFileChange(files: seq<FileRef>)
      modifies this`file
      ensures file == if files == [] then old(file) else Some(files[0])
    {
      var first := FirstFile(files);
      if first.Some? {
        file := first;
      }
    }

    /** The oldest armed timer fires: the busy flag drops and one success is announced. */
    method CompleteRegistration()
      requires Valid() && timers != []
      modifies this`isUploading, this`toasts, this`timers
      ensures Valid()
      ensures !isUploading
      ensures toasts == old(toasts) + [Registered(old(timers)[0])]
      ensures timers == old(timers)[1..]
    {
      isUploading := false;
      toasts := toasts + [Registered(timers[0])];
      timers := timers[1..];
    }
  }
}
