/**
 * `VerificationSection`: the text and file verification forms. A valid
 * request raises `isVerifying`, clears the previous result and arms a
 * timer; its firing, the completion step, builds the result record from one
 * random bit, which the model takes as a parameter together with the clock
 * reading.
 */
module Verification {
  import opened Options
  import opened Ui
  import opened JsString

  /** The owner every positive verification reports. */
  const OwnerAddress := "0x71C7656EC7ab88b098defB751B7401B5f6d8976F"

  /** What an armed timer checks: the file's name is captured at submission. */
  datatype Check = TextCheck | FileCheck(fileName: string)

  /** The notifications the form emits. */
  datatype Notice = TextRequired | FileRequired | Verdict(check: Check, verified: bool)

  /** `verificationResult`; the optional fields are `undefined` when absent. */
  datatype VerificationResult = VerificationResult(
    verified: bool, owner: Option<string>, timestamp: Option<string>, similarity: int)

  /** The similarity reported for each kind of check and outcome. */
  function Similarity(check: Check, verified: bool): int {
    match check
    case TextCheck => if verified then 98 else 45
    case FileCheck(_) => if verified then 95 else 32
  }

  /** A record is self-consistent: owner, timestamp and a high similarity all go with `verified`. */
  predicate Consistent(r: VerificationResult) {
    && (r.verified <==> r.owner.Some?)
    && (r.verified <==> r.timestamp.Some?)
    && (r.verified <==> r.similarity > 50)
    && 0 <= r.similarity <= 100
  }

  /**
   * The record the completion step stores for random bit `verified` and
   * clock reading `now`: the fixed owner and the time only when verified.
   */
  function ResultRecord(check: Check, verified: bool, now: string): (r: VerificationResult)
    ensures Consistent(r)
    ensures r.verified == verified
    ensures verified ==> r.owner == Some(OwnerAddress) && r.timestamp == Some(now)
    ensures r.similarity == Similarity(check, verified)
  {
    VerificationResult(
      verified,
      if verified then Some(OwnerAddress) else None,
      if verified then Some(now) else None,
      Similarity(check, verified))
  }

  /** The verdict can be read back from the similarity alone. */
  lemma VerdictFromSimilarity(check: Check, verified: bool, now: string)
    ensures (ResultRecord(check, verified, now).similarity > 50) == verified
  {
  }

  /**
   * The toast each notice shows: the verdict's title says "Content Verified"
   * exactly when verified, and every notice but a positive verdict is destructive.
   */
  function ToastOf(n: Notice): (t: Toast)
    ensures n.Verdict? ==> (t.title == "Content Verified" <==> n.verified)
    ensures t.variant == Destructive <==> !(n.Verdict? && n.verified)
  {
    match n
    case TextRequired => Toast("Text Required", "Please enter some text content to verify.", Destructive)
    case FileRequired => Toast("File Required", "Please select a file to verify.", Destructive)
    case Verdict(check, verified) =>
      var title := if verified then "Content Verified" else "Content Not Verified";
      var variant := if verified then Default else Destructive;
      match check
      case TextCheck =>
        Toast(title,
              if verified then "This content has been registered on the blockchain."
              else "No exact match found on the blockchain.",
              variant)
      case FileCheck(name) =>
        Toast(title,
              if verified then "This file \"" + name + "\" has been registered on the blockchain."
              else "No matching file found on the blockchain.",
              variant)
  }

  class VerificationForm {
    var isVerifying: bool
    var result: Option<VerificationResult>
    var text: string
    var file: Option<FileRef>
    /** Notifications emitted, oldest first. */
    var toasts: seq<Notice>
    /** Armed timers, in the order they will fire. */
    var timers: seq<Check>

    /** The busy flag is only up while a check is in flight; a stored result is self-consistent. */
    predicate Valid()
      reads this
    {
      && (isVerifying ==> timers != [])
      && (result.Some? ==> Consistent(result.value))
    }

    constructor ()
      ensures Valid()
      ensures !isVerifying && result.None? && text == "" && file.None?
      ensures toasts == [] && timers == []
    {
      isVerifying, result, text, file := false, None, "", None;
      toasts, timers := [], [];
    }

    /** Typing in the text area always discards the shown result. */
    method EditText(t: string)
      requires Valid()
      modifies this`text, this`result
      ensures Valid()
      ensures text == t && result.None?
    {
      text := t;
      result := None;
    }

    /** A blank text is refused before anything is reset. */
    method HandleTextVerify()
      requires Valid()
      modifies this`isVerifying, this`result, this`toasts, this`timers
      ensures Valid()
      ensures IsBlank(old(text)) ==>
        && toasts == old(toasts) + [TextRequired]
        && isVerifying == old(isVerifying) && result == old(result) && timers == old(timers)
      ensures !IsBlank(old(text)) ==>
        && toasts == old(toasts) && isVerifying && result.None?
        && timers == old(timers) + [TextCheck]
    {
      if Trim(text) == "" {
        toasts := toasts + [TextRequired];
        return;
      }
      isVerifying := true;
      result := None;
      timers := timers + [TextCheck];
    }

    /** A missing file is refused before anything is reset. */
    method HandleFileVerify()
      requires Valid()
      modifies this`isVerifying, this`result, this`toasts, this`timers
      ensures Valid()
      ensures old(file).None? ==>
        && toasts == old(toasts) + [FileRequired]
        && isVerifying == old(isVerifying) && result == old(result) && timers == old(timers)
      ensures old(file).Some? ==>
        && toasts == old(toasts) && isVerifying && result.None?
        && timers == old(timers) + [FileCheck(old(file).value.name)]
    {
      if file.None? {
        toasts := toasts + [FileRequired];
        return;
      }
      isVerifying := true;
      result := None;
      timers := timers + [FileCheck(file.value.name)];
    }

    /** Choosing a file discards the result, but only when a file was actually chosen. */
    method HandleFileChange(files: seq<FileRef>)
      requires Valid()
      modifies this`file, this`result
      ensures Valid()
      ensures files == [] ==> file == old(file) && result == old(result)
      ensures files != [] ==> file == Some(files[0]) && result.None?
    {
      var first := FirstFile(files);
      if first.Some? {
        file := first;
        result := None;
      }
    }

    /** The oldest armed timer fires with random bit `verified` at time `now`. */
    method CompleteVerification(verified: bool, now: string)
      requires Valid() && timers != []
      modifies this`isVerifying, this`result, this`toasts, this`timers
      ensures Valid()
      ensures !isVerifying
      ensures result == Some(ResultRecord(old(timers)[0], verified, now))
      ensures toasts == old(toasts) + [Verdict(old(timers)[0], verified)]
      ensures timers == old(timers)[1..]
    {
      isVerifying := false;
      result := Some(ResultRecord(timers[0], verified, now));
      toasts := toasts + [Verdict(timers[0], verified)];
      timers := timers[1..];
    }
  }
}
