/**
 * The user-interface records the components exchange with the page:
 * notifications ("toasts") and the file objects an `<input type="file">`
 * hands over.
 */
module Ui {
  import opened Options

  /** The `variant` of a toast; an omitted variant is the default one. */
  datatype Variant = Default | Destructive

  /** A notification as passed to `toast({title, description, variant})`. */
  datatype Toast = Toast(title: string, description: string, variant: Variant)

  /** A selected file; only its name is ever read by the components. */
  datatype FileRef = FileRef(name: string)

  /**
   * The guard `e.target.files && e.target.files[0]`: the first selected file,
   * if any (a missing file list is modelled as the empty one).
   */
  function FirstFile(files: seq<FileRef>): (r: Option<FileRef>)
    ensures r.None? <==> files == []
    ensures r.Some? ==> r.value == files[0]
  {
    if files == [] then None else Some(files[0])
  }
}
