/**
 * The dialog that adds or edits a remote of a GeoGig repository: its validation of the remote's
 * name and URL, and what its submit and cancel links do to the table of remotes.
 */
module RemoteEditPanel {
  import opened Wrappers
  import opened JavaStrings

  /** A `RemoteInfo` as the form edits it. */
  datatype RemoteInfo = RemoteInfo(name: Option<string>, url: Option<string>,
                                   userName: Option<string>, password: Option<string>)

  /** The form fields that carry validators. */
  datatype Field = NameField | UrlField

  /** A feedback message raised while validating the form. */
  datatype ValidationError =
    | Required(field: Field)
    | PatternMismatch(field: Field)
    | FormError(message: string)

  /** The name pattern `[^\s]+`, matched against the whole value. */
  predicate MatchesNamePattern(name: string)
  {
    |name| > 0 && forall k :: 0 <= k < |name| ==> !IsWhitespace(name[k])
  }

  /** The message of the uniqueness validator. */
  function DuplicateMessage(name: string): string
  {
    "A remote named " + name + " already exists"
  }

  /** Whether a remote of the table clashes with the entered name. */
  predicate Clashes(remote: RemoteInfo, previousName: Option<string>, name: string)
  {
    remote.name.Some? && remote.name != previousName && remote.name.value == name
  }

  /** How many remotes of the table clash with the entered name. */
  function ClashCount(remotes: seq<RemoteInfo>, previousName: Option<string>, name: string): nat
    decreases |remotes|
  {
    if remotes == [] then 0
    else
      var here := if Clashes(remotes[0], previousName, name) then 1 else 0;
      here + ClashCount(remotes[1..], previousName, name)
  }

  /**
   * The uniqueness check fails exactly when another remote has the entered name; a remote whose
   * name is the edited remote's previous name does not count.
   */
  lemma {:induction false} ClashCountPositive(remotes: seq<RemoteInfo>, previousName: Option<string>,
                                              name: string)
    ensures ClashCount(remotes, previousName, name) > 0 <==>
      exists i :: 0 <= i < |remotes| && Clashes(remotes[i], previousName, name)
    decreases |remotes|
  {
    if remotes != [] {
      var rest := remotes[1..];
      ClashCountPositive(rest, previousName, name);
      if exists i :: 0 <= i < |rest| && Clashes(rest[i], previousName, name) {
        var i :| 0 <= i < |rest| && Clashes(rest[i], previousName, name);
        assert remotes[i + 1] == rest[i];
      }
      if exists i :: 0 <= i < |remotes| && Clashes(remotes[i], previousName, name) {
        var i :| 0 <= i < |remotes| && Clashes(remotes[i], previousName, name);
        if i > 0 {
          assert rest[i - 1] == remotes[i];
        }
      }
    }
  }

  /** For a new remote there is no previous name, so any remote with the entered name clashes. */
  lemma NewRemoteClashesWithAnyEqualName(remotes: seq<RemoteInfo>, name: string, i: int)
    requires 0 <= i < |remotes| && remotes[i].name == Some(name)
    ensures ClashCount(remotes, None, name) > 0
  {
    ClashCountPositive(remotes, None, name);
    assert Clashes(remotes[i], None, name);
  }

  /** The uniqueness validator's loop: one form error per clashing remote. */
  method ValidateUnique(remotes: seq<RemoteInfo>, previousName: Option<string>, name: string)
    returns (errors: seq<ValidationError>)
    ensures |errors| == ClashCount(remotes, previousName, name)
    ensures forall k :: 0 <= k < |errors| ==> errors[k] == FormError(DuplicateMessage(name))
  {
    errors := [];
    var i := 0;
    while i < |remotes|
      invariant 0 <= i <= |remotes|
      invariant |errors| + ClashCount(remotes[i..], previousName, name)
        == ClashCount(remotes, previousName, name)
      invariant forall k :: 0 <= k < |errors| ==> errors[k] == FormError(DuplicateMessage(name))
    {
      var newName := remotes[i].name;
      assert remotes[i..][1..] == remotes[i + 1..];
      if newName.Some? && newName != previousName && newName.value == name {
        errors := errors + [FormError(DuplicateMessage(name))];
      }
      i := i + 1;
    }
  }

  /**
   * The errors validating the entered name raises: required, then the pattern, then the
   * uniqueness check, each run only when the previous one passed.
   */
  function NameErrors(entered: Option<string>, remotes: seq<RemoteInfo>,
                      previousName: Option<string>): (r: seq<ValidationError>)
    ensures entered.None? ==> r == [Required(NameField)]
    ensures entered.Some? && !MatchesNamePattern(entered.value) ==> r == [PatternMismatch(NameField)]
    ensures entered.Some? && MatchesNamePattern(entered.value) ==>
      (r == [] <==> ClashCount(remotes, previousName, entered.value) == 0)
  {
    if entered.None? then [Required(NameField)]
    else if !MatchesNamePattern(entered.value) then [PatternMismatch(NameField)]
    else seq(ClashCount(remotes, previousName, entered.value),
             _ => FormError(DuplicateMessage(entered.value)))
  }

  /** The errors of the whole form: the name's, then the required URL's; the password is optional. */
  function FormErrors(entered: RemoteInfo, remotes: seq<RemoteInfo>,
                      previousName: Option<string>): (r: seq<ValidationError>)
    ensures r == [] <==>
      (entered.name.Some? && MatchesNamePattern(entered.name.value)
       && ClashCount(remotes, previousName, entered.name.value) == 0 && entered.url.Some?)
  {
    NameErrors(entered.name, remotes, previousName)
      + (if entered.url.None? then [Required(UrlField)] else [])
  }

  /** The table of remotes the dialog edits (`RemotesListPanel`). */
  class RemotesTable {
    var remotes: seq<RemoteInfo>

    constructor (remotes: seq<RemoteInfo>)
      ensures this.remotes == remotes
    {
      this.remotes := remotes;
    }

    method Add(remote: RemoteInfo)
      modifies this
      ensures remotes == old(remotes) + [remote]
    {
      remotes := remotes + [remote];
    }
  }

  /** `RemoteEditPanel`: the dialog, whether it is still open, and its feedback messages. */
  class RemoteEditPanel {
    const isNew: bool
    /** The uniqueness validator's exempt name: none for a new remote, else the edited one's. */
    const previousName: Option<string>
    const table: RemotesTable
    var open: bool
    var feedback: seq<ValidationError>

    constructor (model: RemoteInfo, table: RemotesTable, isNew: bool)
      ensures this.isNew == isNew && this.table == table
      ensures previousName == (if isNew then None else model.name)
      ensures open && feedback == []
    {
      this.isNew := isNew;
      previousName := if isNew then None else model.name;
      this.table := table;
      open := true;
      feedback := [];
    }

    /** The name validators, run against the table's remotes as they are now. */
    method ValidateName(entered: Option<string>) returns (errors: seq<ValidationError>)
      ensures errors == NameErrors(entered, table.remotes, previousName)
    {
      if entered.None? {
        errors := [Required(NameField)];
      } else if !MatchesNamePattern(entered.value) {
        errors := [PatternMismatch(NameField)];
      } else {
        errors := ValidateUnique(table.remotes, previousName, entered.value);
        assert errors == NameErrors(entered, table.remotes, previousName);
      }
    }

    /**
     * The submit link: on a validation error only the feedback changes; otherwise a new remote is
     * appended to the table (an edited one is not) and the dialog closes.
     */
    method Submit(entered: RemoteInfo)
      requires open
      modifies this`open, this`feedback, table
      ensures var errors := FormErrors(entered, old(table.remotes), previousName);
        if errors != [] then
          feedback == old(feedback) + errors && open && table.remotes == old(table.remotes)
        else
          !open && feedback == old(feedback)
          && table.remotes == old(table.remotes) + (if isNew then [entered] else [])
    {
      var errors := ValidateName(entered.name);
      if entered.url.None? {
        errors := errors + [Required(UrlField)];
      }
      if errors != [] {
        feedback := feedback + errors;
      } else {
        if isNew {
          table.Add(entered);
        }
        open := false;
      }
    }

    /** The cancel link closes the dialog on both its paths and leaves the table alone. */
    method Cancel()
      modifies this`open
      ensures !open
    {
      open := false;
    }
  }
}
