/**
 * The branch drop-down of the GeoGig data store form: its choices are the repository's branches,
 * with the store's current branch kept at the front when the repository no longer lists it.
 */
module BranchSelectionPanel {
  import opened Wrappers

  /**
   * What asking the connector for the branch names gives: the names, or an `IOException` or
   * `RuntimeException` with its (possibly null) message.
   */
  datatype Listing = Listed(names: seq<string>) | ListingFailed(message: Option<string>)

  /** The listed names, or none after a failure. */
  function BranchNames(listing: Listing): seq<string>
  {
    match listing
    case Listed(names) => names
    case ListingFailed(_) => []
  }

  /** The choice list: the names, preceded by the current branch when that is not among them. */
  function WithCurrent(names: seq<string>, current: Option<string>): (r: seq<string>)
    ensures current.Some? ==> current.value in r
    ensures forall x :: x in r <==> x in names || current == Some(x)
    ensures current.None? || current.value in names ==> r == names
    ensures current.Some? && current.value !in names ==> r == [current.value] + names
  {
    if current.Some? && current.value !in names then [current.value] + names else names
  }

  /** No name appears twice in the list. */
  predicate NoDuplicates(s: seq<string>)
  {
    forall i, j :: 0 <= i < j < |s| ==> s[i] != s[j]
  }

  /** Keeping the current branch never introduces a duplicate. */
  lemma WithCurrentKeepsNoDuplicates(names: seq<string>, current: Option<string>)
    requires NoDuplicates(names)
    ensures NoDuplicates(WithCurrent(names, current))
  {
    var r := WithCurrent(names, current);
    if current.Some? && current.value !in names {
      forall i, j | 0 <= i < j < |r|
        ensures r[i] != r[j]
      {
        assert r[j] == names[j - 1];
        if i > 0 {
          assert r[i] == names[i - 1];
        }
      }
    }
  }

  /** Refreshing again with the same names and current branch gives the same list. */
  lemma WithCurrentIsIdempotent(names: seq<string>, current: Option<string>)
    ensures WithCurrent(WithCurrent(names, current), current) == WithCurrent(names, current)
  {
  }

  /** The form error a failed listing reports. */
  function ListingError(message: Option<string>): string
  {
    "Could not list branches: " + message.Or("null")
  }

  /** `BranchSelectionPanel`: the drop-down's choices and the errors raised on the store form. */
  class BranchSelectionPanel {
    /** The store's `BRANCH` parameter, the drop-down's model. */
    var current: Option<string>
    var choices: seq<string>
    var formErrors: seq<string>

    /** The constructor builds the drop-down and refreshes it without reporting errors. */
    constructor (current: Option<string>, listing: Listing)
      ensures this.current == current
      ensures choices == WithCurrent(BranchNames(listing), current)
      ensures formErrors == []
    {
      this.current := current;
      choices := [];
      formErrors := [];
      new;
      UpdateChoices(listing, false);
    }

    /**
     * `updateChoices`: the listed names, or no names after a failure, which is reported on the
     * form only when `reportError` is set; the current branch is kept at the front.
     */
    method UpdateChoices(listing: Listing, reportError: bool)
      modifies this`choices, this`formErrors
      ensures choices == WithCurrent(BranchNames(listing), current)
      ensures formErrors == old(formErrors)
        + (if listing.ListingFailed? && reportError then [ListingError(listing.message)] else [])
    {
      var branchNames: seq<string>;
      match listing {
        case Listed(names) =>
          branchNames := names;
        case ListingFailed(message) =>
          if reportError {
            formErrors := formErrors + [ListingError(message)];
          }
          branchNames := [];
      }
      if current.Some? && current.value !in branchNames {
        branchNames := [current.value] + branchNames;
      }
      choices := branchNames;
    }

    /**
     * The refresh link: its submit handler refreshes reporting errors, and its error handler
     * calls the submit handler, so both paths do the same.
     */
    method Refresh(listing: Listing)
      modifies this`choices, this`formErrors
      ensures choices == WithCurrent(BranchNames(listing), current)
      ensures listing.Listed? ==> formErrors == old(formErrors)
      ensures listing.ListingFailed? ==> formErrors == old(formErrors) + [ListingError(listing.message)]
    {
      UpdateChoices(listing, true);
    }
  }
}
