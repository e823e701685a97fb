/** The sidebar listing the user's analyses, with its creation form
    (src/components/AnalysisList.tsx). */
module AnalysisList {
  import opened Supabase
  import opened Strings

  /** The creation form's local state. */
  class CreateForm {
    var isCreating: bool
    var newTitle: string
    var newDescription: string

    constructor ()
      ensures !isCreating && newTitle == "" && newDescription == ""
    {
      isCreating := false;
      newTitle := "";
      newDescription := "";
    }

    /** The "Nouvelle analyse" button opens the form. */
    method StartCreating()
      modifies this
      ensures isCreating && newTitle == old(newTitle) && newDescription == old(newDescription)
    {
      isCreating := true;
    }

    /** Typing in the title field. */
    method EditTitle(text: string)
      modifies this
      ensures newTitle == text && newDescription == old(newDescription) && isCreating == old(isCreating)
    {
      newTitle := text;
    }

    /** Typing in the description field. */
    method EditDescription(text: string)
      modifies this
      ensures newDescription == text && newTitle == old(newTitle) && isCreating == old(isCreating)
    {
      newDescription := text;
    }

    /** `handleCreate`: with a blank title nothing happens; otherwise the
        trimmed title and the trimmed description go to `onCreate` and the
        form is cleared and closed, as the "Annuler" button does. The
        description may be blank. */
    method HandleCreate() returns (created: Option<(string, string)>)
      modifies this
      ensures IsBlank(old(newTitle)) ==>
        && created == None
        && newTitle == old(newTitle) && newDescription == old(newDescription) && isCreating == old(isCreating)
      ensures !IsBlank(old(newTitle)) ==>
        && created == Some((Trim(old(newTitle)), Trim(old(newDescription))))
        && newTitle == "" && newDescription == "" && !isCreating
      ensures created.Some? ==> !IsBlank(created.value.0) && Trim(created.value.0) == created.value.0
      ensures created.Some? ==> Trim(created.value.1) == created.value.1
    {
      if IsBlank(newTitle) {
        return None;
      }
      TrimIdempotent(newTitle);
      TrimIdempotent(newDescription);
      created := Some((Trim(newTitle), Trim(newDescription)));
      Cancel();
    }

    /** The "Annuler" button. */
    method Cancel()
      modifies this
      ensures !isCreating && newTitle == "" && newDescription == ""
    {
      isCreating := false;
      newTitle := "";
      newDescription := "";
    }
  }

  /** `currentAnalysisId === analysis.id`: a null selection highlights nothing. */
  predicate IsHighlighted(a: AnalysisRow, currentId: Option<string>)
  {
    currentId == Some(a.id)
  }

  /** The ids of the analyses are pairwise distinct. */
  predicate DistinctIds(analyses: seq<AnalysisRow>)
  {
    forall i, j :: 0 <= i < j < |analyses| ==> analyses[i].id != analyses[j].id
  }

  /** With distinct ids at most one entry is highlighted, and it is the
      entry whose id is the current one. */
  lemma AtMostOneHighlighted(analyses: seq<AnalysisRow>, currentId: Option<string>, i: nat, j: nat)
    requires DistinctIds(analyses)
    requires i < |analyses| && j < |analyses|
    requires IsHighlighted(analyses[i], currentId) && IsHighlighted(analyses[j], currentId)
    ensures i == j && currentId == Some(analyses[i].id)
  {
  }

  /** The list shows "Aucune analyse créée" instead of entries exactly when
      there are no analyses. */
  predicate ShowsEmptyState(analyses: seq<AnalysisRow>)
  {
    |analyses| == 0
  }

  /** The delete button: the id reaches `onDelete` only when the user
      confirms the dialog; the answer is an input. */
  function DeleteRequest(id: string, confirmed: bool): (r: Option<string>)
    ensures r.Some? <==> confirmed
    ensures r.Some? ==> r.value == id
  {
    if confirmed then Some(id) else None
  }
}
