/**
 * The property picker of src/components/PropertySelectionModal.tsx: the list of
 * selected property ids that a card or checkbox toggles, the guard before a
 * presentation is generated, and the reset on close.
 */
module PropertySelection {
  import opened Outcomes
  import opened Toasts

  /** `ids.filter(x => x !== id)`. */
  function Without(ids: seq<string>, id: string): (r: seq<string>)
    ensures |r| <= |ids|
    ensures forall x :: x in r <==> x in ids && x != id
  {
    if ids == [] then []
    else if ids[0] == id then Without(ids[1..], id)
    else [ids[0]] + Without(ids[1..], id)
  }

  /** The list after `handleToggleProperty(id)`: removed when present, else appended. */
  function Toggled(ids: seq<string>, id: string): seq<string> {
    if id in ids then Without(ids, id) else ids + [id]
  }

  predicate Distinct(ids: seq<string>) {
    forall i, j :: 0 <= i < j < |ids| ==> ids[i] != ids[j]
  }

  /** Filtering out an id that is not there changes nothing. */
  lemma {:induction false} WithoutAbsent(ids: seq<string>, id: string)
    requires id !in ids
    ensures Without(ids, id) == ids
  {
    if ids != [] {
      WithoutAbsent(ids[1..], id);
      assert [ids[0]] + ids[1..] == ids;
    }
  }

  /** Filtering keeps the remaining ids in their order, so keeps them distinct. */
  lemma {:induction false} WithoutDistinct(ids: seq<string>, id: string)
    requires Distinct(ids)
    ensures Distinct(Without(ids, id))
  {
    if ids != [] {
      assert Distinct(ids[1..]) by {
        forall i, j | 0 <= i < j < |ids[1..]| ensures ids[1..][i] != ids[1..][j] {
          assert ids[1..][i] == ids[i + 1] && ids[1..][j] == ids[j + 1];
        }
      }
      WithoutDistinct(ids[1..], id);
      if ids[0] != id {
        var rest := Without(ids[1..], id);
        assert ids[0] !in rest by {
          assert ids[0] !in ids[1..] by {
            forall k | 0 <= k < |ids[1..]| ensures ids[1..][k] != ids[0] {
              assert ids[1..][k] == ids[k + 1];
            }
          }
        }
        var r := [ids[0]] + rest;
        forall i, j | 0 <= i < j < |r| ensures r[i] != r[j] {
          if i == 0 {
            assert r[j] == rest[j - 1];
            assert rest[j - 1] in rest;
          } else {
            assert r[i] == rest[i - 1] && r[j] == rest[j - 1];
          }
        }
      }
    }
  }

  /** A new id goes to the end; a present one disappears, every copy of it; no other
      id changes membership. */
  lemma ToggleEffect(ids: seq<string>, id: string)
    ensures id !in ids ==> Toggled(ids, id) == ids + [id]
    ensures id in ids ==> id !in Toggled(ids, id)
    ensures forall x :: x != id ==> (x in Toggled(ids, id) <==> x in ids)
  {
  }

  /** Toggling never introduces a duplicate. */
  lemma ToggleKeepsDistinct(ids: seq<string>, id: string)
    requires Distinct(ids)
    ensures Distinct(Toggled(ids, id))
  {
    if id in ids {
      WithoutDistinct(ids, id);
    } else {
      var r := ids + [id];
      forall i, j | 0 <= i < j < |r| ensures r[i] != r[j] {
        if j == |ids| {
          assert r[i] == ids[i];
        } else {
          assert r[i] == ids[i] && r[j] == ids[j];
        }
      }
    }
  }

  /** Toggling twice restores membership; it restores the list itself when the id was
      absent, while a present id that was not last ends up moved to the end. */
  lemma ToggleTwice(ids: seq<string>, id: string)
    ensures forall x :: x in Toggled(Toggled(ids, id), id) <==> x in ids
    ensures id !in ids ==> Toggled(Toggled(ids, id), id) == ids
  {
    if id !in ids {
      assert id in ids + [id];
      WithoutAbsent(ids, id);
      assert Without(ids + [id], id) == Without(ids, id) by {
        WithoutAppend(ids, id);
      }
    }
  }

  lemma {:induction false} WithoutAppend(ids: seq<string>, id: string)
    ensures Without(ids + [id], id) == Without(ids, id)
  {
    if ids == [] {
      assert Without([id][1..], id) == [];
    } else {
      assert (ids + [id])[1..] == ids[1..] + [id];
      WithoutAppend(ids[1..], id);
    }
  }

  /** A present id that is not last comes back at the end. */
  lemma ToggleTwiceMovesToEnd()
    ensures Toggled(Toggled(["a", "b"], "a"), "a") == ["b", "a"]
  {
    assert "a" != "b";
    assert Without(["a", "b"], "a") == ["b"];
  }

  /** `filter` keeps multiplicities: each other id occurs in the result exactly as
      often as in the list, and `id` not at all. */
  lemma {:induction false} WithoutCounts(ids: seq<string>, id: string)
    ensures forall x :: multiset(Without(ids, id))[x] == if x == id then 0 else multiset(ids)[x]
  {
    if ids != [] {
      WithoutCounts(ids[1..], id);
      assert ids == [ids[0]] + ids[1..];
      assert multiset(ids) == multiset([ids[0]]) + multiset(ids[1..]);
    }
  }

  /** A match as the list shows it. */
  datatype Match = Match(propertyId: string, isDismissed: bool)

  /** The checkbox of a match is disabled exactly when the match was dismissed. */
  predicate CheckboxDisabled(m: Match) {
    m.isDismissed
  }

  const EmptySelectionToast := Toast("No properties selected", "Please select at least one property.", true)
  const CreatedToast := Toast("Presentation created", "The presentation link has been generated successfully.", false)
  const FailedToast := Toast("Error", "Failed to create presentation. Please try again.", true)

  /** The modal's state. */
  class SelectionModal {
    const leadId: string
    var selected: seq<string>
    var presentationUrl: Option<string>
    var copied: bool

    constructor(leadId: string)
      ensures this.leadId == leadId && selected == [] && presentationUrl == None && !copied
    {
      this.leadId := leadId;
      selected := [];
      presentationUrl := None;
      copied := false;
    }

    /** `handleToggleProperty(id)`, also what an enabled checkbox does. */
    method Toggle(id: string)
      modifies this
      ensures selected == Toggled(old(selected), id)
      ensures presentationUrl == old(presentationUrl) && copied == old(copied)
    {
      selected := if id in selected then Without(selected, id) else selected + [id];
    }

    /** A click on a card: a dismissed match is ignored. */
    method ClickCard(m: Match)
      modifies this
      ensures m.isDismissed ==> selected == old(selected)
      ensures !m.isDismissed ==> selected == Toggled(old(selected), m.propertyId)
      ensures presentationUrl == old(presentationUrl) && copied == old(copied)
    {
      if !m.isDismissed {
        Toggle(m.propertyId);
      }
    }

    /** A change of a match's checkbox: `handleToggleProperty`, which a disabled checkbox
        never fires. */
    method CheckCheckbox(m: Match)
      modifies this
      ensures CheckboxDisabled(m) ==> selected == old(selected)
      ensures !CheckboxDisabled(m) ==> selected == Toggled(old(selected), m.propertyId)
      ensures presentationUrl == old(presentationUrl) && copied == old(copied)
    {
      if !CheckboxDisabled(m) {
        Toggle(m.propertyId);
      }
    }

    /** `handleGeneratePresentation`; `reply` is what `createPresentation` gives when
        called.  Returns the arguments it was called with, if it was. */
    method Generate(reply: Result<string, string>) returns (sent: Option<(string, seq<string>)>, toast: Toast)
      modifies this
      ensures selected == old(selected) && copied == old(copied)
      ensures sent.Some? <==> |selected| > 0
      ensures sent.Some? ==> sent.value == (leadId, selected)
      ensures sent.None? ==> toast == EmptySelectionToast && presentationUrl == old(presentationUrl)
      ensures sent.Some? && reply.Success? ==> presentationUrl == Some(reply.value) && toast == CreatedToast
      ensures sent.Some? && reply.Failure? ==> presentationUrl == old(presentationUrl) && toast == FailedToast
    {
      if |selected| == 0 {
        return None, EmptySelectionToast;
      }
      sent := Some((leadId, selected));
      if reply.Success? {
        presentationUrl := Some(reply.value);
        toast := CreatedToast;
      } else {
        toast := FailedToast;
      }
    }

    /** `handleClose`: everything reset, and the dialog told to close. */
    method Close() returns (open: bool)
      modifies this
      ensures selected == [] && presentationUrl == None && !copied && !open
    {
      selected := [];
      presentationUrl := None;
      copied := false;
      open := false;
    }
  }
}
