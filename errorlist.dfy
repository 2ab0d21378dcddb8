/** The error list's toggles (src/components/ErrorList.tsx). The list shows
    the selected image's entries; its checkbox says whether an entry is in
    the page's shown list (`selectedErrors`), and its accept and reject
    buttons set the entry's review status. Each handler yields the new shown
    list, the verify request it passes to the page, and the selection it
    asks for. */
module ErrorList {
  import opened Types

  /** `onVerifyError(errorId, status)`. */
  datatype Verify = Verify(errorId: string, status: Status)

  /** `select` is `None` when `onSelectBox` is not called, else its argument. */
  datatype Outcome = Outcome(shown: seq<ErrorItem>, verify: Option<Verify>, select: Option<Option<string>>)

  /** The checkbox state (line 51). */
  predicate IsChecked(shown: seq<ErrorItem>, item: ErrorItem) {
    HasId(shown, item.id)
  }

  /** `shown.filter((e) => e.id !== id)`. */
  function RemoveId(shown: seq<ErrorItem>, id: string): (r: seq<ErrorItem>)
    ensures |r| <= |shown|
    ensures forall e :: e in r <==> e in shown && e.id != id
    ensures !HasId(r, id)
    ensures !HasId(shown, id) ==> r == shown
  {
    if shown == [] then []
    else if shown[0].id == id then RemoveId(shown[1..], id)
    else [shown[0]] + RemoveId(shown[1..], id)
  }

  /** The filter keeps the order of the list: it works entry by entry. */
  lemma {:induction false} RemoveIdAppend(a: seq<ErrorItem>, b: seq<ErrorItem>, id: string)
    ensures RemoveId(a + b, id) == RemoveId(a, id) + RemoveId(b, id)
    decreases |a|
  {
    if a == [] {
      assert a + b == b;
    } else {
      assert (a + b)[1..] == a[1..] + b;
      RemoveIdAppend(a[1..], b, id);
    }
  }

  /** A single entry is kept exactly when it has another id. */
  lemma RemoveIdSingleton(e: ErrorItem, id: string)
    ensures RemoveId([e], id) == if e.id == id then [] else [e]
  {
    assert [e][1..] == [];
  }

  /** `handleErrorChange` (lines 30-47). */
  function ErrorChange(shown: seq<ErrorItem>, selectedBoxId: Option<string>, item: ErrorItem, checked: bool): (r: Outcome)
    ensures checked ==>
      && |r.shown| == |shown| + 1 && r.shown[..|shown|] == shown
      && r.shown[|shown|].id == item.id && r.shown[|shown|].status != Rejected
      && r.select == Some(Some(item.id))
    ensures !checked ==> !HasId(r.shown, item.id) && r.verify.None? && (r.select.Some? ==> r.select.value.None?)
    ensures r.verify.Some? ==> r.verify.value == Verify(item.id, Pending)
  {
    if checked then
      if item.status == Rejected then
        Outcome(shown + [item.(status := Pending)], Some(Verify(item.id, Pending)), Some(Some(item.id)))
      else Outcome(shown + [item], None, Some(Some(item.id)))
    else
      Outcome(RemoveId(shown, item.id), None, if selectedBoxId == Some(item.id) then Some(None) else None)
  }

  /** `handleAccept` (lines 60-89). */
  function Accept(shown: seq<ErrorItem>, item: ErrorItem): (r: Outcome)
    ensures r.verify.Some? && r.verify.value.errorId == item.id && r.verify.value.status != Rejected
    ensures |r.shown| >= |shown| && r.select.None?
  {
    var newStatus := if item.status == Accepted then Pending else Accepted;
    var list :=
      if newStatus == Accepted then
        if !IsChecked(shown, item) then shown + [item.(status := Accepted)]
        else SetStatus(shown, item.id, Accepted)
      else SetStatus(shown, item.id, Pending);
    Outcome(list, Some(Verify(item.id, newStatus)), None)
  }

  /** `handleReject` (lines 92-101). */
  function Reject(shown: seq<ErrorItem>, item: ErrorItem): (r: Outcome)
    ensures r.verify.Some? && r.verify.value.errorId == item.id && r.verify.value.status != Accepted
    ensures |r.shown| <= |shown| && r.select.None?
  {
    var newStatus := if item.status == Rejected then Pending else Rejected;
    var list := if newStatus == Rejected && IsChecked(shown, item) then RemoveId(shown, item.id) else shown;
    Outcome(list, Some(Verify(item.id, newStatus)), None)
  }

  /** The checkbox is ticked exactly when some shown entry has the item's id. */
  lemma IsCheckedRule(shown: seq<ErrorItem>, item: ErrorItem)
    ensures IsChecked(shown, item) <==> exists e :: e in shown && e.id == item.id
  {
    if exists e :: e in shown && e.id == item.id {
      var e :| e in shown && e.id == item.id;
      var i :| 0 <= i < |shown| && shown[i] == e;
    }
  }

  /** Ticking appends one entry and selects the item; a rejected item is
      revived: appended with status null and reported as null. Either way
      the item is ticked afterwards. */
  lemma CheckRule(shown: seq<ErrorItem>, selectedBoxId: Option<string>, item: ErrorItem)
    ensures var r := ErrorChange(shown, selectedBoxId, item, true);
      && |r.shown| == |shown| + 1 && r.shown[..|shown|] == shown
      && r.select == Some(Some(item.id))
      && IsChecked(r.shown, item)
      && (item.status == Rejected ==> r.shown[|shown|] == item.(status := Pending) && r.verify == Some(Verify(item.id, Pending)))
      && (item.status != Rejected ==> r.shown[|shown|] == item && r.verify.None?)
  {
    var r := ErrorChange(shown, selectedBoxId, item, true);
    assert r.shown[|shown|].id == item.id;
  }

  /** Unticking removes every entry with the item's id and keeps all others;
      the selection is cleared only if the item was the selected box. */
  lemma UncheckRule(shown: seq<ErrorItem>, selectedBoxId: Option<string>, item: ErrorItem)
    ensures var r := ErrorChange(shown, selectedBoxId, item, false);
      && !IsChecked(r.shown, item)
      && (forall e :: e in shown && e.id != item.id ==> e in r.shown)
      && (forall e :: e in r.shown ==> e in shown)
      && r.verify.None?
      && (r.select == Some(None) <==> selectedBoxId == Some(item.id))
      && (r.select.None? <==> selectedBoxId != Some(item.id))
  {
  }

  /** Accept toggles: accepted goes back to null, anything else becomes
      accepted; the request is always sent. */
  lemma AcceptToggles(shown: seq<ErrorItem>, item: ErrorItem)
    ensures var r := Accept(shown, item);
      && r.verify.Some? && r.verify.value.errorId == item.id && r.select.None?
      && (item.status == Accepted <==> r.verify.value.status == Pending)
      && (item.status != Accepted <==> r.verify.value.status == Accepted)
  {
  }

  /** Accepting an unticked item appends a single accepted copy; accepting
      a ticked one, or un-accepting, changes the status in place. */
  lemma AcceptList(shown: seq<ErrorItem>, item: ErrorItem)
    ensures var r := Accept(shown, item);
      && (item.status != Accepted && !IsChecked(shown, item) ==>
            r.shown == shown + [item.(status := Accepted)] && IsChecked(r.shown, item))
      && (item.status != Accepted && IsChecked(shown, item) ==>
            && |r.shown| == |shown|
            && forall i :: 0 <= i < |shown| ==>
                 r.shown[i] == if shown[i].id == item.id then shown[i].(status := Accepted) else shown[i])
      && (item.status == Accepted ==>
            && |r.shown| == |shown|
            && forall i :: 0 <= i < |shown| ==>
                 r.shown[i] == if shown[i].id == item.id then shown[i].(status := Pending) else shown[i])
  {
    var r := Accept(shown, item);
    if item.status != Accepted && !IsChecked(shown, item) {
      assert r.shown[|shown|].id == item.id;
    }
  }

  /** Reject toggles between rejected and null and always reports; becoming
      rejected while ticked hides the entry, and nothing else changes the list. */
  lemma RejectRule(shown: seq<ErrorItem>, item: ErrorItem)
    ensures var r := Reject(shown, item);
      && r.verify.Some? && r.verify.value.errorId == item.id && r.select.None?
      && (item.status == Rejected <==> r.verify.value.status == Pending)
      && (item.status != Rejected <==> r.verify.value.status == Rejected)
      && (item.status != Rejected && IsChecked(shown, item) ==>
            !IsChecked(r.shown, item) && forall e :: e in shown && e.id != item.id <==> e in r.shown)
      && (item.status == Rejected || !IsChecked(shown, item) ==> r.shown == shown)
  {
  }
}
