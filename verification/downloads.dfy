/** The digital library view (DownloadsModule.tsx): which catalogue entries
    are shown for a list of downloaded ids, which panels appear, and the
    two-step remove-with-confirmation flow. */
module Downloads {
  import opened Types
  import opened Catalog

  /** `SAFETY_RESOURCES.filter(r => downloadedIds.includes(r.id))`: exactly
      the catalogue entries whose id was downloaded, never more entries than
      the catalogue has. */
  function Shown(catalog: seq<Resource>, downloaded: seq<string>): (r: seq<Resource>)
    ensures forall x :: x in r <==> x in catalog && x.id in downloaded
    ensures |r| <= |catalog|
  {
    if |catalog| == 0 then []
    else
      var rest := Shown(catalog[1..], downloaded);
      assert forall x :: x in catalog <==> x == catalog[0] || x in catalog[1..];
      if catalog[0].id in downloaded then [catalog[0]] + rest else rest
  }

  /** Shown entries keep catalogue order: the view of a concatenated catalogue
      is the concatenation of the views. */
  lemma {:induction false} ShownAppend(a: seq<Resource>, b: seq<Resource>, downloaded: seq<string>)
    ensures Shown(a + b, downloaded) == Shown(a, downloaded) + Shown(b, downloaded)
  {
    if |a| == 0 {
      assert a + b == b;
    } else {
      assert (a + b)[1..] == a[1..] + b;
      ShownAppend(a[1..], b, downloaded);
    }
  }

  /** Only which ids were downloaded matters, not how often or in what order:
      duplicates yield one entry each. */
  lemma {:induction false} ShownDependsOnlyOnMembership(catalog: seq<Resource>, d1: seq<string>, d2: seq<string>)
    requires forall id :: id in d1 <==> id in d2
    ensures Shown(catalog, d1) == Shown(catalog, d2)
  {
    if |catalog| > 0 {
      ShownDependsOnlyOnMembership(catalog[1..], d1, d2);
    }
  }

  /** Ids that name no catalogue entry are ignored. */
  lemma {:induction false} UnknownIdIgnored(catalog: seq<Resource>, downloaded: seq<string>, id: string)
    requires !HasId(catalog, id)
    ensures Shown(catalog, downloaded + [id]) == Shown(catalog, downloaded)
  {
    if |catalog| > 0 {
      assert catalog[0] in catalog;
      assert !HasId(catalog[1..], id) by {
        forall r | r in catalog[1..] ensures r.id != id {
          assert r in catalog;
        }
      }
      UnknownIdIgnored(catalog[1..], downloaded, id);
    }
  }

  /** In a catalogue with distinct ids, no entry is shown twice. */
  lemma {:induction false} ShownDistinct(catalog: seq<Resource>, downloaded: seq<string>)
    requires DistinctIds(catalog)
    ensures DistinctIds(Shown(catalog, downloaded))
  {
    if |catalog| > 0 {
      var rest := Shown(catalog[1..], downloaded);
      ShownDistinct(catalog[1..], downloaded);
      forall x | x in rest ensures x.id != catalog[0].id {
        var k :| 0 <= k < |catalog[1..]| && catalog[1..][k] == x;
        assert catalog[k + 1] == x;
      }
    }
  }

  /** The library panels: the empty-state card or the resource grid, and the
      "Stay Updated" panel only beside a non-empty grid. */
  datatype Panels = Panels(emptyState: bool, grid: seq<Resource>, stayUpdated: bool)

  function LibraryPanels(catalog: seq<Resource>, downloaded: seq<string>): (p: Panels)
    ensures p.emptyState <==> !p.stayUpdated
    ensures p.emptyState <==> forall r :: r in catalog ==> r.id !in downloaded
    ensures p.grid == Shown(catalog, downloaded)
  {
    var shown := Shown(catalog, downloaded);
    assert shown != [] ==> shown[0] in shown;
    Panels(|shown| == 0, shown, |shown| > 0)
  }

  /** The component's local state: the entry awaiting confirmation, if any. */
  datatype RemovalState = RemovalState(pending: Option<Resource>)

  /** The outcome of a click: the new local state and, on confirmation, the id
      handed to the application's remove handler. */
  datatype RemovalStep = RemovalStep(state: RemovalState, removeId: Option<string>)

  /** The trash button only marks the entry as pending; nothing is removed. */
  function AskRemove(s: RemovalState, r: Resource): (step: RemovalStep)
    ensures step.state.pending == Some(r) && step.removeId.None?
  {
    RemovalStep(RemovalState(Some(r)), None)
  }

  /** Cancel closes the dialog without removing anything. */
  function Cancel(s: RemovalState): (step: RemovalStep)
    ensures step.state.pending.None? && step.removeId.None?
  {
    RemovalStep(RemovalState(None), None)
  }

  /** Confirm hands the pending entry's id, and only it, to the remove handler
      and closes the dialog. Without a pending entry there is no dialog, so
      nothing happens. */
  function Confirm(s: RemovalState): (step: RemovalStep)
    ensures step.state.pending.None?
    ensures s.pending.Some? ==> step.removeId == Some(s.pending.value.id)
    ensures s.pending.None? ==> step.removeId.None?
  {
    match s.pending
    case Some(r) => RemovalStep(RemovalState(None), Some(r.id))
    case None => RemovalStep(s, None)
  }

  /** Removal needs two clicks: ask then confirm removes exactly the entry
      asked about, while ask then cancel removes nothing. */
  lemma RemovalNeedsConfirmation(s: RemovalState, r: Resource)
    ensures Confirm(AskRemove(s, r).state).removeId == Some(r.id)
    ensures Cancel(AskRemove(s, r).state).removeId.None?
    ensures Confirm(Cancel(AskRemove(s, r).state).state).removeId.None?
  {
  }
}
