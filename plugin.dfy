/** The plugin object (ObsidianInflux): the registry of component callbacks,
    the gated broadcast of vault events, the sort-order toggle and the busy
    flag of the bulk preview refresh. Effects on the outside world (calling a
    callback, writing the data file, refreshing a preview leaf) are recorded
    in logs. */
module Plugin {

  import opened Seqs
  import opened Vault
  import opened Settings
  import opened InfluxLists

  type ComponentId = string

  /** A registered ComponentCallback, as an opaque handle. */
  datatype Callback = Callback(handle: nat)

  /** The `op` strings passed to triggerUpdates. */
  datatype Op = Modify | Delete | FileOpen | LayoutChange | SaveSettings

  /** One call `callback(op, file, stylesheet)` made by triggerUpdates. */
  datatype Invocation = Invocation(id: ComponentId, callback: Callback, op: Op, file: File, sheet: StyleSheet)

  /** The calls of one broadcast: one per id of `ids`, in that order. */
  function Broadcast(ids: seq<ComponentId>, callbacks: map<ComponentId, Callback>, op: Op, file: File, sheet: StyleSheet): (r: seq<Invocation>)
    requires forall i :: 0 <= i < |ids| ==> ids[i] in callbacks
  {
    seq(|ids|, i requires 0 <= i < |ids| => Invocation(ids[i], callbacks[ids[i]], op, file, sheet))
  }

  /** The component ids of a list of calls. */
  function Targets(invocations: seq<Invocation>): seq<ComponentId>
  {
    seq(|invocations|, i requires 0 <= i < |invocations| => invocations[i].id)
  }

  /** A broadcast over the registry's keys calls every registered callback
      exactly once, with the event's op, file and stylesheet, and calls nothing else. */
  lemma BroadcastReachesEachOnce(ids: seq<ComponentId>, callbacks: map<ComponentId, Callback>, op: Op, file: File, sheet: StyleSheet)
    requires Distinct(ids)
    requires forall i :: 0 <= i < |ids| ==> ids[i] in callbacks
    requires forall id :: id in callbacks ==> id in ids
    ensures |Broadcast(ids, callbacks, op, file, sheet)| == |callbacks|
    ensures forall id :: id in callbacks ==> multiset(Targets(Broadcast(ids, callbacks, op, file, sheet)))[id] == 1
    ensures forall c :: c in Broadcast(ids, callbacks, op, file, sheet) ==>
              c.id in callbacks && c.callback == callbacks[c.id] && c.op == op && c.file == file && c.sheet == sheet
  {
    var r := Broadcast(ids, callbacks, op, file, sheet);
    assert Targets(r) == ids;
    forall id | id in callbacks ensures multiset(Targets(r))[id] == 1 {
      DistinctMultiplicity(ids, id);
    }
    DistinctCardinality(ids);
    assert (set x | x in ids) == callbacks.Keys;
  }

  /** `ids` with `id` taken out, the others in their order (Object key order
      after `delete`). */
  function RemoveId(ids: seq<ComponentId>, id: ComponentId): seq<ComponentId>
  {
    if ids == [] then []
    else (if ids[0] == id then [] else [ids[0]]) + RemoveId(ids[1..], id)
  }

  lemma {:induction false} RemoveIdSpec(ids: seq<ComponentId>, id: ComponentId)
    requires Distinct(ids)
    ensures Distinct(RemoveId(ids, id))
    ensures forall x :: x in RemoveId(ids, id) <==> x in ids && x != id
    ensures IsSubsequence(RemoveId(ids, id), ids)
    ensures id !in ids ==> RemoveId(ids, id) == ids
  {
    RemoveIdMembers(ids, id);
    RemoveIdDistinct(ids, id);
    RemoveIdInOrder(ids, id);
    if id !in ids {
      RemoveIdAbsent(ids, id);
    }
  }

  lemma {:induction false} RemoveIdMembers(ids: seq<ComponentId>, id: ComponentId)
    ensures forall x :: x in RemoveId(ids, id) <==> x in ids && x != id
  {
    if ids != [] {
      RemoveIdMembers(ids[1..], id);
      assert ids == [ids[0]] + ids[1..];
    }
  }

  lemma {:induction false} RemoveIdDistinct(ids: seq<ComponentId>, id: ComponentId)
    requires Distinct(ids)
    ensures Distinct(RemoveId(ids, id))
  {
    if ids != [] {
      var t := ids[1..];
      assert Distinct(t) by {
        forall i, j | 0 <= i < j < |t| ensures t[i] != t[j] {
          assert t[i] == ids[i + 1] && t[j] == ids[j + 1];
        }
      }
      RemoveIdDistinct(t, id);
      if ids[0] != id {
        var rt := RemoveId(t, id);
        assert ids[0] !in rt by {
          RemoveIdMembers(t, id);
          forall i | 0 <= i < |t| ensures t[i] != ids[0] { assert t[i] == ids[i + 1]; }
        }
        DistinctCons(ids[0], rt);
      }
    }
  }

  lemma {:induction false} RemoveIdInOrder(ids: seq<ComponentId>, id: ComponentId)
    ensures IsSubsequence(RemoveId(ids, id), ids)
  {
    if ids != [] {
      RemoveIdInOrder(ids[1..], id);
      PrependKeepsSubsequence(RemoveId(ids[1..], id), ids[1..], if ids[0] == id then [] else [ids[0]], [ids[0]]);
      assert ids == [ids[0]] + ids[1..];
    }
  }

  /** Registering a new id and deregistering it again restores the registry. */
  lemma {:induction false} RegisterThenDeregister(callbacks: map<ComponentId, Callback>, ids: seq<ComponentId>, id: ComponentId, callback: Callback)
    requires id !in callbacks && id !in ids
    ensures callbacks[id := callback] - {id} == callbacks
    ensures RemoveId(ids + [id], id) == ids
  {
    RemoveIdAppend(ids, id, id);
    RemoveIdAbsent(ids, id);
  }

  lemma {:induction false} RemoveIdAppend(ids: seq<ComponentId>, x: ComponentId, id: ComponentId)
    ensures RemoveId(ids + [x], id) == RemoveId(ids, id) + (if x == id then [] else [x])
  {
    if ids == [] {
      assert [x][1..] == [];
    } else {
      var t := ids + [x];
      assert t[0] == ids[0] && t[1..] == ids[1..] + [x];
      RemoveIdAppend(ids[1..], x, id);
    }
  }

  lemma {:induction false} RemoveIdAbsent(ids: seq<ComponentId>, id: ComponentId)
    requires id !in ids
    ensures RemoveId(ids, id) == ids
  {
    if ids != [] {
      assert id !in ids[1..];
      RemoveIdAbsent(ids[1..], id);
      assert ids == [ids[0]] + ids[1..];
    }
  }

  /** Putting `x` (empty or the same one element) in front of both sides keeps a subsequence. */
  lemma {:induction false} PrependKeepsSubsequence(a: seq<ComponentId>, b: seq<ComponentId>, x: seq<ComponentId>, y: seq<ComponentId>)
    requires IsSubsequence(a, b)
    requires |y| == 1 && (x == [] || x == y)
    ensures IsSubsequence(x + a, y + b)
    decreases |b|
  {
    if b == [] {
      assert a == [];
      if x != [] { assert (x + a)[..0] == [] && IsSubsequence([], (y + b)[..0]); }
    } else {
      var b' := b[..|b| - 1];
      if a == [] {
        if x != [] {
          assert x + a == x;
          assert y + b == (y + b') + [b[|b| - 1]];
          PrependKeepsSubsequence([], b', x, y);
          assert (y + b)[..|y + b| - 1] == y + b';
        }
      } else if a[|a| - 1] == b[|b| - 1] {
        var a' := a[..|a| - 1];
        PrependKeepsSubsequence(a', b', x, y);
        assert (x + a)[..|x + a| - 1] == x + a';
        assert (y + b)[..|y + b| - 1] == y + b';
      } else {
        PrependKeepsSubsequence(a, b', x, y);
        assert (y + b)[..|y + b| - 1] == y + b';
      }
    }
  }

  /** The root leaves in preview mode, in iteration order. */
  function PreviewLeaves(leaves: seq<Leaf>): (r: seq<Leaf>)
  {
    if leaves == [] then []
    else
      var l := leaves[|leaves| - 1];
      PreviewLeaves(leaves[..|leaves| - 1]) + if l.modeType == Some("preview") then [l] else []
  }

  /** The bulk refresh reaches exactly the preview leaves. */
  lemma {:induction false} PreviewLeavesMembers(leaves: seq<Leaf>)
    ensures forall l :: l in PreviewLeaves(leaves) <==> l in leaves && l.modeType == Some("preview")
  {
    if leaves != [] {
      var init := leaves[..|leaves| - 1];
      PreviewLeavesMembers(init);
      assert leaves == init + [leaves[|leaves| - 1]];
    }
  }

  /** How the promise returned by updateInfluxInPreview ends for one leaf. */
  datatype RefreshOutcome = Resolved | Rejected | Pending

  /** The `!path` test of updateInfluxInPreview fails: the view has a file with
      a non-empty path. */
  predicate HasPath(leaf: Leaf)
  {
    leaf.filePath.Some? && leaf.filePath.value != []
  }

  /** makeInfluxList resolves for the InfluxFile built from the leaf's path. */
  predicate RebuildSucceeds(api: Api, leaf: Leaf)
    requires HasPath(leaf)
  {
    InfluxList(api, api.getFileByPath(leaf.filePath.value)).Some?
  }

  /** updateInfluxInPreview as written. A missing preview section rejects the
      promise at once (the executor carries on, but a settled promise stays
      settled). A missing path returns from the executor without resolve or
      reject, and a rejected rebuild throws inside the async executor, which
      does not reach the outer promise: in both cases it stays pending. */
  function PreviewRefresh(api: Api, leaf: Leaf): (r: RefreshOutcome)
    ensures r.Rejected? <==> !leaf.hasPreviewSection
    ensures r.Pending? <==> leaf.hasPreviewSection && (!HasPath(leaf) || !RebuildSucceeds(api, leaf))
  {
    if !leaf.hasPreviewSection then Rejected
    else if !HasPath(leaf) then Pending
    else if !RebuildSucceeds(api, leaf) then Pending
    else Resolved
  }

  /** The outcomes of `previewLeaves.map(leaf => this.updateInfluxInPreview(leaf))`. */
  function Refreshes(api: Api, leaves: seq<Leaf>): seq<RefreshOutcome>
  {
    seq(|leaves|, i requires 0 <= i < |leaves| => PreviewRefresh(api, leaves[i]))
  }

  /** `Promise.all` settles: it rejects with the first rejection and resolves
      once every promise has resolved; otherwise it stays pending. */
  predicate AllSettles(outcomes: seq<RefreshOutcome>): (r: bool)
    ensures (forall i :: 0 <= i < |outcomes| ==> !outcomes[i].Pending?) ==> r
    ensures r && (forall i :: 0 <= i < |outcomes| ==> !outcomes[i].Rejected?) ==>
              forall i :: 0 <= i < |outcomes| ==> outcomes[i].Resolved?
  {
    || (exists i :: 0 <= i < |outcomes| && outcomes[i].Rejected?)
    || (forall i :: 0 <= i < |outcomes| ==> outcomes[i].Resolved?)
  }

  /** When every leaf has a preview section, one pending refresh keeps the
      whole `Promise.all` pending, so the `finally` is never reached. */
  lemma {:induction false} PendingRefreshBlocksBatch(api: Api, leaves: seq<Leaf>, k: nat)
    requires k < |leaves| && PreviewRefresh(api, leaves[k]).Pending?
    requires forall i :: 0 <= i < |leaves| ==> leaves[i].hasPreviewSection
    ensures !AllSettles(Refreshes(api, leaves))
  {
    var r := Refreshes(api, leaves);
    assert !r[k].Resolved?;
    forall i | 0 <= i < |r| ensures !r[i].Rejected? {
      assert r[i] == PreviewRefresh(api, leaves[i]);
    }
  }

  /** The concrete case: a single preview leaf whose view has no file. */
  lemma LeafWithoutPathNeverSettles(api: Api)
    ensures !AllSettles(Refreshes(api, [Leaf(0, Some("preview"), true, None)]))
  {
    PendingRefreshBlocksBatch(api, [Leaf(0, Some("preview"), true, None)], 0);
  }

  /** updateInfluxInPreview as evidently intended: every way out of the
      executor settles the promise, a missing path or a failed rebuild by
      rejecting it, so the `catch` of updateInfluxInAllPreviews sees it. */
  function SettledPreviewRefresh(api: Api, leaf: Leaf): (r: RefreshOutcome)
    ensures !r.Pending?
    ensures r.Resolved? <==> leaf.hasPreviewSection && HasPath(leaf) && RebuildSucceeds(api, leaf)
  {
    if !leaf.hasPreviewSection || !HasPath(leaf) || !RebuildSucceeds(api, leaf) then Rejected
    else Resolved
  }

  /** The intended refresh agrees with the refresh as written wherever that
      one settles: only the pending cases change, and they become rejections. */
  lemma SettledRefreshAgrees(api: Api, leaf: Leaf)
    ensures !PreviewRefresh(api, leaf).Pending? ==> SettledPreviewRefresh(api, leaf) == PreviewRefresh(api, leaf)
    ensures PreviewRefresh(api, leaf).Pending? ==> SettledPreviewRefresh(api, leaf).Rejected?
  {
  }

  function SettledRefreshes(api: Api, leaves: seq<Leaf>): seq<RefreshOutcome>
  {
    seq(|leaves|, i requires 0 <= i < |leaves| => SettledPreviewRefresh(api, leaves[i]))
  }

  /** With the intended refresh, `Promise.all` settles for every batch. */
  lemma {:induction false} SettledRefreshesAlwaysSettle(api: Api, leaves: seq<Leaf>)
    ensures AllSettles(SettledRefreshes(api, leaves))
  {
    var r := SettledRefreshes(api, leaves);
    if !(exists i :: 0 <= i < |r| && r[i].Rejected?) {
      forall i | 0 <= i < |r| ensures r[i].Resolved? {
        assert r[i] == SettledPreviewRefresh(api, leaves[i]);
      }
    }
  }

  /** The `iterateRootLeaves` loop of updateInfluxInAllPreviews. */
  method CollectPreviewLeaves(rootLeaves: seq<Leaf>) returns (previewLeaves: seq<Leaf>)
    ensures previewLeaves == PreviewLeaves(rootLeaves)
  {
    previewLeaves := [];
    for i := 0 to |rootLeaves|
      invariant previewLeaves == PreviewLeaves(rootLeaves[..i])
    {
      var leaf := rootLeaves[i];
      assert rootLeaves[..i + 1][..i] == rootLeaves[..i] && rootLeaves[..i + 1][i] == leaf;
      if leaf.modeType == Some("preview") {
        previewLeaves := previewLeaves + [leaf];
      }
    }
    assert rootLeaves[..|rootLeaves|] == rootLeaves;
  }

  class ObsidianInflux {
    var componentCallbacks: map<ComponentId, Callback>
    /** The keys of componentCallbacks in insertion order, the order in which
        Object.values lists the callbacks. */
    var order: seq<ComponentId>
    var updating: bool
    var stylesheet: StyleSheet
    var data: Data
    /** Calls made to registered callbacks, oldest first. */
    var invocations: seq<Invocation>
    /** The Data objects written by saveData, oldest first. */
    var saved: seq<Data>
    /** Preview leaves handed to updateInfluxInPreview, oldest first. */
    var previewRefreshes: seq<Leaf>

    ghost predicate Valid()
      reads this
    {
      && Distinct(order)
      && (forall i :: 0 <= i < |order| ==> order[i] in componentCallbacks)
      && (forall id :: id in componentCallbacks ==> id in order)
    }

    /** The state onload sets up: no callbacks, not updating, the stylesheet
        built once and the data read through loadDataInitially. */
    constructor (stored: Option<StoredData>, sheet: StyleSheet)
      ensures Valid()
      ensures componentCallbacks == map[] && order == []
      ensures !updating && stylesheet == sheet
      ensures data == LoadDataInitially(stored)
      ensures invocations == [] && saved == [] && previewRefreshes == []
    {
      componentCallbacks := map[];
      order := [];
      updating := false;
      stylesheet := sheet;
      data := LoadDataInitially(stored);
      invocations := [];
      saved := [];
      previewRefreshes := [];
    }

    /** Adds `id` with `callback` unless `id` is already registered, in which
        case the first registration stays. */
    method RegisterInfluxComponent(id: ComponentId, callback: Callback)
      requires Valid()
      modifies this`componentCallbacks, this`order
      ensures Valid()
      ensures id in old(componentCallbacks) ==> componentCallbacks == old(componentCallbacks) && order == old(order)
      ensures id !in old(componentCallbacks) ==>
                componentCallbacks == old(componentCallbacks)[id := callback] && order == old(order) + [id]
    {
      if id !in componentCallbacks {
        componentCallbacks := componentCallbacks[id := callback];
        order := order + [id];
      }
    }

    /** Removes `id` if it is registered; other entries keep their callbacks
        and their order. */
    method DeregisterInfluxComponent(id: ComponentId)
      requires Valid()
      modifies this`componentCallbacks, this`order
      ensures Valid()
      ensures componentCallbacks == old(componentCallbacks) - {id}
      ensures order == RemoveId(old(order), id)
    {
      var callbacks := componentCallbacks - {id};
      var remaining := RemoveId(order, id);
      RemoveIdDistinct(order, id);
      RemoveIdMembers(order, id);
      assert forall x :: x in remaining ==> x in callbacks;
      assert forall x :: x in callbacks ==> x in remaining;
      componentCallbacks := callbacks;
      order := remaining;
    }

    /** When live update is on and the event carries a note, rebuilds the
        stylesheet (`freshSheet` is what createStyleSheet returns now) and calls
        every registered callback once with the event; otherwise does nothing. */
    method TriggerUpdates(op: Op, file: Option<AbstractFile>, freshSheet: StyleSheet)
      requires Valid()
      modifies this`stylesheet, this`invocations
      ensures var fires := data.settings.liveUpdate && file.Some? && file.value.TFile?;
              && (fires ==>
                    && stylesheet == freshSheet
                    && invocations == old(invocations) + Broadcast(order, componentCallbacks, op, file.value.file, freshSheet))
              && (!fires ==> stylesheet == old(stylesheet) && invocations == old(invocations))
    {
      if data.settings.liveUpdate && file.Some? && file.value.TFile? {
        stylesheet := freshSheet;
        var f := file.value.file;
        for i := 0 to |order|
          invariant stylesheet == freshSheet
          invariant invocations == old(invocations) + Broadcast(order[..i], componentCallbacks, op, f, freshSheet)
        {
          assert Broadcast(order[..i + 1], componentCallbacks, op, f, freshSheet) ==
                 Broadcast(order[..i], componentCallbacks, op, f, freshSheet) +
                 [Invocation(order[i], componentCallbacks[order[i]], op, f, freshSheet)];
          invocations := invocations + [Invocation(order[i], componentCallbacks[order[i]], op, f, stylesheet)];
        }
        assert order[..|order|] == order;
      }
    }

    /** Writes `settings` with the rest of the data, then notifies with no
        note, which reaches no callback. The in-memory data is not replaced. */
    method SaveSettingsByParams(settings: Settings, freshSheet: StyleSheet)
      requires Valid()
      modifies this`saved, this`stylesheet, this`invocations
      ensures saved == old(saved) + [data.(settings := settings)]
      ensures stylesheet == old(stylesheet) && invocations == old(invocations)
    {
      saved := saved + [data.(settings := settings)];
      TriggerUpdates(SaveSettings, None, freshSheet);
    }

    /** Flips the sorting principle, changing no other setting, and saves. */
    method ToggleSortOrder(freshSheet: StyleSheet)
      requires Valid()
      modifies this`data, this`saved, this`stylesheet, this`invocations
      ensures data == Data(WithToggledOrder(old(data).settings))
      ensures saved == old(saved) + [data]
      ensures stylesheet == old(stylesheet) && invocations == old(invocations)
    {
      var newOrder := Toggled(data.settings.sortingPrinciple);
      data := data.(settings := data.settings.(sortingPrinciple := newOrder));
      SaveSettingsByParams(data.settings.(sortingPrinciple := newOrder), freshSheet);
    }

    /** updateInfluxInAllPreviews up to its `await`: collects the preview
        leaves and, unless a bulk refresh is already in flight, raises the busy
        flag and starts a refresh of every preview leaf. Returns the leaves
        being refreshed, or None when the call was dropped. */
    method StartUpdateInfluxInAllPreviews(rootLeaves: seq<Leaf>) returns (batch: Option<seq<Leaf>>)
      modifies this`updating, this`previewRefreshes
      ensures updating
      ensures old(updating) ==> batch.None? && previewRefreshes == old(previewRefreshes)
      ensures !old(updating) ==> batch == Some(PreviewLeaves(rootLeaves)) &&
                                 previewRefreshes == old(previewRefreshes) + PreviewLeaves(rootLeaves)
    {
      var previewLeaves := CollectPreviewLeaves(rootLeaves);
      if updating {
        return None;
      }
      updating := true;
      for i := 0 to |previewLeaves|
        invariant updating
        invariant previewRefreshes == old(previewRefreshes) + previewLeaves[..i]
      {
        assert previewLeaves[..i + 1] == previewLeaves[..i] + [previewLeaves[i]];
        previewRefreshes := previewRefreshes + [previewLeaves[i]];
      }
      assert previewLeaves[..|previewLeaves|] == previewLeaves;
      batch := Some(previewLeaves);
    }

    /** The `finally` of updateInfluxInAllPreviews, run once `Promise.all`
        has settled, whether it resolved or rejected. */
    method FinishUpdateInfluxInAllPreviews()
      modifies this`updating
      ensures !updating
    {
      updating := false;
    }

    /** updateInfluxInAllPreviews with nothing interleaved at its `await`: the
        flag comes down only if the refreshes of the batch settle. */
    method UpdateInfluxInAllPreviews(rootLeaves: seq<Leaf>, api: Api)
      modifies this`updating, this`previewRefreshes
      ensures old(updating) ==> updating && previewRefreshes == old(previewRefreshes)
      ensures !old(updating) ==> previewRefreshes == old(previewRefreshes) + PreviewLeaves(rootLeaves)
      ensures !old(updating) ==> (updating <==> !AllSettles(Refreshes(api, PreviewLeaves(rootLeaves))))
    {
      var batch := StartUpdateInfluxInAllPreviews(rootLeaves);
      if batch.Some? && AllSettles(Refreshes(api, batch.value)) {
        FinishUpdateInfluxInAllPreviews();
      }
    }

    /** updateInfluxInAllPreviews over the intended refresh: a call made while
        idle always ends with the flag down. */
    method UpdateInfluxInAllPreviewsSettled(rootLeaves: seq<Leaf>, api: Api)
      modifies this`updating, this`previewRefreshes
      ensures old(updating) ==> updating && previewRefreshes == old(previewRefreshes)
      ensures !old(updating) ==> !updating && previewRefreshes == old(previewRefreshes) + PreviewLeaves(rootLeaves)
    {
      var batch := StartUpdateInfluxInAllPreviews(rootLeaves);
      if batch.Some? {
        SettledRefreshesAlwaysSettle(api, batch.value);
        if AllSettles(SettledRefreshes(api, batch.value)) {
          FinishUpdateInfluxInAllPreviews();
        }
      }
    }
  }

  /** Two bulk refreshes that overlap at the `await`: the second is dropped,
      and a third one after the first has settled runs again. */
  method OverlappingBulkRefreshes(plugin: ObsidianInflux, api: Api, first: seq<Leaf>, second: seq<Leaf>)
    requires !plugin.updating
    requires AllSettles(Refreshes(api, PreviewLeaves(first)))
    modifies plugin
    ensures !plugin.updating
    ensures plugin.previewRefreshes ==
            old(plugin.previewRefreshes) + PreviewLeaves(first) + PreviewLeaves(first)
  {
    var a := plugin.StartUpdateInfluxInAllPreviews(first);
    var b := plugin.StartUpdateInfluxInAllPreviews(second);
    assert b.None?;
    plugin.FinishUpdateInfluxInAllPreviews();
    plugin.UpdateInfluxInAllPreviews(first, api);
  }

  /** A bulk refresh whose batch never settles leaves the flag up for good:
      every later call is dropped and refreshes nothing. */
  method StuckRefreshDropsLaterCalls(plugin: ObsidianInflux, api: Api, first: seq<Leaf>, later: seq<seq<Leaf>>)
    requires !plugin.updating
    requires !AllSettles(Refreshes(api, PreviewLeaves(first)))
    modifies plugin
    ensures plugin.updating
    ensures plugin.previewRefreshes == old(plugin.previewRefreshes) + PreviewLeaves(first)
  {
    plugin.UpdateInfluxInAllPreviews(first, api);
    for i := 0 to |later|
      invariant plugin.updating
      invariant plugin.previewRefreshes == old(plugin.previewRefreshes) + PreviewLeaves(first)
    {
      plugin.UpdateInfluxInAllPreviews(later[i], api);
    }
  }
}
