/** Saving the order of sticker sets and which of them are removed: the sets, and the requests that tell the server. */
module StickerSetsSpec {
  import opened Options

  type SetId = int
  type StickerId = int
  type RequestId = int

  const CUSTOM_SET_ID := 0xFFFF_FFFF_FFFF_FFFF
  const CLOUD_RECENT_SET_ID := 0xFFFF_FFFF_FFFF_FFFC
  const CLOUD_RECENT_ATTACHED_SET_ID := 0xFFFF_FFFF_FFFF_FFF9

  datatype Kind = Stickers | Masks | Emoji

  datatype StickersSet = StickersSet(
    installed: bool, archived: bool, masks: bool, featured: bool, special: bool, emoji: bool,
    locked: int, installDate: int, stickers: seq<StickerId>)

  function KindOf(pack: StickersSet): Kind { if pack.emoji then Emoji else if pack.masks then Masks else Stickers }

  // One of a thing for each kind of sets.
  datatype PerKind<T> = PerKind(stickers: T, masks: T, emoji: T) {
    function Get(k: Kind): T {
      match k
      case Stickers => stickers
      case Masks => masks
      case Emoji => emoji
    }

    function Put(k: Kind, value: T): PerKind<T> {
      match k
      case Stickers => this.(stickers := value)
      case Masks => this.(masks := value)
      case Emoji => this.(emoji := value)
    }
  }

  datatype Library = Library(sets: map<SetId, StickersSet>, orders: PerKind<seq<SetId>>, recent: seq<StickerId>)

  predicate IsCloudRecent(id: SetId) { id == CLOUD_RECENT_SET_ID || id == CLOUD_RECENT_ATTACHED_SET_ID }

  predicate GoesWithRecent(id: SetId) { IsCloudRecent(id) || id == CUSTOM_SET_ID }

  // Removed sets that someone still needs stay, but not installed.
  predicate StillNeeded(pack: StickersSet) { pack.featured || pack.special || pack.emoji || pack.locked > 0 }

  predicate Kept(pack: StickersSet) { pack.installed || pack.archived || StillNeeded(pack) }

  function Uninstalled(pack: StickersSet): StickersSet {
    pack.(installed := false, archived := false, installDate := 0)
  }

  function Placed(pack: StickersSet, removed: bool, now: int): StickersSet {
    pack.(archived := pack.archived && removed, installed := true,
          installDate := if pack.installDate == 0 then now else pack.installDate)
  }

  function Without<T(==)>(s: seq<T>, gone: seq<T>): seq<T> {
    if s == [] then [] else (if s[0] in gone then [] else [s[0]]) + Without(s[1..], gone)
  }

  function WithoutFirst<T(==)>(s: seq<T>, x: T): seq<T> {
    if s == [] then [] else if s[0] == x then s[1..] else [s[0]] + WithoutFirst(s[1..], x)
  }

  function RemovedOne(lib: Library, k: Kind, id: SetId): Library {
    if IsCloudRecent(id) then
      lib.(sets := lib.sets - {CLOUD_RECENT_SET_ID, CLOUD_RECENT_ATTACHED_SET_ID, CUSTOM_SET_ID}, recent := [])
    else if id !in lib.sets then lib
    else
      var pack := lib.sets[id];
      var rest := lib.(recent := Without(lib.recent, pack.stickers));
      if pack.archived then rest
      else rest.(orders := lib.orders.Put(k, WithoutFirst(lib.orders.Get(k), id)),
                 sets := if StillNeeded(pack) then lib.sets[id := Uninstalled(pack)] else lib.sets - {id})
  }

  function RemovedAll(lib: Library, k: Kind, removed: seq<SetId>): Library {
    if removed == [] then lib
    else RemovedOne(RemovedAll(lib, k, removed[..|removed| - 1]), k, removed[|removed| - 1])
  }

  function Unmarked(pack: StickersSet, k: Kind): StickersSet {
    if !pack.archived && KindOf(pack) == k then pack.(installed := false) else pack
  }

  function Cleared(lib: Library, k: Kind): Library {
    lib.(sets := map id | id in lib.sets :: Unmarked(lib.sets[id], k), orders := lib.orders.Put(k, []))
  }

  function PlacedOne(lib: Library, k: Kind, removed: seq<SetId>, now: int, id: SetId): Library {
    if id !in lib.sets then lib
    else lib.(sets := lib.sets[id := Placed(lib.sets[id], id in removed, now)],
              orders := lib.orders.Put(k, lib.orders.Get(k) + [id]))
  }

  function PlacedAll(lib: Library, k: Kind, removed: seq<SetId>, now: int, order: seq<SetId>): Library {
    if order == [] then lib
    else PlacedOne(PlacedAll(lib, k, removed, now, order[..|order| - 1]), k, removed, now, order[|order| - 1])
  }

  function Purged(lib: Library): Library {
    lib.(sets := map id | id in lib.sets && Kept(lib.sets[id]) :: lib.sets[id])
  }

  function SavedLibrary(lib: Library, k: Kind, order: seq<SetId>, removed: seq<SetId>, now: int): Library {
    Purged(PlacedAll(Cleared(RemovedAll(lib, k, removed), k), k, removed, now, order))
  }

  // What becomes of one set, whatever becomes of the others.

  function At(sets: map<SetId, StickersSet>, id: SetId): Option<StickersSet> {
    if id in sets then Some(sets[id]) else None
  }

  predicate RecentRemoved(removed: seq<SetId>) {
    CLOUD_RECENT_SET_ID in removed || CLOUD_RECENT_ATTACHED_SET_ID in removed
  }

  function AfterRemoval(o: Option<StickersSet>, id: SetId, removed: seq<SetId>): Option<StickersSet> {
    if o.None? || (GoesWithRecent(id) && RecentRemoved(removed)) then None
    else if id !in removed || o.value.archived then o
    else if StillNeeded(o.value) then Some(Uninstalled(o.value))
    else None
  }

  function AfterSave(o: Option<StickersSet>, id: SetId, k: Kind, order: seq<SetId>, removed: seq<SetId>, now: int)
    : Option<StickersSet>
  {
    var left := AfterRemoval(o, id, removed);
    if left.None? then None
    else
      var unmarked := Unmarked(left.value, k);
      var last := if id in order then Placed(unmarked, id in removed, now) else unmarked;
      if Kept(last) then Some(last) else None
  }

  lemma {:induction false} RemovalAlone(lib: Library, k: Kind, removed: seq<SetId>, id: SetId)
    ensures At(RemovedAll(lib, k, removed).sets, id) == AfterRemoval(At(lib.sets, id), id, removed)
  {
    hide Without, WithoutFirst;
    if removed != [] {
      var init, last := removed[..|removed| - 1], removed[|removed| - 1];
      assert removed == init + [last];
      RemovalAlone(lib, k, init, id);
    }
  }

  lemma {:induction false} PlacingAlone(lib: Library, k: Kind, removed: seq<SetId>, now: int, order: seq<SetId>,
                                        id: SetId)
    ensures At(PlacedAll(lib, k, removed, now, order).sets, id) ==
      if id in lib.sets && id in order then Some(Placed(lib.sets[id], id in removed, now)) else At(lib.sets, id)
  {
    if order != [] {
      var init, last := order[..|order| - 1], order[|order| - 1];
      assert order == init + [last];
      PlacingAlone(lib, k, removed, now, init, id);
    }
  }

  // Saving treats each set by itself, and this is what it does to it.
  lemma SavedAlone(lib: Library, k: Kind, order: seq<SetId>, removed: seq<SetId>, now: int, id: SetId)
    ensures At(SavedLibrary(lib, k, order, removed, now).sets, id) ==
            AfterSave(At(lib.sets, id), id, k, order, removed, now)
  {
    hide RemovedAll, PlacedAll, Kept, Placed, Unmarked, AfterRemoval;
    RemovalAlone(lib, k, removed, id);
    PlacingAlone(Cleared(RemovedAll(lib, k, removed), k), k, removed, now, order, id);
  }

  function Known(order: seq<SetId>, ids: set<SetId>): (r: seq<SetId>)
    ensures forall id :: id in r <==> id in order && id in ids
  {
    if order == [] then []
    else
      var init, last := Known(order[..|order| - 1], ids), order[|order| - 1];
      if last in ids then init + [last] else init
  }

  lemma {:induction false} PlacedOrder(lib: Library, k: Kind, removed: seq<SetId>, now: int, order: seq<SetId>)
    ensures var r := PlacedAll(lib, k, removed, now, order);
            r.orders.Get(k) == lib.orders.Get(k) + Known(order, lib.sets.Keys)
            && r.sets.Keys == lib.sets.Keys && r.recent == lib.recent
            && forall l :: l != k ==> r.orders.Get(l) == lib.orders.Get(l)
  {
    hide Placed;
    if order != [] {
      PlacedOrder(lib, k, removed, now, order[..|order| - 1]);
    }
  }

  lemma {:induction false} RemovedOrder(lib: Library, k: Kind, removed: seq<SetId>)
    ensures forall l :: l != k ==> RemovedAll(lib, k, removed).orders.Get(l) == lib.orders.Get(l)
  {
    hide Without, WithoutFirst;
    if removed != [] {
      RemovedOrder(lib, k, removed[..|removed| - 1]);
    }
  }

  lemma {:induction false} KnownSame(order: seq<SetId>, some: set<SetId>, less: set<SetId>)
    requires forall id :: id in order ==> (id in some <==> id in less)
    ensures Known(order, some) == Known(order, less)
  {
    if order != [] {
      KnownSame(order[..|order| - 1], some, less);
    }
  }

  // The new order: the one asked for, without what no longer exists. Those sets are installed, and of the other sets
  // of this kind only archived ones can be. Nothing is left that no one needs.
  lemma SavedOrder(lib: Library, k: Kind, order: seq<SetId>, removed: seq<SetId>, now: int)
    ensures var r := SavedLibrary(lib, k, order, removed, now);
      && r.orders.Get(k) == Known(order, r.sets.Keys)
      && (forall l :: l != k ==> r.orders.Get(l) == lib.orders.Get(l))
      && (forall id :: id in r.orders.Get(k) ==> id in r.sets && r.sets[id].installed)
      && (forall id :: id in r.sets && KindOf(r.sets[id]) == k && !r.sets[id].archived ==>
            (r.sets[id].installed <==> id in r.orders.Get(k)))
      && (forall id :: id in r.sets ==> id in lib.sets && Kept(r.sets[id]))
  {
    hide RemovedAll, PlacedAll, AfterSave;
    var r := SavedLibrary(lib, k, order, removed, now);
    var cleared := Cleared(RemovedAll(lib, k, removed), k);
    PlacedOrder(cleared, k, removed, now, order);
    RemovedOrder(lib, k, removed);
    forall id ensures id in order ==> (id in cleared.sets <==> id in r.sets)
      ensures id in r.sets ==> OrderFits(r.sets[id], id, k, order)
      ensures id in r.sets ==> id in lib.sets
    {
      PlacingAlone(cleared, k, removed, now, order, id);
      RemovalAlone(lib, k, removed, id);
      ClearedFits(lib, k, order, removed, now, id);
    }
    KnownSame(order, cleared.sets.Keys, r.sets.Keys);
    forall id | id in r.sets ensures Kept(r.sets[id]) {
    }
  }

  ghost predicate OrderFits(pack: StickersSet, id: SetId, k: Kind, order: seq<SetId>) {
    && (id in order ==> pack.installed)
    && (KindOf(pack) == k && !pack.archived && pack.installed ==> id in order)
  }

  lemma ClearedFits(lib: Library, k: Kind, order: seq<SetId>, removed: seq<SetId>, now: int, id: SetId)
    ensures var r := SavedLibrary(lib, k, order, removed, now);
            var cleared := Cleared(RemovedAll(lib, k, removed), k);
      && (id in order && id in cleared.sets ==> id in r.sets)
      && (id in r.sets ==> id in cleared.sets && id in lib.sets && OrderFits(r.sets[id], id, k, order))
  {
    hide RemovedAll, PlacedAll;
    RemovalAlone(lib, k, removed, id);
    PlacingAlone(Cleared(RemovedAll(lib, k, removed), k), k, removed, now, order, id);
  }

  // Field by field, for a set that is there and does not go with the recent ones: one that is removed without being
  // archived goes unless something needs it; what is in the order then is installed; of the rest, those of the kind
  // that are not archived are not; and whatever is neither installed nor archived nor needed goes.
  lemma SavedFields(lib: Library, k: Kind, order: seq<SetId>, removed: seq<SetId>, now: int, id: SetId)
    requires id in lib.sets
    requires CLOUD_RECENT_SET_ID in removed || CLOUD_RECENT_ATTACHED_SET_ID in removed ==>
      id != CLOUD_RECENT_SET_ID && id != CLOUD_RECENT_ATTACHED_SET_ID && id != CUSTOM_SET_ID
    ensures var was, sets := lib.sets[id], SavedLibrary(lib, k, order, removed, now).sets;
      var needed := was.featured || was.special || was.emoji || was.locked > 0;
      var uninstalled := id in removed && !was.archived;
      var ofKind := if was.emoji then k == Emoji else if was.masks then k == Masks else k == Stickers;
      if uninstalled && !needed then id !in sets
      else if id in order then
        id in sets && sets[id] == was.(
          installed := true, archived := was.archived && id in removed,
          installDate := if uninstalled || was.installDate == 0 then now else was.installDate)
      else if uninstalled then
        id in sets && sets[id] == was.(installed := false, archived := false, installDate := 0)
      else if was.archived then id in sets && sets[id] == was
      else if ofKind then
        if needed then id in sets && sets[id] == was.(installed := false) else id !in sets
      else
        if needed || was.installed then id in sets && sets[id] == was else id !in sets
  {
    hide SavedLibrary;
    SavedAlone(lib, k, order, removed, now, id);
  }

  // And for one that is not there, or goes with the recent ones.
  lemma SavedGone(lib: Library, k: Kind, order: seq<SetId>, removed: seq<SetId>, now: int, id: SetId)
    requires id !in lib.sets
      || ((CLOUD_RECENT_SET_ID in removed || CLOUD_RECENT_ATTACHED_SET_ID in removed)
          && (id == CLOUD_RECENT_SET_ID || id == CLOUD_RECENT_ATTACHED_SET_ID || id == CUSTOM_SET_ID))
    ensures id !in SavedLibrary(lib, k, order, removed, now).sets
  {
    hide SavedLibrary;
    SavedAlone(lib, k, order, removed, now, id);
  }

  lemma PutGet<T>(all: PerKind<T>, k: Kind, value: T, l: Kind)
    ensures all.Put(k, value).Get(l) == if l == k then value else all.Get(l)
  {
  }

  lemma OneOrNone<T>(x: T)
    ensures [x][..0] == [] && [x][1..] == []
  {
  }

  // The known sets of an order are picked one by one, in order.
  lemma {:induction false} KnownInOrder(a: seq<SetId>, b: seq<SetId>, ids: set<SetId>)
    ensures Known(a + b, ids) == Known(a, ids) + Known(b, ids)
  {
    if b == [] {
      assert a + b == a;
    } else {
      assert (a + b)[..|a + b| - 1] == a + b[..|b| - 1];
      KnownInOrder(a, b[..|b| - 1], ids);
    }
  }

  lemma OneKnown(id: SetId, ids: set<SetId>)
    ensures Known([id], ids) == if id in ids then [id] else []
  {
    OneOrNone(id);
  }

  // And so are the stickers that stay.
  lemma {:induction false} WithoutInOrder(a: seq<StickerId>, b: seq<StickerId>, gone: seq<StickerId>)
    ensures Without(a + b, gone) == Without(a, gone) + Without(b, gone)
  {
    hide Without;
    if a == [] {
      assert a + b == b;
      NoneLeft(gone);
    } else {
      WithoutInOrder(a[1..], b, gone);
      WithoutCons(a[0], a[1..], gone);
      WithoutCons(a[0], a[1..] + b, gone);
      Regrouped([a[0]], a[1..], b);
      assert a == [a[0]] + a[1..];
      Regrouped([a[0]], Without(a[1..], gone), Without(b, gone));
    }
  }

  lemma Regrouped(a: seq<StickerId>, b: seq<StickerId>, c: seq<StickerId>)
    ensures a + b + c == a + (b + c)
  {
  }

  lemma NoneLeft(gone: seq<StickerId>)
    ensures Without([], gone) == []
  {
  }

  lemma OneLeft(x: StickerId, gone: seq<StickerId>)
    ensures Without([x], gone) == if x in gone then [] else [x]
  {
    OneOrNone(x);
  }

  // Sets of other kinds that are not mentioned stay as they are.
  lemma OthersUntouched(lib: Library, k: Kind, order: seq<SetId>, removed: seq<SetId>, now: int, id: SetId)
    requires id in lib.sets && id !in order && id !in removed && Kept(lib.sets[id]) && !GoesWithRecent(id)
    requires KindOf(lib.sets[id]) != k || lib.sets[id].archived
    ensures var r := SavedLibrary(lib, k, order, removed, now); id in r.sets && r.sets[id] == lib.sets[id]
  {
    hide SavedLibrary;
    SavedAlone(lib, k, order, removed, now, id);
  }

  ghost predicate OfRemoved(sticker: StickerId, sets: map<SetId, StickersSet>, removed: seq<SetId>) {
    exists id :: id in removed && id in sets && sticker in sets[id].stickers
  }

  lemma {:induction false} RecentCleared(lib: Library, k: Kind, removed: seq<SetId>)
    requires RecentRemoved(removed)
    ensures RemovedAll(lib, k, removed).recent == []
  {
    hide WithoutFirst, StillNeeded, Uninstalled;
    var init, last := removed[..|removed| - 1], removed[|removed| - 1];
    assert removed == init + [last];
    if !IsCloudRecent(last) {
      RecentCleared(lib, k, init);
    }
  }

  lemma WithoutCons(first: StickerId, rest: seq<StickerId>, gone: seq<StickerId>)
    ensures Without([first] + rest, gone) ==
            if first in gone then Without(rest, gone) else [first] + Without(rest, gone)
  {
    assert ([first] + rest)[1..] == rest;
  }

  lemma {:induction false} WithoutTwice(s: seq<StickerId>, a: seq<StickerId>, b: seq<StickerId>, both: seq<StickerId>)
    requires forall i :: 0 <= i < |s| ==> (s[i] in both <==> s[i] in a || s[i] in b)
    ensures Without(Without(s, a), b) == Without(s, both)
  {
    if s != [] {
      var first, rest := s[0], s[1..];
      WithoutTwice(rest, a, b, both);
      WithoutStep(first, rest, a, b, both);
      assert s == [first] + rest;
    }
  }

  lemma WithoutStep(first: StickerId, rest: seq<StickerId>, a: seq<StickerId>, b: seq<StickerId>, both: seq<StickerId>)
    requires first in both <==> first in a || first in b
    requires Without(Without(rest, a), b) == Without(rest, both)
    ensures Without(Without([first] + rest, a), b) == Without([first] + rest, both)
  {
    hide Without;
    WithoutCons(first, rest, a);
    WithoutCons(first, rest, both);
    WithoutCons(first, Without(rest, a), b);
  }

  lemma {:induction false} WithoutNone(s: seq<StickerId>, gone: seq<StickerId>)
    requires forall i :: 0 <= i < |s| ==> s[i] !in gone
    ensures Without(s, gone) == s
  {
    if s != [] {
      assert s == [s[0]] + s[1..];
      WithoutNone(s[1..], gone);
    }
  }

  // The stickers of these that are in removed sets.
  ghost function Gone(s: seq<StickerId>, sets: map<SetId, StickersSet>, removed: seq<SetId>): (r: seq<StickerId>)
    ensures forall x :: x in r <==> x in s && OfRemoved(x, sets, removed)
  {
    if s == [] then [] else (if OfRemoved(s[0], sets, removed) then [s[0]] else []) + Gone(s[1..], sets, removed)
  }

  lemma RemovedAgain(lib: Library, k: Kind, init: seq<SetId>, last: SetId, x: StickerId)
    requires !RecentRemoved(init) && !IsCloudRecent(last)
    ensures var now := RemovedAll(lib, k, init).sets;
            OfRemoved(x, lib.sets, init + [last]) <==>
              OfRemoved(x, lib.sets, init) || (last in now && x in now[last].stickers)
  {
    hide RemovedAll;
    RemovalAlone(lib, k, init, last);
    var removed := init + [last];
    assert last in removed;
    assert forall id :: id in removed <==> id in init || id == last;
  }

  lemma {:induction false} RecentFiltered(lib: Library, k: Kind, removed: seq<SetId>, gone: seq<StickerId>)
    requires !RecentRemoved(removed) && forall x :: x in lib.recent ==> (x in gone <==> OfRemoved(x, lib.sets, removed))
    ensures RemovedAll(lib, k, removed).recent == Without(lib.recent, gone)
  {
    hide Without, WithoutFirst, StillNeeded, Uninstalled, OfRemoved;
    if removed == [] {
      NothingRemoved(lib.sets);
      forall i | 0 <= i < |lib.recent| ensures lib.recent[i] !in gone {
        assert lib.recent[i] in lib.recent && !OfRemoved(lib.recent[i], lib.sets, removed);
      }
      WithoutNone(lib.recent, gone);
    } else {
      var init, last := removed[..|removed| - 1], removed[|removed| - 1];
      assert removed == init + [last];
      var before := Gone(lib.recent, lib.sets, init);
      RecentFiltered(lib, k, init, before);
      var now := RemovedAll(lib, k, init).sets;
      var more := if last in now then now[last].stickers else [];
      forall x | x in lib.recent ensures x in gone <==> x in before || x in more {
        RemovedAgain(lib, k, init, last, x);
      }
      WithoutTwice(lib.recent, before, more, gone);
      WithoutNone(Without(lib.recent, before), []);
    }
  }

  // Recent stickers: those of removed sets go, and all go when the recent ones are removed; the others keep their
  // order.
  lemma RecentLeft(lib: Library, k: Kind, order: seq<SetId>, removed: seq<SetId>, now: int, gone: seq<StickerId>)
    requires forall x :: x in lib.recent ==> (x in gone <==> OfRemoved(x, lib.sets, removed))
    ensures SavedLibrary(lib, k, order, removed, now).recent ==
            if RecentRemoved(removed) then [] else Without(lib.recent, gone)
  {
    hide Without, OfRemoved, RemovedAll, PlacedAll;
    PlacedOrder(Cleared(RemovedAll(lib, k, removed), k), k, removed, now, order);
    if RecentRemoved(removed) {
      RecentCleared(lib, k, removed);
    } else {
      RecentFiltered(lib, k, removed, gone);
    }
  }

  lemma NothingRemoved(sets: map<SetId, StickersSet>)
    ensures forall x :: !OfRemoved(x, sets, [])
  {
  }

  // The requests. One about a set remembers the order to save once all of them are answered.

  datatype Ask =
    | Uninstall(kind: Kind, id: SetId, order: seq<SetId>)
    | Install(kind: Kind, id: SetId, order: seq<SetId>)
    | Reorder(kind: Kind, order: seq<SetId>)
    | ClearRecent(attached: bool)

  function RemovalAsk(lib: Library, k: Kind, id: SetId, order: seq<SetId>): seq<Ask> {
    if IsCloudRecent(id) then [ClearRecent(id == CLOUD_RECENT_ATTACHED_SET_ID)]
    else if id in lib.sets && !lib.sets[id].archived then [Uninstall(k, id, order)]
    else []
  }

  function RemovalAsks(lib: Library, k: Kind, removed: seq<SetId>, order: seq<SetId>): seq<Ask> {
    if removed == [] then []
    else
      var init := removed[..|removed| - 1];
      RemovalAsks(lib, k, init, order) + RemovalAsk(RemovedAll(lib, k, init), k, removed[|removed| - 1], order)
  }

  function PlacingAsk(lib: Library, k: Kind, removed: seq<SetId>, id: SetId, order: seq<SetId>): seq<Ask> {
    if id in lib.sets && lib.sets[id].archived && id !in removed then [Install(k, id, order)] else []
  }

  // For the sets `placed` of the order.
  function PlacingAsks(lib: Library, k: Kind, removed: seq<SetId>, now: int, placed: seq<SetId>, order: seq<SetId>)
    : seq<Ask>
  {
    if placed == [] then []
    else
      var init := placed[..|placed| - 1];
      PlacingAsks(lib, k, removed, now, init, order)
        + PlacingAsk(PlacedAll(lib, k, removed, now, init), k, removed, placed[|placed| - 1], order)
  }

  function SaveAsks(lib: Library, k: Kind, order: seq<SetId>, removed: seq<SetId>, now: int): seq<Ask> {
    RemovalAsks(lib, k, removed, order)
    + PlacingAsks(Cleared(RemovedAll(lib, k, removed), k), k, removed, now, order, order)
  }

  ghost predicate RemovalOnly(asks: seq<Ask>, k: Kind, order: seq<SetId>) {
    forall i :: 0 <= i < |asks| ==>
      asks[i].ClearRecent? || (asks[i].Uninstall? && asks[i].kind == k && asks[i].order == order)
  }

  ghost predicate PlacingOnly(asks: seq<Ask>, k: Kind, order: seq<SetId>) {
    forall i :: 0 <= i < |asks| ==> asks[i].Install? && asks[i].kind == k && asks[i].order == order
  }

  ghost predicate AsksFor(asks: seq<Ask>, k: Kind, order: seq<SetId>) {
    forall i :: 0 <= i < |asks| ==>
      asks[i].ClearRecent? || (!asks[i].Reorder? && asks[i].kind == k && asks[i].order == order)
  }

  // A removal of set `id` comes while the set is still there: no recent sets were removed that it goes with.
  ghost predicate RemovedInTime(removed: seq<SetId>, id: SetId) {
    && id != CLOUD_RECENT_SET_ID && id != CLOUD_RECENT_ATTACHED_SET_ID
    && exists i :: 0 <= i < |removed| && removed[i] == id
                   && (id == CUSTOM_SET_ID ==> forall j :: 0 <= j < i ==> !IsCloudRecent(removed[j]))
  }

  lemma RemovedLater(init: seq<SetId>, last: SetId, id: SetId)
    ensures RemovedInTime(init + [last], id) <==>
      RemovedInTime(init, id) || (last == id && !IsCloudRecent(id) && (id == CUSTOM_SET_ID ==> !RecentRemoved(init)))
  {
    var removed := init + [last];
    if i :| 0 <= i < |init| && init[i] == id
            && (id == CUSTOM_SET_ID ==> forall j :: 0 <= j < i ==> !IsCloudRecent(init[j])) {
      assert removed[i] == id;
      assert forall j :: 0 <= j < i ==> removed[j] == init[j];
    }
    assert removed[|init|] == last && forall j :: 0 <= j < |init| ==> removed[j] == init[j];
  }

  lemma {:induction false} UninstallAsked(lib: Library, k: Kind, removed: seq<SetId>, order: seq<SetId>, id: SetId)
    ensures Uninstall(k, id, order) in RemovalAsks(lib, k, removed, order) <==>
            RemovedInTime(removed, id) && id in lib.sets && !lib.sets[id].archived
    ensures RemovalOnly(RemovalAsks(lib, k, removed, order), k, order)
  {
    hide RemovedAll, RemovedInTime;
    if removed == [] {
      NotRemoved(id);
    } else {
      var init, last := removed[..|removed| - 1], removed[|removed| - 1];
      assert removed == init + [last];
      UninstallAsked(lib, k, init, order, id);
      RemovalAlone(lib, k, init, id);
      RemovedLater(init, last, id);
      if id in init && !(GoesWithRecent(id) && RecentRemoved(init)) {
        RemovedOnce(init, id);
      }
    }
  }

  lemma NotRemoved(id: SetId)
    ensures !RemovedInTime([], id)
  {
  }

  lemma RemovedOnce(removed: seq<SetId>, id: SetId)
    requires id in removed && !(GoesWithRecent(id) && RecentRemoved(removed))
    ensures RemovedInTime(removed, id)
  {
    var i :| 0 <= i < |removed| && removed[i] == id;
    assert forall j :: 0 <= j < i ==> removed[j] in removed;
  }

  lemma {:induction false} ClearRecentAsked(lib: Library, k: Kind, removed: seq<SetId>, order: seq<SetId>)
    ensures var asks := RemovalAsks(lib, k, removed, order);
      && (ClearRecent(true) in asks <==> CLOUD_RECENT_ATTACHED_SET_ID in removed)
      && (ClearRecent(false) in asks <==> CLOUD_RECENT_SET_ID in removed)
  {
    hide RemovedAll;
    if removed != [] {
      var init, last := removed[..|removed| - 1], removed[|removed| - 1];
      assert removed == init + [last];
      ClearRecentAsked(lib, k, init, order);
    }
  }

  lemma {:induction false} InstallAsked(lib: Library, k: Kind, removed: seq<SetId>, now: int, placed: seq<SetId>,
                                        order: seq<SetId>, id: SetId)
    ensures Install(k, id, order) in PlacingAsks(lib, k, removed, now, placed, order) <==>
            id in placed && id !in removed && id in lib.sets && lib.sets[id].archived
    ensures PlacingOnly(PlacingAsks(lib, k, removed, now, placed, order), k, order)
  {
    hide PlacedAll;
    if placed != [] {
      var init, last := placed[..|placed| - 1], placed[|placed| - 1];
      assert placed == init + [last];
      InstallAsked(lib, k, removed, now, init, order, id);
      PlacingAlone(lib, k, removed, now, init, id);
    }
  }

  // The server is told to uninstall exactly the removed sets that were there then and not archived, to install exactly
  // the archived sets that are in the order, and to clear the recent stickers of either list exactly if the recent set
  // of that list is removed.
  lemma AsksExactly(lib: Library, k: Kind, order: seq<SetId>, removed: seq<SetId>, now: int, id: SetId)
    ensures var asks := SaveAsks(lib, k, order, removed, now);
      && (Uninstall(k, id, order) in asks <==>
            RemovedInTime(removed, id) && id in lib.sets && !lib.sets[id].archived)
      && (Install(k, id, order) in asks <==>
            && id in order && id !in removed && id in lib.sets && lib.sets[id].archived
            && !(GoesWithRecent(id) && RecentRemoved(removed)))
      && (ClearRecent(true) in asks <==> CLOUD_RECENT_ATTACHED_SET_ID in removed)
      && (ClearRecent(false) in asks <==> CLOUD_RECENT_SET_ID in removed)
      && AsksFor(asks, k, order)
  {
    hide RemovedAll, PlacedAll, RemovalAsks, PlacingAsks, RemovedInTime;
    var cleared := Cleared(RemovedAll(lib, k, removed), k);
    UninstallAsked(lib, k, removed, order, id);
    InstallAsked(cleared, k, removed, now, order, order, id);
    ClearRecentAsked(lib, k, removed, order);
    RemovalAlone(lib, k, removed, id);
    var placing := PlacingAsks(cleared, k, removed, now, order, order);
    assert Uninstall(k, id, order) !in placing && ClearRecent(true) !in placing && ClearRecent(false) !in placing;
    assert Install(k, id, order) !in RemovalAsks(lib, k, removed, order);
  }

  // The requests in flight; for each kind, those about sets, the one about the order, the order saved last,
  // and what orders were sent to the server since then.
  datatype Network = Network(
    disenable: PerKind<set<RequestId>>,
    reorder: PerKind<RequestId>,
    clearRecent: RequestId,
    clearRecentAttached: RequestId,
    inFlight: map<RequestId, Ask>,
    nextId: RequestId,
    saved: PerKind<Option<seq<SetId>>>,
    reordered: PerKind<seq<seq<SetId>>>)

  const QUIET := Network(PerKind({}, {}, {}), PerKind(0, 0, 0), 0, 0, map[], 1,
                         PerKind(None, None, None), PerKind([], [], []))

  function Cancelled(net: Network, k: Kind, order: seq<SetId>): Network {
    net.(disenable := net.disenable.Put(k, {}), reorder := net.reorder.Put(k, 0),
         clearRecent := 0, clearRecentAttached := 0,
         inFlight := net.inFlight
                     - (net.disenable.Get(k) + {net.reorder.Get(k), net.clearRecent, net.clearRecentAttached}),
         saved := net.saved.Put(k, Some(order)), reordered := net.reordered.Put(k, []))
  }

  function Asked(net: Network, ask: Ask): Network {
    var id := net.nextId;
    var sent := net.(inFlight := net.inFlight[id := ask], nextId := id + 1);
    match ask
    case ClearRecent(attached) => if attached then sent.(clearRecentAttached := id) else sent.(clearRecent := id)
    case Reorder(k, order) =>
      sent.(reorder := net.reorder.Put(k, id), reordered := net.reordered.Put(k, net.reordered.Get(k) + [order]))
    case _ => sent.(disenable := net.disenable.Put(ask.kind, net.disenable.Get(ask.kind) + {id}))
  }

  function AllAsked(net: Network, asks: seq<Ask>): Network {
    if asks == [] then net else Asked(AllAsked(net, asks[..|asks| - 1]), asks[|asks| - 1])
  }

  // The order goes to the server when nothing about the sets is in flight any more.
  function Settled(net: Network, k: Kind, order: seq<SetId>): Network {
    if net.disenable.Get(k) == {} && |order| >= 2 then Asked(net, Reorder(k, order)) else net
  }

  function SavedNetwork(net: Network, k: Kind, order: seq<SetId>, asks: seq<Ask>): Network {
    Settled(AllAsked(Cancelled(net, k, order), asks), k, order)
  }

  // An answer, good or bad.
  function Answered(net: Network, r: RequestId): Network
    requires r in net.inFlight
  {
    var ask := net.inFlight[r];
    var rest := net.(inFlight := net.inFlight - {r});
    match ask
    case ClearRecent(attached) => if attached then rest.(clearRecentAttached := 0) else rest.(clearRecent := 0)
    case Reorder(k, _) => rest.(reorder := net.reorder.Put(k, 0))
    case _ =>
      Settled(rest.(disenable := net.disenable.Put(ask.kind, net.disenable.Get(ask.kind) - {r})), ask.kind, ask.order)
  }

  ghost predicate AskFine(net: Network, r: RequestId) {
    r in net.inFlight && 0 < r < net.nextId &&
    match net.inFlight[r]
    case ClearRecent(_) => true
    case Reorder(k, order) => net.reorder.Get(k) == r && net.disenable.Get(k) == {} && net.saved.Get(k) == Some(order)
    case Uninstall(k, _, order) => r in net.disenable.Get(k) && net.saved.Get(k) == Some(order)
    case Install(k, _, order) => r in net.disenable.Get(k) && net.saved.Get(k) == Some(order)
  }

  ghost predicate Tracked(net: Network, k: Kind) {
    && (forall r :: r in net.disenable.Get(k) ==>
          r in net.inFlight && (net.inFlight[r].Uninstall? || net.inFlight[r].Install?) && net.inFlight[r].kind == k)
    && (net.reorder.Get(k) != 0 ==>
          net.reorder.Get(k) in net.inFlight
          && net.inFlight[net.reorder.Get(k)].Reorder? && net.inFlight[net.reorder.Get(k)].kind == k)
  }

  // What a `ClearRecent` is remembered by is no other request.
  ghost predicate RecentFine(net: Network, r: RequestId) {
    r < net.nextId && (r in net.inFlight ==> net.inFlight[r].ClearRecent?)
  }

  ghost predicate NetworkFine(net: Network) {
    && net.nextId > 0
    && (forall r :: r in net.inFlight ==> AskFine(net, r))
    && (forall k :: Tracked(net, k))
    && RecentFine(net, net.clearRecent) && RecentFine(net, net.clearRecentAttached)
  }

  // The order went out once, and not before the last answer about the sets.
  ghost predicate SentOnce(net: Network, k: Kind) {
    net.reordered.Get(k) ==
      match net.saved.Get(k)
      case Some(order) => if net.disenable.Get(k) == {} && |order| >= 2 then [order] else []
      case None => []
  }

  ghost predicate Inv(net: Network) { NetworkFine(net) && forall k :: SentOnce(net, k) }

  lemma CancelledFine(net: Network, k: Kind, order: seq<SetId>)
    requires Inv(net)
    ensures var c := Cancelled(net, k, order);
            NetworkFine(c) && c.reordered.Get(k) == [] && c.disenable.Get(k) == {} && c.saved.Get(k) == Some(order)
            && c.reorder.Get(k) == 0 && forall l :: l != k ==> SentOnce(c, l)
  {
    var c := Cancelled(net, k, order);
    forall r | r in c.inFlight ensures AskFine(c, r) {
      assert AskFine(net, r);
    }
    forall l ensures Tracked(c, l) {
      assert Tracked(net, l) && Tracked(net, k);
    }
    forall l | l != k ensures SentOnce(c, l) {
      assert SentOnce(net, l);
    }
  }

  // Asking about sets of a kind whose order was not sent yet.
  lemma AskedFine(net: Network, k: Kind, order: seq<SetId>, ask: Ask)
    requires NetworkFine(net) && net.saved.Get(k) == Some(order) && net.reorder.Get(k) == 0 && AsksFor([ask], k, order)
    ensures NetworkFine(Asked(net, ask)) && SameOrders(net, Asked(net, ask), k)
  {
    var a := Asked(net, ask);
    assert [ask][0] == ask;
    forall r | r in a.inFlight ensures AskFine(a, r) {
      assert r != net.nextId ==> AskFine(net, r);
    }
    forall l ensures Tracked(a, l) {
      assert Tracked(net, l);
    }
  }

  ghost predicate SameOrders(net: Network, later: Network, k: Kind) {
    && later.saved == net.saved && later.reordered == net.reordered && later.reorder == net.reorder
    && forall l :: l != k ==> later.disenable.Get(l) == net.disenable.Get(l)
  }

  lemma {:induction false} AllAskedFine(net: Network, k: Kind, order: seq<SetId>, asks: seq<Ask>)
    requires NetworkFine(net) && net.saved.Get(k) == Some(order) && net.reorder.Get(k) == 0 && AsksFor(asks, k, order)
    ensures NetworkFine(AllAsked(net, asks)) && SameOrders(net, AllAsked(net, asks), k)
  {
    hide NetworkFine, Asked;
    if asks != [] {
      var init, last := asks[..|asks| - 1], asks[|asks| - 1];
      AllAskedFine(net, k, order, init);
      AskedFine(AllAsked(net, init), k, order, last);
    }
  }

  // With nothing about the sets in flight, the order goes out.
  lemma SettledFine(net: Network, k: Kind, order: seq<SetId>)
    requires NetworkFine(net) && net.saved.Get(k) == Some(order)
    requires net.reorder.Get(k) == 0 && net.reordered.Get(k) == []
    requires forall l :: l != k ==> SentOnce(net, l)
    ensures Inv(Settled(net, k, order))
  {
    var s := Settled(net, k, order);
    forall r | r in s.inFlight ensures AskFine(s, r) {
      assert r != net.nextId ==> AskFine(net, r);
    }
    forall l ensures Tracked(s, l) {
      assert Tracked(net, l);
    }
    forall l ensures SentOnce(s, l) {
      assert l != k ==> SentOnce(net, l);
    }
  }

  lemma SavedFine(net: Network, k: Kind, order: seq<SetId>, asks: seq<Ask>)
    requires Inv(net) && AsksFor(asks, k, order)
    ensures Inv(SavedNetwork(net, k, order, asks))
  {
    hide NetworkFine, Inv, Cancelled, AllAsked, Settled;
    CancelledFine(net, k, order);
    var c := Cancelled(net, k, order);
    AllAskedFine(c, k, order, asks);
    var a := AllAsked(c, asks);
    forall l | l != k ensures SentOnce(a, l) {
      assert SentOnce(c, l);
    }
    SettledFine(a, k, order);
  }

  lemma AnsweredFine(net: Network, r: RequestId)
    requires Inv(net) && r in net.inFlight
    ensures Inv(Answered(net, r))
  {
    hide Settled;
    var ask := net.inFlight[r];
    assert AskFine(net, r);
    forall l
      ensures ask.ClearRecent? || ask.Reorder? || l != ask.kind ==>
        net.disenable.Get(l) == net.disenable.Get(l) - {r}
      ensures net.reorder.Get(l) == r ==> ask.Reorder? && ask.kind == l
    {
      assert Tracked(net, l);
    }
    if ask.Uninstall? || ask.Install? {
      var k := ask.kind;
      var rest := net.(inFlight := net.inFlight - {r}, disenable := net.disenable.Put(k, net.disenable.Get(k) - {r}));
      assert Tracked(net, k) && SentOnce(net, k);
      RestFine(net, r, rest);
      SettledFine(rest, k, ask.order);
    } else {
      RestFine(net, r, Answered(net, r));
      forall l ensures SentOnce(Answered(net, r), l) {
        assert SentOnce(net, l);
      }
    }
  }

  lemma RestFine(net: Network, r: RequestId, rest: Network)
    requires Inv(net) && r in net.inFlight && rest.inFlight == net.inFlight - {r} && rest.nextId == net.nextId
    requires rest.saved == net.saved && rest.reordered == net.reordered
    requires rest.clearRecent == net.clearRecent || rest.clearRecent == 0
    requires rest.clearRecentAttached == net.clearRecentAttached || rest.clearRecentAttached == 0
    requires forall l :: rest.disenable.Get(l) == net.disenable.Get(l) - {r}
    requires forall l :: rest.reorder.Get(l) == if net.reorder.Get(l) == r then 0 else net.reorder.Get(l)
    ensures NetworkFine(rest)
    ensures forall l :: r !in net.disenable.Get(l) ==> SentOnce(rest, l)
  {
    assert AskFine(net, r);
    forall q | q in rest.inFlight ensures AskFine(rest, q) {
      assert AskFine(net, q);
    }
    forall l ensures Tracked(rest, l) {
      assert Tracked(net, l);
    }
    forall l | r !in net.disenable.Get(l) ensures SentOnce(rest, l) {
      assert SentOnce(net, l);
      assert net.disenable.Get(l) - {r} == net.disenable.Get(l);
    }
  }

  // Runs.

  datatype State = State(lib: Library, net: Network)

  datatype Event =
    | Save(kind: Kind, order: seq<SetId>, removed: seq<SetId>, now: int)
    | Answer(request: RequestId)
    | Change(lib: Library) // whatever other code makes of the sets

  function Saved(s: State, k: Kind, order: seq<SetId>, removed: seq<SetId>, now: int): State {
    State(SavedLibrary(s.lib, k, order, removed, now),
          SavedNetwork(s.net, k, order, SaveAsks(s.lib, k, order, removed, now)))
  }

  ghost predicate Possible(s: State, e: Event) { e.Answer? ==> e.request in s.net.inFlight }

  function Next(s: State, e: Event): State
    requires Possible(s, e)
  {
    match e
    case Save(k, order, removed, now) => Saved(s, k, order, removed, now)
    case Answer(r) => s.(net := Answered(s.net, r))
    case Change(lib) => s.(lib := lib)
  }

  ghost predicate Run(s: State, events: seq<Event>)
    decreases |events|
  {
    events != [] ==> Possible(s, events[0]) && Run(Next(s, events[0]), events[1..])
  }

  function After(s: State, events: seq<Event>): State
    requires Run(s, events)
    decreases |events|
  {
    if events == [] then s else After(Next(s, events[0]), events[1..])
  }

  lemma SaveAsksFit(lib: Library, k: Kind, order: seq<SetId>, removed: seq<SetId>, now: int)
    ensures AsksFor(SaveAsks(lib, k, order, removed, now), k, order)
  {
    hide SaveAsks;
    AsksExactly(lib, k, order, removed, now, 0);
  }

  lemma NextKeeps(s: State, e: Event)
    requires Inv(s.net) && Possible(s, e)
    ensures Inv(Next(s, e).net)
  {
    hide Inv, SavedLibrary, SaveAsks, SavedNetwork, Answered;
    match e
    case Save(k, order, removed, now) =>
      SaveAsksFit(s.lib, k, order, removed, now);
      SavedFine(s.net, k, order, SaveAsks(s.lib, k, order, removed, now));
    case Answer(r) =>
      AnsweredFine(s.net, r);
    case Change(_) =>
  }

  lemma {:induction false} RunKeeps(s: State, events: seq<Event>)
    requires Inv(s.net) && Run(s, events)
    ensures Inv(After(s, events).net)
    decreases |events|
  {
    hide Inv, Next, Possible;
    if events != [] {
      NextKeeps(s, events[0]);
      RunKeeps(Next(s, events[0]), events[1..]);
    }
  }

  // What is in flight right after a save: of the requests before it those that were not tracked for the kind or for
  // recent stickers, those it asked, and, if none of these is about a set, the order.

  lemma {:induction false} AskedInFlight(net: Network, asks: seq<Ask>)
    ensures var later := AllAsked(net, asks);
      && later.nextId == net.nextId + |asks|
      && (forall r :: r < net.nextId ==> (r in later.inFlight <==> r in net.inFlight))
      && (forall r :: r < net.nextId && r in net.inFlight ==> later.inFlight[r] == net.inFlight[r])
      && (forall r :: net.nextId <= r < net.nextId + |asks| ==>
            r in later.inFlight && later.inFlight[r] == asks[r - net.nextId])
      && (forall r :: r in later.inFlight ==> r in net.inFlight || net.nextId <= r < net.nextId + |asks|)
  {
    if asks != [] {
      AskedInFlight(net, asks[..|asks| - 1]);
    }
  }

  lemma SettledInFlight(net: Network, k: Kind, order: seq<SetId>)
    ensures var later := Settled(net, k, order);
      if net.disenable.Get(k) == {} && |order| >= 2
      then later.nextId == net.nextId + 1 && later.inFlight == net.inFlight[net.nextId := Reorder(k, order)]
      else later == net
  {
  }

  ghost predicate OnlyRecent(asks: seq<Ask>) { forall i :: 0 <= i < |asks| ==> asks[i].ClearRecent? }

  lemma OnlyRecentLast(init: seq<Ask>, last: Ask)
    ensures OnlyRecent(init + [last]) <==> OnlyRecent(init) && last.ClearRecent?
  {
    assert (init + [last])[|init|] == last;
    if OnlyRecent(init + [last]) {
      forall i | 0 <= i < |init| ensures init[i].ClearRecent? {
        assert (init + [last])[i] == init[i];
      }
    }
  }

  lemma {:induction false} DisenableAsked(net: Network, k: Kind, asks: seq<Ask>)
    requires net.disenable.Get(k) == {}
    requires forall i :: 0 <= i < |asks| ==> asks[i].ClearRecent? || (!asks[i].Reorder? && asks[i].kind == k)
    ensures AllAsked(net, asks).disenable.Get(k) == {} <==> OnlyRecent(asks)
  {
    hide OnlyRecent;
    if asks == [] {
      assert OnlyRecent([]) by { NoAsks(); }
    } else {
      var init, last := asks[..|asks| - 1], asks[|asks| - 1];
      DisenableAsked(net, k, init);
      assert asks == init + [last];
      OnlyRecentLast(init, last);
      if !last.ClearRecent? {
        assert AllAsked(net, init).nextId in AllAsked(net, asks).disenable.Get(k);
      }
    }
  }

  lemma NoAsks()
    ensures OnlyRecent([])
  {
  }

  ghost predicate CancelledBy(net: Network, k: Kind, r: RequestId) {
    r in net.disenable.Get(k) || r == net.reorder.Get(k) || r == net.clearRecent || r == net.clearRecentAttached
  }

  lemma InFlightAfterSave(s: State, k: Kind, order: seq<SetId>, removed: seq<SetId>, now: int, ask: Ask)
    requires Inv(s.net)
    ensures var net, asks := Next(s, Save(k, order, removed, now)).net, SaveAsks(s.lib, k, order, removed, now);
      && (forall r :: r < s.net.nextId ==> (r in net.inFlight <==> r in s.net.inFlight && !CancelledBy(s.net, k, r)))
      && (forall r :: r < s.net.nextId && r in net.inFlight ==> net.inFlight[r] == s.net.inFlight[r])
      && ((exists r :: r >= s.net.nextId && r in net.inFlight && net.inFlight[r] == ask) <==>
            || ask in asks
            || (ask == Reorder(k, order) && |order| >= 2 && OnlyRecent(asks)))
  {
    hide SaveAsks, AllAsked, Settled, NetworkFine, SentOnce, SavedLibrary;
    var asks := SaveAsks(s.lib, k, order, removed, now);
    var c := Cancelled(s.net, k, order);
    SaveAsksFit(s.lib, k, order, removed, now);
    AskedInFlight(c, asks);
    DisenableAsked(c, k, asks);
    SettledInFlight(AllAsked(c, asks), k, order);
    KnownBefore(s.net);
    var net := Next(s, Save(k, order, removed, now)).net;
    if ask in asks {
      var i :| 0 <= i < |asks| && asks[i] == ask;
      assert c.nextId + i in net.inFlight;
    }
    if ask == Reorder(k, order) && |order| >= 2 && OnlyRecent(asks) {
      assert net.inFlight[c.nextId + |asks|] == ask;
    }
    if r :| r >= s.net.nextId && r in net.inFlight && net.inFlight[r] == ask {
      if r < c.nextId + |asks| {
        assert asks[r - c.nextId] == ask;
      }
    }
  }

  // The requests to clear recent stickers that a later save cancels: the last one of either list.
  lemma {:induction false} RecentTracked(net: Network, asks: seq<Ask>)
    requires net.clearRecent == 0 && net.clearRecentAttached == 0 && net.nextId > 0
    ensures var later := AllAsked(net, asks);
      && (later.clearRecent != 0 <==> ClearRecent(false) in asks)
      && (later.clearRecent != 0 ==>
            later.clearRecent in later.inFlight && later.inFlight[later.clearRecent] == ClearRecent(false))
      && (later.clearRecentAttached != 0 <==> ClearRecent(true) in asks)
      && (later.clearRecentAttached != 0 ==>
            later.clearRecentAttached in later.inFlight
            && later.inFlight[later.clearRecentAttached] == ClearRecent(true))
      && (forall r :: r in later.inFlight ==> r in net.inFlight || r < later.nextId)
      && later.clearRecent < later.nextId && later.clearRecentAttached < later.nextId && later.nextId > 0
  {
    if asks != [] {
      var init, last := asks[..|asks| - 1], asks[|asks| - 1];
      assert asks == init + [last];
      RecentTracked(net, init);
    }
  }

  lemma RecentTrackedAfterSave(s: State, k: Kind, order: seq<SetId>, removed: seq<SetId>, now: int)
    requires Inv(s.net)
    ensures var net := Next(s, Save(k, order, removed, now)).net;
      && (net.clearRecent != 0 <==> CLOUD_RECENT_SET_ID in removed)
      && (net.clearRecent != 0 ==>
            net.clearRecent in net.inFlight && net.inFlight[net.clearRecent] == ClearRecent(false))
      && (net.clearRecentAttached != 0 <==> CLOUD_RECENT_ATTACHED_SET_ID in removed)
      && (net.clearRecentAttached != 0 ==>
            net.clearRecentAttached in net.inFlight && net.inFlight[net.clearRecentAttached] == ClearRecent(true))
  {
    hide SaveAsks, AllAsked, SavedLibrary, NetworkFine, SentOnce;
    var asks, c := SaveAsks(s.lib, k, order, removed, now), Cancelled(s.net, k, order);
    AsksExactly(s.lib, k, order, removed, now, 0);
    Numbered(s.net);
    RecentTracked(c, asks);
  }

  lemma Numbered(net: Network)
    requires Inv(net)
    ensures net.nextId > 0
  {
  }

  // An answer about a set sends the order exactly if nothing else about a set of the kind is in flight, and there are
  // sets to order; every answer only takes its request out of flight.
  lemma AnswerInFlight(s: State, r: RequestId)
    requires Inv(s.net) && r in s.net.inFlight
    ensures var was, ask, net := s.net.inFlight, s.net.inFlight[r], Next(s, Answer(r)).net;
      if (ask.Install? || ask.Uninstall?) && |ask.order| >= 2
         && forall q :: q in was && q != r && (was[q].Install? || was[q].Uninstall?) ==> was[q].kind != ask.kind
      then net.inFlight == (was - {r})[s.net.nextId := Reorder(ask.kind, ask.order)]
      else net.inFlight == was - {r}
    ensures var ask, net := s.net.inFlight[r], Next(s, Answer(r)).net;
      && net.clearRecent == (if ask == ClearRecent(false) then 0 else s.net.clearRecent)
      && net.clearRecentAttached == (if ask == ClearRecent(true) then 0 else s.net.clearRecentAttached)
  {
    var ask := s.net.inFlight[r];
    if ask.Install? || ask.Uninstall? {
      var left := s.net.disenable.Get(ask.kind) - {r};
      assert Tracked(s.net, ask.kind);
      forall q | q in s.net.inFlight && q != r && (s.net.inFlight[q].Install? || s.net.inFlight[q].Uninstall?)
        ensures s.net.inFlight[q].kind == ask.kind ==> q in left
      {
        assert AskFine(s.net, q);
      }
      forall q | q in left ensures q in s.net.inFlight && q != r && s.net.inFlight[q].kind == ask.kind {
      }
    }
  }

  // A save changes the sets as it says, and an answer leaves them.
  lemma SetsTold(s: State, k: Kind, order: seq<SetId>, removed: seq<SetId>, now: int, r: RequestId)
    ensures Next(s, Save(k, order, removed, now)).lib == SavedLibrary(s.lib, k, order, removed, now)
    ensures r in s.net.inFlight ==> Next(s, Answer(r)).lib == s.lib
  {
  }

  // The order to be sent is the one saved last.
  lemma SavedTold(s: State, e: Event, k: Kind)
    requires Possible(s, e)
    ensures Next(s, e).net.saved.Get(k) == if e.Save? && e.kind == k then Some(e.order) else s.net.saved.Get(k)
  {
    hide SaveAsks, SavedLibrary;
    if e.Save? {
      AskedSaved(Cancelled(s.net, e.kind, e.order), SaveAsks(s.lib, e.kind, e.order, e.removed, e.now));
    }
  }

  lemma {:induction false} AskedSaved(net: Network, asks: seq<Ask>)
    ensures AllAsked(net, asks).saved == net.saved
  {
    if asks != [] {
      AskedSaved(net, asks[..|asks| - 1]);
    }
  }

  lemma KnownBefore(net: Network)
    requires Inv(net)
    ensures forall r :: r in net.inFlight ==> 0 < r < net.nextId
  {
    forall r | r in net.inFlight ensures 0 < r < net.nextId {
      assert AskFine(net, r);
    }
  }

  lemma QuietFine()
    ensures Inv(QUIET)
  {
    forall k ensures Tracked(QUIET, k) && SentOnce(QUIET, k) {
    }
  }

  // In every run: since it was last saved, the order of a kind was sent to the server exactly once if nothing about
  // its sets is in flight any more, and not at all if something still is or there is nothing to order.
  lemma OrderSentOnce(lib: Library, events: seq<Event>, k: Kind, order: seq<SetId>)
    requires Run(State(lib, QUIET), events) && After(State(lib, QUIET), events).net.saved.Get(k) == Some(order)
    ensures var net := After(State(lib, QUIET), events).net;
            net.reordered.Get(k) == if net.disenable.Get(k) == {} && |order| >= 2 then [order] else []
  {
    hide NetworkFine, After, Run;
    QuietFine();
    RunKeeps(State(lib, QUIET), events);
    assert SentOnce(After(State(lib, QUIET), events).net, k);
  }

  // While a new order is on its way, nothing about the sets of its kind is, and no other order of that kind.
  lemma OneReorderInFlight(lib: Library, events: seq<Event>, q: RequestId, r: RequestId)
    requires Run(State(lib, QUIET), events)
    requires var f := After(State(lib, QUIET), events).net.inFlight;
             q in f && r in f && f[q].Reorder? && !f[r].ClearRecent? && f[r].kind == f[q].kind
    ensures q == r
  {
    hide After, Run, SentOnce;
    QuietFine();
    RunKeeps(State(lib, QUIET), events);
    var net := After(State(lib, QUIET), events).net;
    assert AskFine(net, q) && AskFine(net, r);
  }
}

/** The part of ApiWrap that saves sticker sets. */
module StickerSetsApi {
  import opened Options
  import opened StickerSetsSpec

  lemma {:induction false} FirstRemoved(s: seq<SetId>, id: SetId, i: nat)
    requires i < |s| && s[i] == id && forall j :: 0 <= j < i ==> s[j] != id
    ensures WithoutFirst(s, id) == s[..i] + s[i + 1..]
  {
    if i > 0 {
      FirstRemoved(s[1..], id, i - 1);
    }
  }

  lemma {:induction false} NotThere(s: seq<SetId>, id: SetId)
    requires forall j :: 0 <= j < |s| ==> s[j] != id
    ensures WithoutFirst(s, id) == s
  {
    if s != [] {
      NotThere(s[1..], id);
    }
  }

  lemma SomeOrNone(ids: set<SetId>)
    ensures ids == {} || exists id :: id in ids
  {
    assert (forall id :: id in ids <==> false) ==> ids == {};
  }

  class ApiWrap {
    var sets: map<SetId, StickersSet>
    var orders: PerKind<seq<SetId>>
    var recent: seq<StickerId>
    var disenable: PerKind<set<RequestId>>
    var reorder: PerKind<RequestId>
    var clearRecent: RequestId
    var clearRecentAttached: RequestId
    var inFlight: map<RequestId, Ask>
    var nextId: RequestId
    ghost var saved: PerKind<Option<seq<SetId>>>
    ghost var reordered: PerKind<seq<seq<SetId>>>

    constructor (lib: Library)
      ensures Lib() == lib && Net() == QUIET && Inv(Net())
    {
      sets, orders, recent := lib.sets, lib.orders, lib.recent;
      disenable, reorder, clearRecent, clearRecentAttached := PerKind({}, {}, {}), PerKind(0, 0, 0), 0, 0;
      inFlight, nextId, saved, reordered := map[], 1, PerKind(None, None, None), PerKind([], [], []);
      new;
      QuietFine();
    }

    ghost function Lib(): Library
      reads this
    {
      Library(sets, orders, recent)
    }

    ghost function Net(): Network
      reads this
    {
      Network(disenable, reorder, clearRecent, clearRecentAttached, inFlight, nextId, saved, reordered)
    }

    method Send(ask: Ask) returns (requestId: RequestId)
      modifies this`inFlight, this`nextId
      ensures requestId == old(nextId) && inFlight == old(inFlight)[requestId := ask] && nextId == requestId + 1
    {
      requestId := nextId;
      inFlight, nextId := inFlight[requestId := ask], requestId + 1;
    }

    // A request about a set of this kind.
    method AskAbout(k: Kind, ask: Ask)
      requires (ask.Uninstall? || ask.Install?) && ask.kind == k
      modifies this`inFlight, this`nextId, this`disenable
      ensures Net() == Asked(old(Net()), ask)
    {
      hide PerKind.Put, PerKind.Get;
      var requestId := Send(ask);
      disenable := disenable.Put(k, disenable.Get(k) + {requestId});
    }

    method AskClearRecent(isAttached: bool)
      modifies this`inFlight, this`nextId, this`clearRecent, this`clearRecentAttached
      ensures Net() == Asked(old(Net()), ClearRecent(isAttached))
    {
      var requestId := Send(ClearRecent(isAttached));
      if isAttached {
        clearRecentAttached := requestId;
      } else {
        clearRecent := requestId;
      }
    }

    method EraseRecent(stickers: seq<StickerId>)
      modifies this`recent
      ensures recent == Without(old(recent), stickers)
    {
      var i := 0;
      while i != |recent|
        invariant i <= |recent| && recent[..i] + Without(recent[i..], stickers) == Without(old(recent), stickers)
        decreases |recent| - i
      {
        assert recent[i..][1..] == recent[i + 1..];
        if recent[i] in stickers {
          ghost var before := recent;
          recent := recent[..i] + recent[i + 1..];
          assert recent[..i] == before[..i] && recent[i..] == before[i + 1..];
        } else {
          assert recent[..i + 1] == recent[..i] + [recent[i]];
          i := i + 1;
        }
      }
    }

    method RemoveFromOrder(k: Kind, id: SetId)
      modifies this`orders
      ensures orders == old(orders).Put(k, WithoutFirst(old(orders).Get(k), id))
    {
      var order := orders.Get(k);
      var i := 0;
      while i < |order| && order[i] != id
        invariant i <= |order| && forall j :: 0 <= j < i ==> order[j] != id
      {
        i := i + 1;
      }
      if i < |order| {
        FirstRemoved(order, id, i);
        orders := orders.Put(k, order[..i] + order[i + 1..]);
      } else {
        NotThere(order, id);
      }
    }

    method RemoveSet(k: Kind, id: SetId, order: seq<SetId>)
      modifies this
      ensures Lib() == RemovedOne(old(Lib()), k, id)
      ensures Net() == AllAsked(old(Net()), RemovalAsk(old(Lib()), k, id, order))
    {
      hide Without, WithoutFirst, PerKind.Put, PerKind.Get, AllAsked, Asked;
      OneAsked(Net());
      if IsCloudRecent(id) {
        sets := sets - {CLOUD_RECENT_SET_ID, CLOUD_RECENT_ATTACHED_SET_ID, CUSTOM_SET_ID};
        recent := [];
        AskClearRecent(id == CLOUD_RECENT_ATTACHED_SET_ID);
        return;
      }
      if id in sets {
        var pack := sets[id];
        EraseRecent(pack.stickers);
        if !pack.archived {
          AskAbout(k, Uninstall(k, id, order));
          RemoveFromOrder(k, id);
          if !pack.featured && !pack.special && !pack.emoji && pack.locked <= 0 {
            sets := sets - {id};
          } else {
            sets := sets[id := pack.(installed := false, archived := false, installDate := 0)];
          }
        }
      }
    }

    lemma OneAsked(net: Network)
      ensures AllAsked(net, []) == net && forall ask :: AllAsked(net, [ask]) == Asked(net, ask)
    {
      hide Asked;
      forall ask ensures AllAsked(net, [ask]) == Asked(net, ask) {
        assert [ask][..0] == [];
      }
    }

    // Clears all installed marks of this kind.
    method ClearInstalled(k: Kind)
      modifies this`sets
      ensures sets == map id | id in old(sets) :: Unmarked(old(sets)[id], k)
    {
      hide Unmarked;
      var left := sets.Keys;
      while left != {}
        invariant sets.Keys == old(sets).Keys && left <= sets.Keys
        invariant forall id :: id in sets ==>
          sets[id] == if id in left then old(sets)[id] else Unmarked(old(sets)[id], k)
      {
        SomeOrNone(left);
        var id :| id in left;
        var pack := sets[id];
        if !pack.archived && k == KindOf(pack) {
          sets := sets[id := pack.(installed := false)];
        }
        assert sets[id] == Unmarked(pack, k) by { WhatIsUnmarked(pack, k); }
        left := left - {id};
      }
      assert forall id :: id in sets ==> sets[id] == Unmarked(old(sets)[id], k);
    }

    lemma WhatIsUnmarked(pack: StickersSet, k: Kind)
      ensures Unmarked(pack, k) == if !pack.archived && k == KindOf(pack) then pack.(installed := false) else pack
    {
    }

    method PlaceSet(k: Kind, id: SetId, order: seq<SetId>, removed: seq<SetId>, now: int)
      modifies this
      ensures Lib() == PlacedOne(old(Lib()), k, removed, now, id)
      ensures Net() == AllAsked(old(Net()), PlacingAsk(old(Lib()), k, removed, id, order))
    {
      hide PerKind.Put, PerKind.Get, AllAsked, Asked, Placed;
      OneAsked(Net());
      if id !in sets {
        return;
      }
      var pack := sets[id];
      WhatIsPlaced(pack, id in removed, now);
      if pack.archived && id !in removed {
        AskAbout(k, Install(k, id, order));
        pack := pack.(archived := false);
      }
      orders := orders.Put(k, orders.Get(k) + [id]);
      pack := pack.(installed := true);
      if pack.installDate == 0 {
        pack := pack.(installDate := now);
      }
      sets := sets[id := pack];
    }

    lemma WhatIsPlaced(pack: StickersSet, removed: bool, now: int)
      ensures var awake := if pack.archived && !removed then pack.(archived := false) else pack;
              var marked := awake.(installed := true);
              Placed(pack, removed, now) == if marked.installDate == 0 then marked.(installDate := now) else marked
    {
    }

    // Forgets the sets that no one needs.
    method Purge()
      modifies this`sets
      ensures Lib() == Purged(old(Lib()))
    {
      var left := sets.Keys;
      while left != {}
        invariant sets.Keys <= old(sets).Keys && left <= sets.Keys
        invariant forall id :: id in old(sets) ==>
          if id in left || Kept(old(sets)[id]) then id in sets && sets[id] == old(sets)[id] else id !in sets
      {
        SomeOrNone(left);
        var id :| id in left;
        var pack := sets[id];
        if !(pack.featured || pack.installed || pack.archived || pack.special || pack.emoji || pack.locked > 0) {
          sets := sets - {id};
        }
        left := left - {id};
      }
      assert forall id :: id in old(sets) ==>
        if Kept(old(sets)[id]) then id in sets && sets[id] == old(sets)[id] else id !in sets;
    }

    method SaveOrder(k: Kind, order: seq<SetId>)
      requires disenable.Get(k) == {}
      modifies this`inFlight, this`nextId, this`reorder, this`reordered
      ensures Net() == Settled(old(Net()), k, order)
    {
      if |order| < 2 {
        return;
      }
      var requestId := Send(Reorder(k, order));
      reorder := reorder.Put(k, requestId);
      reordered := reordered.Put(k, reordered.Get(k) + [order]);
    }

    method CancelRequests(k: Kind, order: seq<SetId>)
      modifies this
      ensures Net() == Cancelled(old(Net()), k, order) && Lib() == old(Lib())
    {
      hide PerKind.Put, PerKind.Get;
      inFlight := inFlight - (disenable.Get(k) + {reorder.Get(k), clearRecent, clearRecentAttached});
      disenable, reorder := disenable.Put(k, {}), reorder.Put(k, 0);
      clearRecent, clearRecentAttached := 0, 0;
      saved, reordered := saved.Put(k, Some(order)), reordered.Put(k, []);
    }

    method RemoveSets(k: Kind, removed: seq<SetId>, order: seq<SetId>)
      modifies this
      ensures Lib() == RemovedAll(old(Lib()), k, removed)
      ensures Net() == AllAsked(old(Net()), RemovalAsks(old(Lib()), k, removed, order))
    {
      hide Asked, RemovedOne, RemovalAsk;
      ghost var was, net := Lib(), Net();
      for i := 0 to |removed|
        invariant Lib() == RemovedAll(was, k, removed[..i])
        invariant Net() == AllAsked(net, RemovalAsks(was, k, removed[..i], order))
      {
        assert removed[..i + 1][..i] == removed[..i];
        MoreAsked(net, RemovalAsks(was, k, removed[..i], order), RemovalAsk(Lib(), k, removed[i], order));
        RemoveSet(k, removed[i], order);
      }
      assert removed[..|removed|] == removed;
    }

    method PlaceSets(k: Kind, order: seq<SetId>, removed: seq<SetId>, now: int)
      modifies this
      ensures Lib() == PlacedAll(old(Lib()), k, removed, now, order)
      ensures Net() == AllAsked(old(Net()), PlacingAsks(old(Lib()), k, removed, now, order, order))
    {
      hide Asked, PlacedOne, PlacingAsk;
      ghost var was, net := Lib(), Net();
      for i := 0 to |order|
        invariant Lib() == PlacedAll(was, k, removed, now, order[..i])
        invariant Net() == AllAsked(net, PlacingAsks(was, k, removed, now, order[..i], order))
      {
        assert order[..i + 1][..i] == order[..i];
        MoreAsked(net, PlacingAsks(was, k, removed, now, order[..i], order),
                  PlacingAsk(Lib(), k, removed, order[i], order));
        PlaceSet(k, order[i], order, removed, now);
      }
      assert order[..|order|] == order;
    }

    method SaveStickerSets(order: seq<SetId>, removed: seq<SetId>, k: Kind, now: int)
      requires Inv(Net())
      modifies this
      ensures Lib() == SavedLibrary(old(Lib()), k, order, removed, now)
      ensures Net() == SavedNetwork(old(Net()), k, order, SaveAsks(old(Lib()), k, order, removed, now)) && Inv(Net())
    {
      hide PerKind.Put, PerKind.Get, Inv, AllAsked, RemovedAll, RemovalAsks, PlacedAll, PlacingAsks;
      hide Settled, Cancelled, Purged;
      SaveAsksFit(Lib(), k, order, removed, now);
      SavedFine(Net(), k, order, SaveAsks(Lib(), k, order, removed, now));
      CancelRequests(k, order);
      ghost var was, net := Lib(), Net();
      RemoveSets(k, removed, order);
      ClearInstalled(k);
      orders := orders.Put(k, []);
      MoreAsked(net, RemovalAsks(was, k, removed, order), PlacingAsks(Lib(), k, removed, now, order, order));
      PlaceSets(k, order, removed, now);
      Purge();
      if disenable.Get(k) == {} {
        SaveOrder(k, order);
      } else {
        NotSettled(Net(), k, order);
      }
    }

    lemma NotSettled(net: Network, k: Kind, order: seq<SetId>)
      requires net.disenable.Get(k) != {}
      ensures Settled(net, k, order) == net
    {
    }

    lemma {:induction false} MoreAsked(net: Network, asks: seq<Ask>, more: seq<Ask>)
      ensures AllAsked(net, asks + more) == AllAsked(AllAsked(net, asks), more)
    {
      hide Asked;
      if more == [] {
        assert asks + more == asks;
      } else {
        MoreAsked(net, asks, more[..|more| - 1]);
        assert (asks + more)[..|asks + more| - 1] == asks + more[..|more| - 1];
      }
    }

    // An answer about a set, good or bad.
    method StickerSetDisenabled(requestId: RequestId)
      requires Inv(Net()) && requestId in inFlight && (inFlight[requestId].Uninstall? || inFlight[requestId].Install?)
      modifies this
      ensures Lib() == old(Lib()) && Net() == Answered(old(Net()), requestId) && Inv(Net())
    {
      hide Inv;
      AnsweredFine(Net(), requestId);
      var k, order := inFlight[requestId].kind, inFlight[requestId].order;
      inFlight := inFlight - {requestId};
      disenable := disenable.Put(k, disenable.Get(k) - {requestId});
      if disenable.Get(k) == {} {
        SaveOrder(k, order);
      }
    }

    method ReorderAnswered(requestId: RequestId)
      requires Inv(Net()) && requestId in inFlight && inFlight[requestId].Reorder?
      modifies this
      ensures Lib() == old(Lib()) && Net() == Answered(old(Net()), requestId) && Inv(Net())
    {
      hide Inv;
      AnsweredFine(Net(), requestId);
      reorder := reorder.Put(inFlight[requestId].kind, 0);
      inFlight := inFlight - {requestId};
    }

    method ClearRecentAnswered(requestId: RequestId)
      requires Inv(Net()) && requestId in inFlight && inFlight[requestId].ClearRecent?
      modifies this
      ensures Lib() == old(Lib()) && Net() == Answered(old(Net()), requestId) && Inv(Net())
    {
      hide Inv;
      AnsweredFine(Net(), requestId);
      if inFlight[requestId].attached {
        clearRecentAttached := 0;
      } else {
        clearRecent := 0;
      }
      inFlight := inFlight - {requestId};
    }
  }
}
