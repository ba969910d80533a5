/** Loading the dialog lists: one load state a folder, a list request and a pinned request for each. */
module DialogsLoadSpec {
  import opened Options

  type RequestId = nat // 0: none

  // The main list, whose load state exists from the start and is never made again, and the folders.
  datatype Folder = MainList | Folder(id: int)

  datatype LoadState = LoadState(
    offsetDate: int, offsetId: int, offsetPeer: int,
    requestId: RequestId, listReceived: bool,
    pinnedRequestId: RequestId, pinnedReceived: bool)

  const FRESH := LoadState(0, 0, 0, 0, false, 0, false)

  datatype Asked = List(folder: Folder) | Pinned(folder: Folder) | Reload(folder: Folder)

  datatype State = State(
    states: map<Folder, LoadState>,
    till: int, blockedByDate: bool,
    reloads: set<Folder>,
    inFlight: map<RequestId, Asked>, nextId: RequestId,
    created: seq<Folder>,      // every load state ever made
    listsIn: seq<Folder>,      // every time the last of a list arrived for a load state
    pinnedIn: seq<Folder>,     // every time the pinned dialogs arrived for a load state
    posted: seq<Folder>)       // every "list done" ever posted

  const INITIAL := State(map[MainList := FRESH], 0, false, {}, map[], 1, [MainList], [], [], [])

  // What a list request brings: nothing new, the whole rest, or a slice with the offset found in it, if any.
  datatype ListResult = NotModified | Whole | Slice(lastDate: int, lastId: int, lastPeer: int)

  // What the rest of the session answers when asked whether more dialogs are needed.
  datatype Wish = Wish(exceptionsLoading: bool, archive: Option<Folder>)

  function Sending(s: State, what: Asked): State {
    s.(inFlight := s.inFlight[s.nextId := what], nextId := s.nextId + 1)
  }

  function With(s: State, f: Folder, l: LoadState): State { s.(states := s.states[f := l]) }

  function RefreshedBlocked(s: State): State {
    s.(blockedByDate :=
      && MainList in s.states
      && !s.states[MainList].listReceived && s.states[MainList].requestId == 0
      && s.till > 0 && 0 < s.states[MainList].offsetDate <= s.till)
  }

  function RequestedPinned(s: State, f: Folder): State {
    if f !in s.states || s.states[f].pinnedReceived || s.states[f].pinnedRequestId != 0 then s
    else With(Sending(s, Pinned(f)), f, s.states[f].(pinnedRequestId := s.nextId))
  }

  function RequestedMore(s: State, f: Folder): State {
    if f !in s.states || s.states[f].requestId != 0 || s.blockedByDate then s
    else
      var sent := With(Sending(s, List(f)), f, s.states[f].(requestId := s.nextId));
      var both := if sent.states[f].pinnedReceived then sent else RequestedPinned(sent, f);
      if f == MainList then RefreshedBlocked(both) else both
  }

  function Requested(s: State, f: Folder): State {
    var ready := if f != MainList && f !in s.states
                 then With(s, f, FRESH).(created := s.created + [f]) else s;
    RequestedMore(ready, f)
  }

  function Finished(s: State, f: Folder): State {
    if f !in s.states || !s.states[f].listReceived || !s.states[f].pinnedReceived then s
    else s.(states := s.states - {f}, posted := s.posted + [f])
  }

  function ListArrived(s: State, f: Folder): State
    requires f in s.states
  {
    With(s, f, s.states[f].(listReceived := true)).(listsIn := s.listsIn + [f])
  }

  function PinnedArrived(s: State, f: Folder): State
    requires f in s.states
  {
    With(s, f, s.states[f].(pinnedRequestId := 0, pinnedReceived := true)).(pinnedIn := s.pinnedIn + [f])
  }

  function OffsetUpdated(s: State, f: Folder, lastDate: int, lastId: int, lastPeer: int): State {
    if f !in s.states then s
    else if lastDate != 0 then
      With(s, f, s.states[f].(offsetDate := lastDate, offsetId := lastId, offsetPeer := lastPeer, requestId := 0))
    else Finished(ListArrived(s, f), f)
  }

  function MoreIfNeeded(s: State, wish: Wish): State {
    if wish.exceptionsLoading then s
    else if MainList in s.states && !s.states[MainList].listReceived then
      if s.states[MainList].requestId != 0 then s else Requested(s, MainList)
    else if wish.archive.Some? then RequestedMore(s, wish.archive.value)
    else s
  }

  function Answered(s: State, r: RequestId): State { s.(inFlight := s.inFlight - {r}) }

  function ListTaken(s: State, f: Folder, result: ListResult): State {
    match result
    case NotModified => s
    case Whole => if f in s.states then Finished(ListArrived(s, f), f) else s
    case Slice(date, id, peer) => OffsetUpdated(s, f, date, id, peer)
  }

  function ListDone(s: State, r: RequestId, result: ListResult, wish: Wish): State
    requires r in s.inFlight && s.inFlight[r].List?
  {
    var f := s.inFlight[r].folder;
    var taken := ListTaken(Answered(s, r), f, result);
    var refreshed := if f == MainList && (MainList !in taken.states || !taken.states[MainList].listReceived)
                     then RefreshedBlocked(taken) else taken;
    MoreIfNeeded(refreshed, wish)
  }

  // The failure handler looks its load state up and writes to it without asking whether it is there.
  function ListFailed(s: State, r: RequestId): State
    requires r in s.inFlight && s.inFlight[r].List? && s.inFlight[r].folder in s.states
  {
    var f := s.inFlight[r].folder;
    With(Answered(s, r), f, s.states[f].(requestId := 0))
  }

  function PinnedDone(s: State, r: RequestId): State
    requires r in s.inFlight && s.inFlight[r].Pinned?
  {
    var f := s.inFlight[r].folder;
    if f !in s.states then Answered(s, r)
    else Finished(PinnedArrived(Answered(s, r), f), f)
  }

  function ReloadRequested(s: State, f: Folder): State {
    if f in s.reloads then s else Sending(s.(reloads := s.reloads + {f}), Reload(f))
  }

  function ReloadDone(s: State, r: RequestId): State
    requires r in s.inFlight && s.inFlight[r].Reload?
  {
    Answered(s, r).(reloads := s.reloads - {s.inFlight[r].folder})
  }

  function MoreBlocked(s: State, now: int, slice: int): State {
    if MainList !in s.states then s
    else
      var date := s.states[MainList].offsetDate;
      Requested(RefreshedBlocked(s.(till := if date != 0 then date - slice else now - slice)), MainList)
  }

  datatype Event =
    | Request(folder: Folder)
    | ListAnswer(request: RequestId, result: ListResult, wish: Wish)
    | ListFailure(request: RequestId)
    | PinnedAnswer(request: RequestId) // an answer and a failure end alike
    | ReloadPinned(folder: Folder)
    | ReloadAnswer(request: RequestId)
    | RequestMoreBlocked(now: int, slice: int)
    | RequestPinned(folder: Folder)
    | RequestMoreIfNeeded(wish: Wish)

  // Any request in flight may be answered or fail at any time; nothing else is asked of the environment.
  predicate Possible(s: State, e: Event) {
    match e
    case Request(_) => true
    case ListAnswer(r, _, _) => r in s.inFlight && s.inFlight[r].List?
    case ListFailure(r) => r in s.inFlight && s.inFlight[r].List?
    case PinnedAnswer(r) => r in s.inFlight && s.inFlight[r].Pinned?
    case ReloadPinned(_) => true
    case ReloadAnswer(r) => r in s.inFlight && s.inFlight[r].Reload?
    case RequestMoreBlocked(_, _) => true
    case RequestPinned(_) => true
    case RequestMoreIfNeeded(_) => true
  }

  // Between events: each request in flight is the one its load state remembers, and the books of load states add up.
  ghost predicate Inv(s: State) {
    && Numbered(s.inFlight, s.nextId)
    && Remembered(s)
    && ReloadsKnown(s.inFlight, s.reloads)
    && (forall f :: f in s.states ==> Unfinished(s, f))
    && AllBooks(s)
  }

  ghost predicate AllBooks(s: State) {
    && Books(s.created, s.posted, s.states.Keys)
    && Books(s.listsIn, s.posted, ListHalf(s.states))
    && Books(s.pinnedIn, s.posted, PinnedHalf(s.states))
  }

  ghost function ListHalf(m: map<Folder, LoadState>): set<Folder> { set f | f in m && m[f].listReceived }

  ghost function PinnedHalf(m: map<Folder, LoadState>): set<Folder> { set f | f in m && m[f].pinnedReceived }

  ghost predicate Numbered(inFlight: map<RequestId, Asked>, nextId: RequestId) {
    nextId > 0 && forall r :: r in inFlight ==> 0 < r < nextId
  }

  ghost predicate Remembered(s: State) {
    forall r :: r in s.inFlight ==>
      (s.inFlight[r].List? ==> ListRemembered(s, r)) && (s.inFlight[r].Pinned? ==> PinnedRemembered(s, r))
  }

  ghost predicate ReloadsKnown(inFlight: map<RequestId, Asked>, reloads: set<Folder>) {
    && (forall r :: r in inFlight && inFlight[r].Reload? ==> inFlight[r].folder in reloads)
    && (forall r, q :: r in inFlight && q in inFlight && inFlight[r].Reload? && inFlight[r] == inFlight[q] ==> r == q)
  }

  // Whatever ever came in was posted as done or still belongs to a live load state.
  ghost predicate Books(came: seq<Folder>, posted: seq<Folder>, live: set<Folder>) {
    forall f :: multiset(came)[f] == multiset(posted)[f] + if f in live then 1 else 0
  }

  ghost predicate ListRemembered(s: State, r: RequestId)
    requires r in s.inFlight
  {
    var f := s.inFlight[r].folder;
    f in s.states && s.states[f].requestId == r && !s.states[f].listReceived
  }

  ghost predicate PinnedRemembered(s: State, r: RequestId)
    requires r in s.inFlight
  {
    var f := s.inFlight[r].folder;
    f in s.states && s.states[f].pinnedRequestId == r && !s.states[f].pinnedReceived
  }

  // A load state lives until both halves arrived; a pinned request it remembers is in flight.
  ghost predicate Unfinished(s: State, f: Folder)
    requires f in s.states
  {
    var l := s.states[f];
    && !(l.listReceived && l.pinnedReceived)
    && l.requestId < s.nextId && l.pinnedRequestId < s.nextId
    && (l.listReceived ==> l.requestId != 0)
    && (l.pinnedRequestId != 0 ==> l.pinnedRequestId in s.inFlight && s.inFlight[l.pinnedRequestId] == Pinned(f))
  }

  ghost function Next(s: State, e: Event): State
    requires Possible(s, e) && Inv(s)
  {
    match e
    case Request(f) => Requested(s, f)
    case ListAnswer(r, result, wish) => ListDone(s, r, result, wish)
    case ListFailure(r) => ListFailed(s, r) // defined: its load state is there
    case PinnedAnswer(r) => PinnedDone(s, r)
    case ReloadPinned(f) => ReloadRequested(s, f)
    case ReloadAnswer(r) => ReloadDone(s, r)
    case RequestMoreBlocked(now, slice) => MoreBlocked(s, now, slice)
    case RequestPinned(f) => RequestedPinned(s, f)
    case RequestMoreIfNeeded(wish) => MoreIfNeeded(s, wish)
  }

  lemma SameHalves(m: map<Folder, LoadState>, m': map<Folder, LoadState>)
    requires m.Keys == m'.Keys
    requires forall f :: f in m ==>
      m[f].listReceived == m'[f].listReceived && m[f].pinnedReceived == m'[f].pinnedReceived
    ensures ListHalf(m) == ListHalf(m') && PinnedHalf(m) == PinnedHalf(m')
  {
  }

  // A change of load states that leaves which there are, and which halves they have.
  lemma SameBooks(s: State, t: State)
    requires AllBooks(s) && t.created == s.created && t.posted == s.posted
    requires t.listsIn == s.listsIn && t.pinnedIn == s.pinnedIn && t.states.Keys == s.states.Keys
    requires forall f :: f in s.states ==>
      t.states[f].listReceived == s.states[f].listReceived && t.states[f].pinnedReceived == s.states[f].pinnedReceived
    ensures AllBooks(t)
  {
    hide Books, ListHalf, PinnedHalf;
    SameHalves(s.states, t.states);
  }

  lemma SendKeeps(s: State, what: Asked)
    requires Numbered(s.inFlight, s.nextId) && ReloadsKnown(s.inFlight, s.reloads) && !what.Reload?
    ensures var t := Sending(s, what); Numbered(t.inFlight, t.nextId) && ReloadsKnown(t.inFlight, t.reloads)
  {
  }

  lemma PinnedKeeps(s: State, f: Folder)
    requires Inv(s)
    ensures Inv(RequestedPinned(s, f))
  {
    hide AllBooks, ReloadsKnown;
    if f in s.states && !s.states[f].pinnedReceived && s.states[f].pinnedRequestId == 0 {
      SendKeeps(s, Pinned(f));
      SameBooks(s, RequestedPinned(s, f));
    }
  }

  lemma ListSentKeeps(s: State, f: Folder)
    requires Inv(s) && f in s.states && s.states[f].requestId == 0
    ensures Inv(With(Sending(s, List(f)), f, s.states[f].(requestId := s.nextId)))
  {
    hide AllBooks, ReloadsKnown;
    SendKeeps(s, List(f));
    SameBooks(s, With(Sending(s, List(f)), f, s.states[f].(requestId := s.nextId)));
  }

  lemma BlockedFlagIsFree(s: State, s': State)
    requires Inv(s) && s' == s.(blockedByDate := s'.blockedByDate, till := s'.till)
    ensures Inv(s')
  {
    hide Numbered, ReloadsKnown, Books;
  }

  lemma MoreKeeps(s: State, f: Folder)
    requires Inv(s)
    ensures Inv(RequestedMore(s, f))
  {
    hide RequestedPinned, Inv;
    if f in s.states && s.states[f].requestId == 0 && !s.blockedByDate {
      var sent := With(Sending(s, List(f)), f, s.states[f].(requestId := s.nextId));
      ListSentKeeps(s, f);
      PinnedKeeps(sent, f);
      var both := if sent.states[f].pinnedReceived then sent else RequestedPinned(sent, f);
      BlockedFlagIsFree(both, RefreshedBlocked(both));
    }
  }

  lemma AddedBooks(came: seq<Folder>, posted: seq<Folder>, live: set<Folder>, f: Folder)
    requires Books(came, posted, live) && f !in live
    ensures Books(came + [f], posted, live + {f})
  {
    assert multiset(came + [f]) == multiset(came) + multiset{f};
  }

  lemma CreatedKeeps(s: State, f: Folder)
    requires Inv(s) && f !in s.states
    ensures Inv(With(s, f, FRESH).(created := s.created + [f]))
  {
    hide ReloadsKnown, Books;
    AddedBooks(s.created, s.posted, s.states.Keys, f);
    var m := With(s, f, FRESH).states;
    assert m.Keys == s.states.Keys + {f};
    assert ListHalf(m) == ListHalf(s.states) && PinnedHalf(m) == PinnedHalf(s.states);
  }

  lemma RequestedKeeps(s: State, f: Folder)
    requires Inv(s)
    ensures Inv(Requested(s, f))
  {
    hide Inv, RequestedMore;
    if f != MainList && f !in s.states {
      CreatedKeeps(s, f);
      MoreKeeps(With(s, f, FRESH).(created := s.created + [f]), f);
    } else {
      MoreKeeps(s, f);
    }
  }

  lemma RemovedBooks(came: seq<Folder>, posted: seq<Folder>, live: set<Folder>, f: Folder)
    requires Books(came, posted, live) && f in live
    ensures Books(came, posted + [f], live - {f})
  {
    assert multiset(posted + [f]) == multiset(posted) + multiset{f};
  }

  // A load state with both halves, and nothing in flight for it, goes away and is posted.
  lemma FinishKeeps(s: State, f: Folder)
    requires f in s.states && s.states[f].listReceived && s.states[f].pinnedReceived
    requires Numbered(s.inFlight, s.nextId) && Remembered(s) && ReloadsKnown(s.inFlight, s.reloads)
    requires (forall g :: g in s.states && g != f ==> Unfinished(s, g)) && AllBooks(s)
    ensures Inv(Finished(s, f))
  {
    hide Numbered, ReloadsKnown, Books, ListHalf, PinnedHalf;
    var m := s.states - {f};
    HalvesWithout(s.states, f);
    RemovedBooks(s.created, s.posted, s.states.Keys, f);
    RemovedBooks(s.listsIn, s.posted, ListHalf(s.states), f);
    RemovedBooks(s.pinnedIn, s.posted, PinnedHalf(s.states), f);
    assert m.Keys == s.states.Keys - {f};
  }

  lemma HalvesWithout(m: map<Folder, LoadState>, f: Folder)
    ensures ListHalf(m - {f}) == ListHalf(m) - {f} && PinnedHalf(m - {f}) == PinnedHalf(m) - {f}
    ensures f in m ==> (f in ListHalf(m) <==> m[f].listReceived) && (f in PinnedHalf(m) <==> m[f].pinnedReceived)
  {
  }

  // Changing one load state, but not which halves it has.
  lemma UpdateKeeps(s: State, f: Folder, l: LoadState)
    requires Inv(s) && f in s.states && Unfinished(With(s, f, l), f)
    requires l.listReceived == s.states[f].listReceived && l.pinnedReceived == s.states[f].pinnedReceived
    requires forall r :: r in s.inFlight ==>
      (s.inFlight[r] == List(f) ==> l.requestId == r) && (s.inFlight[r] == Pinned(f) ==> l.pinnedRequestId == r)
    ensures Inv(With(s, f, l))
  {
    hide Numbered, ReloadsKnown, AllBooks;
    SameBooks(s, With(s, f, l));
  }

  lemma ListAnsweredKeeps(s: State, r: RequestId)
    requires Inv(s) && r in s.inFlight && s.inFlight[r].List?
    ensures var a := Answered(s, r); var f := s.inFlight[r].folder;
            Inv(a) && f in a.states && !a.states[f].listReceived && a.states[f].requestId == r
            && forall q :: q in a.inFlight ==> a.inFlight[q] != List(f)
  {
    hide Books;
  }

  lemma ListArrivedBooks(a: State, f: Folder)
    requires f in a.states && !a.states[f].listReceived && AllBooks(a)
    ensures AllBooks(ListArrived(a, f))
  {
    hide Books;
    AddedBooks(a.listsIn, a.posted, ListHalf(a.states), f);
    var m := ListArrived(a, f).states;
    assert m.Keys == a.states.Keys && ListHalf(m) == ListHalf(a.states) + {f} && PinnedHalf(m) == PinnedHalf(a.states);
  }

  lemma PinnedArrivedBooks(a: State, f: Folder)
    requires f in a.states && !a.states[f].pinnedReceived && AllBooks(a)
    ensures AllBooks(PinnedArrived(a, f))
  {
    hide Books;
    AddedBooks(a.pinnedIn, a.posted, PinnedHalf(a.states), f);
    var m := PinnedArrived(a, f).states;
    assert m.Keys == a.states.Keys && PinnedHalf(m) == PinnedHalf(a.states) + {f} && ListHalf(m) == ListHalf(a.states);
  }

  lemma FinishedListKeeps(a: State, f: Folder)
    requires Inv(a) && f in a.states && !a.states[f].listReceived && a.states[f].requestId != 0
    requires forall q :: q in a.inFlight ==> a.inFlight[q] != List(f)
    ensures Inv(Finished(ListArrived(a, f), f))
  {
    hide Books, Numbered, ReloadsKnown, ListHalf, PinnedHalf;
    ListArrivedBooks(a, f);
    if a.states[f].pinnedReceived {
      FinishKeeps(ListArrived(a, f), f);
    }
  }

  lemma ListTakenKeeps(s: State, r: RequestId, result: ListResult)
    requires Inv(s) && r in s.inFlight && s.inFlight[r].List?
    ensures Inv(ListTaken(Answered(s, r), s.inFlight[r].folder, result))
  {
    hide Inv, Finished;
    var a, f := Answered(s, r), s.inFlight[r].folder;
    assert r != 0 by { NumberedRequest(s, r); }
    ListAnsweredKeeps(s, r);
    FinishedListKeeps(a, f);
    if result.Slice? && result.lastDate != 0 {
      SliceKeeps(a, f, result);
    }
  }

  lemma NumberedRequest(s: State, r: RequestId)
    requires Inv(s) && r in s.inFlight
    ensures 0 < r < s.nextId
  {
    hide Books, ReloadsKnown;
  }

  lemma SliceKeeps(a: State, f: Folder, result: ListResult)
    requires Inv(a) && f in a.states && !a.states[f].listReceived && result.Slice? && result.lastDate != 0
    requires forall q :: q in a.inFlight ==> a.inFlight[q] != List(f)
    ensures Inv(ListTaken(a, f, result))
  {
    hide Books, Numbered, ReloadsKnown;
    UpdateKeeps(a, f, a.states[f].(offsetDate := result.lastDate, offsetId := result.lastId,
                                   offsetPeer := result.lastPeer, requestId := 0));
  }

  lemma MoreIfNeededKeeps(s: State, wish: Wish)
    requires Inv(s)
    ensures Inv(MoreIfNeeded(s, wish))
  {
    hide Inv, Requested, RequestedMore;
    RequestedKeeps(s, MainList);
    if wish.archive.Some? {
      MoreKeeps(s, wish.archive.value);
    }
  }

  lemma ListDoneKeeps(s: State, r: RequestId, result: ListResult, wish: Wish)
    requires Inv(s) && r in s.inFlight && s.inFlight[r].List?
    ensures Inv(ListDone(s, r, result, wish))
  {
    hide Inv, ListTaken, MoreIfNeeded;
    ListTakenKeeps(s, r, result);
    var taken := ListTaken(Answered(s, r), s.inFlight[r].folder, result);
    BlockedFlagIsFree(taken, RefreshedBlocked(taken));
    MoreIfNeededKeeps(taken, wish);
    MoreIfNeededKeeps(RefreshedBlocked(taken), wish);
  }

  lemma ListFailedKeeps(s: State, r: RequestId)
    requires Inv(s) && r in s.inFlight && s.inFlight[r].List?
    ensures s.inFlight[r].folder in s.states && Inv(ListFailed(s, r))
  {
    hide Books, Numbered, ReloadsKnown;
    ListAnsweredKeeps(s, r);
    var f := s.inFlight[r].folder;
    UpdateKeeps(Answered(s, r), f, s.states[f].(requestId := 0));
  }

  lemma PinnedDoneKeeps(s: State, r: RequestId)
    requires Inv(s) && r in s.inFlight && s.inFlight[r].Pinned?
    ensures Inv(PinnedDone(s, r))
  {
    hide Books, ListHalf, PinnedHalf, Finished;
    var f := s.inFlight[r].folder;
    var a := PinnedArrived(Answered(s, r), f);
    PinnedArrivedBooks(Answered(s, r), f);
    if a.states[f].listReceived {
      FinishKeeps(a, f);
    } else {
      NotFinishedYet(a, f);
    }
  }

  lemma NotFinishedYet(a: State, f: Folder)
    requires f in a.states && !a.states[f].listReceived
    ensures Finished(a, f) == a
  {
  }

  lemma ReloadKeeps(s: State, f: Folder)
    requires Inv(s)
    ensures Inv(ReloadRequested(s, f))
  {
    hide Books;
  }

  lemma ReloadDoneKeeps(s: State, r: RequestId)
    requires Inv(s) && r in s.inFlight && s.inFlight[r].Reload?
    ensures Inv(ReloadDone(s, r))
  {
    hide Books;
  }

  lemma MoreBlockedKeeps(s: State, now: int, slice: int)
    requires Inv(s)
    ensures Inv(MoreBlocked(s, now, slice))
  {
    hide Inv, Requested;
    if MainList in s.states {
      var date := s.states[MainList].offsetDate;
      var refreshed := RefreshedBlocked(s.(till := if date != 0 then date - slice else now - slice));
      BlockedFlagIsFree(s, refreshed);
      RequestedKeeps(refreshed, MainList);
    }
  }

  lemma NextKeeps(s: State, e: Event)
    requires Inv(s) && Possible(s, e)
    ensures Inv(Next(s, e))
  {
    hide Inv, Requested, ListDone, PinnedDone, ReloadRequested, ReloadDone, MoreBlocked, RequestedPinned, MoreIfNeeded;
    match e
    case Request(f) => RequestedKeeps(s, f);
    case ListAnswer(r, result, wish) => ListDoneKeeps(s, r, result, wish);
    case ListFailure(r) => ListFailedKeeps(s, r);
    case PinnedAnswer(r) => PinnedDoneKeeps(s, r);
    case ReloadPinned(f) => ReloadKeeps(s, f);
    case ReloadAnswer(r) => ReloadDoneKeeps(s, r);
    case RequestMoreBlocked(now, slice) => MoreBlockedKeeps(s, now, slice);
    case RequestPinned(f) => PinnedKeeps(s, f);
    case RequestMoreIfNeeded(wish) => MoreIfNeededKeeps(s, wish);
  }

  // The states a session can get into.
  ghost predicate Reaches(s: State, events: seq<Event>, last: State)
    requires Inv(s)
    decreases |events|
  {
    if events == [] then last == s
    else Possible(s, events[0]) && (NextKeeps(s, events[0]); Reaches(Next(s, events[0]), events[1..], last))
  }

  lemma {:induction false} ReachableKeeps(s: State, events: seq<Event>, last: State)
    requires Inv(s) && Reaches(s, events, last)
    ensures Inv(last)
    decreases |events|
  {
    hide Inv, Next, Possible;
    if events != [] {
      NextKeeps(s, events[0]);
      ReachableKeeps(Next(s, events[0]), events[1..], last);
    }
  }

  lemma InitialFine()
    ensures Inv(INITIAL)
  {
  }

  // In every run a folder has at most one list request and one pinned request of its load state in flight.
  lemma OneRequestEach(events: seq<Event>, s: State, q: RequestId, r: RequestId)
    requires Inv(INITIAL) && Reaches(INITIAL, events, s)
    requires q in s.inFlight && r in s.inFlight && s.inFlight[q] == s.inFlight[r]
    ensures q == r
  {
    ReachableKeeps(INITIAL, events, s);
  }

  // A list request in flight has a load state that still waits for it: the failure handler may dereference it.
  lemma FailureHandlerIsSafe(events: seq<Event>, s: State, r: RequestId)
    requires Inv(INITIAL) && Reaches(INITIAL, events, s)
    requires r in s.inFlight && s.inFlight[r].List?
    ensures var f := s.inFlight[r].folder; f in s.states && s.states[f].requestId == r && !s.states[f].listReceived
  {
    ReachableKeeps(INITIAL, events, s);
  }

  // "List done" is posted once for each load state, for one whole list and one answer about pinned dialogs, and
  // at once.
  lemma PostedOncePerState(events: seq<Event>, s: State, f: Folder)
    requires Inv(INITIAL) && Reaches(INITIAL, events, s)
    ensures multiset(s.created)[f] == multiset(s.posted)[f] + if f in s.states then 1 else 0
    ensures multiset(s.listsIn)[f] ==
            multiset(s.posted)[f] + if f in s.states && s.states[f].listReceived then 1 else 0
    ensures multiset(s.pinnedIn)[f] ==
            multiset(s.posted)[f] + if f in s.states && s.states[f].pinnedReceived then 1 else 0
    ensures f in s.states ==> !(s.states[f].listReceived && s.states[f].pinnedReceived)
  {
    ReachableKeeps(INITIAL, events, s);
  }

  // A list that has not arrived waits for an answer, but nothing was asked.
  ghost predicate Stalled(s: State, f: Folder) {
    f in s.states && !s.states[f].listReceived && s.states[f].requestId != 0 && !ListAsked(s, f)
  }

  ghost predicate ListAsked(s: State, f: Folder)
    requires f in s.states
  {
    s.states[f].requestId in s.inFlight && s.inFlight[s.states[f].requestId] == List(f)
  }

  // The load state stays as it is for its list, unless it may ask again and does.
  ghost predicate SameList(s: State, t: State, f: Folder)
    requires f in s.states
  {
    f in t.states && t.states[f].listReceived == s.states[f].listReceived
    && (t.states[f].requestId == s.states[f].requestId || (s.states[f].requestId == 0 && ListAsked(t, f)))
  }

  // What happened between two states left the lists alone, but for new requests.
  ghost predicate OnlyAsked(s: State, t: State) {
    && (forall r :: r in s.inFlight ==> r in t.inFlight && t.inFlight[r] == s.inFlight[r])
    && (forall r :: r in t.inFlight && r !in s.inFlight ==> r >= s.nextId)
    && s.nextId <= t.nextId
    && (forall f :: f in s.states ==> SameList(s, t, f))
    && (forall f :: f in t.states && f !in s.states ==> t.states[f].requestId == 0 || ListAsked(t, f))
  }

  lemma OnlyAskedStalls(s: State, t: State)
    requires OnlyAsked(s, t) && forall f :: f in s.states ==> s.states[f].requestId < s.nextId
    ensures forall f :: Stalled(t, f) <==> Stalled(s, f)
  {
    forall f ensures Stalled(t, f) <==> Stalled(s, f) {
      if f in s.states {
        assert SameList(s, t, f);
      }
    }
  }

  lemma PinnedOnlyAsks(s: State, f: Folder)
    requires Numbered(s.inFlight, s.nextId)
    ensures var t := RequestedPinned(s, f); OnlyAsked(s, t) && Numbered(t.inFlight, t.nextId)
  {
  }

  lemma ListOnlyAsks(s: State, f: Folder)
    requires Numbered(s.inFlight, s.nextId) && f in s.states && s.states[f].requestId == 0
    ensures var t := With(Sending(s, List(f)), f, s.states[f].(requestId := s.nextId));
            OnlyAsked(s, t) && Numbered(t.inFlight, t.nextId)
  {
  }

  lemma OnlyAskedTwice(s: State, t: State, u: State)
    requires OnlyAsked(s, t) && OnlyAsked(t, u)
    ensures OnlyAsked(s, u)
  {
    forall f | f in s.states ensures SameList(s, u, f) {
      assert SameList(s, t, f) && SameList(t, u, f);
    }
    forall f | f in u.states && f !in s.states ensures u.states[f].requestId == 0 || ListAsked(u, f) {
      assert f in t.states ==> SameList(t, u, f);
    }
  }

  lemma FlagOnlyAsks(s: State)
    ensures OnlyAsked(s, RefreshedBlocked(s)) && OnlyAsked(s, s)
  {
  }

  lemma MoreOnlyAsks(s: State, f: Folder)
    requires Numbered(s.inFlight, s.nextId)
    ensures OnlyAsked(s, RequestedMore(s, f))
  {
    hide OnlyAsked, RequestedPinned, RefreshedBlocked, Numbered;
    FlagOnlyAsks(s);
    if f in s.states && s.states[f].requestId == 0 && !s.blockedByDate {
      var sent := With(Sending(s, List(f)), f, s.states[f].(requestId := s.nextId));
      ListOnlyAsks(s, f);
      PinnedOnlyAsks(sent, f);
      var both := if sent.states[f].pinnedReceived then sent else RequestedPinned(sent, f);
      if !sent.states[f].pinnedReceived {
        OnlyAskedTwice(s, sent, both);
      }
      FlagOnlyAsks(both);
      OnlyAskedTwice(s, both, RefreshedBlocked(both));
    }
  }

  lemma RequestedOnlyAsks(s: State, f: Folder)
    requires Numbered(s.inFlight, s.nextId)
    ensures OnlyAsked(s, Requested(s, f))
  {
    hide RequestedMore;
    var ready := if f != MainList && f !in s.states then With(s, f, FRESH).(created := s.created + [f]) else s;
    MoreOnlyAsks(ready, f);
    var t := Requested(s, f);
    forall g | g in s.states ensures SameList(s, t, g) {
      assert SameList(ready, t, g);
    }
    if f in ready.states {
      assert SameList(ready, t, f);
    }
  }

  lemma IfNeededOnlyAsks(s: State, wish: Wish)
    requires Numbered(s.inFlight, s.nextId)
    ensures OnlyAsked(s, MoreIfNeeded(s, wish))
  {
    hide RequestedMore, Requested;
    RequestedOnlyAsks(s, MainList);
    if wish.archive.Some? {
      MoreOnlyAsks(s, wish.archive.value);
    }
  }

  // An answer to a list request ends the wait of its load state, unless it brings nothing.
  lemma TakenStalls(s: State, r: RequestId, result: ListResult, g: Folder)
    requires Inv(s) && r in s.inFlight && s.inFlight[r].List?
    ensures var f := s.inFlight[r].folder;
            Stalled(ListTaken(Answered(s, r), f, result), g) <==>
              if g == f then result.NotModified? else Stalled(s, g)
  {
    hide AllBooks, Numbered, ReloadsKnown;
    assert r != 0 by { NumberedRequest(s, r); }
    assert ListRemembered(s, r);
    if g in s.states {
      assert Unfinished(s, g);
    }
  }

  lemma DoneStalls(s: State, r: RequestId, result: ListResult, wish: Wish, g: Folder)
    requires Inv(s) && r in s.inFlight && s.inFlight[r].List?
    ensures Stalled(ListDone(s, r, result, wish), g) <==>
            if g == s.inFlight[r].folder then result.NotModified? else Stalled(s, g)
  {
    hide Inv, ListTaken, MoreIfNeeded, Stalled;
    TakenStalls(s, r, result, g);
    ListTakenKeeps(s, r, result);
    var taken := ListTaken(Answered(s, r), s.inFlight[r].folder, result);
    BlockedFlagIsFree(taken, RefreshedBlocked(taken));
    IfNeededStalls(taken, wish, g);
    IfNeededStalls(RefreshedBlocked(taken), wish, g);
    assert Stalled(RefreshedBlocked(taken), g) <==> Stalled(taken, g) by { FlagDoesNotStall(taken, g); }
  }

  lemma FlagDoesNotStall(s: State, g: Folder)
    ensures Stalled(RefreshedBlocked(s), g) <==> Stalled(s, g)
  {
  }

  lemma IdsKnown(s: State)
    requires Inv(s)
    ensures Numbered(s.inFlight, s.nextId) && forall f :: f in s.states ==> s.states[f].requestId < s.nextId
  {
    hide AllBooks, ReloadsKnown;
    forall f | f in s.states ensures s.states[f].requestId < s.nextId {
      assert Unfinished(s, f);
    }
  }

  lemma IfNeededStalls(s: State, wish: Wish, g: Folder)
    requires Inv(s)
    ensures Stalled(MoreIfNeeded(s, wish), g) <==> Stalled(s, g)
  {
    hide Inv, OnlyAsked, MoreIfNeeded, Stalled;
    IdsKnown(s);
    IfNeededOnlyAsks(s, wish);
    OnlyAskedStalls(s, MoreIfNeeded(s, wish));
  }

  lemma RequestedStalls(s: State, f: Folder, g: Folder)
    requires Inv(s)
    ensures Stalled(Requested(s, f), g) <==> Stalled(s, g)
  {
    hide Inv, OnlyAsked, Requested, Stalled;
    IdsKnown(s);
    RequestedOnlyAsks(s, f);
    OnlyAskedStalls(s, Requested(s, f));
  }

  lemma BlockedStalls(s: State, now: int, slice: int, g: Folder)
    requires Inv(s)
    ensures Stalled(MoreBlocked(s, now, slice), g) <==> Stalled(s, g)
  {
    hide Inv, Requested;
    if MainList in s.states {
      var date := s.states[MainList].offsetDate;
      var refreshed := RefreshedBlocked(s.(till := if date != 0 then date - slice else now - slice));
      BlockedFlagIsFree(s, refreshed);
      RequestedStalls(refreshed, MainList, g);
    }
  }

  lemma OthersStall(s: State, e: Event, g: Folder)
    requires Inv(s) && Possible(s, e) && (e.PinnedAnswer? || e.ReloadPinned? || e.ReloadAnswer?)
    ensures Stalled(Next(s, e), g) <==> Stalled(s, g)
  {
    hide AllBooks, ReloadsKnown;
    if g in s.states {
      assert Unfinished(s, g);
    }
    if e.PinnedAnswer? {
      assert PinnedRemembered(s, e.request);
    }
  }

  lemma FailureStalls(s: State, r: RequestId, g: Folder)
    requires Inv(s) && r in s.inFlight && s.inFlight[r].List?
    ensures s.inFlight[r].folder in s.states
    ensures Stalled(ListFailed(s, r), g) <==> g != s.inFlight[r].folder && Stalled(s, g)
  {
    hide AllBooks, ReloadsKnown, Numbered;
    assert ListRemembered(s, r);
  }

  // A load state stalls when its request is answered with "not modified", stays stalled whatever happens,
  // and stalls for no other reason.
  lemma StallsExactly(s: State, e: Event, g: Folder)
    requires Inv(s) && Possible(s, e)
    ensures Stalled(Next(s, e), g) <==>
      Stalled(s, g) || (e.ListAnswer? && e.result.NotModified? && s.inFlight[e.request].folder == g)
  {
    hide Inv, Stalled, Requested, ListDone, ListFailed, MoreBlocked, PinnedDone, ReloadRequested, ReloadDone;
    hide RequestedPinned, MoreIfNeeded;
    match e
    case Request(f) => RequestedStalls(s, f, g);
    case ListAnswer(r, result, wish) =>
      DoneStalls(s, r, result, wish, g);
      AskedIsNotStalled(s, r);
    case ListFailure(r) =>
      FailureStalls(s, r, g);
      AskedIsNotStalled(s, r);
    case PinnedAnswer(r) => OthersStall(s, e, g);
    case ReloadPinned(f) => OthersStall(s, e, g);
    case ReloadAnswer(r) => OthersStall(s, e, g);
    case RequestMoreBlocked(now, slice) => BlockedStalls(s, now, slice, g);
    case RequestPinned(f) => PinnedStalls(s, f, g);
    case RequestMoreIfNeeded(wish) => IfNeededStalls(s, wish, g);
  }

  lemma PinnedStalls(s: State, f: Folder, g: Folder)
    requires Inv(s)
    ensures Stalled(RequestedPinned(s, f), g) <==> Stalled(s, g)
  {
    hide Inv, OnlyAsked, RequestedPinned, Stalled;
    IdsKnown(s);
    PinnedOnlyAsks(s, f);
    OnlyAskedStalls(s, RequestedPinned(s, f));
  }

  // Once stalled, a load state stays so in every run, and its list is never asked for again.
  lemma {:induction false} StalledForever(s: State, events: seq<Event>, last: State, f: Folder)
    requires Inv(s) && Stalled(s, f) && Reaches(s, events, last)
    ensures Stalled(last, f)
    ensures forall r :: r in last.inFlight ==> last.inFlight[r] != List(f)
    decreases |events|
  {
    hide Inv, Next, Possible, Stalled;
    if events != [] {
      NextKeeps(s, events[0]);
      StallsExactly(s, events[0], f);
      StalledForever(Next(s, events[0]), events[1..], last, f);
    } else {
      NothingAsked(s, f);
    }
  }

  lemma NothingAsked(s: State, f: Folder)
    requires Inv(s) && Stalled(s, f)
    ensures forall r :: r in s.inFlight ==> s.inFlight[r] != List(f)
  {
    hide AllBooks, ReloadsKnown, Numbered;
    forall r | r in s.inFlight ensures s.inFlight[r] != List(f) {
      assert s.inFlight[r] == List(f) ==> ListRemembered(s, r);
    }
  }

  // Such a run: the main list is asked for, and the answer is that it has not been modified.
  lemma StallRun(wish: Wish) returns (s: State)
    ensures Inv(INITIAL) && Reaches(INITIAL, [Request(MainList), ListAnswer(1, NotModified, wish)], s)
    ensures Stalled(s, MainList)
  {
    hide Inv, ListDone;
    InitialFine();
    var e0, e1 := Request(MainList), ListAnswer(1, NotModified, wish);
    NextKeeps(INITIAL, e0);
    var s0 := Next(INITIAL, e0);
    assert s0.inFlight[1] == List(MainList);
    NextKeeps(s0, e1);
    s := Next(s0, e1);
    StallsExactly(s0, e1, MainList);
    assert [e0, e1][1..] == [e1] && [e1][1..] == [];
    assert Reaches(s0, [e1], s);
  }

  lemma AskedIsNotStalled(s: State, r: RequestId)
    requires Inv(s) && r in s.inFlight && s.inFlight[r].List?
    ensures !Stalled(s, s.inFlight[r].folder)
  {
    hide AllBooks, ReloadsKnown, Numbered;
    assert ListRemembered(s, r);
  }

  // How loading goes on.

  // The main list waits for a date to come, and for nothing else.
  predicate WaitsForDate(s: State) {
    && MainList in s.states && !s.states[MainList].listReceived && s.states[MainList].requestId == 0
    && s.till > 0 && 0 < s.states[MainList].offsetDate <= s.till
  }

  // What asking again, or blocking, never changes.
  ghost predicate SameProgress(s: State, t: State) {
    && t.posted == s.posted && t.till == s.till && t.blockedByDate == s.blockedByDate
    && t.states.Keys == s.states.Keys
    && forall f :: f in s.states ==>
         && t.states[f].listReceived == s.states[f].listReceived && t.states[f].offsetDate == s.states[f].offsetDate
         && t.states[f].offsetId == s.states[f].offsetId && t.states[f].offsetPeer == s.states[f].offsetPeer
         && t.states[f].pinnedReceived == s.states[f].pinnedReceived
  }

  ghost predicate SameStates(s: State, t: State) { SameProgress(s, t.(blockedByDate := s.blockedByDate)) }

  lemma MoreSame(s: State, f: Folder)
    requires s.nextId > 0
    ensures SameProgress(s, RequestedMore(s, f))
  {
  }

  lemma MoreListAsked(s: State, f: Folder)
    requires Inv(s) && f in s.states
    ensures var t := RequestedMore(s, f);
      && f in t.states
      && (ListAsked(t, f) <==> ListAsked(s, f) || (s.states[f].requestId == 0 && !s.blockedByDate))
  {
    hide AllBooks, ReloadsKnown, Remembered, RequestedPinned;
    var t := RequestedMore(s, f);
    if s.states[f].requestId == 0 && !s.blockedByDate {
      var sent := With(Sending(s, List(f)), f, s.states[f].(requestId := s.nextId));
      PinnedLeavesList(sent, f);
      assert ListAsked(t, f);
    } else {
      assert t == s;
    }
  }

  lemma PinnedLeavesList(s: State, f: Folder)
    requires f in s.states && Numbered(s.inFlight, s.nextId)
    ensures var t := RequestedPinned(s, f);
            f in t.states && t.states[f].requestId == s.states[f].requestId && (ListAsked(s, f) ==> ListAsked(t, f))
  {
  }

  lemma MoreAsks(s: State, f: Folder)
    requires Inv(s)
    ensures var t := RequestedMore(s, f);
      && SameProgress(s, t)
      && (f in s.states ==>
            (ListAsked(t, f) <==> ListAsked(s, f) || (s.states[f].requestId == 0 && !s.blockedByDate)))
  {
    hide Inv, RequestedMore, ListAsked;
    IdsKnown(s);
    MoreSame(s, f);
    if f in s.states {
      MoreListAsked(s, f);
    }
  }

  lemma IfNeededAsks(s: State, wish: Wish)
    requires Inv(s)
    ensures SameProgress(s, MoreIfNeeded(s, wish))
  {
    hide Inv, RequestedMore, SameProgress;
    MoreAsks(s, MainList);
    if wish.archive.Some? {
      MoreAsks(s, wish.archive.value);
    }
    SameAsBefore(s);
  }

  lemma SameAsBefore(s: State)
    ensures SameProgress(s, s)
  {
  }

  // The flag is up only while the main list waits for a date.
  ghost predicate FlagFine(s: State) { s.blockedByDate ==> WaitsForDate(s) }

  // A reload known of is in flight.
  ghost predicate ReloadsAsked(s: State) { forall f :: f in s.reloads ==> ReloadAsked(s, f) }

  ghost predicate ReloadAsked(s: State, f: Folder) { exists r :: r in s.inFlight && s.inFlight[r] == Reload(f) }

  lemma MoreFlag(s: State, f: Folder)
    requires FlagFine(s)
    ensures FlagFine(RequestedMore(s, f)) && RequestedMore(s, f).reloads == s.reloads
  {
  }

  lemma RequestedFlag(s: State, f: Folder)
    requires FlagFine(s)
    ensures FlagFine(Requested(s, f)) && Requested(s, f).reloads == s.reloads
  {
    hide RequestedMore;
    MoreFlag(if f != MainList && f !in s.states then With(s, f, FRESH).(created := s.created + [f]) else s, f);
  }

  lemma IfNeededFlag(s: State, wish: Wish)
    requires FlagFine(s)
    ensures FlagFine(MoreIfNeeded(s, wish)) && MoreIfNeeded(s, wish).reloads == s.reloads
  {
    hide RequestedMore, Requested;
    RequestedFlag(s, MainList);
    if wish.archive.Some? {
      MoreFlag(s, wish.archive.value);
    }
  }

  lemma TakenFlag(s: State, r: RequestId, result: ListResult)
    requires Inv(s) && FlagFine(s) && r in s.inFlight && s.inFlight[r].List?
    ensures var f := s.inFlight[r].folder;
      var taken := ListTaken(Answered(s, r), f, result);
      && FlagFine(if f == MainList && (MainList !in taken.states || !taken.states[MainList].listReceived)
                  then RefreshedBlocked(taken) else taken)
      && taken.reloads == s.reloads && taken.inFlight == s.inFlight - {r}
  {
    hide AllBooks, Numbered, ReloadsKnown;
    assert r != 0 by { NumberedRequest(s, r); }
    assert ListRemembered(s, r);
  }

  lemma FlagKeeps(s: State, e: Event)
    requires Inv(s) && Possible(s, e) && FlagFine(s)
    ensures FlagFine(Next(s, e))
  {
    hide Inv, Requested, RequestedMore, MoreIfNeeded, ListTaken;
    match e
    case Request(f) => RequestedFlag(s, f);
    case ListAnswer(r, result, wish) =>
      TakenFlag(s, r, result);
      var taken := ListTaken(Answered(s, r), s.inFlight[r].folder, result);
      IfNeededFlag(
        if s.inFlight[r].folder == MainList
           && (MainList !in taken.states || !taken.states[MainList].listReceived)
        then RefreshedBlocked(taken) else taken, wish);
    case ListFailure(r) => ListFailedKeeps(s, r);
    case PinnedAnswer(r) =>
    case ReloadPinned(f) =>
    case ReloadAnswer(r) =>
    case RequestMoreBlocked(now, slice) =>
      if MainList in s.states {
        var date := s.states[MainList].offsetDate;
        RequestedFlag(RefreshedBlocked(s.(till := if date != 0 then date - slice else now - slice)), MainList);
      }
    case RequestPinned(f) =>
    case RequestMoreIfNeeded(wish) => IfNeededFlag(s, wish);
  }

  lemma OnlyAskedReloads(s: State, t: State)
    requires OnlyAsked(s, t) && t.reloads == s.reloads && ReloadsAsked(s)
    ensures ReloadsAsked(t)
  {
    forall f | f in t.reloads ensures ReloadAsked(t, f) {
      var r :| r in s.inFlight && s.inFlight[r] == Reload(f);
      assert r in t.inFlight;
    }
  }

  lemma FewerReloads(s: State, t: State, r: RequestId)
    requires r in s.inFlight && t.inFlight == s.inFlight - {r} && ReloadsAsked(s)
    requires if s.inFlight[r].Reload? then t.reloads == s.reloads - {s.inFlight[r].folder} else t.reloads == s.reloads
    ensures ReloadsAsked(t)
  {
    forall f | f in t.reloads ensures ReloadAsked(t, f) {
      var q :| q in s.inFlight && s.inFlight[q] == Reload(f);
      assert q in t.inFlight;
    }
  }

  lemma ReloadsKeep(s: State, e: Event)
    requires Inv(s) && Possible(s, e) && FlagFine(s) && ReloadsAsked(s)
    ensures ReloadsAsked(Next(s, e))
  {
    hide Inv, Requested, RequestedMore, MoreIfNeeded, ListTaken, OnlyAsked, ReloadsAsked, Finished;
    var s' := Next(s, e);
    IdsKnown(s);
    match e
    case Request(f) =>
      RequestedFlag(s, f);
      RequestedOnlyAsks(s, f);
      OnlyAskedReloads(s, s');
    case ListAnswer(r, result, wish) =>
      TakenFlag(s, r, result);
      ListTakenKeeps(s, r, result);
      var taken := ListTaken(Answered(s, r), s.inFlight[r].folder, result);
      var refreshed := if s.inFlight[r].folder == MainList
                          && (MainList !in taken.states || !taken.states[MainList].listReceived)
                       then RefreshedBlocked(taken) else taken;
      FewerReloads(s, refreshed, r);
      IdsKnown(taken);
      IfNeededFlag(refreshed, wish);
      IfNeededOnlyAsks(refreshed, wish);
      OnlyAskedReloads(refreshed, s');
    case ListFailure(r) =>
      ListFailedKeeps(s, r);
      FewerReloads(s, s', r);
    case PinnedAnswer(r) =>
      FinishedSame(s, r);
      FewerReloads(s, s', r);
    case ReloadPinned(f) => NewReload(s, f);
    case ReloadAnswer(r) => FewerReloads(s, s', r);
    case RequestMoreBlocked(now, slice) =>
      if MainList in s.states {
        var date := s.states[MainList].offsetDate;
        var moved := RefreshedBlocked(s.(till := if date != 0 then date - slice else now - slice));
        SameReloads(s, moved);
        RequestedFlag(moved, MainList);
        RequestedOnlyAsks(moved, MainList);
        OnlyAskedReloads(moved, s');
      }
    case RequestPinned(f) =>
      PinnedOnlyAsks(s, f);
      OnlyAskedReloads(s, s');
    case RequestMoreIfNeeded(wish) =>
      IfNeededFlag(s, wish);
      IfNeededOnlyAsks(s, wish);
      OnlyAskedReloads(s, s');
  }

  lemma SameReloads(s: State, t: State)
    requires t.inFlight == s.inFlight && t.reloads == s.reloads
    ensures ReloadsAsked(t) <==> ReloadsAsked(s)
  {
    forall f ensures ReloadAsked(t, f) <==> ReloadAsked(s, f) {
    }
  }

  lemma FinishedSame(s: State, r: RequestId)
    requires r in s.inFlight && s.inFlight[r].Pinned?
    ensures var t := PinnedDone(s, r); t.inFlight == s.inFlight - {r} && t.reloads == s.reloads
  {
  }

  lemma NewReload(s: State, f: Folder)
    requires Inv(s) && ReloadsAsked(s)
    ensures ReloadsAsked(ReloadRequested(s, f))
  {
    hide AllBooks, Remembered;
    var t := ReloadRequested(s, f);
    forall g | g in t.reloads ensures ReloadAsked(t, g) {
      if g in s.reloads {
        var r :| r in s.inFlight && s.inFlight[r] == Reload(g);
        assert t.inFlight[r] == Reload(g);
      } else {
        assert t.inFlight[s.nextId] == Reload(g);
      }
    }
  }

  lemma {:induction false} ReachableGoing(s: State, events: seq<Event>, last: State)
    requires Inv(s) && FlagFine(s) && ReloadsAsked(s) && Reaches(s, events, last)
    ensures Inv(last) && FlagFine(last) && ReloadsAsked(last)
    decreases |events|
  {
    hide Inv, Next, Possible, FlagFine, ReloadsAsked;
    if events != [] {
      NextKeeps(s, events[0]);
      FlagKeeps(s, events[0]);
      ReloadsKeep(s, events[0]);
      ReachableGoing(Next(s, events[0]), events[1..], last);
    }
  }

  // What the last of a list, a slice of it, or nothing new mean for the folder, and a failure: it may be asked again.
  lemma AnswerMeans(s: State, r: RequestId, result: ListResult, wish: Wish)
    requires Inv(s) && r in s.inFlight && s.inFlight[r].List?
    ensures var s', f := Next(s, ListAnswer(r, result, wish)), s.inFlight[r].folder;
      && f in s.states
      && (result.NotModified? ==> SameStates(s, s'))
      && (result.Whole? || (result.Slice? && result.lastDate == 0) ==>
            if s.states[f].pinnedReceived then f !in s'.states && s'.posted == s.posted + [f]
            else f in s'.states && s'.states[f].listReceived && s'.posted == s.posted)
      && (result.Slice? && result.lastDate != 0 ==>
            && f in s'.states && !s'.states[f].listReceived && s'.posted == s.posted
            && s'.states[f].offsetDate == result.lastDate && s'.states[f].offsetId == result.lastId
            && s'.states[f].offsetPeer == result.lastPeer)
  {
    hide Inv, ListTaken, MoreIfNeeded;
    var taken := ListTaken(Answered(s, r), s.inFlight[r].folder, result);
    ListTakenKeeps(s, r, result);
    TakenMeans(s, r, result);
    BlockedFlagIsFree(taken, RefreshedBlocked(taken));
    IfNeededAsks(taken, wish);
    IfNeededAsks(RefreshedBlocked(taken), wish);
  }

  lemma TakenMeans(s: State, r: RequestId, result: ListResult)
    requires Inv(s) && r in s.inFlight && s.inFlight[r].List?
    ensures var f := s.inFlight[r].folder;
      var s' := ListTaken(Answered(s, r), f, result);
      && f in s.states
      && (result.NotModified? ==> s' == Answered(s, r))
      && (result.Whole? || (result.Slice? && result.lastDate == 0) ==>
            if s.states[f].pinnedReceived then f !in s'.states && s'.posted == s.posted + [f]
            else f in s'.states && s'.states[f].listReceived && s'.posted == s.posted)
      && (result.Slice? && result.lastDate != 0 ==>
            && f in s'.states && !s'.states[f].listReceived && s'.posted == s.posted && s'.till == s.till
            && s'.states[f].offsetDate == result.lastDate && s'.states[f].offsetId == result.lastId
            && s'.states[f].offsetPeer == result.lastPeer && s'.states[f].requestId == 0)
  {
    hide AllBooks, Numbered, ReloadsKnown;
    assert ListRemembered(s, r);
  }

  // After a slice of the main list the next one is asked for at once, exactly if no exceptions are still loading and
  // the slice does not reach down to a date that was set.
  lemma NextPageAsked(s: State, r: RequestId, result: ListResult, wish: Wish)
    requires Inv(s) && r in s.inFlight && s.inFlight[r] == List(MainList) && result.Slice? && result.lastDate != 0
    ensures var s' := Next(s, ListAnswer(r, result, wish));
      && MainList in s'.states
      && (ListAsked(s', MainList) <==> !wish.exceptionsLoading && !(s.till > 0 && 0 < result.lastDate <= s.till))
  {
    hide Inv, ListTaken, RequestedMore;
    var taken := ListTaken(Answered(s, r), MainList, result);
    var refreshed := RefreshedBlocked(taken);
    ListTakenKeeps(s, r, result);
    TakenMeans(s, r, result);
    BlockedFlagIsFree(taken, refreshed);
    MoreAsks(refreshed, MainList);
    NoneAsked(refreshed, MainList);
  }

  lemma NoneAsked(s: State, f: Folder)
    requires Inv(s) && f in s.states && s.states[f].requestId == 0
    ensures !ListAsked(s, f)
  {
    hide AllBooks, ReloadsKnown, Remembered;
  }

  // The list is asked for, or never will be again, unless what it waits for is said.
  ghost predicate Loading(s: State, f: Folder) { f in s.states && (ListAsked(s, f) || Stalled(s, f)) }

  lemma IfNeededGoesOn(s: State, wish: Wish)
    requires Inv(s) && FlagFine(s) && !wish.exceptionsLoading
    ensures var t := MoreIfNeeded(s, wish);
      if MainList in t.states && !t.states[MainList].listReceived
      then Loading(t, MainList) || WaitsForDate(t)
      else wish.archive.Some? && wish.archive.value in t.states && !t.states[wish.archive.value].listReceived ==>
        Loading(t, wish.archive.value)
  {
    hide Inv, RequestedMore;
    if MainList in s.states && !s.states[MainList].listReceived {
      if s.blockedByDate {
        assert WaitsForDate(s);
      } else {
        MoreAsks(s, MainList);
      }
      NothingMore(s, MainList);
    } else if wish.archive.Some? {
      MoreAsks(s, wish.archive.value);
      NothingMore(s, wish.archive.value);
    }
  }

  lemma NothingMore(s: State, f: Folder)
    ensures f !in s.states || s.blockedByDate || s.states[f].requestId != 0 ==> RequestedMore(s, f) == s
  {
  }

  // In every run: when a list is answered, or the client asks to go on, and no exceptions are still loading, then the
  // main list is asked for, has stalled, or waits for its date; once it is in, the same holds of the archive, if it is
  // wished for, and no date holds it up.
  lemma GoesOn(events: seq<Event>, s: State, e: Event, wish: Wish)
    requires Inv(INITIAL) && Reaches(INITIAL, events, s) && Inv(s) && Possible(s, e)
    requires e.RequestMoreIfNeeded? || e.ListAnswer?
    requires wish == e.wish && !wish.exceptionsLoading
    ensures var t := Next(s, e);
      if MainList in t.states && !t.states[MainList].listReceived
      then Loading(t, MainList) || WaitsForDate(t)
      else wish.archive.Some? && wish.archive.value in t.states && !t.states[wish.archive.value].listReceived ==>
        Loading(t, wish.archive.value)
  {
    hide Inv, FlagFine, ReloadsAsked, ListTaken, MoreIfNeeded, Reaches;
    StartsGoing();
    ReachableGoing(INITIAL, events, s);
    if e.ListAnswer? {
      var f := s.inFlight[e.request].folder;
      var taken := ListTaken(Answered(s, e.request), f, e.result);
      TakenFlag(s, e.request, e.result);
      ListTakenKeeps(s, e.request, e.result);
      BlockedFlagIsFree(taken, RefreshedBlocked(taken));
      IfNeededGoesOn(
        if f == MainList && (MainList !in taken.states || !taken.states[MainList].listReceived)
        then RefreshedBlocked(taken) else taken, wish);
    } else {
      IfNeededGoesOn(s, wish);
    }
  }

  // The session starts with the main list, from its beginning, and nothing asked.
  lemma StartsFromTheTop()
    ensures INITIAL.states.Keys == {MainList} && INITIAL.inFlight == map[] && INITIAL.till == 0
    ensures var l := INITIAL.states[MainList];
            l.offsetDate == l.offsetId == l.offsetPeer == 0 && !l.listReceived && !l.pinnedReceived
  {
  }

  lemma StartsGoing()
    ensures FlagFine(INITIAL) && ReloadsAsked(INITIAL)
  {
  }

  // While exceptions are loading nothing is asked, and before the main list is in nothing of any other folder.
  lemma MainListFirst(s: State, wish: Wish, f: Folder)
    requires Inv(s) && f in s.states
    ensures var t := Next(s, RequestMoreIfNeeded(wish));
      && (wish.exceptionsLoading ==> t == s)
      && (MainList in s.states && !s.states[MainList].listReceived && f != MainList ==> t.states[f] == s.states[f])
  {
    hide Inv;
  }

  // Asking for a list: a folder gets a load state if it has none, and its list is asked for unless it waits for an
  // answer already or the main list waits for its date; the first pinned dialogs are asked for along with it.
  lemma RequestAsks(s: State, f: Folder)
    requires Inv(s)
    ensures var t := Next(s, Request(f));
      && t.states.Keys == (if f == MainList then s.states.Keys else s.states.Keys + {f})
      && t.blockedByDate == s.blockedByDate
      && (f in t.states && f !in s.states ==>
            t.states[f].offsetDate == t.states[f].offsetId == t.states[f].offsetPeer == 0)
      && (f in t.states ==>
            && (ListAsked(t, f) <==>
                  if f in s.states && s.states[f].requestId != 0 then ListAsked(s, f) else !s.blockedByDate)
            && (ListAsked(t, f) && !(f in s.states && ListAsked(s, f)) && !t.states[f].pinnedReceived ==>
                  PinnedAsked(t, f)))
  {
    hide Inv, RequestedMore;
    if f != MainList && f !in s.states {
      CreatedKeeps(s, f);
      var made := With(s, f, FRESH).(created := s.created + [f]);
      MoreAsks(made, f);
      NoneAsked(made, f);
      if !made.blockedByDate {
        PinnedAlong(made, f);
      }
    } else {
      MoreAsks(s, f);
      if f in s.states && s.states[f].requestId == 0 {
        NoneAsked(s, f);
        if !s.blockedByDate {
          PinnedAlong(s, f);
        }
      }
    }
  }

  ghost predicate PinnedAsked(s: State, f: Folder)
    requires f in s.states
  {
    s.states[f].pinnedRequestId in s.inFlight && s.inFlight[s.states[f].pinnedRequestId] == Pinned(f)
  }

  lemma PinnedAlong(s: State, f: Folder)
    requires Inv(s) && f in s.states && s.states[f].requestId == 0 && !s.blockedByDate
    ensures var t := RequestedMore(s, f); f in t.states && (t.states[f].pinnedReceived || PinnedAsked(t, f))
  {
    hide AllBooks, ReloadsKnown, Remembered;
    assert Unfinished(s, f);
  }

  lemma PinnedAsks(s: State, f: Folder)
    requires Inv(s) && f in s.states
    ensures var t := Next(s, RequestPinned(f)); f in t.states && (t.states[f].pinnedReceived || PinnedAsked(t, f))
  {
    hide AllBooks, ReloadsKnown, Remembered;
    assert Unfinished(s, f);
  }

  // Going on from a date: it moves down by a slice from where the main list is, or from now, and as the list is not
  // down there yet, it is asked for.
  lemma BlockedGoesOn(s: State, now: int, slice: int)
    requires Inv(s) && MainList in s.states && slice > 0
    ensures var t := Next(s, RequestMoreBlocked(now, slice));
      && MainList in t.states
      && t.till == (if s.states[MainList].offsetDate != 0 then s.states[MainList].offsetDate else now) - slice
      && (s.states[MainList].requestId == 0 ==> ListAsked(t, MainList))
  {
    hide Inv, RequestedMore;
    var date := s.states[MainList].offsetDate;
    var moved := RefreshedBlocked(s.(till := if date != 0 then date - slice else now - slice));
    BlockedFlagIsFree(s, moved);
    MoreAsks(moved, MainList);
  }

  // In every run the reloads known of are exactly those in flight, one a folder; asking for one more is no use.
  lemma ReloadsInFlight(events: seq<Event>, s: State, f: Folder)
    requires Inv(INITIAL) && Reaches(INITIAL, events, s) && Inv(s)
    ensures f in s.reloads <==> ReloadAsked(s, f)
    ensures ReloadAsked(Next(s, ReloadPinned(f)), f)
  {
    hide Reaches, FlagFine, AllBooks, Remembered;
    StartsGoing();
    ReachableGoing(INITIAL, events, s);
    NewReload(s, f);
  }
}

/** The part of ApiWrap that loads dialog lists. */
module DialogsLoadApi {
  import opened DialogsLoadSpec

  class ApiWrap {
    var states: map<Folder, LoadState>
    var till: int
    var blockedByDate: bool
    var reloads: set<Folder>
    var inFlight: map<RequestId, Asked>
    var nextId: RequestId
    ghost var created: seq<Folder>
    ghost var listsIn: seq<Folder>
    ghost var pinnedIn: seq<Folder>
    var posted: seq<Folder>

    constructor ()
      ensures Now() == INITIAL && Inv(Now())
    {
      states, till, blockedByDate, reloads := map[MainList := FRESH], 0, false, {};
      inFlight, nextId := map[], 1;
      created, listsIn, pinnedIn, posted := [MainList], [], [], [];
      new;
      InitialFine();
    }

    ghost function Now(): State
      reads this
    {
      State(states, till, blockedByDate, reloads, inFlight, nextId, created, listsIn, pinnedIn, posted)
    }

    method Send(what: Asked) returns (requestId: RequestId)
      modifies this
      ensures requestId == old(nextId) && Now() == Sending(old(Now()), what)
    {
      requestId := nextId;
      inFlight, nextId := inFlight[requestId := what], nextId + 1;
    }

    method RefreshDialogsLoadBlocked()
      modifies this
      ensures Now() == RefreshedBlocked(old(Now()))
    {
      blockedByDate :=
        && MainList in states
        && !states[MainList].listReceived
        && states[MainList].requestId == 0
        && till > 0
        && states[MainList].offsetDate > 0
        && states[MainList].offsetDate <= till;
    }

    method RequestPinnedDialogs(folder: Folder)
      modifies this
      ensures Now() == RequestedPinned(old(Now()), folder)
      ensures old(Inv(Now())) ==> Inv(Now())
    {
      hide Inv;
      if Inv(Now()) {
        PinnedKeeps(Now(), folder);
      }
      if folder !in states || states[folder].pinnedReceived || states[folder].pinnedRequestId != 0 {
        return;
      }
      var requestId := Send(Pinned(folder));
      states := states[folder := states[folder].(pinnedRequestId := requestId)];
    }

    method RequestMoreDialogs(folder: Folder)
      modifies this
      ensures Now() == RequestedMore(old(Now()), folder)
    {
      if folder !in states {
        return;
      } else if states[folder].requestId != 0 {
        return;
      } else if blockedByDate {
        return;
      }
      var requestId := Send(List(folder));
      states := states[folder := states[folder].(requestId := requestId)];
      if !states[folder].pinnedReceived {
        RequestPinnedDialogs(folder);
      }
      if folder == MainList {
        RefreshDialogsLoadBlocked();
      }
    }

    method RequestDialogs(folder: Folder)
      requires Inv(Now())
      modifies this
      ensures Now() == Requested(old(Now()), folder) && Inv(Now())
    {
      hide Inv, RequestedMore;
      RequestedKeeps(Now(), folder);
      if folder != MainList && folder !in states {
        states, created := states[folder := FRESH], created + [folder];
      }
      RequestMoreDialogs(folder);
    }

    method DialogsLoadFinish(folder: Folder)
      modifies this
      ensures Now() == Finished(old(Now()), folder)
    {
      if folder !in states || !states[folder].listReceived || !states[folder].pinnedReceived {
        return;
      }
      states, posted := states - {folder}, posted + [folder];
    }

    method UpdateDialogsOffset(folder: Folder, lastDate: int, lastId: int, lastPeer: int)
      modifies this
      ensures Now() == OffsetUpdated(old(Now()), folder, lastDate, lastId, lastPeer)
    {
      hide Finished;
      if folder !in states {
        return;
      }
      var state := states[folder];
      if lastDate != 0 {
        states := states[folder := state.(offsetDate := lastDate, offsetId := lastId,
                                          offsetPeer := lastPeer, requestId := 0)];
      } else {
        states, listsIn := states[folder := state.(listReceived := true)], listsIn + [folder];
        DialogsLoadFinish(folder);
      }
    }

    method RequestMoreDialogsIfNeeded(wish: Wish)
      requires Inv(Now())
      modifies this
      ensures Now() == MoreIfNeeded(old(Now()), wish) && Inv(Now())
    {
      hide Inv, Requested, RequestedMore;
      MoreIfNeededKeeps(Now(), wish);
      if wish.exceptionsLoading {
        return;
      } else if MainList in states && !states[MainList].listReceived {
        if states[MainList].requestId != 0 {
          return;
        }
        RequestDialogs(MainList);
      } else if wish.archive.Some? {
        RequestMoreDialogs(wish.archive.value);
      }
    }

    method DialogsReceived(requestId: RequestId, result: ListResult, wish: Wish)
      requires Inv(Now()) && requestId in inFlight && inFlight[requestId].List?
      modifies this
      ensures Now() == ListDone(old(Now()), requestId, result, wish) && Inv(Now())
    {
      hide Inv, Finished, OffsetUpdated, MoreIfNeeded, RefreshedBlocked;
      ListTakenKeeps(Now(), requestId, result);
      var folder := inFlight[requestId].folder;
      inFlight := inFlight - {requestId};
      match result {
        case NotModified =>
        case Whole =>
          if folder in states {
            states, listsIn := states[folder := states[folder].(listReceived := true)], listsIn + [folder];
            DialogsLoadFinish(folder);
          }
        case Slice(date, id, peer) =>
          UpdateDialogsOffset(folder, date, id, peer);
      }
      if folder == MainList && (MainList !in states || !states[MainList].listReceived) {
        BlockedFlagIsFree(Now(), RefreshedBlocked(Now())) by { FlagOnly(Now()); }
        RefreshDialogsLoadBlocked();
      }
      RequestMoreDialogsIfNeeded(wish);
    }

    method DialogsFailed(requestId: RequestId)
      requires Inv(Now()) && requestId in inFlight && inFlight[requestId].List?
      modifies this
      ensures old(inFlight[requestId].folder in states)
      ensures Now() == ListFailed(old(Now()), requestId) && Inv(Now())
    {
      hide Inv;
      ListFailedKeeps(Now(), requestId);
      var folder := inFlight[requestId].folder;
      inFlight := inFlight - {requestId};
      states := states[folder := states[folder].(requestId := 0)];
    }

    method PinnedDialogsFinished(requestId: RequestId)
      requires Inv(Now()) && requestId in inFlight && inFlight[requestId].Pinned?
      modifies this
      ensures Now() == PinnedDone(old(Now()), requestId) && Inv(Now())
    {
      hide Inv, Finished;
      PinnedDoneKeeps(Now(), requestId);
      var folder := inFlight[requestId].folder;
      inFlight := inFlight - {requestId};
      if folder in states {
        states := states[folder := states[folder].(pinnedRequestId := 0, pinnedReceived := true)];
        pinnedIn := pinnedIn + [folder];
        DialogsLoadFinish(folder);
      }
    }

    method ReloadPinnedDialogs(folder: Folder)
      requires Inv(Now())
      modifies this
      ensures Now() == ReloadRequested(old(Now()), folder) && Inv(Now())
    {
      hide Inv;
      ReloadKeeps(Now(), folder);
      if folder in reloads {
        return;
      }
      reloads := reloads + {folder};
      var _ := Send(Reload(folder));
    }

    method PinnedReloadFinished(requestId: RequestId)
      requires Inv(Now()) && requestId in inFlight && inFlight[requestId].Reload?
      modifies this
      ensures Now() == ReloadDone(old(Now()), requestId) && Inv(Now())
    {
      hide Inv;
      ReloadDoneKeeps(Now(), requestId);
      reloads := reloads - {inFlight[requestId].folder};
      inFlight := inFlight - {requestId};
    }

    method RequestMoreBlockedByDateDialogs(now: int, slice: int)
      requires Inv(Now())
      modifies this
      ensures Now() == MoreBlocked(old(Now()), now, slice) && Inv(Now())
    {
      hide Inv, Requested, RefreshedBlocked;
      MoreBlockedKeeps(Now(), now, slice);
      if MainList !in states {
        return;
      }
      var date := states[MainList].offsetDate;
      ghost var before := Now();
      till := if date != 0 then date - slice else now - slice;
      FlagOnly(Now());
      BlockedFlagIsFree(before, RefreshedBlocked(Now()));
      RefreshDialogsLoadBlocked();
      RequestDialogs(MainList);
    }
  }

  lemma FlagOnly(s: State)
    ensures RefreshedBlocked(s) == s.(blockedByDate := RefreshedBlocked(s).blockedByDate)
  {
  }
}
