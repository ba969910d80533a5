/** Sending an album: items load, upload, get cancelled, in any order; the group goes out once, whole and in order. */
module AlbumSpec {
  import opened Options

  type GroupId = int
  type TaskId = int
  type MsgId = int

  datatype Media = Media(input: int, randomId: int)

  // A file of the album: it gets a message when it is loaded and a media when it is uploaded.
  datatype Item = Item(taskId: TaskId, msgId: Option<MsgId>, media: Option<Media>)

  datatype Album = Album(items: seq<Item>, sent: bool, paid: bool)

  datatype Kind = Ephemeral | Paid | Single | Multi

  // What went out: the tasks and their medias, and which tasks had dropped out by then; `paid` and `ephemeral` are
  // what was sent, for the record.
  datatype Dispatch = Dispatch(
    group: GroupId, kind: Kind, tasks: seq<TaskId>, medias: seq<Media>, dropped: set<TaskId>,
    paid: bool, ephemeral: bool)

  datatype State = State(
    albums: map<GroupId, Album>,
    live: map<MsgId, GroupId>,       // local messages that still exist
    loading: map<TaskId, GroupId>,   // files still being read
    uploading: set<MsgId>,           // messages whose media is still being uploaded
    awaiting: set<GroupId>,          // groups sent, the answer still to come
    dispatched: seq<Dispatch>,
    origin: map<GroupId, seq<TaskId>>, // the files each album was made of
    dropped: set<TaskId>,              // cancelled or failed to load
    brought: map<TaskId, Media>,       // what each finished upload brought
    taskOf: map<MsgId, TaskId>,
    unchecked: set<GroupId>,           // groups that lost a file, or began without, and were not looked at since
    failed: set<MsgId>)                // messages whose upload failed

  const INITIAL := State(map[], map[], map[], {}, {}, [], map[], {}, map[], map[], {}, {})

  function IndexOfMsg(items: seq<Item>, m: MsgId): (k: nat)
    ensures k <= |items|
    ensures k < |items| ==> items[k].msgId == Some(m)
    ensures forall i :: 0 <= i < k ==> items[i].msgId != Some(m)
  {
    if items == [] || items[0].msgId == Some(m) then 0 else 1 + IndexOfMsg(items[1..], m)
  }

  function IndexOfTask(items: seq<Item>, t: TaskId): (k: nat)
    ensures k <= |items|
    ensures k < |items| ==> items[k].taskId == t
    ensures forall i :: 0 <= i < k ==> items[i].taskId != t
  {
    if items == [] || items[0].taskId == t then 0 else 1 + IndexOfTask(items[1..], t)
  }

  function RemoveAt<T>(s: seq<T>, k: nat): seq<T>
    requires k < |s|
  {
    s[..k] + s[k + 1..]
  }

  function TaskIds(items: seq<Item>): (r: seq<TaskId>)
    ensures |r| == |items|
  {
    seq(|items|, i requires 0 <= i < |items| => items[i].taskId)
  }

  ghost predicate AllFilled(items: seq<Item>) { forall i :: 0 <= i < |items| ==> items[i].media.Some? }

  function Medias(items: seq<Item>): (r: seq<Media>)
    requires AllFilled(items)
    ensures |r| == |items|
  {
    seq(|items|, i requires 0 <= i < |items| => items[i].media.value)
  }

  ghost predicate SomeLive(s: State, items: seq<Item>) {
    exists i :: 0 <= i < |items| && items[i].msgId.Some? && items[i].msgId.value in s.live
  }

  function KindOf(a: Album, ephemeral: bool): Kind {
    if ephemeral then Ephemeral else if a.paid then Paid else if |a.items| < 2 then Single else Multi
  }

  function WithAlbum(s: State, g: GroupId, a: Album): State { s.(albums := s.albums[g := a]) }

  // Ephemeral and single sends leave the table at once, the others when they are answered.
  ghost function Sent(s: State, g: GroupId, ephemeral: bool): State
    requires g in s.albums && AllFilled(s.albums[g].items)
  {
    var a := s.albums[g];
    var kind := KindOf(a, ephemeral);
    var d := Dispatch(g, kind, TaskIds(a.items), Medias(a.items), s.dropped, a.paid, ephemeral);
    if kind == Ephemeral || kind == Single
    then s.(albums := s.albums - {g}, dispatched := s.dispatched + [d])
    else s.(albums := s.albums[g := a.(sent := true)], dispatched := s.dispatched + [d], awaiting := s.awaiting + {g})
  }

  ghost function SentIfReady(s: State, g: GroupId, ephemeral: bool): State
    requires g in s.albums
  {
    var a := s.albums[g];
    if a.sent then s
    else if a.items == [] then s.(albums := s.albums - {g})
    else if !AllFilled(a.items) then s
    else if !SomeLive(s, a.items) then s.(albums := s.albums - {g})
    else Sent(s, g, ephemeral)
  }

  datatype Event =
    | Create(group: GroupId, tasks: seq<TaskId>, paid: bool)
    | Loaded(task: TaskId, msg: MsgId)
    | LoadFailed(task: TaskId)
    | Uploaded(msg: MsgId, media: Media, ephemeral: bool)
    | UploadFailed(msg: MsgId)
    | Cancel(msg: MsgId, ephemeral: bool)
    | Answered(group: GroupId)

  ghost predicate Distinct<T>(s: seq<T>) { forall i, j :: 0 <= i < j < |s| ==> s[i] != s[j] }

  ghost predicate NewTask(s: State, t: TaskId) {
    && t !in s.dropped && t !in s.loading && t !in s.brought
    && (forall m :: m in s.taskOf ==> s.taskOf[m] != t)
    && forall h :: h in s.origin ==> t !in s.origin[h]
  }

  // New groups, tasks and messages have new ids; what finishes was under way; only existing messages get cancelled.
  ghost predicate Possible(s: State, e: Event) {
    match e
    case Create(g, tasks, _) =>
      g !in s.origin && Distinct(tasks) && forall t :: t in tasks ==> NewTask(s, t)
    case Loaded(t, m) => t in s.loading && m !in s.taskOf
    case LoadFailed(t) => t in s.loading
    case Uploaded(m, _, _) => m in s.uploading
    case UploadFailed(m) => m in s.uploading
    case Cancel(m, _) => m in s.live
    case Answered(g) => g in s.awaiting
  }

  function Created(s: State, g: GroupId, tasks: seq<TaskId>, paid: bool): State {
    var items := seq(|tasks|, i requires 0 <= i < |tasks| => Item(tasks[i], None, None));
    s.(albums := s.albums[g := Album(items, false, paid)],
       origin := s.origin[g := tasks],
       loading := s.loading + map t | t in tasks :: g,
       unchecked := if tasks == [] then s.unchecked + {g} else s.unchecked)
  }

  // The code asserts that it finds what it looks for; these say when it does.

  predicate LoadFinds(s: State, t: TaskId) {
    t in s.loading && s.loading[t] in s.albums
    && IndexOfTask(s.albums[s.loading[t]].items, t) < |s.albums[s.loading[t]].items|
  }

  predicate UploadFinds(s: State, m: MsgId) {
    m in s.live && s.live[m] in s.albums
    && var items := s.albums[s.live[m]].items; var k := IndexOfMsg(items, m);
       k < |items| && items[k].media.None?
  }

  predicate CancelFinds(s: State, m: MsgId) {
    m in s.live && (s.live[m] in s.albums ==> var items := s.albums[s.live[m]].items; IndexOfMsg(items, m) < |items|)
  }

  function LoadedNow(s: State, t: TaskId, m: MsgId): State
    requires LoadFinds(s, t)
  {
    var g := s.loading[t];
    var a := s.albums[g];
    var k := IndexOfTask(a.items, t);
    WithAlbum(s, g, a.(items := a.items[k := a.items[k].(msgId := Some(m))]))
      .(loading := s.loading - {t}, live := s.live[m := g], uploading := s.uploading + {m}, taskOf := s.taskOf[m := t])
  }

  function LoadFailedNow(s: State, t: TaskId): State
    requires LoadFinds(s, t)
  {
    var g := s.loading[t];
    var a := s.albums[g];
    WithAlbum(s, g, a.(items := RemoveAt(a.items, IndexOfTask(a.items, t))))
      .(loading := s.loading - {t}, dropped := s.dropped + {t}, unchecked := s.unchecked + {g})
  }

  // The handlers of a failed upload leave the album alone.
  function UploadFailedNow(s: State, m: MsgId): State {
    s.(uploading := s.uploading - {m}, failed := s.failed + {m})
  }

  // sendAlbumWithUploaded, reached only for a message that still exists: the media joins the album, and then
  // sending it is tried.
  function FilledNow(s: State, m: MsgId, media: Media): (r: State)
    requires UploadFinds(s, m) && m in s.taskOf
    ensures s.live[m] in r.albums && s.live[m] !in r.unchecked
  {
    var g := s.live[m];
    var a := s.albums[g];
    var k := IndexOfMsg(a.items, m);
    WithAlbum(s, g, a.(items := a.items[k := a.items[k].(media := Some(media))]))
      .(uploading := s.uploading - {m}, brought := s.brought[s.taskOf[m] := media], unchecked := s.unchecked - {g})
  }

  ghost function UploadedNow(s: State, m: MsgId, media: Media, ephemeral: bool): State
    requires UploadFinds(s, m) && m in s.taskOf
  {
    SentIfReady(FilledNow(s, m, media), s.live[m], ephemeral)
  }

  function DroppedNow(s: State, m: MsgId): State
    requires m in s.taskOf
  {
    s.(live := s.live - {m}, dropped := s.dropped + {s.taskOf[m]})
  }

  // sendAlbumWithCancelled: the item leaves the album, if it is still there, which is then tried.
  function WithdrawnNow(s: State, m: MsgId): (r: State)
    requires CancelFinds(s, m) && m in s.taskOf && s.live[m] in s.albums
    ensures s.live[m] in r.albums && s.live[m] !in r.unchecked
  {
    var g := s.live[m];
    var a := s.albums[g];
    WithAlbum(DroppedNow(s, m), g, a.(items := RemoveAt(a.items, IndexOfMsg(a.items, m))))
      .(unchecked := s.unchecked - {g})
  }

  ghost function CancelledNow(s: State, m: MsgId, ephemeral: bool): State
    requires CancelFinds(s, m) && m in s.taskOf
  {
    if s.live[m] !in s.albums then DroppedNow(s, m) else SentIfReady(WithdrawnNow(s, m), s.live[m], ephemeral)
  }

  function AnsweredNow(s: State, g: GroupId): State {
    s.(albums := s.albums - {g}, awaiting := s.awaiting - {g})
  }

  function Filter(tasks: seq<TaskId>, dropped: set<TaskId>): seq<TaskId> {
    if tasks == [] then [] else (if tasks[0] in dropped then [] else [tasks[0]]) + Filter(tasks[1..], dropped)
  }

  // The invariant.

  ghost predicate Origins(origin: map<GroupId, seq<TaskId>>) {
    && (forall g :: g in origin ==> Distinct(origin[g]))
    && (forall g, h, t :: g in origin && h in origin && t in origin[g] && t in origin[h] ==> g == h)
  }

  ghost predicate ItemFine(s: State, g: GroupId, item: Item) {
    match item.msgId
    case None => item.media.None? && item.taskId in s.loading && s.loading[item.taskId] == g
    case Some(m) =>
      && m in s.live && s.live[m] == g && m in s.taskOf && s.taskOf[m] == item.taskId
      && (item.media.Some? ==>
            m !in s.uploading && item.taskId in s.brought && s.brought[item.taskId] == item.media.value)
  }

  // An album holds exactly the files it was made of that have not dropped out, in their order.
  ghost predicate AlbumFine(s: State, g: GroupId)
    requires g in s.albums
  {
    var a := s.albums[g];
    && g in s.origin && TaskIds(a.items) == Filter(s.origin[g], s.dropped)
    && (a.sent ==> AllFilled(a.items))
    && forall i :: 0 <= i < |a.items| ==> ItemFine(s, g, a.items[i])
  }

  ghost predicate LiveFine(s: State, m: MsgId)
    requires m in s.live
  {
    m in s.taskOf && s.live[m] in s.origin && s.taskOf[m] in s.origin[s.live[m]] && CancelFinds(s, m)
  }

  ghost predicate NothingLost(s: State) {
    && (forall t :: t in s.loading ==> LoadFinds(s, t))
    && (forall m :: m in s.live ==> LiveFine(s, m))
    && (forall m :: m in s.uploading ==>
          m in s.taskOf && s.taskOf[m] !in s.brought && (m in s.live ==> s.live[m] in s.albums))
  }

  ghost predicate TasksFine(taskOf: map<MsgId, TaskId>, loading: map<TaskId, GroupId>, brought: map<TaskId, Media>) {
    && (forall m, n :: m in taskOf && n in taskOf && taskOf[m] == taskOf[n] ==> m == n)
    && (forall m :: m in taskOf ==> taskOf[m] !in loading)
    && (forall t :: t in brought ==> t !in loading)
  }

  // What went out: the surviving files of one group, in order, each with the media its upload brought.
  ghost predicate DispatchFine(d: Dispatch, origin: map<GroupId, seq<TaskId>>, brought: map<TaskId, Media>) {
    && d.group in origin && d.tasks == Filter(origin[d.group], d.dropped) && |d.medias| == |d.tasks| > 0
    && forall k :: 0 <= k < |d.tasks| ==> d.tasks[k] in brought && brought[d.tasks[k]] == d.medias[k]
  }

  ghost predicate DispatchesFine(s: State) {
    && (forall i :: 0 <= i < |s.dispatched| ==>
          DispatchFine(s.dispatched[i], s.origin, s.brought) && SentOrGone(s, s.dispatched[i].group))
    && (forall i, j :: 0 <= i < j < |s.dispatched| ==> s.dispatched[i].group != s.dispatched[j].group)
    && (forall g :: g in s.awaiting ==> g in s.origin && SentOrGone(s, g))
  }

  ghost predicate SentOrGone(s: State, g: GroupId) { g in s.albums ==> s.albums[g].sent }

  ghost predicate Inv(s: State) {
    && Origins(s.origin)
    && (forall g :: g in s.albums ==> AlbumFine(s, g))
    && NothingLost(s)
    && TasksFine(s.taskOf, s.loading, s.brought)
    && DispatchesFine(s)
  }

  // The lookups the code asserts do succeed.
  lemma LookupsSucceed(s: State, e: Event)
    requires Inv(s) && Possible(s, e)
    ensures e.Loaded? ==> LoadFinds(s, e.task)
    ensures e.LoadFailed? ==> LoadFinds(s, e.task)
    ensures e.Uploaded? && e.msg in s.live ==> UploadFinds(s, e.msg) && e.msg in s.taskOf
    ensures e.Cancel? ==> CancelFinds(s, e.msg) && e.msg in s.taskOf
  {
    hide Origins, TasksFine, DispatchesFine, Filter;
    if e.Uploaded? && e.msg in s.live {
      var items := s.albums[s.live[e.msg]].items;
      assert ItemFine(s, s.live[e.msg], items[IndexOfMsg(items, e.msg)]);
    }
  }

  ghost function Next(s: State, e: Event): State
    requires Inv(s) && Possible(s, e)
  {
    LookupsSucceed(s, e);
    match e
    case Create(g, tasks, paid) => Created(s, g, tasks, paid)
    case Loaded(t, m) => LoadedNow(s, t, m)
    case LoadFailed(t) => LoadFailedNow(s, t)
    case Uploaded(m, media, ephemeral) =>
      if m in s.live then UploadedNow(s, m, media, ephemeral) else s.(uploading := s.uploading - {m})
    case UploadFailed(m) => UploadFailedNow(s, m)
    case Cancel(m, ephemeral) => CancelledNow(s, m, ephemeral)
    case Answered(g) => AnsweredNow(s, g)
  }

  lemma {:induction false} FilterIn(tasks: seq<TaskId>, dropped: set<TaskId>)
    ensures forall t :: t in Filter(tasks, dropped) <==> t in tasks && t !in dropped
    ensures Distinct(tasks) ==> Distinct(Filter(tasks, dropped))
  {
    if tasks != [] {
      FilterIn(tasks[1..], dropped);
    }
  }

  lemma RemoveAtCons<T>(first: T, rest: seq<T>, k: nat)
    requires k < |rest|
    ensures RemoveAt([first] + rest, k + 1) == [first] + RemoveAt(rest, k)
  {
  }

  lemma FilterStep(tasks: seq<TaskId>, dropped: set<TaskId>)
    requires tasks != []
    ensures var rest := Filter(tasks[1..], dropped);
            Filter(tasks, dropped) == if tasks[0] in dropped then rest else [tasks[0]] + rest
  {
    assert [] + Filter(tasks[1..], dropped) == Filter(tasks[1..], dropped);
  }

  lemma RestDistinct(tasks: seq<TaskId>)
    requires Distinct(tasks) && tasks != []
    ensures Distinct(tasks[1..]) && tasks[0] !in tasks[1..]
  {
  }

  lemma NothingFiltered(dropped: set<TaskId>)
    ensures Filter([], dropped) == []
  {
  }

  lemma {:induction false} FilterDrop(tasks: seq<TaskId>, dropped: set<TaskId>, k: nat)
    requires Distinct(tasks) && k < |Filter(tasks, dropped)|
    ensures Filter(tasks, dropped + {Filter(tasks, dropped)[k]}) == RemoveAt(Filter(tasks, dropped), k)
  {
    hide Filter, Distinct, RemoveAt;
    NothingFiltered(dropped);
    FilterStep(tasks, dropped);
    RestDistinct(tasks);
    var f, rest := Filter(tasks, dropped), Filter(tasks[1..], dropped);
    FilterStep(tasks, dropped + {f[k]});
    FilterIn(tasks[1..], dropped);
    if tasks[0] in dropped {
      FilterDrop(tasks[1..], dropped, k);
    } else if k > 0 {
      FilterDrop(tasks[1..], dropped, k - 1);
      assert f[k] == rest[k - 1];
      RemoveAtCons(tasks[0], rest, k - 1);
    } else {
      FilterSame(tasks[1..], dropped, tasks[0]);
      FirstRemoved(tasks[0], rest);
    }
  }

  lemma FirstRemoved<T>(first: T, rest: seq<T>)
    ensures RemoveAt([first] + rest, 0) == rest
  {
  }

  lemma {:induction false} FilterSame(tasks: seq<TaskId>, dropped: set<TaskId>, t: TaskId)
    requires t !in tasks
    ensures Filter(tasks, dropped + {t}) == Filter(tasks, dropped)
  {
    if tasks != [] {
      FilterSame(tasks[1..], dropped, t);
    }
  }

  // An album that leaves the table has nothing left to wait for.
  lemma GoneKeeps(s: State, g: GroupId)
    requires Inv(s) && g in s.albums && AllFilled(s.albums[g].items)
    ensures Inv(s.(albums := s.albums - {g}))
  {
    hide Origins, DispatchFine, Filter;
    var s' := s.(albums := s.albums - {g});
    var items := s.albums[g].items;
    forall t | t in s.loading ensures LoadFinds(s', t) {
      UnloadedHere(s, t);
    }
    forall m | m in s.uploading && m in s.live ensures s.live[m] in s'.albums {
      LookupsSucceed(s, Uploaded(m, Media(0, 0), false));
    }
    forall h | h in s'.albums ensures AlbumFine(s', h) {
      assert AlbumFine(s, h);
    }
  }

  lemma NotYetDispatched(s: State, g: GroupId, d: Dispatch)
    requires Inv(s) && g in s.albums && !s.albums[g].sent && d in s.dispatched
    ensures d.group != g
  {
    hide Origins, AlbumFine, NothingLost, TasksFine, DispatchFine;
  }

  lemma DispatchIsFine(s: State, g: GroupId, kind: Kind, paid: bool, ephemeral: bool)
    requires Inv(s) && g in s.albums && s.albums[g].items != [] && AllFilled(s.albums[g].items)
    ensures var items := s.albums[g].items;
            DispatchFine(Dispatch(g, kind, TaskIds(items), Medias(items), s.dropped, paid, ephemeral),
                         s.origin, s.brought)
  {
    hide Origins, NothingLost, TasksFine, DispatchesFine, Filter;
    var items := s.albums[g].items;
    forall k | 0 <= k < |items|
      ensures items[k].taskId in s.brought && s.brought[items[k].taskId] == items[k].media.value
    {
      assert ItemFine(s, g, items[k]);
    }
  }

  lemma DispatchAdded(s: State, g: GroupId, d: Dispatch, albums: map<GroupId, Album>, awaiting: set<GroupId>)
    requires Inv(s) && g in s.albums && !s.albums[g].sent && d.group == g && DispatchFine(d, s.origin, s.brought)
    requires awaiting <= s.awaiting + {g}
    requires forall h :: h in albums ==> h in s.albums && (if h == g then albums[h].sent else albums[h] == s.albums[h])
    ensures DispatchesFine(s.(albums := albums, dispatched := s.dispatched + [d], awaiting := awaiting))
  {
    hide Origins, NothingLost, TasksFine, DispatchFine;
    var s' := s.(albums := albums, dispatched := s.dispatched + [d], awaiting := awaiting);
    assert AlbumFine(s, g);
    forall i | 0 <= i < |s'.dispatched|
      ensures DispatchFine(s'.dispatched[i], s'.origin, s'.brought) && SentOrGone(s', s'.dispatched[i].group)
      ensures i < |s.dispatched| ==> s'.dispatched[i].group != g
    {
      if i < |s.dispatched| {
        NotYetDispatched(s, g, s.dispatched[i]);
      }
    }
  }

  lemma MarkedKeeps(s: State, g: GroupId)
    requires Inv(s) && g in s.albums && AllFilled(s.albums[g].items)
    ensures Inv(WithAlbum(s, g, s.albums[g].(sent := true)))
  {
    hide Origins, TasksFine, DispatchFine, Filter;
    var s' := WithAlbum(s, g, s.albums[g].(sent := true));
    forall h | h in s'.albums ensures AlbumFine(s', h) {
      assert AlbumFine(s, h);
    }
  }

  lemma SentKeeps(s: State, g: GroupId, ephemeral: bool)
    requires Inv(s) && g in s.albums && !s.albums[g].sent && s.albums[g].items != [] && AllFilled(s.albums[g].items)
    ensures Inv(Sent(s, g, ephemeral))
  {
    hide Origins, TasksFine, DispatchFine, Filter, DispatchesFine, LoadFinds, CancelFinds;
    var a := s.albums[g];
    var kind := KindOf(a, ephemeral);
    var d := Dispatch(g, kind, TaskIds(a.items), Medias(a.items), s.dropped, a.paid, ephemeral);
    DispatchIsFine(s, g, kind, a.paid, ephemeral);
    var s' := Sent(s, g, ephemeral);
    DispatchAdded(s, g, d, s'.albums, s'.awaiting);
    if kind == Ephemeral || kind == Single {
      GoneKeeps(s, g);
      SameButLog(s.(albums := s.albums - {g}), s');
    } else {
      MarkedKeeps(s, g);
      SameButLog(WithAlbum(s, g, a.(sent := true)), s');
    }
  }

  lemma SameButLog(s: State, s': State)
    requires Inv(s) && s' == s.(dispatched := s'.dispatched, awaiting := s'.awaiting) && DispatchesFine(s')
    ensures Inv(s')
  {
    hide Origins, TasksFine, DispatchesFine, Filter;
    forall h | h in s'.albums ensures AlbumFine(s', h) {
      assert AlbumFine(s, h);
    }
  }

  lemma SentIfReadyKeeps(s: State, g: GroupId, ephemeral: bool)
    requires Inv(s) && g in s.albums
    ensures Inv(SentIfReady(s, g, ephemeral))
  {
    hide Inv, Sent;
    if !s.albums[g].sent && AllFilled(s.albums[g].items) {
      GoneKeeps(s, g);
      if s.albums[g].items != [] {
        SentKeeps(s, g, ephemeral);
      }
    }
  }

  // Changing one album, whatever the other albums are.
  lemma OthersFine(s: State, s': State, g: GroupId)
    requires Inv(s) && s'.albums.Keys <= s.albums.Keys + {g}
    requires forall h :: h in s'.albums && h != g ==> h in s.albums && s'.albums[h] == s.albums[h]
    requires g in s'.albums ==> AlbumFine(s', g)
    requires forall h :: h in s.albums && h != g ==>
      && h in s'.origin && s'.origin[h] == s.origin[h]
      && Filter(s.origin[h], s'.dropped) == Filter(s.origin[h], s.dropped)
      && forall i :: 0 <= i < |s.albums[h].items| ==> ItemFine(s', h, s.albums[h].items[i])
    ensures forall h :: h in s'.albums ==> AlbumFine(s', h)
  {
    hide Origins, NothingLost, TasksFine, DispatchesFine, Filter, ItemFine;
    forall h | h in s'.albums ensures AlbumFine(s', h) {
      if h != g {
        assert AlbumFine(s, h);
      }
    }
  }

  lemma {:induction false} FilterNone(tasks: seq<TaskId>, dropped: set<TaskId>)
    requires forall i :: 0 <= i < |tasks| ==> tasks[i] !in dropped
    ensures Filter(tasks, dropped) == tasks
  {
    if tasks != [] {
      FilterNone(tasks[1..], dropped);
      assert tasks == [tasks[0]] + tasks[1..];
    }
  }

  lemma CreatedAlbums(s: State, g: GroupId, tasks: seq<TaskId>, paid: bool)
    requires Inv(s) && Possible(s, Create(g, tasks, paid))
    ensures var s' := Created(s, g, tasks, paid); forall h :: h in s'.albums ==> AlbumFine(s', h)
  {
    hide Origins, TasksFine, DispatchesFine, NothingLost, Filter;
    var s' := Created(s, g, tasks, paid);
    forall i | 0 <= i < |tasks| ensures tasks[i] !in s.dropped {
      assert tasks[i] in tasks && NewTask(s, tasks[i]);
    }
    FilterNone(tasks, s.dropped);
    assert TaskIds(s'.albums[g].items) == tasks;
    forall h | h in s.albums && h != g
      ensures forall i :: 0 <= i < |s.albums[h].items| ==> ItemFine(s', h, s.albums[h].items[i])
    {
      assert AlbumFine(s, h);
      forall i | 0 <= i < |s.albums[h].items| ensures ItemFine(s', h, s.albums[h].items[i]) {
        assert ItemFine(s, h, s.albums[h].items[i]);
      }
    }
    OthersFine(s, s', g);
  }

  lemma CreatedDispatches(s: State, g: GroupId, tasks: seq<TaskId>, paid: bool)
    requires Inv(s) && Possible(s, Create(g, tasks, paid))
    ensures DispatchesFine(Created(s, g, tasks, paid))
  {
    hide Origins, TasksFine, NothingLost, Filter, AlbumFine;
    var s' := Created(s, g, tasks, paid);
    forall i | 0 <= i < |s'.dispatched|
      ensures DispatchFine(s'.dispatched[i], s'.origin, s'.brought) && SentOrGone(s', s'.dispatched[i].group)
    {
      assert DispatchFine(s.dispatched[i], s.origin, s.brought) && SentOrGone(s, s.dispatched[i].group);
    }
  }

  lemma NewGroup(s: State, g: GroupId)
    requires Inv(s) && g !in s.origin
    ensures g !in s.albums
  {
    assert g in s.albums ==> AlbumFine(s, g);
  }

  lemma CreatedKeeps(s: State, g: GroupId, tasks: seq<TaskId>, paid: bool)
    requires Inv(s) && Possible(s, Create(g, tasks, paid))
    ensures Inv(Created(s, g, tasks, paid))
  {
    hide DispatchesFine, AlbumFine;
    var s' := Created(s, g, tasks, paid);
    CreatedAlbums(s, g, tasks, paid);
    CreatedDispatches(s, g, tasks, paid);
    NewGroup(s, g);
    var items := s'.albums[g].items;
    forall t | t in s'.loading ensures LoadFinds(s', t) {
      if t in tasks {
        var i :| 0 <= i < |tasks| && tasks[i] == t;
        assert items[i].taskId == t;
      } else {
        assert LoadFinds(s, t);
      }
    }
    forall m | m in s'.live ensures LiveFine(s', m) {
      assert LiveFine(s, m);
    }
    assert Origins(s'.origin);
    forall m | m in s'.taskOf ensures s'.taskOf[m] !in s'.loading {
      assert s.taskOf[m] in tasks ==> NewTask(s, s.taskOf[m]);
    }
  }

  lemma LoadedAlbums(s: State, t: TaskId, m: MsgId)
    requires Inv(s) && Possible(s, Loaded(t, m)) && LoadFinds(s, t)
    ensures var s' := LoadedNow(s, t, m); forall h :: h in s'.albums ==> AlbumFine(s', h)
  {
    hide DispatchesFine, NothingLost, Filter, AllFilled;
    var s', g := LoadedNow(s, t, m), s.loading[t];
    var items := s.albums[g].items;
    var k := IndexOfTask(items, t);
    assert TaskIds(s'.albums[g].items) == TaskIds(items);
    forall h, i | h in s.albums && 0 <= i < |s'.albums[h].items| ensures ItemFine(s', h, s'.albums[h].items[i]) {
      assert ItemFine(s, h, s.albums[h].items[i]);
      if h == g && i != k {
        TasksApart(s, g, i, k);
      }
    }
    assert !s.albums[g].sent by { UnloadedUnsent(s, g, k, t); }
    OthersFine(s, s', g);
  }

  lemma TasksApart(s: State, g: GroupId, i: nat, k: nat)
    requires Origins(s.origin) && g in s.albums && AlbumFine(s, g)
    requires i < |s.albums[g].items| && k < |s.albums[g].items| && i != k
    ensures s.albums[g].items[i].taskId != s.albums[g].items[k].taskId
  {
    hide ItemFine;
    FilterIn(s.origin[g], s.dropped);
    var ids := TaskIds(s.albums[g].items);
    assert ids[i] != ids[k];
  }

  lemma UnloadedUnsent(s: State, g: GroupId, k: nat, t: TaskId)
    requires TasksFine(s.taskOf, s.loading, s.brought) && g in s.albums && AlbumFine(s, g)
    requires k < |s.albums[g].items| && s.albums[g].items[k].taskId == t && t in s.loading
    ensures !s.albums[g].sent && s.albums[g].items[k].msgId.None? && s.albums[g].items[k].media.None?
  {
    hide Filter;
    assert ItemFine(s, g, s.albums[g].items[k]);
  }

  lemma LoadedKeeps(s: State, t: TaskId, m: MsgId)
    requires Inv(s) && Possible(s, Loaded(t, m)) && LoadFinds(s, t)
    ensures Inv(LoadedNow(s, t, m))
  {
    hide DispatchFine, AlbumFine, Origins;
    var s', g := LoadedNow(s, t, m), s.loading[t];
    var items, items' := s.albums[g].items, s'.albums[g].items;
    var k := IndexOfTask(items, t);
    LoadedAlbums(s, t, m);
    assert !s.albums[g].sent && items[k].msgId.None? && g in s.origin && t in s.origin[g] by { TaskAlbum(s, t); }
    forall u | u in s'.loading ensures LoadFinds(s', u) {
      assert LoadFinds(s, u);
      if s.loading[u] == g {
        assert items'[IndexOfTask(items, u)].taskId == u;
      }
    }
    forall n | n in s'.live ensures LiveFine(s', n) {
      if n == m {
        assert items'[k].msgId == Some(m);
      } else if s.live[n] == g {
        assert LiveFine(s, n);
        assert items'[IndexOfMsg(items, n)].msgId == Some(n);
      }
    }
  }

  lemma TaskAlbum(s: State, t: TaskId)
    requires Inv(s) && LoadFinds(s, t)
    ensures var g := s.loading[t]; var a := s.albums[g]; var k := IndexOfTask(a.items, t);
            && !a.sent && a.items[k].msgId.None? && g in s.origin && t in s.origin[g] && t !in s.brought
  {
    hide Origins, DispatchesFine, NothingLost;
    var g := s.loading[t];
    FilterIn(s.origin[g], s.dropped);
    assert TaskIds(s.albums[g].items)[IndexOfTask(s.albums[g].items, t)] in s.origin[g];
    UnloadedUnsent(s, g, IndexOfTask(s.albums[g].items, t), t);
  }

  lemma DroppedAlbums(s: State, s': State, g: GroupId, k: nat)
    requires Inv(s) && g in s.albums && k < |s.albums[g].items|
    requires var a := s.albums[g]; s'.albums == s.albums[g := a.(items := RemoveAt(a.items, k))]
    requires s'.origin == s.origin && s'.dropped == s.dropped + {s.albums[g].items[k].taskId}
    requires forall h, i :: h in s'.albums && 0 <= i < |s.albums[h].items| && !(h == g && i == k) ==>
      ItemFine(s', h, s.albums[h].items[i])
    ensures forall h :: h in s'.albums ==> AlbumFine(s', h)
  {
    hide TasksFine, DispatchesFine, NothingLost, Filter, ItemFine;
    var a, t := s.albums[g], s.albums[g].items[k].taskId;
    var items' := RemoveAt(a.items, k);
    assert AlbumFine(s, g);
    FilterDrop(s.origin[g], s.dropped, k);
    FilterIn(s.origin[g], s.dropped);
    assert TaskIds(items') == RemoveAt(TaskIds(a.items), k);
    assert TaskIds(a.items)[k] == t;
    forall i | 0 <= i < |items'| ensures ItemFine(s', g, items'[i]) {
      assert items'[i] == a.items[if i < k then i else i + 1];
    }
    forall h | h in s.albums && h != g
      ensures h in s'.origin && Filter(s.origin[h], s'.dropped) == Filter(s.origin[h], s.dropped)
    {
      assert AlbumFine(s, h);
      FilterSame(s.origin[h], s.dropped, t);
    }
    OthersFine(s, s', g);
  }

  lemma FoundAfterRemoval(items: seq<Item>, k: nat, t: TaskId, m: MsgId)
    requires k < |items|
    ensures IndexOfTask(items, t) < |items| && items[k].taskId != t ==>
      IndexOfTask(RemoveAt(items, k), t) < |RemoveAt(items, k)|
    ensures IndexOfMsg(items, m) < |items| && items[k].msgId != Some(m) ==>
      IndexOfMsg(RemoveAt(items, k), m) < |RemoveAt(items, k)|
  {
    var rest := RemoveAt(items, k);
    var i, j := IndexOfTask(items, t), IndexOfMsg(items, m);
    if i < |items| && i != k {
      assert rest[if i < k then i else i - 1] == items[i];
    }
    if j < |items| && j != k {
      assert rest[if j < k then j else j - 1] == items[j];
    }
  }

  lemma DroppedLost(s: State, s': State, g: GroupId, k: nat)
    requires NothingLost(s) && g in s.albums && k < |s.albums[g].items|
    requires var a := s.albums[g]; s'.albums == s.albums[g := a.(items := RemoveAt(a.items, k))]
    requires s'.uploading == s.uploading && s'.brought == s.brought && s'.taskOf == s.taskOf && s'.origin == s.origin
    requires forall t :: t in s'.loading ==> t in s.loading && s'.loading[t] == s.loading[t]
    requires forall m :: m in s'.live ==> m in s.live && s'.live[m] == s.live[m]
    requires var item := s.albums[g].items[k];
             item.taskId !in s'.loading && (item.msgId.Some? ==> item.msgId.value !in s'.live)
    ensures NothingLost(s')
  {
    var items := s.albums[g].items;
    forall t | t in s'.loading ensures LoadFinds(s', t) {
      assert LoadFinds(s, t);
      FoundAfterRemoval(items, k, t, 0);
    }
    forall m | m in s'.live ensures LiveFine(s', m) {
      assert LiveFine(s, m);
      FoundAfterRemoval(items, k, 0, m);
    }
  }

  lemma LoadFailedKeeps(s: State, t: TaskId)
    requires Inv(s) && t in s.loading && LoadFinds(s, t)
    ensures Inv(LoadFailedNow(s, t))
  {
    hide DispatchFine, AlbumFine, Origins, NothingLost, Filter;
    var s', g := LoadFailedNow(s, t), s.loading[t];
    var k := IndexOfTask(s.albums[g].items, t);
    TaskAlbum(s, t);
    DroppedLost(s, s', g, k);
    OtherItems(s, s', g, k);
    DroppedAlbums(s, s', g, k);
  }

  // Dropping item `k` of group `g` takes nothing from any other item.
  lemma OtherItems(s: State, s': State, g: GroupId, k: nat)
    requires Inv(s) && g in s.albums && k < |s.albums[g].items|
    requires var item := s.albums[g].items[k];
             && s'.loading == s.loading - {item.taskId}
             && s'.live == s.live - (if item.msgId.Some? then {item.msgId.value} else {})
    requires s'.taskOf == s.taskOf && s'.uploading == s.uploading && s'.brought == s.brought
    ensures forall h, i :: h in s.albums && 0 <= i < |s.albums[h].items| && !(h == g && i == k) ==>
      ItemFine(s', h, s.albums[h].items[i])
  {
    hide DispatchesFine, NothingLost;
    forall h, i | h in s.albums && 0 <= i < |s.albums[h].items| && !(h == g && i == k)
      ensures ItemFine(s', h, s.albums[h].items[i])
    {
      assert ItemFine(s, h, s.albums[h].items[i]);
      TasksDiffer(s, g, k, h, i);
      assert ItemFine(s, g, s.albums[g].items[k]);
    }
  }

  lemma TasksDiffer(s: State, g: GroupId, k: nat, h: GroupId, i: nat)
    requires Inv(s) && g in s.albums && k < |s.albums[g].items| && h in s.albums && i < |s.albums[h].items|
    requires !(h == g && i == k)
    ensures s.albums[h].items[i].taskId != s.albums[g].items[k].taskId
  {
    hide DispatchesFine, NothingLost, TasksFine, ItemFine;
    if g == h {
      TasksApart(s, g, i, k);
    } else {
      FilterIn(s.origin[g], s.dropped);
      FilterIn(s.origin[h], s.dropped);
      assert AlbumFine(s, g) && AlbumFine(s, h);
      assert TaskIds(s.albums[h].items)[i] in s.origin[h] && TaskIds(s.albums[g].items)[k] in s.origin[g];
    }
  }

  lemma FilledAlbums(s: State, m: MsgId, media: Media)
    requires Inv(s) && m in s.uploading && UploadFinds(s, m) && m in s.taskOf
    ensures var s' := FilledNow(s, m, media); forall h :: h in s'.albums ==> AlbumFine(s', h)
  {
    hide DispatchesFine, Filter, LoadFinds, CancelFinds;
    var s', g := FilledNow(s, m, media), s.live[m];
    var items := s.albums[g].items;
    var k := IndexOfMsg(items, m);
    assert ItemFine(s, g, items[k]);
    assert TaskIds(s'.albums[g].items) == TaskIds(items);
    forall h, i | h in s.albums && 0 <= i < |s.albums[h].items| ensures ItemFine(s', h, s'.albums[h].items[i]) {
      assert ItemFine(s, h, s.albums[h].items[i]);
      if !(h == g && i == k) {
        TasksDiffer(s, g, k, h, i);
      }
    }
    assert AlbumFine(s, g);
    OthersFine(s, s', g);
  }

  lemma FilledKeeps(s: State, m: MsgId, media: Media)
    requires Inv(s) && m in s.uploading && UploadFinds(s, m) && m in s.taskOf
    ensures Inv(FilledNow(s, m, media))
  {
    hide DispatchFine, AlbumFine, Origins;
    var s', g, t := FilledNow(s, m, media), s.live[m], s.taskOf[m];
    var a := s.albums[g];
    FilledAlbums(s, m, media);
    forall u | u in s'.loading ensures LoadFinds(s', u) {
      assert LoadFinds(s, u);
      assert s.loading[u] == g ==> s'.albums[g].items[IndexOfTask(a.items, u)].taskId == u;
    }
    forall n | n in s'.live ensures LiveFine(s', n) {
      assert LiveFine(s, n);
      assert s.live[n] == g ==> s'.albums[g].items[IndexOfMsg(a.items, n)].msgId == Some(n);
    }
    UploadedDispatches(s, s', t, media);
  }

  lemma UploadedDispatches(s: State, s': State, t: TaskId, media: Media)
    requires DispatchesFine(s) && t !in s.brought
    requires s'.dispatched == s.dispatched && s'.origin == s.origin && s'.awaiting == s.awaiting
    requires s'.brought == s.brought[t := media]
    requires forall h :: h in s'.albums ==> h in s.albums && s'.albums[h].sent == s.albums[h].sent
    ensures DispatchesFine(s')
  {
    hide Filter;
    forall i | 0 <= i < |s'.dispatched|
      ensures DispatchFine(s'.dispatched[i], s'.origin, s'.brought) && SentOrGone(s', s'.dispatched[i].group)
    {
      assert DispatchFine(s.dispatched[i], s.origin, s.brought) && SentOrGone(s, s.dispatched[i].group);
    }
  }

  lemma UploadEndedKeeps(s: State, m: MsgId, s': State)
    requires Inv(s) && s' == s.(uploading := s.uploading - {m}, failed := s'.failed)
    ensures Inv(s')
  {
    hide DispatchFine, Origins, Filter;
    forall h | h in s'.albums ensures AlbumFine(s', h) {
      assert AlbumFine(s, h);
      forall i | 0 <= i < |s'.albums[h].items| ensures ItemFine(s', h, s'.albums[h].items[i]) {
        assert ItemFine(s, h, s.albums[h].items[i]);
      }
    }
    assert forall t :: t in s.loading ==> LoadFinds(s, t) == LoadFinds(s', t);
    assert forall n :: n in s.live ==> LiveFine(s, n) == LiveFine(s', n);
  }

  lemma WithdrawnKeeps(s: State, m: MsgId)
    requires Inv(s) && CancelFinds(s, m) && m in s.taskOf && s.live[m] in s.albums
    ensures Inv(WithdrawnNow(s, m))
  {
    hide DispatchFine, AlbumFine, Origins, Filter, NothingLost;
    var s', g, t := WithdrawnNow(s, m), s.live[m], s.taskOf[m];
    var k := IndexOfMsg(s.albums[g].items, m);
    assert s.albums[g].items[k].taskId == t && t !in s.loading && t in s.origin[g] by { MsgTask(s, m, k); }
    assert s.loading == s.loading - {t};
    DroppedLost(s, s', g, k);
    OtherItems(s, s', g, k);
    DroppedAlbums(s, s', g, k);
  }

  lemma MsgTask(s: State, m: MsgId, k: nat)
    requires Inv(s) && m in s.live && s.live[m] in s.albums && k < |s.albums[s.live[m]].items|
    requires s.albums[s.live[m]].items[k].msgId == Some(m)
    ensures var g := s.live[m];
      && m in s.taskOf && s.albums[g].items[k].taskId == s.taskOf[m] && s.taskOf[m] !in s.loading
      && g in s.origin && s.taskOf[m] in s.origin[g]
  {
    hide DispatchesFine, NothingLost;
    var g := s.live[m];
    assert ItemFine(s, g, s.albums[g].items[k]);
    FilterIn(s.origin[g], s.dropped);
    assert TaskIds(s.albums[g].items)[k] in s.origin[g];
  }

  lemma CancelledLate(s: State, m: MsgId)
    requires Inv(s) && m in s.live && s.live[m] !in s.albums && m in s.taskOf
    ensures Inv(DroppedNow(s, m))
  {
    hide DispatchFine, Filter;
    var s', g, t := DroppedNow(s, m), s.live[m], s.taskOf[m];
    forall h | h in s'.albums ensures AlbumFine(s', h) {
      assert AlbumFine(s, h);
      assert t !in s.origin[h];
      FilterSame(s.origin[h], s.dropped, t);
      forall i | 0 <= i < |s'.albums[h].items| ensures ItemFine(s', h, s'.albums[h].items[i]) {
        assert ItemFine(s, h, s.albums[h].items[i]);
      }
    }
    assert forall u :: u in s.loading ==> LoadFinds(s, u) == LoadFinds(s', u);
    assert forall n :: n in s'.live ==> LiveFine(s, n) == LiveFine(s', n);
  }

  lemma AnsweredKeeps(s: State, g: GroupId)
    requires Inv(s) && g in s.awaiting
    ensures Inv(AnsweredNow(s, g))
  {
    hide DispatchFine, Filter, NothingLost, Origins, TasksFine;
    var gone := s.(albums := s.albums - {g});
    if g in s.albums {
      assert AlbumFine(s, g);
      GoneKeeps(s, g);
    } else {
      assert s.albums - {g} == s.albums;
      assert gone == s;
    }
    AwaitingLess(gone, g);
  }

  lemma AwaitingLess(s: State, g: GroupId)
    requires Inv(s)
    ensures Inv(s.(awaiting := s.awaiting - {g}))
  {
    hide Origins, TasksFine, DispatchFine, Filter;
    var s' := s.(awaiting := s.awaiting - {g});
    forall h | h in s'.albums ensures AlbumFine(s', h) {
      assert AlbumFine(s, h);
    }
    assert DispatchesFine(s');
    assert NothingLost(s');
  }

  lemma NextKeeps(s: State, e: Event)
    requires Inv(s) && Possible(s, e)
    ensures Inv(Next(s, e))
  {
    hide Inv, Created, LoadedNow, LoadFailedNow, FilledNow, WithdrawnNow, DroppedNow, AnsweredNow, SentIfReady;
    LookupsSucceed(s, e);
    match e
    case Create(g, tasks, paid) => CreatedKeeps(s, g, tasks, paid);
    case Loaded(t, m) => LoadedKeeps(s, t, m);
    case LoadFailed(t) => LoadFailedKeeps(s, t);
    case Uploaded(m, media, ephemeral) =>
      if m in s.live {
        FilledKeeps(s, m, media);
        SentIfReadyKeeps(FilledNow(s, m, media), s.live[m], ephemeral);
      } else {
        UploadEndedKeeps(s, m, s.(uploading := s.uploading - {m}));
      }
    case UploadFailed(m) => UploadEndedKeeps(s, m, UploadFailedNow(s, m));
    case Cancel(m, ephemeral) =>
      if s.live[m] in s.albums {
        WithdrawnKeeps(s, m);
        SentIfReadyKeeps(WithdrawnNow(s, m), s.live[m], ephemeral);
      } else {
        CancelledLate(s, m);
      }
    case Answered(g) => AnsweredKeeps(s, g);
  }

  // The states the album code can get into.
  ghost predicate Reaches(s: State, events: seq<Event>, last: State)
    requires Inv(s)
    decreases |events|
  {
    if events == [] then last == s
    else Possible(s, events[0]) && (NextKeeps(s, events[0]); Reaches(Next(s, events[0]), events[1..], last))
  }

  lemma {:induction false} ReachableKeeps(s: State, events: seq<Event>, last: State)
    requires Inv(s) && Reaches(s, events, last)
    ensures Inv(last)
    decreases |events|
  {
    hide Inv, Next, Possible;
    if events != [] {
      NextKeeps(s, events[0]);
      ReachableKeeps(Next(s, events[0]), events[1..], last);
    }
  }

  lemma InitialFine()
    ensures Inv(INITIAL)
  {
  }

  // In every run a group goes out at most once.
  lemma DispatchedOnce(events: seq<Event>, s: State, i: nat, j: nat)
    requires Inv(INITIAL) && Reaches(INITIAL, events, s) && i < j < |s.dispatched|
    ensures s.dispatched[i].group != s.dispatched[j].group
  {
    hide Reaches, Origins, AlbumFine, NothingLost, TasksFine;
    ReachableKeeps(INITIAL, events, s);
  }

  // What goes out is never empty: the files of the group that had not dropped out by then, in the order
  // they were chosen, each with the media its own upload brought.
  lemma DispatchedWhole(events: seq<Event>, s: State, i: nat)
    requires Inv(INITIAL) && Reaches(INITIAL, events, s) && i < |s.dispatched|
    ensures var d := s.dispatched[i];
      && d.group in s.origin && d.tasks == Filter(s.origin[d.group], d.dropped) && |d.tasks| == |d.medias| > 0
      && forall k :: 0 <= k < |d.tasks| ==> d.tasks[k] in s.brought && s.brought[d.tasks[k]] == d.medias[k]
  {
    hide Reaches, Origins, AlbumFine, NothingLost, TasksFine, Filter;
    ReachableKeeps(INITIAL, events, s);
    assert DispatchFine(s.dispatched[i], s.origin, s.brought);
  }

  // Neither a finished upload nor a cancelled or loaded file ever fails to find its place.
  lemma AssertionsNeverFire(events: seq<Event>, s: State, e: Event)
    requires Inv(INITIAL) && Reaches(INITIAL, events, s) && Possible(s, e)
    ensures e.Loaded? ==> LoadFinds(s, e.task)
    ensures e.LoadFailed? ==> LoadFinds(s, e.task)
    ensures e.Uploaded? && e.msg in s.live ==> UploadFinds(s, e.msg)
    ensures e.Cancel? ==> CancelFinds(s, e.msg)
  {
    hide Reaches, Inv;
    ReachableKeeps(INITIAL, events, s);
    LookupsSucceed(s, e);
  }

  // An item whose file is still being read or whose media is still being uploaded.
  predicate Pending(s: State, item: Item) {
    item.taskId in s.loading || (item.msgId.Some? && item.msgId.value in s.uploading)
  }

  // An unsent album that waits for nothing.
  ghost predicate Stuck(s: State, g: GroupId) {
    g in s.albums && !s.albums[g].sent && forall i :: 0 <= i < |s.albums[g].items| ==> !Pending(s, s.albums[g].items[i])
  }

  // The event is about an item of this album, before it is sent.
  predicate Touches(s: State, e: Event, g: GroupId) {
    && g in s.albums && !s.albums[g].sent
    && match e
       case Loaded(t, _) => t in s.loading && s.loading[t] == g
       case LoadFailed(t) => t in s.loading && s.loading[t] == g
       case Uploaded(m, _, _) => m in s.live && s.live[m] == g
       case UploadFailed(m) => m in s.live && s.live[m] == g
       case Cancel(m, _) => m in s.live && s.live[m] == g
       case _ => false
  }

  // The place of that item.
  function Place(s: State, e: Event, g: GroupId): nat
    requires Touches(s, e, g)
  {
    match e
    case Loaded(t, _) => IndexOfTask(s.albums[g].items, t)
    case LoadFailed(t) => IndexOfTask(s.albums[g].items, t)
    case Uploaded(m, _, _) => IndexOfMsg(s.albums[g].items, m)
    case UploadFailed(m) => IndexOfMsg(s.albums[g].items, m)
    case Cancel(m, _) => IndexOfMsg(s.albums[g].items, m)
  }

  // All the album's other items, but for the one at `k`, are done with, or are uploaded.

  ghost predicate OthersIdle(s: State, g: GroupId, k: nat)
    requires g in s.albums
  {
    forall i :: 0 <= i < |s.albums[g].items| && i != k ==> !Pending(s, s.albums[g].items[i])
  }

  ghost predicate OthersUploaded(s: State, g: GroupId, k: nat)
    requires g in s.albums
  {
    forall i :: 0 <= i < |s.albums[g].items| && i != k ==> s.albums[g].items[i].media.Some?
  }

  // The steps that strand an album: making one of no files; a file that cannot be read, or an upload that fails,
  // when nothing else was pending; and the last upload that ends well, or is cancelled, when another one has failed.
  ghost predicate Strands(s: State, e: Event, g: GroupId) {
    match e
    case Create(h, tasks, _) => h == g && tasks == []
    case LoadFailed(_) => Touches(s, e, g) && OthersIdle(s, g, Place(s, e, g))
    case UploadFailed(_) => Touches(s, e, g) && OthersIdle(s, g, Place(s, e, g))
    case Uploaded(_, _, _) =>
      Touches(s, e, g) && OthersIdle(s, g, Place(s, e, g)) && !OthersUploaded(s, g, Place(s, e, g))
    case Cancel(_, _) =>
      Touches(s, e, g) && OthersIdle(s, g, Place(s, e, g)) && !OthersUploaded(s, g, Place(s, e, g))
    case _ => false
  }

  lemma PlacesApart(s: State, g: GroupId, k: nat, h: GroupId, i: nat)
    requires Inv(s) && g in s.albums && k < |s.albums[g].items| && h in s.albums && i < |s.albums[h].items|
    requires !(h == g && i == k)
    ensures var a, b := s.albums[g].items[k], s.albums[h].items[i];
            a.taskId != b.taskId && (a.msgId.Some? ==> a.msgId != b.msgId)
  {
    hide DispatchesFine, NothingLost, Origins, TasksFine, Filter;
    TasksDiffer(s, g, k, h, i);
    assert ItemFine(s, g, s.albums[g].items[k]) && ItemFine(s, h, s.albums[h].items[i]);
  }

  lemma ItemKnown(s: State, g: GroupId, i: nat)
    requires Inv(s) && g in s.albums && i < |s.albums[g].items|
    ensures var item := s.albums[g].items[i];
      && g in s.origin && item.taskId in s.origin[g]
      && (item.msgId.Some? ==>
            && item.msgId.value in s.live && s.live[item.msgId.value] == g && item.msgId.value in s.taskOf
            && item.taskId !in s.loading)
      && (item.msgId.None? ==> item.taskId in s.loading && s.loading[item.taskId] == g && item.media.None?)
      && (item.media.Some? ==> !Pending(s, item))
  {
    hide DispatchesFine, NothingLost, Origins;
    assert AlbumFine(s, g) && ItemFine(s, g, s.albums[g].items[i]);
    FilterIn(s.origin[g], s.dropped);
    assert TaskIds(s.albums[g].items)[i] in s.origin[g];
  }

  // An album that stays as it is, with its items pending as before.
  lemma SameStuck(s: State, s': State, g: GroupId)
    requires g in s.albums <==> g in s'.albums
    requires g in s.albums ==> s'.albums[g] == s.albums[g]
    requires g in s.albums ==> forall i :: 0 <= i < |s.albums[g].items| ==>
      Pending(s', s.albums[g].items[i]) == Pending(s, s.albums[g].items[i])
    ensures Stuck(s', g) <==> Stuck(s, g)
  {
    hide Pending;
  }

  // The same album without item `k`, which is not pending any more or is gone.
  lemma StuckWithout(s: State, s': State, g: GroupId, k: nat)
    requires g in s.albums && !s.albums[g].sent && k < |s.albums[g].items|
    requires g in s'.albums && s'.albums[g] == s.albums[g].(items := RemoveAt(s.albums[g].items, k))
    requires forall i :: 0 <= i < |s.albums[g].items| && i != k ==>
      Pending(s', s.albums[g].items[i]) == Pending(s, s.albums[g].items[i])
    ensures Stuck(s', g) <==> OthersIdle(s, g, k)
    ensures AllFilled(s'.albums[g].items) <==> OthersUploaded(s, g, k)
  {
    hide Pending;
    var items, rest := s.albums[g].items, s'.albums[g].items;
    assert |rest| == |items| - 1;
    forall i | 0 <= i < |items| && i != k
      ensures items[i] == rest[if i < k then i else i - 1]
    {
    }
    forall j | 0 <= j < |rest|
      ensures rest[j] == items[if j < k then j else j + 1]
    {
    }
    if OthersIdle(s, g, k) {
      forall j | 0 <= j < |rest| ensures !Pending(s', rest[j]) {
        assert !Pending(s, items[if j < k then j else j + 1]);
      }
    }
    if OthersUploaded(s, g, k) {
      forall j | 0 <= j < |rest| ensures rest[j].media.Some? {
        assert items[if j < k then j else j + 1].media.Some?;
      }
    }
  }

  lemma StuckWith(s: State, s': State, g: GroupId, k: nat, item: Item)
    requires g in s.albums && !s.albums[g].sent && k < |s.albums[g].items|
    requires g in s'.albums && s'.albums[g] == s.albums[g].(items := s.albums[g].items[k := item])
    requires !Pending(s', item)
    requires forall i :: 0 <= i < |s.albums[g].items| && i != k ==>
      Pending(s', s.albums[g].items[i]) == Pending(s, s.albums[g].items[i])
    ensures Stuck(s', g) <==> OthersIdle(s, g, k)
    ensures AllFilled(s'.albums[g].items) <==> item.media.Some? && OthersUploaded(s, g, k)
  {
    hide Pending;
    var items, now := s.albums[g].items, s'.albums[g].items;
    assert |now| == |items| && now[k] == item;
    forall i | 0 <= i < |items| && i != k
      ensures items[i] == now[i]
    {
    }
  }

  ghost predicate SameAlbum(s: State, s': State, g: GroupId) {
    if g in s.albums then g in s'.albums && s'.albums[g] == s.albums[g] else g !in s'.albums
  }

  lemma SentDone(s: State, g: GroupId, ephemeral: bool, h: GroupId)
    requires g in s.albums && AllFilled(s.albums[g].items)
    ensures var s' := Sent(s, g, ephemeral);
      && s'.loading == s.loading && s'.uploading == s.uploading
      && SentOrGone(s', g) && (h != g ==> SameAlbum(s, s', h))
  {
    hide AllFilled, Medias, TaskIds, KindOf;
  }

  // Trying to send does nothing if an item is not uploaded, and else the album is sent or gone.
  lemma ReadyDone(s: State, g: GroupId, ephemeral: bool, h: GroupId)
    requires g in s.albums && (s.albums[g].items == [] ==> AllFilled(s.albums[g].items))
    ensures var s' := SentIfReady(s, g, ephemeral);
      && s'.loading == s.loading && s'.uploading == s.uploading
      && (h != g ==> SameAlbum(s, s', h))
      && if AllFilled(s.albums[g].items) then SentOrGone(s', g) else s' == s
  {
    hide AllFilled, SomeLive, Sent;
    if AllFilled(s.albums[g].items) {
      SentDone(s, g, ephemeral, h);
    }
  }

  lemma StuckIfReady(s: State, g: GroupId, ephemeral: bool, h: GroupId)
    requires g in s.albums && (s.albums[g].items == [] ==> AllFilled(s.albums[g].items))
    ensures Stuck(SentIfReady(s, g, ephemeral), h) <==> Stuck(s, h) && (h == g ==> !AllFilled(s.albums[g].items))
  {
    hide AllFilled, Pending, SentIfReady;
    var s' := SentIfReady(s, g, ephemeral);
    ReadyDone(s, g, ephemeral, h);
    SamePending(s, s');
    if h != g {
      SameStuck(s, s', h);
    }
  }

  lemma NothingFilled()
    ensures AllFilled([])
  {
  }

  lemma CreatedStuck(s: State, e: Event, g: GroupId)
    requires Inv(s) && Possible(s, e) && e.Create?
    ensures Stuck(Next(s, e), g) <==> Stuck(s, g) || Strands(s, e, g)
  {
    hide Inv, NewTask;
    var s' := Next(s, e);
    NewGroup(s, e.group);
    if g == e.group {
      assert e.tasks != [] ==> Pending(s', s'.albums[g].items[0]);
    } else {
      if g in s.albums {
        forall i | 0 <= i < |s.albums[g].items|
          ensures Pending(s', s.albums[g].items[i]) == Pending(s, s.albums[g].items[i])
        {
          ItemKnown(s, g, i);
          assert s.albums[g].items[i].taskId in e.tasks ==> NewTask(s, s.albums[g].items[i].taskId);
          OldTask(s, g, s.albums[g].items[i].taskId);
        }
      }
      SameStuck(s, s', g);
    }
  }

  lemma OldTask(s: State, g: GroupId, t: TaskId)
    requires g in s.origin && t in s.origin[g]
    ensures !NewTask(s, t)
  {
  }

  lemma LoadedStuck(s: State, t: TaskId, m: MsgId, g: GroupId)
    requires Inv(s) && Possible(s, Loaded(t, m)) && LoadFinds(s, t)
    ensures Stuck(LoadedNow(s, t, m), g) <==> Stuck(s, g) && s.loading[t] != g
  {
    hide Inv;
    var s', h := LoadedNow(s, t, m), s.loading[t];
    var k := IndexOfTask(s.albums[h].items, t);
    if g == h {
      assert Pending(s', s'.albums[g].items[k]);
    } else {
      if g in s.albums {
        forall i | 0 <= i < |s.albums[g].items|
          ensures Pending(s', s.albums[g].items[i]) == Pending(s, s.albums[g].items[i])
        {
          PlacesApart(s, h, k, g, i);
          ItemKnown(s, g, i);
        }
      }
      SameStuck(s, s', g);
    }
  }

  lemma LoadFailedStuck(s: State, t: TaskId, g: GroupId)
    requires Inv(s) && Possible(s, LoadFailed(t)) && LoadFinds(s, t)
    ensures Stuck(LoadFailedNow(s, t), g) <==>
      if s.loading[t] == g then OthersIdle(s, g, IndexOfTask(s.albums[g].items, t)) else Stuck(s, g)
  {
    hide Inv;
    var s', h := LoadFailedNow(s, t), s.loading[t];
    var k := IndexOfTask(s.albums[h].items, t);
    TaskAlbum(s, t);
    if g in s.albums {
      forall i | 0 <= i < |s.albums[g].items| && !(g == h && i == k)
        ensures Pending(s', s.albums[g].items[i]) == Pending(s, s.albums[g].items[i])
      {
        PlacesApart(s, h, k, g, i);
      }
    }
    if g == h {
      StuckWithout(s, s', g, k);
    } else {
      SameStuck(s, s', g);
    }
  }

  // A message whose upload has ended: it is no other item's.
  lemma UploadEnds(s: State, s': State, m: MsgId, g: GroupId, i: nat)
    requires Inv(s) && m in s.uploading && s'.loading == s.loading && s'.uploading == s.uploading - {m}
    requires g in s.albums && i < |s.albums[g].items|
    requires m in s.live ==>
      UploadFinds(s, m) && !(g == s.live[m] && i == IndexOfMsg(s.albums[s.live[m]].items, m))
    ensures Pending(s', s.albums[g].items[i]) == Pending(s, s.albums[g].items[i])
  {
    hide Inv;
    ItemKnown(s, g, i);
    if m in s.live {
      PlacesApart(s, s.live[m], IndexOfMsg(s.albums[s.live[m]].items, m), g, i);
    }
  }

  lemma UploadGoneStuck(s: State, s': State, m: MsgId, g: GroupId)
    requires Inv(s) && m in s.uploading && m !in s.live
    requires s' == s.(uploading := s.uploading - {m}, failed := s'.failed)
    ensures Stuck(s', g) <==> Stuck(s, g)
  {
    hide Inv, Pending;
    if g in s.albums {
      forall i | 0 <= i < |s.albums[g].items|
        ensures Pending(s', s.albums[g].items[i]) == Pending(s, s.albums[g].items[i])
      {
        UploadEnds(s, s', m, g, i);
      }
    }
    SameStuck(s, s', g);
  }

  lemma PlaceUnsent(s: State, m: MsgId)
    requires Inv(s) && m in s.live && UploadFinds(s, m)
    ensures var g := s.live[m]; var k := IndexOfMsg(s.albums[g].items, m);
            !s.albums[g].sent && s.albums[g].items[k].taskId !in s.loading
  {
    hide Origins, DispatchesFine, NothingLost, TasksFine, Filter;
    var g := s.live[m];
    assert AlbumFine(s, g);
    ItemKnown(s, g, IndexOfMsg(s.albums[g].items, m));
  }

  lemma UploadFailedStuck(s: State, m: MsgId, g: GroupId)
    requires Inv(s) && m in s.uploading && m in s.live && UploadFinds(s, m)
    ensures Stuck(UploadFailedNow(s, m), g) <==>
      if s.live[m] == g then OthersIdle(s, g, IndexOfMsg(s.albums[g].items, m)) else Stuck(s, g)
  {
    hide Inv;
    var s', h := UploadFailedNow(s, m), s.live[m];
    var k := IndexOfMsg(s.albums[h].items, m);
    PlaceUnsent(s, m);
    if g in s.albums {
      forall i | 0 <= i < |s.albums[g].items| && !(g == h && i == k)
        ensures Pending(s', s.albums[g].items[i]) == Pending(s, s.albums[g].items[i])
      {
        UploadEnds(s, s', m, g, i);
      }
    }
    if g == h {
      var items := s.albums[g].items;
      assert items[k := items[k]] == items;
      StuckWith(s, s', g, k, items[k]);
    } else {
      SameStuck(s, s', g);
    }
  }

  lemma UploadedStuck(s: State, m: MsgId, media: Media, ephemeral: bool, g: GroupId)
    requires Inv(s) && m in s.uploading && m in s.live && UploadFinds(s, m) && m in s.taskOf
    ensures var k := IndexOfMsg(s.albums[s.live[m]].items, m);
      Stuck(UploadedNow(s, m, media, ephemeral), g) <==>
        if s.live[m] == g then OthersIdle(s, g, k) && !OthersUploaded(s, g, k) else Stuck(s, g)
  {
    hide Inv, SentIfReady, AllFilled, OthersIdle, OthersUploaded;
    var s', h := FilledNow(s, m, media), s.live[m];
    var k := IndexOfMsg(s.albums[h].items, m);
    var item := s.albums[h].items[k].(media := Some(media));
    PlaceUnsent(s, m);
    if g in s.albums {
      forall i | 0 <= i < |s.albums[g].items| && !(g == h && i == k)
        ensures Pending(s', s.albums[g].items[i]) == Pending(s, s.albums[g].items[i])
      {
        UploadEnds(s, s', m, g, i);
      }
    }
    if g == h {
      StuckWith(s, s', g, k, item);
    } else {
      SameStuck(s, s', g);
    }
    StuckIfReady(s', h, ephemeral, g);
  }

  lemma CancelledStuck(s: State, m: MsgId, ephemeral: bool, g: GroupId)
    requires Inv(s) && m in s.live && CancelFinds(s, m) && m in s.taskOf
    ensures Stuck(CancelledNow(s, m, ephemeral), g) <==>
      if s.live[m] == g && g in s.albums && !s.albums[g].sent then
        var k := IndexOfMsg(s.albums[g].items, m); OthersIdle(s, g, k) && !OthersUploaded(s, g, k)
      else Stuck(s, g)
  {
    hide Inv, SentIfReady, AllFilled, OthersIdle, OthersUploaded, Pending;
    var h := s.live[m];
    if h in s.albums {
      var s' := WithdrawnNow(s, m);
      SamePending(s, s');
      if g == h {
        if !s.albums[g].sent {
          StuckWithout(s, s', g, IndexOfMsg(s.albums[g].items, m));
        }
      } else {
        SameStuck(s, s', g);
      }
      NothingFilled();
      StuckIfReady(s', h, ephemeral, g);
    } else {
      SamePending(s, DroppedNow(s, m));
      SameStuck(s, DroppedNow(s, m), g);
    }
  }

  lemma SamePending(s: State, s': State)
    requires s'.loading == s.loading && s'.uploading == s.uploading
    ensures forall item :: Pending(s', item) == Pending(s, item)
  {
  }

  lemma AnsweredStuck(s: State, e: Event, g: GroupId)
    requires Inv(s) && Possible(s, e) && e.Answered?
    ensures Stuck(Next(s, e), g) <==> Stuck(s, g)
  {
    hide Origins, NothingLost, TasksFine, AlbumFine, Pending;
    var s' := Next(s, e);
    assert SentOrGone(s, e.group);
    SamePending(s, s');
    if g != e.group {
      SameStuck(s, s', g);
    }
  }

  // When an album gets stuck, and when it stays so: exactly if the step strands it, or it was stuck and is not touched.
  lemma StuckExactly(s: State, e: Event, g: GroupId)
    requires Inv(s) && Possible(s, e)
    ensures Stuck(Next(s, e), g) <==> (Stuck(s, g) && !Touches(s, e, g)) || Strands(s, e, g)
  {
    hide Inv, Stuck, LoadedNow, LoadFailedNow, UploadedNow, CancelledNow, Created, AnsweredNow;
    hide OthersIdle, OthersUploaded;
    LookupsSucceed(s, e);
    match e
    case Create(h, tasks, paid) => CreatedStuck(s, e, g);
    case Loaded(t, m) =>
      LoadedStuck(s, t, m, g);
      TaskAlbum(s, t);
    case LoadFailed(t) =>
      LoadFailedStuck(s, t, g);
      TaskAlbum(s, t);
    case Uploaded(m, media, ephemeral) =>
      if m in s.live {
        UploadedStuck(s, m, media, ephemeral, g);
        PlaceUnsent(s, m);
      } else {
        UploadGoneStuck(s, s.(uploading := s.uploading - {m}), m, g);
      }
    case UploadFailed(m) =>
      if m in s.live {
        UploadPlace(s, m);
        UploadFailedStuck(s, m, g);
        PlaceUnsent(s, m);
      } else {
        UploadGoneStuck(s, UploadFailedNow(s, m), m, g);
      }
    case Cancel(m, ephemeral) =>
      CancelledStuck(s, m, ephemeral, g);
    case Answered(h) => AnsweredStuck(s, e, g);
  }

  lemma UploadPlace(s: State, m: MsgId)
    requires Inv(s) && m in s.uploading && m in s.live
    ensures UploadFinds(s, m)
  {
    hide Inv;
    LookupsSucceed(s, Uploaded(m, Media(0, 0), false));
  }

  // What becomes of a group: its album is still there, or it went out, or all its files have dropped out.

  ghost predicate Went(s: State, g: GroupId) { exists i :: 0 <= i < |s.dispatched| && s.dispatched[i].group == g }

  ghost predicate Over(s: State, g: GroupId)
    requires g in s.origin
  {
    Went(s, g) || forall t :: t in s.origin[g] ==> t in s.dropped
  }

  ghost predicate Waiting(items: seq<Item>, m: MsgId) {
    exists i :: 0 <= i < |items| && items[i].msgId == Some(m) && items[i].media.None?
  }

  // A file with a message and no media is being uploaded, or its upload has failed.
  predicate ItemExplained(s: State, item: Item) {
    item.msgId.Some? && item.media.None? ==> item.msgId.value in s.uploading || item.msgId.value in s.failed
  }

  ghost predicate AlbumExplained(s: State, g: GroupId)
    requires g in s.albums
  {
    var a := s.albums[g];
    (a.sent ==> g in s.awaiting && Went(s, g)) && forall i :: 0 <= i < |a.items| ==> ItemExplained(s, a.items[i])
  }

  ghost predicate FailedFine(s: State, m: MsgId) {
    && m !in s.uploading && m in s.taskOf
    && (m in s.live ==> s.live[m] in s.albums && Waiting(s.albums[s.live[m]].items, m))
  }

  // An album that was looked at since it last lost a file, and was not sent, has a file that is not uploaded.
  ghost predicate Checked(s: State, g: GroupId)
    requires g in s.albums
  {
    !s.albums[g].sent && g !in s.unchecked ==> !AllFilled(s.albums[g].items)
  }

  // All albums are explained, but for those that are yet to be looked at.
  ghost predicate Explained(s: State, but: set<GroupId>) {
    && (forall g :: g in s.albums ==> AlbumExplained(s, g) && (g in but || Checked(s, g)))
    && (forall g :: g in s.unchecked ==> g in s.albums && !s.albums[g].sent)
    && (forall m :: m in s.failed ==> FailedFine(s, m))
    && (forall g :: g in s.origin ==> g in s.albums || Over(s, g))
  }

  // A step that changes no album but `g`.
  lemma OthersExplained(s: State, s': State, g: GroupId, but: set<GroupId>)
    requires Explained(s, {g})
    requires forall h :: h != g ==> SameAlbum(s, s', h)
    requires forall h :: h != g ==> (h in s'.unchecked <==> h in s.unchecked) && (h in s.awaiting ==> h in s'.awaiting)
    requires s.dispatched <= s'.dispatched && s.dropped <= s'.dropped
    requires forall h, i :: h != g && h in s.albums && 0 <= i < |s.albums[h].items| ==>
      ItemExplained(s', s.albums[h].items[i])
    requires forall h :: h in s'.origin && h != g ==> h in s.origin && s'.origin[h] == s.origin[h]
    requires g in s'.albums ==> AlbumExplained(s', g) && (g in but || Checked(s', g))
    requires g in s'.unchecked ==> g in s'.albums && !s'.albums[g].sent
    requires forall m :: m in s'.failed ==> FailedFine(s', m)
    requires g in s'.origin ==> g in s'.albums || Over(s', g)
    ensures Explained(s', but)
  {
    hide ItemExplained, FailedFine, AllFilled, Went;
    forall h | h != g && Went(s, h) ensures Went(s', h) {
      WentStill(s, s', h);
    }
    forall h | h != g && h in s'.origin && h !in s'.albums ensures Over(s', h) {
      assert SameAlbum(s, s', h) && Over(s, h);
    }
    forall h | h != g && h in s'.albums ensures AlbumExplained(s', h) && Checked(s', h) {
      assert SameAlbum(s, s', h) && AlbumExplained(s, h) && Checked(s, h);
    }
    forall h | h != g && h in s'.unchecked ensures h in s'.albums && !s'.albums[h].sent {
      assert SameAlbum(s, s', h);
    }
  }

  lemma WentStill(s: State, s': State, g: GroupId)
    requires Went(s, g) && s.dispatched <= s'.dispatched
    ensures Went(s', g)
  {
    var i :| 0 <= i < |s.dispatched| && s.dispatched[i].group == g;
    assert s'.dispatched[i] == s.dispatched[i];
  }

  // A step that changes no album at all.
  lemma SameExplained(s: State, s': State)
    requires Explained(s, {})
    requires s'.albums == s.albums && s'.unchecked == s.unchecked && s'.awaiting == s.awaiting
    requires s'.origin == s.origin && s'.dispatched == s.dispatched && s.dropped <= s'.dropped
    requires forall h, i :: h in s.albums && 0 <= i < |s.albums[h].items| ==> ItemExplained(s', s.albums[h].items[i])
    requires forall m :: m in s'.failed ==> FailedFine(s', m)
    ensures Explained(s', {})
  {
    hide ItemExplained, FailedFine, AllFilled;
    forall h | h in s'.albums ensures AlbumExplained(s', h) && Checked(s', h) {
      assert AlbumExplained(s, h) && Checked(s, h);
    }
    forall h | h in s'.origin && h !in s'.albums ensures Over(s', h) {
      assert Over(s, h);
    }
  }

  lemma WaitingStays(items: seq<Item>, k: nat, item: Item, m: MsgId)
    requires k < |items| && Waiting(items, m) && items[k].msgId != Some(m)
    ensures Waiting(items[k := item], m) && Waiting(RemoveAt(items, k), m)
  {
    var i :| 0 <= i < |items| && items[i].msgId == Some(m) && items[i].media.None?;
    assert items[k := item][i] == items[i];
    assert RemoveAt(items, k)[if i < k then i else i - 1] == items[i];
  }

  lemma CreatedExplained(s: State, g: GroupId, tasks: seq<TaskId>, paid: bool)
    requires Inv(s) && Explained(s, {}) && Possible(s, Create(g, tasks, paid))
    ensures Explained(Created(s, g, tasks, paid), {})
  {
    hide Inv;
    var s' := Created(s, g, tasks, paid);
    NewGroup(s, g);
    forall h, i | h in s.albums && 0 <= i < |s.albums[h].items| ensures ItemExplained(s', s.albums[h].items[i]) {
      assert AlbumExplained(s, h);
    }
    assert tasks != [] ==> s'.albums[g].items[0].media.None?;
    forall m | m in s'.failed ensures FailedFine(s', m) {
      assert FailedFine(s, m);
    }
    OthersExplained(s, s', g, {});
  }

  lemma LoadedExplained(s: State, t: TaskId, m: MsgId)
    requires Inv(s) && Explained(s, {}) && Possible(s, Loaded(t, m)) && LoadFinds(s, t)
    ensures Explained(LoadedNow(s, t, m), {})
  {
    hide Inv, Waiting;
    var s', g := LoadedNow(s, t, m), s.loading[t];
    var items := s.albums[g].items;
    var k := IndexOfTask(items, t);
    TaskAlbum(s, t);
    UnloadedHere(s, t);
    forall h, i | h in s.albums && 0 <= i < |s.albums[h].items| ensures ItemExplained(s', s.albums[h].items[i]) {
      assert AlbumExplained(s, h) && ItemExplained(s, s.albums[h].items[i]);
    }
    forall n | n in s'.failed ensures FailedFine(s', n) {
      assert FailedFine(s, n);
      if n in s.live && s.live[n] == g {
        WaitingStays(items, k, s'.albums[g].items[k], n);
      }
    }
    assert s'.albums[g].items[k].media.None?;
    OthersExplained(s, s', g, {});
  }

  lemma LoadFailedExplained(s: State, t: TaskId)
    requires Inv(s) && Explained(s, {}) && Possible(s, LoadFailed(t)) && LoadFinds(s, t)
    ensures Explained(LoadFailedNow(s, t), {})
  {
    hide Inv, Waiting;
    var s', g := LoadFailedNow(s, t), s.loading[t];
    var items := s.albums[g].items;
    var k := IndexOfTask(items, t);
    TaskAlbum(s, t);
    forall h, i | h in s.albums && 0 <= i < |s.albums[h].items| ensures ItemExplained(s', s.albums[h].items[i]) {
      assert AlbumExplained(s, h) && ItemExplained(s, s.albums[h].items[i]);
    }
    forall n | n in s'.failed ensures FailedFine(s', n) {
      assert FailedFine(s, n);
      if n in s.live && s.live[n] == g {
        WaitingStays(items, k, items[k], n);
      }
    }
    OthersExplained(s, s', g, {});
  }

  lemma FilledExplained(s: State, m: MsgId, media: Media)
    requires Inv(s) && Explained(s, {}) && m in s.uploading && m in s.live && UploadFinds(s, m) && m in s.taskOf
    ensures Explained(FilledNow(s, m, media), {s.live[m]})
  {
    hide Inv, Waiting;
    var s', g := FilledNow(s, m, media), s.live[m];
    var items := s.albums[g].items;
    var k := IndexOfMsg(items, m);
    PlaceUnsent(s, m);
    forall h, i | h in s.albums && 0 <= i < |s.albums[h].items| && !(h == g && i == k)
      ensures ItemExplained(s', s.albums[h].items[i])
    {
      assert AlbumExplained(s, h) && ItemExplained(s, s.albums[h].items[i]);
      PlacesApart(s, g, k, h, i);
    }
    forall n | n in s'.failed ensures FailedFine(s', n) {
      assert FailedFine(s, n);
      if n in s.live && s.live[n] == g {
        WaitingStays(items, k, s'.albums[g].items[k], n);
      }
    }
    OthersExplained(s, s', g, {g});
  }

  lemma WithdrawnExplained(s: State, m: MsgId)
    requires Inv(s) && Explained(s, {}) && m in s.live && CancelFinds(s, m) && m in s.taskOf && s.live[m] in s.albums
    ensures Explained(WithdrawnNow(s, m), {s.live[m]})
  {
    hide Inv, Waiting;
    var s', g := WithdrawnNow(s, m), s.live[m];
    var items := s.albums[g].items;
    var k := IndexOfMsg(items, m);
    forall h, i | h in s.albums && 0 <= i < |s.albums[h].items| ensures ItemExplained(s', s.albums[h].items[i]) {
      assert AlbumExplained(s, h) && ItemExplained(s, s.albums[h].items[i]);
    }
    assert AlbumExplained(s, g);
    forall n | n in s'.failed ensures FailedFine(s', n) {
      assert FailedFine(s, n);
      if n != m && n in s.live && s.live[n] == g {
        WaitingStays(items, k, items[k], n);
      }
    }
    OthersExplained(s, s', g, {g});
  }

  lemma DroppedExplained(s: State, m: MsgId)
    requires Inv(s) && Explained(s, {}) && m in s.live && m in s.taskOf
    ensures Explained(DroppedNow(s, m), {})
  {
    hide Inv, Waiting;
    var s' := DroppedNow(s, m);
    forall h, i | h in s.albums && 0 <= i < |s.albums[h].items| ensures ItemExplained(s', s.albums[h].items[i]) {
      assert AlbumExplained(s, h) && ItemExplained(s, s.albums[h].items[i]);
    }
    forall n | n in s'.failed ensures FailedFine(s', n) {
      assert FailedFine(s, n);
    }
    SameExplained(s, s');
  }

  lemma UploadGoneExplained(s: State, m: MsgId)
    requires Inv(s) && Explained(s, {}) && m in s.uploading && m !in s.live
    ensures Explained(s.(uploading := s.uploading - {m}), {})
  {
    hide Inv, Waiting;
    var s' := s.(uploading := s.uploading - {m});
    forall h, i | h in s.albums && 0 <= i < |s.albums[h].items| ensures ItemExplained(s', s.albums[h].items[i]) {
      assert AlbumExplained(s, h) && ItemExplained(s, s.albums[h].items[i]);
      ItemKnown(s, h, i);
    }
    forall n | n in s'.failed ensures FailedFine(s', n) {
      assert FailedFine(s, n);
    }
    SameExplained(s, s');
  }

  lemma UploadFailedExplained(s: State, m: MsgId)
    requires Inv(s) && Explained(s, {}) && m in s.uploading && m in s.taskOf && (m in s.live ==> UploadFinds(s, m))
    ensures Explained(UploadFailedNow(s, m), {})
  {
    hide Inv;
    var s' := UploadFailedNow(s, m);
    forall h, i | h in s.albums && 0 <= i < |s.albums[h].items| ensures ItemExplained(s', s.albums[h].items[i]) {
      assert AlbumExplained(s, h) && ItemExplained(s, s.albums[h].items[i]);
    }
    forall n | n in s'.failed ensures FailedFine(s', n) {
      assert n != m ==> FailedFine(s, n);
    }
    SameExplained(s, s');
  }

  lemma AnsweredExplained(s: State, g: GroupId)
    requires Inv(s) && Explained(s, {}) && g in s.awaiting
    ensures Explained(AnsweredNow(s, g), {})
  {
    hide Origins, NothingLost, TasksFine;
    var s' := AnsweredNow(s, g);
    forall h, i | h in s.albums && 0 <= i < |s.albums[h].items| ensures ItemExplained(s', s.albums[h].items[i]) {
      assert AlbumExplained(s, h) && ItemExplained(s, s.albums[h].items[i]);
    }
    assert SentOrGone(s, g) && (g in s.albums ==> AlbumFine(s, g) && AlbumExplained(s, g));
    forall n | n in s'.failed ensures FailedFine(s', n) {
      assert FailedFine(s, n);
    }
    assert g in s.origin && g !in s.albums ==> Over(s, g);
    assert g in s.origin ==> Over(s', g);
    OthersExplained(s, s', g, {});
  }

  // Looking at an album explains it: it is sent, gone with nothing left in it, or has a file that is not uploaded.
  lemma ReadyExplained(s: State, g: GroupId, ephemeral: bool)
    requires Inv(s) && g in s.albums && g !in s.unchecked && Explained(s, {g})
    ensures Explained(SentIfReady(s, g, ephemeral), {})
  {
    hide Inv, Waiting;
    var s', items := SentIfReady(s, g, ephemeral), s.albums[g].items;
    if s.albums[g].sent || (items != [] && !AllFilled(items)) {
      assert s' == s;
    } else {
      ReadyLeaves(s, g);
      if items != [] {
        ReadyGoes(s, g, ephemeral);
      }
      forall h, i | h in s.albums && 0 <= i < |s.albums[h].items| ensures ItemExplained(s', s.albums[h].items[i]) {
        assert AlbumExplained(s, h) && ItemExplained(s, s.albums[h].items[i]);
      }
      forall n | n in s'.failed ensures FailedFine(s', n) {
        assert FailedFine(s, n);
        assert n in s.live && s.live[n] == g ==> !Waiting(items, n);
      }
      OthersExplained(s, s', g, {});
    }
  }

  lemma ReadyLeaves(s: State, g: GroupId)
    requires Inv(s) && g in s.albums && AllFilled(s.albums[g].items)
    ensures forall n :: !Waiting(s.albums[g].items, n)
    ensures g in s.origin
    ensures if s.albums[g].items == [] then forall t :: t in s.origin[g] ==> t in s.dropped
            else SomeLive(s, s.albums[g].items)
  {
    hide Origins, NothingLost, TasksFine, DispatchesFine;
    assert AlbumFine(s, g);
    var items := s.albums[g].items;
    if items == [] {
      FilterIn(s.origin[g], s.dropped);
      assert TaskIds(items) == [];
    } else {
      assert ItemFine(s, g, items[0]);
    }
  }

  lemma ReadyGoes(s: State, g: GroupId, ephemeral: bool)
    requires g in s.albums && !s.albums[g].sent && s.albums[g].items != []
    requires AllFilled(s.albums[g].items) && SomeLive(s, s.albums[g].items)
    ensures var s' := SentIfReady(s, g, ephemeral);
            Went(s', g) && SentOrGone(s', g) && s.dispatched <= s'.dispatched
  {
    hide AllFilled, SomeLive;
    var s' := SentIfReady(s, g, ephemeral);
    assert s'.dispatched[|s.dispatched|].group == g;
  }

  lemma ExplainedKeeps(s: State, e: Event)
    requires Inv(s) && Explained(s, {}) && Possible(s, e)
    ensures Explained(Next(s, e), {})
  {
    hide Inv, Explained, Created, LoadedNow, LoadFailedNow, FilledNow, WithdrawnNow, DroppedNow, AnsweredNow;
    hide SentIfReady, UploadFailedNow;
    LookupsSucceed(s, e);
    match e
    case Create(g, tasks, paid) => CreatedExplained(s, g, tasks, paid);
    case Loaded(t, m) => LoadedExplained(s, t, m);
    case LoadFailed(t) => LoadFailedExplained(s, t);
    case Uploaded(m, media, ephemeral) =>
      if m in s.live {
        FilledKeeps(s, m, media);
        FilledExplained(s, m, media);
        ReadyExplained(FilledNow(s, m, media), s.live[m], ephemeral);
      } else {
        UploadGoneExplained(s, m);
      }
    case UploadFailed(m) =>
      UploadingKnown(s, m);
      UploadFailedExplained(s, m);
    case Cancel(m, ephemeral) =>
      if s.live[m] in s.albums {
        WithdrawnKeeps(s, m);
        WithdrawnExplained(s, m);
        ReadyExplained(WithdrawnNow(s, m), s.live[m], ephemeral);
      } else {
        DroppedExplained(s, m);
      }
    case Answered(g) => AnsweredExplained(s, g);
  }

  lemma UploadingKnown(s: State, m: MsgId)
    requires Inv(s) && m in s.uploading
    ensures m in s.taskOf && (m in s.live ==> UploadFinds(s, m))
  {
    hide Origins, TasksFine, DispatchesFine, AlbumFine, LiveFine, LoadFinds, UploadFinds;
    if m in s.live {
      UploadPlace(s, m);
    }
  }

  lemma {:induction false} ExplainedAlways(s: State, events: seq<Event>, last: State)
    requires Inv(s) && Explained(s, {}) && Reaches(s, events, last)
    ensures Inv(last) && Explained(last, {})
    decreases |events|
  {
    hide Inv, Next, Possible, Explained;
    if events != [] {
      NextKeeps(s, events[0]);
      ExplainedKeeps(s, events[0]);
      ExplainedAlways(Next(s, events[0]), events[1..], last);
    }
  }

  // One of the group's messages that still exist has failed to upload.
  ghost predicate FailedLeft(s: State, g: GroupId) { exists m :: m in s.failed && m in s.live && s.live[m] == g }

  // In every run, once no file is being read or uploaded and no answer is awaited: the albums still there are exactly
  // those that hold a failed upload and those that nothing looked at since they lost a file, or were made of none. They
  // were never sent, and of their files each is uploaded or has failed to. Of every other group, the album went out or
  // all the files have dropped out.
  lemma AtRest(events: seq<Event>, s: State, g: GroupId)
    requires Inv(INITIAL) && Reaches(INITIAL, events, s) && s.loading == map[] && s.uploading == {} && s.awaiting == {}
    ensures g in s.albums <==> FailedLeft(s, g) || g in s.unchecked
    ensures g in s.albums ==> Stuck(s, g) && g in s.origin && !Went(s, g)
    ensures g in s.albums ==> forall i :: 0 <= i < |s.albums[g].items| ==>
      var item := s.albums[g].items[i]; item.msgId.Some? && (item.media.Some? || item.msgId.value in s.failed)
    ensures g in s.origin && g !in s.albums ==> Went(s, g) || forall t :: t in s.origin[g] ==> t in s.dropped
  {
    hide Reaches, Inv, FailedFine;
    ExplainedAlways(INITIAL, events, s);
    if g in s.albums {
      assert AlbumExplained(s, g) && Checked(s, g);
      forall i | 0 <= i < |s.albums[g].items|
        ensures var item := s.albums[g].items[i];
                item.msgId.Some? && item.msgId.value in s.live && s.live[item.msgId.value] == g
      {
        ItemKnown(s, g, i);
      }
      NeverWent(s, g);
      if g !in s.unchecked {
        var i :| 0 <= i < |s.albums[g].items| && s.albums[g].items[i].media.None?;
        assert ItemExplained(s, s.albums[g].items[i]);
        var m := s.albums[g].items[i].msgId.value;
        assert m in s.failed && m in s.live && s.live[m] == g;
      }
    }
    forall m | m in s.failed && m in s.live ensures s.live[m] in s.albums {
      FailedThere(s, m);
    }
  }

  lemma FailedThere(s: State, m: MsgId)
    requires Explained(s, {}) && m in s.failed && m in s.live
    ensures s.live[m] in s.albums
  {
    assert FailedFine(s, m);
  }

  lemma NeverWent(s: State, g: GroupId)
    requires Inv(s) && g in s.albums && !s.albums[g].sent
    ensures g in s.origin && !Went(s, g)
  {
    hide Origins, NothingLost, TasksFine, DispatchFine;
    assert AlbumFine(s, g);
  }
  // How an album goes out, and what is left of it then.

  ghost predicate KindFine(d: Dispatch) {
    if d.ephemeral then d.kind == Ephemeral
    else if d.paid then d.kind == Paid
    else d.kind == if |d.medias| == 1 then Single else Multi
  }

  // An ephemeral or single send leaves nothing to wait for; the album of any other stays, marked, until it is answered.
  ghost predicate LeftFine(s: State, d: Dispatch) {
    if d.kind == Ephemeral || d.kind == Single then d.group !in s.albums && d.group !in s.awaiting
    else (d.group in s.albums <==> d.group in s.awaiting) && SentOrGone(s, d.group)
  }

  ghost predicate KindsFine(s: State) {
    forall i :: 0 <= i < |s.dispatched| ==>
      KindFine(s.dispatched[i]) && LeftFine(s, s.dispatched[i]) && s.dispatched[i].group in s.origin
  }

  // A step that sends nothing, and changes no album that was sent or is gone.
  lemma KindsStay(s: State, s': State)
    requires KindsFine(s) && s'.dispatched == s.dispatched && s'.awaiting == s.awaiting
    requires forall g :: g in s.origin ==> g in s'.origin && (g in s'.albums <==> g in s.albums)
                                           && (SentOrGone(s, g) ==> SentOrGone(s', g))
    ensures KindsFine(s')
  {
    hide KindFine;
    forall i | 0 <= i < |s'.dispatched| ensures LeftFine(s', s'.dispatched[i]) {
      assert LeftFine(s, s.dispatched[i]);
    }
  }

  lemma KindsAfterSending(s: State, g: GroupId, ephemeral: bool)
    requires Inv(s) && KindsFine(s) && g in s.albums && !s.albums[g].sent && s.albums[g].items != []
    requires AllFilled(s.albums[g].items) && g !in s.awaiting
    ensures KindsFine(Sent(s, g, ephemeral))
  {
    hide Inv, TaskIds;
    var s' := Sent(s, g, ephemeral);
    NeverWent(s, g);
    forall i | 0 <= i < |s'.dispatched|
      ensures KindFine(s'.dispatched[i]) && LeftFine(s', s'.dispatched[i]) && s'.dispatched[i].group in s'.origin
    {
      if i < |s.dispatched| {
        assert s.dispatched[i].group != g && LeftFine(s, s.dispatched[i]);
      }
    }
  }

  lemma KindsAfterTrying(s: State, g: GroupId, ephemeral: bool)
    requires Inv(s) && KindsFine(s) && g in s.albums && (g in s.awaiting ==> s.albums[g].sent)
    ensures KindsFine(SentIfReady(s, g, ephemeral))
  {
    hide Inv, KindFine, Sent, AllFilled, SomeLive;
    var s' := SentIfReady(s, g, ephemeral);
    if !s.albums[g].sent {
      NeverWent(s, g);
      if s.albums[g].items != [] && AllFilled(s.albums[g].items) && SomeLive(s, s.albums[g].items) {
        KindsAfterSending(s, g, ephemeral);
      } else {
        forall i | 0 <= i < |s'.dispatched| ensures LeftFine(s', s'.dispatched[i]) {
          assert s.dispatched[i].group != g && LeftFine(s, s.dispatched[i]);
        }
      }
    }
  }

  lemma AwaitedIsSent(s: State, g: GroupId)
    requires Inv(s) && g in s.awaiting
    ensures g in s.origin && SentOrGone(s, g)
  {
    hide Origins, NothingLost, TasksFine, DispatchFine;
  }

  lemma KindsKeep(s: State, e: Event)
    requires Inv(s) && KindsFine(s) && Possible(s, e)
    ensures KindsFine(Next(s, e))
  {
    hide Inv, KindsFine, SentIfReady, Distinct, NewTask;
    LookupsSucceed(s, e);
    match e
    case Create(g, tasks, paid) =>
      NewGroup(s, g);
      KindsStay(s, Created(s, g, tasks, paid));
    case Loaded(t, m) => KindsStay(s, LoadedNow(s, t, m));
    case LoadFailed(t) => KindsStay(s, LoadFailedNow(s, t));
    case Uploaded(m, media, ephemeral) =>
      if m in s.live {
        var s' := FilledNow(s, m, media);
        FilledKeeps(s, m, media);
        KindsStay(s, s');
        PlaceUnsent(s, m);
        if s.live[m] in s.awaiting {
          AwaitedIsSent(s, s.live[m]);
        }
        KindsAfterTrying(s', s.live[m], ephemeral);
      } else {
        KindsStay(s, s.(uploading := s.uploading - {m}));
      }
    case UploadFailed(m) => KindsStay(s, UploadFailedNow(s, m));
    case Cancel(m, ephemeral) =>
      if s.live[m] in s.albums {
        var s' := WithdrawnNow(s, m);
        WithdrawnKeeps(s, m);
        KindsStay(s, s');
        if s.live[m] in s.awaiting {
          AwaitedIsSent(s, s.live[m]);
        }
        KindsAfterTrying(s', s.live[m], ephemeral);
      } else {
        KindsStay(s, DroppedNow(s, m));
      }
    case Answered(g) => AnsweredKinds(s, g);
  }

  lemma AnsweredKinds(s: State, g: GroupId)
    requires KindsFine(s)
    ensures KindsFine(AnsweredNow(s, g))
  {
    hide KindFine;
    var s' := AnsweredNow(s, g);
    forall i | 0 <= i < |s'.dispatched| ensures LeftFine(s', s'.dispatched[i]) {
      assert LeftFine(s, s.dispatched[i]);
    }
  }

  lemma {:induction false} KindsAlways(s: State, events: seq<Event>, last: State)
    requires Inv(s) && KindsFine(s) && Reaches(s, events, last)
    ensures KindsFine(last)
    decreases |events|
  {
    hide Inv, Next, Possible, KindsFine;
    if events != [] {
      NextKeeps(s, events[0]);
      KindsKeep(s, events[0]);
      KindsAlways(Next(s, events[0]), events[1..], last);
    }
  }

  // In every run: an ephemeral send goes to the ephemeral messages; of the others, a paid album goes out as paid, and
  // else as a single media exactly if it has one, or as a group. The first and the third leave no album and no answer
  // to come; the others' album stays, marked as sent, exactly until it is answered.
  lemma SentAsItIs(events: seq<Event>, s: State, i: nat)
    requires Inv(INITIAL) && Reaches(INITIAL, events, s) && i < |s.dispatched|
    ensures var d := s.dispatched[i];
      && (d.kind == Ephemeral <==> d.ephemeral)
      && (d.kind == Paid <==> !d.ephemeral && d.paid)
      && (d.kind == Single <==> !d.ephemeral && !d.paid && |d.medias| == 1)
      && (d.kind == Multi <==> !d.ephemeral && !d.paid && |d.medias| >= 2)
    ensures var d := s.dispatched[i];
      if d.kind == Ephemeral || d.kind == Single then d.group !in s.albums && d.group !in s.awaiting
      else (d.group in s.albums <==> d.group in s.awaiting) && (d.group in s.albums ==> s.albums[d.group].sent)
  {
    hide Inv, Reaches;
    KindsAlways(INITIAL, events, s);
    DispatchedWhole(events, s, i);
  }

  // The records are those of the events: what was chosen, which file a message is for, what dropped out, and what each
  // upload brought.
  lemma RecordsTell(s: State, e: Event)
    requires Inv(s) && Possible(s, e)
    ensures var s' := Next(s, e);
      && s'.origin == (if e.Create? then s.origin[e.group := e.tasks] else s.origin)
      && s'.taskOf == (if e.Loaded? then s.taskOf[e.msg := e.task] else s.taskOf)
      && s'.failed == (if e.UploadFailed? then s.failed + {e.msg} else s.failed)
      && s'.uploading == (if e.Loaded? then s.uploading + {e.msg}
                          else if e.Uploaded? || e.UploadFailed? then s.uploading - {e.msg} else s.uploading)
      && s'.loading.Keys == (if e.Create? then s.loading.Keys + set t | t in e.tasks
                             else if e.Loaded? || e.LoadFailed? then s.loading.Keys - {e.task} else s.loading.Keys)
      && (e.Cancel? ==> e.msg in s.taskOf && s'.dropped == s.dropped + {s.taskOf[e.msg]})
      && (!e.Cancel? ==> s'.dropped == if e.LoadFailed? then s.dropped + {e.task} else s.dropped)
      && (e.Uploaded? && e.msg in s.live ==>
            e.msg in s.taskOf && s'.brought == s.brought[s.taskOf[e.msg] := e.media])
      && (!e.Uploaded? || e.msg !in s.live ==> s'.brought == s.brought)
  {
    hide Inv, SentIfReady;
    LookupsSucceed(s, e);
    match e
    case Create(_, _, _) =>
    case Loaded(_, _) =>
    case LoadFailed(_) =>
    case Uploaded(m, media, ephemeral) =>
      if m in s.live {
        ReadyRecords(FilledNow(s, m, media), s.live[m], ephemeral);
      }
    case UploadFailed(_) =>
    case Cancel(m, ephemeral) =>
      if s.live[m] in s.albums {
        ReadyRecords(WithdrawnNow(s, m), s.live[m], ephemeral);
      }
    case Answered(_) =>
  }

  lemma SentRecords(s: State, g: GroupId, ephemeral: bool)
    requires g in s.albums && AllFilled(s.albums[g].items)
    ensures var s' := Sent(s, g, ephemeral);
            s' == s.(albums := s'.albums, dispatched := s'.dispatched, awaiting := s'.awaiting)
  {
    hide AllFilled, Medias, TaskIds, KindOf;
  }

  lemma ReadyRecords(s: State, g: GroupId, ephemeral: bool)
    requires g in s.albums
    ensures var s' := SentIfReady(s, g, ephemeral);
            s' == s.(albums := s'.albums, dispatched := s'.dispatched, awaiting := s'.awaiting)
  {
    hide AllFilled, SomeLive, Sent;
    if AllFilled(s.albums[g].items) {
      SentRecords(s, g, ephemeral);
    }
  }

  // Only an upload that ends well, or a cancelled one, sends anything: the album of that message, paid for or not as it
  // was made, in the way that event asks for.
  ghost predicate SentBy(s: State, e: Event, d: Dispatch) {
    && (e.Uploaded? || e.Cancel?) && e.msg in s.live && d.group == s.live[e.msg] && d.ephemeral == e.ephemeral
    && d.group in s.albums && d.paid == s.albums[d.group].paid
  }

  // What trying to send the album `g` may do.
  ghost predicate Tried(s: State, s': State, g: GroupId, ephemeral: bool)
    requires g in s.albums
  {
    && s.awaiting <= s'.awaiting <= s.awaiting + {g}
    && if s'.dispatched == s.dispatched then s'.awaiting == s.awaiting
       else
         && |s'.dispatched| == |s.dispatched| + 1 && s.dispatched <= s'.dispatched
         && var d := s'.dispatched[|s.dispatched|];
            d.group == g && d.ephemeral == ephemeral && d.paid == s.albums[g].paid
  }

  lemma SentOnce(s: State, g: GroupId, ephemeral: bool)
    requires g in s.albums && AllFilled(s.albums[g].items)
    ensures Tried(s, Sent(s, g, ephemeral), g, ephemeral)
  {
    hide AllFilled, Medias, TaskIds, KindOf;
  }

  lemma SentPaid(s: State, g: GroupId, ephemeral: bool, h: GroupId)
    requires g in s.albums && AllFilled(s.albums[g].items)
    ensures var s' := Sent(s, g, ephemeral);
            h in s'.albums ==> h in s.albums && s'.albums[h].paid == s.albums[h].paid
  {
    hide AllFilled, Medias, TaskIds, KindOf;
  }

  lemma ReadySends(s: State, g: GroupId, ephemeral: bool, h: GroupId)
    requires g in s.albums
    ensures var s' := SentIfReady(s, g, ephemeral);
            Tried(s, s', g, ephemeral) && (h in s'.albums ==> h in s.albums && s'.albums[h].paid == s.albums[h].paid)
  {
    hide AllFilled, SomeLive, Sent;
    if AllFilled(s.albums[g].items) {
      SentOnce(s, g, ephemeral);
      SentPaid(s, g, ephemeral, h);
    }
  }

  lemma SendsAs(s: State, e: Event, g: GroupId)
    requires Inv(s) && Possible(s, e)
    ensures var s' := Next(s, e);
      && (s'.dispatched != s.dispatched ==>
            && |s'.dispatched| == |s.dispatched| + 1 && s.dispatched <= s'.dispatched
            && SentBy(s, e, s'.dispatched[|s.dispatched|]))
      && (g in s'.awaiting && g !in s.awaiting ==>
            |s'.dispatched| > |s.dispatched| && s'.dispatched[|s.dispatched|].group == g)
      && (g in s.awaiting && g !in s'.awaiting ==> e == Answered(g))
  {
    hide Inv, SentIfReady, Created;
    LookupsSucceed(s, e);
    if e.Uploaded? && e.msg in s.live {
      ReadySends(FilledNow(s, e.msg, e.media), s.live[e.msg], e.ephemeral, g);
    } else if e.Cancel? && s.live[e.msg] in s.albums {
      ReadySends(WithdrawnNow(s, e.msg), s.live[e.msg], e.ephemeral, g);
    } else if e.Create? {
      CreatedOnly(s, e.group, e.tasks, e.paid);
    }
  }

  lemma CreatedOnly(s: State, g: GroupId, tasks: seq<TaskId>, paid: bool)
    ensures var s' := Created(s, g, tasks, paid);
      && s'.dispatched == s.dispatched && s'.awaiting == s.awaiting && g in s'.albums && s'.albums[g].paid == paid
      && forall h :: h != g && h in s'.albums ==> h in s.albums && s'.albums[h].paid == s.albums[h].paid
  {
  }

  // Whether an album is paid for is decided when it is made.
  lemma PaidAsMade(s: State, e: Event, g: GroupId)
    requires Inv(s) && Possible(s, e) && g in Next(s, e).albums
    ensures if e.Create? && e.group == g then Next(s, e).albums[g].paid == e.paid
            else g in s.albums && Next(s, e).albums[g].paid == s.albums[g].paid
  {
    hide Inv, SentIfReady, Created;
    LookupsSucceed(s, e);
    if e.Uploaded? && e.msg in s.live {
      ReadySends(FilledNow(s, e.msg, e.media), s.live[e.msg], e.ephemeral, g);
    } else if e.Cancel? && s.live[e.msg] in s.albums {
      ReadySends(WithdrawnNow(s, e.msg), s.live[e.msg], e.ephemeral, g);
    } else if e.Create? {
      CreatedOnly(s, e.group, e.tasks, e.paid);
    }
  }

  lemma UnloadedHere(s: State, t: TaskId)
    requires Inv(s) && LoadFinds(s, t)
    ensures s.albums[s.loading[t]].items[IndexOfTask(s.albums[s.loading[t]].items, t)].media.None?
  {
    hide Origins, DispatchesFine, NothingLost;
    UnloadedUnsent(s, s.loading[t], IndexOfTask(s.albums[s.loading[t]].items, t), t);
  }

  lemma NothingReady(s: State, g: GroupId, ephemeral: bool, i: nat)
    requires g in s.albums && i < |s.albums[g].items| && s.albums[g].items[i].media.None?
    ensures SentIfReady(s, g, ephemeral) == s
  {
  }

  // Two files, of which the first gets read and uploaded. Then the second turns out to be unreadable, or it is read
  // too but its upload fails.
  const TWO_FILES := Create(1, [10, 11], false)
  const FIRST_LOADED := Loaded(10, 100)
  function FirstUploaded(media: Media): Event { Uploaded(100, media, false) }
  const SECOND_UNREADABLE := LoadFailed(11)
  const SECOND_LOADED := Loaded(11, 101)
  const SECOND_FAILED := UploadFailed(101)

  function TwoFiles(first: Item): State {
    State(map[1 := Album([first, Item(11, None, None)], false, false)], map[], map[10 := 1, 11 := 1], {}, {}, [],
          map[1 := [10, 11]], {}, map[], map[], {}, {})
  }

  function OneRead(media: Option<Media>): State {
    TwoFiles(Item(10, Some(100), media)).(
      live := map[100 := 1], loading := map[11 := 1], uploading := if media.None? then {100} else {},
      brought := if media.None? then map[] else map[10 := media.value], taskOf := map[100 := 10])
  }

  function BothRead(media: Media): State {
    OneRead(Some(media)).(
      albums := map[1 := Album([Item(10, Some(100), Some(media)), Item(11, Some(101), None)], false, false)],
      live := map[100 := 1, 101 := 1], loading := map[], uploading := {101}, taskOf := map[100 := 10, 101 := 11])
  }

  lemma FilesChosen()
    requires Inv(INITIAL)
    ensures Possible(INITIAL, TWO_FILES) && Next(INITIAL, TWO_FILES) == TwoFiles(Item(10, None, None))
  {
    hide Inv;
    var s := Next(INITIAL, TWO_FILES);
    assert s.albums[1].items == [Item(10, None, None), Item(11, None, None)];
    assert s.loading == map[10 := 1, 11 := 1];
  }

  lemma FirstLoads(s: State)
    requires Inv(s) && s == TwoFiles(Item(10, None, None))
    ensures Possible(s, FIRST_LOADED) && Next(s, FIRST_LOADED) == OneRead(None)
  {
    hide Inv;
    LookupsSucceed(s, FIRST_LOADED);
    assert IndexOfTask(s.albums[1].items, 10) == 0;
    var s' := LoadedNow(s, 10, 100);
    assert s'.albums[1].items == OneRead(None).albums[1].items;
    assert s'.loading == map[11 := 1] && s'.albums == OneRead(None).albums;
  }

  lemma FirstUploads(s: State, media: Media)
    requires Inv(s) && s == OneRead(None)
    ensures Possible(s, FirstUploaded(media)) && Next(s, FirstUploaded(media)) == OneRead(Some(media))
  {
    hide Inv, SentIfReady;
    LookupsSucceed(s, FirstUploaded(media));
    assert IndexOfMsg(s.albums[1].items, 100) == 0;
    var filled := FilledNow(s, 100, media);
    assert filled.albums[1].items == OneRead(Some(media)).albums[1].items;
    assert filled.albums == OneRead(Some(media)).albums;
    assert filled == OneRead(Some(media));
    NothingReady(filled, 1, false, 1);
  }

  lemma FirstDone(media: Media)
    ensures Inv(INITIAL) && Inv(OneRead(Some(media)))
    ensures Reaches(INITIAL, [TWO_FILES, FIRST_LOADED, FirstUploaded(media)], OneRead(Some(media)))
  {
    hide Inv, Next, Possible, Reaches, TwoFiles, OneRead;
    InitialFine();
    FilesChosen();
    NextKeeps(INITIAL, TWO_FILES);
    var s0 := Next(INITIAL, TWO_FILES);
    FirstLoads(s0);
    NextKeeps(s0, FIRST_LOADED);
    var s1 := Next(s0, FIRST_LOADED);
    FirstUploads(s1, media);
    NextKeeps(s1, FirstUploaded(media));
    var s2 := Next(s1, FirstUploaded(media));
    ReachesNow(INITIAL);
    ReachesThen(INITIAL, [], INITIAL, TWO_FILES);
    assert [] + [TWO_FILES] == [TWO_FILES];
    ReachesThen(INITIAL, [TWO_FILES], s0, FIRST_LOADED);
    assert [TWO_FILES] + [FIRST_LOADED] == [TWO_FILES, FIRST_LOADED];
    ReachesThen(INITIAL, [TWO_FILES, FIRST_LOADED], s1, FirstUploaded(media));
    assert [TWO_FILES, FIRST_LOADED] + [FirstUploaded(media)] == [TWO_FILES, FIRST_LOADED, FirstUploaded(media)];
  }

  lemma ReachesNow(s: State)
    requires Inv(s)
    ensures Reaches(s, [], s)
  {
  }

  lemma {:induction false} ReachesThen(s: State, events: seq<Event>, mid: State, e: Event)
    requires Inv(s) && Reaches(s, events, mid) && Inv(mid) && Possible(mid, e)
    ensures Reaches(s, events + [e], Next(mid, e))
    decreases |events|
  {
    hide Inv, Next, Possible;
    NextKeeps(mid, e);
    if events == [] {
      assert (events + [e])[1..] == [] && (events + [e])[0] == e;
      ReachesNow(Next(mid, e));
    } else {
      NextKeeps(s, events[0]);
      ReachesThen(Next(s, events[0]), events[1..], mid, e);
      assert (events + [e])[1..] == events[1..] + [e] && (events + [e])[0] == events[0];
    }
  }

  lemma SecondUnreadable(s: State, media: Media)
    requires Inv(s) && s == OneRead(Some(media))
    ensures Possible(s, SECOND_UNREADABLE)
    ensures var last := Next(s, SECOND_UNREADABLE);
      && last.albums == map[1 := Album([Item(10, Some(100), Some(media))], false, false)]
      && last.loading == map[] && last.uploading == {} && last.awaiting == {} && last.dispatched == []
  {
    hide Inv;
    LookupsSucceed(s, SECOND_UNREADABLE);
    assert IndexOfTask(s.albums[1].items, 11) == 1;
    var last := LoadFailedNow(s, 11);
    assert last.albums[1].items == [Item(10, Some(100), Some(media))];
  }

  // After that nothing is under way any more, and the file that was uploaded has not been sent.
  lemma StuckRun(media: Media) returns (s: State)
    ensures Inv(INITIAL)
    ensures Reaches(INITIAL, [TWO_FILES, FIRST_LOADED, FirstUploaded(media), SECOND_UNREADABLE], s)
    ensures 1 in s.albums && Stuck(s, 1) && s.albums[1].items == [Item(10, Some(100), Some(media))]
    ensures s.loading == map[] && s.uploading == {} && s.awaiting == {} && s.dispatched == []
  {
    hide Inv, Next, Possible, Reaches, TwoFiles, OneRead;
    var before := [TWO_FILES, FIRST_LOADED, FirstUploaded(media)];
    FirstDone(media);
    SecondUnreadable(OneRead(Some(media)), media);
    s := Next(OneRead(Some(media)), SECOND_UNREADABLE);
    ReachesThen(INITIAL, before, OneRead(Some(media)), SECOND_UNREADABLE);
    assert before + [SECOND_UNREADABLE] == [TWO_FILES, FIRST_LOADED, FirstUploaded(media), SECOND_UNREADABLE];
  }

  lemma SecondLoads(s: State, media: Media)
    requires Inv(s) && s == OneRead(Some(media))
    ensures Possible(s, SECOND_LOADED) && Next(s, SECOND_LOADED) == BothRead(media)
  {
    hide Inv;
    LookupsSucceed(s, SECOND_LOADED);
    assert IndexOfTask(s.albums[1].items, 11) == 1;
    var s' := LoadedNow(s, 11, 101);
    assert s'.albums[1].items == BothRead(media).albums[1].items;
    assert s'.loading == map[] && s'.albums == BothRead(media).albums;
  }

  lemma SecondFails(s: State, media: Media)
    requires Inv(s) && s == BothRead(media)
    ensures Possible(s, SECOND_FAILED)
    ensures var last := Next(s, SECOND_FAILED);
      && last.albums == BothRead(media).albums
      && last.loading == map[] && last.uploading == {} && last.awaiting == {} && last.dispatched == []
  {
    hide Inv;
    assert s.uploading - {101} == {};
  }

  // The same way if the second file is read but not uploaded.
  lemma FailedRun(media: Media) returns (s: State)
    ensures Inv(INITIAL)
    ensures Reaches(INITIAL, [TWO_FILES, FIRST_LOADED, FirstUploaded(media), SECOND_LOADED, SECOND_FAILED], s)
    ensures 1 in s.albums && Stuck(s, 1)
    ensures s.albums[1].items == [Item(10, Some(100), Some(media)), Item(11, Some(101), None)]
    ensures s.loading == map[] && s.uploading == {} && s.awaiting == {} && s.dispatched == []
  {
    hide Inv, Next, Possible, Reaches, OneRead;
    var before := [TWO_FILES, FIRST_LOADED, FirstUploaded(media)];
    FirstDone(media);
    SecondLoads(OneRead(Some(media)), media);
    NextKeeps(OneRead(Some(media)), SECOND_LOADED);
    SecondFails(BothRead(media), media);
    s := Next(BothRead(media), SECOND_FAILED);
    ReachesThen(INITIAL, before, OneRead(Some(media)), SECOND_LOADED);
    ReachesThen(INITIAL, before + [SECOND_LOADED], BothRead(media), SECOND_FAILED);
    assert before + [SECOND_LOADED] + [SECOND_FAILED]
        == [TWO_FILES, FIRST_LOADED, FirstUploaded(media), SECOND_LOADED, SECOND_FAILED];
  }
}

/** The part of ApiWrap that assembles albums. */
module AlbumApi {
  import opened Options
  import opened AlbumSpec

  method FindByMsg(items: seq<Item>, m: MsgId) returns (k: nat)
    ensures k == IndexOfMsg(items, m)
  {
    k := 0;
    while k < |items| && items[k].msgId != Some(m)
      invariant k <= |items| && forall i :: 0 <= i < k ==> items[i].msgId != Some(m)
    {
      k := k + 1;
    }
  }

  method FindByTask(items: seq<Item>, t: TaskId) returns (k: nat)
    ensures k == IndexOfTask(items, t)
  {
    k := 0;
    while k < |items| && items[k].taskId != t
      invariant k <= |items| && forall i :: 0 <= i < k ==> items[i].taskId != t
    {
      k := k + 1;
    }
  }

  class ApiWrap {
    var albums: map<GroupId, Album>
    var live: map<MsgId, GroupId>
    var loading: map<TaskId, GroupId>
    var uploading: set<MsgId>
    var awaiting: set<GroupId>
    var dispatched: seq<Dispatch>
    var dropped: set<TaskId>
    ghost var origin: map<GroupId, seq<TaskId>>
    ghost var brought: map<TaskId, Media>
    var taskOf: map<MsgId, TaskId>
    ghost var unchecked: set<GroupId>
    ghost var failed: set<MsgId>

    constructor ()
      ensures Now() == INITIAL && Inv(Now())
    {
      albums, live, loading, uploading, awaiting, dispatched := map[], map[], map[], {}, {}, [];
      dropped, origin, brought, taskOf, unchecked, failed := {}, map[], map[], map[], {}, {};
      new;
      InitialFine();
    }

    ghost function Now(): State
      reads this
    {
      State(albums, live, loading, uploading, awaiting, dispatched, origin, dropped, brought, taskOf, unchecked, failed)
    }

    method Send(group: GroupId, kind: Kind, medias: seq<Media>, ephemeral: bool)
      requires group in albums
      modifies this`dispatched
      ensures var album := albums[group];
        dispatched == old(dispatched) +
          [Dispatch(group, kind, TaskIds(album.items), medias, dropped, album.paid, ephemeral)]
    {
      var album := albums[group];
      dispatched := dispatched +
        [Dispatch(group, kind, TaskIds(album.items), medias, dropped, album.paid, ephemeral)];
    }

    method SendAlbumIfReady(group: GroupId, ephemeral: bool)
      requires group in albums
      modifies this
      ensures Now() == SentIfReady(old(Now()), group, ephemeral)
    {
      hide TaskIds;
      var album := albums[group];
      if album.sent {
        return;
      } else if album.items == [] {
        albums := albums - {group};
        return;
      }
      var sample, medias := false, [];
      for i := 0 to |album.items|
        invariant |medias| == i
        invariant forall k :: 0 <= k < i ==> album.items[k].media == Some(medias[k])
        invariant sample <==>
          exists k :: 0 <= k < i && album.items[k].msgId.Some? && album.items[k].msgId.value in live
      {
        var item := album.items[i];
        if item.media.None? {
          return;
        } else if !sample {
          sample := item.msgId.Some? && item.msgId.value in live;
        }
        medias := medias + [item.media.value];
      }
      assert AllFilled(album.items) && medias == Medias(album.items);
      if !sample {
        albums := albums - {group};
      } else if ephemeral {
        Send(group, Ephemeral, medias, ephemeral);
        albums := albums - {group};
      } else if album.paid {
        Send(group, Paid, medias, ephemeral);
        albums, awaiting := albums[group := album.(sent := true)], awaiting + {group};
      } else if |medias| < 2 {
        Send(group, Single, medias, ephemeral);
        albums := albums - {group};
      } else {
        Send(group, Multi, medias, ephemeral);
        albums, awaiting := albums[group := album.(sent := true)], awaiting + {group};
      }
    }

    method SendFiles(group: GroupId, tasks: seq<TaskId>, paid: bool)
      requires Inv(Now()) && Possible(Now(), Create(group, tasks, paid))
      modifies this
      ensures Now() == Created(old(Now()), group, tasks, paid) && Inv(Now())
    {
      hide Inv, Possible;
      CreatedKeeps(Now(), group, tasks, paid);
      var items := [];
      for i := 0 to |tasks|
        invariant items == seq(i, k requires 0 <= k < i => Item(tasks[k], None, None))
      {
        items := items + [Item(tasks[i], None, None)];
      }
      albums := albums[group := Album(items, false, paid)];
      origin := origin[group := tasks];
      loading := loading + map t | t in tasks :: group;
      unchecked := if tasks == [] then unchecked + {group} else unchecked;
    }

    // The message of a file that has been read joins its album.
    method SendConfirmedFile(task: TaskId, msg: MsgId)
      requires Inv(Now()) && Possible(Now(), Loaded(task, msg))
      modifies this
      ensures LoadFinds(old(Now()), task) && Now() == LoadedNow(old(Now()), task, msg) && Inv(Now())
    {
      hide Inv;
      LookupsSucceed(Now(), Loaded(task, msg));
      LoadedKeeps(Now(), task, msg);
      var group := loading[task];
      var album := albums[group];
      var k := FindByTask(album.items, task);
      albums := albums[group := album.(items := album.items[k := album.items[k].(msgId := Some(msg))])];
      loading, live := loading - {task}, live[msg := group];
      uploading, taskOf := uploading + {msg}, taskOf[msg := task];
    }

    method RemoveFromAlbum(task: TaskId)
      requires Inv(Now()) && Possible(Now(), LoadFailed(task))
      modifies this
      ensures LoadFinds(old(Now()), task) && Now() == LoadFailedNow(old(Now()), task) && Inv(Now())
    {
      hide Inv;
      LookupsSucceed(Now(), LoadFailed(task));
      LoadFailedKeeps(Now(), task);
      var group := loading[task];
      var album := albums[group];
      var k := FindByTask(album.items, task);
      albums := albums[group := album.(items := RemoveAt(album.items, k))];
      loading, dropped, unchecked := loading - {task}, dropped + {task}, unchecked + {group};
    }

    method UploadAlbumMediaDone(msg: MsgId, media: Media, ephemeral: bool)
      requires Inv(Now()) && Possible(Now(), Uploaded(msg, media, ephemeral))
      modifies this
      ensures Now() == Next(old(Now()), Uploaded(msg, media, ephemeral)) && Inv(Now())
    {
      hide Inv, SentIfReady;
      LookupsSucceed(Now(), Uploaded(msg, media, ephemeral));
      NextKeeps(Now(), Uploaded(msg, media, ephemeral));
      if msg in live {
        SendAlbumWithUploaded(msg, media, ephemeral);
      } else {
        uploading := uploading - {msg};
      }
    }

    // A failed upload is reported, but nothing looks at the album then.
    method UploadAlbumMediaFailed(msg: MsgId)
      requires Inv(Now()) && Possible(Now(), UploadFailed(msg))
      modifies this
      ensures Now() == UploadFailedNow(old(Now()), msg) && Inv(Now())
    {
      hide Inv;
      UploadEndedKeeps(Now(), msg, UploadFailedNow(Now(), msg));
      uploading, failed := uploading - {msg}, failed + {msg};
    }

    method SendAlbumWithUploaded(msg: MsgId, media: Media, ephemeral: bool)
      requires UploadFinds(Now(), msg) && msg in taskOf
      modifies this
      ensures Now() == UploadedNow(old(Now()), msg, media, ephemeral)
    {
      hide SentIfReady;
      var group := live[msg];
      var album := albums[group];
      var k := FindByMsg(album.items, msg);
      albums := albums[group := album.(items := album.items[k := album.items[k].(media := Some(media))])];
      uploading, brought, unchecked := uploading - {msg}, brought[taskOf[msg] := media], unchecked - {group};
      SendAlbumIfReady(group, ephemeral);
    }

    method SendAlbumWithCancelled(msg: MsgId, ephemeral: bool)
      requires Inv(Now()) && Possible(Now(), Cancel(msg, ephemeral))
      modifies this
      ensures Now() == Next(old(Now()), Cancel(msg, ephemeral)) && Inv(Now())
    {
      hide Inv, SentIfReady;
      LookupsSucceed(Now(), Cancel(msg, ephemeral));
      NextKeeps(Now(), Cancel(msg, ephemeral));
      var group := live[msg];
      live, dropped := live - {msg}, dropped + {taskOf[msg]};
      if group !in albums {
        return;
      }
      var album := albums[group];
      var k := FindByMsg(album.items, msg);
      albums, unchecked := albums[group := album.(items := RemoveAt(album.items, k))], unchecked - {group};
      SendAlbumIfReady(group, ephemeral);
    }

    method AlbumAnswered(group: GroupId)
      requires Inv(Now()) && Possible(Now(), Answered(group))
      modifies this
      ensures Now() == AnsweredNow(old(Now()), group) && Inv(Now())
    {
      hide Inv;
      AnsweredKeeps(Now(), group);
      albums, awaiting := albums - {group}, awaiting - {group};
    }
  }
}
