/** Coalesced message requests: the tables, one step at a time, and what every run of steps keeps. */
module MessageDataSpec {
  import opened Options

  type MsgId = int
  type Callback = int
  type RequestId = nat // 0: not requested yet

  // The messages outside channels have a table of their own, which is always there.
  datatype Target = Main | Channel(id: int)

  datatype Entry = Entry(id: MsgId, requestId: RequestId, callbacks: seq<Callback>)

  // A sorted vector, as `base::flat_map` is.
  type Table = seq<Entry>

  datatype Sent = Sent(target: Target, ids: seq<MsgId>)

  datatype State = State(
    tables: map<Target, Table>,
    scheduled: bool,             // the delayed resolve is queued
    inFlight: map<RequestId, Sent>,
    nextId: RequestId,
    given: seq<Callback>,        // every callback ever passed in
    calling: seq<Callback>,      // taken out of a table, about to be called
    ran: seq<Callback>)

  const INITIAL := State(map[Main := []], false, map[], 1, [], [], [])

  function CallbackList(done: Option<Callback>): seq<Callback> { if done.Some? then [done.value] else [] }

  // `requests[id]`, creating the entry if needed, then `push_back` of the callback.
  function Touch(t: Table, id: MsgId, done: Option<Callback>): Table {
    if t == [] || id < t[0].id then [Entry(id, 0, CallbackList(done))] + t
    else if id == t[0].id then [t[0].(callbacks := t[0].callbacks + CallbackList(done))] + t[1..]
    else [t[0]] + Touch(t[1..], id, done)
  }

  predicate Tagged(t: Table, id: MsgId) { exists i :: 0 <= i < |t| && t[i].id == id && t[i].requestId != 0 }

  function TagAll(t: Table, r: RequestId): (t': Table)
    ensures |t'| == |t|
  {
    if t == [] then [] else [if t[0].requestId == 0 then t[0].(requestId := r) else t[0]] + TagAll(t[1..], r)
  }

  // The entries that wait for request `r` (or, for 0, are not requested yet): their ids, their callbacks, and the
  // table without them.

  function IdsOf(t: Table, r: RequestId): seq<MsgId> {
    if t == [] then [] else (if t[0].requestId == r then [t[0].id] else []) + IdsOf(t[1..], r)
  }

  function Taken(t: Table, r: RequestId): seq<Callback> {
    if t == [] then [] else (if t[0].requestId == r then t[0].callbacks else []) + Taken(t[1..], r)
  }

  function Without(t: Table, r: RequestId): Table {
    if t == [] then [] else (if t[0].requestId == r then [] else [t[0]]) + Without(t[1..], r)
  }

  function TableOf(s: State, target: Target): Table {
    if target in s.tables then s.tables[target] else []
  }

  // requestMessageData

  function Requested(s: State, target: Target, id: MsgId, done: Option<Callback>): State {
    s.(tables := s.tables[target := Touch(TableOf(s, target), id, done)],
       scheduled := s.scheduled || !Tagged(TableOf(s, target), id),
       given := s.given + CallbackList(done))
  }

  // resolveMessageDatas, one table after another

  function ResolvedOne(s: State, target: Target): State
    requires target in s.tables
  {
    var t := s.tables[target];
    if t == [] && target != Main then s.(tables := s.tables - {target})
    else if IdsOf(t, 0) == [] then s
    else s.(tables := s.tables[target := TagAll(t, s.nextId)],
            inFlight := s.inFlight[s.nextId := Sent(target, IdsOf(t, 0))],
            nextId := s.nextId + 1)
  }

  // A listing of the tables, each once.
  ghost predicate Lists(order: seq<Target>, tables: map<Target, Table>) {
    && (forall i :: 0 <= i < |order| ==> order[i] in tables)
    && (forall i, j :: 0 <= i < j < |order| ==> order[i] != order[j])
  }

  ghost function ResolvedAll(s: State, order: seq<Target>): State
    requires Lists(order, s.tables)
    decreases |order|
  {
    if order == [] then s else
      assert Lists(order[1..], ResolvedOne(s, order[0]).tables);
      ResolvedAll(ResolvedOne(s, order[0]), order[1..])
  }

  // finalizeMessageDataRequest, for a reply and for a failure alike

  function Finalized(s: State, r: RequestId): State
    requires r in s.inFlight
  {
    var target := s.inFlight[r].target;
    var t := TableOf(s, target);
    var left := Without(t, r);
    s.(tables := if target !in s.tables then s.tables
                 else if left == [] && target != Main then s.tables - {target}
                 else s.tables[target := left],
       inFlight := s.inFlight - {r},
       calling := s.calling + Taken(t, r))
  }

  datatype Event =
    | Request(target: Target, id: MsgId, done: Option<Callback>)
    | Resolve(order: seq<Target>)
    | Finalize(request: RequestId)
    | Call

  ghost predicate Enabled(s: State, e: Event) {
    match e
    case Request(_, _, _) => true
    case Resolve(order) => s.scheduled && Lists(order, s.tables) && forall t :: t in s.tables ==> t in order
    case Finalize(r) => r in s.inFlight
    case Call => s.calling != []
  }

  ghost function Next(s: State, e: Event): State
    requires Enabled(s, e)
  {
    match e
    case Request(target, id, done) => Requested(s, target, id, done)
    case Resolve(order) => ResolvedAll(s.(scheduled := false), order)
    case Finalize(r) => Finalized(s, r)
    case Call => s.(calling := s.calling[1..], ran := s.ran + [s.calling[0]])
  }

  // A run: some events, each possible when its turn comes.
  ghost predicate Run(s: State, events: seq<Event>)
    decreases |events|
  {
    events == [] || (Enabled(s, events[0]) && Run(Next(s, events[0]), events[1..]))
  }

  ghost function After(s: State, events: seq<Event>): State
    requires Run(s, events)
    decreases |events|
  {
    if events == [] then s else After(Next(s, events[0]), events[1..])
  }

  // Callbacks still held by the tables.

  function HeldBy(t: Table): multiset<Callback> {
    if t == [] then multiset{} else multiset(t[0].callbacks) + HeldBy(t[1..])
  }

  ghost function Held(m: map<Target, Table>): multiset<Callback> {
    if m == map[] then multiset{} else
      var k :| k in m;
      HeldBy(m[k]) + Held(m - {k})
  }

  lemma HeldSplit(m: map<Target, Table>) returns (j: Target)
    requires m != map[]
    ensures j in m && Held(m) == HeldBy(m[j]) + Held(m - {j})
  {
    hide HeldBy;
    j :| j in m && Held(m) == HeldBy(m[j]) + Held(m - {j});
  }

  lemma {:induction false} HeldPick(m: map<Target, Table>, k: Target)
    requires k in m
    ensures Held(m) == HeldBy(m[k]) + Held(m - {k})
    decreases |m|
  {
    hide HeldBy, Held;
    var j := HeldSplit(m);
    if j != k {
      HeldPick(m - {j}, k);
      HeldPick(m - {k}, j);
      assert m - {j} - {k} == m - {k} - {j};
      SwapSummands(HeldBy(m[j]), HeldBy(m[k]), Held(m - {j} - {k}));
    }
  }

  lemma SwapSummands(a: multiset<Callback>, b: multiset<Callback>, c: multiset<Callback>)
    ensures a + (b + c) == b + (a + c)
  {
  }

  lemma HeldUpdate(m: map<Target, Table>, k: Target, t: Table)
    ensures Held(m[k := t]) == HeldBy(t) + Held(m - {k})
  {
    hide HeldBy, Held;
    HeldPick(m[k := t], k);
    assert m[k := t] - {k} == m - {k};
  }

  lemma HeldAdded(m: map<Target, Table>, k: Target)
    ensures Held(m) == (if k in m then HeldBy(m[k]) else multiset{}) + Held(m - {k})
  {
    hide HeldBy, Held;
    if k in m {
      HeldPick(m, k);
    } else {
      assert m - {k} == m;
    }
  }

  // The invariant.

  ghost predicate Sorted(t: Table) { forall i, j :: 0 <= i < j < |t| ==> t[i].id < t[j].id }

  // Every entry that waits, waits for a request in flight for this very table.
  ghost predicate TagsInFlight(s: State, target: Target)
    requires target in s.tables
  {
    forall r :: r != 0 && IdsOf(s.tables[target], r) != [] ==> r in s.inFlight && s.inFlight[r].target == target
  }

  ghost predicate TablesFine(s: State) {
    && Main in s.tables
    && forall target :: target in s.tables ==> Sorted(s.tables[target]) && TagsInFlight(s, target)
  }

  // A request in flight asked for exactly the entries that wait for it.
  ghost predicate RequestsFine(s: State) {
    && s.nextId > 0
    && forall r :: r in s.inFlight ==>
         0 < r < s.nextId && s.inFlight[r].ids == IdsOf(TableOf(s, s.inFlight[r].target), r)
  }

  ghost predicate NothingForgotten(s: State) {
    s.scheduled || forall target :: target in s.tables ==> IdsOf(s.tables[target], 0) == []
  }

  ghost predicate Conserved(s: State) {
    multiset(s.given) == multiset(s.ran) + multiset(s.calling) + Held(s.tables)
  }

  ghost predicate Inv(s: State) { TablesFine(s) && RequestsFine(s) && NothingForgotten(s) && Conserved(s) }

  // What each table operation does to the ids, the order and the callbacks.

  lemma {:induction false} TouchIds(t: Table, id: MsgId, done: Option<Callback>, r: RequestId)
    requires Sorted(t) && (r != 0 || Tagged(t, id))
    ensures IdsOf(Touch(t, id, done), r) == IdsOf(t, r)
  {
    if t == [] || id < t[0].id {
      assert ([Entry(id, 0, CallbackList(done))] + t)[1..] == t;
    } else if id > t[0].id {
      assert Touch(t, id, done)[1..] == Touch(t[1..], id, done);
      if r == 0 {
        var i :| 0 <= i < |t| && t[i].id == id && t[i].requestId != 0;
        assert t[1..][i - 1] == t[i];
      }
      TouchIds(t[1..], id, done, r);
    } else {
      if r == 0 {
        var i :| 0 <= i < |t| && t[i].id == id && t[i].requestId != 0;
        assert i == 0;
      }
      assert Touch(t, id, done)[1..] == t[1..];
    }
  }

  lemma {:induction false} TouchSorted(t: Table, id: MsgId, done: Option<Callback>)
    requires Sorted(t)
    ensures var u := Touch(t, id, done);
            Sorted(u) && u != [] && u[0].id == if t != [] && t[0].id < id then t[0].id else id
  {
    if t != [] && id > t[0].id {
      TouchSorted(t[1..], id, done);
    }
  }

  lemma {:induction false} TouchHeld(t: Table, id: MsgId, done: Option<Callback>)
    ensures HeldBy(Touch(t, id, done)) == HeldBy(t) + multiset(CallbackList(done))
  {
    if t == [] || id < t[0].id {
      assert ([Entry(id, 0, CallbackList(done))] + t)[1..] == t;
    } else if id > t[0].id {
      assert Touch(t, id, done)[1..] == Touch(t[1..], id, done);
      TouchHeld(t[1..], id, done);
    } else {
      assert Touch(t, id, done)[1..] == t[1..];
    }
  }

  lemma {:induction false} TagAllAsked(t: Table, n: RequestId, r: RequestId)
    requires n != 0 && IdsOf(t, n) == []
    ensures IdsOf(TagAll(t, n), r) == if r == 0 then [] else if r == n then IdsOf(t, 0) else IdsOf(t, r)
  {
    if t != [] {
      assert TagAll(t, n)[1..] == TagAll(t[1..], n);
      TagAllAsked(t[1..], n, r);
    }
  }

  lemma {:induction false} TagAllHeld(t: Table, n: RequestId)
    ensures HeldBy(TagAll(t, n)) == HeldBy(t)
  {
    if t != [] {
      assert TagAll(t, n)[1..] == TagAll(t[1..], n);
      TagAllHeld(t[1..], n);
    }
  }

  lemma {:induction false} TagAllKeys(t: Table, n: RequestId)
    ensures forall i :: 0 <= i < |t| ==> TagAll(t, n)[i].id == t[i].id
  {
    if t != [] {
      TagAllKeys(t[1..], n);
    }
  }

  lemma TagAllEffect(t: Table, n: RequestId, r: RequestId)
    requires n != 0 && IdsOf(t, n) == []
    ensures var u := TagAll(t, n);
            && IdsOf(u, r) == (if r == 0 then [] else if r == n then IdsOf(t, 0) else IdsOf(t, r))
            && HeldBy(u) == HeldBy(t) && (Sorted(t) ==> Sorted(u))
            && forall i :: 0 <= i < |t| ==> u[i].id == t[i].id
  {
    hide IdsOf, HeldBy;
    TagAllAsked(t, n, r);
    TagAllKeys(t, n);
    TagAllHeld(t, n);
  }

  lemma {:induction false} WithoutIds(t: Table, r: RequestId, q: RequestId)
    ensures IdsOf(Without(t, r), q) == if q == r then [] else IdsOf(t, q)
  {
    if t != [] {
      if t[0].requestId == r {
        assert Without(t, r) == Without(t[1..], r);
      } else {
        assert Without(t, r)[1..] == Without(t[1..], r);
      }
      WithoutIds(t[1..], r, q);
    }
  }

  lemma {:induction false} WithoutHeld(t: Table, r: RequestId)
    ensures HeldBy(t) == HeldBy(Without(t, r)) + multiset(Taken(t, r))
  {
    if t != [] {
      WithoutHeld(t[1..], r);
      var first, rest := multiset(t[0].callbacks), multiset(Taken(t[1..], r));
      if t[0].requestId == r {
        assert Without(t, r) == Without(t[1..], r);
        assert Taken(t, r) == t[0].callbacks + Taken(t[1..], r);
        SwapSummands(first, HeldBy(Without(t[1..], r)), rest);
      } else {
        assert Without(t, r)[1..] == Without(t[1..], r);
        assert Taken(t, r) == Taken(t[1..], r);
      }
    }
  }

  lemma {:induction false} WithoutSorted(t: Table, r: RequestId)
    requires Sorted(t)
    ensures Sorted(Without(t, r)) && (Without(t, r) != [] ==> t != [] && t[0].id <= Without(t, r)[0].id)
  {
    if t != [] {
      WithoutSorted(t[1..], r);
    }
  }

  // No id waits twice.
  lemma {:induction false} IdsApart(t: Table, q: RequestId, r: RequestId, id: MsgId)
    requires Sorted(t) && q != r && id in IdsOf(t, q)
    ensures id !in IdsOf(t, r)
  {
    FirstIsLeast(t[1..], t[0].id, q);
    FirstIsLeast(t[1..], t[0].id, r);
    if id in IdsOf(t[1..], q) {
      IdsApart(t[1..], q, r, id);
    }
  }

  lemma {:induction false} FirstIsLeast(t: Table, bound: MsgId, r: RequestId)
    requires forall i :: 0 <= i < |t| ==> bound < t[i].id
    ensures bound !in IdsOf(t, r)
  {
    if t != [] {
      FirstIsLeast(t[1..], bound, r);
    }
  }

  // One step at a time.

  lemma NoEntries()
    ensures Sorted([]) && HeldBy([]) == multiset{} && (forall r :: IdsOf([], r) == [])
  {
  }

  lemma RequestedConserves(s: State, target: Target, id: MsgId, done: Option<Callback>)
    requires Conserved(s)
    ensures Conserved(Requested(s, target, id, done))
  {
    hide Touch, Tagged, Held, HeldBy, CallbackList;
    var t := TableOf(s, target);
    NoEntries();
    TouchHeld(t, id, done);
    HeldUpdate(s.tables, target, Touch(t, id, done));
    HeldAdded(s.tables, target);
  }

  lemma RequestedKeeps(s: State, target: Target, id: MsgId, done: Option<Callback>)
    requires Inv(s)
    ensures Inv(Requested(s, target, id, done))
  {
    hide Touch, Tagged, Conserved, IdsOf, CallbackList;
    var t, s' := TableOf(s, target), Requested(s, target, id, done);
    NoEntries();
    TouchSorted(t, id, done);
    forall r | r != 0 || Tagged(t, id) ensures IdsOf(Touch(t, id, done), r) == IdsOf(t, r) {
      TouchIds(t, id, done, r);
    }
    RequestedConserves(s, target, id, done);
  }

  lemma ResolvedOneConserves(s: State, target: Target)
    requires target in s.tables && TablesFine(s) && RequestsFine(s) && Conserved(s)
    ensures Conserved(ResolvedOne(s, target))
  {
    hide TagAll, Held, HeldBy, IdsOf;
    var t := s.tables[target];
    NoEntries();
    HeldAdded(s.tables, target);
    TagAllEffect(t, s.nextId, 0);
    HeldUpdate(s.tables, target, TagAll(t, s.nextId));
  }

  lemma TagAllIds(t: Table, n: RequestId)
    requires n != 0 && IdsOf(t, n) == []
    ensures forall r :: IdsOf(TagAll(t, n), r) == if r == 0 then [] else if r == n then IdsOf(t, 0) else IdsOf(t, r)
    ensures Sorted(t) ==> Sorted(TagAll(t, n))
  {
    TagAllEffect(t, n, 0);
    forall r ensures IdsOf(TagAll(t, n), r) == if r == 0 then [] else if r == n then IdsOf(t, 0) else IdsOf(t, r) {
      TagAllEffect(t, n, r);
    }
  }

  lemma ResolvedOneTables(s: State, target: Target)
    requires target in s.tables && TablesFine(s) && RequestsFine(s)
    ensures TablesFine(ResolvedOne(s, target))
  {
    hide TagAll, IdsOf, Sorted;
    NoEntries();
    assert IdsOf(s.tables[target], s.nextId) == [];
    TagAllIds(s.tables[target], s.nextId);
  }

  // Resolving one table tags all of it and leaves the other tables alone.
  lemma ResolvedOneKeeps(s: State, target: Target)
    requires target in s.tables && TablesFine(s) && RequestsFine(s) && Conserved(s)
    ensures var s' := ResolvedOne(s, target);
            && TablesFine(s') && RequestsFine(s') && Conserved(s') && s'.scheduled == s.scheduled
            && (target in s'.tables ==> IdsOf(s'.tables[target], 0) == [])
            && s'.tables.Keys <= s.tables.Keys
            && (forall u :: u in s.tables && u != target ==> u in s'.tables && s'.tables[u] == s.tables[u])
  {
    hide TagAll, Conserved, IdsOf, Sorted;
    NoEntries();
    assert IdsOf(s.tables[target], s.nextId) == [];
    TagAllIds(s.tables[target], s.nextId);
    ResolvedOneTables(s, target);
    ResolvedOneConserves(s, target);
  }

  lemma {:induction false} ResolvedAllKeeps(s: State, order: seq<Target>)
    requires Lists(order, s.tables) && TablesFine(s) && RequestsFine(s) && Conserved(s)
    ensures var s' := ResolvedAll(s, order);
            && TablesFine(s') && RequestsFine(s') && Conserved(s') && s'.tables.Keys <= s.tables.Keys
            && (forall u :: u in s'.tables && u in order ==> IdsOf(s'.tables[u], 0) == [])
            && (forall u :: u in s.tables && u !in order ==> u in s'.tables && s'.tables[u] == s.tables[u])
    decreases |order|
  {
    hide ResolvedOne, TablesFine, RequestsFine, Conserved, IdsOf;
    if order != [] {
      ResolvedOneKeeps(s, order[0]);
      ResolvedAllKeeps(ResolvedOne(s, order[0]), order[1..]);
    }
  }

  lemma FinalizedConserves(s: State, r: RequestId)
    requires r in s.inFlight && Conserved(s)
    ensures Conserved(Finalized(s, r))
  {
    hide Without, Taken, Held, HeldBy;
    var target := s.inFlight[r].target;
    var t := TableOf(s, target);
    NoEntries();
    WithoutHeld(t, r);
    HeldAdded(s.tables, target);
    HeldUpdate(s.tables, target, Without(t, r));
    assert multiset(s.calling + Taken(t, r)) == multiset(s.calling) + multiset(Taken(t, r));
  }

  lemma FinalizedKeeps(s: State, r: RequestId)
    requires r in s.inFlight && Inv(s)
    ensures Inv(Finalized(s, r))
  {
    hide Without, Taken, Conserved, IdsOf, Sorted;
    var t := TableOf(s, s.inFlight[r].target);
    NoEntries();
    WithoutSorted(t, r);
    forall q ensures IdsOf(Without(t, r), q) == if q == r then [] else IdsOf(t, q) {
      WithoutIds(t, r, q);
    }
    FinalizedConserves(s, r);
  }

  lemma ResolveKeeps(s: State, order: seq<Target>)
    requires Inv(s) && Enabled(s, Resolve(order))
    ensures Inv(Next(s, Resolve(order)))
  {
    hide IdsOf, Held, ResolvedAll;
    ResolvedAllKeeps(s.(scheduled := false), order);
  }

  lemma CallConserves(s: State)
    requires s.calling != [] && Conserved(s)
    ensures Conserved(Next(s, Call))
  {
    hide Held;
    assert s.calling == [s.calling[0]] + s.calling[1..];
  }

  lemma NextKeeps(s: State, e: Event)
    requires Inv(s) && Enabled(s, e)
    ensures Inv(Next(s, e))
  {
    hide IdsOf, Requested, Finalized, ResolvedAll, Conserved;
    match e
    case Request(target, id, done) => RequestedKeeps(s, target, id, done);
    case Resolve(order) => ResolveKeeps(s, order);
    case Finalize(r) => FinalizedKeeps(s, r);
    case Call => CallConserves(s);
  }

  lemma {:induction false} RunKeeps(s: State, events: seq<Event>)
    requires Inv(s) && Run(s, events)
    ensures Inv(After(s, events))
    decreases |events|
  {
    hide Inv, Next, Enabled;
    if events != [] {
      NextKeeps(s, events[0]);
      RunKeeps(Next(s, events[0]), events[1..]);
    }
  }

  lemma InitialFine()
    ensures Inv(INITIAL)
  {
    NoEntries();
    HeldAdded(INITIAL.tables, Main);
    assert INITIAL.tables - {Main} == map[];
  }

  // In every run each callback is held by a table, about to be called, or has run: as often as it was given.
  lemma CallbacksConserved(events: seq<Event>)
    requires Run(INITIAL, events)
    ensures var s := After(INITIAL, events);
            multiset(s.given) == multiset(s.ran) + multiset(s.calling) + Held(s.tables)
  {
    InitialFine();
    RunKeeps(INITIAL, events);
  }

  // An entry that is not requested yet always has a resolve scheduled.
  lemma NeverForgotten(events: seq<Event>, target: Target)
    requires Run(INITIAL, events)
    ensures var s := After(INITIAL, events); IdsOf(TableOf(s, target), 0) != [] ==> s.scheduled
  {
    InitialFine();
    RunKeeps(INITIAL, events);
    NoEntries();
  }

  // No message is asked for by two requests in flight.
  lemma RequestsDisjoint(events: seq<Event>, q: RequestId, r: RequestId, id: MsgId)
    requires Run(INITIAL, events)
    requires var f := After(INITIAL, events).inFlight;
             q in f && r in f && q != r && f[q].target == f[r].target && id in f[q].ids
    ensures id !in After(INITIAL, events).inFlight[r].ids
  {
    InitialFine();
    RunKeeps(INITIAL, events);
    NoEntries();
    var s := After(INITIAL, events);
    IdsApart(TableOf(s, s.inFlight[q].target), q, r, id);
  }

  lemma FirstIsAsked(t: Table)
    ensures t != [] ==> IdsOf(t, t[0].requestId) != []
  {
  }

  lemma {:induction false} IdleTables(m: map<Target, Table>)
    requires forall k :: k in m ==> m[k] == []
    ensures Held(m) == multiset{}
    decreases |m|
  {
    if m != map[] {
      var k :| k in m;
      HeldPick(m, k);
      NoEntries();
      IdleTables(m - {k});
    }
  }

  // Once every request was answered, the scheduled resolve has run and the calls are made, nothing is pending.
  lemma QuietMeansDone(events: seq<Event>)
    requires Run(INITIAL, events)
    requires var s := After(INITIAL, events); s.inFlight == map[] && !s.scheduled && s.calling == []
    ensures var s := After(INITIAL, events); multiset(s.given) == multiset(s.ran)
  {
    InitialFine();
    RunKeeps(INITIAL, events);
    var s := After(INITIAL, events);
    forall k | k in s.tables ensures s.tables[k] == [] {
      forall r ensures IdsOf(s.tables[k], r) == [] {
      }
      FirstIsAsked(s.tables[k]);
    }
    IdleTables(s.tables);
  }

  // Which message a callback waits for.

  // What waits for message `id` of a table: nothing, or its callbacks.
  function EntryOf(t: Table, id: MsgId): Option<seq<Callback>> {
    if t == [] then None else if t[0].id == id then Some(t[0].callbacks) else EntryOf(t[1..], id)
  }

  function Waiting(s: State, target: Target, id: MsgId): Option<seq<Callback>> { EntryOf(TableOf(s, target), id) }

  ghost predicate AsksFor(s: State, r: RequestId, target: Target, id: MsgId) {
    r in s.inFlight && s.inFlight[r].target == target && id in s.inFlight[r].ids
  }

  // What should wait for a message after an event, by the events alone: what was given for it since it was last
  // answered.
  ghost function Expected(s: State, e: Event, target: Target, id: MsgId, before: Option<seq<Callback>>):
      Option<seq<Callback>>
  {
    match e
    case Request(u, m, done) =>
      if u != target || m != id then before
      else Some((if before.Some? then before.value else []) + (if done.Some? then [done.value] else []))
    case Finalize(r) => if AsksFor(s, r, target, id) then None else before
    case _ => before
  }

  ghost function ExpectedAfter(s: State, events: seq<Event>, target: Target, id: MsgId, before: Option<seq<Callback>>):
      Option<seq<Callback>>
    requires Run(s, events)
    decreases |events|
  {
    if events == [] then before
    else ExpectedAfter(Next(s, events[0]), events[1..], target, id, Expected(s, events[0], target, id, before))
  }

  // What an answer makes due: all that waits for the messages that were asked for, in their order.
  function DueOf(t: Table, ids: seq<MsgId>): seq<Callback> {
    if ids == [] then []
    else (var waits := EntryOf(t, ids[0]); if waits.Some? then waits.value else []) + DueOf(t, ids[1..])
  }

  ghost function DueBy(s: State, e: Event): seq<Callback> {
    if e.Finalize? && e.request in s.inFlight
    then DueOf(TableOf(s, s.inFlight[e.request].target), s.inFlight[e.request].ids) else []
  }

  ghost function DueAfter(s: State, events: seq<Event>): seq<Callback>
    requires Run(s, events)
    decreases |events|
  {
    if events == [] then [] else DueBy(s, events[0]) + DueAfter(Next(s, events[0]), events[1..])
  }

  lemma {:induction false} TouchEntry(t: Table, id: MsgId, done: Option<Callback>, m: MsgId)
    requires Sorted(t)
    ensures EntryOf(Touch(t, id, done), m) ==
      if m != id then EntryOf(t, m)
      else Some((if EntryOf(t, id).Some? then EntryOf(t, id).value else []) + CallbackList(done))
  {
    if t == [] || id < t[0].id {
      assert ([Entry(id, 0, CallbackList(done))] + t)[1..] == t;
      NoEntry(t, id);
      assert [] + CallbackList(done) == CallbackList(done);
    } else if id > t[0].id {
      assert Touch(t, id, done)[1..] == Touch(t[1..], id, done);
      TouchEntry(t[1..], id, done, m);
    } else {
      assert Touch(t, id, done)[1..] == t[1..];
    }
  }

  lemma {:induction false} NoEntry(t: Table, id: MsgId)
    requires forall i :: 0 <= i < |t| ==> t[i].id != id
    ensures EntryOf(t, id) == None && forall r :: id !in IdsOf(t, r)
  {
    if t != [] {
      NoEntry(t[1..], id);
    }
  }

  lemma {:induction false} TagAllEntry(t: Table, n: RequestId, m: MsgId)
    ensures EntryOf(TagAll(t, n), m) == EntryOf(t, m)
  {
    if t != [] {
      assert TagAll(t, n)[1..] == TagAll(t[1..], n);
      TagAllEntry(t[1..], n, m);
    }
  }

  lemma {:induction false} WithoutEntry(t: Table, r: RequestId, m: MsgId)
    requires Sorted(t)
    ensures EntryOf(Without(t, r), m) == if m in IdsOf(t, r) then None else EntryOf(t, m)
  {
    if t != [] {
      WithoutEntry(t[1..], r, m);
      NoEntry(t[1..], t[0].id);
      if t[0].requestId == r {
        assert Without(t, r) == Without(t[1..], r);
      } else {
        assert Without(t, r)[1..] == Without(t[1..], r);
      }
    }
  }

  lemma {:induction false} IdAt(t: Table, i: nat)
    requires i < |t|
    ensures t[i].id in IdsOf(t, t[i].requestId)
  {
    if i > 0 {
      assert t[1..][i - 1] == t[i];
      IdAt(t[1..], i - 1);
    }
  }

  lemma {:induction false} AskedAt(t: Table, r: RequestId, id: MsgId) returns (i: nat)
    requires id in IdsOf(t, r)
    ensures i < |t| && t[i].id == id && t[i].requestId == r
  {
    if t[0].id == id && t[0].requestId == r {
      i := 0;
    } else {
      i := AskedAt(t[1..], r, id);
      i := i + 1;
    }
  }

  lemma {:induction false} EntryAt(t: Table, id: MsgId)
    ensures EntryOf(t, id).Some? <==> exists i :: 0 <= i < |t| && t[i].id == id
  {
    if t != [] {
      EntryAt(t[1..], id);
      if i :| 0 <= i < |t| && t[i].id == id && t[0].id != id {
        assert t[1..][i - 1] == t[i];
      }
      if i :| 0 <= i < |t[1..]| && t[1..][i].id == id {
        assert t[i + 1].id == id;
      }
    }
  }

  lemma EntryAsked(t: Table, id: MsgId)
    ensures EntryOf(t, id).Some? <==> exists r :: id in IdsOf(t, r)
  {
    hide EntryOf, IdsOf;
    EntryAt(t, id);
    if i :| 0 <= i < |t| && t[i].id == id {
      IdAt(t, i);
    }
    if r :| id in IdsOf(t, r) {
      var i := AskedAt(t, r, id);
    }
  }

  lemma {:induction false} DueOfRest(t: Table, ids: seq<MsgId>)
    requires t != [] && t[0].id !in ids
    ensures DueOf(t, ids) == DueOf(t[1..], ids)
  {
    if ids != [] {
      DueOfRest(t, ids[1..]);
    }
  }

  lemma {:induction false} TakenIsDue(t: Table, r: RequestId)
    requires Sorted(t)
    ensures Taken(t, r) == DueOf(t, IdsOf(t, r))
  {
    if t != [] {
      TakenIsDue(t[1..], r);
      FirstIsLeast(t[1..], t[0].id, r);
      DueOfRest(t, IdsOf(t[1..], r));
      if t[0].requestId == r {
        assert IdsOf(t, r)[1..] == IdsOf(t[1..], r);
      } else {
        assert IdsOf(t, r) == IdsOf(t[1..], r);
      }
    }
  }

  // A request for a message leaves all other messages, and all other tables, as they were. A resolve gets scheduled
  // unless the message is asked for by then.
  lemma RequestChanges(s: State, target: Target, id: MsgId, done: Option<Callback>, u: Target, m: MsgId)
    requires Inv(s)
    ensures var s' := Next(s, Request(target, id, done));
      && s'.tables.Keys == s.tables.Keys + {target}
      && (u != target ==> TableOf(s', u) == TableOf(s, u))
      && Waiting(s', u, m) == Expected(s, Request(target, id, done), u, m, Waiting(s, u, m))
      && (s'.scheduled <==> s.scheduled || !exists r :: AsksFor(s, r, target, id))
  {
    hide Touch, Tagged, EntryOf, Conserved, IdsOf, NothingForgotten;
    NoEntries();
    TouchEntry(TableOf(s, target), id, done, m);
    TaggedIsAsked(s, target, id);
  }

  lemma TaggedIsAsked(s: State, target: Target, id: MsgId)
    requires Inv(s)
    ensures Tagged(TableOf(s, target), id) <==> exists r :: AsksFor(s, r, target, id)
  {
    hide IdsOf, Conserved;
    NoEntries();
    var t := TableOf(s, target);
    if i :| 0 <= i < |t| && t[i].id == id && t[i].requestId != 0 {
      IdAt(t, i);
      assert AsksFor(s, t[i].requestId, target, id);
    }
    if r :| AsksFor(s, r, target, id) {
      var i := AskedAt(t, r, id);
    }
  }

  lemma {:induction false} ResolvedTells(s: State, order: seq<Target>, target: Target, id: MsgId)
    requires Lists(order, s.tables)
    ensures var s' := ResolvedAll(s, order);
            Waiting(s', target, id) == Waiting(s, target, id) && s'.ran == s.ran && s'.calling == s.calling
    decreases |order|
  {
    hide EntryOf, IdsOf, TagAll;
    if order != [] {
      ResolvedTells(ResolvedOne(s, order[0]), order[1..], target, id);
      TagAllEntry(s.tables[order[0]], s.nextId, id);
    }
  }

  lemma FinalizedTells(s: State, r: RequestId, target: Target, id: MsgId)
    requires Inv(s) && r in s.inFlight
    ensures Waiting(Finalized(s, r), target, id) == Expected(s, Finalize(r), target, id, Waiting(s, target, id))
    ensures Finalized(s, r).calling == s.calling + DueBy(s, Finalize(r))
  {
    hide EntryOf, IdsOf, Without, Taken, Conserved, DueOf;
    NoEntries();
    WithoutEntry(TableOf(s, s.inFlight[r].target), r, id);
    TakenIsDue(TableOf(s, s.inFlight[r].target), r);
  }

  lemma NextTells(s: State, e: Event, target: Target, id: MsgId)
    requires Inv(s) && Enabled(s, e)
    ensures Waiting(Next(s, e), target, id) == Expected(s, e, target, id, Waiting(s, target, id))
    ensures Next(s, e).ran + Next(s, e).calling == s.ran + s.calling + DueBy(s, e)
  {
    hide Inv, EntryOf, ResolvedAll, Finalized, DueOf, Touch, Tagged;
    match e
    case Request(u, m, done) => RequestChanges(s, u, m, done, target, id);
    case Resolve(order) => ResolvedTells(s.(scheduled := false), order, target, id);
    case Finalize(r) =>
      FinalizedTells(s, r, target, id);
      FinalizedRan(s, r);
    case Call => assert s.calling == [s.calling[0]] + s.calling[1..];
  }

  lemma FinalizedRan(s: State, r: RequestId)
    requires r in s.inFlight
    ensures Finalized(s, r).ran == s.ran
  {
  }

  lemma {:induction false} RunTells(s: State, events: seq<Event>, target: Target, id: MsgId)
    requires Inv(s) && Run(s, events)
    ensures Waiting(After(s, events), target, id) ==
            ExpectedAfter(s, events, target, id, Waiting(s, target, id))
    ensures var s' := After(s, events); s'.ran + s'.calling == s.ran + s.calling + DueAfter(s, events)
    decreases |events|
  {
    hide Inv, Next, Enabled, Waiting, Expected, DueBy;
    if events != [] {
      NextTells(s, events[0], target, id);
      NextKeeps(s, events[0]);
      RunTells(Next(s, events[0]), events[1..], target, id);
    }
  }

  // In every run: the callbacks given for a message, in their order, wait at that message in the table of that target
  // until a request for it in flight is answered. Whatever waits is asked for, or a resolve is scheduled.
  lemma WaitsUntilAnswered(events: seq<Event>, target: Target, id: MsgId)
    requires Run(INITIAL, events)
    ensures var s := After(INITIAL, events);
      && Waiting(s, target, id) == ExpectedAfter(INITIAL, events, target, id, None)
      && (Waiting(s, target, id).Some? ==> s.scheduled || exists r :: AsksFor(s, r, target, id))
      && (forall r :: AsksFor(s, r, target, id) ==> Waiting(s, target, id).Some?)
  {
    hide Inv, IdsOf;
    InitialFine();
    RunKeeps(INITIAL, events);
    RunTells(INITIAL, events, target, id);
    WaitingIsAsked(After(INITIAL, events), target, id);
  }

  lemma WaitingIsAsked(s: State, target: Target, id: MsgId)
    requires Inv(s)
    ensures Waiting(s, target, id).Some? ==> s.scheduled || exists r :: AsksFor(s, r, target, id)
    ensures forall r :: AsksFor(s, r, target, id) ==> Waiting(s, target, id).Some?
  {
    hide IdsOf, EntryOf, Inv, AsksFor;
    EntryAsked(TableOf(s, target), id);
    if Waiting(s, target, id).Some? {
      var r :| id in IdsOf(TableOf(s, target), r);
      AskedOrScheduled(s, target, id, r);
    }
    forall r | AsksFor(s, r, target, id) ensures Waiting(s, target, id).Some? {
      AskedOrScheduled(s, target, id, r);
      assert id in IdsOf(TableOf(s, target), r);
    }
  }

  lemma AskedOrScheduled(s: State, target: Target, id: MsgId, r: RequestId)
    requires Inv(s)
    ensures id in IdsOf(TableOf(s, target), r) ==> AsksFor(s, r, target, id) || s.scheduled
    ensures AsksFor(s, r, target, id) ==> id in IdsOf(TableOf(s, target), r)
  {
    hide IdsOf, Conserved, Sorted;
    NoEntries();
  }

  // In every run callbacks become due only by answers to the requests for their messages, and run in that order.
  lemma CalledInOrder(events: seq<Event>)
    requires Run(INITIAL, events)
    ensures var s := After(INITIAL, events); s.ran + s.calling == DueAfter(INITIAL, events)
  {
    hide Inv;
    InitialFine();
    RunTells(INITIAL, events, Main, 0);
  }

  // Tables of channels are there only as long as something waits in them.

  ghost predicate NoneEmpty(s: State) { forall u :: u in s.tables && u != Main ==> s.tables[u] != [] }

  lemma {:induction false} ResolvedNoneEmpty(s: State, order: seq<Target>)
    requires Lists(order, s.tables) && NoneEmpty(s)
    ensures NoneEmpty(ResolvedAll(s, order)) && ResolvedAll(s, order).tables.Keys == s.tables.Keys
    decreases |order|
  {
    hide IdsOf, TagAll;
    if order != [] {
      ResolvedNoneEmpty(ResolvedOne(s, order[0]), order[1..]);
    }
  }

  lemma NextNoneEmpty(s: State, e: Event)
    requires NoneEmpty(s) && Enabled(s, e)
    ensures NoneEmpty(Next(s, e))
  {
    hide Tagged, IdsOf, ResolvedAll, Without;
    if e.Resolve? {
      ResolvedNoneEmpty(s.(scheduled := false), e.order);
    }
  }

  lemma {:induction false} ChannelsAreNeeded(s: State, events: seq<Event>, channel: int)
    requires NoneEmpty(s) && Run(s, events)
    ensures Channel(channel) in After(s, events).tables ==> After(s, events).tables[Channel(channel)] != []
    decreases |events|
  {
    hide Next, Enabled;
    if events != [] {
      NextNoneEmpty(s, events[0]);
      ChannelsAreNeeded(Next(s, events[0]), events[1..], channel);
    }
  }
}

/** The part of ApiWrap that keeps the message requests. */
module MessageDataApi {
  import opened Options
  import opened MessageDataSpec

  method CollectMessageIds(requests: Table) returns (result: seq<MsgId>)
    ensures result == IdsOf(requests, 0)
  {
    result := [];
    var i := 0;
    while i < |requests|
      invariant 0 <= i <= |requests|
      invariant result + IdsOf(requests[i..], 0) == IdsOf(requests, 0)
    {
      assert requests[i..][1..] == requests[i + 1..];
      if requests[i].requestId == 0 {
        result := result + [requests[i].id];
      }
      i := i + 1;
    }
  }

  method TagUntagged(requests: Table, requestId: RequestId) returns (result: Table)
    ensures result == TagAll(requests, requestId)
  {
    result := [];
    var i := 0;
    while i < |requests|
      invariant 0 <= i <= |requests|
      invariant result + TagAll(requests[i..], requestId) == TagAll(requests, requestId)
    {
      assert requests[i..][1..] == requests[i + 1..];
      if requests[i].requestId != 0 {
        result := result + [requests[i]];
      } else {
        result := result + [requests[i].(requestId := requestId)];
      }
      i := i + 1;
    }
  }

  class ApiWrap {
    var tables: map<Target, Table>
    var scheduled: bool
    var inFlight: map<RequestId, Sent>
    var nextId: RequestId
    ghost var given: seq<Callback>
    var calling: seq<Callback>
    var ran: seq<Callback>

    constructor ()
      ensures Now() == INITIAL && Inv(Now())
    {
      tables, scheduled, inFlight, nextId := map[Main := []], false, map[], 1;
      given, calling, ran := [], [], [];
      new;
      InitialFine();
    }

    ghost function Now(): State
      reads this
    {
      State(tables, scheduled, inFlight, nextId, given, calling, ran)
    }

    method RequestMessageData(target: Target, id: MsgId, done: Option<Callback>)
      requires Inv(Now())
      modifies this
      ensures Now() == Requested(old(Now()), target, id, done) && Inv(Now())
    {
      hide Inv, Touch, Tagged;
      RequestedKeeps(Now(), target, id, done);
      given := given + CallbackList(done);
      var requests := if target in tables then tables[target] else [];
      tables := tables[target := Touch(requests, id, done)];
      if !Tagged(requests, id) {
        scheduled := true;
      }
    }

    // `request(...).send()`: a fresh request id, to be answered later in any order.
    method Send(target: Target, ids: seq<MsgId>) returns (requestId: RequestId)
      modifies this
      ensures requestId == old(nextId)
      ensures Now() == old(Now()).(inFlight := old(inFlight)[requestId := Sent(target, ids)], nextId := old(nextId) + 1)
    {
      requestId := nextId;
      inFlight, nextId := inFlight[requestId := Sent(target, ids)], nextId + 1;
    }

    method ResolveTable(target: Target)
      requires target in tables
      modifies this
      ensures Now() == ResolvedOne(old(Now()), target)
    {
      hide IdsOf, TagAll;
      if tables[target] == [] && target != Main {
        tables := tables - {target};
        return;
      }
      var ids := CollectMessageIds(tables[target]);
      if ids != [] {
        var requestId := Send(target, ids);
        var tagged := TagUntagged(tables[target], requestId);
        tables := tables[target := tagged];
      }
    }

    // The delayed invocation: the flag goes down, then the messages outside channels and each channel in turn.
    method ResolveMessageDatas() returns (ghost order: seq<Target>)
      requires Inv(Now()) && scheduled
      modifies this
      ensures Enabled(old(Now()), Resolve(order))
      ensures Now() == Next(old(Now()), Resolve(order)) && Inv(Now())
    {
      hide ResolvedOne, IdsOf, Held;
      ghost var start := Now().(scheduled := false);
      scheduled := false;
      order := [];
      var left, target := tables.Keys, Main;
      while left != {}
        invariant Lists(order, start.tables) && Now() == ResolvedAll(start, order)
        invariant left <= tables.Keys && (left != {} ==> target in left)
        invariant forall u :: u in start.tables <==> u in left || u in order
        invariant forall u :: u in order ==> u !in left
        decreases left
      {
        ResolvedAllAppend(start, order, target);
        ResolveTable(target);
        order := order + [target];
        ResolvedAllKeeps(start, order);
        left := left - {target};
        if left != {} {
          target :| target in left;
        }
      }
      ResolveKeeps(old(Now()), order);
    }

    method FinalizeMessageDataRequest(requestId: RequestId)
      requires Inv(Now()) && requestId in inFlight
      modifies this
      ensures Now() == Finalized(old(Now()), requestId) && Inv(Now())
    {
      hide Inv, Without, Taken;
      FinalizedKeeps(Now(), requestId);
      var target := inFlight[requestId].target;
      inFlight := inFlight - {requestId};
      if target !in tables {
        assert Without([], requestId) == [] && Taken([], requestId) == [] by { TakenFromNone(requestId); }
        return;
      }
      var requests, callbacks := TakeFor(tables[target], requestId);
      tables := tables[target := requests];
      if target != Main && requests == [] {
        tables := tables - {target};
      }
      calling := calling + callbacks;
    }

    // Runs what a finished request collected. A callback may call back into this object: the entries are gone already.
    method CallNext()
      requires Inv(Now()) && calling != []
      modifies this
      ensures Now() == Next(old(Now()), Call) && Inv(Now())
    {
      NextKeeps(Now(), Call);
      ran := ran + [calling[0]];
      calling := calling[1..];
    }
  }

  lemma TakenFromNone(r: RequestId)
    ensures Without([], r) == [] && Taken([], r) == []
  {
  }

  // Walks the table, erasing the entries of one request and collecting their callbacks.
  method TakeFor(requests: Table, requestId: RequestId) returns (left: Table, callbacks: seq<Callback>)
    ensures left == Without(requests, requestId) && callbacks == Taken(requests, requestId)
  {
    left, callbacks := requests, [];
    var i := 0;
    ghost var done := 0;
    while i < |left|
      invariant 0 <= i <= |left| && 0 <= done <= |requests| && left[i..] == requests[done..]
      invariant left[..i] + Without(requests[done..], requestId) == Without(requests, requestId)
      invariant callbacks + Taken(requests[done..], requestId) == Taken(requests, requestId)
      decreases |left| - i
    {
      assert left[i] == requests[done] && requests[done..][1..] == requests[done + 1..];
      if left[i].requestId == requestId {
        callbacks := callbacks + left[i].callbacks;
        left := left[..i] + left[i + 1..];
      } else {
        i := i + 1;
      }
      done := done + 1;
    }
    assert left == left[..i] && requests[done..] == [];
  }

  lemma {:induction false} ResolvedAllAppend(s: State, order: seq<Target>, target: Target)
    requires Lists(order, s.tables) && target in s.tables && target !in order
    ensures Lists(order + [target], s.tables)
    ensures target in ResolvedAll(s, order).tables
    ensures ResolvedAll(s, order + [target]) == ResolvedOne(ResolvedAll(s, order), target)
    decreases |order|
  {
    if order == [] {
      assert ([] + [target])[1..] == [];
    } else {
      assert (order + [target])[1..] == order[1..] + [target];
      ResolvedAllAppend(ResolvedOne(s, order[0]), order[1..], target);
    }
  }
}
