/** Events for the web app's frame: queued until it is loaded, and only ever for the frame they were meant for. */
module FrameQueueSpec {
  type Body = int

  const MAX_PENDING_EVENTS := 64

  // An event is known by its number among all that were posted.
  datatype Event = Event(generation: nat, serial: nat, body: Body)

  datatype Fate = Waiting | Sent | Overflowed | Discarded | Refused

  datatype State = State(
    iframe: bool,           // there is a frame; it is of the current generation
    loaded: bool,
    generation: nat,
    reloadSupported: bool,
    timer: bool,            // a reload falls back to a new frame when this fires
    sameOrigin: bool,
    originKnown: bool,
    queue: seq<Event>,
    posted: seq<Event>,     // all events, with the generation at the time
    fates: seq<Fate>,
    sent: seq<Event>)       // what frames were sent: the event, with the generation of the frame that got it

  const INITIAL := State(false, false, 0, false, false, false, false, [], [], [], [])

  predicate Blocked(s: State) { s.sameOrigin && !s.originKnown }

  function WithFate(s: State, k: nat, fate: Fate): State
    requires k < |s.fates|
  {
    s.(fates := s.fates[k := fate])
  }

  // sendToFrame
  function SentNow(s: State, e: Event): State
    requires e.serial < |s.fates|
  {
    if !s.iframe || e.generation != s.generation || Blocked(s) then WithFate(s, e.serial, Refused)
    else WithFate(s, e.serial, Sent).(sent := s.sent + [e.(generation := s.generation)])
  }

  function NewEvent(s: State, body: Body): Event { Event(s.generation, |s.posted|, body) }

  function Recorded(s: State, body: Body): State {
    s.(posted := s.posted + [NewEvent(s, body)], fates := s.fates + [Waiting])
  }

  // Drops the oldest events while there are too many.
  function Trimmed(s: State): State
    requires forall i :: 0 <= i < |s.queue| ==> s.queue[i].serial < |s.fates|
    decreases |s.queue|
  {
    if |s.queue| <= MAX_PENDING_EVENTS then s
    else Trimmed(WithFate(s, s.queue[0].serial, Overflowed).(queue := s.queue[1..]))
  }

  // postToFrame
  function Posted(s: State, body: Body): State
    requires Inv(s)
  {
    var r := Recorded(s, body);
    if !s.iframe || !s.loaded then Trimmed(r.(queue := s.queue + [NewEvent(s, body)]))
    else SentNow(r, NewEvent(s, body))
  }

  function AllSent(s: State, events: seq<Event>): State
    requires forall i :: 0 <= i < |events| ==> events[i].serial < |s.fates|
    decreases |events|
  {
    if events == [] then s
    else if events[0].generation == s.generation then AllSent(SentNow(s, events[0]), events[1..])
    else AllSent(WithFate(s, events[0].serial, Discarded), events[1..])
  }

  // The load handler of the frame of this generation.
  function Loaded(s: State, generation: nat): State
    requires Inv(s)
  {
    if !s.iframe || generation != s.generation then s
    else AllSent(s.(loaded := true, queue := []), s.queue)
  }

  function AllDiscarded(s: State): State {
    s.(queue := [], fates := seq(|s.fates|, k requires 0 <= k < |s.fates| =>
      if s.fates[k] == Waiting then Discarded else s.fates[k]))
  }

  // createIframe
  function Created(s: State): State {
    AllDiscarded(s).(timer := false, generation := s.generation + 1, loaded := false, reloadSupported := false,
                     iframe := true)
  }

  function CreatedAs(s: State, sameOrigin: bool, originKnown: bool): State {
    Created(s.(sameOrigin := sameOrigin, originKnown := originKnown))
  }

  // reloadFrame; `reload_iframe` is a message like any other.
  function Reloaded(s: State, reloadIframe: Body): State
    requires Inv(s)
  {
    if !s.iframe then s
    else if s.reloadSupported && s.loaded then
      SentNow(Recorded(s, reloadIframe), NewEvent(s, reloadIframe)).(timer := true)
    else Created(s)
  }

  // A message is heard if it comes from the frame, and from its origin where that matters.
  predicate Heard(s: State, fromFrame: bool, fromOrigin: bool) {
    s.iframe && fromFrame && (s.sameOrigin ==> s.originKnown && fromOrigin)
  }

  function Ready(s: State, fromFrame: bool, fromOrigin: bool, supported: bool): State {
    if Heard(s, fromFrame, fromOrigin) then s.(reloadSupported := supported) else s
  }

  function WillReload(s: State, fromFrame: bool, fromOrigin: bool): State {
    if Heard(s, fromFrame, fromOrigin) then s.(timer := false, loaded := false) else s
  }

  datatype Step =
    | Bootstrap(sameOrigin: bool, originKnown: bool)
    | Load(generation: nat)
    | Post(body: Body)
    | Reload(reloadIframe: Body)
    | Timeout
    | IframeReady(fromFrame: bool, fromOrigin: bool, supported: bool)
    | IframeWillReload(fromFrame: bool, fromOrigin: bool)

  ghost predicate Possible(s: State, step: Step) { step.Timeout? ==> s.timer }

  function Next(s: State, step: Step): State
    requires Inv(s)
  {
    match step
    case Bootstrap(sameOrigin, originKnown) => CreatedAs(s, sameOrigin, sameOrigin && originKnown)
    case Load(generation) => Loaded(s, generation)
    case Post(body) => Posted(s, body)
    case Reload(reloadIframe) => Reloaded(s, reloadIframe)
    case Timeout => Created(s)
    case IframeReady(fromFrame, fromOrigin, supported) => Ready(s, fromFrame, fromOrigin, supported)
    case IframeWillReload(fromFrame, fromOrigin) => WillReload(s, fromFrame, fromOrigin)
  }

  // The events yet to be dealt with are the last ones posted, all for the current frame.
  predicate Outstanding(s: State, q: seq<Event>) {
    && |q| <= |s.posted| == |s.fates|
    && (forall i :: 0 <= i < |q| ==> q[i] == s.posted[|s.posted| - |q| + i] && q[i].generation == s.generation)
    && (forall k :: 0 <= k < |s.fates| ==> (s.fates[k] == Waiting <==> k >= |s.fates| - |q|))
  }

  predicate Numbered(s: State) {
    && (forall k :: 0 <= k < |s.posted| ==> s.posted[k].serial == k && s.posted[k].generation <= s.generation)
    && (forall j, k :: 0 <= j < k < |s.posted| ==> s.posted[j].generation <= s.posted[k].generation)
  }

  // Frames were sent events that were posted for them, in that order, and these are the ones marked as sent.
  predicate SentFine(s: State) {
    && |s.posted| == |s.fates|
    && (forall i :: 0 <= i < |s.sent| ==>
          var e := s.sent[i]; e.serial < |s.posted| && e == s.posted[e.serial] && s.fates[e.serial] == Sent)
    && (forall i, j :: 0 <= i < j < |s.sent| ==> s.sent[i].serial < s.sent[j].serial)
    && (forall k :: 0 <= k < |s.fates| && s.fates[k] == Sent ==> s.posted[k] in s.sent)
  }

  // Why events were not sent: too many newer ones for the same frame, a newer frame, or a frame of unknown origin.
  predicate LostFine(s: State) {
    && |s.posted| == |s.fates|
    && (forall k :: 0 <= k < |s.fates| && s.fates[k] == Overflowed ==>
          k + MAX_PENDING_EVENTS < |s.posted| && s.posted[k + MAX_PENDING_EVENTS].generation == s.posted[k].generation)
    && (forall k :: 0 <= k < |s.fates| && s.fates[k] == Discarded ==> s.posted[k].generation < s.generation)
    && (forall k :: 0 <= k < |s.fates| && s.posted[k].generation == s.generation ==>
          (s.fates[k] == Refused ==> Blocked(s)) && (s.fates[k] == Sent ==> !Blocked(s)))
  }

  predicate Core(s: State, q: seq<Event>) { Outstanding(s, q) && Numbered(s) && SentFine(s) && LostFine(s) }

  predicate Inv(s: State)
    ensures Inv(s) ==> forall i :: 0 <= i < |s.queue| ==> s.queue[i].serial < |s.fates|
  {
    Core(s, s.queue) && |s.queue| <= MAX_PENDING_EVENTS && (s.loaded ==> s.iframe && s.queue == [])
  }

  lemma RecordedCore(s: State, q: seq<Event>, body: Body)
    requires Core(s, q)
    ensures Core(Recorded(s, body), q + [NewEvent(s, body)])
  {
    hide Outstanding, Numbered, SentFine, LostFine, Recorded;
    RecordedOutstanding(s, q, body);
    RecordedSent(s, body);
    RecordedNumbered(s, body);
    RecordedLost(s, body);
  }

  lemma RecordedOutstanding(s: State, q: seq<Event>, body: Body)
    requires Outstanding(s, q)
    ensures Outstanding(Recorded(s, body), q + [NewEvent(s, body)])
  {
  }

  lemma RecordedSent(s: State, body: Body)
    requires SentFine(s)
    ensures SentFine(Recorded(s, body))
  {
    var r := Recorded(s, body);
    forall k | 0 <= k < |r.fates| && r.fates[k] == Sent ensures r.posted[k] in r.sent {
      assert s.posted[k] in s.sent;
    }
  }

  lemma RecordedNumbered(s: State, body: Body)
    requires Numbered(s)
    ensures Numbered(Recorded(s, body))
  {
  }

  lemma RecordedLost(s: State, body: Body)
    requires LostFine(s)
    ensures LostFine(Recorded(s, body))
  {
  }

  lemma SentCore(s: State, q: seq<Event>)
    requires Core(s, q) && q != [] && s.iframe
    ensures q[0].serial < |s.fates| && q[0].generation == s.generation && Core(SentNow(s, q[0]), q[1..])
  {
    hide Outstanding, Numbered, SentFine, LostFine, SentNow;
    FirstOutstanding(s, q);
    SentOutstanding(s, q);
    SentLast(s, q[0]);
    SentMore(s, q[0]);
    SentNumbered(s, q[0]);
    SentLost(s, q[0]);
  }

  lemma FirstOutstanding(s: State, q: seq<Event>)
    requires Outstanding(s, q) && Numbered(s) && q != []
    ensures var e := q[0]; var k := |s.posted| - |q|;
            && e.serial == k < |s.fates| == |s.posted| && e == s.posted[k] && s.fates[k] == Waiting
            && e.generation == s.generation
            && forall j :: 0 <= j < |s.posted| && s.fates[j] != Waiting ==> j < k
  {
  }

  lemma SentOutstanding(s: State, q: seq<Event>)
    requires Outstanding(s, q) && Numbered(s) && q != [] && q[0].serial == |s.posted| - |q|
    ensures Outstanding(SentNow(s, q[0]), q[1..])
  {
  }

  lemma SentLast(s: State, e: Event)
    requires SentFine(s) && forall j :: 0 <= j < |s.posted| && s.fates[j] != Waiting ==> j < e.serial
    ensures forall i :: 0 <= i < |s.sent| ==> s.sent[i].serial < e.serial
  {
  }

  lemma SentMore(s: State, e: Event)
    requires SentFine(s) && e.serial < |s.posted| == |s.fates|
    requires e == s.posted[e.serial] && s.fates[e.serial] == Waiting
    requires e.generation == s.generation && forall i :: 0 <= i < |s.sent| ==> s.sent[i].serial < e.serial
    ensures SentFine(SentNow(s, e))
  {
    hide SentFine;
    if !s.iframe || Blocked(s) {
      NotSent(s, e.serial, Refused);
    } else {
      SentLater(s, e);
      assert e.(generation := s.generation) == e;
    }
  }

  lemma NotSent(s: State, k: nat, fate: Fate)
    requires SentFine(s) && k < |s.fates| && s.fates[k] == Waiting && fate != Sent
    ensures SentFine(WithFate(s, k, fate))
  {
  }

  lemma SentLater(s: State, e: Event)
    requires SentFine(s) && e.serial < |s.posted| && e == s.posted[e.serial]
    requires forall i :: 0 <= i < |s.sent| ==> s.sent[i].serial < e.serial
    ensures SentFine(WithFate(s, e.serial, Sent).(sent := s.sent + [e]))
  {
    var n := WithFate(s, e.serial, Sent).(sent := s.sent + [e]);
    forall k | 0 <= k < |n.fates| && n.fates[k] == Sent ensures n.posted[k] in n.sent {
      if k == e.serial {
        assert n.sent[|n.sent| - 1] == e;
      } else {
        assert s.posted[k] in s.sent;
      }
    }
  }

  lemma SentNumbered(s: State, e: Event)
    requires Numbered(s) && e.serial < |s.fates|
    ensures Numbered(SentNow(s, e))
  {
  }

  lemma SentLost(s: State, e: Event)
    requires LostFine(s) && e.serial < |s.fates| && s.iframe && e.generation == s.generation
    ensures LostFine(SentNow(s, e))
  {
  }

  lemma DroppedCore(s: State, q: seq<Event>)
    requires Core(s, q) && |q| > MAX_PENDING_EVENTS
    ensures q[0].serial < |s.fates| && Core(WithFate(s, q[0].serial, Overflowed), q[1..])
  {
    hide Outstanding, Numbered, SentFine, LostFine;
    FirstOutstanding(s, q);
    DroppedOutstanding(s, q);
    NotSent(s, q[0].serial, Overflowed);
    DroppedRest(s, q);
  }

  lemma DroppedOutstanding(s: State, q: seq<Event>)
    requires Outstanding(s, q) && q != [] && q[0].serial == |s.posted| - |q|
    ensures Outstanding(WithFate(s, q[0].serial, Overflowed), q[1..])
  {
  }

  lemma DroppedRest(s: State, q: seq<Event>)
    requires Outstanding(s, q) && Numbered(s) && LostFine(s) && |q| > MAX_PENDING_EVENTS
    requires q[0].serial == |s.posted| - |q| && q[0] == s.posted[q[0].serial]
    ensures Numbered(WithFate(s, q[0].serial, Overflowed)) && LostFine(WithFate(s, q[0].serial, Overflowed))
  {
    hide SentFine;
    assert q[MAX_PENDING_EVENTS] == s.posted[q[0].serial + MAX_PENDING_EVENTS];
    assert q[0].generation == q[MAX_PENDING_EVENTS].generation;
  }

  lemma OutstandingSerials(s: State, q: seq<Event>)
    requires Outstanding(s, q) && Numbered(s)
    ensures forall i :: 0 <= i < |q| ==> q[i].serial < |s.fates|
  {
  }

  lemma TrimmedOnce(s: State)
    requires |s.queue| == MAX_PENDING_EVENTS + 1 && forall i :: 0 <= i < |s.queue| ==> s.queue[i].serial < |s.fates|
    ensures Trimmed(s) == WithFate(s, s.queue[0].serial, Overflowed).(queue := s.queue[1..])
  {
    var less := WithFate(s, s.queue[0].serial, Overflowed).(queue := s.queue[1..]);
    assert Trimmed(less) == less;
  }

  lemma PostedKeeps(s: State, body: Body)
    requires Inv(s)
    ensures Inv(Posted(s, body))
  {
    hide Outstanding, Numbered, SentFine, LostFine, Trimmed;
    RecordedCore(s, s.queue, body);
    var r, e := Recorded(s, body), NewEvent(s, body);
    if !s.iframe || !s.loaded {
      var full := r.(queue := s.queue + [e]);
      SameCore(r, full, full.queue);
      OutstandingSerials(full, full.queue);
      if |full.queue| > MAX_PENDING_EVENTS {
        DroppedCore(full, full.queue);
        var less := WithFate(full, full.queue[0].serial, Overflowed);
        SameCore(less, less.(queue := full.queue[1..]), full.queue[1..]);
        TrimmedOnce(full);
      } else {
        NotTrimmed(full);
      }
    } else {
      assert s.queue + [e] == [e] && [e][1..] == [];
      SentCore(r, [e]);
    }
  }

  lemma NotTrimmed(s: State)
    requires |s.queue| <= MAX_PENDING_EVENTS && forall i :: 0 <= i < |s.queue| ==> s.queue[i].serial < |s.fates|
    ensures Trimmed(s) == s
  {
  }

  // The invariant does not depend on the rest of the state.
  lemma SameCore(s: State, t: State, q: seq<Event>)
    requires Core(s, q) && t.posted == s.posted && t.fates == s.fates && t.sent == s.sent
    requires t.generation == s.generation
    requires t.sameOrigin == s.sameOrigin && t.originKnown == s.originKnown
    ensures Core(t, q)
  {
    hide Outstanding, Numbered, SentFine, LostFine;
    SameSent(s, t);
    SameRest(s, t, q);
  }

  lemma SameSent(s: State, t: State)
    requires SentFine(s) && t.posted == s.posted && t.fates == s.fates && t.sent == s.sent
    ensures SentFine(t)
  {
  }

  lemma SameRest(s: State, t: State, q: seq<Event>)
    requires Outstanding(s, q) && Numbered(s) && LostFine(s)
    requires t.posted == s.posted && t.fates == s.fates && t.generation == s.generation && Blocked(t) == Blocked(s)
    ensures Outstanding(t, q) && Numbered(t) && LostFine(t)
  {
  }

  lemma {:induction false} AllSentCore(s: State, q: seq<Event>)
    requires Core(s, q) && s.iframe && s.queue == []
    requires forall i :: 0 <= i < |q| ==> q[i].serial < |s.fates|
    ensures var n := AllSent(s, q);
      Core(n, []) && n.queue == [] && n.iframe && n.loaded == s.loaded
    decreases |q|
  {
    hide Outstanding, Numbered, SentFine, LostFine;
    if q != [] {
      SentCore(s, q);
      AllSentCore(SentNow(s, q[0]), q[1..]);
    }
  }

  lemma LoadedKeeps(s: State, generation: nat)
    requires Inv(s)
    ensures Inv(Loaded(s, generation))
  {
    hide Outstanding, Numbered, SentFine, LostFine, AllSent;
    if s.iframe && generation == s.generation {
      var l := s.(loaded := true, queue := []);
      SameCore(s, l, s.queue);
      AllSentCore(l, s.queue);
    }
  }

  lemma CreatedCore(s: State, sameOrigin: bool, originKnown: bool)
    requires Core(s, s.queue)
    ensures Core(CreatedAs(s, sameOrigin, originKnown), [])
  {
    var c := CreatedAs(s, sameOrigin, originKnown);
    assert Outstanding(c, []);
    assert SentFine(c);
  }

  lemma CreatedKeeps(s: State, sameOrigin: bool, originKnown: bool)
    requires Inv(s)
    ensures Inv(CreatedAs(s, sameOrigin, originKnown))
  {
    hide Outstanding, Numbered, SentFine, LostFine;
    CreatedCore(s, sameOrigin, originKnown);
  }

  lemma ReloadedKeeps(s: State, reloadIframe: Body)
    requires Inv(s)
    ensures Inv(Reloaded(s, reloadIframe))
  {
    hide Outstanding, Numbered, SentFine, LostFine;
    if s.iframe && s.reloadSupported && s.loaded {
      var r, e := Recorded(s, reloadIframe), NewEvent(s, reloadIframe);
      RecordedCore(s, s.queue, reloadIframe);
      assert s.queue + [e] == [e] && [e][1..] == [];
      SentCore(r, [e]);
      SameCore(SentNow(r, e), SentNow(r, e).(timer := true), []);
    } else if s.iframe {
      CreatedKeeps(s, s.sameOrigin, s.originKnown);
      assert CreatedAs(s, s.sameOrigin, s.originKnown) == Created(s);
    }
  }

  lemma NextKeeps(s: State, step: Step)
    requires Inv(s)
    ensures Inv(Next(s, step))
  {
    hide Core, Posted, Loaded, Reloaded, Created;
    match step
    case Bootstrap(sameOrigin, originKnown) =>
      CreatedKeeps(s, sameOrigin, sameOrigin && originKnown);
    case Load(generation) =>
      LoadedKeeps(s, generation);
    case Post(body) =>
      PostedKeeps(s, body);
    case Reload(reloadIframe) =>
      ReloadedKeeps(s, reloadIframe);
    case Timeout =>
      CreatedKeeps(s, s.sameOrigin, s.originKnown);
      assert s.(sameOrigin := s.sameOrigin, originKnown := s.originKnown) == s;
    case IframeReady(fromFrame, fromOrigin, supported) =>
      SameCore(s, Ready(s, fromFrame, fromOrigin, supported), s.queue);
    case IframeWillReload(fromFrame, fromOrigin) =>
      SameCore(s, WillReload(s, fromFrame, fromOrigin), s.queue);
  }

  ghost predicate Run(s: State, steps: seq<Step>)
    requires Inv(s)
    decreases |steps|
  {
    steps != [] ==> Possible(s, steps[0]) && (NextKeeps(s, steps[0]); Run(Next(s, steps[0]), steps[1..]))
  }

  ghost function After(s: State, steps: seq<Step>): State
    requires Inv(s) && Run(s, steps)
    decreases |steps|
  {
    if steps == [] then s
    else
      NextKeeps(s, steps[0]);
      After(Next(s, steps[0]), steps[1..])
  }

  lemma {:induction false} RunKeeps(s: State, steps: seq<Step>)
    requires Inv(s) && Run(s, steps)
    ensures Inv(After(s, steps))
    decreases |steps|
  {
    hide Inv, Next, Possible;
    if steps != [] {
      NextKeeps(s, steps[0]);
      RunKeeps(Next(s, steps[0]), steps[1..]);
    }
  }

  lemma InitialFine()
    ensures Inv(INITIAL)
  {
  }

  // In every run: what waits is for the current frame, nothing waits for a loaded frame, and never more than 64
  // events do.
  lemma QueueIsCurrent(steps: seq<Step>)
    requires Inv(INITIAL) && Run(INITIAL, steps)
    ensures var s := After(INITIAL, steps);
      && (forall i :: 0 <= i < |s.queue| ==> s.queue[i].generation == s.generation)
      && (s.loaded ==> s.queue == []) && |s.queue| <= 64
  {
    hide Run, After, Numbered, SentFine, LostFine;
    RunKeeps(INITIAL, steps);
  }

  // A frame is sent only events posted for it, each once, in the order they were posted.
  lemma SentInOrder(steps: seq<Step>, i: nat, j: nat)
    requires Inv(INITIAL) && Run(INITIAL, steps) && i < j < |After(INITIAL, steps).sent|
    ensures var s := After(INITIAL, steps);
      && s.sent[i].serial < s.sent[j].serial < |s.posted|
      && s.sent[i] == s.posted[s.sent[i].serial] && s.sent[j] == s.posted[s.sent[j].serial]
  {
    hide Run, After, Numbered, Outstanding, LostFine;
    RunKeeps(INITIAL, steps);
  }

  // An event for the current frame is waiting, or was sent, unless 64 newer ones for that frame pushed it out,
  // or the frame must be of this origin and its origin is not known.
  lemma NothingElseIsLost(steps: seq<Step>, k: nat)
    requires Inv(INITIAL) && Run(INITIAL, steps) && k < |After(INITIAL, steps).posted|
    requires var s := After(INITIAL, steps); s.posted[k].generation == s.generation && !Blocked(s)
    ensures var s := After(INITIAL, steps);
      || s.posted[k] in s.queue
      || s.posted[k] in s.sent
      || (k + 64 < |s.posted| && s.posted[k + 64].generation == s.generation)
  {
    hide Run, After, Numbered;
    RunKeeps(INITIAL, steps);
    var s := After(INITIAL, steps);
    if s.fates[k] == Waiting {
      assert s.queue[k - (|s.posted| - |s.queue|)] == s.posted[k];
    }
  }

  // Too many events: the oldest makes room.
  lemma OldestMakesRoom(s: State, body: Body)
    requires Inv(s) && !s.loaded && |s.queue| == 64
    ensures Posted(s, body).queue == s.queue[1..] + [NewEvent(s, body)]
  {
    hide Trimmed;
    var r := Recorded(s, body).(queue := s.queue + [NewEvent(s, body)]);
    TrimmedOnce(r);
    assert r.queue[1..] == s.queue[1..] + [NewEvent(s, body)];
  }

  // Step by step, what the frame is sent and whether it is a new one.

  lemma {:induction false} AllSentMeans(s: State, q: seq<Event>)
    requires s.iframe && forall i :: 0 <= i < |q| ==> q[i].serial < |s.fates| && q[i].generation == s.generation
    ensures var t := AllSent(s, q);
      t == s.(sent := if s.sameOrigin && !s.originKnown then s.sent else s.sent + q, fates := t.fates)
    decreases |q|
  {
    if q == [] {
      assert s.sent + q == s.sent;
    } else {
      AllSentMeans(SentNow(s, q[0]), q[1..]);
      assert s.sent + [q[0]] + q[1..] == s.sent + q;
    }
  }

  // An event goes out to the frame of its own generation, if that is the current one and its origin is no hindrance.
  lemma SendMeans(s: State, e: Event)
    requires e.serial < |s.fates|
    ensures SentNow(s, e) == s.(fates := SentNow(s, e).fates,
      sent := if s.iframe && e.generation == s.generation && (s.sameOrigin ==> s.originKnown)
              then s.sent + [e] else s.sent)
  {
  }

  // A post reaches a loaded frame at once, unless its origin matters and is not known; else it waits.
  lemma PostMeans(s: State, body: Body)
    requires Inv(s)
    ensures var t, e := Next(s, Post(body)), Event(s.generation, |s.posted|, body);
      && t.posted == s.posted + [e] && t.generation == s.generation && t.loaded == s.loaded && t.iframe == s.iframe
      && t.reloadSupported == s.reloadSupported && t.timer == s.timer
      && if s.loaded then t.queue == [] && t.sent == if s.sameOrigin && !s.originKnown then s.sent else s.sent + [e]
         else
           && t.sent == s.sent
           && t.queue == (if |s.queue| < 64 then s.queue else s.queue[1..]) + [e]
  {
    hide Core, Trimmed;
    var e := NewEvent(s, body);
    var r := Recorded(s, body).(queue := s.queue + [e]);
    if !s.loaded {
      InvOnly(s);
      assert forall i :: 0 <= i < |r.queue| ==> r.queue[i].serial < |r.fates|;
      if |s.queue| < 64 {
        NotTrimmed(r);
      } else {
        TrimmedOnce(r);
        assert r.queue[1..] == s.queue[1..] + [e];
      }
    }
  }

  // The load of the current frame sends it all that waits; that of an older one, or of none, does nothing.
  lemma LoadMeans(s: State, generation: nat)
    requires Inv(s)
    ensures var t := Next(s, Load(generation));
      if s.iframe && generation == s.generation then
        t == s.(loaded := true, queue := [], fates := t.fates,
                sent := if s.sameOrigin && !s.originKnown then s.sent else s.sent + s.queue)
      else t == s
  {
    hide Numbered, SentFine, LostFine, AllSent;
    if s.iframe && generation == s.generation {
      AllSentMeans(s.(loaded := true, queue := []), s.queue);
    }
  }

  // A new frame: of the next generation, not loaded, nothing waiting for it, and not known to reload by itself.
  ghost predicate NewFrame(s: State, t: State) {
    && t.iframe && t.generation == s.generation + 1 && !t.loaded && !t.reloadSupported && !t.timer && t.queue == []
    && t.sent == s.sent && t.posted == s.posted
  }

  // A frame that is loaded and can reload by itself is asked to, and given time; any other gives way to a new one.
  lemma ReloadMeans(s: State, reloadIframe: Body)
    requires Inv(s)
    ensures var t, e := Next(s, Reload(reloadIframe)), Event(s.generation, |s.posted|, reloadIframe);
      if !s.iframe then t == s
      else if s.reloadSupported && s.loaded then
        t == s.(timer := true, posted := s.posted + [e], fates := t.fates,
                sent := if s.sameOrigin && !s.originKnown then s.sent else s.sent + [e])
      else NewFrame(s, t) && t.sameOrigin == s.sameOrigin && t.originKnown == s.originKnown
  {
    hide Core;
  }

  lemma NewFrameMeans(s: State, step: Step)
    requires Inv(s) && (step.Timeout? || step.Bootstrap?)
    ensures var t := Next(s, step);
      && NewFrame(s, t)
      && t.sameOrigin == (if step.Bootstrap? then step.sameOrigin else s.sameOrigin)
      && t.originKnown == (if step.Bootstrap? then step.sameOrigin && step.originKnown else s.originKnown)
  {
    hide Core;
  }

  // What the frame says about itself counts only from this frame, and from its origin where that matters.
  lemma HeardMeans(s: State, fromFrame: bool, fromOrigin: bool, supported: bool)
    requires Inv(s)
    ensures var heard := s.iframe && fromFrame && (s.sameOrigin ==> s.originKnown && fromOrigin);
      && Next(s, IframeReady(fromFrame, fromOrigin, supported)) ==
           s.(reloadSupported := if heard then supported else s.reloadSupported)
      && Next(s, IframeWillReload(fromFrame, fromOrigin)) ==
           s.(timer := s.timer && !heard, loaded := s.loaded && !heard)
  {
    hide Core;
  }

  // In every run on from a frame that is not loaded, or about to reload: until the load of this frame or of a newer one
  // nothing is sent, whatever is posted and whichever older frames load.
  lemma {:induction false} SilentUntilLoaded(s: State, steps: seq<Step>)
    requires Inv(s) && !s.loaded && Run(s, steps)
    requires forall i :: 0 <= i < |steps| ==> steps[i].Load? ==> steps[i].generation < s.generation
    ensures var t := After(s, steps); t.sent == s.sent && !t.loaded && s.generation <= t.generation
    decreases |steps|
  {
    hide Inv, Next, Possible;
    if steps != [] {
      var t := Next(s, steps[0]);
      NextKeeps(s, steps[0]);
      SilentStep(s, steps[0]);
      forall i | 0 <= i < |steps[1..]| ensures steps[1..][i].Load? ==> steps[1..][i].generation < t.generation {
        assert steps[1..][i] == steps[i + 1];
      }
      SilentUntilLoaded(t, steps[1..]);
    }
  }

  lemma SilentStep(s: State, step: Step)
    requires Inv(s) && !s.loaded && (step.Load? ==> step.generation < s.generation)
    ensures var t := Next(s, step); t.sent == s.sent && !t.loaded && s.generation <= t.generation
  {
    hide Inv, Next;
    match step
    case Bootstrap(_, _) => NewFrameMeans(s, step);
    case Load(generation) => LoadMeans(s, generation);
    case Post(body) => PostMeans(s, body);
    case Reload(reloadIframe) => ReloadMeans(s, reloadIframe);
    case Timeout => NewFrameMeans(s, step);
    case IframeReady(fromFrame, fromOrigin, supported) => HeardMeans(s, fromFrame, fromOrigin, supported);
    case IframeWillReload(fromFrame, fromOrigin) => HeardMeans(s, fromFrame, fromOrigin, false);
  }

  lemma InvOnly(s: State)
    requires Inv(s)
    ensures |s.posted| == |s.fates|
  {
  }
}

/** The part of the shell page that talks to the frame. */
module FrameQueuePage {
  import opened FrameQueueSpec

  class Page {
    var iframe: bool
    var frameLoaded: bool
    var frameGeneration: nat
    var reloadSupported: bool
    var reloadTimeout: bool
    var sameOrigin: bool
    var originKnown: bool
    var pendingEvents: seq<Event>
    var sent: seq<Event>
    var count: nat
    ghost var posted: seq<Event>
    ghost var fates: seq<Fate>

    constructor ()
      ensures Now() == INITIAL && Inv(Now()) && Counted()
    {
      iframe, frameLoaded, frameGeneration, reloadSupported, reloadTimeout := false, false, 0, false, false;
      sameOrigin, originKnown, pendingEvents, sent, count, posted, fates := false, false, [], [], 0, [], [];
      new;
      InitialFine();
    }

    ghost function Now(): State
      reads this
    {
      State(iframe, frameLoaded, frameGeneration, reloadSupported, reloadTimeout, sameOrigin, originKnown,
            pendingEvents, posted, fates, sent)
    }

    ghost predicate Counted()
      reads this
    {
      count == |posted| == |fates|
    }

    method SendToFrame(e: Event)
      requires Counted() && e.serial < count
      modifies this`sent, this`fates
      ensures Counted() && Now() == SentNow(old(Now()), e)
    {
      fates := fates[e.serial := Refused];
      if !iframe || e.generation != frameGeneration {
        return;
      }
      if sameOrigin && !originKnown {
        return;
      }
      fates := fates[e.serial := Sent];
      sent := sent + [e];
    }

    method Record(body: Body) returns (e: Event)
      requires Counted()
      modifies this`count, this`posted, this`fates
      ensures Counted() && e == NewEvent(old(Now()), body) && Now() == Recorded(old(Now()), body)
    {
      e := Event(frameGeneration, count, body);
      posted, fates, count := posted + [e], fates + [Waiting], count + 1;
    }

    method PostToFrame(body: Body)
      requires Inv(Now()) && Counted()
      modifies this`count, this`posted, this`fates, this`pendingEvents, this`sent
      ensures Now() == Posted(old(Now()), body) && Inv(Now()) && Counted()
    {
      hide Core, Trimmed;
      PostedKeeps(Now(), body);
      var e := Record(body);
      if !iframe || !frameLoaded {
        pendingEvents := pendingEvents + [e];
        Trim();
        return;
      }
      SendToFrame(e);
    }

    method Trim()
      requires Counted() && forall i :: 0 <= i < |pendingEvents| ==> pendingEvents[i].serial < |fates|
      modifies this`fates, this`pendingEvents
      ensures Counted() && Now() == Trimmed(old(Now()))
    {
      while |pendingEvents| > MAX_PENDING_EVENTS
        invariant Counted() && forall i :: 0 <= i < |pendingEvents| ==> pendingEvents[i].serial < |fates|
        invariant Trimmed(Now()) == Trimmed(old(Now()))
        decreases |pendingEvents|
      {
        fates := fates[pendingEvents[0].serial := Overflowed];
        pendingEvents := pendingEvents[1..];
      }
    }

    method FlushPendingEvents()
      requires Counted() && forall i :: 0 <= i < |pendingEvents| ==> pendingEvents[i].serial < |fates|
      modifies this`pendingEvents, this`sent, this`fates
      ensures Counted() && Now() == AllSent(old(Now()).(queue := []), old(pendingEvents))
    {
      hide SentNow;
      var pending := pendingEvents;
      pendingEvents := [];
      ghost var start := Now();
      for i := 0 to |pending|
        invariant Counted() && |fates| == |start.fates|
        invariant AllSent(Now(), pending[i..]) == AllSent(start, pending)
        invariant pendingEvents == []
      {
        var event := pending[i];
        assert pending[i..][1..] == pending[i + 1..];
        if event.generation == frameGeneration {
          SendToFrame(event);
        } else {
          fates := fates[event.serial := Discarded];
        }
      }
      assert pending[|pending|..] == [];
    }

    // The frame of this generation has loaded.
    method FrameLoad(generation: nat)
      requires Inv(Now()) && Counted()
      modifies this`frameLoaded, this`pendingEvents, this`sent, this`fates
      ensures Now() == Loaded(old(Now()), generation) && Inv(Now()) && Counted()
    {
      hide Core, AllSent;
      LoadedKeeps(Now(), generation);
      if !iframe || generation != frameGeneration {
        return;
      }
      frameLoaded := true;
      FlushPendingEvents();
    }

    method DropPending()
      requires Counted()
      modifies this`pendingEvents, this`fates
      ensures Now() == AllDiscarded(old(Now())) && Counted()
    {
      fates := AllDiscarded(Now()).fates;
      pendingEvents := [];
    }

    method CreateIframe()
      requires Counted()
      modifies this`reloadTimeout, this`frameGeneration, this`pendingEvents, this`fates, this`frameLoaded,
        this`reloadSupported, this`iframe
      ensures Now() == Created(old(Now())) && Counted()
    {
      hide AllDiscarded;
      DropPending();
      reloadTimeout, frameGeneration := false, frameGeneration + 1;
      frameLoaded, reloadSupported := false, false;
      iframe := true;
    }

    method Bootstrap(same: bool, known: bool)
      requires Inv(Now()) && Counted()
      modifies this
      ensures Now() == CreatedAs(old(Now()), same, same && known) && Inv(Now()) && Counted()
    {
      hide Inv, Created;
      CreatedKeeps(Now(), same, same && known);
      sameOrigin := same;
      originKnown := if same then known else false;
      CreateIframe();
    }

    method ReloadFrame(reloadIframe: Body)
      requires Inv(Now()) && Counted()
      modifies this
      ensures Now() == Reloaded(old(Now()), reloadIframe) && Inv(Now()) && Counted()
    {
      hide Core, Created;
      ReloadedKeeps(Now(), reloadIframe);
      if !iframe {
        return;
      }
      if reloadSupported && frameLoaded {
        var e := Record(reloadIframe);
        SendToFrame(e);
        reloadTimeout := true;
        return;
      }
      CreateIframe();
    }

    method ReloadTimedOut()
      requires Inv(Now()) && Counted() && reloadTimeout
      modifies this
      ensures Now() == Created(old(Now())) && Inv(Now()) && Counted()
    {
      hide Inv, Created;
      CreatedKeeps(Now(), sameOrigin, originKnown);
      assert Now().(sameOrigin := sameOrigin, originKnown := originKnown) == Now();
      CreateIframe();
    }

    method OnIframeReady(fromFrame: bool, fromOrigin: bool, supported: bool)
      requires Inv(Now()) && Counted()
      modifies this`reloadSupported
      ensures Now() == Ready(old(Now()), fromFrame, fromOrigin, supported) && Inv(Now()) && Counted()
    {
      hide Inv;
      NextKeeps(Now(), IframeReady(fromFrame, fromOrigin, supported));
      if !iframe || !fromFrame {
        return;
      }
      if sameOrigin && (!originKnown || !fromOrigin) {
        return;
      }
      reloadSupported := supported;
    }

    method OnIframeWillReload(fromFrame: bool, fromOrigin: bool)
      requires Inv(Now()) && Counted()
      modifies this`reloadTimeout, this`frameLoaded
      ensures Now() == WillReload(old(Now()), fromFrame, fromOrigin) && Inv(Now()) && Counted()
    {
      hide Inv;
      NextKeeps(Now(), IframeWillReload(fromFrame, fromOrigin));
      if !iframe || !fromFrame {
        return;
      }
      if sameOrigin && (!originKnown || !fromOrigin) {
        return;
      }
      if reloadTimeout {
        reloadTimeout := false;
      }
      frameLoaded := false;
    }
  }
}
