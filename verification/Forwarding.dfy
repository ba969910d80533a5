/** What forwarding sends: the chosen messages by position, cut into runs of one peer and one kind, and paid for. */
module ForwardSpec {
  datatype Item = Item(id: int, peer: int, date: int, ephemeral: bool, lookupId: int, savedMusic: bool)

  // `MessagePosition::operator<`
  predicate Before(a: Item, b: Item) {
    a.date < b.date || (a.date == b.date && (a.peer < b.peer || (a.peer == b.peer && a.id < b.id)))
  }

  ghost predicate Ordered(s: seq<Item>) { forall i, j :: 0 <= i < j < |s| ==> !Before(s[j], s[i]) }

  function Insert(x: Item, s: seq<Item>): seq<Item> {
    if s == [] || !Before(s[0], x) then [x] + s else [s[0]] + Insert(x, s[1..])
  }

  function SortByPosition(s: seq<Item>): seq<Item> {
    if s == [] then [] else Insert(s[0], SortByPosition(s[1..]))
  }

  lemma {:induction false} InsertKeeps(x: Item, s: seq<Item>)
    ensures multiset(Insert(x, s)) == multiset(s) + multiset{x}
  {
    hide Before;
    if s != [] && Before(s[0], x) {
      InsertKeeps(x, s[1..]);
      assert s == [s[0]] + s[1..];
    }
  }

  lemma {:induction false} InsertOrders(x: Item, s: seq<Item>)
    requires Ordered(s)
    ensures Ordered(Insert(x, s)) && multiset(Insert(x, s)) == multiset(s) + multiset{x}
  {
    InsertKeeps(x, s);
    if s != [] && Before(s[0], x) {
      InsertOrders(x, s[1..]);
      var rest := Insert(x, s[1..]);
      forall j | 0 <= j < |rest| ensures !Before(rest[j], s[0]) {
        assert rest[j] in multiset(rest);
        assert rest[j] == x || rest[j] in s[1..];
      }
    }
  }

  lemma {:induction false} SortOrders(s: seq<Item>)
    ensures Ordered(SortByPosition(s)) && multiset(SortByPosition(s)) == multiset(s)
  {
    if s != [] {
      SortOrders(s[1..]);
      InsertOrders(s[0], SortByPosition(s[1..]));
      assert s == [s[0]] + s[1..];
    }
  }

  // Different messages have different positions.
  ghost predicate Apart(s: seq<Item>) {
    forall i, j :: 0 <= i < |s| && 0 <= j < |s| && s[i].peer == s[j].peer && s[i].id == s[j].id ==> s[i] == s[j]
  }

  lemma SameFirst(s: seq<Item>, t: seq<Item>)
    requires Ordered(s) && Ordered(t) && multiset(s) == multiset(t) && Apart(s) && s != [] && t != []
    ensures s[0] == t[0]
  {
    assert s[0] in multiset(t) && t[0] in multiset(s);
    var i :| 0 <= i < |t| && t[i] == s[0];
    var j :| 0 <= j < |s| && s[j] == t[0];
    assert !Before(s[0], t[0]) && !Before(t[0], s[0]);
  }

  lemma RestOrdered(s: seq<Item>)
    requires Ordered(s) && s != []
    ensures Ordered(s[1..]) && (Apart(s) ==> Apart(s[1..]))
  {
    hide Before;
  }

  // Whatever way the messages get ordered by position, this is the outcome.
  lemma {:induction false} OnlyOneOrder(s: seq<Item>, t: seq<Item>)
    requires Ordered(s) && Ordered(t) && multiset(s) == multiset(t) && Apart(s)
    ensures s == t
  {
    hide Before, Ordered, Apart;
    assert |s| == |multiset(s)| == |multiset(t)| == |t|;
    if s != [] {
      SameFirst(s, t);
      assert s == [s[0]] + s[1..] && t == [t[0]] + t[1..];
      assert multiset(s[1..]) == multiset(s) - multiset{s[0]} == multiset(t[1..]);
      RestOrdered(s);
      RestOrdered(t);
      OnlyOneOrder(s[1..], t[1..]);
    }
  }

  // Ephemeral messages that cannot be looked up are not forwarded.

  predicate CanForward(item: Item) { item.ephemeral ==> item.lookupId != 0 }

  function Forwardable(s: seq<Item>): (r: seq<Item>)
    ensures forall i :: 0 <= i < |r| ==> r[i] in s && CanForward(r[i])
  {
    if s == [] then []
    else
      var rest := Forwardable(s[..|s| - 1]);
      if CanForward(s[|s| - 1]) then rest + [s[|s| - 1]] else rest
  }

  function IdOf(item: Item): int { if item.ephemeral then item.lookupId else item.id }

  function IdsOf(items: seq<Item>): (r: seq<int>)
    ensures |r| == |items|
  {
    seq(|items|, i requires 0 <= i < |items| => IdOf(items[i]))
  }

  // Runs of messages of one kind, or, by peer, of one kind and one peer.

  predicate Together(a: Item, b: Item, byPeer: bool) { a.ephemeral == b.ephemeral && (byPeer ==> a.peer == b.peer) }

  function Added(groups: seq<seq<Item>>, item: Item, byPeer: bool): (r: seq<seq<Item>>) {
    if groups != [] && var last := groups[|groups| - 1]; last != [] && Together(last[0], item, byPeer)
    then groups[|groups| - 1 := groups[|groups| - 1] + [item]]
    else groups + [[item]]
  }

  function Grouped(items: seq<Item>, byPeer: bool): seq<seq<Item>> {
    if items == [] then [] else Added(Grouped(items[..|items| - 1], byPeer), items[|items| - 1], byPeer)
  }

  function Flat<T>(groups: seq<seq<T>>): seq<T> {
    if groups == [] then [] else Flat(groups[..|groups| - 1]) + groups[|groups| - 1]
  }

  ghost predicate GroupsFine(groups: seq<seq<Item>>, byPeer: bool) {
    && (forall k :: 0 <= k < |groups| ==> groups[k] != [])
    && (forall k, i :: 0 <= k < |groups| && 0 <= i < |groups[k]| ==> Together(groups[k][0], groups[k][i], byPeer))
    && (forall k :: 0 < k < |groups| ==> !Together(groups[k - 1][0], groups[k][0], byPeer))
  }

  lemma AddedFine(groups: seq<seq<Item>>, item: Item, byPeer: bool)
    requires GroupsFine(groups, byPeer)
    ensures GroupsFine(Added(groups, item, byPeer), byPeer)
    ensures Flat(Added(groups, item, byPeer)) == Flat(groups) + [item]
  {
    var r := Added(groups, item, byPeer);
    if |r| == |groups| {
      assert r[..|r| - 1] == groups[..|r| - 1];
    } else {
      assert r[..|r| - 1] == groups;
    }
  }

  // The groups are the messages in their order, none empty, each of one peer and kind, and as long as can be.
  lemma {:induction false} GroupedFine(items: seq<Item>, byPeer: bool)
    ensures GroupsFine(Grouped(items, byPeer), byPeer) && Flat(Grouped(items, byPeer)) == items
  {
    hide GroupsFine, Added, Flat;
    if items == [] {
      NoGroups(byPeer);
    } else {
      GroupedFine(items[..|items| - 1], byPeer);
      AddedFine(Grouped(items[..|items| - 1], byPeer), items[|items| - 1], byPeer);
      assert items == items[..|items| - 1] + [items[|items| - 1]];
    }
  }

  lemma NoGroups(byPeer: bool)
    ensures GroupsFine([], byPeer) && Flat<Item>([]) == []
  {
  }

  // Dropping the last message of groups like that.
  lemma LessFine(groups: seq<seq<Item>>, byPeer: bool) returns (less: seq<seq<Item>>, item: Item)
    requires GroupsFine(groups, byPeer) && groups != []
    ensures GroupsFine(less, byPeer) && Added(less, item, byPeer) == groups && Flat(less) + [item] == Flat(groups)
  {
    hide Flat, GroupsFine, Added;
    LastSolid(groups, byPeer);
    var last := groups[|groups| - 1];
    item := last[|last| - 1];
    if |last| == 1 {
      less := groups[..|groups| - 1];
      WithoutLast(groups, byPeer);
    } else {
      less := groups[|groups| - 1 := last[..|last| - 1]];
      WithShorterLast(groups, byPeer);
    }
    AddedFine(less, item, byPeer);
  }

  lemma LastSolid(groups: seq<seq<Item>>, byPeer: bool)
    requires GroupsFine(groups, byPeer) && groups != []
    ensures groups[|groups| - 1] != []
  {
  }

  lemma WithoutLast(groups: seq<seq<Item>>, byPeer: bool)
    requires GroupsFine(groups, byPeer) && groups != [] && |groups[|groups| - 1]| == 1
    ensures var less := groups[..|groups| - 1];
            GroupsFine(less, byPeer) && Added(less, groups[|groups| - 1][0], byPeer) == groups
  {
    hide Together;
    var less, last := groups[..|groups| - 1], groups[|groups| - 1];
    assert last == [last[0]] && groups == less + [last];
  }

  lemma WithShorterLast(groups: seq<seq<Item>>, byPeer: bool)
    requires GroupsFine(groups, byPeer) && groups != [] && |groups[|groups| - 1]| > 1
    ensures var last := groups[|groups| - 1];
            var less := groups[|groups| - 1 := last[..|last| - 1]];
            GroupsFine(less, byPeer) && Added(less, last[|last| - 1], byPeer) == groups
  {
    hide Together;
    var last := groups[|groups| - 1];
    var less := groups[|groups| - 1 := last[..|last| - 1]];
    assert last == last[..|last| - 1] + [last[|last| - 1]];
    assert Together(last[0], last[|last| - 1], byPeer);
    assert groups == less[|groups| - 1 := less[|groups| - 1] + [last[|last| - 1]]];
  }

  // And there is only one way to cut the messages like that.
  lemma {:induction false} OnlyOneGrouping(groups: seq<seq<Item>>, byPeer: bool)
    requires GroupsFine(groups, byPeer)
    ensures groups == Grouped(Flat(groups), byPeer)
    decreases |Flat(groups)|
  {
    hide GroupsFine, Added;
    if groups != [] {
      var less, item := LessFine(groups, byPeer);
      var items := Flat(groups);
      assert items[..|items| - 1] == Flat(less) && items[|items| - 1] == item;
      OnlyOneGrouping(less, byPeer);
    }
  }

  // The requests.

  datatype Request = Request(from: int, ephemeral: bool, ids: seq<int>, randomIds: seq<int>, stars: int)

  ghost predicate Carries(r: Request, group: seq<Item>) {
    group != [] && r.from == group[0].peer && r.ephemeral == group[0].ephemeral && r.ids == IdsOf(group)
    && |r.randomIds| == |r.ids|
  }

  ghost predicate CarryAll(sent: seq<Request>, groups: seq<seq<Item>>) {
    |sent| == |groups| && forall i :: 0 <= i < |sent| ==> Carries(sent[i], groups[i])
  }

  function RandomIds(sent: seq<Request>): seq<int> {
    if sent == [] then [] else RandomIds(sent[..|sent| - 1]) + sent[|sent| - 1].randomIds
  }

  function Ids(sent: seq<Request>): seq<int> {
    if sent == [] then [] else Ids(sent[..|sent| - 1]) + sent[|sent| - 1].ids
  }

  lemma {:induction false} IdsInOrder(sent: seq<Request>, groups: seq<seq<Item>>)
    requires CarryAll(sent, groups)
    ensures Ids(sent) == IdsOf(Flat(groups)) && |Ids(sent)| == |RandomIds(sent)|
  {
    if sent != [] {
      IdsInOrder(sent[..|sent| - 1], groups[..|groups| - 1]);
      var r, g := sent[|sent| - 1], groups[|groups| - 1];
      assert Carries(r, g);
      var init := Flat(groups[..|groups| - 1]);
      assert IdsOf(init + g) == IdsOf(init) + IdsOf(g);
    }
  }

  // The messages to forward, once the saved music was sent by itself.
  function NoMusic(s: seq<Item>): seq<Item> {
    if s == [] then [] else (if s[0].savedMusic then [] else [s[0]]) + NoMusic(s[1..])
  }

  function MusicIds(s: seq<Item>): seq<int> {
    if s == [] then [] else (if s[0].savedMusic then [s[0].id] else []) + MusicIds(s[1..])
  }

  function Collected(draft: seq<Item>): seq<Item> { Forwardable(SortByPosition(NoMusic(draft))) }

  // In a word: non-empty requests of one peer and one kind, as many random ids as ids, the messages in order.
  lemma RequestsPartition(draft: seq<Item>, sent: seq<Request>)
    requires CarryAll(sent, Grouped(Collected(draft), true))
    ensures |Ids(sent)| == |Collected(draft)| && forall n :: 0 <= n < |Ids(sent)| ==>
      var item := Collected(draft)[n]; Ids(sent)[n] == if item.ephemeral then item.lookupId else item.id
    ensures forall k :: 0 <= k < |sent| ==> sent[k].ids != [] && |sent[k].ids| == |sent[k].randomIds|
    ensures forall k :: 0 < k < |sent| ==>
      (sent[k].from, sent[k].ephemeral) != (sent[k - 1].from, sent[k - 1].ephemeral)
    ensures forall k, i :: 0 <= k < |sent| && 0 <= i < |sent[k].ids| ==>
      var group := Grouped(Collected(draft), true)[k];
      && |group| == |sent[k].ids| && group[i] in Collected(draft)
      && sent[k].ids[i] == (if group[i].ephemeral then group[i].lookupId else group[i].id)
      && group[i].peer == sent[k].from && group[i].ephemeral == sent[k].ephemeral
  {
    hide Grouped, Collected, Ids, Flat;
    var groups := Grouped(Collected(draft), true);
    GroupedFine(Collected(draft), true);
    IdsInOrder(sent, groups);
    forall k | 0 <= k < |sent| ensures Carries(sent[k], groups[k]) {
    }
    forall k, i | 0 <= k < |groups| && 0 <= i < |groups[k]| ensures groups[k][i] in Flat(groups) {
      InFlat(groups, k, i);
    }
  }

  lemma {:induction false} InFlat(groups: seq<seq<Item>>, k: nat, i: nat)
    requires k < |groups| && i < |groups[k]|
    ensures groups[k][i] in Flat(groups)
  {
    if k < |groups| - 1 {
      InFlat(groups[..|groups| - 1], k, i);
    }
  }

  // Every message that can be forwarded is collected, and none other.
  lemma {:induction false} ForwardableAll(s: seq<Item>, item: Item)
    ensures multiset(Forwardable(s))[item] == if CanForward(item) then multiset(s)[item] else 0
  {
    if s != [] {
      ForwardableAll(s[..|s| - 1], item);
      assert s == s[..|s| - 1] + [s[|s| - 1]];
    }
  }

  lemma {:induction false} NoMusicAll(s: seq<Item>, item: Item)
    ensures multiset(NoMusic(s))[item] == if item.savedMusic then 0 else multiset(s)[item]
  {
    if s != [] {
      NoMusicAll(s[1..], item);
      assert s == [s[0]] + s[1..];
    }
  }

  lemma CollectedAll(draft: seq<Item>, item: Item)
    ensures multiset(Collected(draft))[item] ==
      if !item.savedMusic && (item.ephemeral ==> item.lookupId != 0) then multiset(draft)[item] else 0
  {
    hide SortByPosition, Forwardable, NoMusic, Ordered;
    NoMusicAll(draft, item);
    SortOrders(NoMusic(draft));
    ForwardableAll(SortByPosition(NoMusic(draft)), item);
  }

  lemma {:induction false} ForwardableOrdered(s: seq<Item>)
    requires Ordered(s)
    ensures Ordered(Forwardable(s)) && forall i :: 0 <= i < |Forwardable(s)| ==> Forwardable(s)[i] in s
  {
    hide Before;
    if s != [] {
      var init, last := s[..|s| - 1], s[|s| - 1];
      ForwardableOrdered(init);
      var r := Forwardable(s);
      forall i | 0 <= i < |Forwardable(init)| ensures !Before(last, Forwardable(init)[i]) {
        assert Forwardable(init)[i] in init;
      }
    }
  }

  // Of two messages sent, the one sent first is the older one, or as old and of a peer that is not greater, or of the
  // same peer and of an id that is not greater; the requests carry their ids in this order.
  lemma SentOldestFirst(draft: seq<Item>, sent: seq<Request>, i: nat, j: nat)
    requires CarryAll(sent, Grouped(Collected(draft), true)) && i < j < |Ids(sent)|
    ensures |Ids(sent)| == |Collected(draft)|
    ensures var a, b := Collected(draft)[i], Collected(draft)[j];
      && a in draft && b in draft
      && Ids(sent)[i] == (if a.ephemeral then a.lookupId else a.id)
      && Ids(sent)[j] == (if b.ephemeral then b.lookupId else b.id)
      && (a.date < b.date || (a.date == b.date && (a.peer < b.peer || (a.peer == b.peer && a.id <= b.id))))
  {
    hide Collected, Grouped, CarryAll, Ids;
    RequestsPartition(draft, sent);
    CollectedOrder(draft, i, j);
  }

  lemma CollectedOrder(draft: seq<Item>, i: nat, j: nat)
    requires i < j < |Collected(draft)|
    ensures var a, b := Collected(draft)[i], Collected(draft)[j];
      && a in draft && b in draft
      && (a.date < b.date || (a.date == b.date && (a.peer < b.peer || (a.peer == b.peer && a.id <= b.id))))
  {
    hide SortByPosition, Forwardable, NoMusic;
    CollectedAll(draft, Collected(draft)[i]);
    CollectedAll(draft, Collected(draft)[j]);
    SortOrders(NoMusic(draft));
    ForwardableOrdered(SortByPosition(NoMusic(draft)));
    assert Collected(draft)[i] in multiset(Collected(draft)) && Collected(draft)[j] in multiset(Collected(draft));
  }

  // Saved music is taken out one by one, in order.
  lemma {:induction false} MusicInOrder(a: seq<Item>, b: seq<Item>)
    ensures MusicIds(a + b) == MusicIds(a) + MusicIds(b)
  {
    if a == [] {
      assert a + b == b;
    } else {
      assert (a + b)[1..] == a[1..] + b && (a + b)[0] == a[0];
      MusicInOrder(a[1..], b);
    }
  }

  lemma OneMusic(item: Item)
    ensures MusicIds([item]) == if item.savedMusic then [item.id] else []
  {
    assert [item][1..] == [];
  }

  // The stars.

  type Int32 = x: int | -0x8000_0000 <= x < 0x8000_0000

  function ToInt32(x: int): Int32 { (x + 0x8000_0000) % 0x1_0000_0000 - 0x8000_0000 }

  // It is what is left modulo 2^32, with a sign.
  lemma WrapsExactly(x: int, w: Int32)
    ensures w == ToInt32(x) <==> (x - w) % 0x1_0000_0000 == 0
  {
  }

  function Min(a: int, b: int): int { if b < a then b else a }

  // What one request of `n` messages pays out of what is still approved.
  function Charge(approved: int, n: nat, price: nat): int { Min(approved, ToInt32(n * price)) }

  function Charged(approved: int, counts: seq<nat>, price: nat): int {
    if counts == [] then 0
    else
      var before := Charged(approved, counts[..|counts| - 1], price);
      before + Charge(approved - before, counts[|counts| - 1], price)
  }

  function Sum(counts: seq<nat>): nat {
    if counts == [] then 0 else Sum(counts[..|counts| - 1]) + counts[|counts| - 1]
  }

  // A product that does not fit an `int` can come out negative, and then more is left than before.
  lemma ChargeWraps()
    ensures Charged(10, [2], 0x4000_0000) == -0x8000_0000 && Min(10, Sum([2]) * 0x4000_0000) == 10
  {
    assert [2][..0] == [];
    assert Charged(10, [], 0x4000_0000) == 0 && Sum([]) == 0;
  }

  ghost predicate Fit(counts: seq<nat>, price: nat) {
    forall i :: 0 <= i < |counts| ==> counts[i] * price < 0x8000_0000
  }

  lemma ChargedOneMore(approved: nat, paidFor: nat, n: nat, price: nat)
    requires n * price < 0x8000_0000
    ensures var before := Min(approved, paidFor * price);
            before + Charge(approved - before, n, price) == Min(approved, (paidFor + n) * price)
  {
    var due := n * price;
    assert (paidFor + n) * price == paidFor * price + due && paidFor * price >= 0 && due >= 0;
    assert ToInt32(due) == due;
  }

  // However the messages are cut into requests, together they pay for all of them, within what was approved.
  lemma {:induction false} ChargedInAll(approved: nat, counts: seq<nat>, price: nat)
    requires Fit(counts, price)
    ensures Charged(approved, counts, price) == Min(approved, Sum(counts) * price)
  {
    hide Charge, Min;
    if counts != [] {
      var init, n := counts[..|counts| - 1], counts[|counts| - 1];
      ChargedInAll(approved, init, price);
      ChargedOneMore(approved, Sum(init), n, price);
    } else {
      NothingDue(approved, price);
    }
  }

  lemma NothingDue(approved: nat, price: nat)
    ensures Min(approved, 0 * price) == 0
  {
  }

  // What the requests ask for: each its product, cut to an `int` by itself.
  function WrappedSum(counts: seq<nat>, price: nat): int {
    if counts == [] then 0 else WrappedSum(counts[..|counts| - 1], price) + ToInt32(counts[|counts| - 1] * price)
  }

  // Nothing is left in the end: all the requests ask for enough together, and no last few of them give stars back.
  ghost predicate UsesUp(approved: int, counts: seq<nat>, price: nat) {
    LeavesAtMost(0, approved, counts, price)
  }

  ghost predicate LeavesAtMost(rest: nat, approved: int, counts: seq<nat>, price: nat) {
    && WrappedSum(counts, price) >= approved - rest
    && forall j :: 1 <= j < |counts| ==> rest + WrappedSum(counts[j..], price) >= 0
  }

  lemma {:induction false} ChargedBounded(approved: nat, counts: seq<nat>, price: nat)
    ensures Charged(approved, counts, price) <= approved
  {
    if counts != [] {
      ChargedBounded(approved, counts[..|counts| - 1], price);
    }
  }

  lemma WrappedOneMore(counts: seq<nat>, price: nat, j: nat)
    requires j < |counts|
    ensures var init, n := counts[..|counts| - 1], counts[|counts| - 1];
            WrappedSum(counts[j..], price) == WrappedSum(init[j..], price) + ToInt32(n * price)
  {
    hide ToInt32;
    assert counts[j..][..|counts[j..]| - 1] == counts[..|counts| - 1][j..];
  }

  // What is left after a request is the more of nothing and what it does not ask for, so the last time that
  // nothing was left decides.
  lemma {:induction false} LeftAtMost(approved: nat, counts: seq<nat>, price: nat, rest: nat)
    ensures approved - Charged(approved, counts, price) <= rest <==> LeavesAtMost(rest, approved, counts, price)
    decreases |counts|
  {
    hide ToInt32, WrappedSum;
    if counts == [] {
      NoneAsked(price);
    } else {
      var init, n := counts[..|counts| - 1], counts[|counts| - 1];
      var last := ToInt32(n * price);
      ChargedBounded(approved, init, price);
      forall j | 0 <= j < |counts| ensures WrappedSum(counts[j..], price) == WrappedSum(init[j..], price) + last {
        WrappedOneMore(counts, price, j);
      }
      assert counts[0..] == counts && init[0..] == init && init[|init|..] == [];
      NoneAsked(price);
      if rest + last >= 0 {
        LeftAtMost(approved, init, price, rest + last);
      } else if |counts| > 1 {
        assert WrappedSum(counts[|init|..], price) == last;
      }
    }
  }

  lemma NoneAsked(price: nat)
    ensures WrappedSum([], price) == 0
  {
  }

  lemma {:induction false} TooMuchDue(counts: seq<nat>, price: nat, i: nat)
    requires i < |counts|
    ensures counts[i] * price <= Sum(counts) * price
  {
    var init, n := counts[..|counts| - 1], counts[|counts| - 1];
    if i < |init| {
      TooMuchDue(init, price, i);
    }
    assert Sum(counts) * price == Sum(init) * price + n * price;
  }

  // The requests pay for all the messages together, within what was approved, exactly if each one's product fits an
  // `int`, or if nothing is left all the same.
  lemma ChargedExactly(approved: nat, counts: seq<nat>, price: nat)
    requires approved < 0x8000_0000
    ensures Charged(approved, counts, price) == Min(approved, Sum(counts) * price) <==>
            Fit(counts, price) || UsesUp(approved, counts, price)
  {
    hide Charged, LeavesAtMost, Sum;
    if Fit(counts, price) {
      ChargedInAll(approved, counts, price);
    } else {
      var i :| 0 <= i < |counts| && counts[i] * price >= 0x8000_0000;
      TooMuchDue(counts, price, i);
      ChargedBounded(approved, counts, price);
      LeftAtMost(approved, counts, price, 0);
    }
  }

  function Counts(groups: seq<seq<Item>>): (r: seq<nat>)
    ensures |r| == |groups|
  {
    seq(|groups|, i requires 0 <= i < |groups| => |groups[i]|)
  }

  lemma {:induction false} CountsSum(groups: seq<seq<Item>>)
    ensures Sum(Counts(groups)) == |Flat(groups)|
  {
    if groups != [] {
      CountsSum(groups[..|groups| - 1]);
      assert Counts(groups)[..|groups| - 1] == Counts(groups[..|groups| - 1]);
    }
  }

  function Stars(sent: seq<Request>): int {
    if sent == [] then 0 else Stars(sent[..|sent| - 1]) + sent[|sent| - 1].stars
  }

  // Each request in its turn pays out of what the earlier ones left.
  ghost predicate PaidFor(sent: seq<Request>, approved: int, price: nat) {
    sent != [] ==>
      var before, last := sent[..|sent| - 1], sent[|sent| - 1];
      PaidFor(before, approved, price) && last.stars == Charge(approved - Stars(before), |last.ids|, price)
  }

  lemma {:induction false} StarsCharged(sent: seq<Request>, groups: seq<seq<Item>>, approved: int, price: nat)
    requires CarryAll(sent, groups) && PaidFor(sent, approved, price)
    ensures Stars(sent) == Charged(approved, Counts(groups), price)
  {
    hide Charge;
    if sent != [] {
      var less, fewer := sent[..|sent| - 1], groups[..|groups| - 1];
      StarsCharged(less, fewer, approved, price);
      assert Counts(groups)[..|groups| - 1] == Counts(fewer);
      assert Carries(sent[|sent| - 1], groups[|groups| - 1]);
    }
  }

  // A text in `parts` parts, then the forwarded messages: together they pay for all of it, within what was approved,
  // exactly if every request of them fits an `int` or they use up what the text left.
  lemma StarsInAll(parts: nat, items: seq<Item>, sent: seq<Request>, approved: nat, price: nat)
    requires approved < 0x8000_0000
    requires CarryAll(sent, Grouped(items, true)) && PaidFor(sent, approved - Min(approved, parts * price), price)
    ensures var counts, left := Counts(Grouped(items, true)), approved - Min(approved, parts * price);
      Min(approved, parts * price) + Stars(sent) == Min(approved, (parts + |items|) * price) <==>
      Fit(counts, price) || UsesUp(left, counts, price)
  {
    hide Charged, Sum, Grouped, CarryAll, PaidFor, Counts, Flat, Fit, UsesUp, Stars, Min;
    var groups := Grouped(items, true);
    var left := approved - Min(approved, parts * price);
    TextFirst(parts, |items|, approved, price, Stars(sent));
    GroupedFine(items, true);
    CountsSum(groups);
    StarsCharged(sent, groups, left, price);
    ChargedExactly(left, Counts(groups), price);
  }

  lemma TextFirst(parts: nat, n: nat, approved: nat, price: nat, stars: int)
    ensures var left := approved - Min(approved, parts * price);
      && 0 <= left <= approved
      && (Min(approved, parts * price) + stars == Min(approved, (parts + n) * price) <==> stars == Min(left, n * price))
  {
    var text, rest := parts * price, n * price;
    assert (parts + n) * price == text + rest && text >= 0 && rest >= 0;
  }

  // The answers.

  datatype Reply = Done(index: nat) | Failed(index: nat)

  datatype Callback = Callback(pending: set<nat>, left: int, called: nat)

  function Indices(n: nat): (r: set<nat>)
    ensures |r| == n && forall i :: i in r <==> 0 <= i < n
  {
    if n == 0 then {} else Indices(n - 1) + {n - 1}
  }

  function Waiting(n: nat): Callback { Callback(Indices(n), n, 0) }

  function Replied(c: Callback, r: Reply): Callback {
    var rest := c.(pending := c.pending - {r.index});
    if r.Failed? then rest
    else rest.(left := c.left - 1, called := if c.left - 1 == 0 then c.called + 1 else c.called)
  }

  // Each request in flight is answered once, in any order.
  ghost predicate Possible(c: Callback, replies: seq<Reply>)
    decreases |replies|
  {
    replies != [] ==> replies[0].index in c.pending && Possible(Replied(c, replies[0]), replies[1..])
  }

  function After(c: Callback, replies: seq<Reply>): Callback
    decreases |replies|
  {
    if replies == [] then c else After(Replied(c, replies[0]), replies[1..])
  }

  ghost predicate Counted(c: Callback, failed: set<nat>) {
    && failed !! c.pending && |c.pending| + |failed| == c.left
    && c.called == if c.left == 0 then 1 else 0
  }

  ghost function Failures(replies: seq<Reply>): set<nat> {
    set i | 0 <= i < |replies| && replies[i].Failed? :: replies[i].index
  }

  lemma {:induction false} RunCounted(c: Callback, replies: seq<Reply>, failed: set<nat>)
    requires Possible(c, replies) && Counted(c, failed)
    ensures Counted(After(c, replies), failed + Failures(replies))
    decreases |replies|
  {
    if replies != [] {
      var r := replies[0];
      var more := if r.Failed? then failed + {r.index} else failed;
      assert |c.pending - {r.index}| == |c.pending| - 1;
      RunCounted(Replied(c, r), replies[1..], more);
      assert failed + Failures(replies) == more + Failures(replies[1..]) by { FailuresFrom(replies); }
    } else {
      assert failed + Failures(replies) == failed;
    }
  }

  lemma FailuresFrom(replies: seq<Reply>)
    requires replies != []
    ensures Failures(replies) == (if replies[0].Failed? then {replies[0].index} else {}) + Failures(replies[1..])
  {
    var rest := replies[1..];
    forall f | f in Failures(replies)
      ensures f in (if replies[0].Failed? then {replies[0].index} else {}) + Failures(rest)
    {
      var i :| 0 <= i < |replies| && replies[i].Failed? && replies[i].index == f;
      assert i > 0 ==> rest[i - 1] == replies[i];
    }
    forall f | f in Failures(rest) ensures f in Failures(replies) {
      var i :| 0 <= i < |rest| && rest[i].Failed? && rest[i].index == f;
      assert replies[i + 1] == rest[i];
    }
  }

  // At every moment: the callback has run once if every request was answered and none failed, and not at all otherwise.
  lemma CallbackExactlyOnce(n: nat, replies: seq<Reply>)
    requires n > 0 && Possible(Waiting(n), replies)
    ensures var c := After(Waiting(n), replies);
            c.called == if c.pending == {} && (forall i :: 0 <= i < |replies| ==> replies[i].Done?) then 1 else 0
  {
    hide Possible, After;
    RunCounted(Waiting(n), replies, {});
    var c := After(Waiting(n), replies);
    if i :| 0 <= i < |replies| && replies[i].Failed? {
      assert replies[i].index in Failures(replies);
    } else {
      assert Failures(replies) == {};
    }
  }
}

/** The part of ApiWrap that sends a text and what goes with it. */
module ForwardApi {
  import opened ForwardSpec

  datatype Range = Range(fromEphemeral: bool, items: seq<Item>)

  ghost predicate Holds(range: Range, group: seq<Item>) {
    group != [] && range.items == group && range.fromEphemeral == group[0].ephemeral
  }

  ghost predicate HoldAll(ranges: seq<Range>, groups: seq<seq<Item>>) {
    |ranges| == |groups| && forall i :: 0 <= i < |ranges| ==> Holds(ranges[i], groups[i])
  }

  lemma RangesGrow(ranges: seq<Range>, items: seq<Item>, item: Item, grown: seq<Range>)
    requires HoldAll(ranges, Grouped(items, false))
    requires grown ==
      if ranges == [] || ranges[|ranges| - 1].fromEphemeral != item.ephemeral
      then ranges + [Range(item.ephemeral, [item])]
      else var last := ranges[|ranges| - 1]; ranges[|ranges| - 1 := last.(items := last.items + [item])]
    ensures HoldAll(grown, Grouped(items + [item], false))
  {
    hide Grouped;
    Grown(items, item, false);
    var groups := Grouped(items, false);
    if ranges != [] {
      assert Holds(ranges[|ranges| - 1], groups[|groups| - 1]);
    }
    forall i | 0 <= i < |grown| ensures Holds(grown[i], Added(groups, item, false)[i]) {
      assert i < |ranges| ==> Holds(ranges[i], groups[i]);
    }
  }

  lemma Grown(items: seq<Item>, item: Item, byPeer: bool)
    ensures Grouped(items + [item], byPeer) == Added(Grouped(items, byPeer), item, byPeer)
  {
    hide Added;
    assert (items + [item])[..|items|] == items;
  }

  method CollectForwardRanges(items: seq<Item>) returns (result: seq<Range>)
    ensures HoldAll(result, Grouped(Forwardable(SortByPosition(items)), false))
  {
    hide SortByPosition, Grouped, HoldAll;
    var ordered := SortByPosition(items);
    result := [];
    NothingCollected();
    for i := 0 to |ordered|
      invariant HoldAll(result, Grouped(Forwardable(ordered[..i]), false))
    {
      var item := ordered[i];
      assert ordered[..i + 1][..i] == ordered[..i];
      if item.ephemeral && item.lookupId == 0 {
        continue;
      }
      ghost var before, kept := result, Forwardable(ordered[..i]);
      if result == [] || result[|result| - 1].fromEphemeral != item.ephemeral {
        result := result + [Range(item.ephemeral, [])];
      }
      var last := |result| - 1;
      result := result[last := result[last].(items := result[last].items + [item])];
      assert [] + [item] == [item];
      assert |result| > |before| ==> result == before + [Range(item.ephemeral, [item])];
      RangesGrow(before, kept, item, result);
    }
    assert ordered[..|ordered|] == ordered;
  }

  lemma NothingCollected()
    ensures HoldAll([], Grouped(Forwardable([]), false))
  {
  }

  // What is taken and not sent yet: nothing, or the last run of messages.
  ghost predicate Ahead(sent: seq<Request>, groups: seq<seq<Item>>, ids: seq<int>, from: int, ephemeral: bool) {
    if ids == [] then CarryAll(sent, groups)
    else
      && groups != [] && CarryAll(sent, groups[..|groups| - 1])
      && var last := groups[|groups| - 1];
         last != [] && ids == IdsOf(last) && from == last[0].peer && ephemeral == last[0].ephemeral
  }

  lemma NothingAhead(budget: int, price: nat)
    ensures CarryAll([], Grouped([], true)) && RandomIds([]) == [] && PaidFor([], budget, price) && Stars([]) == 0
    ensures forall from, ephemeral :: Ahead([], Grouped([], true), [], from, ephemeral)
  {
  }

  lemma StillCaughtUp(sent: seq<Request>, groups: seq<seq<Item>>, from: int, ephemeral: bool)
    requires Ahead(sent, groups, [], from, ephemeral)
    ensures CarryAll(sent, groups) && forall f, e :: Ahead(sent, groups, [], f, e)
  {
    hide CarryAll;
  }

  lemma CaughtUp(sent: seq<Request>, groups: seq<seq<Item>>, r: Request)
    requires r.ids != [] && |r.randomIds| == |r.ids| && Ahead(sent, groups, r.ids, r.from, r.ephemeral)
    ensures CarryAll(sent + [r], groups)
  {
    var now := sent + [r];
    forall i | 0 <= i < |now| ensures Carries(now[i], groups[i]) {
      if i < |sent| {
        assert Carries(sent[i], groups[..|groups| - 1][i]);
      }
    }
  }

  lemma NewGroup(taken: seq<Item>, item: Item)
    requires taken == [] || !Together(taken[|taken| - 1], item, true)
    ensures Grouped(taken + [item], true) == Grouped(taken, true) + [[item]]
  {
    hide Grouped;
    Grown(taken, item, true);
    LastTaken(taken);
    NothingGrouped();
  }

  lemma NothingGrouped()
    ensures Grouped([], true) == []
  {
  }

  lemma LastGroup(taken: seq<Item>, item: Item)
    requires var g := Grouped(taken, true); g != [] && g[|g| - 1] != [] && Together(g[|g| - 1][0], item, true)
    ensures var g := Grouped(taken, true);
            Grouped(taken + [item], true) == g[..|g| - 1] + [g[|g| - 1] + [item]]
  {
    hide Grouped;
    Grown(taken, item, true);
  }

  lemma TakenOne(sent: seq<Request>, taken: seq<Item>, ids: seq<int>, from: int, item: Item)
    requires Ahead(sent, Grouped(taken, true), ids, from, item.ephemeral)
    requires ids == [] ==> taken == [] || !Together(taken[|taken| - 1], item, true)
    requires ids != [] ==> from == item.peer
    ensures Ahead(sent, Grouped(taken + [item], true), ids + [IdOf(item)], item.peer, item.ephemeral)
  {
    hide Grouped, CarryAll;
    var groups, grown := Grouped(taken, true), Grouped(taken + [item], true);
    if ids == [] {
      NewGroup(taken, item);
      assert grown[..|grown| - 1] == groups;
      assert IdsOf([item]) == [IdOf(item)];
    } else {
      var last := groups[|groups| - 1];
      LastGroup(taken, item);
      assert grown[..|grown| - 1] == groups[..|groups| - 1];
      assert IdsOf(last + [item]) == IdsOf(last) + [IdOf(item)];
    }
  }

  lemma LastTaken(taken: seq<Item>)
    ensures var groups := Grouped(taken, true);
            taken != [] ==>
              groups != [] && var last := groups[|groups| - 1];
              last != [] && Together(last[0], taken[|taken| - 1], true)
  {
    var groups := Grouped(taken, true);
    GroupedFine(taken, true);
    if taken != [] {
      var last := groups[|groups| - 1];
      assert last[|last| - 1] == taken[|taken| - 1];
    }
  }

  lemma SentOne(sent: seq<Request>, r: Request, budget: int, price: nat)
    requires PaidFor(sent, budget, price) && r.stars == Charge(budget - Stars(sent), |r.ids|, price)
    ensures PaidFor(sent + [r], budget, price) && Stars(sent + [r]) == Stars(sent) + r.stars
    ensures RandomIds(sent + [r]) == RandomIds(sent) + r.randomIds
  {
    hide Charge;
    var now := sent + [r];
    assert now[..|sent|] == sent;
  }

  ghost function Taken(ranges: seq<Range>): seq<Item> {
    if ranges == [] then [] else Taken(ranges[..|ranges| - 1]) + ranges[|ranges| - 1].items
  }

  lemma {:induction false} TakenInAll(ranges: seq<Range>, groups: seq<seq<Item>>)
    requires HoldAll(ranges, groups)
    ensures Taken(ranges) == Flat(groups)
  {
    if ranges != [] {
      assert Holds(ranges[|ranges| - 1], groups[|groups| - 1]);
      TakenInAll(ranges[..|ranges| - 1], groups[..|groups| - 1]);
    }
  }

  lemma {:induction false} TakenSoFar(ranges: seq<Range>, r: nat)
    requires r < |ranges|
    ensures Taken(ranges[..r + 1]) == Taken(ranges[..r]) + ranges[r].items
    ensures |Taken(ranges[..r + 1])| <= |Taken(ranges)|
    decreases |ranges| - r
  {
    assert ranges[..r + 1][..r] == ranges[..r];
    if r + 1 < |ranges| {
      TakenSoFar(ranges, r + 1);
    } else {
      assert ranges[..r + 1] == ranges;
    }
  }

  ghost predicate RangesFine(ranges: seq<Range>) {
    && (forall r :: 0 <= r < |ranges| ==> ranges[r].items != [])
    && (forall r, k :: 0 <= r < |ranges| && 0 <= k < |ranges[r].items| ==>
          ranges[r].items[k].ephemeral == ranges[r].fromEphemeral)
    && (forall r :: 0 < r < |ranges| ==> ranges[r - 1].fromEphemeral != ranges[r].fromEphemeral)
  }

  lemma CollectedRanges(ranges: seq<Range>, items: seq<Item>)
    requires HoldAll(ranges, Grouped(items, false))
    ensures RangesFine(ranges) && Taken(ranges) == items
  {
    hide Grouped, Taken, Flat;
    var groups := Grouped(items, false);
    GroupedFine(items, false);
    TakenInAll(ranges, groups);
    forall r | 0 <= r < |ranges| ensures Holds(ranges[r], groups[r]) {
    }
  }

  lemma TakenNone()
    ensures Taken([]) == []
  {
  }

  lemma NothingSorted(draft: seq<Item>)
    requires NoMusic(draft) == []
    ensures Collected(draft) == []
  {
  }

  lemma WhatIsCollected(draft: seq<Item>)
    ensures Collected(draft) == Forwardable(SortByPosition(NoMusic(draft)))
  {
  }

  lemma SomethingSent(sent: seq<Request>, collected: seq<Range>)
    requires collected != [] && RangesFine(collected) && CarryAll(sent, Grouped(Taken(collected), true))
    ensures sent != []
  {
    hide CarryAll;
    var taken := Taken(collected);
    GroupedFine(taken, true);
    assert Grouped(taken, true) != [];
    assert |sent| == |Grouped(taken, true)| by { SameNumber(sent, Grouped(taken, true)); }
  }

  lemma SameNumber(sent: seq<Request>, groups: seq<seq<Item>>)
    requires CarryAll(sent, groups)
    ensures |sent| == |groups|
  {
  }

  class Sending {
    const price: Int32
    const approved: Int32
    var starsApproved: int
    var textStars: seq<int>
    var documents: seq<int>

    var forwardFrom: int
    var fromEphemeral: bool
    var ids: seq<int>
    var randomIds: seq<int>
    var sent: seq<Request>
    var shared: Callback

    constructor (price: Int32, approved: Int32)
      requires price >= 0 && approved >= 0
      ensures this.price == price && this.approved == approved == starsApproved
      ensures textStars == [] && documents == [] && Idle()
    {
      this.price, this.approved, this.starsApproved := price, approved, approved;
      textStars, documents, sent, ids, randomIds := [], [], [], [], [];
      shared := Waiting(0);
    }

    ghost predicate Idle()
      reads this
    {
      price >= 0 && sent == [] && ids == [] && randomIds == [] && shared == Waiting(0)
    }

    // Each part of a long text pays for itself, as long as enough stars were approved.
    method SendParts(parts: nat)
      requires Idle() && starsApproved == approved >= 0 && textStars == []
      modifies this`textStars, this`starsApproved
      ensures |textStars| == parts && starsApproved == approved - Min(approved, parts * price)
      ensures forall k :: 0 <= k < parts ==> textStars[k] == Min(price, approved - Min(approved, k * price))
    {
      for i := 0 to parts
        invariant |textStars| == i && starsApproved == approved - Min(approved, i * price)
        invariant forall k :: 0 <= k < i ==> textStars[k] == Min(price, approved - Min(approved, k * price))
      {
        assert (i + 1) * price == i * price + price && i * price >= 0;
        var starsPaid := Min(price, starsApproved);
        if starsPaid != 0 {
          starsApproved := starsApproved - starsPaid;
        }
        textStars := textStars + [starsPaid];
      }
    }

    // The messages to forward go along, unless they cannot be sent there.
    method FinishForwarding(draft: seq<Item>, error: bool, random: seq<int>)
      requires |random| >= |Collected(draft)| && Idle() && documents == []
      modifies this`documents, this`forwardFrom, this`fromEphemeral, this`ids, this`randomIds, this`sent,
        this`starsApproved, this`shared
      ensures error ==> sent == [] && documents == [] && starsApproved == old(starsApproved)
      ensures !error ==> documents == MusicIds(draft) && CarryAll(sent, Grouped(Collected(draft), true))
                         && RandomIds(sent) == random[..|Collected(draft)|]
      ensures PaidFor(sent, old(starsApproved), price) && starsApproved == old(starsApproved) - Stars(sent)
      ensures shared == Waiting(0)
    {
      hide CarryAll, PaidFor, SortByPosition, RandomIds, Stars;
      NothingAhead(starsApproved, price);
      if draft != [] {
        if error {
          return;
        }
        ForwardMessages(draft, random, false);
      } else {
        NothingSorted(draft);
      }
    }

    // A text in so many parts, and what is forwarded with it.
    method SendMessage(parts: nat, draft: seq<Item>, error: bool, random: seq<int>)
      requires Idle() && starsApproved == approved >= 0 && textStars == [] && documents == []
      requires |random| >= |Collected(draft)|
      modifies this
      ensures |textStars| == parts
      ensures forall k :: 0 <= k < parts ==> textStars[k] == Min(price, approved - Min(approved, k * price))
      ensures if error then sent == [] && documents == []
              else documents == MusicIds(draft) && CarryAll(sent, Grouped(Collected(draft), true))
      ensures approved - starsApproved == Min(approved, parts * price) + Stars(sent)
      ensures !error ==>
        var counts := Counts(Grouped(Collected(draft), true));
        approved - starsApproved == Min(approved, (parts + |Collected(draft)|) * price) <==>
        Fit(counts, price) || UsesUp(approved - Min(approved, parts * price), counts, price)
    {
      hide CarryAll, PaidFor, Stars, Collected, Grouped, MusicIds, RandomIds;
      SendParts(parts);
      FinishForwarding(draft, error, random);
      if !error {
        StarsInAll(parts, Collected(draft), sent, approved, price);
      }
    }

    method RequestDone(index: nat)
      requires index in shared.pending
      modifies this`shared
      ensures shared == Replied(old(shared), Done(index))
    {
      shared := shared.(pending := shared.pending - {index}, left := shared.left - 1);
      if shared.left == 0 {
        shared := shared.(called := shared.called + 1);
      }
    }

    method RequestFailed(index: nat)
      requires index in shared.pending
      modifies this`shared
      ensures shared == Replied(old(shared), Failed(index))
    {
      shared := shared.(pending := shared.pending - {index});
    }

    // Everything taken so far is sent and paid for, but for the messages accumulated for the next request.
    ghost predicate Accumulated(taken: seq<Item>, random: seq<int>, budget: int, withCallback: bool)
      reads this
    {
      && price >= 0 && |ids| == |randomIds| && |taken| <= |random|
      && RandomIds(sent) + randomIds == random[..|taken|]
      && PaidFor(sent, budget, price) && starsApproved == budget - Stars(sent)
      && Ahead(sent, Grouped(taken, true), ids, forwardFrom, fromEphemeral)
      && shared == Waiting(if withCallback then |sent| else 0)
    }

    method SendAccumulated(withCallback: bool, ghost taken: seq<Item>, ghost random: seq<int>, ghost budget: int)
      requires Accumulated(taken, random, budget, withCallback)
      modifies this`ids, this`randomIds, this`sent, this`starsApproved, this`shared
      ensures Accumulated(taken, random, budget, withCallback) && ids == []
    {
      hide Grouped, PaidFor, Stars, RandomIds, CarryAll;
      if ids == [] {
        return;
      }
      if withCallback {
        shared := shared.(pending := shared.pending + {|sent|}, left := shared.left + 1);
      }
      var starsPaid := Min(starsApproved, ToInt32(|ids| * price));
      var r := Request(forwardFrom, fromEphemeral, ids, randomIds, starsPaid);
      SentOne(sent, r, budget, price);
      CaughtUp(sent, Grouped(taken, true), r);
      if starsPaid != 0 {
        starsApproved := starsApproved - starsPaid;
      }
      sent := sent + [r];
      ids, randomIds := [], [];
    }

    // One message joins those accumulated, after they are sent if it comes from another peer.
    method Take(item: Item, drawn: nat, random: seq<int>, withCallback: bool, ghost taken: seq<Item>, ghost budget: int)
      requires Accumulated(taken, random, budget, withCallback) && drawn == |taken| < |random|
      requires fromEphemeral == item.ephemeral
      requires ids != [] ==> taken != [] && forwardFrom == taken[|taken| - 1].peer
      requires ids == [] ==> taken == [] || taken[|taken| - 1].ephemeral != item.ephemeral
      modifies this`forwardFrom, this`ids, this`randomIds, this`sent, this`starsApproved, this`shared
      ensures Accumulated(taken + [item], random, budget, withCallback) && ids != [] && forwardFrom == item.peer
    {
      hide Grouped, CarryAll, PaidFor, Ahead, RandomIds, Stars;
      var newFrom := item.peer;
      if forwardFrom != newFrom {
        SendAccumulated(withCallback, taken, random, budget);
        StillCaughtUp(sent, Grouped(taken, true), forwardFrom, fromEphemeral);
        forwardFrom := newFrom;
      }
      TakenOne(sent, taken, ids, forwardFrom, item);
      ids := ids + [IdOf(item)];
      randomIds := randomIds + [random[drawn]];
      assert random[..drawn + 1] == random[..drawn] + [random[drawn]];
    }

    method StartRange(range: Range, random: seq<int>, withCallback: bool, ghost taken: seq<Item>, ghost budget: int)
      requires Accumulated(taken, random, budget, withCallback) && ids == []
      modifies this`fromEphemeral
      ensures Accumulated(taken, random, budget, withCallback) && fromEphemeral == range.fromEphemeral
    {
      hide Grouped, CarryAll, PaidFor, Ahead, RandomIds, Stars;
      StillCaughtUp(sent, Grouped(taken, true), forwardFrom, fromEphemeral);
      fromEphemeral := range.fromEphemeral;
    }

    method ForwardRange(range: Range, drawn: nat, random: seq<int>, withCallback: bool,
                        ghost taken: seq<Item>, ghost budget: int)
      requires Accumulated(taken, random, budget, withCallback) && ids == []
      requires drawn == |taken| && drawn + |range.items| <= |random|
      requires forall k :: 0 <= k < |range.items| ==> range.items[k].ephemeral == range.fromEphemeral
      requires taken == [] || taken[|taken| - 1].ephemeral != range.fromEphemeral
      modifies this`forwardFrom, this`fromEphemeral, this`ids, this`randomIds, this`sent, this`starsApproved,
        this`shared
      ensures Accumulated(taken + range.items, random, budget, withCallback) && ids == []
    {
      hide Accumulated;
      StartRange(range, random, withCallback, taken, budget);
      assert taken + range.items[..0] == taken;
      for k := 0 to |range.items|
        invariant Accumulated(taken + range.items[..k], random, budget, withCallback)
        invariant fromEphemeral == range.fromEphemeral
        invariant if k == 0 then ids == [] else ids != [] && forwardFrom == range.items[k - 1].peer
      {
        Take(range.items[k], drawn + k, random, withCallback, taken + range.items[..k], budget);
        assert taken + range.items[..k] + [range.items[k]] == taken + range.items[..k + 1];
      }
      assert range.items[..|range.items|] == range.items;
      SendAccumulated(withCallback, taken + range.items, random, budget);
    }

    method ForwardRanges(collected: seq<Range>, random: seq<int>, withCallback: bool)
      requires collected != [] && RangesFine(collected) && |random| >= |Taken(collected)| && Idle()
      modifies this`forwardFrom, this`fromEphemeral, this`ids, this`randomIds, this`sent, this`starsApproved,
        this`shared
      ensures Accumulated(Taken(collected), random, old(starsApproved), withCallback) && ids == []
    {
      hide Grouped, CarryAll, PaidFor, Ahead, RandomIds, Stars, Taken;
      ghost var budget := starsApproved;
      NothingAhead(budget, price);
      TakenNone();
      forwardFrom := collected[0].items[0].peer;
      var drawn := 0;
      for r := 0 to |collected|
        invariant drawn == |Taken(collected[..r])| && ids == []
        invariant Accumulated(Taken(collected[..r]), random, budget, withCallback)
        invariant var taken := Taken(collected[..r]);
                  if r == 0 then taken == []
                  else taken != [] && taken[|taken| - 1].ephemeral == collected[r - 1].fromEphemeral
      {
        TakenSoFar(collected, r);
        ForwardRange(collected[r], drawn, random, withCallback, Taken(collected[..r]), budget);
        drawn := drawn + |collected[r].items|;
      }
      assert collected[..|collected|] == collected;
    }

    method ForwardMessages(draft: seq<Item>, random: seq<int>, withCallback: bool)
      requires draft != [] && |random| >= |Collected(draft)| && Idle() && documents == []
      modifies this`documents, this`forwardFrom, this`fromEphemeral, this`ids, this`randomIds, this`sent,
        this`starsApproved, this`shared
      ensures documents == MusicIds(draft)
      ensures CarryAll(sent, Grouped(Collected(draft), true)) && RandomIds(sent) == random[..|Collected(draft)|]
      ensures PaidFor(sent, old(starsApproved), price) && starsApproved == old(starsApproved) - Stars(sent)
      ensures shared ==
        if withCallback && sent == [] then Callback({}, 0, 1) else Waiting(if withCallback then |sent| else 0)
    {
      hide Grouped, CarryAll, PaidFor, Ahead, SortByPosition, RandomIds, Stars, Collected, HoldAll, Taken;
      NothingAhead(starsApproved, price);
      var items := TakeMusic(draft);
      if items == [] {
        NothingSorted(draft);
        if withCallback {
          shared := shared.(called := shared.called + 1);
        }
        return;
      }
      var collected := CollectForwardRanges(items);
      WhatIsCollected(draft);
      CollectedRanges(collected, Collected(draft));
      TakenNone();
      if collected == [] {
        if withCallback {
          shared := shared.(called := shared.called + 1);
        }
        return;
      }
      ForwardRanges(collected, random, withCallback);
      StillCaughtUp(sent, Grouped(Collected(draft), true), forwardFrom, fromEphemeral);
      SomethingSent(sent, collected);
    }

    // Saved music is sent by itself, out of a copy of the allowance.
    method TakeMusic(draft: seq<Item>) returns (items: seq<Item>)
      requires documents == []
      modifies this`documents
      ensures items == NoMusic(draft) && documents == MusicIds(draft)
    {
      items := draft;
      var i := 0;
      while i != |items|
        invariant i <= |items| && items[..i] + NoMusic(items[i..]) == NoMusic(draft)
        invariant documents + MusicIds(items[i..]) == MusicIds(draft)
        decreases |items| - i
      {
        var item := items[i];
        assert items[i..][1..] == items[i + 1..];
        if item.savedMusic {
          documents := documents + [item.id];
          ghost var before := items;
          items := items[..i] + items[i + 1..];
          assert items[..i] == before[..i] && items[i..] == before[i + 1..];
        } else {
          assert items[..i + 1] == items[..i] + [item];
          i := i + 1;
        }
      }
    }
  }
}
