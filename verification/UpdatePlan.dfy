/** What the Linux updater copies: the files of the unpacked update, and the directories made for them first. */
module UpdatePlanSpec {
  import opened Options

  // As `stat` and `readdir` tell; nothing is known of an entry that `stat` fails for.
  datatype Node = File | Dir(readable: bool, entries: seq<Entry>) | NoStat
  datatype Entry = Entry(name: string, node: Node)

  // `readyFound`: the ready file was found, so the update is in the new place.
  datatype Setup = Setup(workDir: string, exePath: string, exeName: string, updaterName: string, readyFound: bool)

  // The names on the way from the update's directory.
  type Path = seq<string>

  predicate IsDots(name: string) { name == "." || name == ".." }

  // Names have no slashes, and are different within a directory.
  ghost predicate WellNamed(node: Node)
    decreases node
  {
    node.Dir? ==>
      && (forall i :: 0 <= i < |node.entries| ==> node.entries[i].name != "" && '/' !in node.entries[i].name)
      && (forall i, j :: 0 <= i < j < |node.entries| ==> node.entries[i].name != node.entries[j].name)
      && (forall i :: 0 <= i < |node.entries| ==> WellNamed(node.entries[i].node))
  }

  predicate IsName(name: string) { name != "" && '/' !in name }

  ghost predicate AllNames(path: Path) { forall i :: 0 <= i < |path| ==> IsName(path[i]) }

  // A path as text, each name after a slash.
  function Text(path: Path): string {
    if path == [] then "" else Text(path[..|path| - 1]) + "/" + path[|path| - 1]
  }

  predicate UnderTdata(path: Path) { path != [] && path[0] == "tdata" }

  predicate IsReady(c: Setup, path: Path) { c.readyFound && path == ["ready"] }

  function Relative(path: Path): string
    requires path != []
  {
    Text(path)[1..]
  }

  function Lower(ch: char): char { if 'A' <= ch <= 'Z' then ch - 'A' + 'a' else ch }

  function AllLower(s: string): (r: string)
    ensures |r| == |s|
  {
    seq(|s|, i requires 0 <= i < |s| => Lower(s[i]))
  }

  predicate EqualNoCase(a: string, b: string) { AllLower(a) == AllLower(b) }

  predicate IsUpdater(c: Setup, path: Path)
    requires path != []
  {
    EqualNoCase(c.exePath + Relative(path), c.updaterName)
  }

  // Where a file is copied to.
  function Target(c: Setup, path: Path): string
    requires path != []
  {
    var to := c.exePath + Relative(path);
    if EqualNoCase(to, c.exePath + "Telegram") && c.exeName != "Telegram" then c.exePath + c.exeName else to
  }

  // The files of the update that get copied.

  ghost function FilesOf(c: Setup, node: Node, path: Path): multiset<Path>
    decreases node, 1
  {
    match node
    case File => if IsReady(c, path) then multiset{} else multiset{path}
    case NoStat => multiset{}
    case Dir(_, entries) => FilesIn(c, entries, path)
  }

  ghost function FilesIn(c: Setup, entries: seq<Entry>, path: Path): multiset<Path>
    decreases entries, 0
  {
    if entries == [] then multiset{}
    else
      var init, last := entries[..|entries| - 1], entries[|entries| - 1];
      FilesIn(c, init, path) +
      if IsDots(last.name) || UnderTdata(path + [last.name]) then multiset{}
      else FilesOf(c, last.node, path + [last.name])
  }

  // The directories of the update, but for the update's own.

  ghost function DirsOf(node: Node, path: Path): multiset<Path>
    decreases node, 1
  {
    if node.Dir? then (if path == [] then multiset{} else multiset{path}) + DirsIn(node.entries, path) else multiset{}
  }

  ghost function DirsIn(entries: seq<Entry>, path: Path): multiset<Path>
    decreases entries, 0
  {
    if entries == [] then multiset{}
    else
      var init, last := entries[..|entries| - 1], entries[|entries| - 1];
      DirsIn(init, path) +
      if IsDots(last.name) || UnderTdata(path + [last.name]) then multiset{}
      else DirsOf(last.node, path + [last.name])
  }

  // Every directory can be read and no file would replace the updater.

  ghost predicate Clean(c: Setup, node: Node, path: Path)
    requires node.File? ==> path != []
    decreases node, 1
  {
    match node
    case File => !IsUpdater(c, path)
    case NoStat => true
    case Dir(readable, entries) => readable && CleanIn(c, entries, path)
  }

  ghost predicate CleanIn(c: Setup, entries: seq<Entry>, path: Path)
    decreases entries, 0
  {
    entries != [] ==>
      var init, last := entries[..|entries| - 1], entries[|entries| - 1];
      && CleanIn(c, init, path)
      && (!IsDots(last.name) && !UnderTdata(path + [last.name]) ==> Clean(c, last.node, path + [last.name]))
  }

  // What a path leads to.

  function Child(entries: seq<Entry>, name: string): Option<Node> {
    if entries == [] then None
    else if entries[|entries| - 1].name == name then Some(entries[|entries| - 1].node)
    else Child(entries[..|entries| - 1], name)
  }

  function At(node: Node, path: Path): Option<Node>
    decreases |path|
  {
    if path == [] then Some(node)
    else if !node.Dir? || IsDots(path[0]) then None
    else
      match Child(node.entries, path[0])
      case Some(child) => At(child, path[1..])
      case None => None
  }

  // A regular file of the update, outside `tdata`, other than the ready file.
  predicate Wanted(c: Setup, node: Node, before: Path, rest: Path) {
    At(node, rest) == Some(File) && !UnderTdata(before + rest) && !IsReady(c, before + rest)
  }

  // Whether the entries of a directory lead to a wanted file.
  predicate WantedIn(c: Setup, entries: seq<Entry>, before: Path, p: Path) {
    |before| < |p| && before <= p &&
    var name := p[|before|];
    !IsDots(name) && Child(entries, name).Some?
    && Wanted(c, Child(entries, name).value, before + [name], p[|before| + 1..])
  }

  lemma {:induction false} NotTwice(entries: seq<Entry>, name: string)
    requires forall i :: 0 <= i < |entries| ==> entries[i].name != name
    ensures Child(entries, name) == None
  {
    if entries != [] {
      NotTwice(entries[..|entries| - 1], name);
    }
  }

  lemma {:induction false} FilesInExactly(c: Setup, entries: seq<Entry>, before: Path, p: Path)
    requires WellNamed(Dir(true, entries)) && !UnderTdata(before)
    ensures FilesIn(c, entries, before)[p] == if WantedIn(c, entries, before, p) then 1 else 0
    decreases entries, 0
  {
    hide IsReady, Wanted, FilesOf;
    if entries != [] {
      var init, last := entries[..|entries| - 1], entries[|entries| - 1];
      var next := before + [last.name];
      FilesInExactly(c, init, before, p);
      NotTwice(init, last.name);
      if !IsDots(last.name) && !UnderTdata(next) {
        FilesExactly(c, last.node, next, p);
        assert next <= p <==> |before| < |p| && before <= p && p[|before|] == last.name;
        assert next <= p ==> p[|next|..] == p[|before| + 1..];
      } else if |before| < |p| && before <= p && p[|before|] == last.name {
        assert p == next + p[|before| + 1..];
        TdataUnwanted(c, last.node, next, p[|before| + 1..]);
      }
    }
  }

  lemma TdataUnwanted(c: Setup, node: Node, before: Path, rest: Path)
    ensures UnderTdata(before) ==> !Wanted(c, node, before, rest)
  {
    hide At;
  }

  // Each wanted file is found once, and nothing else is.
  lemma {:induction false} FilesExactly(c: Setup, node: Node, before: Path, p: Path)
    requires WellNamed(node) && !UnderTdata(before)
    ensures FilesOf(c, node, before)[p] == if before <= p && Wanted(c, node, before, p[|before|..]) then 1 else 0
    decreases node, 1
  {
    hide IsReady, Child;
    if before <= p {
      assert before + p[|before|..] == p;
      assert |before| == |p| ==> p[|before|..] == [] && before == p;
    }
    if node.Dir? {
      FilesInExactly(c, node.entries, before, p);
      if before < p {
        var name := p[|before|];
        assert p[|before|..][0] == name && p[|before|..][1..] == p[|before| + 1..];
        assert before + [name] + p[|before| + 1..] == p;
      }
    } else if before <= p && |before| < |p| {
      assert At(node, p[|before|..]) == None;
    }
  }

  // Paths as text.

  lemma TextMore(path: Path, name: string)
    ensures Text(path + [name]) == Text(path) + "/" + name
  {
    assert (path + [name])[..|path|] == path;
  }

  lemma TextOne(name: string)
    ensures Text([name]) == "/" + name && Text([]) == ""
  {
    assert [name][..0] == [];
  }

  lemma {:induction false} TextFront(path: Path)
    requires path != []
    ensures Text(path) == "/" + path[0] + Text(path[1..])
  {
    hide Text;
    var init, last := path[..|path| - 1], path[|path| - 1];
    TextOne(path[0]);
    if init == [] {
      assert path == [path[0]] && path[1..] == [];
    } else {
      TextFront(init);
      TextMore(init, last);
      TextMore(init[1..], last);
      assert path == init + [last] && path[1..] == init[1..] + [last];
      FourPieces("/" + init[0], Text(init[1..]), "/", last);
    }
  }

  lemma FourPieces(a: string, b: string, d: string, e: string)
    ensures a + b + d + e == a + (b + d + e)
  {
  }

  // The first name of a text that starts with one: up to the next slash, or all.
  function FirstName(text: string): (k: nat)
    ensures k <= |text| && '/' !in text[..k] && (k < |text| ==> text[k] == '/')
  {
    if text == "" || text[0] == '/' then 0 else 1 + FirstName(text[1..])
  }

  lemma {:induction false} FirstNameIs(name: string, rest: string)
    requires '/' !in name && (rest != "" ==> rest[0] == '/')
    ensures FirstName(name + rest) == |name|
  {
    var text := name + rest;
    if name != "" {
      FirstNameIs(name[1..], rest);
      assert text[1..] == name[1..] + rest;
      assert name[0] in name;
    }
  }

  lemma TextStarts(path: Path)
    ensures path != [] ==> Text(path) != "" && Text(path)[0] == '/'
    ensures path != [] && AllNames(path) ==> |Text(path)| >= 2
  {
    if path != [] {
      TextFront(path);
    }
  }

  lemma FirstOfText(path: Path)
    requires path != [] && AllNames(path)
    ensures var text := Text(path)[1..]; FirstName(text) == |path[0]| && text[..|path[0]|] == path[0]
    ensures Text(path)[1..][|path[0]|..] == Text(path[1..])
  {
    TextFront(path);
    TextStarts(path[1..]);
    FirstNameIs(path[0], Text(path[1..]));
    assert Text(path)[1..] == path[0] + Text(path[1..]);
  }

  // Different paths are different texts.
  lemma {:induction false} TextInjective(p: Path, q: Path)
    requires AllNames(p) && AllNames(q) && Text(p) == Text(q)
    ensures p == q
  {
    TextStarts(p);
    TextStarts(q);
    if p != [] && q != [] {
      FirstOfText(p);
      FirstOfText(q);
      TextInjective(p[1..], q[1..]);
      assert p == [p[0]] + p[1..] && q == [q[0]] + q[1..];
    }
  }

  function UpdDir(c: Setup): string { c.workDir + (if c.readyFound then "tupdates/temp" else "tupdates/ready") }

  function Prefix(s: string, k: nat): string { if k <= |s| then s[..k] else s }

  // The updater's check for `tdata` on texts.
  predicate SkippedText(tdataDir: string, fname: string) {
    Prefix(fname, |tdataDir|) == tdataDir && (|fname| <= |tdataDir| || fname[|tdataDir|] == '/')
  }

  lemma TdataExactly(updDir: string, path: Path)
    requires path != [] && AllNames(path)
    ensures SkippedText(updDir + "/tdata", updDir + Text(path)) <==> UnderTdata(path)
  {
    hide SkippedText, UnderTdata;
    TdataText(updDir, Text(path));
    TdataFirst(path);
  }

  // The directory before both does not matter.
  lemma TdataText(updDir: string, text: string)
    ensures SkippedText(updDir + "/tdata", updDir + text) <==> SkippedText("/tdata", text)
  {
    var fname, tdata := updDir + text, updDir + "/tdata";
    assert |tdata| == |updDir| + 6;
    if |text| >= 6 {
      assert fname[..|tdata|] == updDir + text[..6];
      assert (updDir + text[..6])[|updDir|..] == text[..6] && tdata[|updDir|..] == "/tdata";
    }
  }

  lemma TdataFirst(path: Path)
    requires path != [] && AllNames(path)
    ensures SkippedText("/tdata", Text(path)) <==> UnderTdata(path)
  {
    hide Text, AllNames;
    var name, rest := path[0], Text(path[1..]);
    FirstOfText(path);
    TextFront(path);
    TextStarts(path[1..]);
    NamedTdata(name, rest);
    if SkippedText("/tdata", "/" + name + rest) {
      FirstNameIs("tdata", (name + rest)[5..]);
      FirstNameIs(name, rest);
    }
  }

  // A text that is skipped starts with the name, and one that starts with the name is skipped.
  lemma NamedTdata(name: string, rest: string)
    requires rest != "" ==> rest[0] == '/'
    ensures name == "tdata" ==> SkippedText("/tdata", "/" + name + rest)
    ensures SkippedText("/tdata", "/" + name + rest) ==>
      var text := name + rest;
      |text| >= 5 && text == "tdata" + text[5..] && (text[5..] != "" ==> text[5..][0] == '/')
  {
    var text, full := name + rest, "/" + name + rest;
    assert full == "/" + text && full[1..] == text;
    if name == "tdata" {
      assert full[..6] == "/tdata";
    }
    if SkippedText("/tdata", full) {
      assert full[..6] == "/tdata";
      assert text[..5] == full[..6][1..] == "tdata";
    }
  }

  lemma ReadyExactly(c: Setup, path: Path)
    requires path != [] && AllNames(path)
    ensures UpdDir(c) + Text(path) == c.workDir + "tupdates/temp/ready" <==> IsReady(c, path)
  {
    var fname, ready := UpdDir(c) + Text(path), c.workDir + "tupdates/temp/ready";
    if c.readyFound {
      TextFront(["ready"]);
      assert Text(["ready"]) == "/ready";
      assert ready == UpdDir(c) + "/ready";
      if fname == ready {
        assert Text(path) == fname[|UpdDir(c)|..] == "/ready";
        TextInjective(path, ["ready"]);
      }
    } else {
      var k := |c.workDir| + 9;
      assert fname[k] == UpdDir(c)[k] == "tupdates/ready"[9];
      assert ready[k] == "tupdates/temp/ready"[9];
    }
  }

  // The walk: directories still to be read, files and directories found.

  datatype Walk = Walk(queue: seq<(Path, Node)>, files: seq<Path>, forced: seq<Path>)

  ghost function FilesLeft(c: Setup, queue: seq<(Path, Node)>): multiset<Path> {
    if queue == [] then multiset{}
    else FilesLeft(c, queue[..|queue| - 1]) + FilesOf(c, queue[|queue| - 1].1, queue[|queue| - 1].0)
  }

  ghost function DirsLeft(queue: seq<(Path, Node)>): multiset<Path> {
    if queue == [] then multiset{}
    else DirsLeft(queue[..|queue| - 1]) + DirsOf(queue[|queue| - 1].1, queue[|queue| - 1].0)
  }

  ghost predicate CleanLeft(c: Setup, queue: seq<(Path, Node)>) {
    forall i :: 0 <= i < |queue| ==> queue[i].1.Dir? && Clean(c, queue[i].1, queue[i].0)
  }

  lemma FilesFirst(c: Setup, queue: seq<(Path, Node)>)
    requires queue != []
    ensures FilesLeft(c, queue) == FilesOf(c, queue[0].1, queue[0].0) + FilesLeft(c, queue[1..])
  {
    hide FilesOf;
    if |queue| == 1 {
      assert queue[..0] == [] && queue[1..] == [];
    } else {
      var init := queue[..|queue| - 1];
      FilesFirst(c, init);
      assert queue[1..][..|queue| - 2] == init[1..];
    }
  }

  lemma DirsFirst(queue: seq<(Path, Node)>)
    requires queue != []
    ensures DirsLeft(queue) == DirsOf(queue[0].1, queue[0].0) + DirsLeft(queue[1..])
  {
    hide DirsOf;
    if |queue| == 1 {
      assert queue[..0] == [] && queue[1..] == [];
    } else {
      var init := queue[..|queue| - 1];
      DirsFirst(init);
      assert queue[1..][..|queue| - 2] == init[1..];
    }
  }

  // What the directory `path` and its entries add to a walk.
  ghost predicate Adds(c: Setup, was: Walk, now: Walk, entries: seq<Entry>, path: Path) {
    && now.forced == was.forced
    && multiset(now.files) + FilesLeft(c, now.queue) ==
       multiset(was.files) + FilesLeft(c, was.queue) + FilesIn(c, entries, path)
    && DirsLeft(now.queue) == DirsLeft(was.queue) + DirsIn(entries, path)
    && (CleanLeft(c, now.queue) <==> CleanLeft(c, was.queue) && CleanIn(c, entries, path))
  }

  // The walk after one more entry, unless it is a file that would replace the updater.
  function Scanned(c: Setup, w: Walk, path: Path, e: Entry): Walk {
    var next := path + [e.name];
    if IsDots(e.name) || UnderTdata(next) then w
    else match e.node
      case Dir(_, _) => w.(queue := w.queue + [(next, e.node)])
      case File => if IsReady(c, next) then w else w.(files := w.files + [next])
      case NoStat => w
  }

  predicate BadFile(c: Setup, path: Path, e: Entry) {
    !IsDots(e.name) && !UnderTdata(path + [e.name]) && e.node.File? && IsUpdater(c, path + [e.name])
  }

  ghost predicate Ignored(path: Path, e: Entry) { IsDots(e.name) || UnderTdata(path + [e.name]) }

  lemma OneMoreEntry(c: Setup, entries: seq<Entry>, path: Path, e: Entry)
    ensures var more, next := entries + [e], path + [e.name];
      && FilesIn(c, more, path) ==
         FilesIn(c, entries, path) + (if Ignored(path, e) then multiset{} else FilesOf(c, e.node, next))
      && DirsIn(more, path) == DirsIn(entries, path) + (if Ignored(path, e) then multiset{} else DirsOf(e.node, next))
      && (CleanIn(c, more, path) <==> CleanIn(c, entries, path) && (Ignored(path, e) || Clean(c, e.node, next)))
  {
    hide FilesOf, DirsOf, Clean, IsDots, UnderTdata;
    var more := entries + [e];
    assert more[..|more| - 1] == entries && more[|more| - 1] == e;
  }

  // What one entry adds, if it is not a directory.
  lemma SmallEntry(c: Setup, path: Path, e: Entry)
    requires !e.node.Dir?
    ensures var next := path + [e.name];
      && FilesOf(c, e.node, next) == (if e.node.File? && !IsReady(c, next) then multiset{next} else multiset{})
      && DirsOf(e.node, next) == multiset{}
      && (Clean(c, e.node, next) <==> !(e.node.File? && IsUpdater(c, next)))
  {
    hide IsReady, IsUpdater;
  }

  lemma ScannedAdds(c: Setup, was: Walk, now: Walk, entries: seq<Entry>, path: Path, e: Entry)
    requires Adds(c, was, now, entries, path) && !BadFile(c, path, e)
    ensures Adds(c, was, Scanned(c, now, path, e), entries + [e], path)
  {
    hide IsUpdater, IsReady, UnderTdata, IsDots;
    hide FilesIn, DirsIn, CleanIn, FilesOf, DirsOf, Clean, FilesLeft, DirsLeft, CleanLeft;
    OneMoreEntry(c, entries, path, e);
    var next := path + [e.name];
    if e.node.Dir? {
      QueuedOne(c, now.queue, next, e.node);
    } else {
      SmallEntry(c, path, e);
      var scanned := Scanned(c, now, path, e);
      assert scanned.queue == now.queue;
      var added := if Ignored(path, e) then multiset{} else FilesOf(c, e.node, next);
      assert multiset(scanned.files) == multiset(now.files) + added;
      Swapped(multiset(now.files), FilesLeft(c, now.queue), added);
    }
  }

  lemma Swapped(a: multiset<Path>, b: multiset<Path>, x: multiset<Path>)
    ensures a + x + b == a + b + x
  {
  }

  lemma QueuedOne(c: Setup, queue: seq<(Path, Node)>, path: Path, node: Node)
    requires node.Dir?
    ensures var more := queue + [(path, node)];
      && FilesLeft(c, more) == FilesLeft(c, queue) + FilesOf(c, node, path)
      && DirsLeft(more) == DirsLeft(queue) + DirsOf(node, path)
      && (CleanLeft(c, more) <==> CleanLeft(c, queue) && Clean(c, node, path))
  {
    hide FilesOf, DirsOf, Clean;
    var more := queue + [(path, node)];
    assert more[..|queue|] == queue;
    assert forall i :: 0 <= i < |queue| ==> more[i] == queue[i];
    assert more[|queue|] == (path, node);
  }

  lemma BadStops(c: Setup, entries: seq<Entry>, path: Path, i: nat)
    requires i < |entries| && BadFile(c, path, entries[i])
    ensures !CleanIn(c, entries, path)
  {
    hide IsUpdater, UnderTdata, IsDots;
    if i < |entries| - 1 {
      BadStops(c, entries[..|entries| - 1], path, i);
    }
  }

  // Directories come after those they are in, and all that is found is in the update's directory or one of them.
  ghost predicate InKnown(path: Path, known: seq<Path>) { path != [] && (|path| == 1 || path[..|path| - 1] in known) }

  ghost predicate Orderly(w: Walk) {
    && (forall i :: 0 <= i < |w.forced| ==> InKnown(w.forced[i], w.forced[..i]))
    && (forall i :: 0 <= i < |w.files| ==> InKnown(w.files[i], w.forced))
    && (forall i :: 0 <= i < |w.queue| ==> w.queue[i].0 == [] || InKnown(w.queue[i].0, w.forced))
  }

  lemma ScannedOrderly(c: Setup, w: Walk, path: Path, e: Entry)
    requires Orderly(w) && (path == [] || path in w.forced)
    ensures Orderly(Scanned(c, w, path, e))
  {
    hide UnderTdata, IsReady, IsDots;
    var next := path + [e.name];
    assert next[..|next| - 1] == path;
    assert InKnown(next, w.forced);
  }

  // The first directory leaves the queue, and is one to be made unless it is the update's own.
  function Taken(w: Walk): Walk
    requires w.queue != []
  {
    var path := w.queue[0].0;
    w.(queue := w.queue[1..], forced := if path == [] then w.forced else w.forced + [path])
  }

  lemma TakenOrderly(w: Walk)
    requires Orderly(w) && w.queue != []
    ensures Orderly(Taken(w)) && (w.queue[0].0 == [] || w.queue[0].0 in Taken(w).forced)
  {
    var t := Taken(w);
    forall i | 0 <= i < |t.forced| ensures InKnown(t.forced[i], t.forced[..i]) {
      if i < |w.forced| {
        assert InKnown(w.forced[i], w.forced[..i]) && t.forced[..i] == w.forced[..i];
      } else {
        assert t.forced[..i] == w.forced;
      }
    }
    forall p | InKnown(p, w.forced) ensures InKnown(p, t.forced) {
    }
    if w.queue[0].0 != [] {
      assert t.forced[|w.forced|] == w.queue[0].0;
    }
  }

  // What is found and what is left make up all there is.
  ghost predicate Accounted(c: Setup, root: Node, w: Walk) {
    && multiset(w.files) + FilesLeft(c, w.queue) == FilesOf(c, root, [])
    && multiset(w.forced) + DirsLeft(w.queue) == DirsOf(root, [])
    && (CleanLeft(c, w.queue) <==> root.Dir? && Clean(c, root, []))
  }

  lemma StartAccounted(c: Setup, root: Node)
    ensures Accounted(c, root, Walk([([], root)], [], [])) && Orderly(Walk([([], root)], [], []))
  {
    hide FilesOf, DirsOf, Clean;
    var queue: seq<(Path, Node)> := [([], root)];
    assert queue[..0] == [] && queue[0] == ([], root);
    assert FilesLeft(c, queue) == FilesOf(c, root, []) && DirsLeft(queue) == DirsOf(root, []);
    assert CleanLeft(c, queue) <==> root.Dir? && Clean(c, root, []);
  }

  lemma DoneAccounted(c: Setup, root: Node, w: Walk)
    requires Accounted(c, root, w) && w.queue == []
    ensures multiset(w.files) == FilesOf(c, root, []) && multiset(w.forced) == DirsOf(root, [])
    ensures root.Dir? && Clean(c, root, [])
  {
  }

  lemma Unreadable(c: Setup, root: Node, w: Walk)
    requires Accounted(c, root, w) && w.queue != [] && (w.queue[0].1.Dir? ==> !w.queue[0].1.readable)
    ensures !(root.Dir? && Clean(c, root, []))
  {
    hide FilesOf, DirsOf;
    assert !(w.queue[0].1.Dir? && Clean(c, w.queue[0].1, w.queue[0].0));
  }

  // A whole directory.
  lemma DirAccounted(c: Setup, root: Node, w: Walk, now: Walk)
    requires Accounted(c, root, w) && w.queue != [] && w.queue[0].1.Dir? && w.queue[0].1.readable
    requires Adds(c, Taken(w), now, w.queue[0].1.entries, w.queue[0].0)
    ensures Accounted(c, root, now)
  {
    hide FilesIn, DirsIn, CleanIn, FilesLeft, DirsLeft, CleanLeft, FilesOf, DirsOf;
    var path, node := w.queue[0].0, w.queue[0].1;
    FilesFirst(c, w.queue);
    DirsFirst(w.queue);
    CleanFirst(c, w.queue);
    DirParts(c, node, path);
    Swapped(multiset(w.files), FilesIn(c, node.entries, path), FilesLeft(c, w.queue[1..]));
    if path != [] {
      assert multiset(w.forced + [path]) == multiset(w.forced) + multiset{path};
    }
  }

  lemma DirParts(c: Setup, node: Node, path: Path)
    requires node.Dir?
    ensures FilesOf(c, node, path) == FilesIn(c, node.entries, path)
    ensures DirsOf(node, path) == (if path == [] then multiset{} else multiset{path}) + DirsIn(node.entries, path)
  {
  }

  lemma CleanFirst(c: Setup, queue: seq<(Path, Node)>)
    requires queue != [] && queue[0].1.Dir? && queue[0].1.readable
    ensures CleanLeft(c, queue) <==> CleanIn(c, queue[0].1.entries, queue[0].0) && CleanLeft(c, queue[1..])
  {
    hide CleanIn;
    forall i | 1 <= i < |queue| ensures queue[i] == queue[1..][i - 1] {
    }
    if CleanIn(c, queue[0].1.entries, queue[0].0) && CleanLeft(c, queue[1..]) {
      forall i | 0 <= i < |queue| ensures queue[i].1.Dir? && Clean(c, queue[i].1, queue[i].0) {
        assert i > 0 ==> queue[i] == queue[1..][i - 1];
      }
    }
  }

  lemma BadDir(c: Setup, root: Node, w: Walk)
    requires Accounted(c, root, w) && w.queue != [] && w.queue[0].1.Dir? && w.queue[0].1.readable
    requires !CleanIn(c, w.queue[0].1.entries, w.queue[0].0)
    ensures !(root.Dir? && Clean(c, root, []))
  {
    hide FilesOf, DirsOf, CleanIn;
    CleanFirst(c, w.queue);
  }

  // Every wanted file is planned exactly once, and nothing else is.
  lemma PlanExactly(c: Setup, root: Node, files: seq<Path>, p: Path)
    requires WellNamed(root) && multiset(files) == FilesOf(c, root, [])
    ensures multiset(files)[p] == if Wanted(c, root, [], p) then 1 else 0
  {
    hide Wanted, FilesOf;
    FilesExactly(c, root, [], p);
    assert p[0..] == p;
  }

  predicate IsBinary(path: Path)
    requires path != []
  {
    EqualNoCase(Relative(path), "Telegram")
  }

  // Capital letters A to Z go with the small ones, in order; nothing else goes with anything but itself.
  predicate SameButForCase(x: char, y: char) {
    || x == y
    || ('A' <= x <= 'Z' && 'a' <= y <= 'z' && x as int - 'A' as int == y as int - 'a' as int)
    || ('a' <= x <= 'z' && 'A' <= y <= 'Z' && x as int - 'a' as int == y as int - 'A' as int)
  }

  lemma NoCaseExactly(a: string, b: string)
    ensures EqualNoCase(a, b) <==> |a| == |b| && forall i :: 0 <= i < |a| ==> SameButForCase(a[i], b[i])
  {
    if |a| == |b| && EqualNoCase(a, b) {
      forall i | 0 <= i < |a| ensures SameButForCase(a[i], b[i]) {
        assert AllLower(a)[i] == AllLower(b)[i];
      }
    }
  }

  // A file that would be copied to the updater's own place, in whatever case of letters, counts as the updater.
  lemma UpdaterExactly(c: Setup, path: Path)
    requires path != []
    ensures var to := c.exePath + Relative(path);
      IsUpdater(c, path) <==>
      |to| == |c.updaterName| && forall i :: 0 <= i < |to| ==> SameButForCase(to[i], c.updaterName[i])
  {
    hide EqualNoCase, SameButForCase;
    NoCaseExactly(c.exePath + Relative(path), c.updaterName);
  }

  lemma NoCaseAfter(a: string, b: string, d: string)
    ensures EqualNoCase(a + b, a + d) <==> EqualNoCase(b, d)
  {
    var x, y := AllLower(a + b), AllLower(a + d);
    assert x == AllLower(a) + AllLower(b) && y == AllLower(a) + AllLower(d);
    assert x[|a|..] == AllLower(b) && y[|a|..] == AllLower(d);
  }

  lemma Prepended(a: string, b: string, d: string)
    ensures a + b == a + d <==> b == d
  {
    assert (a + b)[|a|..] == b && (a + d)[|a|..] == d;
  }

  // Nothing is looked for in the directory itself or in the one above it.
  lemma NoDots(c: Setup, node: Node, before: Path, rest: Path, k: nat)
    requires Wanted(c, node, before, rest) && k < |rest|
    ensures rest[k] != "." && rest[k] != ".."
  {
    NoDotsOnTheWay(node, rest, k);
  }

  lemma {:induction false} NoDotsOnTheWay(node: Node, path: Path, k: nat)
    requires At(node, path).Some? && k < |path|
    ensures path[k] != "." && path[k] != ".."
    decreases |path|
  {
    if k > 0 {
      NoDotsOnTheWay(Child(node.entries, path[0]).value, path[1..], k - 1);
    }
  }

  // Two files go to the same place exactly if the binary is renamed, one of them is a binary (in any case of letters)
  // and the other one is too, or already has the name the binary gets.
  lemma SameTarget(c: Setup, p: Path, q: Path)
    requires p != [] && q != [] && AllNames(p) && AllNames(q) && p != q
    ensures Target(c, p) == Target(c, q) <==>
      && c.exeName != "Telegram"
      && (IsBinary(p) || Relative(p) == c.exeName) && (IsBinary(q) || Relative(q) == c.exeName)
  {
    hide EqualNoCase, Text;
    NoCaseAfter(c.exePath, Relative(p), "Telegram");
    NoCaseAfter(c.exePath, Relative(q), "Telegram");
    Prepended(c.exePath, Relative(p), Relative(q));
    Prepended(c.exePath, Relative(p), c.exeName);
    Prepended(c.exePath, Relative(q), c.exeName);
    DifferentTexts(p, q);
  }

  lemma OneName(name: string)
    ensures Text([name]) == "/" + name && Relative([name]) == name
  {
    assert [name][..0] == [];
  }

  lemma TopFile(c: Setup, root: Node, name: string)
    requires root.Dir? && Child(root.entries, name) == Some(File) && !IsDots(name) && name != "tdata" && name != "ready"
    ensures Wanted(c, root, [], [name])
  {
    assert [name][1..] == [] && [] + [name] == [name];
    assert At(File, []) == Some(File);
  }

  // So an update with the binary in two cases of letters copies both over each other.
  lemma SameTargetTwice(c: Setup)
    requires c.exeName != "Telegram"
    ensures var root := Dir(true, [Entry("Telegram", File), Entry("telegram", File)]);
      && WellNamed(root) && Wanted(c, root, [], ["Telegram"]) && Wanted(c, root, [], ["telegram"])
      && Target(c, ["Telegram"]) == Target(c, ["telegram"])
  {
    hide Wanted, Text, EqualNoCase;
    var entries := [Entry("Telegram", File), Entry("telegram", File)];
    assert entries[..1] == [Entry("Telegram", File)];
    TopFile(c, Dir(true, entries), "Telegram");
    TopFile(c, Dir(true, entries), "telegram");
    OneName("Telegram");
    OneName("telegram");
    BothBinaries(c);
  }

  lemma BothBinaries(c: Setup)
    ensures EqualNoCase(c.exePath + "Telegram", c.exePath + "Telegram")
    ensures EqualNoCase(c.exePath + "telegram", c.exePath + "Telegram")
  {
    NoCaseAfter(c.exePath, "telegram", "Telegram");
    assert AllLower("telegram") == AllLower("Telegram");
  }

  lemma DifferentTexts(p: Path, q: Path)
    requires p != [] && q != [] && AllNames(p) && AllNames(q) && p != q
    ensures Relative(p) != Relative(q)
  {
    TextStarts(p);
    TextStarts(q);
    if Relative(p) == Relative(q) {
      assert Text(p) == "/" + Relative(p) && Text(q) == "/" + Relative(q);
      TextInjective(p, q);
    }
  }

  // How much there is to read.

  ghost function Size(node: Node): nat
    decreases node, 1
  {
    1 + if node.Dir? then SizeIn(node.entries) else 0
  }

  ghost function SizeIn(entries: seq<Entry>): nat
    decreases entries, 0
  {
    if entries == [] then 0 else SizeIn(entries[..|entries| - 1]) + Size(entries[|entries| - 1].node)
  }

  ghost function SizeLeft(queue: seq<(Path, Node)>): nat {
    if queue == [] then 0 else SizeLeft(queue[..|queue| - 1]) + Size(queue[|queue| - 1].1)
  }

  lemma SizeFirst(queue: seq<(Path, Node)>)
    requires queue != []
    ensures SizeLeft(queue) == Size(queue[0].1) + SizeLeft(queue[1..])
  {
    if |queue| == 1 {
      assert queue[..0] == [] && queue[1..] == [];
    } else {
      var init := queue[..|queue| - 1];
      SizeFirst(init);
      assert queue[1..][..|queue| - 2] == init[1..];
    }
  }

  lemma ScannedSize(c: Setup, w: Walk, path: Path, entries: seq<Entry>, e: Entry)
    ensures SizeLeft(Scanned(c, w, path, e).queue) <= SizeLeft(w.queue) + Size(e.node)
    ensures SizeIn(entries + [e]) == SizeIn(entries) + Size(e.node)
  {
    hide UnderTdata, IsReady, IsDots, Size;
    assert (entries + [e])[..|entries|] == entries;
    var more := w.queue + [(path + [e.name], e.node)];
    assert more[..|w.queue|] == w.queue;
  }
}

/** The Linux updater. */
module UpdatePlanWalk {
  import opened UpdatePlanSpec

  class Updater {
    const c: Setup
    var dirs: seq<(string, Node)>
    var from: seq<string>
    var to: seq<string>
    var forcedirs: seq<string>
    ghost var walk: Walk

    constructor (c: Setup)
      ensures this.c == c && dirs == [] && from == [] && to == [] && forcedirs == [] && walk == Walk([], [], [])
    {
      this.c, dirs, from, to, forcedirs, walk := c, [], [], [], [], Walk([], [], []);
    }

    ghost predicate DirFits(dir: (string, Node), item: (Path, Node)) {
      && dir == (UpdDir(c) + Text(item.0), item.1)
      && WellNamed(item.1) && AllNames(item.0) && !UnderTdata(item.0)
    }

    ghost predicate FileFits(fname: string, tofname: string, path: Path) {
      path != [] && AllNames(path) && fname == UpdDir(c) + Text(path) && tofname == Target(c, path)
    }

    ghost predicate ForcedFits(forcedir: string, path: Path) {
      path != [] && forcedir == c.exePath + Relative(path) + "/"
    }

    // The lists hold the texts of what the walk found.
    ghost predicate Valid()
      reads this
    {
      && |dirs| == |walk.queue| && (forall i :: 0 <= i < |dirs| ==> DirFits(dirs[i], walk.queue[i]))
      && |from| == |to| == |walk.files| && (forall i :: 0 <= i < |from| ==> FileFits(from[i], to[i], walk.files[i]))
      && |forcedirs| == |walk.forced| && (forall i :: 0 <= i < |forcedirs| ==> ForcedFits(forcedirs[i], walk.forced[i]))
    }

    // One entry of a directory; false if it is a file that would replace the updater.
    method ScanEntry(dir: string, e: Entry, ghost path: Path) returns (ok: bool)
      requires Valid() && dir == UpdDir(c) + Text(path) && AllNames(path) && !UnderTdata(path)
      requires WellNamed(e.node) && IsName(e.name)
      modifies this`dirs, this`from, this`to, this`walk
      ensures ok <==> !BadFile(c, path, e)
      ensures ok ==> Valid() && walk == Scanned(c, old(walk), path, e)
    {
      hide WellNamed, Text, UnderTdata, AllNames, Target, IsUpdater, IsReady, SkippedText, UpdDir;
      if e.name == "." || e.name == ".." {
        return true;
      }
      ghost var next := path + [e.name];
      var fname := dir + "/" + e.name;
      TextOfEntry(path, e.name);
      var updDir := UpdDir(c);
      assert fname == updDir + Text(next);
      if SkippedText(updDir + "/tdata", fname) {
        return true;
      }
      if e.node.Dir? {
        dirs := dirs + [(fname, e.node)];
        walk := Scanned(c, walk, path, e);
      } else if e.node.File? {
        var relative := fname[|updDir| + 1..];
        TargetText(next, relative, fname);
        var tofname := c.exePath + relative;
        if EqualNoCase(tofname, c.updaterName) {
          return false;
        } else if EqualNoCase(tofname, c.exePath + "Telegram") && c.exeName != "Telegram" {
          tofname := c.exePath + c.exeName;
        }
        if fname != c.workDir + "tupdates/temp/ready" {
          from, to := from + [fname], to + [tofname];
        }
        walk := Scanned(c, walk, path, e);
      }
      return true;
    }

    lemma TextOfEntry(path: Path, name: string)
      requires AllNames(path) && IsName(name)
      ensures var next := path + [name];
        && AllNames(next) && Text(next) == Text(path) + "/" + name
        && (SkippedText(UpdDir(c) + "/tdata", UpdDir(c) + Text(next)) <==> UnderTdata(next))
        && (UpdDir(c) + Text(next) == c.workDir + "tupdates/temp/ready" <==> IsReady(c, next))
    {
      hide SkippedText, UnderTdata, IsReady, Text, UpdDir;
      TextMore(path, name);
      TdataExactly(UpdDir(c), path + [name]);
      ReadyExactly(c, path + [name]);
    }

    lemma TargetText(path: Path, relative: string, fname: string)
      requires path != [] && AllNames(path) && fname == UpdDir(c) + Text(path)
      ensures |UpdDir(c)| + 1 <= |fname|
      ensures relative == fname[|UpdDir(c)| + 1..] ==> relative == Relative(path)
      ensures IsUpdater(c, path) == EqualNoCase(c.exePath + Relative(path), c.updaterName)
      ensures var tofname := c.exePath + Relative(path);
              Target(c, path) ==
                if EqualNoCase(tofname, c.exePath + "Telegram") && c.exeName != "Telegram" then c.exePath + c.exeName
                else tofname
    {
      hide Text, EqualNoCase, UpdDir;
      TextStarts(path);
    }

    // All entries of a directory.
    method ScanDir(dir: string, entries: seq<Entry>, ghost path: Path) returns (ok: bool)
      requires Valid() && dir == UpdDir(c) + Text(path) && AllNames(path) && !UnderTdata(path)
      requires WellNamed(Dir(true, entries)) && Orderly(walk) && (path == [] || path in walk.forced)
      modifies this`dirs, this`from, this`to, this`walk
      ensures ok ==> Valid() && Orderly(walk) && Adds(c, old(walk), walk, entries, path)
      ensures ok ==> SizeLeft(walk.queue) <= SizeLeft(old(walk).queue) + SizeIn(entries)
      ensures !ok ==> !CleanIn(c, entries, path)
    {
      hide Adds, Text, UnderTdata, AllNames, UpdDir, Orderly, Scanned, BadFile, CleanIn, Size, SizeIn, SizeLeft;
      ghost var was := walk;
      NothingAdded(was, path);
      for i := 0 to |entries|
        invariant Valid() && Orderly(walk) && Adds(c, was, walk, entries[..i], path) && walk.forced == was.forced
        invariant SizeLeft(walk.queue) <= SizeLeft(was.queue) + SizeIn(entries[..i])
      {
        ghost var now := walk;
        ok := ScanEntry(dir, entries[i], path);
        if !ok {
          BadStops(c, entries, path, i);
          return false;
        }
        ScannedAdds(c, was, now, entries[..i], path, entries[i]);
        ScannedOrderly(c, now, path, entries[i]);
        ScannedSize(c, now, path, entries[..i], entries[i]);
        SameForced(now, path, entries[i]);
        assert entries[..i] + [entries[i]] == entries[..i + 1];
      }
      assert entries[..|entries|] == entries;
      return true;
    }

    lemma NothingAdded(w: Walk, path: Path)
      ensures Adds(c, w, w, [], path) && SizeIn([]) == 0
    {
    }

    lemma SameForced(w: Walk, path: Path, e: Entry)
      ensures Scanned(c, w, path, e).forced == w.forced
    {
    }

    // The next directory of the queue.
    method TakeDir() returns (dir: string, node: Node)
      requires Valid() && dirs != []
      modifies this`dirs, this`forcedirs, this`walk
      ensures Valid() && walk == Taken(old(walk)) && (dir, node) == old(dirs)[0]
    {
      hide WellNamed, UnderTdata, AllNames, UpdDir, Text;
      ghost var path := walk.queue[0].0;
      dir, node := dirs[0].0, dirs[0].1;
      var updDir := UpdDir(c);
      DirText(path);
      assert DirFits(dirs[0], walk.queue[0]);
      if |dir| > |updDir| + 1 {
        forcedirs := forcedirs + [c.exePath + (dir[|updDir| + 1..] + "/")];
        assert c.exePath + (Relative(path) + "/") == c.exePath + Relative(path) + "/";
      }
      dirs := dirs[1..];
      walk := Taken(walk);
    }

    lemma DirText(path: Path)
      requires AllNames(path)
      ensures var dir := UpdDir(c) + Text(path);
        && (|dir| > |UpdDir(c)| + 1 <==> path != [])
        && (path != [] ==> dir[|UpdDir(c)| + 1..] == Relative(path))
    {
      hide UpdDir;
      TextStarts(path);
    }

    // The whole update: what to copy where, and which directories to make first.
    method Update(root: Node) returns (ok: bool)
      requires WellNamed(root) && walk == Walk([], [], []) && dirs == [] && from == [] && to == [] && forcedirs == []
      modifies this
      ensures ok <==> root.Dir? && Clean(c, root, [])
      ensures ok ==> Valid() && Orderly(walk)
      ensures ok ==> multiset(walk.files) == FilesOf(c, root, []) && multiset(walk.forced) == DirsOf(root, [])
    {
      hide WellNamed, Accounted, Orderly, Size, SizeIn, SizeLeft, Clean, FilesOf, DirsOf, UpdDir;
      dirs, walk := [(UpdDir(c), root)], Walk([([], root)], [], []);
      StartAccounted(c, root);
      RootText();
      while dirs != []
        invariant Valid() && Orderly(walk) && Accounted(c, root, walk)
        decreases SizeLeft(walk.queue)
      {
        ghost var was, path := walk, walk.queue[0].0;
        assert DirFits(dirs[0], walk.queue[0]);
        var dir, node := TakeDir();
        TakenOrderly(was);
        SizeFirst(was.queue);
        if !node.Dir? || !node.readable {
          Unreadable(c, root, was);
          return false;
        }
        ReadableDir(node);
        ok := ScanDir(dir, node.entries, path);
        if !ok {
          BadDir(c, root, was);
          return false;
        }
        DirAccounted(c, root, was, walk);
      }
      DoneAccounted(c, root, walk);
      return true;
    }

    lemma RootText()
      ensures UpdDir(c) + Text([]) == UpdDir(c)
    {
      hide UpdDir;
    }

    lemma ReadableDir(node: Node)
      requires WellNamed(node) && node.Dir? && node.readable
      ensures WellNamed(Dir(true, node.entries)) && Size(node) == 1 + SizeIn(node.entries)
    {
      assert node == Dir(true, node.entries);
    }
  }
}

/** Making a directory with all those on the way to it. */
module Mkpath {
  const NUL := 0 as char

  // Where the next slash is, or the end.
  function NextSlash(path: string, from: nat): (k: nat)
    requires from <= |path|
    ensures from <= k <= |path| && (k < |path| ==> path[k] == '/') && forall i :: from <= i < k ==> path[i] != '/'
    decreases |path| - from
  {
    if from == |path| || path[from] == '/' then from else NextSlash(path, from + 1)
  }

  // The directories on the way, from where the next name starts.
  function OnTheWay(path: string, from: nat): seq<string>
    requires from <= |path|
    decreases |path| - from
  {
    var slash := NextSlash(path, from);
    if slash == |path| then []
    else (if slash != from then [path[..slash]] else []) + OnTheWay(path, slash + 1)
  }

  // All that are on the way are among them, and nothing else: what comes before a slash that ends a name.
  lemma {:induction false} OnTheWayExactly(path: string, from: nat, dir: string)
    requires from <= |path| && (from == 0 || path[from - 1] == '/')
    ensures dir in OnTheWay(path, from) <==>
      from < |dir| < |path| && dir == path[..|dir|] && path[|dir|] == '/' && path[|dir| - 1] != '/'
    decreases |path| - from
  {
    var slash := NextSlash(path, from);
    if slash < |path| {
      OnTheWayExactly(path, slash + 1, dir);
      assert slash != from ==> path[slash - 1] != '/';
    }
  }

  // The shorter ones come first.
  lemma {:induction false} ShorterFirst(path: string, from: nat, i: nat, j: nat)
    requires from <= |path| && i < j < |OnTheWay(path, from)|
    ensures from < |OnTheWay(path, from)[i]| < |OnTheWay(path, from)[j]|
    decreases |path| - from
  {
    var slash := NextSlash(path, from);
    var rest := OnTheWay(path, slash + 1);
    if slash == from {
      ShorterFirst(path, slash + 1, i, j);
    } else if i > 0 {
      ShorterFirst(path, slash + 1, i - 1, j - 1);
    } else {
      LaterLonger(path, slash + 1, j - 1);
    }
  }

  lemma {:induction false} LaterLonger(path: string, from: nat, i: nat)
    requires from <= |path| && i < |OnTheWay(path, from)|
    ensures |OnTheWay(path, from)[i]| > from
    decreases |path| - from
  {
    var slash := NextSlash(path, from);
    if slash == from {
      LaterLonger(path, slash + 1, i);
    } else if i > 0 {
      LaterLonger(path, slash + 1, i - 1);
    }
  }

  // The text that a buffer holds, up to its end mark.
  function CText(buffer: seq<char>): (s: string)
    ensures |s| <= |buffer| && s == buffer[..|s|] && NUL !in s && (|s| < |buffer| ==> buffer[|s|] == NUL)
  {
    if buffer == [] || buffer[0] == NUL then "" else [buffer[0]] + CText(buffer[1..])
  }

  lemma {:induction false} CTextIs(buffer: seq<char>, k: nat)
    requires k < |buffer| && buffer[k] == NUL && NUL !in buffer[..k]
    ensures CText(buffer) == buffer[..k]
  {
    if k > 0 {
      assert buffer[0] in buffer[..k] && buffer[1..][..k - 1] == buffer[..k][1..];
      CTextIs(buffer[1..], k - 1);
    }
  }

  // What is to be tried, in order.
  function All(path: string): seq<string> { OnTheWay(path, 0) + [path] }

  // These were tried, and the next name starts here.
  predicate TriedUpTo(path: string, from: nat, tried: seq<string>) {
    from <= |path| && tried + OnTheWay(path, from) == OnTheWay(path, 0)
  }

  lemma NextOnTheWay(path: string, from: nat)
    requires from <= |path|
    ensures var slash := NextSlash(path, from);
      && (slash == |path| ==> OnTheWay(path, from) == [])
      && (slash < |path| && slash == from ==> OnTheWay(path, from) == OnTheWay(path, slash + 1))
      && (slash < |path| && slash != from ==> OnTheWay(path, from) == [path[..slash]] + OnTheWay(path, slash + 1))
  {
    hide NextSlash;
  }

  lemma Regrouped(a: seq<string>, b: seq<string>, d: seq<string>)
    ensures a + (b + d) == a + b + d && a + [] == a
  {
  }

  lemma NextTried(path: string, from: nat, tried: seq<string>)
    requires TriedUpTo(path, from, tried)
    ensures var slash := NextSlash(path, from);
      && (slash == |path| ==> tried + [path] == All(path))
      && (slash < |path| ==> TriedUpTo(path, slash + 1, if slash == from then tried else tried + [path[..slash]]))
  {
    hide OnTheWay, NextSlash;
    var slash := NextSlash(path, from);
    NextOnTheWay(path, from);
    if slash < |path| {
      Regrouped(tried, [path[..slash]], OnTheWay(path, slash + 1));
    } else {
      Regrouped(tried, [], []);
    }
  }

  lemma TriedFirst(path: string, from: nat, tried: seq<string>)
    requires TriedUpTo(path, from, tried)
    ensures |tried| <= |All(path)| && tried == All(path)[..|tried|]
  {
    hide OnTheWay;
  }

  lemma NothingTried(path: string)
    ensures TriedUpTo(path, 0, [])
  {
  }

  // Tries all directories on the way and then the path itself, and stops at the first that cannot be made.
  method MakePath(path: string, canMake: string -> bool) returns (ok: bool, tried: seq<string>)
    requires NUL !in path
    ensures 0 < |tried| <= |All(path)| && tried == All(path)[..|tried|]
    ensures forall i :: 0 <= i < |tried| - 1 ==> canMake(tried[i])
    ensures if ok then tried == All(path) && canMake(path) else !canMake(tried[|tried| - 1])
  {
    hide All, TriedUpTo, NextSlash;
    var copypath := new char[|path| + 1](i requires 0 <= i <= |path| => if i < |path| then path[i] else NUL);
    tried := [];
    var pp := 0;
    NothingTried(path);
    var sp := FindSlash(copypath, pp, path);
    while sp < |path|
      invariant pp <= |path| && sp == NextSlash(path, pp) && copypath[..] == path + [NUL]
      invariant TriedUpTo(path, pp, tried) && forall i :: 0 <= i < |tried| ==> canMake(tried[i])
      decreases |path| - pp
    {
      NextTried(path, pp, tried);
      if sp != pp {
        var dir := CutAt(copypath, sp, path);
        tried := tried + [dir];
        if !canMake(dir) {
          TriedFirst(path, sp + 1, tried);
          return false, tried;
        }
      }
      pp := sp + 1;
      sp := FindSlash(copypath, pp, path);
    }
    NextTried(path, pp, tried);
    tried := tried + [path];
    assert tried[..|tried|] == tried;
    return canMake(path), tried;
  }

  // The text up to a slash, which gives way to an end mark and then comes back.
  method CutAt(buffer: array<char>, sp: nat, ghost path: string) returns (dir: string)
    requires sp < |path| && path[sp] == '/' && buffer[..] == path + [NUL] && NUL !in path
    modifies buffer
    ensures buffer[..] == path + [NUL] && dir == path[..sp]
  {
    buffer[sp] := NUL;
    dir := CText(buffer[..]);
    assert buffer[..][..sp] == path[..sp];
    CTextIs(buffer[..], sp);
    buffer[sp] := '/';
  }

  method FindSlash(buffer: array<char>, from: nat, ghost path: string) returns (k: nat)
    requires from <= |path| && buffer[..] == path + [NUL] && NUL !in path
    ensures k == NextSlash(path, from)
  {
    k := from;
    while buffer[k] != NUL && buffer[k] != '/'
      invariant from <= k <= |path| && NextSlash(path, from) == NextSlash(path, k)
      decreases |path| - k
    {
      assert buffer[..][k] == path[k];
      k := k + 1;
    }
    assert k < |path| ==> buffer[..][k] == path[k] && path[k] in path;
  }
}
