/** Subscription manifests (src/subscription.rs): parsing keeps the first entry of each name,
    merging files does the same across them, and a remote manifest is committed into the
    cache slot that the state does not reference. */
module Manifests {
  import opened Base
  import opened ProfileState
  import opened Publication

  datatype Node = Node(name: Name, endpoint: string)

  /** What one `proxies` entry turns out to be. */
  datatype Entry = Unparseable | UnsupportedType | Incomplete | Usable(node: Node)

  datatype ParsedFile = Unreadable | Parsed(entries: seq<Entry>)

  function NamesOf(nodes: seq<Node>): set<Name> {
    set i | 0 <= i < |nodes| :: nodes[i].name
  }

  /** The nodes with the first occurrence of each name, in order. */
  function KeepFirst(nodes: seq<Node>): seq<Node> {
    if nodes == [] then [] else
      var kept := KeepFirst(nodes[..|nodes| - 1]);
      var last := nodes[|nodes| - 1];
      if last.name in NamesOf(kept) then kept else kept + [last]
  }

  function NodeOf(entry: Entry): seq<Node> {
    if entry.Usable? then [entry.node] else []
  }

  function UsableNodes(entries: seq<Entry>): seq<Node> {
    if entries == [] then [] else UsableNodes(entries[..|entries| - 1]) + NodeOf(entries[|entries| - 1])
  }

  function NodesOfFile(file: ParsedFile): seq<Node> {
    if file.Parsed? then UsableNodes(file.entries) else []
  }

  function NodesOfFiles(files: seq<ParsedFile>): seq<Node> {
    if files == [] then [] else NodesOfFiles(files[..|files| - 1]) + NodesOfFile(files[|files| - 1])
  }

  predicate Distinct(nodes: seq<Node>) {
    forall i, j | 0 <= i < j < |nodes| :: nodes[i].name != nodes[j].name
  }

  function Unsupported(entries: seq<Entry>): nat {
    if entries == [] then 0 else
      Unsupported(entries[..|entries| - 1]) + if entries[|entries| - 1].UnsupportedType? then 1 else 0
  }

  /** Entries that are no entry at all, or lack a field. */
  function Bad(entries: seq<Entry>): nat {
    if entries == [] then 0 else
      Bad(entries[..|entries| - 1]) + if entries[|entries| - 1].Unparseable? || entries[|entries| - 1].Incomplete? then 1 else 0
  }

  method ParseEntries(entries: seq<Entry>) returns (nodes: seq<Node>, skippedType: nat, skippedBad: nat, duplicates: nat)
    ensures nodes == KeepFirst(UsableNodes(entries))
    ensures |nodes| + skippedType + skippedBad + duplicates == |entries|
    ensures skippedType == Unsupported(entries) && skippedBad == Bad(entries)
  {
    nodes, skippedType, skippedBad, duplicates := [], 0, 0, 0;
    var seen: set<Name> := {};
    for i := 0 to |entries|
      invariant nodes == KeepFirst(UsableNodes(entries[..i])) && seen == NamesOf(nodes)
      invariant |nodes| + skippedType + skippedBad + duplicates == i
      invariant skippedType == Unsupported(entries[..i]) && skippedBad == Bad(entries[..i])
    {
      OneMoreEntry(entries, i);
      OneMoreCounted(entries, i);
      match entries[i]
      case Unparseable => skippedBad := skippedBad + 1;
      case UnsupportedType => skippedType := skippedType + 1;
      case Incomplete => skippedBad := skippedBad + 1;
      case Usable(node) =>
        KeepOneMore(UsableNodes(entries[..i]), node);
        NamesOfOneMore(nodes, node);
        if node.name in seen {
          duplicates := duplicates + 1;
        } else {
          seen := seen + {node.name};
          nodes := nodes + [node];
        }
    }
    assert entries[..|entries|] == entries;
  }

  /** Merging file by file keeps the first occurrence of each name over all the files. */
  method LoadAll(files: seq<ParsedFile>) returns (all: seq<Node>)
    ensures all == KeepFirst(NodesOfFiles(files))
  {
    all := [];
    var seen: set<Name> := {};
    for i := 0 to |files|
      invariant all == KeepFirst(NodesOfFiles(files[..i])) && seen == NamesOf(all)
    {
      OneMoreFile(files, i);
      match files[i]
      case Unreadable =>
      case Parsed(entries) =>
        var nodes, _, _, _ := ParseEntries(entries);
        all, seen := MergeFile(NodesOfFiles(files[..i]), all, seen, nodes);
        KeepFirstOfParts(NodesOfFiles(files[..i]), UsableNodes(entries));
    }
    assert files[..|files|] == files;
  }

  /** The inner loop of a merge: `all` and `seen` so far, and one more parsed file. */
  method MergeFile(ghost before: seq<Node>, all: seq<Node>, seen: set<Name>, nodes: seq<Node>)
    returns (all': seq<Node>, seen': set<Name>)
    requires all == KeepFirst(before) && seen == NamesOf(all)
    ensures all' == KeepFirst(KeepFirst(before) + nodes) && seen' == NamesOf(all')
  {
    all', seen' := all, seen;
    KeepFirstNames(before);
    DistinctStays(all);
    assert all + nodes[..0] == all;
    for j := 0 to |nodes|
      invariant all' == KeepFirst(all + nodes[..j]) && seen' == NamesOf(all')
    {
      MergeStep(all, nodes, j);
      if nodes[j].name !in seen' {
        seen' := seen' + {nodes[j].name};
        all' := all' + [nodes[j]];
      }
    }
    assert nodes[..|nodes|] == nodes;
  }

  lemma MergeStep(all: seq<Node>, nodes: seq<Node>, j: nat)
    requires j < |nodes|
    ensures var kept := KeepFirst(all + nodes[..j]);
      && NamesOf(kept + [nodes[j]]) == NamesOf(kept) + {nodes[j].name}
      && KeepFirst(all + nodes[..j + 1]) == if nodes[j].name in NamesOf(kept) then kept else kept + [nodes[j]]
  {
    assert all + nodes[..j + 1] == all + nodes[..j] + [nodes[j]];
    KeepOneMore(all + nodes[..j], nodes[j]);
    NamesOfOneMore(KeepFirst(all + nodes[..j]), nodes[j]);
  }

  lemma OneMoreEntry(entries: seq<Entry>, i: nat)
    requires i < |entries|
    ensures UsableNodes(entries[..i + 1]) == UsableNodes(entries[..i]) + NodeOf(entries[i])
    ensures !entries[i].Usable? ==> UsableNodes(entries[..i + 1]) == UsableNodes(entries[..i])
  {
    assert entries[..i + 1][..i] == entries[..i];
  }

  lemma OneMoreCounted(entries: seq<Entry>, i: nat)
    requires i < |entries|
    ensures Unsupported(entries[..i + 1]) == Unsupported(entries[..i]) + if entries[i].UnsupportedType? then 1 else 0
    ensures Bad(entries[..i + 1]) == Bad(entries[..i]) + if entries[i].Unparseable? || entries[i].Incomplete? then 1 else 0
  {
    assert entries[..i + 1][..i] == entries[..i];
  }

  lemma OneMoreFile(files: seq<ParsedFile>, i: nat)
    requires i < |files|
    ensures NodesOfFiles(files[..i + 1]) == NodesOfFiles(files[..i]) + NodesOfFile(files[i])
    ensures files[i].Unreadable? ==> NodesOfFiles(files[..i + 1]) == NodesOfFiles(files[..i])
  {
    assert files[..i + 1][..i] == files[..i];
  }

  /** An unreadable file has no nodes. */
  lemma NodesOfOneFile(file: ParsedFile)
    ensures NodesOfFiles([file]) == if file.Parsed? then UsableNodes(file.entries) else []
  {
    NodesOfOneMore([], file);
    assert [] + [file] == [file];
  }

  /** The nodes of several files are those of each, one after the other. */
  lemma {:induction false} FilesConcatenate(a: seq<ParsedFile>, b: seq<ParsedFile>)
    ensures NodesOfFiles(a + b) == NodesOfFiles(a) + NodesOfFiles(b)
  {
    if b == [] {
      assert a + b == a;
    } else {
      var front, last := b[..|b| - 1], b[|b| - 1];
      assert b == front + [last] && a + b == (a + front) + [last];
      FilesConcatenate(a, front);
      NodesOfOneMore(a + front, last);
      NodesOfOneMore(front, last);
    }
  }

  lemma NodesOfOneMore(files: seq<ParsedFile>, last: ParsedFile)
    ensures NodesOfFiles(files + [last]) == NodesOfFiles(files) + NodesOfFile(last)
  {
    assert (files + [last])[..|files|] == files;
  }

  // ---------------------------------------------------------------------------------
  // What keeping the first means.

  lemma KeepOneMore(nodes: seq<Node>, n: Node)
    ensures KeepFirst(nodes + [n]) == if n.name in NamesOf(KeepFirst(nodes)) then KeepFirst(nodes) else KeepFirst(nodes) + [n]
  {
    assert (nodes + [n])[..|nodes|] == nodes;
  }

  lemma NamesOfOneMore(nodes: seq<Node>, n: Node)
    ensures NamesOf(nodes + [n]) == NamesOf(nodes) + {n.name}
  {
    forall x | x in NamesOf(nodes) + {n.name} ensures x in NamesOf(nodes + [n]) {
      if x in NamesOf(nodes) {
        var i :| 0 <= i < |nodes| && nodes[i].name == x;
        assert (nodes + [n])[i].name == x;
      } else {
        assert (nodes + [n])[|nodes|].name == x;
      }
    }
  }

  lemma {:induction false} KeepFirstNames(nodes: seq<Node>)
    ensures NamesOf(KeepFirst(nodes)) == NamesOf(nodes) && Distinct(KeepFirst(nodes))
  {
    if nodes != [] {
      var front, n := nodes[..|nodes| - 1], nodes[|nodes| - 1];
      KeepFirstNames(front);
      NamesOfOneMore(front, n);
      NamesOfOneMore(KeepFirst(front), n);
      assert nodes == front + [n];
    }
  }

  predicate IsFirst(nodes: seq<Node>, i: nat)
    requires i < |nodes|
  {
    forall j | 0 <= j < i :: nodes[j].name != nodes[i].name
  }

  /** Names are unique afterwards, none is lost, and what is kept under a name is exactly
      its first entry. */
  lemma {:induction false} KeepFirstKeepsFirsts(nodes: seq<Node>)
    ensures Distinct(KeepFirst(nodes)) && NamesOf(KeepFirst(nodes)) == NamesOf(nodes)
    ensures forall n :: n in KeepFirst(nodes) <==> exists i :: 0 <= i < |nodes| && nodes[i] == n && IsFirst(nodes, i)
  {
    KeepFirstNames(nodes);
    if nodes != [] {
      var front, last := nodes[..|nodes| - 1], nodes[|nodes| - 1];
      KeepFirstKeepsFirsts(front);
      assert forall i | 0 <= i < |front| :: IsFirst(front, i) <==> IsFirst(nodes, i);
      assert IsFirst(nodes, |front|) <==> last.name !in NamesOf(front);
      forall n ensures n in KeepFirst(nodes) <==> exists i :: 0 <= i < |nodes| && nodes[i] == n && IsFirst(nodes, i) {
        if n in KeepFirst(front) {
          var i :| 0 <= i < |front| && front[i] == n && IsFirst(front, i);
          assert nodes[i] == n && IsFirst(nodes, i);
        }
      }
    }
  }

  /** Positions in ascending order. */
  predicate Ascends(at: seq<nat>, n: nat) {
    (forall k | 0 <= k < |at| :: at[k] < n) && forall j, k | 0 <= j < k < |at| :: at[j] < at[k]
  }

  /** `part` is what stands at these positions, in order. */
  predicate StandsAt(part: seq<Node>, nodes: seq<Node>, at: seq<nat>) {
    && |at| == |part| && Ascends(at, |nodes|)
    && forall k | 0 <= k < |at| :: part[k] == nodes[at[k]]
  }

  lemma OneMoreStands(part: seq<Node>, nodes: seq<Node>, at: seq<nat>, n: Node)
    requires StandsAt(part, nodes, at)
    ensures StandsAt(part, nodes + [n], at) && StandsAt(part + [n], nodes + [n], at + [|nodes|])
  {}

  /** What is kept keeps its order. */
  lemma {:induction false} KeepFirstKeepsOrder(nodes: seq<Node>) returns (at: seq<nat>)
    ensures StandsAt(KeepFirst(nodes), nodes, at)
  {
    at := [];
    if nodes != [] {
      var front, last := nodes[..|nodes| - 1], nodes[|nodes| - 1];
      at := KeepFirstKeepsOrder(front);
      OneMoreStands(KeepFirst(front), front, at, last);
      KeepOneMore(front, last);
      assert nodes == front + [last];
      if last.name !in NamesOf(KeepFirst(front)) { at := at + [|front|]; }
    }
  }

  /** These nodes are exactly those of the usable entries, in order. */
  predicate UsableAt(part: seq<Node>, entries: seq<Entry>, at: seq<nat>) {
    && |at| == |part| && Ascends(at, |entries|)
    && (forall k | 0 <= k < |at| :: entries[at[k]] == Usable(part[k]))
    && (forall i | 0 <= i < |entries| && entries[i].Usable? :: i in at)
  }

  lemma OneMoreUsable(part: seq<Node>, entries: seq<Entry>, at: seq<nat>, e: Entry)
    requires UsableAt(part, entries, at)
    ensures UsableAt(part + NodeOf(e), entries + [e], if e.Usable? then at + [|entries|] else at)
  {
    var at' := if e.Usable? then at + [|entries|] else at;
    assert !e.Usable? ==> part + NodeOf(e) == part;
    forall i | 0 <= i < |entries + [e]| && (entries + [e])[i].Usable? ensures i in at' {
      if i < |entries| { assert i in at; } else { assert at'[|at|] == i; }
    }
  }

  lemma {:induction false} UsableNodesExactly(entries: seq<Entry>) returns (at: seq<nat>)
    ensures UsableAt(UsableNodes(entries), entries, at)
  {
    at := [];
    if entries != [] {
      var front, last := entries[..|entries| - 1], entries[|entries| - 1];
      assert entries == front + [last];
      var before := UsableNodesExactly(front);
      at := if last.Usable? then before + [|front|] else before;
      OneMoreUsable(UsableNodes(front), front, before, last);
    }
  }

  lemma {:induction false} DistinctStays(nodes: seq<Node>)
    requires Distinct(nodes)
    ensures KeepFirst(nodes) == nodes
  {
    if nodes != [] {
      DistinctStays(nodes[..|nodes| - 1]);
      assert nodes == nodes[..|nodes| - 1] + [nodes[|nodes| - 1]];
    }
  }

  lemma NamesOfBoth(a: seq<Node>, b: seq<Node>)
    ensures NamesOf(a + b) == NamesOf(a) + NamesOf(b)
  {
    forall x | x in NamesOf(a) + NamesOf(b) ensures x in NamesOf(a + b) {
      if x in NamesOf(a) {
        var i :| 0 <= i < |a| && a[i].name == x;
        assert (a + b)[i].name == x;
      } else {
        var i :| 0 <= i < |b| && b[i].name == x;
        assert (a + b)[|a| + i].name == x;
      }
    }
  }

  /** Removing duplicates inside each part first changes nothing. */
  lemma {:induction false} KeepFirstOfParts(a: seq<Node>, b: seq<Node>)
    ensures KeepFirst(KeepFirst(a) + KeepFirst(b)) == KeepFirst(a + b)
    decreases |b|
  {
    if b == [] {
      KeepFirstNames(a);
      DistinctStays(KeepFirst(a));
      assert a + b == a && KeepFirst(a) + KeepFirst(b) == KeepFirst(a);
    } else {
      var front, last := b[..|b| - 1], b[|b| - 1];
      assert b == front + [last];
      KeepFirstOfParts(a, front);
      OneMoreInPart(a, front, last);
    }
  }

  lemma SeenInPart(a: seq<Node>, front: seq<Node>, n: Node)
    requires n.name in NamesOf(KeepFirst(front))
    ensures KeepFirst(front + [n]) == KeepFirst(front) && KeepFirst(a + (front + [n])) == KeepFirst(a + front)
  {
    KeepFirstNames(front);
    KeepFirstNames(a + front);
    NamesOfBoth(a, front);
    KeepOneMore(front, n);
    assert a + (front + [n]) == (a + front) + [n];
    KeepOneMore(a + front, n);
  }

  lemma NewInPart(kept: seq<Node>, front: seq<Node>, n: Node)
    requires n.name !in NamesOf(KeepFirst(front))
    ensures kept + KeepFirst(front + [n]) == (kept + KeepFirst(front)) + [n]
  {
    KeepOneMore(front, n);
  }

  lemma OneMoreInPart(a: seq<Node>, front: seq<Node>, n: Node)
    requires KeepFirst(KeepFirst(a) + KeepFirst(front)) == KeepFirst(a + front)
    ensures KeepFirst(KeepFirst(a) + KeepFirst(front + [n])) == KeepFirst(a + (front + [n]))
  {
    if n.name in NamesOf(KeepFirst(front)) {
      SeenInPart(a, front, n);
    } else {
      NewInPart(KeepFirst(a), front, n);
      SameStep(KeepFirst(a) + KeepFirst(front), a + front, n);
      assert a + (front + [n]) == (a + front) + [n];
    }
  }

  lemma SameStep(xs: seq<Node>, ys: seq<Node>, n: Node)
    requires KeepFirst(xs) == KeepFirst(ys)
    ensures KeepFirst(xs + [n]) == KeepFirst(ys + [n])
  {
    KeepOneMore(xs, n);
    KeepOneMore(ys, n);
  }

  // ---------------------------------------------------------------------------------
  // The cache slots.

  /** A path whose last component may be missing, as for the root directory. */
  datatype Path = Path(dir: seq<string>, file: Option<string>)

  const SUFFIX_A := "causeway-a"
  const SUFFIX_B := "causeway-b"

  function CacheSlotPath(base: Path, slot: string): Option<Path> {
    if slot != CACHE_SLOT_A && slot != CACHE_SLOT_B then None
    else if base.file.None? then None
    else Some(Path(base.dir, Some(base.file.value + "." + if slot == CACHE_SLOT_A then SUFFIX_A else SUFFIX_B)))
  }

  /** Different caches and different slots never share a file, and no slot is the cache
      itself. */
  lemma SlotPathsAreApart(base: Path, slot: string, base': Path, slot': string)
    requires CacheSlotPath(base, slot).Some? && CacheSlotPath(base', slot').Some?
    ensures CacheSlotPath(base, slot) == CacheSlotPath(base', slot') <==> base == base' && slot == slot'
    ensures CacheSlotPath(base, slot) != Some(base)
    ensures CacheSlotPath(base, "a") == Some(Path(base.dir, Some(base.file.value + ".causeway-a")))
    ensures CacheSlotPath(base, "b") == Some(Path(base.dir, Some(base.file.value + ".causeway-b")))
  {
    var x, y := CacheSlotPath(base, slot).value.file.value, CacheSlotPath(base', slot').value.file.value;
    assert |SUFFIX_A| == |SUFFIX_B| == 10;
    assert base.file.value + "." + SUFFIX_A == base.file.value + ".causeway-a";
    assert base.file.value + "." + SUFFIX_B == base.file.value + ".causeway-b";
    assert x[|x| - 1] == (if slot == CACHE_SLOT_A then 'a' else 'b');
    assert y[|y| - 1] == (if slot' == CACHE_SLOT_A then 'a' else 'b');
    assert x[..|x| - 11] == base.file.value && y[..|y| - 11] == base'.file.value;
  }

  class Files {
    var content: map<Path, string>

    constructor ()
      ensures content == map[]
    {
      content := map[];
    }

    /** An atomic replacement. It may fail before the rename or after it. */
    method SavePrivateCache(path: Path, bytes: string) returns (ok: bool)
      modifies this
      ensures content == old(content) || content == old(content)[path := bytes]
      ensures ok ==> content == old(content)[path := bytes]
    {
      var renamed, synced: bool := *, *;
      if renamed {
        content := content[path := bytes];
      }
      return renamed && synced;
    }
  }

  datatype CacheError = NoFileName | WriteFailed

  class PreparedProfile {
    const nodes: seq<Node>
    var pendingCache: Option<(Path, string)>
    var committedSlot: Option<string>

    constructor (nodes: seq<Node>, pendingCache: Option<(Path, string)>)
      ensures this.nodes == nodes && this.pendingCache == pendingCache && committedSlot == None
    {
      this.nodes, this.pendingCache, this.committedSlot := nodes, pendingCache, None;
    }

    /** Write the pending body into the slot the state does not confirm. Whatever the
        outcome, the confirmed slot and every other file are untouched; a failed write can
        be retried, a success leaves nothing pending. */
    method CommitCacheSlot(confirmed: Option<string>, files: Files) returns (r: Result<Option<string>, CacheError>)
      modifies this, files
      ensures old(pendingCache).None? ==> r == Ok(None) && files.content == old(files.content) && committedSlot == old(committedSlot)
      ensures r.Ok? ==> pendingCache == None
      ensures r.Ok? && old(pendingCache).Some? ==>
        && r.value == committedSlot == Some(NextSlot(confirmed))
        && CacheSlotPath(old(pendingCache).value.0, NextSlot(confirmed)).Some?
        && files.content == old(files.content)[CacheSlotPath(old(pendingCache).value.0, NextSlot(confirmed)).value := old(pendingCache).value.1]
      ensures r.Err? ==> committedSlot == old(committedSlot)
      ensures r == Err(WriteFailed) ==> pendingCache == old(pendingCache)
      ensures r == Err(NoFileName) <==> old(pendingCache).Some? && old(pendingCache).value.0.file.None?
      ensures r == Err(NoFileName) ==> pendingCache == None && files.content == old(files.content)
      ensures old(pendingCache).Some? ==>
        forall p | Some(p) != CacheSlotPath(old(pendingCache).value.0, NextSlot(confirmed)) ::
          Lookup(files.content, p) == Lookup(old(files.content), p)
      ensures old(pendingCache).Some? && confirmed.Some? ==>
        forall p | Some(p) == CacheSlotPath(old(pendingCache).value.0, confirmed.value) ::
          Lookup(files.content, p) == Lookup(old(files.content), p)
    {
      if pendingCache.None? { return Ok(None); }
      var (base, bytes) := pendingCache.value;
      pendingCache := None;
      var next := if confirmed == Some(CACHE_SLOT_A) then CACHE_SLOT_B else CACHE_SLOT_A;
      var path := CacheSlotPath(base, next);
      if path.None? { return Err(NoFileName); }
      if confirmed.Some? && CacheSlotPath(base, confirmed.value).Some? {
        SlotPathsAreApart(base, confirmed.value, base, next);
      }
      var ok := files.SavePrivateCache(path.value, bytes);
      if !ok {
        pendingCache := Some((base, bytes));
        return Err(WriteFailed);
      }
      committedSlot := Some(next);
      return Ok(committedSlot);
    }
  }

  // ---------------------------------------------------------------------------------
  // From the fetch to the slot and back. `parse` is the syntax of a manifest: the entries of
  // a text, or a failure.

  const MAX_PROFILE_NODES: nat := 256

  /** A fetched body becomes a prepared profile, unless it has no usable node or too many. */
  method PrepareRemote(parse: string -> ParsedFile, base: Path, body: string) returns (prepared: Option<PreparedProfile>)
    ensures prepared.Some? <==> parse(body).Parsed? && 0 < |KeepFirst(UsableNodes(parse(body).entries))| <= MAX_PROFILE_NODES
    ensures prepared.Some? ==> fresh(prepared.value) && prepared.value.nodes == KeepFirst(UsableNodes(parse(body).entries))
    ensures prepared.Some? ==> prepared.value.pendingCache == Some((base, body)) && prepared.value.committedSlot == None
  {
    match parse(body)
    case Unreadable => return None;
    case Parsed(entries) =>
      var nodes, _, _, _ := ParseEntries(entries);
      if nodes == [] || |nodes| > MAX_PROFILE_NODES { return None; }
      var profile := new PreparedProfile(nodes, Some((base, body)));
      return Some(profile);
  }

  function ReadFile(parse: string -> ParsedFile, content: map<Path, string>, path: Path): ParsedFile {
    if path in content then parse(content[path]) else Unreadable
  }

  /** What a restart loads for a remote profile with a confirmed slot. */
  function LoadSlot(parse: string -> ParsedFile, content: map<Path, string>, base: Path, slot: string): seq<Node> {
    match CacheSlotPath(base, slot)
    case None => []
    case Some(path) => KeepFirst(NodesOfFiles([ReadFile(parse, content, path)]))
  }

  /** A restart that reads a committed slot gets the very nodes that were fetched. */
  lemma SlotReloadsTheFetch(parse: string -> ParsedFile, base: Path, slot: string, body: string, before: map<Path, string>)
    requires CacheSlotPath(base, slot).Some? && parse(body).Parsed?
    ensures var content := before[CacheSlotPath(base, slot).value := body];
      LoadSlot(parse, content, base, slot) == KeepFirst(UsableNodes(parse(body).entries))
  {
    var file := parse(body);
    OneMoreFile([file], 0);
    assert [file][..1] == [file] && NodesOfFiles([file][..0]) == [];
    assert [] + UsableNodes(file.entries) == UsableNodes(file.entries);
  }

  /** The whole way: prepare a fetched body, commit it, read the committed slot again. */
  method CommitAndReload(parse: string -> ParsedFile, base: Path, body: string, confirmed: Option<string>, files: Files)
    returns (fetched: Option<seq<Node>>, slot: Option<string>)
    modifies files
    ensures slot.Some? ==> slot == Some(NextSlot(confirmed)) && fetched == Some(LoadSlot(parse, files.content, base, slot.value))
    ensures confirmed.Some? ==>
      LoadSlot(parse, files.content, base, confirmed.value) == LoadSlot(parse, old(files.content), base, confirmed.value)
  {
    var prepared := PrepareRemote(parse, base, body);
    if prepared.None? { return None, None; }
    var r := prepared.value.CommitCacheSlot(confirmed, files);
    if r.Err? { return Some(prepared.value.nodes), None; }
    SlotReloadsTheFetch(parse, base, NextSlot(confirmed), body, old(files.content));
    return Some(prepared.value.nodes), r.value;
  }
}
