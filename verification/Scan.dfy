/**
 The full scan of a shared folder: the page loop with its guards, the recording of one item, the
 recursion over child folders and the pruning of checkpoints that were not seen.
 */
module FolderScan {
  import opened Prelude

  /** A remote item; a folder knows its children. */
  datatype Node =
    | FileNode(id: nat, fingerprint: nat)
    | FolderNode(id: nat, fingerprint: nat, children: seq<Node>)

  datatype Page = Page(items: seq<Node>, nextMarker: Option<nat>)

  datatype FolderCheckpoint = FolderCheckpoint(lastSeenAt: nat, lastScannedAt: Option<nat>)

  /** Remote id and fingerprint: the idempotency key of a transfer of this subscription. */
  datatype TransferKey = TransferKey(file: nat, fingerprint: nat)

  datatype Catalog = Catalog(files: map<nat, nat>, transfers: set<TransferKey>, discovered: nat)

  // ---- recording ---------------------------------------------------------------------------

  function Record(c: Catalog, item: Node, createTransfers: bool): Catalog {
    var isNew := item.id !in c.files;
    var changed := !isNew && c.files[item.id] != item.fingerprint;
    Catalog(c.files[item.id := item.fingerprint],
            if item.FileNode? && createTransfers && (isNew || changed)
            then c.transfers + {TransferKey(item.id, item.fingerprint)} else c.transfers,
            c.discovered + if isNew then 1 else 0)
  }

  function RecordAll(c: Catalog, items: seq<Node>, createTransfers: bool): Catalog {
    if items == [] then c
    else Record(RecordAll(c, items[..|items| - 1], createTransfers), items[|items| - 1], createTransfers)
  }

  lemma {:induction false} RecordAppend(c: Catalog, a: seq<Node>, b: seq<Node>, createTransfers: bool)
    ensures RecordAll(c, a + b, createTransfers) == RecordAll(RecordAll(c, a, createTransfers), b, createTransfers)
  {
    if b == [] {
      assert a + b == a;
    } else {
      RecordAppend(c, a, b[..|b| - 1], createTransfers);
      assert (a + b)[..|a + b| - 1] == a + b[..|b| - 1];
    }
  }

  // ---- what a folder holds -----------------------------------------------------------------

  function Ids(items: seq<Node>): set<nat> {
    set i: nat | i < |items| :: items[i].id
  }

  function FolderIds(items: seq<Node>): set<nat> {
    set i: nat | i < |items| && items[i].FolderNode? :: items[i].id
  }

  function Folders(items: seq<Node>): seq<Node> {
    if items == [] then []
    else Folders(items[..|items| - 1]) + if items[|items| - 1].FolderNode? then [items[|items| - 1]] else []
  }

  /** Everything below a list of siblings, in the order the scan meets it. */
  function Deep(items: seq<Node>): seq<Node>
    decreases items
  {
    if items == [] then []
    else
      var last := items[|items| - 1];
      Deep(items[..|items| - 1]) + if last.FolderNode? then last.children + Deep(last.children) else []
  }

  function Below(folder: Node): seq<Node>
    requires folder.FolderNode?
  {
    folder.children + Deep(folder.children)
  }

  /** The folders visited for a list of siblings, in order. */
  function VisitAll(items: seq<Node>): seq<nat>
    decreases items
  {
    if items == [] then []
    else
      var last := items[|items| - 1];
      VisitAll(items[..|items| - 1]) + if last.FolderNode? then [last.id] + VisitAll(last.children) else []
  }

  function FolderIdList(items: seq<Node>): seq<nat> {
    if items == [] then []
    else FolderIdList(items[..|items| - 1]) + if items[|items| - 1].FolderNode? then [items[|items| - 1].id] else []
  }

  lemma {:induction false} FolderIdListAppend(a: seq<Node>, b: seq<Node>)
    ensures FolderIdList(a + b) == FolderIdList(a) + FolderIdList(b)
  {
    if b == [] {
      assert a + b == a;
    } else {
      FolderIdListAppend(a, b[..|b| - 1]);
      assert (a + b)[..|a + b| - 1] == a + b[..|b| - 1];
    }
  }

  lemma Unfolded(items: seq<Node>)
    requires items != []
    ensures var init, last := items[..|items| - 1], items[|items| - 1];
            && Deep(items) == Deep(init) + (if last.FolderNode? then last.children + Deep(last.children) else [])
            && VisitAll(items) == VisitAll(init) + (if last.FolderNode? then [last.id] + VisitAll(last.children) else [])
            && FolderIdList(items) == FolderIdList(init) + (if last.FolderNode? then [last.id] else [])
  {
  }

  /** The scan visits the folders among the siblings and below them, each as often as it is listed. */
  lemma {:induction false} VisitsAreTheFolders(items: seq<Node>)
    ensures multiset(VisitAll(items)) == multiset(FolderIdList(items)) + multiset(FolderIdList(Deep(items)))
    decreases items
  {
    if items != [] {
      var init, last := items[..|items| - 1], items[|items| - 1];
      VisitsAreTheFolders(init);
      if last.FolderNode? {
        VisitsAreTheFolders(last.children);
      }
      VisitsOfLast(items);
    }
  }

  lemma VisitsOfLast(items: seq<Node>)
    requires items != []
    requires var init := items[..|items| - 1];
             multiset(VisitAll(init)) == multiset(FolderIdList(init)) + multiset(FolderIdList(Deep(init)))
    requires var last := items[|items| - 1];
             last.FolderNode? ==>
               multiset(VisitAll(last.children)) == multiset(FolderIdList(last.children)) + multiset(FolderIdList(Deep(last.children)))
    ensures multiset(VisitAll(items)) == multiset(FolderIdList(items)) + multiset(FolderIdList(Deep(items)))
  {
    hide Deep, VisitAll, FolderIdList;
    var init, last := items[..|items| - 1], items[|items| - 1];
    Unfolded(items);
    if last.FolderNode? {
      FolderIdListAppend(Deep(init), last.children + Deep(last.children));
      FolderIdListAppend(last.children, Deep(last.children));
    } else {
      assert Deep(items) == Deep(init) && VisitAll(items) == VisitAll(init) && FolderIdList(items) == FolderIdList(init);
    }
  }

  lemma {:induction false} OnlyFoldersMatter(items: seq<Node>)
    ensures Deep(Folders(items)) == Deep(items) && VisitAll(Folders(items)) == VisitAll(items)
  {
    if items != [] {
      var init, last := items[..|items| - 1], items[|items| - 1];
      OnlyFoldersMatter(init);
      if last.FolderNode? {
        var kept := Folders(items);
        assert kept[..|kept| - 1] == Folders(init) && kept[|kept| - 1] == last;
      } else {
        assert Folders(items) == Folders(init);
      }
    }
  }

  lemma {:induction false} FoldersAreItems(items: seq<Node>, k: nat)
    requires k < |Folders(items)|
    ensures Folders(items)[k].FolderNode? && exists i :: 0 <= i < |items| && items[i] == Folders(items)[k]
  {
    if k < |Folders(items[..|items| - 1])| {
      FoldersAreItems(items[..|items| - 1], k);
    }
  }

  ghost predicate DistinctIds(items: seq<Node>) {
    forall i, j :: 0 <= i < |items| && 0 <= j < |items| && items[i].id == items[j].id ==> i == j
  }

  // ---- pages -------------------------------------------------------------------------------

  function Listed(listing: nat -> Page, n: nat): seq<Node> {
    if n == 0 then [] else Listed(listing, n - 1) + listing(n - 1).items
  }

  datatype PaginationError = NoProgress | RepeatedCursor

  /** A listing shows finitely many items, on however many pages. */
  ghost predicate Finite(listing: nat -> Page, universe: set<nat>) {
    forall k: nat :: Ids(listing(k).items) <= universe
  }

  /** Page `k` shows something that the pages before it did not. */
  ghost predicate ShowsNew(listing: nat -> Page, k: nat) {
    !(Ids(listing(k).items) <= Ids(Listed(listing, k)))
  }

  /** Cursors handed out by the first `n` pages. */
  function Markers(listing: nat -> Page, n: nat): set<nat> {
    set j: nat | j < n && listing(j).nextMarker.Some? :: listing(j).nextMarker.value
  }

  ghost predicate CursorSeen(listing: nat -> Page, k: nat) {
    listing(k).nextMarker.Some? && listing(k).nextMarker.value in Markers(listing, k)
  }

  /** The first `n` pages passed the guards. */
  ghost predicate Accepted(listing: nat -> Page, n: nat) {
    forall k :: 0 <= k < n ==> listing(k).items != [] && ShowsNew(listing, k) && !CursorSeen(listing, k)
  }

  /** All of the first `n` pages announced a next one. */
  ghost predicate GoesOn(listing: nat -> Page, n: nat) {
    forall k :: 0 <= k < n ==> listing(k).nextMarker.Some?
  }

  /** The pages of a folder that lists each child once and then stops, without a cursor or with an empty page. */
  ghost predicate HonestPages(listing: nat -> Page, folder: Node, n: nat)
    requires folder.FolderNode?
  {
    && Listed(listing, n) == folder.children
    && (n == 0 || listing(n - 1).nextMarker.Some? ==> listing(n).items == [])
    && (forall k :: 0 <= k < n ==>
          listing(k).items != [] && (k < n - 1 ==> listing(k).nextMarker.Some?) && !CursorSeen(listing, k))
  }

  lemma IdsAppend(a: seq<Node>, b: seq<Node>)
    ensures Ids(a + b) == Ids(a) + Ids(b)
  {
    forall i | 0 <= i < |b| ensures b[i].id in Ids(a + b) {
      assert (a + b)[|a| + i] == b[i];
    }
    forall i | 0 <= i < |a| ensures a[i].id in Ids(a + b) {
      assert (a + b)[i] == a[i];
    }
  }

  lemma {:induction false} FoldersAppend(a: seq<Node>, b: seq<Node>)
    ensures Folders(a + b) == Folders(a) + Folders(b)
  {
    if b == [] {
      assert a + b == a;
    } else {
      FoldersAppend(a, b[..|b| - 1]);
      assert (a + b)[..|a + b| - 1] == a + b[..|b| - 1];
    }
  }

  lemma {:induction false} ListedIsPrefix(listing: nat -> Page, k: nat, n: nat)
    requires k <= n
    ensures Listed(listing, k) <= Listed(listing, n)
    decreases n
  {
    if k < n {
      ListedIsPrefix(listing, k, n - 1);
    }
  }

  /** With distinct children every honest page shows something new. */
  lemma HonestPagesShowNew(listing: nat -> Page, folder: Node, n: nat, k: nat)
    requires folder.FolderNode? && HonestPages(listing, folder, n) && DistinctIds(folder.children) && k < n
    ensures ShowsNew(listing, k)
  {
    ListedIsPrefix(listing, k + 1, n);
    var before, page := Listed(listing, k), listing(k).items;
    assert Listed(listing, k + 1) == before + page;
    assert page[0].id in Ids(page);
    assert folder.children[|before|] == page[0];
    forall i | 0 <= i < |before| ensures before[i].id != page[0].id {
      assert folder.children[i] == before[i];
    }
  }

  // ---- checkpoints -------------------------------------------------------------------------

  /** Exactly the folders among the items were seen since then; other checkpoints did not change. */
  ghost predicate Seen(before: map<nat, FolderCheckpoint>, after: map<nat, FolderCheckpoint>, items: seq<Node>, since: nat) {
    && after.Keys == before.Keys + FolderIds(items)
    && (forall id <- FolderIds(items) :: after[id].lastSeenAt >= since)
    && (forall id <- before.Keys :: id !in FolderIds(items) ==> after[id] == before[id])
  }

  lemma FolderIdsAppend(a: seq<Node>, b: seq<Node>)
    ensures FolderIds(a + b) == FolderIds(a) + FolderIds(b)
  {
    forall i | 0 <= i < |b| && b[i].FolderNode? ensures b[i].id in FolderIds(a + b) {
      assert (a + b)[|a| + i] == b[i];
    }
    forall i | 0 <= i < |a| && a[i].FolderNode? ensures a[i].id in FolderIds(a + b) {
      assert (a + b)[i] == a[i];
    }
  }

  lemma SeenAppend(x: map<nat, FolderCheckpoint>, y: map<nat, FolderCheckpoint>, z: map<nat, FolderCheckpoint>,
                   a: seq<Node>, b: seq<Node>, since: nat, later: nat)
    requires Seen(x, y, a, since) && Seen(y, z, b, later) && since <= later
    ensures Seen(x, z, a + b, since)
  {
    hide FolderIds;
    FolderIdsAppend(a, b);
  }

  /** No checkpoint is lost, and its scan time stays or is one since then. */
  ghost predicate Keeps(before: map<nat, FolderCheckpoint>, after: map<nat, FolderCheckpoint>, since: nat) {
    && before.Keys <= after.Keys
    && forall id <- before.Keys ::
         after[id].lastScannedAt == before[id].lastScannedAt || NotBefore(since, after[id].lastScannedAt)
  }

  predicate NotBefore(since: nat, at: Option<nat>) {
    at.Some? && since <= at.value
  }

  lemma KeepsAgain(x: map<nat, FolderCheckpoint>, y: map<nat, FolderCheckpoint>, z: map<nat, FolderCheckpoint>,
                   since: nat, later: nat)
    requires Keeps(x, y, since) && Keeps(y, z, later) && since <= later
    ensures Keeps(x, z, since)
  {
  }

  /** Every folder among the items was scanned since then. */
  ghost predicate ScannedSince(checkpoints: map<nat, FolderCheckpoint>, items: seq<Node>, since: nat) {
    forall id <- FolderIds(items) :: id in checkpoints && NotBefore(since, checkpoints[id].lastScannedAt)
  }

  // ---- the service -------------------------------------------------------------------------

  datatype Contents = Contents(discovered: nat, childFolders: seq<Node>)

  datatype ScanResult = ScanResult(foldersScanned: nat, discovered: nat)

  class ScanService {
    var files: map<nat, nat>
    var transfers: set<TransferKey>
    var checkpoints: map<nat, FolderCheckpoint>
    /** The last reading of the clock; readings never go back, but two of them can be equal. */
    var clock: nat

    ghost function Known(discovered: nat): Catalog
      reads this
    {
      Catalog(files, transfers, discovered)
    }

    method UtcNow() returns (now: nat)
      modifies this`clock
      ensures now == clock >= old(clock)
    {
      now :| now >= clock;
      clock := now;
    }

    method RecordItem(item: Node, createTransfers: bool) returns (discovered: nat)
      modifies this
      ensures Known(discovered) == Record(old(Known(0)), item, createTransfers)
      ensures Seen(old(checkpoints), checkpoints, [item], old(clock)) && Keeps(old(checkpoints), checkpoints, old(clock))
      ensures clock >= old(clock)
      ensures files == old(files)[item.id := item.fingerprint]
      ensures discovered == if item.id in old(files) then 0 else 1
      ensures transfers == if createTransfers && item.FileNode? && (item.id !in old(files) || old(files)[item.id] != item.fingerprint)
                           then old(transfers) + {TransferKey(item.id, item.fingerprint)}
                           else old(transfers)
      ensures item.FileNode? ==> checkpoints == old(checkpoints)
      ensures item.FolderNode? ==>
                checkpoints == old(checkpoints)[item.id := FolderCheckpoint(clock, if item.id in old(checkpoints)
                                                                                   then old(checkpoints)[item.id].lastScannedAt
                                                                                   else None)]
    {
      var now := UtcNow();
      var isNew := item.id !in files;
      var changed := !isNew && files[item.id] != item.fingerprint;
      files := files[item.id := item.fingerprint];
      match item {
        case FolderNode(id, _, _) =>
          checkpoints := if id in checkpoints then checkpoints[id := checkpoints[id].(lastSeenAt := now)]
                         else checkpoints[id := FolderCheckpoint(now, None)];
          assert FolderIds([item]) == {id} by { assert [item][0] == item; }
        case FileNode(id, fingerprint) =>
          if createTransfers && (isNew || changed) {
            transfers := transfers + {TransferKey(id, fingerprint)};
          }
          assert FolderIds([item]) == {};
      }
      discovered := if isNew then 1 else 0;
    }

    /** Record the items of one page and collect its folders. */
    method RecordPage(items: seq<Node>, createTransfers: bool) returns (c: Contents)
      modifies this
      ensures Known(c.discovered) == RecordAll(old(Known(0)), items, createTransfers)
      ensures c.childFolders == Folders(items)
      ensures Seen(old(checkpoints), checkpoints, items, old(clock)) && Keeps(old(checkpoints), checkpoints, old(clock))
      ensures clock >= old(clock)
    {
      hide Record, Seen, Keeps, FolderIds;
      var discovered: nat, childFolders := 0, [];
      NothingSeen(checkpoints, clock);
      for i := 0 to |items|
        invariant Known(discovered) == RecordAll(old(Known(0)), items[..i], createTransfers)
        invariant childFolders == Folders(items[..i]) && clock >= old(clock)
        invariant Seen(old(checkpoints), checkpoints, items[..i], old(clock)) && Keeps(old(checkpoints), checkpoints, old(clock))
      {
        ghost var known, seen, at := Known(discovered), checkpoints, clock;
        var more := RecordItem(items[i], createTransfers);
        assert items[..i + 1] == items[..i] + [items[i]];
        SeenAppend(old(checkpoints), seen, checkpoints, items[..i], [items[i]], old(clock), at);
        KeepsAgain(old(checkpoints), seen, checkpoints, old(clock), at);
        RecordCounts(Catalog(known.files, known.transfers, 0), items[i], createTransfers, discovered);
        discovered := discovered + more;
        if items[i].FolderNode? {
          childFolders := childFolders + [items[i]];
        }
        assert items[..i + 1][..i] == items[..i];
      }
      assert items[..|items|] == items;
      c := Contents(discovered, childFolders);
    }

    /** Record the next page of a listing on top of the pages before it. */
    method TakePage(listing: nat -> Page, pages: nat, discovered: nat, childFolders: seq<Node>, createTransfers: bool,
                    ghost known: Catalog, ghost seen: map<nat, FolderCheckpoint>, ghost since: nat)
      returns (total: nat, folders: seq<Node>)
      requires Known(discovered) == RecordAll(known, Listed(listing, pages), createTransfers)
      requires childFolders == Folders(Listed(listing, pages)) && since <= clock
      requires Seen(seen, checkpoints, Listed(listing, pages), since) && Keeps(seen, checkpoints, since)
      modifies this
      ensures Known(total) == RecordAll(known, Listed(listing, pages) + listing(pages).items, createTransfers)
      ensures folders == Folders(Listed(listing, pages) + listing(pages).items) && since <= clock
      ensures Seen(seen, checkpoints, Listed(listing, pages) + listing(pages).items, since) && Keeps(seen, checkpoints, since)
    {
      hide Record, RecordAll, Seen, Keeps, FolderIds, Folders, Listed;
      ghost var before, scanned, at := Known(discovered), checkpoints, clock;
      var recorded := RecordPage(listing(pages).items, createTransfers);
      RecordMore(known, before, Known(recorded.discovered), Listed(listing, pages), listing(pages).items, createTransfers);
      PageJoins(Listed(listing, pages), listing(pages).items, seen, scanned, checkpoints, since, at);
      total, folders := discovered + recorded.discovered, childFolders + recorded.childFolders;
    }

    /**
     The page loop of one folder, whatever pages the provider returns. It reads at most one page
     more than it has seen distinct items.
     */
    method ScanFolderContents(listing: nat -> Page, createTransfers: bool, ghost universe: set<nat>)
      returns (r: Result<Contents, PaginationError>, pages: nat)
      requires Finite(listing, universe)
      modifies this
      ensures Known(0) == RecordAll(old(Known(0)), Listed(listing, pages), createTransfers).(discovered := 0)
      ensures Seen(old(checkpoints), checkpoints, Listed(listing, pages), old(clock))
      ensures Keeps(old(checkpoints), checkpoints, old(clock))
      ensures clock >= old(clock)
      ensures pages <= |Ids(Listed(listing, pages))|
      ensures Accepted(listing, pages) && (pages > 0 ==> GoesOn(listing, pages - 1))
      ensures r.Ok? ==>
                && Known(r.value.discovered) == RecordAll(old(Known(0)), Listed(listing, pages), createTransfers)
                && r.value.childFolders == Folders(Listed(listing, pages))
                && (if GoesOn(listing, pages) then listing(pages).items == [] else pages > 0)
      ensures r.Err? ==>
                && GoesOn(listing, pages) && listing(pages).items != []
                && (r.error.NoProgress? <==> !ShowsNew(listing, pages))
                && (r.error.RepeatedCursor? ==> CursorSeen(listing, pages))
    {
      hide Record, RecordAll, Seen, Keeps, FolderIds, Ids, Folders, Listed, Markers, ShowsNew, CursorSeen, Accepted, GoesOn;
      var discovered: nat, childFolders := 0, [];
      var seenIds: set<nat>, seenMarkers: set<nat> := {}, {};
      pages := 0;
      NothingSeen(checkpoints, clock);
      NothingListed(listing, Known(0), createTransfers);
      while true
        invariant Known(discovered) == RecordAll(old(Known(0)), Listed(listing, pages), createTransfers)
        invariant childFolders == Folders(Listed(listing, pages)) && clock >= old(clock)
        invariant Seen(old(checkpoints), checkpoints, Listed(listing, pages), old(clock))
        invariant Keeps(old(checkpoints), checkpoints, old(clock))
        invariant seenIds == Ids(Listed(listing, pages)) && pages <= |seenIds| && seenIds <= universe
        invariant seenMarkers == Markers(listing, pages) && Accepted(listing, pages) && GoesOn(listing, pages)
        decreases universe - seenIds
      {
        ForgetDiscovered(old(Known(0)), Known(discovered), Listed(listing, pages), createTransfers);
        GoesOnBefore(listing, pages);
        var page := listing(pages);
        if page.items == [] {
          return Ok(Contents(discovered, childFolders)), pages;
        }
        var ids := Ids(page.items);
        PageVerdict(listing, pages, seenIds, seenMarkers);
        if ids <= seenIds {
          return Err(NoProgress), pages;
        }
        if page.nextMarker.Some? && page.nextMarker.value in seenMarkers {
          return Err(RepeatedCursor), pages;
        }
        OneMorePage(listing, pages, seenIds);
        OneMoreMarker(listing, pages);
        OneMoreAccepted(listing, pages);
        seenIds := seenIds + ids;
        if page.nextMarker.Some? {
          seenMarkers := seenMarkers + {page.nextMarker.value};
        }
        discovered, childFolders := TakePage(listing, pages, discovered, childFolders, createTransfers,
                                             old(Known(0)), old(checkpoints), old(clock));
        pages := pages + 1;
        if page.nextMarker.None? {
          ForgetDiscovered(old(Known(0)), Known(discovered), Listed(listing, pages), createTransfers);
          return Ok(Contents(discovered, childFolders)), pages;
        }
      }
    }

    /** One folder, then its child folders one after the other. */
    method ScanFolderFull(folder: Node, provider: nat -> nat -> Page, createTransfers: bool, ghost universe: set<nat>)
      returns (result: ScanResult, ghost visited: seq<nat>)
      requires folder.FolderNode? && HonestFolder(provider, folder) && HonestBelow(provider, folder.children)
      requires forall id: nat :: Finite(provider(id), universe)
      modifies this
      ensures Known(result.discovered) == RecordAll(old(Known(0)), Below(folder), createTransfers)
      ensures visited == [folder.id] + VisitAll(folder.children) && result.foldersScanned == |visited|
      ensures Seen(old(checkpoints), checkpoints, Below(folder), old(clock)) && Keeps(old(checkpoints), checkpoints, old(clock))
      ensures ScannedSince(checkpoints, Below(folder), old(clock)) && clock >= old(clock)
      decreases folder
    {
      hide Record, RecordAll, Seen, Keeps, ScannedSince, FolderIds, HonestFolder, HonestBelow, VisitAll, Deep, Folders,
           Finite, Listed, Accepted, GoesOn, ShowsNew, CursorSeen, Stamped, Scanning;
      var contents, pages := ScanFolderContents(provider(folder.id), createTransfers, universe);
      HonestFolderIsListed(provider, folder, contents, pages);
      ghost var known, start, since := old(Known(0)), old(checkpoints), old(clock);
      var childFolders := contents.value.childFolders;
      result := ScanResult(1, contents.value.discovered);
      visited := [folder.id];
      ScanBegins(folder, childFolders, known, Known(result.discovered), start, checkpoints, since, createTransfers);
      for i := 0 to |childFolders|
        invariant Scanning(folder, childFolders, i, known, Known(result.discovered), start, checkpoints, since, createTransfers)
        invariant visited == [folder.id] + VisitAll(childFolders[..i]) && result.foldersScanned == |visited|
        invariant clock >= since
      {
        var child := childFolders[i];
        FoldersAreItems(folder.children, i);
        ChildIsHonest(provider, folder.children, child);
        ghost var before, seen, at := Known(result.discovered), checkpoints, clock;
        var found, below := ScanFolderFull(child, provider, createTransfers, universe);
        ghost var scanned := checkpoints;
        var now := UtcNow();
        checkpoints := Stamped(checkpoints, child.id, now);
        ScanGoesOn(folder, childFolders, i, known, before, Known(found.discovered), start, seen, scanned, since, at, now,
                   createTransfers);
        OneMoreFolder(childFolders, i);
        result := ScanResult(result.foldersScanned + found.foldersScanned, result.discovered + found.discovered);
        visited := visited + below;
      }
      assert childFolders[..|childFolders|] == childFolders;
      ScanIsDone(folder, childFolders, known, Known(result.discovered), start, checkpoints, since, createTransfers);
    }

    /**
     A full scan of a finite tree whose ids are all different and whose folders list each child
     once. It ends, visits every folder once, discovers exactly what was unknown, knows every item
     afterwards, stamps every folder below the root, and leaves one transfer for each new or changed
     file when transfers are wanted. The checkpoints left are those of the folders below the root
     and of folders last seen at the very clock reading at which the scan began.
     */
    method ExecuteFullScan(root: Node, provider: nat -> nat -> Page, createTransfers: bool, ghost universe: set<nat>)
      returns (result: ScanResult, startedAt: nat, ghost visited: seq<nat>)
      requires root.FolderNode? && HonestFolder(provider, root) && HonestBelow(provider, root.children)
      requires DistinctIds([root] + Below(root))
      requires forall id: nat :: Finite(provider(id), universe)
      modifies this
      ensures result.foldersScanned == |visited| == 1 + |FolderIds(Below(root))|
      ensures multiset(visited) == multiset(FolderIds([root] + Below(root)))
      ensures result.discovered == |Ids(Below(root)) - old(files).Keys|
      ensures files.Keys == old(files).Keys + Ids(Below(root))
      ensures forall i :: 0 <= i < |Below(root)| ==> files[Below(root)[i].id] == Below(root)[i].fingerprint
      ensures forall id <- old(files).Keys :: id !in Ids(Below(root)) ==> files[id] == old(files)[id]
      ensures transfers == old(transfers) + if createTransfers then Wanted(old(files), Below(root)) else {}
      ensures startedAt >= old(clock) && checkpoints.Keys == FolderIds(Below(root)) + SeenFrom(old(checkpoints), startedAt)
      ensures ScannedSince(checkpoints, Below(root), startedAt)
    {
      hide RecordAll, HonestFolder, HonestBelow, Finite, VisitAll, Deep, Ids, Wanted, FolderIds, Keeps, DistinctIds, SeenFrom;
      TailIsDistinct(root, Below(root));
      ghost var before := checkpoints;
      startedAt := UtcNow();
      result, visited := ScanFolderFull(root, provider, createTransfers, universe);
      RecordsOfDistinct(old(Known(0)), Below(root), createTransfers);
      VisitsOnce(root);
      PrunedToSeen(before, checkpoints, Below(root), startedAt);
      checkpoints := Pruned(checkpoints, startedAt);
    }
  }

  /** Folders last seen at this time or later. */
  function SeenFrom(checkpoints: map<nat, FolderCheckpoint>, at: nat): set<nat> {
    set id | id in checkpoints && checkpoints[id].lastSeenAt >= at
  }

  /** Delete the checkpoints that were last seen before the scan began. */
  function Pruned(checkpoints: map<nat, FolderCheckpoint>, startedAt: nat): map<nat, FolderCheckpoint> {
    map id | id in checkpoints && checkpoints[id].lastSeenAt >= startedAt :: checkpoints[id]
  }

  lemma NothingSeen(checkpoints: map<nat, FolderCheckpoint>, since: nat)
    ensures Seen(checkpoints, checkpoints, [], since) && Keeps(checkpoints, checkpoints, since)
  {
  }

  lemma NothingListed(listing: nat -> Page, c: Catalog, createTransfers: bool)
    ensures Listed(listing, 0) == [] && Ids(Listed(listing, 0)) == {} && Folders(Listed(listing, 0)) == []
    ensures RecordAll(c, Listed(listing, 0), createTransfers) == c
    ensures Markers(listing, 0) == {} && Accepted(listing, 0) && GoesOn(listing, 0)
  {
  }

  lemma PageJoins(listed: seq<Node>, items: seq<Node>, x: map<nat, FolderCheckpoint>, y: map<nat, FolderCheckpoint>,
                  z: map<nat, FolderCheckpoint>, since: nat, at: nat)
    requires Seen(x, y, listed, since) && Keeps(x, y, since) && Seen(y, z, items, at) && Keeps(y, z, at) && since <= at
    ensures Seen(x, z, listed + items, since) && Keeps(x, z, since)
    ensures Folders(listed + items) == Folders(listed) + Folders(items)
  {
    SeenAppend(x, y, z, listed, items, since, at);
    KeepsAgain(x, y, z, since, at);
    FoldersAppend(listed, items);
  }

  lemma PageVerdict(listing: nat -> Page, n: nat, seenIds: set<nat>, seenMarkers: set<nat>)
    requires seenIds == Ids(Listed(listing, n)) && seenMarkers == Markers(listing, n)
    ensures Ids(listing(n).items) <= seenIds <==> !ShowsNew(listing, n)
    ensures listing(n).nextMarker.Some? && listing(n).nextMarker.value in seenMarkers <==> CursorSeen(listing, n)
  {
  }

  /** The discovery count only adds up. */
  lemma RecordCounts(c: Catalog, item: Node, createTransfers: bool, more: nat)
    ensures Record(c.(discovered := c.discovered + more), item, createTransfers) ==
            var d := Record(c, item, createTransfers); d.(discovered := d.discovered + more)
  {
  }

  lemma {:induction false} RecordAllCounts(c: Catalog, items: seq<Node>, createTransfers: bool, more: nat)
    ensures RecordAll(c.(discovered := c.discovered + more), items, createTransfers) ==
            var d := RecordAll(c, items, createTransfers); d.(discovered := d.discovered + more)
  {
    if items != [] {
      RecordAllCounts(c, items[..|items| - 1], createTransfers, more);
    }
  }

  /** Record more items, counting from zero, and add the counts. */
  lemma RecordMore(c: Catalog, d: Catalog, e: Catalog, a: seq<Node>, b: seq<Node>, createTransfers: bool)
    requires d == RecordAll(c, a, createTransfers) && e == RecordAll(d.(discovered := 0), b, createTransfers)
    ensures e.(discovered := d.discovered + e.discovered) == RecordAll(c, a + b, createTransfers)
  {
    hide Record;
    RecordAllCounts(d.(discovered := 0), b, createTransfers, d.discovered);
    RecordAppend(c, a, b, createTransfers);
  }

  lemma ForgetDiscovered(c: Catalog, d: Catalog, items: seq<Node>, createTransfers: bool)
    requires d == RecordAll(c, items, createTransfers)
    ensures d.(discovered := 0) == RecordAll(c, items, createTransfers).(discovered := 0)
  {
  }

  lemma OneMorePage(listing: nat -> Page, n: nat, seenIds: set<nat>)
    requires seenIds == Ids(Listed(listing, n)) && ShowsNew(listing, n)
    ensures Listed(listing, n + 1) == Listed(listing, n) + listing(n).items
    ensures seenIds + Ids(listing(n).items) == Ids(Listed(listing, n + 1))
    ensures |seenIds + Ids(listing(n).items)| > |seenIds| && seenIds < seenIds + Ids(listing(n).items)
  {
    hide Ids;
    IdsAppend(Listed(listing, n), listing(n).items);
    var id :| id in Ids(listing(n).items) && id !in seenIds;
    Grows(seenIds, seenIds + Ids(listing(n).items), id);
  }

  lemma OneMoreMarker(listing: nat -> Page, n: nat)
    ensures Markers(listing, n + 1) ==
            if listing(n).nextMarker.Some? then Markers(listing, n) + {listing(n).nextMarker.value} else Markers(listing, n)
  {
    var more := if listing(n).nextMarker.Some? then Markers(listing, n) + {listing(n).nextMarker.value} else Markers(listing, n);
    forall m | m in more ensures m in Markers(listing, n + 1) {
      if m in Markers(listing, n) {
        var j: nat :| j < n && listing(j).nextMarker.Some? && listing(j).nextMarker.value == m;
        assert j < n + 1;
      }
    }
  }

  lemma OneMoreAccepted(listing: nat -> Page, n: nat)
    requires Accepted(listing, n) && GoesOn(listing, n)
    requires listing(n).items != [] && ShowsNew(listing, n) && !CursorSeen(listing, n)
    ensures Accepted(listing, n + 1) && (GoesOn(listing, n + 1) <==> listing(n).nextMarker.Some?)
  {
    hide ShowsNew, CursorSeen;
  }

  lemma GoesOnBefore(listing: nat -> Page, n: nat)
    requires GoesOn(listing, n)
    ensures n > 0 ==> GoesOn(listing, n - 1)
  {
  }

  lemma Grows(a: set<nat>, b: set<nat>, x: nat)
    requires a <= b && x in b && x !in a
    ensures |a| < |b|
  {
    SubsetSize(a + {x}, b);
  }

  // ---- a finite tree -----------------------------------------------------------------------

  ghost predicate HonestFolder(provider: nat -> nat -> Page, folder: Node)
    requires folder.FolderNode?
  {
    DistinctIds(folder.children) && exists n: nat :: HonestPages(provider(folder.id), folder, n)
  }

  ghost predicate HonestBelow(provider: nat -> nat -> Page, items: seq<Node>)
    decreases items
  {
    forall i :: 0 <= i < |items| && items[i].FolderNode? ==>
      HonestFolder(provider, items[i]) && HonestBelow(provider, items[i].children)
  }

  lemma ChildIsHonest(provider: nat -> nat -> Page, items: seq<Node>, child: Node)
    requires HonestBelow(provider, items) && child.FolderNode? && exists i :: 0 <= i < |items| && items[i] == child
    ensures HonestFolder(provider, child) && HonestBelow(provider, child.children)
  {
  }

  /** An honest folder passes the guards and its pages are read to the end, no further. */
  lemma HonestFolderIsListed(provider: nat -> nat -> Page, folder: Node, r: Result<Contents, PaginationError>, pages: nat)
    requires folder.FolderNode? && HonestFolder(provider, folder)
    requires var listing := provider(folder.id);
             && Accepted(listing, pages) && (pages > 0 ==> GoesOn(listing, pages - 1))
             && (r.Ok? ==> if GoesOn(listing, pages) then listing(pages).items == [] else pages > 0)
             && (r.Err? ==>
                   && GoesOn(listing, pages) && listing(pages).items != []
                   && (r.error.NoProgress? <==> !ShowsNew(listing, pages))
                   && (r.error.RepeatedCursor? ==> CursorSeen(listing, pages)))
    ensures r.Ok? && Listed(provider(folder.id), pages) == folder.children
  {
    hide ShowsNew, CursorSeen, Listed, DistinctIds;
    var listing := provider(folder.id);
    var n: nat :| HonestPages(listing, folder, n);
    var lastRead, lastPage := listing(if pages > 0 then pages - 1 else 0), listing(if n > 0 then n - 1 else 0);
    if pages < n {
      HonestPagesShowNew(listing, folder, n, pages);
    }
  }

  function Stamped(checkpoints: map<nat, FolderCheckpoint>, id: nat, now: nat): map<nat, FolderCheckpoint> {
    if id in checkpoints then checkpoints[id := checkpoints[id].(lastScannedAt := Some(now))] else checkpoints
  }

  lemma NothingBelow(checkpoints: map<nat, FolderCheckpoint>, since: nat)
    ensures Deep([]) == [] && VisitAll([]) == [] && ScannedSince(checkpoints, [], since)
  {
  }

  lemma OneMoreFolder(folders: seq<Node>, i: nat)
    requires i < |folders| && folders[i].FolderNode?
    ensures Deep(folders[..i + 1]) == Deep(folders[..i]) + Below(folders[i])
    ensures VisitAll(folders[..i + 1]) == VisitAll(folders[..i]) + ([folders[i].id] + VisitAll(folders[i].children))
  {
    assert folders[..i + 1][..i] == folders[..i];
  }

  lemma ChildScanned(children: seq<Node>, folders: seq<Node>, i: nat,
                     start: map<nat, FolderCheckpoint>, before: map<nat, FolderCheckpoint>,
                     after: map<nat, FolderCheckpoint>, stamped: map<nat, FolderCheckpoint>, since: nat, at: nat, now: nat)
    requires i < |folders| && folders[i].FolderNode? && folders == Folders(children) && since <= at <= now
    requires Seen(start, before, children + Deep(folders[..i]), since) && Keeps(start, before, since)
    requires ScannedSince(before, folders[..i] + Deep(folders[..i]), since)
    requires Seen(before, after, Below(folders[i]), at) && Keeps(before, after, at) && ScannedSince(after, Below(folders[i]), at)
    requires stamped == Stamped(after, folders[i].id, now)
    ensures Seen(start, stamped, children + Deep(folders[..i + 1]), since) && Keeps(start, stamped, since)
    ensures ScannedSince(stamped, folders[..i + 1] + Deep(folders[..i + 1]), since)
  {
    hide Below, Deep, Folders, FolderIds, Seen, Keeps, ScannedSince;
    var child, deep := folders[i], Deep(folders[..i]);
    OneMoreFolder(folders, i);
    SeenAppend(start, before, after, children + deep, Below(child), since, at);
    assert children + deep + Below(child) == children + Deep(folders[..i + 1]);
    KeepsAgain(start, before, after, since, at);
    ChildIsSeen(children, folders, i, children + Deep(folders[..i + 1]));
    StampKeeps(start, after, children + Deep(folders[..i + 1]), child.id, since, now);
    var listed := folders[..i] + deep;
    StillScanned(before, after, listed, since, at);
    ScannedTogether(after, listed, Below(child), since, at);
    StampScans(after, listed + Below(child), child, since, now);
    SameFolders(folders, i, listed + Below(child) + [child]);
    ScannedAgain(stamped, listed + Below(child) + [child], folders[..i + 1] + Deep(folders[..i + 1]), since);
  }

  lemma ChildIsSeen(children: seq<Node>, folders: seq<Node>, i: nat, items: seq<Node>)
    requires i < |folders| && folders == Folders(children) && children <= items
    ensures folders[i].id in FolderIds(items)
  {
    FoldersAreItems(children, i);
    var j :| 0 <= j < |children| && children[j] == folders[i];
    assert items[j] == folders[i];
  }

  lemma StampKeeps(start: map<nat, FolderCheckpoint>, after: map<nat, FolderCheckpoint>, items: seq<Node>, id: nat,
                   since: nat, now: nat)
    requires Seen(start, after, items, since) && Keeps(start, after, since) && id in FolderIds(items) && since <= now
    ensures Seen(start, Stamped(after, id, now), items, since) && Keeps(start, Stamped(after, id, now), since)
  {
  }

  lemma StillScanned(before: map<nat, FolderCheckpoint>, after: map<nat, FolderCheckpoint>, items: seq<Node>, since: nat, at: nat)
    requires ScannedSince(before, items, since) && Keeps(before, after, at) && since <= at
    ensures ScannedSince(after, items, since)
  {
  }

  lemma ScannedTogether(after: map<nat, FolderCheckpoint>, a: seq<Node>, b: seq<Node>, since: nat, at: nat)
    requires ScannedSince(after, a, since) && ScannedSince(after, b, at) && since <= at
    ensures ScannedSince(after, a + b, since)
  {
    FolderIdsAppend(a, b);
  }

  lemma StampScans(after: map<nat, FolderCheckpoint>, items: seq<Node>, child: Node, since: nat, now: nat)
    requires ScannedSince(after, items, since) && since <= now && child.FolderNode? && child.id in after
    ensures ScannedSince(Stamped(after, child.id, now), items + [child], since)
  {
    FolderIdsAppend(items, [child]);
  }

  lemma SameFolders(folders: seq<Node>, i: nat, items: seq<Node>)
    requires i < |folders| && folders[i].FolderNode?
    requires items == folders[..i] + Deep(folders[..i]) + Below(folders[i]) + [folders[i]]
    ensures FolderIds(folders[..i + 1] + Deep(folders[..i + 1])) == FolderIds(items)
  {
    hide Below, Deep, FolderIds;
    OneMoreFolder(folders, i);
    assert folders[..i + 1] == folders[..i] + [folders[i]];
    FolderIdsAppend(folders[..i + 1], Deep(folders[..i + 1]));
    FolderIdsAppend(folders[..i], [folders[i]]);
    FolderIdsAppend(Deep(folders[..i]), Below(folders[i]));
    FolderIdsAppend(folders[..i] + Deep(folders[..i]) + Below(folders[i]), [folders[i]]);
    FolderIdsAppend(folders[..i] + Deep(folders[..i]), Below(folders[i]));
    FolderIdsAppend(folders[..i], Deep(folders[..i]));
  }

  lemma ScannedAgain(checkpoints: map<nat, FolderCheckpoint>, a: seq<Node>, b: seq<Node>, since: nat)
    requires ScannedSince(checkpoints, a, since) && FolderIds(a) == FolderIds(b)
    ensures ScannedSince(checkpoints, b, since)
  {
  }

  lemma {:induction false} FoldersHaveTheIds(items: seq<Node>)
    ensures FolderIds(Folders(items)) == FolderIds(items)
  {
    if items != [] {
      var init, last := items[..|items| - 1], items[|items| - 1];
      FoldersHaveTheIds(init);
      FolderIdsAppend(init, [last]);
      FolderIdsAppend(Folders(init), Folders([last]));
      assert items == init + [last];
      FoldersAppend(init, [last]);
      assert Folders([last]) == if last.FolderNode? then [last] else [];
    }
  }

  /** Where the recursion stands after its first `i` child folders: what it knows, and what it stamped. */
  ghost predicate Scanning(folder: Node, folders: seq<Node>, i: nat, known: Catalog, now: Catalog,
                           start: map<nat, FolderCheckpoint>, checkpoints: map<nat, FolderCheckpoint>, since: nat,
                           createTransfers: bool)
    requires folder.FolderNode? && i <= |folders|
  {
    var deep := Deep(folders[..i]);
    && now == RecordAll(known, folder.children + deep, createTransfers)
    && Seen(start, checkpoints, folder.children + deep, since) && Keeps(start, checkpoints, since)
    && ScannedSince(checkpoints, folders[..i] + deep, since)
  }

  lemma ScanBegins(folder: Node, folders: seq<Node>, known: Catalog, now: Catalog, start: map<nat, FolderCheckpoint>,
                   checkpoints: map<nat, FolderCheckpoint>, since: nat, createTransfers: bool)
    requires folder.FolderNode? && now == RecordAll(known, folder.children, createTransfers)
    requires Seen(start, checkpoints, folder.children, since) && Keeps(start, checkpoints, since)
    ensures Scanning(folder, folders, 0, known, now, start, checkpoints, since, createTransfers)
    ensures [folder.id] == [folder.id] + VisitAll(folders[..0])
  {
    hide RecordAll, Seen, Keeps, ScannedSince;
    NothingBelow(checkpoints, since);
    assert folders[..0] == [] && folder.children + [] == folder.children && folders[..0] + Deep(folders[..0]) == [];
  }

  lemma ScanGoesOn(folder: Node, folders: seq<Node>, i: nat, known: Catalog, before: Catalog, found: Catalog,
                   start: map<nat, FolderCheckpoint>, seen: map<nat, FolderCheckpoint>, scanned: map<nat, FolderCheckpoint>,
                   since: nat, at: nat, now: nat, createTransfers: bool)
    requires folder.FolderNode? && i < |folders| && folders[i].FolderNode? && folders == Folders(folder.children) && since <= at <= now
    requires Scanning(folder, folders, i, known, before, start, seen, since, createTransfers)
    requires found == RecordAll(before.(discovered := 0), Below(folders[i]), createTransfers)
    requires Seen(seen, scanned, Below(folders[i]), at) && Keeps(seen, scanned, at) && ScannedSince(scanned, Below(folders[i]), at)
    ensures Scanning(folder, folders, i + 1, known, found.(discovered := before.discovered + found.discovered), start,
                     Stamped(scanned, folders[i].id, now), since, createTransfers)
  {
    hide RecordAll, Seen, Keeps, ScannedSince, Stamped, Deep, Folders, Below;
    var deep := Deep(folders[..i]);
    ChildScanned(folder.children, folders, i, start, seen, scanned, Stamped(scanned, folders[i].id, now), since, at, now);
    OneMoreFolder(folders, i);
    RecordMore(known, before, found, folder.children + deep, Below(folders[i]), createTransfers);
    assert folder.children + deep + Below(folders[i]) == folder.children + Deep(folders[..i + 1]);
  }

  lemma ScanIsDone(folder: Node, folders: seq<Node>, known: Catalog, now: Catalog, start: map<nat, FolderCheckpoint>,
                   checkpoints: map<nat, FolderCheckpoint>, since: nat, createTransfers: bool)
    requires folder.FolderNode? && folders == Folders(folder.children)
    requires Scanning(folder, folders, |folders|, known, now, start, checkpoints, since, createTransfers)
    ensures now == RecordAll(known, Below(folder), createTransfers)
    ensures Seen(start, checkpoints, Below(folder), since) && Keeps(start, checkpoints, since)
    ensures ScannedSince(checkpoints, Below(folder), since) && VisitAll(folders) == VisitAll(folder.children)
  {
    hide RecordAll, Seen, Keeps, ScannedSince, Deep, Folders, VisitAll;
    assert folders[..|folders|] == folders;
    OnlyFoldersMatter(folder.children);
    AllScanned(checkpoints, folder, since);
  }

  lemma AllScanned(checkpoints: map<nat, FolderCheckpoint>, folder: Node, since: nat)
    requires folder.FolderNode? && ScannedSince(checkpoints, Folders(folder.children) + Deep(Folders(folder.children)), since)
    ensures ScannedSince(checkpoints, Below(folder), since)
  {
    hide FolderIds, Folders, ScannedSince, Deep;
    var c := folder.children;
    OnlyFoldersMatter(c);
    FoldersHaveTheIds(c);
    FolderIdsAppend(Folders(c), Deep(c));
    FolderIdsAppend(c, Deep(c));
    ScannedAgain(checkpoints, Folders(c) + Deep(Folders(c)), Below(folder), since);
  }

  // ---- what distinct items leave behind ----------------------------------------------------

  /** Transfers of the files that are new or changed. */
  function Wanted(files: map<nat, nat>, items: seq<Node>): set<TransferKey> {
    set i: nat | i < |items| && items[i].FileNode? && (items[i].id !in files || files[items[i].id] != items[i].fingerprint)
      :: TransferKey(items[i].id, items[i].fingerprint)
  }

  lemma TailIsDistinct(root: Node, items: seq<Node>)
    requires DistinctIds([root] + items)
    ensures DistinctIds(items)
  {
    forall i, j | 0 <= i < |items| && 0 <= j < |items| && items[i].id == items[j].id ensures i == j {
      assert ([root] + items)[i + 1] == items[i] && ([root] + items)[j + 1] == items[j];
    }
  }

  lemma InitIsDistinct(items: seq<Node>)
    requires DistinctIds(items) && items != []
    ensures DistinctIds(items[..|items| - 1]) && items[|items| - 1].id !in Ids(items[..|items| - 1])
  {
  }

  lemma IdsOfLast(items: seq<Node>)
    requires items != []
    ensures Ids(items) == Ids(items[..|items| - 1]) + {items[|items| - 1].id}
  {
    var last := items[|items| - 1];
    assert items == items[..|items| - 1] + [last];
    IdsAppend(items[..|items| - 1], [last]);
    assert Ids([last]) == {last.id} by { assert [last][0] == last; }
  }

  lemma {:induction false} KeysOf(c: Catalog, items: seq<Node>, createTransfers: bool)
    ensures RecordAll(c, items, createTransfers).files.Keys == c.files.Keys + Ids(items)
  {
    hide Ids;
    if items == [] {
      assert Ids(items) == {} by { NoIds(); }
    } else {
      KeysOf(c, items[..|items| - 1], createTransfers);
      IdsOfLast(items);
    }
  }

  lemma NoIds()
    ensures Ids([]) == {}
  {
  }

  lemma {:induction false} DiscoveredOf(c: Catalog, items: seq<Node>, createTransfers: bool)
    ensures RecordAll(c, items, createTransfers).discovered == c.discovered + |Ids(items) - c.files.Keys|
  {
    hide Ids;
    if items == [] {
      assert Ids(items) == {} by { NoIds(); }
    } else {
      var init, last := items[..|items| - 1], items[|items| - 1];
      DiscoveredOf(c, init, createTransfers);
      KeysOf(c, init, createTransfers);
      IdsOfLast(items);
      OneMoreUnknown(Ids(init), c.files.Keys, last.id);
    }
  }

  lemma OneMoreUnknown(ids: set<nat>, known: set<nat>, id: nat)
    ensures |ids + {id} - known| == |ids - known| + if id in known + ids then 0 else 1
  {
    if id in known + ids {
      assert ids + {id} - known == ids - known;
    } else {
      assert ids + {id} - known == ids - known + {id};
    }
  }

  lemma {:induction false} OthersKept(c: Catalog, items: seq<Node>, createTransfers: bool, id: nat)
    requires id !in Ids(items)
    ensures var d := RecordAll(c, items, createTransfers);
            (id in d.files <==> id in c.files) && (id in c.files ==> d.files[id] == c.files[id])
  {
    hide Ids;
    if items != [] {
      IdsOfLast(items);
      OthersKept(c, items[..|items| - 1], createTransfers, id);
    }
  }

  lemma {:induction false} FingerprintOf(c: Catalog, items: seq<Node>, createTransfers: bool, i: nat)
    requires DistinctIds(items) && i < |items|
    ensures var d := RecordAll(c, items, createTransfers); items[i].id in d.files && d.files[items[i].id] == items[i].fingerprint
  {
    hide Ids;
    var n := |items| - 1;
    if i < n {
      InitIsDistinct(items);
      FingerprintOf(c, items[..n], createTransfers, i);
    }
  }

  lemma {:induction false} TransfersOfDistinct(c: Catalog, items: seq<Node>, createTransfers: bool)
    requires DistinctIds(items)
    ensures RecordAll(c, items, createTransfers).transfers ==
            c.transfers + if createTransfers then Wanted(c.files, items) else {}
  {
    hide DistinctIds, Wanted;
    if items == [] {
      assert Wanted(c.files, items) == {} by { NothingWanted(c.files); }
    } else {
      var init, last := items[..|items| - 1], items[|items| - 1];
      InitIsDistinct(items);
      TransfersOfDistinct(c, init, createTransfers);
      OthersKept(c, init, createTransfers, last.id);
      WantedOfLast(c.files, items);
    }
  }

  lemma NothingWanted(files: map<nat, nat>)
    ensures Wanted(files, []) == {}
  {
  }

  lemma WantedOfLast(files: map<nat, nat>, items: seq<Node>)
    requires items != []
    ensures var last := items[|items| - 1];
            Wanted(files, items) == Wanted(files, items[..|items| - 1])
              + if last.FileNode? && (last.id !in files || files[last.id] != last.fingerprint)
                then {TransferKey(last.id, last.fingerprint)} else {}
  {
    var init, last := items[..|items| - 1], items[|items| - 1];
    assert forall i :: 0 <= i < |init| ==> items[i] == init[i];
    forall key | key in Wanted(files, init) ensures key in Wanted(files, items) {
      var i: nat :| i < |init| && init[i].FileNode? && (init[i].id !in files || files[init[i].id] != init[i].fingerprint)
                    && key == TransferKey(init[i].id, init[i].fingerprint);
      assert items[i] == init[i];
    }
  }

  lemma RecordsOfDistinct(c: Catalog, items: seq<Node>, createTransfers: bool)
    requires DistinctIds(items)
    ensures var d := RecordAll(c, items, createTransfers);
            && d.files.Keys == c.files.Keys + Ids(items)
            && d.discovered == c.discovered + |Ids(items) - c.files.Keys|
            && (forall i :: 0 <= i < |items| ==> d.files[items[i].id] == items[i].fingerprint)
            && (forall id <- c.files.Keys :: id !in Ids(items) ==> d.files[id] == c.files[id])
            && d.transfers == c.transfers + if createTransfers then Wanted(c.files, items) else {}
  {
    hide DistinctIds, RecordAll, Wanted, Ids;
    KeysOf(c, items, createTransfers);
    DiscoveredOf(c, items, createTransfers);
    TransfersOfDistinct(c, items, createTransfers);
    var d := RecordAll(c, items, createTransfers);
    forall i | 0 <= i < |items| ensures items[i].id in d.files && d.files[items[i].id] == items[i].fingerprint {
      FingerprintOf(c, items, createTransfers, i);
    }
    forall id | id in c.files && id !in Ids(items) ensures d.files[id] == c.files[id] {
      OthersKept(c, items, createTransfers, id);
    }
  }

  lemma PrunedToSeen(before: map<nat, FolderCheckpoint>, after: map<nat, FolderCheckpoint>, items: seq<Node>, startedAt: nat)
    requires Seen(before, after, items, startedAt)
    ensures Pruned(after, startedAt).Keys == FolderIds(items) + SeenFrom(before, startedAt)
    ensures ScannedSince(after, items, startedAt) ==> ScannedSince(Pruned(after, startedAt), items, startedAt)
  {
    hide FolderIds;
  }

  lemma FolderIdsOfLast(items: seq<Node>)
    requires items != []
    ensures var init, last := items[..|items| - 1], items[|items| - 1];
            && FolderIds(items) == FolderIds(init) + (if last.FolderNode? then {last.id} else {})
            && FolderIds(init) <= Ids(init)
  {
    var init, last := items[..|items| - 1], items[|items| - 1];
    FolderIdsAppend(init, [last]);
    assert items == init + [last];
    assert FolderIds([last]) == (if last.FolderNode? then {last.id} else {}) by { assert [last][0] == last; }
  }

  lemma {:induction false} FolderIdListIsTheSet(items: seq<Node>)
    requires DistinctIds(items)
    ensures multiset(FolderIdList(items)) == multiset(FolderIds(items)) && |FolderIdList(items)| == |FolderIds(items)|
  {
    if items == [] {
      assert FolderIds(items) == {};
    } else {
      hide FolderIds, DistinctIds;
      var init, last := items[..|items| - 1], items[|items| - 1];
      InitIsDistinct(items);
      FolderIdListIsTheSet(init);
      FolderIdsOfLast(items);
    }
  }

  /** With distinct ids the scan visits the root and every folder below it exactly once. */
  lemma VisitsOnce(root: Node)
    requires root.FolderNode? && DistinctIds([root] + Below(root))
    ensures var visited := [root.id] + VisitAll(root.children);
            && multiset(visited) == multiset(FolderIds([root] + Below(root)))
            && |visited| == 1 + |FolderIds(Below(root))|
  {
    hide VisitAll, DistinctIds, FolderIds;
    VisitsAreTheFolders(root.children);
    FolderIdListAppend(root.children, Deep(root.children));
    FolderIdListAppend([root], Below(root));
    assert FolderIdList([root]) == [root.id] by { RootAlone(root); }
    FolderIdListIsTheSet([root] + Below(root));
    TailIsDistinct(root, Below(root));
    FolderIdListIsTheSet(Below(root));
    assert |VisitAll(root.children)| == |multiset(VisitAll(root.children))| == |multiset(FolderIdList(Below(root)))|;
  }

  lemma RootAlone(root: Node)
    requires root.FolderNode?
    ensures FolderIdList([root]) == [root.id]
  {
    assert [root][..0] == [];
  }
}
