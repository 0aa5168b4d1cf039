/** The history page's view model: the list shown on screen, loaded from the history table, the
    removal of one entry or of all of them, and the export and import of the history as records.
    Dialogs, file pickers, JSON text and toasts are parameters or left out. */
module HistoryVM {
  import opened Wrappers
  import opened Text
  import opened Database

  // ---------------------------------------------------------------------------------------------
  // Site ids

  /** The id written for a site name in an export; an unknown name gets "". */
  function SiteId(siteName: string): string {
    if siteName == BilibiliSite then "bilibili"
    else if siteName == DouyuSite then "douyu"
    else if siteName == HuyaSite then "huya"
    else if siteName == DouyinSite then "douyin"
    else ""
  }

  /** The site name an id stands for, the reverse of `SiteId`. */
  function SiteNameOf(siteId: string): Option<string> {
    if siteId == "bilibili" then Some(BilibiliSite)
    else if siteId == "douyu" then Some(DouyuSite)
    else if siteId == "huya" then Some(HuyaSite)
    else if siteId == "douyin" then Some(DouyinSite)
    else None
  }

  /** Exactly the four known sites get an id, each its own: the id names the site back. */
  lemma SiteIdRoundTrip(siteName: string)
    ensures SiteId(siteName) != "" <==> IsKnownSite(siteName)
    ensures IsKnownSite(siteName) ==> SiteNameOf(SiteId(siteName)) == Some(siteName)
    ensures '_' !in SiteId(siteName)
  {
  }

  /** Every id names a site whose id it is. */
  lemma SiteNameRoundTrip(siteId: string)
    ensures SiteNameOf(siteId).Some? ==>
      IsKnownSite(SiteNameOf(siteId).value) && SiteId(SiteNameOf(siteId).value) == siteId
  {
  }

  // ---------------------------------------------------------------------------------------------
  // Export records

  /** One exported record; `updateTime` is the watch time as the formatter writes it. */
  datatype ExportItem = ExportItem(siteId: string, id: string, roomId: string, userName: string,
                                   face: string, updateTime: string)

  function Record(row: Row, format: int -> string): ExportItem {
    var siteId := SiteId(row.siteName);
    ExportItem(siteId, siteId + "_" + row.roomId, row.roomId, row.userName, row.photo,
               format(WatchKey(row)))
  }

  function Records(items: seq<Row>, format: int -> string): (r: seq<ExportItem>)
    ensures |r| == |items|
    ensures forall i :: 0 <= i < |items| ==> r[i] == Record(items[i], format)
  {
    seq(|items|, i requires 0 <= i < |items| => Record(items[i], format))
  }

  /** A record's id splits at its first '_' into the site id and the room id, and the site id
      names the row's site whenever that site is a known one. */
  lemma RecordIdReadsBack(row: Row, format: int -> string)
    ensures var r := Record(row, format);
      && IndexOf(r.id, '_') == Some(|r.siteId|)
      && r.id[..|r.siteId|] == r.siteId
      && r.id[|r.siteId| + 1..] == row.roomId
      && (IsKnownSite(row.siteName) <==> SiteNameOf(r.siteId) == Some(row.siteName))
  {
    var r := Record(row, format);
    SiteIdRoundTrip(row.siteName);
    assert r.id[..|r.siteId|] == r.siteId;
    IndexOfFirst(r.id, '_', |r.siteId|);
    assert r.id[|r.siteId| + 1..] == row.roomId;
  }

  // ---------------------------------------------------------------------------------------------
  // Import

  /** The fields an import reads from one record of the file. */
  datatype ImportItem = ImportItem(siteName: Option<string>, roomId: Option<string>,
                                   userName: Option<string>, face: Option<string>,
                                   updateTime: Option<string>)

  /** The entry handed to `AddHistory`: the record's time is parsed but the table stores the
      current time. */
  function EntryOf(item: ImportItem): Entry {
    Entry(item.roomId, item.siteName, item.userName, item.face)
  }

  /** The history rows and id counter after adding the records one by one; `clock(k)` is the
      current time read by the upsert of record k. */
  function ImportAll(rows: seq<Row>, next: int, items: seq<ImportItem>, clock: nat -> int):
    (seq<Row>, int)
    decreases |items|
  {
    if |items| == 0 then (rows, next)
    else
      var (r, n) := ImportAll(rows, next, items[..|items| - 1], clock);
      Upsert(r, n, EntryOf(items[|items| - 1]), clock(|items| - 1))
  }

  /** Import never duplicates a room: unique keys stay unique. */
  lemma {:induction false} ImportUnique(rows: seq<Row>, next: int, items: seq<ImportItem>,
                                        clock: nat -> int)
    requires UniqueKeys(rows)
    ensures UniqueKeys(ImportAll(rows, next, items, clock).0)
    decreases |items|
  {
    if |items| > 0 {
      ImportUnique(rows, next, items[..|items| - 1], clock);
      var (r, n) := ImportAll(rows, next, items[..|items| - 1], clock);
      UpsertUnique(r, n, EntryOf(items[|items| - 1]), clock(|items| - 1));
    }
  }

  /** After an import every record with a room and a site is in the history. */
  lemma {:induction false} ImportFindsAll(rows: seq<Row>, next: int, items: seq<ImportItem>,
                                          clock: nat -> int)
    ensures forall k :: 0 <= k < |items| && !IsNullOrEmpty(items[k].roomId) &&
                        !IsNullOrEmpty(items[k].siteName) ==>
      FirstMatch(ImportAll(rows, next, items, clock).0, items[k].roomId.value,
                 items[k].siteName.value).Some?
    decreases |items|
  {
    if |items| > 0 {
      var front := items[..|items| - 1];
      var last := items[|items| - 1];
      var now := clock(|items| - 1);
      ImportFindsAll(rows, next, front, clock);
      var (r, n) := ImportAll(rows, next, front, clock);
      UpsertFinds(r, n, EntryOf(last), now);
      forall k | 0 <= k < |items| - 1 && !IsNullOrEmpty(items[k].roomId) &&
                 !IsNullOrEmpty(items[k].siteName)
        ensures FirstMatch(Upsert(r, n, EntryOf(last), now).0, items[k].roomId.value,
                           items[k].siteName.value).Some?
      {
        assert front[k] == items[k];
        UpsertKeepsFound(r, n, EntryOf(last), now, items[k].roomId.value,
                         items[k].siteName.value);
      }
    }
  }

  /** Whether no record after k names the same room and site as record k. */
  predicate LastOfKey(items: seq<ImportItem>, k: int)
    requires 0 <= k < |items|
  {
    forall j :: k < j < |items| ==>
      items[j].roomId != items[k].roomId || items[j].siteName != items[k].siteName
  }

  /** The times in the file are not stored: each upsert stamps its row with the time it reads
      itself, so the rows of a room and site hold the time read for the last record naming
      them. */
  lemma {:induction false} ImportStampsNow(rows: seq<Row>, next: int, items: seq<ImportItem>,
                                           clock: nat -> int, k: nat)
    requires k < |items| && !IsNullOrEmpty(items[k].roomId) && !IsNullOrEmpty(items[k].siteName)
    requires LastOfKey(items, k)
    ensures forall x :: (x in ImportAll(rows, next, items, clock).0 &&
                         Matches(x, items[k].roomId.value, items[k].siteName.value)) ==>
      x.watchTime == Some(clock(k))
    decreases |items|
  {
    var front := items[..|items| - 1];
    var last := items[|items| - 1];
    var (r, n) := ImportAll(rows, next, front, clock);
    var room, site := items[k].roomId.value, items[k].siteName.value;
    if k == |items| - 1 {
      UpsertStampsKey(r, n, EntryOf(last), clock(k));
    } else {
      assert front[k] == items[k];
      assert LastOfKey(front, k) by {
        forall j | k < j < |front|
          ensures front[j].roomId != front[k].roomId || front[j].siteName != front[k].siteName
        {
          assert front[j] == items[j];
        }
      }
      ImportStampsNow(rows, next, front, clock, k);
      UpsertKeepsOthers(r, n, EntryOf(last), clock(|items| - 1), room, site);
    }
  }

  // ---------------------------------------------------------------------------------------------
  // The list on screen

  /** `Collection.Remove`: the first entry equal to the item goes, the rest keep their order. */
  function RemoveFirst(items: seq<Row>, item: Row): (r: seq<Row>)
    decreases |items|
  {
    if |items| == 0 then []
    else if items[0] == item then items[1..]
    else [items[0]] + RemoveFirst(items[1..], item)
  }

  /** Removing takes out exactly one copy of a listed item and leaves any other list alone. */
  lemma {:induction false} RemoveFirstSpec(items: seq<Row>, item: Row)
    ensures item in items ==> multiset(RemoveFirst(items, item)) == multiset(items) - multiset{item}
    ensures item !in items ==> RemoveFirst(items, item) == items
    decreases |items|
  {
    if |items| > 0 {
      RemoveFirstSpec(items[1..], item);
      assert items == [items[0]] + items[1..];
      if items[0] != item && item in items {
        assert item in items[1..];
      }
    }
  }

  class HistoryViewModel {
    /** The database the page reads and writes. */
    const db: Store
    var items: seq<Row>
    var isEmpty: bool
    var loading: bool

    predicate Valid()
      reads this, db
    {
      db.Valid()
    }

    constructor(db: Store)
      requires db.Valid()
      ensures this.db == db && items == [] && !isEmpty && !loading
      ensures Valid()
    {
      this.db := db;
      items := [];
      isEmpty := false;
      loading := false;
    }

    /** Appends the stored history, latest first, to whatever the list already shows. */
    method LoadData()
      requires Valid()
      modifies this
      ensures Valid()
      ensures items == old(items) + db.GetHistory()
      ensures isEmpty <==> items == []
      ensures !loading
    {
      loading := true;
      var rows := db.GetHistory();
      var shown := items;
      var i := 0;
      while i < |rows|
        invariant 0 <= i <= |rows|
        invariant shown == old(items) + rows[..i]
      {
        assert rows[..i + 1] == rows[..i] + [rows[i]];
        shown := shown + [rows[i]];
        i := i + 1;
      }
      assert rows[..i] == rows;
      items := shown;
      isEmpty := |items| == 0;
      loading := false;
    }

    /** Clears the list, then loads: the list shows exactly the stored history. */
    method Refresh()
      requires Valid()
      modifies this
      ensures Valid()
      ensures items == db.GetHistory()
      ensures isEmpty <==> items == []
      ensures !loading
    {
      items := [];
      LoadData();
    }

    /** Deletes the item's row from the table and the item from the list. */
    method RemoveItem(item: Row)
      requires Valid()
      modifies this, db
      ensures Valid()
      ensures db.history == WithoutId(old(db.history), item.id)
      ensures db.favorites == old(db.favorites)
      ensures items == RemoveFirst(old(items), item)
      ensures isEmpty <==> items == []
      ensures loading == old(loading)
    {
      db.DeleteHistory(item.id);
      items := RemoveFirst(items, item);
      isEmpty := |items| == 0;
    }

    /** Empties table and list once the user confirms; otherwise nothing happens. */
    method Clean(confirmed: bool)
      requires Valid()
      modifies this, db
      ensures Valid()
      ensures !confirmed ==> items == old(items) && isEmpty == old(isEmpty) &&
                             db.history == old(db.history)
      ensures confirmed ==> items == [] && isEmpty && db.history == []
      ensures db.favorites == old(db.favorites) && loading == old(loading)
    {
      if !confirmed {
        return;
      }
      db.DeleteAllHistory();
      items := [];
      isEmpty := true;
    }

    /** The records written to the chosen file: one per listed item, in list order. Nothing is
        written when no file is chosen. */
    method Output(fileChosen: bool, format: int -> string) returns (written: Option<seq<ExportItem>>)
      ensures written.None? <==> !fileChosen
      ensures fileChosen ==> written.value == Records(items, format)
    {
      if !fileChosen {
        return None;
      }
      var records: seq<ExportItem> := [];
      var i := 0;
      while i < |items|
        invariant 0 <= i <= |items|
        invariant records == Records(items[..i], format)
      {
        records := records + [Record(items[i], format)];
        i := i + 1;
      }
      assert items[..i] == items;
      return Some(records);
    }

    /** Adds every record of the chosen file through the history upsert, each at the current
        time it reads (`clock(k)` for record k), then refreshes the list. Nothing happens when no
        file is chosen. */
    method Input(file: Option<seq<ImportItem>>, clock: nat -> int)
      requires Valid()
      modifies this, db
      ensures Valid()
      ensures file.None? ==> items == old(items) && db.history == old(db.history)
      ensures file.Some? ==>
        (db.history, db.nextHistoryId) ==
          ImportAll(old(db.history), old(db.nextHistoryId), file.value, clock) &&
        items == db.GetHistory()
      ensures db.favorites == old(db.favorites)
    {
      if file.None? {
        return;
      }
      var records := file.value;
      var i := 0;
      while i < |records|
        invariant 0 <= i <= |records|
        invariant Valid()
        invariant (db.history, db.nextHistoryId) ==
          ImportAll(old(db.history), old(db.nextHistoryId), records[..i], clock)
        invariant db.favorites == old(db.favorites)
      {
        assert records[..i + 1][..i] == records[..i];
        db.AddHistory(EntryOf(records[i]), clock(i));
        i := i + 1;
      }
      assert records[..i] == records;
      Refresh();
    }
  }
}
