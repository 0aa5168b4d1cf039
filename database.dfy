/** The favourite and history tables of the local database, as two sequences of rows in
    insertion order with ids drawn from increasing counters (SQLite's AUTOINCREMENT). The SQL
    statements become operations on those sequences. */
module Database {
  import opened Wrappers
  import opened Text
  import opened Sorting

  const BilibiliSite: string := "哔哩哔哩直播"
  const DouyuSite: string := "斗鱼直播"
  const HuyaSite: string := "虎牙直播"
  const DouyinSite: string := "抖音直播"

  /** The four site names the cleanup keeps. */
  predicate IsKnownSite(name: string) {
    name == BilibiliSite || name == DouyuSite || name == HuyaSite || name == DouyinSite
  }

  /** One row; `watchTime` is the history table's extra column and None in the favourite table. */
  datatype Row = Row(id: int, userName: string, siteName: string, photo: string, roomId: string,
                     watchTime: Option<int>)

  /** The fields of an item handed to `AddFavorite` or `AddHistory`; any of them may be null. */
  datatype Entry = Entry(roomId: Option<string>, siteName: Option<string>,
                         userName: Option<string>, photo: Option<string>)

  predicate Matches(r: Row, roomId: string, siteName: string) {
    r.roomId == roomId && r.siteName == siteName
  }

  /** The id of the first row with that room and site, as `ExecuteScalar` reads it. */
  function FirstMatch(rows: seq<Row>, roomId: string, siteName: string): (r: Option<int>)
    ensures r.None? <==> forall i :: 0 <= i < |rows| ==> !Matches(rows[i], roomId, siteName)
    ensures r.Some? ==> exists i :: (0 <= i < |rows| && rows[i].id == r.value &&
                                     Matches(rows[i], roomId, siteName))
    decreases |rows|
  {
    if |rows| == 0 then None
    else if Matches(rows[0], roomId, siteName) then Some(rows[0].id)
    else
      var r := FirstMatch(rows[1..], roomId, siteName);
      assert forall i :: 1 <= i < |rows| ==> rows[i] == rows[1..][i - 1];
      assert r.Some? ==> exists i :: (0 <= i < |rows[1..]| && rows[1..][i].id == r.value &&
                                      Matches(rows[1..][i], roomId, siteName));
      r
  }

  /** `CheckFavorite` and `CheckHistory`: null for a null or empty key, otherwise the id of a
      matching row if there is one. */
  function Check(rows: seq<Row>, roomId: Option<string>, siteName: Option<string>): Option<int> {
    if IsNullOrEmpty(roomId) || IsNullOrEmpty(siteName) then None
    else FirstMatch(rows, roomId.value, siteName.value)
  }

  /** The row an add inserts: null user name and photo are stored as "". */
  function NewRow(id: int, e: Entry, watchTime: Option<int>): Row
    requires e.roomId.Some? && e.siteName.Some?
  {
    Row(id, e.userName.GetOr(""), e.siteName.value, e.photo.GetOr(""), e.roomId.value, watchTime)
  }

  /** `DELETE ... WHERE id=@id`. */
  function WithoutId(rows: seq<Row>, id: int): (r: seq<Row>)
    ensures forall x :: x in r <==> x in rows && x.id != id
    decreases |rows|
  {
    if |rows| == 0 then []
    else
      assert rows == [rows[0]] + rows[1..];
      (if rows[0].id == id then [] else [rows[0]]) + WithoutId(rows[1..], id)
  }

  /** `UPDATE History SET watch_time=@time WHERE room_id=@room_id and site_name=@site_name`. */
  function Touched(rows: seq<Row>, roomId: string, siteName: string, now: int): (r: seq<Row>)
    ensures |r| == |rows|
    ensures forall i :: 0 <= i < |rows| ==>
      r[i] == if Matches(rows[i], roomId, siteName) then rows[i].(watchTime := Some(now)) else rows[i]
  {
    seq(|rows|, i requires 0 <= i < |rows| =>
      if Matches(rows[i], roomId, siteName) then rows[i].(watchTime := Some(now)) else rows[i])
  }

  /** `AddHistory` on the history rows and the id counter: an empty key changes nothing, a room
      already saved for that site gets the new watch time, any other room one new row. */
  function Upsert(rows: seq<Row>, next: int, e: Entry, now: int): (seq<Row>, int) {
    if IsNullOrEmpty(e.roomId) || IsNullOrEmpty(e.siteName) then (rows, next)
    else if FirstMatch(rows, e.roomId.value, e.siteName.value).Some? then
      (Touched(rows, e.roomId.value, e.siteName.value, now), next)
    else (rows + [NewRow(next, e, Some(now))], next + 1)
  }

  /** `DELETE ... WHERE site_name NOT IN (...)`. */
  function KnownOnly(rows: seq<Row>): (r: seq<Row>)
    ensures forall x :: x in r <==> x in rows && IsKnownSite(x.siteName)
    decreases |rows|
  {
    if |rows| == 0 then []
    else
      assert rows == [rows[0]] + rows[1..];
      (if IsKnownSite(rows[0].siteName) then [rows[0]] else []) + KnownOnly(rows[1..])
  }

  /** Ids in a table increase in insertion order and stay below the counter. */
  predicate IdsBelow(rows: seq<Row>, next: int) {
    (forall i, j :: 0 <= i < j < |rows| ==> rows[i].id < rows[j].id) &&
    (forall i :: 0 <= i < |rows| ==> rows[i].id < next)
  }

  /** No two rows share a room and site. */
  predicate UniqueKeys(rows: seq<Row>) {
    forall i, j :: 0 <= i < j < |rows| ==>
      !Matches(rows[j], rows[i].roomId, rows[i].siteName)
  }

  /** The history read order: latest watch time first. */
  function WatchKey(r: Row): int {
    r.watchTime.GetOr(0)
  }

  // ---------------------------------------------------------------------------------------------
  // Repairing garbled site names

  /** One `UPDATE ... SET site_name = target WHERE site_name LIKE '%a%' OR site_name LIKE '%b%'`. */
  datatype FixRule = FixRule(target: string, markA: string, markB: string)

  const HuyaRule: FixRule := FixRule(HuyaSite, "»¢", "ÑÀ")
  const DouyuRule: FixRule := FixRule(DouyuSite, "¶·", "Óã")
  const BilibiliRule: FixRule := FixRule(BilibiliSite, "±", "¹")
  const DouyinRule: FixRule := FixRule(DouyinSite, "¶¶", "Òô")

  /** The names as they read back after being stored in the wrong encoding. */
  const GarbledHuya: string := "»¢ÑÀÖ±²¥"
  const GarbledDouyu: string := "¶·ÓãÖ±²¥"
  const GarbledBilibili: string := "±¹À¹±¹Ö±²¥"
  const GarbledDouyin: string := "¶¶ÒôÖ±²¥"

  /** `site_name LIKE '%mark%'`: the mark occurs somewhere in the name. */
  predicate HasMark(name: string, mark: string) {
    exists i :: 0 <= i <= |name| && StartsWith(name[i..], mark)
  }

  function ApplyRule(name: string, rule: FixRule): string {
    if HasMark(name, rule.markA) || HasMark(name, rule.markB) then rule.target else name
  }

  /** A site name after the rules, applied in order. */
  function FixName(name: string, rules: seq<FixRule>): string
    decreases |rules|
  {
    if |rules| == 0 then name else FixName(ApplyRule(name, rules[0]), rules[1..])
  }

  /** The order the repair uses as written: huya, douyu, bilibili, douyin. */
  const RulesAsWritten: seq<FixRule> := [HuyaRule, DouyuRule, BilibiliRule, DouyinRule]

  /** The order that repairs every garbled name: the douyin rule before the bilibili rule, whose
      mark '±' every garbled name holds. */
  const FixRules: seq<FixRule> := [HuyaRule, DouyuRule, DouyinRule, BilibiliRule]

  function FixRows(rows: seq<Row>, rules: seq<FixRule>): (r: seq<Row>)
    ensures |r| == |rows|
    ensures forall i :: 0 <= i < |rows| ==>
      r[i] == rows[i].(siteName := FixName(rows[i].siteName, rules))
  {
    seq(|rows|, i requires 0 <= i < |rows| =>
      rows[i].(siteName := FixName(rows[i].siteName, rules)))
  }

  /** Every character of a found mark occurs in the name. */
  lemma MarkHas(s: string, mark: string, k: nat)
    requires k < |mark| && HasMark(s, mark)
    ensures mark[k] in s
  {
    var i :| 0 <= i <= |s| && StartsWith(s[i..], mark);
    assert s[i + k] == s[i..][k];
  }

  /** A rule leaves a name alone when each of its marks has a character the name lacks. */
  lemma RuleSkips(name: string, rule: FixRule, a: nat, b: nat)
    requires a < |rule.markA| && rule.markA[a] !in name
    requires b < |rule.markB| && rule.markB[b] !in name
    ensures ApplyRule(name, rule) == name
  {
    if HasMark(name, rule.markA) {
      MarkHas(name, rule.markA, a);
    }
    if HasMark(name, rule.markB) {
      MarkHas(name, rule.markB, b);
    }
  }

  /** A rule rewrites a name that holds its first mark. */
  lemma RuleHits(name: string, rule: FixRule, i: nat)
    requires i + |rule.markA| <= |name| && name[i..i + |rule.markA|] == rule.markA
    ensures ApplyRule(name, rule) == rule.target
  {
    assert StartsWith(name[i..], rule.markA);
  }

  /** Four rules in a row. */
  lemma FourRules(name: string, r1: FixRule, r2: FixRule, r3: FixRule, r4: FixRule)
    ensures FixName(name, [r1, r2, r3, r4]) ==
      ApplyRule(ApplyRule(ApplyRule(ApplyRule(name, r1), r2), r3), r4)
  {
    var rules := [r1, r2, r3, r4];
    var n1 := ApplyRule(name, r1);
    var n2 := ApplyRule(n1, r2);
    var n3 := ApplyRule(n2, r3);
    var n4 := ApplyRule(n3, r4);
    assert rules[1..] == [r2, r3, r4];
    assert [r2, r3, r4][1..] == [r3, r4];
    assert [r3, r4][1..] == [r4];
    assert [r4][1..] == [];
    assert FixName(n4, []) == n4;
    assert FixName(n3, [r4]) == n4;
    assert FixName(n2, [r3, r4]) == n4;
    assert FixName(n1, [r2, r3, r4]) == n4;
  }

  /** Four rules in a row, each step known. */
  lemma FourSteps(name: string, r1: FixRule, r2: FixRule, r3: FixRule, r4: FixRule,
                  n1: string, n2: string, n3: string, n4: string)
    requires ApplyRule(name, r1) == n1 && ApplyRule(n1, r2) == n2
    requires ApplyRule(n2, r3) == n3 && ApplyRule(n3, r4) == n4
    ensures FixName(name, [r1, r2, r3, r4]) == n4
  {
    FourRules(name, r1, r2, r3, r4);
  }

  /** A correct name holds none of the marks' first characters, so every rule passes it by. */
  lemma AllRulesSkip(name: string)
    requires '»' !in name && 'Ñ' !in name && '¶' !in name && 'Ó' !in name
    requires '±' !in name && '¹' !in name && 'Ò' !in name
    ensures ApplyRule(name, HuyaRule) == name && ApplyRule(name, DouyuRule) == name
    ensures ApplyRule(name, BilibiliRule) == name && ApplyRule(name, DouyinRule) == name
  {
    RuleSkips(name, HuyaRule, 0, 0);
    RuleSkips(name, DouyuRule, 0, 0);
    RuleSkips(name, BilibiliRule, 0, 0);
    RuleSkips(name, DouyinRule, 0, 0);
  }

  /** No rule touches a correct name, in either order. */
  lemma KnownNamesKept(name: string)
    requires IsKnownSite(name)
    ensures FixName(name, FixRules) == name
    ensures FixName(name, RulesAsWritten) == name
  {
    AllRulesSkip(name);
    FourRules(name, HuyaRule, DouyuRule, DouyinRule, BilibiliRule);
    FourRules(name, HuyaRule, DouyuRule, BilibiliRule, DouyinRule);
  }

  /** The garbled douyin name passes the huya and douyu rules unchanged, in either order of the
      last two rules. */
  lemma GarbledDouyinPassesFirstTwo()
    ensures ApplyRule(GarbledDouyin, HuyaRule) == GarbledDouyin
    ensures ApplyRule(GarbledDouyin, DouyuRule) == GarbledDouyin
  {
    RuleSkips(GarbledDouyin, HuyaRule, 0, 0);
    RuleSkips(GarbledDouyin, DouyuRule, 1, 0);
  }

  /** As written, the bilibili rule runs first on the garbled douyin name (its "Ö±" holds '±')
      and turns it into the bilibili site; the douyin rule then finds nothing to repair. */
  lemma GarbledDouyinAsWritten()
    ensures FixName(GarbledDouyin, RulesAsWritten) == BilibiliSite
  {
    GarbledDouyinPassesFirstTwo();
    assert ApplyRule(GarbledDouyin, BilibiliRule) == BilibiliSite by {
      assert GarbledDouyin[5..6] == BilibiliRule.markA;
      RuleHits(GarbledDouyin, BilibiliRule, 5);
    }
    assert ApplyRule(BilibiliSite, DouyinRule) == BilibiliSite by {
      RuleSkips(BilibiliSite, DouyinRule, 0, 0);
    }
    FourSteps(GarbledDouyin, HuyaRule, DouyuRule, BilibiliRule, DouyinRule,
              GarbledDouyin, GarbledDouyin, BilibiliSite, BilibiliSite);
  }

  /** With the douyin rule ahead of the bilibili rule every garbled name gets its own site. */
  lemma GarbledNamesFixed()
    ensures FixName(GarbledHuya, FixRules) == HuyaSite
    ensures FixName(GarbledDouyu, FixRules) == DouyuSite
    ensures FixName(GarbledDouyin, FixRules) == DouyinSite
    ensures FixName(GarbledBilibili, FixRules) == BilibiliSite
  {
    GarbledHuyaFixed();
    GarbledDouyuFixed();
    GarbledDouyinFixed();
    GarbledBilibiliFixed();
  }

  lemma GarbledHuyaFixed()
    ensures FixName(GarbledHuya, FixRules) == HuyaSite
  {
    assert ApplyRule(GarbledHuya, HuyaRule) == HuyaSite by {
      assert GarbledHuya[0..2] == HuyaRule.markA;
      RuleHits(GarbledHuya, HuyaRule, 0);
    }
    assert ApplyRule(HuyaSite, DouyuRule) == HuyaSite by {
      RuleSkips(HuyaSite, DouyuRule, 0, 0);
    }
    assert ApplyRule(HuyaSite, DouyinRule) == HuyaSite by {
      RuleSkips(HuyaSite, DouyinRule, 0, 0);
    }
    assert ApplyRule(HuyaSite, BilibiliRule) == HuyaSite by {
      RuleSkips(HuyaSite, BilibiliRule, 0, 0);
    }
    FourSteps(GarbledHuya, HuyaRule, DouyuRule, DouyinRule, BilibiliRule,
              HuyaSite, HuyaSite, HuyaSite, HuyaSite);
  }

  lemma GarbledDouyuFixed()
    ensures FixName(GarbledDouyu, FixRules) == DouyuSite
  {
    assert ApplyRule(GarbledDouyu, HuyaRule) == GarbledDouyu by {
      RuleSkips(GarbledDouyu, HuyaRule, 0, 0);
    }
    assert ApplyRule(GarbledDouyu, DouyuRule) == DouyuSite by {
      assert GarbledDouyu[0..2] == DouyuRule.markA;
      RuleHits(GarbledDouyu, DouyuRule, 0);
    }
    assert ApplyRule(DouyuSite, DouyinRule) == DouyuSite by {
      RuleSkips(DouyuSite, DouyinRule, 0, 0);
    }
    assert ApplyRule(DouyuSite, BilibiliRule) == DouyuSite by {
      RuleSkips(DouyuSite, BilibiliRule, 0, 0);
    }
    FourSteps(GarbledDouyu, HuyaRule, DouyuRule, DouyinRule, BilibiliRule,
              GarbledDouyu, DouyuSite, DouyuSite, DouyuSite);
  }

  lemma GarbledDouyinFixed()
    ensures FixName(GarbledDouyin, FixRules) == DouyinSite
  {
    GarbledDouyinPassesFirstTwo();
    assert ApplyRule(GarbledDouyin, DouyinRule) == DouyinSite by {
      assert GarbledDouyin[0] == '¶' && GarbledDouyin[1] == '¶';
      assert GarbledDouyin[0..2] == DouyinRule.markA;
      RuleHits(GarbledDouyin, DouyinRule, 0);
    }
    assert ApplyRule(DouyinSite, BilibiliRule) == DouyinSite by {
      RuleSkips(DouyinSite, BilibiliRule, 0, 0);
    }
    FourSteps(GarbledDouyin, HuyaRule, DouyuRule, DouyinRule, BilibiliRule,
              GarbledDouyin, GarbledDouyin, DouyinSite, DouyinSite);
  }

  lemma GarbledBilibiliFixed()
    ensures FixName(GarbledBilibili, FixRules) == BilibiliSite
  {
    assert ApplyRule(GarbledBilibili, HuyaRule) == GarbledBilibili by {
      RuleSkips(GarbledBilibili, HuyaRule, 0, 0);
    }
    assert ApplyRule(GarbledBilibili, DouyuRule) == GarbledBilibili by {
      RuleSkips(GarbledBilibili, DouyuRule, 0, 0);
    }
    assert ApplyRule(GarbledBilibili, DouyinRule) == GarbledBilibili by {
      RuleSkips(GarbledBilibili, DouyinRule, 0, 0);
    }
    assert ApplyRule(GarbledBilibili, BilibiliRule) == BilibiliSite by {
      assert GarbledBilibili[0..1] == BilibiliRule.markA;
      RuleHits(GarbledBilibili, BilibiliRule, 0);
    }
    FourSteps(GarbledBilibili, HuyaRule, DouyuRule, DouyinRule, BilibiliRule,
              GarbledBilibili, GarbledBilibili, GarbledBilibili, BilibiliSite);
  }

  // ---------------------------------------------------------------------------------------------
  // The two tables

  class Store {
    var favorites: seq<Row>
    var history: seq<Row>
    var nextFavoriteId: int
    var nextHistoryId: int

    predicate Valid()
      reads this
    {
      IdsBelow(favorites, nextFavoriteId) && IdsBelow(history, nextHistoryId)
    }

    /** Empty tables; ids start at 1. */
    constructor()
      ensures Valid()
      ensures favorites == [] && history == [] && nextFavoriteId == 1 && nextHistoryId == 1
    {
      favorites := [];
      history := [];
      nextFavoriteId := 1;
      nextHistoryId := 1;
    }

    function CheckFavorite(roomId: Option<string>, siteName: Option<string>): Option<int>
      reads this
    {
      Check(favorites, roomId, siteName)
    }

    function CheckHistory(roomId: Option<string>, siteName: Option<string>): Option<int>
      reads this
    {
      Check(history, roomId, siteName)
    }

    /** Insert-if-absent: nothing for an empty key or a room already saved for that site. */
    method AddFavorite(e: Entry)
      requires Valid()
      modifies this
      ensures Valid()
      ensures IsNullOrEmpty(e.roomId) || IsNullOrEmpty(e.siteName) ||
              old(CheckFavorite(e.roomId, e.siteName)).Some? ==>
        favorites == old(favorites) && nextFavoriteId == old(nextFavoriteId)
      ensures !IsNullOrEmpty(e.roomId) && !IsNullOrEmpty(e.siteName) &&
              old(CheckFavorite(e.roomId, e.siteName)).None? ==>
        favorites == old(favorites) + [NewRow(old(nextFavoriteId), e, None)] &&
        nextFavoriteId == old(nextFavoriteId) + 1
      ensures !IsNullOrEmpty(e.roomId) && !IsNullOrEmpty(e.siteName) ==>
        CheckFavorite(e.roomId, e.siteName).Some?
      ensures UniqueKeys(old(favorites)) ==> UniqueKeys(favorites)
      ensures history == old(history) && nextHistoryId == old(nextHistoryId)
    {
      if IsNullOrEmpty(e.roomId) || IsNullOrEmpty(e.siteName) {
        return;
      }
      if CheckFavorite(e.roomId, e.siteName).Some? {
        return;
      }
      var row := NewRow(nextFavoriteId, e, None);
      AppendKeepsOrder(favorites, nextFavoriteId, row);
      AppendUnique(favorites, row);
      assert Matches(row, e.roomId.value, e.siteName.value);
      assert (favorites + [row])[|favorites|] == row;
      favorites := favorites + [row];
      nextFavoriteId := nextFavoriteId + 1;
    }

    method DeleteFavorite(id: int)
      requires Valid()
      modifies this
      ensures Valid()
      ensures favorites == WithoutId(old(favorites), id)
      ensures nextFavoriteId == old(nextFavoriteId)
      ensures history == old(history) && nextHistoryId == old(nextHistoryId)
    {
      WithoutIdKeepsOrder(favorites, id, nextFavoriteId);
      favorites := WithoutId(favorites, id);
    }

    method DeleteAllFavorites()
      requires Valid()
      modifies this
      ensures Valid()
      ensures favorites == [] && nextFavoriteId == old(nextFavoriteId)
      ensures history == old(history) && nextHistoryId == old(nextHistoryId)
    {
      favorites := [];
    }

    /** `GetFavorites`: the reader loop hands back every row in table order. */
    method GetFavorites() returns (items: seq<Row>)
      ensures items == favorites
    {
      items := [];
      var i := 0;
      while i < |favorites|
        invariant 0 <= i <= |favorites|
        invariant items == favorites[..i]
      {
        items := items + [favorites[i]];
        i := i + 1;
      }
      assert favorites[..i] == favorites;
    }

    /** Upsert: a room already in the history gets the new watch time and no row is added;
        otherwise one row is inserted with that time. */
    method AddHistory(e: Entry, now: int)
      requires Valid()
      modifies this
      ensures Valid()
      ensures (history, nextHistoryId) == Upsert(old(history), old(nextHistoryId), e, now)
      ensures UniqueKeys(old(history)) ==> UniqueKeys(history)
      ensures favorites == old(favorites) && nextFavoriteId == old(nextFavoriteId)
    {
      if IsNullOrEmpty(e.roomId) || IsNullOrEmpty(e.siteName) {
        return;
      }
      if CheckHistory(e.roomId, e.siteName).Some? {
        TouchedKeepsShape(history, e.roomId.value, e.siteName.value, now, nextHistoryId);
        history := Touched(history, e.roomId.value, e.siteName.value, now);
        return;
      }
      var row := NewRow(nextHistoryId, e, Some(now));
      AppendKeepsOrder(history, nextHistoryId, row);
      AppendUnique(history, row);
      history := history + [row];
      nextHistoryId := nextHistoryId + 1;
    }

    method DeleteHistory(id: int)
      requires Valid()
      modifies this
      ensures Valid()
      ensures history == WithoutId(old(history), id)
      ensures nextHistoryId == old(nextHistoryId)
      ensures favorites == old(favorites) && nextFavoriteId == old(nextFavoriteId)
    {
      WithoutIdKeepsOrder(history, id, nextHistoryId);
      history := WithoutId(history, id);
    }

    method DeleteAllHistory()
      requires Valid()
      modifies this
      ensures Valid()
      ensures history == [] && nextHistoryId == old(nextHistoryId)
      ensures favorites == old(favorites) && nextFavoriteId == old(nextFavoriteId)
    {
      history := [];
    }

    /** `GetHistory`: every row, latest watch time first (rows with equal times keep table
        order). */
    function GetHistory(): (r: seq<Row>)
      reads this
      ensures SortedDesc(r, WatchKey)
      ensures multiset(r) == multiset(history)
    {
      SortDescSorted(history, WatchKey);
      SortDesc(history, WatchKey)
    }

    /** Deletes, in both tables, exactly the rows whose site is none of the four known names. */
    method DetectAndCleanCorruptedData()
      requires Valid()
      modifies this
      ensures Valid()
      ensures favorites == KnownOnly(old(favorites)) && history == KnownOnly(old(history))
      ensures nextFavoriteId == old(nextFavoriteId) && nextHistoryId == old(nextHistoryId)
    {
      var corrupted := exists i :: 0 <= i < |favorites| && !IsKnownSite(favorites[i].siteName);
      corrupted := corrupted ||
        exists i :: 0 <= i < |history| && !IsKnownSite(history[i].siteName);
      if corrupted {
        KnownOnlyKeepsOrder(favorites, nextFavoriteId);
        KnownOnlyKeepsOrder(history, nextHistoryId);
        favorites := KnownOnly(favorites);
        history := KnownOnly(history);
      } else {
        KnownOnlyAllKnown(favorites);
        KnownOnlyAllKnown(history);
      }
    }

    /** Rewrites every site name in both tables by the repair rules, in order. */
    method FixCorruptedData()
      requires Valid()
      modifies this
      ensures Valid()
      ensures favorites == FixRows(old(favorites), FixRules)
      ensures history == FixRows(old(history), FixRules)
      ensures nextFavoriteId == old(nextFavoriteId) && nextHistoryId == old(nextHistoryId)
    {
      favorites := FixRows(favorites, FixRules);
      history := FixRows(history, FixRules);
    }
  }

  // ---------------------------------------------------------------------------------------------
  // Table lemmas

  lemma AppendKeepsOrder(rows: seq<Row>, next: int, row: Row)
    requires IdsBelow(rows, next) && row.id == next
    ensures IdsBelow(rows + [row], next + 1)
  {
  }

  /** Adding a row whose key is absent keeps keys unique. */
  lemma AppendUnique(rows: seq<Row>, row: Row)
    requires FirstMatch(rows, row.roomId, row.siteName).None?
    ensures UniqueKeys(rows) ==> UniqueKeys(rows + [row])
  {
    var r := rows + [row];
    if UniqueKeys(rows) {
      forall i, j | 0 <= i < j < |r|
        ensures !Matches(r[j], r[i].roomId, r[i].siteName)
      {
        if j == |rows| {
          assert !Matches(rows[i], row.roomId, row.siteName);
        }
      }
    }
  }

  lemma {:induction false} WithoutIdKeepsOrder(rows: seq<Row>, id: int, next: int)
    requires IdsBelow(rows, next)
    ensures IdsBelow(WithoutId(rows, id), next)
    decreases |rows|
  {
    if |rows| > 0 {
      WithoutIdKeepsOrder(rows[1..], id, next);
      var rest := WithoutId(rows[1..], id);
      forall x | x in rest
        ensures rows[0].id < x.id
      {
        var k :| 0 <= k < |rows[1..]| && rows[1..][k] == x;
        assert rows[k + 1] == x;
      }
    }
  }

  lemma {:induction false} KnownOnlyKeepsOrder(rows: seq<Row>, next: int)
    requires IdsBelow(rows, next)
    ensures IdsBelow(KnownOnly(rows), next)
    decreases |rows|
  {
    if |rows| > 0 {
      assert IdsBelow(rows[1..], next);
      KnownOnlyKeepsOrder(rows[1..], next);
      var rest := KnownOnly(rows[1..]);
      if IsKnownSite(rows[0].siteName) {
        forall x | x in rest
          ensures rows[0].id < x.id
        {
          var k :| 0 <= k < |rows[1..]| && rows[1..][k] == x;
          assert rows[k + 1] == x;
        }
        ConsKeepsOrder(rows[0], rest, next);
        assert KnownOnly(rows) == [rows[0]] + rest;
      } else {
        assert KnownOnly(rows) == rest;
      }
    }
  }

  lemma ConsKeepsOrder(x: Row, rest: seq<Row>, next: int)
    requires IdsBelow(rest, next) && x.id < next
    requires forall y :: y in rest ==> x.id < y.id
    ensures IdsBelow([x] + rest, next)
  {
    var r := [x] + rest;
    forall i, j | 0 <= i < j < |r|
      ensures r[i].id < r[j].id
    {
      assert r[j] == rest[j - 1];
      if i > 0 {
        assert r[i] == rest[i - 1];
      }
    }
  }

  /** When every name is known the cleanup deletes nothing. */
  lemma {:induction false} KnownOnlyAllKnown(rows: seq<Row>)
    requires forall i :: 0 <= i < |rows| ==> IsKnownSite(rows[i].siteName)
    ensures KnownOnly(rows) == rows
    decreases |rows|
  {
    if |rows| > 0 {
      KnownOnlyAllKnown(rows[1..]);
    }
  }

  lemma TouchedKeepsShape(rows: seq<Row>, roomId: string, siteName: string, now: int, next: int)
    requires IdsBelow(rows, next)
    ensures IdsBelow(Touched(rows, roomId, siteName, now), next)
    ensures UniqueKeys(rows) ==> UniqueKeys(Touched(rows, roomId, siteName, now))
  {
  }

  /** Deleting an id leaves no row with it and keeps every other row. */
  lemma DeleteRemovesOnlyThatId(rows: seq<Row>, id: int)
    ensures forall x :: x in WithoutId(rows, id) ==> x.id != id
    ensures forall i :: 0 <= i < |rows| && rows[i].id != id ==> rows[i] in WithoutId(rows, id)
  {
  }

  /** After the upsert the room appears exactly once when keys were unique. */
  lemma {:induction false} TouchedFindsSameRow(rows: seq<Row>, roomId: string, siteName: string,
                                              now: int)
    ensures FirstMatch(Touched(rows, roomId, siteName, now), roomId, siteName) ==
      FirstMatch(rows, roomId, siteName)
    decreases |rows|
  {
    if |rows| > 0 {
      var t := Touched(rows, roomId, siteName, now);
      assert t[1..] == Touched(rows[1..], roomId, siteName, now);
      TouchedFindsSameRow(rows[1..], roomId, siteName, now);
    }
  }

  /** An empty key changes nothing; any other key is found after the upsert. */
  lemma UpsertFinds(rows: seq<Row>, next: int, e: Entry, now: int)
    ensures IsNullOrEmpty(e.roomId) || IsNullOrEmpty(e.siteName) ==>
      Upsert(rows, next, e, now) == (rows, next)
    ensures !IsNullOrEmpty(e.roomId) && !IsNullOrEmpty(e.siteName) ==>
      FirstMatch(Upsert(rows, next, e, now).0, e.roomId.value, e.siteName.value).Some?
  {
    if !IsNullOrEmpty(e.roomId) && !IsNullOrEmpty(e.siteName) {
      var room, site := e.roomId.value, e.siteName.value;
      if FirstMatch(rows, room, site).Some? {
        TouchedFindsSameRow(rows, room, site, now);
      } else {
        var row := NewRow(next, e, Some(now));
        assert Matches((rows + [row])[|rows|], room, site);
      }
    }
  }

  /** A saved room adds no row and takes no id; a new room adds one row at the end. */
  lemma UpsertGrowth(rows: seq<Row>, next: int, e: Entry, now: int)
    requires !IsNullOrEmpty(e.roomId) && !IsNullOrEmpty(e.siteName)
    ensures FirstMatch(rows, e.roomId.value, e.siteName.value).Some? ==>
      |Upsert(rows, next, e, now).0| == |rows| && Upsert(rows, next, e, now).1 == next
    ensures FirstMatch(rows, e.roomId.value, e.siteName.value).None? ==>
      var (r, n) := Upsert(rows, next, e, now);
      |r| == |rows| + 1 && r[..|rows|] == rows && n == next + 1
  {
    if FirstMatch(rows, e.roomId.value, e.siteName.value).None? {
      var row := NewRow(next, e, Some(now));
      assert (rows + [row])[..|rows|] == rows;
    }
  }

  /** The upsert never creates a second row for a room and site. */
  lemma UpsertUnique(rows: seq<Row>, next: int, e: Entry, now: int)
    requires UniqueKeys(rows)
    ensures UniqueKeys(Upsert(rows, next, e, now).0)
  {
    if !IsNullOrEmpty(e.roomId) && !IsNullOrEmpty(e.siteName) {
      var room, site := e.roomId.value, e.siteName.value;
      if FirstMatch(rows, room, site).Some? {
        var t := Touched(rows, room, site, now);
        assert forall i :: 0 <= i < |t| ==> t[i].roomId == rows[i].roomId && t[i].siteName == rows[i].siteName;
      } else {
        AppendUnique(rows, NewRow(next, e, Some(now)));
      }
    }
  }

  /** Every row the upsert wrote carries the time passed in. */
  lemma UpsertStamps(rows: seq<Row>, next: int, e: Entry, now: int)
    ensures forall x :: x in Upsert(rows, next, e, now).0 ==> x in rows || x.watchTime == Some(now)
  {
    if !IsNullOrEmpty(e.roomId) && !IsNullOrEmpty(e.siteName) {
      var room, site := e.roomId.value, e.siteName.value;
      if FirstMatch(rows, room, site).Some? {
        var t := Touched(rows, room, site, now);
        forall x | x in t
          ensures x in rows || x.watchTime == Some(now)
        {
          var i :| 0 <= i < |t| && t[i] == x;
        }
      }
    }
  }

  /** A room found before an upsert is still found after it, whatever key the upsert has. */
  lemma UpsertKeepsFound(rows: seq<Row>, next: int, e: Entry, now: int, room: string,
                         site: string)
    requires FirstMatch(rows, room, site).Some?
    ensures FirstMatch(Upsert(rows, next, e, now).0, room, site).Some?
  {
    var r := Upsert(rows, next, e, now).0;
    var i :| 0 <= i < |rows| && Matches(rows[i], room, site);
    if !IsNullOrEmpty(e.roomId) && !IsNullOrEmpty(e.siteName) {
      assert Matches(r[i], room, site);
    }
  }

  /** Every row of the upserted key carries the time passed in. */
  lemma UpsertStampsKey(rows: seq<Row>, next: int, e: Entry, now: int)
    requires !IsNullOrEmpty(e.roomId) && !IsNullOrEmpty(e.siteName)
    ensures forall x :: (x in Upsert(rows, next, e, now).0 &&
                         Matches(x, e.roomId.value, e.siteName.value)) ==> x.watchTime == Some(now)
  {
    var room, site := e.roomId.value, e.siteName.value;
    var r := Upsert(rows, next, e, now).0;
    forall x | x in r && Matches(x, room, site)
      ensures x.watchTime == Some(now)
    {
      var i :| 0 <= i < |r| && r[i] == x;
    }
  }

  /** The upsert of another key leaves the rows of a room and site as they were. */
  lemma UpsertKeepsOthers(rows: seq<Row>, next: int, e: Entry, now: int, room: string,
                          site: string)
    requires e.roomId != Some(room) || e.siteName != Some(site)
    ensures forall x :: x in Upsert(rows, next, e, now).0 && Matches(x, room, site) ==> x in rows
  {
    var r := Upsert(rows, next, e, now).0;
    forall x | x in r && Matches(x, room, site)
      ensures x in rows
    {
      var i :| 0 <= i < |r| && r[i] == x;
      if i < |rows| {
        assert r[i] == rows[i];
      }
    }
  }

  /** The start-up sequence: repair, then clean. With the repair order used here a garbled
      douyin favourite survives as a douyin row; as written it survives as a bilibili row. */
  lemma StartupKeepsGarbledDouyin(row: Row)
    requires row.siteName == GarbledDouyin
    ensures KnownOnly(FixRows([row], FixRules)) == [row.(siteName := DouyinSite)]
    ensures KnownOnly(FixRows([row], RulesAsWritten)) == [row.(siteName := BilibiliSite)]
  {
    GarbledNamesFixed();
    GarbledDouyinAsWritten();
    assert FixRows([row], FixRules) == [row.(siteName := DouyinSite)];
    assert FixRows([row], RulesAsWritten) == [row.(siteName := BilibiliSite)];
    assert [row.(siteName := DouyinSite)][1..] == [];
    assert [row.(siteName := BilibiliSite)][1..] == [];
  }
}
