/** The Huya site (AllLive.Core/Huya.cs): room-list cards, paging, the line and bitrate tables
    built for a room, play qualities, play urls with their fallback, and the anonymous uuid.
    HTTP, JSON, the Tars token request and the clock and random generator become parameters. */
module Huya {
  import opened Wrappers
  import opened Text

  // ---------------------------------------------------------------------------------------------
  // Room cards and paging

  const CoverStyle: string := "?x-oss-process=style/w338_h190&"

  /** A screenshot url without a query gets the thumbnail style appended. */
  function CoverUrl(screenshot: string): (r: string)
    ensures !Contains(screenshot, "?") ==> r == screenshot + CoverStyle
    ensures Contains(screenshot, "?") ==> r == screenshot
  {
    if !Contains(screenshot, "?") then screenshot + CoverStyle else screenshot
  }

  /** Every cover carries a query afterwards, so the rule applied twice is the rule applied once. */
  lemma CoverUrlIdempotent(screenshot: string)
    ensures Contains(CoverUrl(screenshot), "?")
    ensures CoverUrl(CoverUrl(screenshot)) == CoverUrl(screenshot)
  {
    var r := CoverUrl(screenshot);
    if !Contains(screenshot, "?") {
      assert r[|screenshot|] == '?';
      ContainsChar(r, '?');
    }
  }

  /** The title: `introduction` unless null or empty, else `roomName`, else "". */
  function Title(introduction: Option<string>, roomName: Option<string>): (t: string)
    ensures !IsNullOrEmpty(introduction) ==> t == introduction.value
    ensures IsNullOrEmpty(introduction) && roomName.Some? ==> t == roomName.value
    ensures IsNullOrEmpty(introduction) && roomName.None? ==> t == ""
  {
    if !IsNullOrEmpty(introduction) then introduction.value else roomName.GetOr("")
  }

  /** The title is empty exactly when neither field has text, and is otherwise one of them. */
  lemma TitleEmpty(introduction: Option<string>, roomName: Option<string>)
    ensures Title(introduction, roomName) == "" <==>
      IsNullOrEmpty(introduction) && roomName.GetOr("") == ""
    ensures Title(introduction, roomName) == introduction.GetOr("") ||
            Title(introduction, roomName) == roomName.GetOr("")
  {
  }

  /** One entry of `data.datas` of a category or recommendation page. */
  datatype ListEntry = ListEntry(screenshot: string, introduction: Option<string>, roomName: Option<string>,
                                 totalCount: int, profileRoom: string, nick: string)
  /** One entry of `response.3.docs` of a search page. */
  datatype SearchDoc = SearchDoc(gameScreenshot: string, gameTotalCount: int, roomId: string,
                                 gameRoomName: string, gameNick: string)
  datatype RoomItem = RoomItem(cover: string, online: int, roomId: string, title: string, userName: string)
  datatype RoomPage = RoomPage(rooms: seq<RoomItem>, hasMore: bool)

  function ListCard(e: ListEntry): RoomItem {
    RoomItem(CoverUrl(e.screenshot), e.totalCount, e.profileRoom, Title(e.introduction, e.roomName), e.nick)
  }

  function SearchCard(d: SearchDoc): RoomItem {
    RoomItem(CoverUrl(d.gameScreenshot), d.gameTotalCount, d.roomId, d.gameRoomName, d.gameNick)
  }

  /** `GetCategoryRooms` / `GetRecommendRooms`: one card per entry, in order; more pages while the
      current page is before the last. */
  method ListRooms(datas: seq<ListEntry>, page: int, totalPage: int) returns (result: RoomPage)
    ensures |result.rooms| == |datas|
    ensures forall i :: 0 <= i < |datas| ==> result.rooms[i] == ListCard(datas[i])
    ensures result.hasMore <==> page < totalPage
  {
    var rooms: seq<RoomItem> := [];
    for i := 0 to |datas|
      invariant |rooms| == i
      invariant forall j :: 0 <= j < i ==> rooms[j] == ListCard(datas[j])
    {
      var e := datas[i];
      var cover := e.screenshot;
      if !Contains(cover, "?") {
        cover := cover + CoverStyle;
      }
      var title := e.introduction;
      if IsNullOrEmpty(title) {
        title := Some(e.roomName.GetOr(""));
      }
      rooms := rooms + [RoomItem(cover, e.totalCount, e.profileRoom, title.value, e.nick)];
    }
    result := RoomPage(rooms, page < totalPage);
  }

  /** The first result a search page asks for: pages hold 20 results. */
  function SearchStart(page: int): int { (page - 1) * 20 }

  /** `Search`: one card per document, in order; more pages while results lie beyond this page. */
  method SearchRooms(docs: seq<SearchDoc>, numFound: int, page: int) returns (result: RoomPage)
    ensures |result.rooms| == |docs|
    ensures forall i :: 0 <= i < |docs| ==> result.rooms[i] == SearchCard(docs[i])
    ensures result.hasMore <==> numFound > page * 20
  {
    var rooms: seq<RoomItem> := [];
    for i := 0 to |docs|
      invariant |rooms| == i
      invariant forall j :: 0 <= j < i ==> rooms[j] == SearchCard(docs[j])
    {
      var d := docs[i];
      var cover := d.gameScreenshot;
      if !Contains(cover, "?") {
        cover := cover + CoverStyle;
      }
      rooms := rooms + [RoomItem(cover, d.gameTotalCount, d.roomId, d.gameRoomName, d.gameNick)];
    }
    result := RoomPage(rooms, numFound > page * 20);
  }

  /** Page `page` covers results `SearchStart(page)` up to the next page's start; there are more
      exactly when results remain after it. */
  lemma SearchPaging(numFound: int, page: int)
    ensures SearchStart(page + 1) == SearchStart(page) + 20
    ensures (numFound > page * 20) <==> numFound > SearchStart(page + 1)
  {
  }

  // ---------------------------------------------------------------------------------------------
  // Lines and bitrates of a room

  /** An entry of `stream.baseSteamInfoList`; None stands for a missing field. */
  datatype StreamInfo = StreamInfo(cdnType: Option<string>, pcPriority: Option<int>, webPriority: Option<int>,
                                   mobilePriority: Option<int>, channelId: Option<int>, subChannelId: Option<int>,
                                   flvUrl: Option<string>, flvAntiCode: Option<string>, hlsAntiCode: Option<string>,
                                   streamName: Option<string>)
  /** An entry of `stream.flv.multiLine`. */
  datatype FlvEntry = FlvEntry(url: Option<string>, cdnType: Option<string>)

  datatype LineType = FLV | HLS
  datatype Line = Line(line: string, lineType: LineType, flvAntiCode: string, hlsAntiCode: string,
                       streamName: string, cdnType: string)

  /** A line is usable when one of its priorities is positive; a missing priority counts as -1. */
  predicate IsValidLine(s: StreamInfo) {
    s.pcPriority.GetOr(-1) > 0 || s.webPriority.GetOr(-1) > 0 || s.mobilePriority.GetOr(-1) > 0
  }

  function ValidLines(infos: seq<StreamInfo>): (r: seq<StreamInfo>)
    ensures forall i :: 0 <= i < |r| ==> IsValidLine(r[i]) && r[i] in infos
    ensures forall s :: s in infos && IsValidLine(s) ==> s in r
    decreases |infos|
  {
    if |infos| == 0 then []
    else
      var rest := ValidLines(infos[..|infos| - 1]);
      assert forall s :: s in infos[..|infos| - 1] ==> s in infos;
      assert forall s :: s in infos ==> s in infos[..|infos| - 1] || s == infos[|infos| - 1];
      rest + (if IsValidLine(infos[|infos| - 1]) then [infos[|infos| - 1]] else [])
  }

  /** The first valid line of a CDN type (null matches a missing type, as `==` on strings does). */
  function FirstOfCdn(valid: seq<StreamInfo>, cdnType: Option<string>): (r: Option<StreamInfo>)
    ensures r.Some? ==> r.value in valid && r.value.cdnType == cdnType
    ensures r.None? <==> forall s :: s in valid ==> s.cdnType != cdnType
    decreases |valid|
  {
    if |valid| == 0 then None
    else if valid[0].cdnType == cdnType then Some(valid[0])
    else
      assert forall s :: s in valid ==> s == valid[0] || s in valid[1..];
      FirstOfCdn(valid[1..], cdnType)
  }

  function LineOf(s: StreamInfo, cdnType: Option<string>): Line {
    Line(s.flvUrl.GetOr(""), FLV, s.flvAntiCode.GetOr(""), s.hlsAntiCode.GetOr(""), s.streamName.GetOr(""),
         cdnType.GetOr(""))
  }

  /** Whether an FLV entry yields a line: its url is non-empty and a valid line shares its type. */
  predicate Usable(valid: seq<StreamInfo>, e: FlvEntry) {
    !IsNullOrEmpty(e.url) && FirstOfCdn(valid, e.cdnType).Some?
  }

  /** The lines built from the FLV entries, in order. */
  function Lines(valid: seq<StreamInfo>, flv: seq<FlvEntry>): seq<Line>
    decreases |flv|
  {
    if |flv| == 0 then []
    else
      var e := flv[|flv| - 1];
      Lines(valid, flv[..|flv| - 1])
        + (if Usable(valid, e) then [LineOf(FirstOfCdn(valid, e.cdnType).value, e.cdnType)] else [])
  }

  /** Whether a line is the one some usable entry of `flv` yields. */
  predicate LineFromEntry(valid: seq<StreamInfo>, flv: seq<FlvEntry>, l: Line) {
    exists e :: e in flv && Usable(valid, e) && l == LineOf(FirstOfCdn(valid, e.cdnType).value, e.cdnType)
  }

  /** Every line comes from a usable FLV entry and the first valid line of its CDN type; every
      usable entry yields one. */
  lemma {:induction false} LinesSound(valid: seq<StreamInfo>, flv: seq<FlvEntry>)
    ensures |Lines(valid, flv)| <= |flv|
    ensures forall i :: 0 <= i < |Lines(valid, flv)| ==> LineFromEntry(valid, flv, Lines(valid, flv)[i])
    ensures forall e :: e in flv && Usable(valid, e) ==> LineOf(FirstOfCdn(valid, e.cdnType).value, e.cdnType) in Lines(valid, flv)
    decreases |flv|
  {
    if |flv| > 0 {
      var init := flv[..|flv| - 1];
      var last := flv[|flv| - 1];
      LinesSound(valid, init);
      var front := Lines(valid, init);
      var all := Lines(valid, flv);
      assert all[..|front|] == front;
      forall i | 0 <= i < |all|
        ensures LineFromEntry(valid, flv, all[i])
      {
        if i < |front| {
          assert all[i] == front[i];
          assert LineFromEntry(valid, init, front[i]);
          var e :| e in init && Usable(valid, e) &&
            front[i] == LineOf(FirstOfCdn(valid, e.cdnType).value, e.cdnType);
          assert e in flv;
        } else {
          assert last in flv && Usable(valid, last);
          assert all[i] == LineOf(FirstOfCdn(valid, last.cdnType).value, last.cdnType);
        }
      }
      forall e | e in flv && Usable(valid, e)
        ensures LineOf(FirstOfCdn(valid, e.cdnType).value, e.cdnType) in all
      {
        if e != last {
          assert e in init;
        }
      }
    }
  }

  /** The channel ids kept for the danmaku arguments: those of the last line built (0 when absent). */
  function Sids(valid: seq<StreamInfo>, flv: seq<FlvEntry>): (int, int)
    decreases |flv|
  {
    if |flv| == 0 then (0, 0)
    else
      var e := flv[|flv| - 1];
      if Usable(valid, e) then
        var s := FirstOfCdn(valid, e.cdnType).value;
        (s.channelId.GetOr(0), s.subChannelId.GetOr(0))
      else Sids(valid, flv[..|flv| - 1])
  }

  /** The line-building loop of `GetRoomDetail`. */
  method BuildLines(valid: seq<StreamInfo>, flv: seq<FlvEntry>) returns (lines: seq<Line>, topSid: int, subSid: int)
    ensures lines == Lines(valid, flv)
    ensures (topSid, subSid) == Sids(valid, flv)
  {
    lines := [];
    topSid, subSid := 0, 0;
    for i := 0 to |flv|
      invariant lines == Lines(valid, flv[..i])
      invariant (topSid, subSid) == Sids(valid, flv[..i])
    {
      assert flv[..i + 1][..i] == flv[..i];
      var item := flv[i];
      var url := item.url.GetOr("");
      if url != "" {
        var currentStream := FirstOfCdn(valid, item.cdnType);
        if currentStream.Some? {
          topSid := currentStream.value.channelId.GetOr(0);
          subSid := currentStream.value.subChannelId.GetOr(0);
          lines := lines + [LineOf(currentStream.value, item.cdnType)];
        }
      }
    }
    assert flv[..|flv|] == flv;
  }

  /** An entry of the bitrate array; None stands for a missing field. */
  datatype RateEntry = RateEntry(displayName: Option<string>, bitRate: Option<int>)
  datatype BitRate = BitRate(name: string, bitRate: int)

  function BitRateOf(e: RateEntry): BitRate {
    BitRate(e.displayName.GetOr(""), e.bitRate.GetOr(0))
  }

  function Names(rs: seq<BitRate>): set<string> {
    set i | 0 <= i < |rs| :: rs[i].name
  }

  /** The bitrates with duplicate display names dropped, keeping the first of each name. */
  function Dedup(entries: seq<RateEntry>): seq<BitRate>
    decreases |entries|
  {
    if |entries| == 0 then []
    else
      var rest := Dedup(entries[..|entries| - 1]);
      var b := BitRateOf(entries[|entries| - 1]);
      if b.name in Names(rest) then rest else rest + [b]
  }

  /** The dedup keeps every name once, and each kept bitrate is the first entry of its name. */
  lemma {:induction false} DedupFirst(entries: seq<RateEntry>)
    ensures Names(Dedup(entries)) == set i | 0 <= i < |entries| :: BitRateOf(entries[i]).name
    ensures forall i, j :: 0 <= i < j < |Dedup(entries)| ==> Dedup(entries)[i].name != Dedup(entries)[j].name
    ensures forall i :: 0 <= i < |Dedup(entries)| ==>
      exists j :: 0 <= j < |entries| && Dedup(entries)[i] == BitRateOf(entries[j])
        && forall k :: 0 <= k < j ==> BitRateOf(entries[k]).name != BitRateOf(entries[j]).name
    decreases |entries|
  {
    if |entries| > 0 {
      var n := |entries| - 1;
      var init := entries[..n];
      DedupFirst(init);
      var rest := Dedup(init);
      var b := BitRateOf(entries[n]);
      assert forall i :: 0 <= i < n ==> init[i] == entries[i];
      if b.name !in Names(rest) {
        var d := rest + [b];
        assert Names(d) == Names(rest) + {b.name} by {
          assert forall i :: 0 <= i < |rest| ==> d[i] == rest[i];
          assert d[|rest|] == b;
          forall x | x in Names(rest) ensures x in Names(d) {
            var i :| 0 <= i < |rest| && rest[i].name == x;
            assert d[i].name == x;
          }
        }
        forall i | 0 <= i < |d|
          ensures exists j :: (0 <= j < |entries| && d[i] == BitRateOf(entries[j])
            && forall k :: 0 <= k < j ==> BitRateOf(entries[k]).name != BitRateOf(entries[j]).name)
        {
          if i == |rest| {
            assert d[i] == BitRateOf(entries[n]);
            forall k | 0 <= k < n
              ensures BitRateOf(entries[k]).name != b.name
            {
              assert BitRateOf(init[k]).name in Names(rest);
            }
          } else {
            assert d[i] == rest[i];
          }
        }
        forall i, j | 0 <= i < j < |d|
          ensures d[i].name != d[j].name
        {
          if j == |rest| {
            assert d[i] == rest[i];
          }
        }
      } else {
        assert BitRateOf(entries[n]).name in Names(rest);
      }
    }
  }

  /** The bitrate-dedup loop of `GetRoomDetail`. */
  method DedupBitRates(entries: seq<RateEntry>) returns (rates: seq<BitRate>)
    ensures rates == Dedup(entries)
  {
    rates := [];
    for i := 0 to |entries|
      invariant rates == Dedup(entries[..i])
    {
      assert entries[..i + 1][..i] == entries[..i];
      var name := entries[i].displayName.GetOr("");
      var seen := exists j :: 0 <= j < |rates| && rates[j].name == name;
      if !seen {
        rates := rates + [BitRate(name, entries[i].bitRate.GetOr(0))];
      }
    }
    assert entries[..|entries|] == entries;
  }

  /** The bitrate list a room starts from: the parsed `bitRateInfo` text when it is not null or
      empty (None here), else `stream.flv.rateArray`, else nothing. */
  function RateSource(bitRateInfo: Option<seq<RateEntry>>, rateArray: Option<seq<RateEntry>>): seq<RateEntry> {
    if bitRateInfo.Some? then bitRateInfo.value else rateArray.GetOr([])
  }

  /** `liveStatus` "ON" or "REPLAY" means live. */
  predicate IsLive(liveStatus: Option<string>) {
    liveStatus == Some("ON") || liveStatus == Some("REPLAY")
  }

  /** What `GetRoomDetail` reads from `profileRoom`. */
  datatype RoomInfo = RoomInfo(status: Option<int>, stream: Option<(seq<StreamInfo>, seq<FlvEntry>)>,
                               liveStatus: Option<string>, introduction: Option<string>, roomName: Option<string>,
                               bitRateInfo: Option<seq<RateEntry>>, rateArray: Option<seq<RateEntry>>)
  datatype RoomDetail = RoomDetail(roomId: string, status: bool, title: string, lines: seq<Line>,
                                   bitRates: seq<BitRate>, topSid: int, subSid: int)

  /** `GetRoomDetail`: a status other than 200 or a missing stream gives an offline detail with
      nothing else; otherwise the title, lines, bitrates and live flag. */
  method GetRoomDetail(roomId: string, info: RoomInfo) returns (d: RoomDetail)
    ensures info.status != Some(200) || info.stream.None? ==> d == RoomDetail(roomId, false, "", [], [], 0, 0)
    ensures info.status == Some(200) && info.stream.Some? ==>
      var (infos, flv) := info.stream.value;
      d.status == IsLive(info.liveStatus)
      && d.title == Title(info.introduction, info.roomName)
      && d.lines == Lines(ValidLines(infos), flv)
      && (d.topSid, d.subSid) == Sids(ValidLines(infos), flv)
      && d.bitRates == Dedup(RateSource(info.bitRateInfo, info.rateArray))
    ensures d.status ==> GetLiveStatus(info.status, info.liveStatus)
    ensures info.stream.Some? ==> d.status == GetLiveStatus(info.status, info.liveStatus)
  {
    if info.status != Some(200) || info.stream.None? {
      return RoomDetail(roomId, false, "", [], [], 0, 0);
    }
    var (infos, flv) := info.stream.value;
    var title := info.introduction.GetOr("");
    if title == "" {
      title := info.roomName.GetOr("");
    }
    var lines, topSid, subSid := BuildLines(ValidLines(infos), flv);
    var rates := DedupBitRates(RateSource(info.bitRateInfo, info.rateArray));
    d := RoomDetail(roomId, IsLive(info.liveStatus), title, lines, rates, topSid, subSid);
  }

  /** `GetLiveStatus`: live only when the request succeeded and the status says so. */
  function GetLiveStatus(status: Option<int>, liveStatus: Option<string>): (live: bool)
    ensures live <==> status == Some(200) && (liveStatus == Some("ON") || liveStatus == Some("REPLAY"))
  {
    if status != Some(200) then false else IsLive(liveStatus)
  }

  // ---------------------------------------------------------------------------------------------
  // Play qualities and urls

  /** `HuyaUrlDataModel`, the room's play data, which `GetPlayQuality` fills in place. */
  class UrlData {
    var bitRates: Option<seq<BitRate>>
    var lines: Option<seq<Line>>

    constructor (bitRates: Option<seq<BitRate>>, lines: Option<seq<Line>>)
      ensures this.bitRates == bitRates && this.lines == lines
    {
      this.bitRates := bitRates;
      this.lines := lines;
    }
  }

  const DefaultBitRates: seq<BitRate> := [BitRate("原画", 0), BitRate("高清", 2000)]

  datatype PlayQuality = PlayQuality(quality: string, bitRate: int, lines: seq<Line>)

  /** The bitrates after defaulting: a null or empty list becomes the two defaults. */
  function EffectiveBitRates(bitRates: Option<seq<BitRate>>): (r: seq<BitRate>)
    ensures |r| >= 1
    ensures bitRates.Some? && |bitRates.value| > 0 ==> r == bitRates.value
  {
    if bitRates.None? || |bitRates.value| == 0 then DefaultBitRates else bitRates.value
  }

  /** One quality per bitrate, in order, all on the same lines. */
  function Qualities(rates: seq<BitRate>, lines: seq<Line>): (qs: seq<PlayQuality>)
    ensures |qs| == |rates|
    ensures forall i :: 0 <= i < |qs| ==> qs[i] == PlayQuality(rates[i].name, rates[i].bitRate, lines)
  {
    seq(|rates|, i requires 0 <= i < |rates| => PlayQuality(rates[i].name, rates[i].bitRate, lines))
  }

  /** `GetPlayQuality`: no data gives no qualities; otherwise the defaults are written back into
      the data first, then one quality per bitrate. */
  method GetPlayQuality(data: UrlData?) returns (qualities: seq<PlayQuality>)
    modifies data
    ensures data == null ==> qualities == []
    ensures data != null ==>
      data.bitRates == Some(EffectiveBitRates(old(data.bitRates)))
      && data.lines == Some(old(data.lines).GetOr([]))
      && qualities == Qualities(data.bitRates.value, data.lines.value)
  {
    qualities := [];
    if data == null {
      return;
    }
    if data.bitRates.None? || |data.bitRates.value| == 0 {
      data.bitRates := Some(DefaultBitRates);
    }
    if data.lines.None? {
      data.lines := Some([]);
    }
    var rates := data.bitRates.value;
    var lines := data.lines.value;
    for i := 0 to |rates|
      invariant qualities == Qualities(rates[..i], lines)
    {
      qualities := qualities + [PlayQuality(rates[i].name, rates[i].bitRate, lines)];
    }
    assert rates[..|rates|] == rates;
  }

  /** Without bitrates a room still offers the original and the 2000 kbps quality. */
  lemma DefaultQualities(lines: seq<Line>)
    ensures var qs := Qualities(EffectiveBitRates(None), lines);
      |qs| == 2 && qs[0].bitRate == 0 && qs[1].bitRate == 2000 && qs[0].lines == lines
  {
  }

  /** The `getCdnTokenInfo` answer: None when the request threw. */
  datatype CdnToken = CdnToken(streamName: string, flvAntiCode: Option<string>)

  /** The bitrate suffix: `&ratio=b` for a positive bitrate. */
  function RatioSuffix(bitrate: int): string {
    if bitrate > 0 then "&ratio=" + NatToString(bitrate) else ""
  }

  /** The line host made absolute: https:// is put in front unless it starts with "http". */
  function AbsoluteBase(host: string): (r: string)
    ensures StartsWith(r, "http")
    ensures StartsWith(host, "http") ==> r == host
  {
    if StartsWith(host, "http") then host else "https://" + host
  }

  /** The parameters every play url ends with. */
  function CodecTail(bitrate: int): string {
    "&codec=264" + RatioSuffix(bitrate)
  }

  /** The url used when the token request fails. */
  function FallbackUrl(line: Line, bitrate: int): string {
    AbsoluteBase(line.line) + ("/" + line.streamName + ".flv?" + line.flvAntiCode) + CodecTail(bitrate)
  }

  /** `GetRealUrl`: the token's anti-code when it has one, otherwise the fallback. */
  function GetRealUrl(line: Line, bitrate: int, token: Option<CdnToken>): string {
    if token.Some? && !IsNullOrEmpty(token.value.flvAntiCode) then
      line.line + "/" + token.value.streamName + ".flv?" + token.value.flvAntiCode.value + CodecTail(bitrate)
    else FallbackUrl(line, bitrate)
  }

  lemma PrefixKept(x: string, y: string, p: string)
    requires StartsWith(x, p)
    ensures StartsWith(x + y, p)
  {
    assert (x + y)[..|p|] == x[..|p|];
  }

  lemma SuffixKept(x: string, y: string)
    ensures EndsWith(x + y, y)
  {
    assert (x + y)[|x|..] == y;
  }

  /** The fallback url is absolute. */
  lemma FallbackAbsolute(line: Line, bitrate: int)
    ensures StartsWith(FallbackUrl(line, bitrate), "http")
  {
    var head := AbsoluteBase(line.line);
    var rest := ("/" + line.streamName + ".flv?" + line.flvAntiCode) + CodecTail(bitrate);
    PrefixKept(head, rest, "http");
    assert FallbackUrl(line, bitrate) == head + rest;
  }

  /** The parameters end the url: `&codec=264`, followed by `&ratio=` and the bitrate exactly when
      the bitrate is positive. */
  lemma CodecTailCases(bitrate: int)
    ensures StartsWith(CodecTail(bitrate), "&codec=264")
    ensures bitrate <= 0 <==> CodecTail(bitrate) == "&codec=264"
    ensures bitrate > 0 ==> CodecTail(bitrate) == "&codec=264&ratio=" + NatToString(bitrate)
  {
    if bitrate > 0 {
      assert |CodecTail(bitrate)| > |"&codec=264"|;
    }
  }

  /** Both the token url and the fallback end in those parameters. */
  lemma UrlEnds(line: Line, bitrate: int, token: Option<CdnToken>)
    ensures EndsWith(GetRealUrl(line, bitrate, token), CodecTail(bitrate))
    ensures EndsWith(FallbackUrl(line, bitrate), CodecTail(bitrate))
  {
    var tail := CodecTail(bitrate);
    var head := AbsoluteBase(line.line) + ("/" + line.streamName + ".flv?" + line.flvAntiCode);
    assert FallbackUrl(line, bitrate) == head + tail;
    SuffixKept(head, tail);
    if token.Some? && !IsNullOrEmpty(token.value.flvAntiCode) {
      var h := line.line + "/" + token.value.streamName + ".flv?" + token.value.flvAntiCode.value;
      assert GetRealUrl(line, bitrate, token) == h + tail;
      SuffixKept(h, tail);
    }
  }

  /** `GetPlayUrls`: one url per line of the quality, in order; no lines, no urls. `tokens[i]` is
      the token answer for line i. */
  method GetPlayUrls(lines: Option<seq<Line>>, bitrate: int, tokens: seq<Option<CdnToken>>) returns (urls: seq<string>)
    requires lines.Some? ==> |tokens| == |lines.value|
    ensures lines.None? ==> urls == []
    ensures lines.Some? ==> (|urls| == |lines.value|
      && forall i :: 0 <= i < |urls| ==> urls[i] == GetRealUrl(lines.value[i], bitrate, tokens[i]))
  {
    urls := [];
    if lines.None? {
      return;
    }
    var ls := lines.value;
    for i := 0 to |ls|
      invariant |urls| == i
      invariant forall j :: 0 <= j < i ==> urls[j] == GetRealUrl(ls[j], bitrate, tokens[j])
    {
      urls := urls + [GetRealUrl(ls[i], bitrate, tokens[i])];
    }
  }

  // ---------------------------------------------------------------------------------------------
  // The anonymous uuid

  const IntMax: int := 0x7FFF_FFFF
  const UIntMax: int := 0xFFFF_FFFF

  /** A 32-bit signed value wrapped into range, as C# `int` arithmetic does unchecked. */
  function WrapInt32(x: int): (r: int)
    ensures -0x8000_0000 <= r <= IntMax
    ensures (r - x) % 0x1_0000_0000 == 0
  {
    var m := x % 0x1_0000_0000;
    if m > IntMax then m - 0x1_0000_0000 else m
  }

  /** C# `%`: the remainder takes the sign of the dividend. */
  function TruncRem(a: int, b: int): (r: int)
    requires b > 0
    ensures a >= 0 ==> 0 <= r < b
    ensures a < 0 ==> -b < r <= 0
  {
    if a >= 0 then a % b else -((-a) % b)
  }

  /** `GetUuid` as written: `now` is the clock in milliseconds, `draw` the value of
      `Random.Next(0, int.MaxValue)`; `1000 * draw` is an `int` product and wraps. */
  function GetUuidAsWritten(now: nat, draw: nat): (r: int)
    requires draw < IntMax
    ensures -UIntMax < r < UIntMax
  {
    TruncRem(now % 10000000000 * 1000 + WrapInt32(1000 * draw), UIntMax)
  }

  /** For a clock reading just past a multiple of 10^10 ms and a large draw, the wrapped product
      makes the sum negative, and the truncating remainder keeps it negative. */
  lemma UuidAsWrittenNegative()
    ensures GetUuidAsWritten(1760000000000, 2147484) == -2147483296
  {
    assert 1760000000000 % 10000000000 == 0;
    assert WrapInt32(2147484000) == -2147483296;
  }

  /** `GetUuid` as evidently intended: the product taken without wrapping, so the uuid is a
      non-negative value below `uint.MaxValue`. */
  function GetUuid(now: nat, draw: nat): (r: nat)
    requires draw < IntMax
    ensures r < UIntMax
  {
    (now % 10000000000 * 1000 + 1000 * draw) % UIntMax
  }

  /** Where the product does not wrap, the two agree. */
  lemma UuidAgrees(now: nat, draw: nat)
    requires 1000 * draw <= IntMax
    ensures GetUuidAsWritten(now, draw) == GetUuid(now, draw)
  {
    assert WrapInt32(1000 * draw) == 1000 * draw;
  }
}
