/** The Douyin site (AllLive.Core/Douyin.cs): cookie harvesting, room-id routing, play-quality
    selection, search-result filtering and paging, and the signed search URL. HTTP, JSON parsing
    and the a_bogus signer are replaced by the values they would produce. */
module Douyin {
  import opened Wrappers
  import opened Text
  import opened UriEscape
  import opened Sorting

  // ---------------------------------------------------------------------------------------------
  // Cookies

  const LiveCookieKeys: seq<string> := ["ttwid", "__ac_nonce", "msToken"]
  const SearchCookieKeys: seq<string> := ["ttwid", "__ac_nonce", "msToken", "s_v_web_id", "passport_csrf_token"]

  /** The `name=value` part of a Set-Cookie value: everything before its first ';'. */
  function CookiePair(item: string): (r: string)
    ensures ';' !in r && StartsWith(item, r)
    ensures r == Split(item, ';')[0]
  {
    match IndexOf(item, ';')
    case None => item
    case Some(i) => item[..i]
  }

  predicate HasAnyKey(cookie: string, keys: seq<string>) {
    exists i :: 0 <= i < |keys| && Contains(cookie, keys[i])
  }

  /** The pairs kept from the Set-Cookie values, in order. */
  function KeptCookies(items: seq<string>, keys: seq<string>): seq<string>
    decreases |items|
  {
    if |items| == 0 then []
    else
      var pair := CookiePair(items[|items| - 1]);
      KeptCookies(items[..|items| - 1], keys) + (if HasAnyKey(pair, keys) then [pair] else [])
  }

  /** The pairs each followed by ';', as the builder accumulates them. */
  function Terminated(parts: seq<string>): string
    decreases |parts|
  {
    if |parts| == 0 then "" else Terminated(parts[..|parts| - 1]) + parts[|parts| - 1] + ";"
  }

  /** Every kept pair holds one of the keys, hence is non-empty, and holds no ';'. */
  lemma {:induction false} KeptCookiesShape(items: seq<string>, keys: seq<string>)
    requires forall i :: 0 <= i < |keys| ==> |keys[i]| > 0
    ensures forall i :: 0 <= i < |KeptCookies(items, keys)| ==>
      HasAnyKey(KeptCookies(items, keys)[i], keys) && ';' !in KeptCookies(items, keys)[i]
      && |KeptCookies(items, keys)[i]| > 0
    decreases |items|
  {
    if |items| > 0 {
      KeptCookiesShape(items[..|items| - 1], keys);
    }
  }

  /** The header value: the kept pairs joined by ';' (the builder's text with its trailing ';'
      trimmed). */
  lemma {:induction false} TerminatedTrimmed(parts: seq<string>)
    requires |parts| >= 1
    requires forall i :: 0 <= i < |parts| ==> ';' !in parts[i] && |parts[i]| > 0
    ensures Terminated(parts) == Join(parts, ";") + ";"
    ensures TrimEnd(Terminated(parts), ';') == Join(parts, ";")
    decreases |parts|
  {
    var init := parts[..|parts| - 1];
    var last := parts[|parts| - 1];
    if |parts| == 1 {
      assert Terminated(parts) == last + ";";
    } else {
      TerminatedTrimmed(init);
      assert init + [last] == parts;
      JoinSnoc(init, last, ";");
    }
    var j := Join(parts, ";");
    assert j[|j| - 1] == last[|last| - 1] by {
      if |parts| == 1 {
      } else {
        assert j == Join(init, ";") + ";" + last;
      }
    }
    assert last[|last| - 1] in last;
    var t := Terminated(parts);
    assert t[..|t| - 1] == j;
  }

  /** `HEAD https://live.douyin.com`: failed (a thrown exception, including a response without a
      Set-Cookie header) or the Set-Cookie values. */
  datatype HeadResponse = HeadFailed | SetCookies(values: seq<string>)

  /** The headers `GetRequestHeaders` leaves behind when it does refetch. */
  function Refreshed(headers: map<string, string>, forceRefresh: bool, resp: HeadResponse): map<string, string> {
    var base := if forceRefresh then headers - {"Cookie", "cookie"} else headers;
    match resp
    case HeadFailed => base
    case SetCookies(vs) =>
      var kept := KeptCookies(vs, LiveCookieKeys);
      if |kept| > 0 then base["Cookie" := Join(kept, ";")] else base
  }

  /** The harvested text is empty exactly when nothing was kept, and otherwise trims back to the
      kept pairs joined by ';'. */
  lemma BuiltCookie(vs: seq<string>)
    ensures var kept := KeptCookies(vs, LiveCookieKeys);
      (|Terminated(kept)| > 0 <==> |kept| > 0)
      && (|kept| > 0 ==> TrimEnd(Terminated(kept), ';') == Join(kept, ";"))
  {
    var kept := KeptCookies(vs, LiveCookieKeys);
    if |kept| > 0 {
      KeptCookiesShape(vs, LiveCookieKeys);
      TerminatedTrimmed(kept);
    }
  }

  /** A refetch that keeps something installs a Cookie header that splits back into exactly the
      kept pairs, in order; any other header is as before, and a forced refresh drops the old
      Cookie/cookie entries. */
  lemma RefreshedCookie(headers: map<string, string>, forceRefresh: bool, vs: seq<string>)
    requires |KeptCookies(vs, LiveCookieKeys)| > 0
    ensures var h := Refreshed(headers, forceRefresh, SetCookies(vs));
      "Cookie" in h && Split(h["Cookie"], ';') == KeptCookies(vs, LiveCookieKeys)
      && (forceRefresh ==> "cookie" !in h)
      && forall k :: k in headers && k != "Cookie" && k != "cookie" ==> k in h && h[k] == headers[k]
  {
    KeptCookiesShape(vs, LiveCookieKeys);
    SplitJoin(KeptCookies(vs, LiveCookieKeys), ';');
  }

  /** Nothing kept, or the HEAD failed: no Cookie header is installed. */
  lemma RefreshedNothingKept(headers: map<string, string>, forceRefresh: bool, resp: HeadResponse)
    requires resp.HeadFailed? || |KeptCookies(resp.values, LiveCookieKeys)| == 0
    ensures var h := Refreshed(headers, forceRefresh, resp);
      (forceRefresh ==> "Cookie" !in h && "cookie" !in h) && (!forceRefresh ==> h == headers)
  {
  }

  /** `HEAD` of the search page: failed, or its response with or without Set-Cookie values. */
  datatype SearchHead = SearchHeadFailed | SearchHeaders(setCookie: Option<seq<string>>)

  /** The search items as decoded from `data`; None stands for an item whose rawdata is null or
      empty. */
  datatype RoomItem = RoomItem(roomId: string, title: string, cover: string, userName: string, online: int)

  /** The rooms `SearchInternal` keeps: items with rawdata and a non-empty room id, in order. */
  function KeptRooms(entries: seq<Option<RoomItem>>): seq<RoomItem>
    decreases |entries|
  {
    if |entries| == 0 then []
    else
      var e := entries[|entries| - 1];
      KeptRooms(entries[..|entries| - 1]) + (if e.Some? && e.value.roomId != "" then [e.value] else [])
  }

  lemma {:induction false} KeptRoomsSound(entries: seq<Option<RoomItem>>)
    ensures |KeptRooms(entries)| <= |entries|
    ensures forall i :: 0 <= i < |KeptRooms(entries)| ==>
      KeptRooms(entries)[i].roomId != "" && Some(KeptRooms(entries)[i]) in entries
    decreases |entries|
  {
    if |entries| > 0 {
      KeptRoomsSound(entries[..|entries| - 1]);
      assert forall x :: x in entries[..|entries| - 1] ==> x in entries;
    }
  }

  /** An item with rawdata and a room id is kept. */
  lemma {:induction false} KeptRoomsComplete(entries: seq<Option<RoomItem>>, j: nat)
    requires j < |entries| && entries[j].Some? && entries[j].value.roomId != ""
    ensures entries[j].value in KeptRooms(entries)
    decreases |entries|
  {
    if j < |entries| - 1 {
      KeptRoomsComplete(entries[..|entries| - 1], j);
    }
  }

  datatype SearchResult = SearchResult(hasMore: bool, rooms: seq<RoomItem>)

  const EmptySearch := SearchResult(false, [])

  /** What the search API answered: blank, not JSON, a verification demand, no room list, or the
      items with the `has_more` field (None when absent or when `data` is itself the list). */
  datatype SearchResponse = Blank | Unparsable | VerifyCheck | NoList | Lives(entries: seq<Option<RoomItem>>, hasMoreFlag: Option<int>)

  function HasMore(hasMoreFlag: Option<int>, kept: nat): bool {
    hasMoreFlag == Some(1) || kept >= 10
  }

  /** The result of one answer that is not a verification demand. */
  function Settle(resp: SearchResponse): SearchResult
    requires !resp.VerifyCheck?
  {
    match resp
    case Lives(entries, flag) =>
      var rooms := KeptRooms(entries);
      SearchResult(HasMore(flag, |rooms|), rooms)
    case _ => EmptySearch
  }

  /** The cookie a search request carries. */
  function SearchCookie(useVerifiedCookie: bool, verified: string, freshCookie: string): string {
    if useVerifiedCookie && verified != "" then verified else freshCookie
  }

  /** `SearchInternal` as written, run with a budget of `fuel` nested retries (None: the budget ran
      out). `server(n)` is the answer to the n-th request, `handler` the verification dialog (None
      when no handler is set; it yields "" when verification fails or is cancelled), `freshCookie` the
      cookie `GetSearchCookie` yields. Also returns the cookie of each request. */
  function SearchAsWritten(server: nat -> SearchResponse, handler: Option<nat -> string>, freshCookie: string,
                           verified: string, useVerifiedCookie: bool, n: nat, fuel: nat): Option<(SearchResult, seq<string>)>
    decreases fuel
  {
    var cookie := SearchCookie(useVerifiedCookie, verified, freshCookie);
    if !server(n).VerifyCheck? then Some((Settle(server(n)), [cookie]))
    else if handler.None? || handler.value(n) == "" then Some((EmptySearch, [cookie]))
    else if fuel == 0 then None
    else match SearchAsWritten(server, handler, freshCookie, handler.value(n), true, n + 1, fuel - 1)
      case None => None
      case Some((r, cookies)) => Some((r, [cookie] + cookies))
  }

  /** As written, a server that keeps demanding verification and a handler that keeps succeeding
      make the search recurse without end: no budget of retries suffices. */
  lemma {:induction false} SearchAsWrittenUnbounded(server: nat -> SearchResponse, h: nat -> string, freshCookie: string,
                                                    verified: string, useVerifiedCookie: bool, n: nat, fuel: nat)
    requires forall m :: server(m) == VerifyCheck
    requires forall m :: h(m) != ""
    ensures SearchAsWritten(server, Some(h), freshCookie, verified, useVerifiedCookie, n, fuel).None?
    decreases fuel
  {
    if fuel > 0 {
      SearchAsWrittenUnbounded(server, h, freshCookie, h(n), true, n + 1, fuel - 1);
    }
  }

  /** `SearchInternal` as its comment intends: the retry after a verification never verifies
      again, so there are at most two requests. */
  function Search(server: nat -> SearchResponse, handler: Option<nat -> string>, freshCookie: string,
                  verified: string, useVerifiedCookie: bool, n: nat): (r: (SearchResult, seq<string>))
    ensures 1 <= |r.1| <= (if useVerifiedCookie then 1 else 2)
    ensures r.1[0] == SearchCookie(useVerifiedCookie, verified, freshCookie)
    decreases if useVerifiedCookie then 0 else 1
  {
    var cookie := SearchCookie(useVerifiedCookie, verified, freshCookie);
    if !server(n).VerifyCheck? then (Settle(server(n)), [cookie])
    else if useVerifiedCookie || handler.None? || handler.value(n) == "" then (EmptySearch, [cookie])
    else
      var (res, cookies) := Search(server, handler, freshCookie, handler.value(n), true, n + 1);
      (res, [cookie] + cookies)
  }

  /** A successful verification retries once, carrying the cookie the handler returned; whatever
      the retry is answered, the search then ends. */
  lemma SearchRetriesOnce(server: nat -> SearchResponse, h: nat -> string, freshCookie: string, verified: string, n: nat)
    requires server(n) == VerifyCheck && h(n) != ""
    ensures var (res, cookies) := Search(server, Some(h), freshCookie, verified, false, n);
      cookies == [freshCookie, h(n)]
      && res == (if server(n + 1).VerifyCheck? then EmptySearch else Settle(server(n + 1)))
  {
  }

  /** Every room a search returns has a room id; `hasMore` holds when the server says so or a full
      page of ten rooms was kept. */
  lemma SearchRooms(server: nat -> SearchResponse, handler: Option<nat -> string>, freshCookie: string,
                    verified: string, useVerifiedCookie: bool, n: nat)
    ensures var res := Search(server, handler, freshCookie, verified, useVerifiedCookie, n).0;
      forall i :: 0 <= i < |res.rooms| ==> res.rooms[i].roomId != ""
    ensures server(n).Lives? ==>
      Search(server, handler, freshCookie, verified, useVerifiedCookie, n).0
        == SearchResult(server(n).hasMoreFlag == Some(1) || |KeptRooms(server(n).entries)| >= 10,
                        KeptRooms(server(n).entries))
    decreases if useVerifiedCookie then 0 else 1
  {
    var cookie := SearchCookie(useVerifiedCookie, verified, freshCookie);
    if server(n).Lives? {
      KeptRoomsSound(server(n).entries);
    } else if server(n).VerifyCheck? && !useVerifiedCookie && handler.Some? && handler.value(n) != "" {
      SearchRooms(server, handler, freshCookie, handler.value(n), true, n + 1);
    }
  }

  // ---------------------------------------------------------------------------------------------
  // Play qualities

  datatype QualityOption = QualityOption(name: string, level: int, sdkKey: string)
  /** `qualityData[sdk_key]["main"]`: its flv and hls entries, None when missing. */
  datatype StreamMain = StreamMain(flv: Option<string>, hls: Option<string>)
  /** The parts of `roomDetail.Data` the selection reads; `streamUrls` is `stream_data` parsed. */
  datatype PlayData = PlayData(qualities: seq<QualityOption>, streamData: string,
                               flvList: seq<string>, hlsList: seq<string>, streamUrls: map<string, StreamMain>)
  datatype PlayQuality = PlayQuality(quality: string, sort: int, urls: seq<string>)

  /** The entry `Count - level` of a pull-url list, when that index is in range. */
  function ByLevel(list: seq<string>, level: int): (r: seq<string>)
    ensures |r| <= 1
    ensures |r| == 1 <==> 1 <= level <= |list|
    ensures |r| == 1 ==> r[0] == list[|list| - level]
  {
    var idx := |list| - level;
    if 0 <= idx < |list| then [list[idx]] else []
  }

  function NonEmpty(u: Option<string>): seq<string> {
    if u.Some? && |u.value| > 0 then [u.value] else []
  }

  /** The urls of one quality. */
  function QualityUrls(d: PlayData, q: QualityOption): seq<string> {
    if !StartsWith(d.streamData, "{") then ByLevel(d.flvList, q.level) + ByLevel(d.hlsList, q.level)
    else if q.sdkKey in d.streamUrls then NonEmpty(d.streamUrls[q.sdkKey].flv) + NonEmpty(d.streamUrls[q.sdkKey].hls)
    else []
  }

  /** The qualities with at least one url, before sorting. */
  function Candidates(d: PlayData, qs: seq<QualityOption>): seq<PlayQuality>
    decreases |qs|
  {
    if |qs| == 0 then []
    else
      var q := qs[|qs| - 1];
      var urls := QualityUrls(d, q);
      Candidates(d, qs[..|qs| - 1]) + (if |urls| > 0 then [PlayQuality(q.name, q.level, urls)] else [])
  }

  function SortKey(q: PlayQuality): int { q.sort }

  lemma {:induction false} CandidatesShape(d: PlayData, qs: seq<QualityOption>)
    ensures forall i :: 0 <= i < |Candidates(d, qs)| ==>
      var c := Candidates(d, qs)[i];
      1 <= |c.urls| <= 2 && exists q :: q in qs && c == PlayQuality(q.name, q.level, QualityUrls(d, q))
    decreases |qs|
  {
    if |qs| > 0 {
      CandidatesShape(d, qs[..|qs| - 1]);
      assert forall q :: q in qs[..|qs| - 1] ==> q in qs;
    }
  }

  /** The selection keeps exactly the qualities with a url, each once, sorted by `Sort`
      descending; qualities of equal `Sort` stay in their listed order. */
  lemma PlayQualityOrdered(d: PlayData)
    ensures var r := SortDesc(Candidates(d, d.qualities), SortKey);
      SortedDesc(r, SortKey)
      && multiset(r) == multiset(Candidates(d, d.qualities))
      && (forall k :: WithKey(r, SortKey, k) == WithKey(Candidates(d, d.qualities), SortKey, k))
      && (forall i :: 0 <= i < |r| ==> 1 <= |r[i].urls| <= 2)
  {
    var c := Candidates(d, d.qualities);
    SortDescSorted(c, SortKey);
    SortedKeepsKeys(c);
    SortedKeepsUrls(d, c);
  }

  lemma SortedKeepsKeys(c: seq<PlayQuality>)
    ensures forall k :: WithKey(SortDesc(c, SortKey), SortKey, k) == WithKey(c, SortKey, k)
  {
    forall k {
      SortDescStable(c, SortKey, k);
    }
  }

  lemma SortedKeepsUrls(d: PlayData, c: seq<PlayQuality>)
    requires c == Candidates(d, d.qualities)
    ensures forall i :: 0 <= i < |SortDesc(c, SortKey)| ==> 1 <= |SortDesc(c, SortKey)[i].urls| <= 2
  {
    CandidatesShape(d, d.qualities);
    var r := SortDesc(c, SortKey);
    forall i | 0 <= i < |r|
      ensures 1 <= |r[i].urls| <= 2
    {
      assert r[i] in multiset(c);
      var j :| 0 <= j < |c| && c[j] == r[i];
    }
  }

  /** The urls of one quality: by level from the pull-url lists when `stream_data` is not a
      JSON object, otherwise the non-empty flv and hls urls under its sdk key. */
  method UrlsOf(d: PlayData, q: QualityOption) returns (urls: seq<string>)
    ensures urls == QualityUrls(d, q)
  {
    urls := [];
    if !StartsWith(d.streamData, "{") {
      var flvIndex := |d.flvList| - q.level;
      if flvIndex >= 0 && flvIndex < |d.flvList| {
        urls := urls + [d.flvList[flvIndex]];
      }
      var hlsIndex := |d.hlsList| - q.level;
      if hlsIndex >= 0 && hlsIndex < |d.hlsList| {
        urls := urls + [d.hlsList[hlsIndex]];
      }
    } else {
      var main := if q.sdkKey in d.streamUrls then Some(d.streamUrls[q.sdkKey]) else None;
      if main.Some? && main.value.flv.Some? && |main.value.flv.value| > 0 {
        urls := urls + [main.value.flv.value];
      }
      if main.Some? && main.value.hls.Some? && |main.value.hls.value| > 0 {
        urls := urls + [main.value.hls.value];
      }
    }
  }

  /** `GetPlayQuality`: no data gives no qualities; otherwise each listed quality is tried in
      order and the result is ordered by `Sort`, descending. */
  method GetPlayQuality(data: Option<PlayData>) returns (qualities: seq<PlayQuality>)
    ensures data.None? ==> qualities == []
    ensures data.Some? ==> qualities == SortDesc(Candidates(data.value, data.value.qualities), SortKey)
  {
    if data.None? {
      return [];
    }
    var d := data.value;
    var built: seq<PlayQuality> := [];
    var i := 0;
    while i < |d.qualities|
      invariant 0 <= i <= |d.qualities|
      invariant built == Candidates(d, d.qualities[..i])
    {
      var q := d.qualities[i];
      var urls := UrlsOf(d, q);
      if |urls| > 0 {
        built := built + [PlayQuality(q.name, q.level, urls)];
      }
      assert d.qualities[..i + 1][..i] == d.qualities[..i];
      i := i + 1;
    }
    assert d.qualities[..i] == d.qualities;
    qualities := SortDesc(built, SortKey);
  }

  // ---------------------------------------------------------------------------------------------
  // Room routing, random digits, msToken and the signed search URL

  datatype RoomRoute = ByWebRid | ByRoomId

  /** `GetRoomDetail`: web rids (11-12 digits) are short, room ids (19 digits) long. */
  function RouteRoomDetail(roomId: string): RoomRoute {
    if |roomId| <= 16 then ByWebRid else ByRoomId
  }

  lemma RouteByLength(roomId: string)
    ensures 11 <= |roomId| <= 12 ==> RouteRoomDetail(roomId) == ByWebRid
    ensures |roomId| == 19 ==> RouteRoomDetail(roomId) == ByRoomId
    ensures RouteRoomDetail(roomId) == ByRoomId ==> |roomId| >= 17
  {
  }

  /** `Random.Next(lo, hi)` driven by a raw draw: a value in [lo, hi). */
  function Next(lo: int, hi: int, draw: nat): (r: int)
    requires lo < hi
    ensures lo <= r < hi
  {
    lo + draw % (hi - lo)
  }

  /** `GenerateRandomNumber(length)`; `draws` are the generator's raw outputs. */
  method GenerateRandomNumber(length: nat, draws: seq<nat>) returns (digits: string)
    requires |draws| >= length
    ensures |digits| == length
    ensures forall i :: 0 <= i < length ==>
      digits[i] == DigitChar(if i == 0 then Next(1, 9, draws[i]) else Next(0, 9, draws[i]))
  {
    digits := "";
    var i := 0;
    while i < length
      invariant 0 <= i <= length && |digits| == i
      invariant forall j :: 0 <= j < i ==>
        digits[j] == DigitChar(if j == 0 then Next(1, 9, draws[j]) else Next(0, 9, draws[j]))
    {
      if i == 0 {
        digits := digits + [DigitChar(Next(1, 9, draws[i]))];
      } else {
        digits := digits + [DigitChar(Next(0, 9, draws[i]))];
      }
      i := i + 1;
    }
  }

  /** Because the upper bound of `Random.Next` is exclusive, the first digit is 1..8, the others
      0..8: the digit 9 never occurs. */
  lemma RandomDigitsRange(length: nat, draws: seq<nat>, digits: string)
    requires |draws| >= length && |digits| == length
    requires forall i :: 0 <= i < length ==>
      digits[i] == DigitChar(if i == 0 then Next(1, 9, draws[i]) else Next(0, 9, draws[i]))
    ensures length > 0 ==> '1' <= digits[0] <= '8'
    ensures forall i :: 0 <= i < length ==> '0' <= digits[i] <= '8'
  {
    forall i | 0 <= i < length
      ensures '0' <= digits[i] <= '8' && (i == 0 ==> '1' <= digits[i])
    {
      var d := if i == 0 then Next(1, 9, draws[i]) else Next(0, 9, draws[i]);
      assert DigitChar(d) == ['0', '1', '2', '3', '4', '5', '6', '7', '8', '9'][d];
    }
  }

  const MsTokenLength: nat := 107

  /** `n` consecutive characters starting at `first`. */
  function CharRange(first: char, n: nat): (r: string)
    requires first as int + n <= 0xD800
    ensures |r| == n && forall i :: 0 <= i < n ==> r[i] as int == first as int + i
  {
    seq(n, i requires 0 <= i < n => (first as int + i) as char)
  }

  /** The 62 token characters: A-Z, a-z, 0-9, in that order. */
  const MsTokenAlphabet: string := CharRange('A', 26) + CharRange('a', 26) + CharRange('0', 10)

  /** The token drawn from `buffer`, the random bytes: byte `b` picks character `b % 62`. */
  function MsToken(buffer: seq<nat>): (t: string)
    ensures |t| == |buffer|
    ensures forall i :: 0 <= i < |t| ==> t[i] == MsTokenAlphabet[buffer[i] % 62]
  {
    seq(|buffer|, i requires 0 <= i < |buffer| => MsTokenAlphabet[buffer[i] % 62])
  }

  /** `GenerateMsToken`: one alphabet character per random byte. */
  method GenerateMsToken(buffer: seq<nat>) returns (token: string)
    requires |buffer| == MsTokenLength
    requires forall i :: 0 <= i < |buffer| ==> buffer[i] < 256
    ensures |token| == MsTokenLength
    ensures token == MsToken(buffer)
  {
    token := "";
    var i := 0;
    while i < |buffer|
      invariant 0 <= i <= |buffer|
      invariant token == MsToken(buffer[..i])
    {
      token := token + [MsTokenAlphabet[buffer[i] % |MsTokenAlphabet|]];
      assert buffer[..i + 1][..i] == buffer[..i];
      i := i + 1;
    }
    assert buffer[..i] == buffer;
  }

  /** The token is alphanumeric, so URL escaping leaves it as it is. */
  lemma MsTokenUnescaped(buffer: seq<nat>)
    ensures forall i :: 0 <= i < |MsToken(buffer)| ==> IsAlphaNumeric(MsToken(buffer)[i])
    ensures EscapeDataString(MsToken(buffer)) == MsToken(buffer)
  {
    var t := MsToken(buffer);
    forall i | 0 <= i < |t|
      ensures IsAlphaNumeric(t[i])
    {
      var k := buffer[i] % 62;
      assert t[i] == MsTokenAlphabet[k];
    }
    EscapeUnreserved(t);
  }

  /** `new Uri(url)`: None when the url does not parse (the constructor throws); otherwise
      `GetLeftPart(UriPartial.Path)` and `Query`. */
  datatype ParsedUri = ParsedUri(leftPart: string, query: string)

  /** What the a_bogus signer produced for a query: it threw, or returned a value (None for
      null). */
  datatype ABogus = SignerThrew | Signed(value: Option<string>)

  /** One appended `key=value` parameter, the value escaped; it holds no '&' when the key does not. */
  function QueryParam(key: string, value: string): (p: string)
    requires '&' !in key
    ensures '&' !in p
  {
    EscapedHasNo(value, '&');
    key + "=" + EscapeDataString(value)
  }

  /** The query the signer is given: the original parameters, then the unescaped token. */
  function QueryForSign(rawQuery: string, token: string): string {
    if rawQuery == "" then "msToken=" + token else rawQuery + "&msToken=" + token
  }

  /** The appended parameters: the escaped token, then the escaped a_bogus value if any. */
  function AddedParams(token: string, ab: Option<string>): seq<string> {
    if IsNullOrEmpty(ab) then [QueryParam("msToken", token)] else [QueryParam("msToken", token), QueryParam("a_bogus", ab.value)]
  }

  /** The final query: the original parameters, then the appended ones, joined by '&'. */
  function SignedQuery(rawQuery: string, token: string, ab: Option<string>): string {
    var added := Join(AddedParams(token, ab), "&");
    if rawQuery == "" then added else rawQuery + "&" + added
  }

  /** `GetABougs`: the url with its query extended by the msToken and, when the signer produced a
      non-empty value, the a_bogus parameter; on any exception the url unchanged. */
  function GetABougs(url: string, parsed: Option<ParsedUri>, token: string, sign: string -> ABogus): string {
    if parsed.None? then url
    else
      var rawQuery := TrimStartChar(parsed.value.query, '?');
      match sign(QueryForSign(rawQuery, token))
      case SignerThrew => url
      case Signed(ab) => parsed.value.leftPart + "?" + SignedQuery(rawQuery, token, ab)
  }

  /** Read back at its '&' separators, the final query is the original query's parameters
      followed by the appended ones: escaping keeps both appended values free of '&'. */
  lemma {:induction false} SignedQueryParts(rawQuery: string, token: string, ab: Option<string>)
    ensures Split(SignedQuery(rawQuery, token, ab), '&')
      == (if rawQuery == "" then [] else Split(rawQuery, '&')) + AddedParams(token, ab)
  {
    var added := AddedParams(token, ab);
    assert Split(Join(added, "&"), '&') == added by {
      SplitJoin(added, '&');
    }
    if rawQuery != "" {
      SplitConcat(rawQuery, Join(added, "&"), '&');
    }
  }

  /** The signed url keeps the path, and its query reads back as the original parameters, the
      token, then the a_bogus value when the signer produced one; a url that does not parse or a
      signer that throws leaves the url as it was. */
  lemma ABogusUrl(url: string, parsed: Option<ParsedUri>, token: string, sign: string -> ABogus)
    ensures parsed.None? ==> GetABougs(url, parsed, token, sign) == url
    ensures parsed.Some? ==>
      var left := parsed.value.leftPart;
      var rawQuery := TrimStartChar(parsed.value.query, '?');
      var r := GetABougs(url, parsed, token, sign);
      match sign(QueryForSign(rawQuery, token))
      case SignerThrew => r == url
      case Signed(ab) =>
        StartsWith(r, left + "?")
        && Split(r[|left| + 1..], '&') == (if rawQuery == "" then [] else Split(rawQuery, '&')) + AddedParams(token, ab)
  {
    if parsed.Some? {
      var left := parsed.value.leftPart;
      var rawQuery := TrimStartChar(parsed.value.query, '?');
      var r := GetABougs(url, parsed, token, sign);
      match sign(QueryForSign(rawQuery, token))
      case SignerThrew =>
      case Signed(ab) =>
        var q := SignedQuery(rawQuery, token, ab);
        assert r == left + "?" + q;
        assert r[|left| + 1..] == q;
        SignedQueryParts(rawQuery, token, ab);
    }
  }

  // ---------------------------------------------------------------------------------------------
  // The site object: its shared request headers (the verified search cookie is the `verified`
  // parameter of `Search`)

  class DouyinSite {
    var headers: map<string, string>

    constructor (initial: map<string, string>)
      ensures headers == initial
    {
      headers := initial;
    }

    /** The cookie-filtering loop shared by the three cookie readers: each value cut at its first
        ';', kept when it mentions one of the keys, appended with a trailing ';'. */
    static method BuildCookie(items: seq<string>, keys: seq<string>) returns (built: string)
      ensures built == Terminated(KeptCookies(items, keys))
    {
      built := "";
      var i := 0;
      while i < |items|
        invariant 0 <= i <= |items|
        invariant built == Terminated(KeptCookies(items[..i], keys))
      {
        var cookie := CookiePair(items[i]);
        assert items[..i + 1][..i] == items[..i];
        if exists k :: 0 <= k < |keys| && Contains(cookie, keys[k]) {
          built := built + cookie + ";";
          assert KeptCookies(items[..i + 1], keys) == KeptCookies(items[..i], keys) + [cookie];
        } else {
          assert KeptCookies(items[..i + 1], keys) == KeptCookies(items[..i], keys);
        }
        i := i + 1;
      }
      assert items[..i] == items;
    }

    /** `GetRequestHeaders`: an existing Cookie/cookie header is reused unless a refresh is forced;
        otherwise the harvested cookie is installed when something was kept. */
    method GetRequestHeaders(forceRefresh: bool, resp: HeadResponse) returns (result: map<string, string>)
      modifies this
      ensures result == headers
      ensures !forceRefresh && ("Cookie" in old(headers) || "cookie" in old(headers)) ==> headers == old(headers)
      ensures forceRefresh || !("Cookie" in old(headers) || "cookie" in old(headers)) ==>
        headers == Refreshed(old(headers), forceRefresh, resp)
    {
      if !forceRefresh && ("Cookie" in headers || "cookie" in headers) {
        return headers;
      }
      var next := if forceRefresh then headers - {"Cookie", "cookie"} else headers;
      if resp.SetCookies? {
        var built := BuildCookie(resp.values, LiveCookieKeys);
        BuiltCookie(resp.values);
        if |built| > 0 {
          next := next["Cookie" := TrimEnd(built, ';')];
        }
      }
      headers := next;
      return headers;
    }

    /** `GetWebCookie`: the room page is fetched with the shared headers (which may harvest them
        first), then its kept pairs are each followed by ';' (no trailing ';' is trimmed here).
        A room HEAD that throws, or answers without a Set-Cookie header (`GetValues` throws), has
        no catch here: None. */
    method GetWebCookie(live: HeadResponse, room: HeadResponse) returns (cookie: Option<string>)
      modifies this
      ensures "Cookie" in old(headers) || "cookie" in old(headers) ==> headers == old(headers)
      ensures !("Cookie" in old(headers) || "cookie" in old(headers)) ==> headers == Refreshed(old(headers), false, live)
      ensures room.HeadFailed? ==> cookie.None?
      ensures room.SetCookies? ==> cookie == Some(Terminated(KeptCookies(room.values, LiveCookieKeys)))
    {
      var _ := GetRequestHeaders(false, live);
      if room.HeadFailed? {
        return None;
      }
      var built := BuildCookie(room.values, LiveCookieKeys);
      return Some(built);
    }

    /** `GetSearchCookie`: the pairs with any of five keys joined by ';'. When the HEAD fails it
        falls back to a forced header refresh and that refresh's Cookie entry; None when there is
        none, where the lookup throws. */
    method GetSearchCookie(resp: SearchHead, refresh: HeadResponse) returns (cookie: Option<string>)
      modifies this
      ensures resp.SearchHeaders? ==> headers == old(headers)
      ensures resp.SearchHeaders? && resp.setCookie.Some? ==>
        cookie == Some(TrimEnd(Terminated(KeptCookies(resp.setCookie.value, SearchCookieKeys)), ';'))
      ensures resp.SearchHeaders? && resp.setCookie.None? ==> cookie == Some("")
      ensures resp.SearchHeadFailed? ==>
        headers == Refreshed(old(headers), true, refresh)
        && cookie == (if "Cookie" in headers then Some(headers["Cookie"]) else None)
    {
      if resp.SearchHeadFailed? {
        var h := GetRequestHeaders(true, refresh);
        if "Cookie" in h {
          return Some(h["Cookie"]);
        }
        return None;
      }
      var built := "";
      if resp.setCookie.Some? {
        built := BuildCookie(resp.setCookie.value, SearchCookieKeys);
      }
      return Some(TrimEnd(built, ';'));
    }
  }

  /** The web cookie keeps its trailing ';' where the header cookie drops it. */
  lemma WebCookieVersusHeader(values: seq<string>)
    requires |KeptCookies(values, LiveCookieKeys)| > 0
    ensures Terminated(KeptCookies(values, LiveCookieKeys)) == Join(KeptCookies(values, LiveCookieKeys), ";") + ";"
  {
    KeptCookiesShape(values, LiveCookieKeys);
    TerminatedTrimmed(KeptCookies(values, LiveCookieKeys));
  }
}
