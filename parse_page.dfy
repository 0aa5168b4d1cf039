/** The link parser page (AllLive.UWP/Views/ParsePage.xaml.cs): a pasted link or room number is
    turned into a site and a room id, or a status message. The regular expressions are written
    out as the searches they perform; `\d` and `\w` are their ASCII classes. */
module ParsePage {
  import opened Wrappers
  import opened Text

  datatype LiveSite = Bilibili | Douyu | Huya | Douyin

  /** A site registered with the main view model. */
  datatype Site = Site(name: string, siteType: LiveSite)

  /** `MainVM.Sites.FirstOrDefault(s => s.SiteType == t)`. */
  function SiteOf(sites: seq<Site>, t: LiveSite): (r: Option<Site>)
    ensures r.Some? ==> r.value in sites && r.value.siteType == t
    ensures r.None? <==> forall s :: s in sites ==> s.siteType != t
    decreases |sites|
  {
    if |sites| == 0 then None
    else if sites[0].siteType == t then Some(sites[0])
    else
      assert forall s :: s in sites ==> s == sites[0] || s in sites[1..];
      SiteOf(sites[1..], t)
  }

  // ---------------------------------------------------------------------------------------------
  // Pattern searches

  /** `prefix` followed by a character of the class starts at `q`. */
  predicate MatchesAt(s: string, prefix: string, cls: char -> bool, q: nat) {
    q + |prefix| < |s| && s[q..q + |prefix|] == prefix && cls(s[q + |prefix|])
  }

  /** The leftmost position from `i` on where the pattern `prefix(cls+)` matches. */
  function FirstMatchFrom(s: string, prefix: string, cls: char -> bool, i: nat): (p: Option<nat>)
    ensures p.Some? ==> (i <= p.value && MatchesAt(s, prefix, cls, p.value)
      && forall q: nat :: i <= q < p.value ==> !MatchesAt(s, prefix, cls, q))
    ensures p.None? ==> forall q: nat :: i <= q ==> !MatchesAt(s, prefix, cls, q)
    decreases |s| - i
  {
    if i + |prefix| >= |s| then None
    else if MatchesAt(s, prefix, cls, i) then Some(i)
    else FirstMatchFrom(s, prefix, cls, i + 1)
  }

  /** The longest run of class characters `s` starts with (the greedy `cls+`). */
  function Run(s: string, cls: char -> bool): (r: string)
    ensures StartsWith(s, r)
    ensures forall k :: 0 <= k < |r| ==> cls(r[k])
    ensures |r| == |s| || !cls(s[|r|])
    decreases |s|
  {
    if |s| > 0 && cls(s[0]) then [s[0]] + Run(s[1..], cls) else ""
  }

  /** `Regex.Match(s, prefix + "(cls+)")`: the first group of the leftmost match. */
  function Capture(s: string, prefix: string, cls: char -> bool): (r: Option<string>)
  {
    match FirstMatchFrom(s, prefix, cls, 0)
    case None => None
    case Some(p) => Some(Run(s[p + |prefix|..], cls))
  }

  /** `p` is the leftmost match and the run `r` after its prefix is maximal. */
  predicate CapturedAt(s: string, prefix: string, cls: char -> bool, p: nat, r: string) {
    && MatchesAt(s, prefix, cls, p)
    && (forall q: nat :: q < p ==> !MatchesAt(s, prefix, cls, q))
    && p + |prefix| + |r| <= |s| && s[p..p + |prefix| + |r|] == prefix + r
    && (p + |prefix| + |r| == |s| || !cls(s[p + |prefix| + |r|]))
  }

  /** The capture is found exactly when the prefix occurs followed by a class character; it is
      the whole run of class characters after the leftmost such occurrence. */
  lemma CaptureSpec(s: string, prefix: string, cls: char -> bool)
    ensures Capture(s, prefix, cls).None? <==> forall q: nat :: !MatchesAt(s, prefix, cls, q)
    ensures Capture(s, prefix, cls).Some? ==>
      var r := Capture(s, prefix, cls).value;
      |r| > 0 && (forall k :: 0 <= k < |r| ==> cls(r[k])) && exists p: nat :: CapturedAt(s, prefix, cls, p, r)
  {
    match FirstMatchFrom(s, prefix, cls, 0)
    case None =>
    case Some(p) =>
      RunAfterMatch(s, prefix, cls, p);
      assert CapturedAt(s, prefix, cls, p, Capture(s, prefix, cls).value);
  }

  /** The run after a match is non-empty and ends where the text or the class ends. */
  lemma RunAfterMatch(s: string, prefix: string, cls: char -> bool, p: nat)
    requires MatchesAt(s, prefix, cls, p)
    ensures var r := Run(s[p + |prefix|..], cls);
      |r| > 0 && p + |prefix| + |r| <= |s| && s[p..p + |prefix| + |r|] == prefix + r
      && (p + |prefix| + |r| == |s| || !cls(s[p + |prefix| + |r|]))
  {
    var t := s[p + |prefix|..];
    var r := Run(t, cls);
    assert t[0] == s[p + |prefix|];
    assert s[p..p + |prefix| + |r|] == s[p..p + |prefix|] + t[..|r|];
    if p + |prefix| + |r| < |s| {
      assert s[p + |prefix| + |r|] == t[|r|];
    }
  }

  const DouyinPrefix: string := "live.douyin.com/"
  const BilibiliPrefix: string := "live.bilibili.com/"
  const HuyaPrefix: string := "huya.com/"
  const DouyuPrefix: string := "douyu.com/"

  function Digit(): char -> bool { c => IsDigit(c) }
  function Word(): char -> bool { c => IsWordChar(c) }

  /** `ParseInput`: the link patterns of Douyin, Bilibili, Huya and Douyu are tried in that order
      and the first that matches decides; an all-digit input is a Douyin room; anything else is
      (null, null). */
  function ParseInput(sites: seq<Site>, input: string): (Option<Site>, Option<string>) {
    var douyin := Capture(input, DouyinPrefix, Digit());
    var bili := Capture(input, BilibiliPrefix, Digit());
    var huya := Capture(input, HuyaPrefix, Word());
    var douyu := Capture(input, DouyuPrefix, Digit());
    if douyin.Some? then (SiteOf(sites, Douyin), douyin)
    else if bili.Some? then (SiteOf(sites, Bilibili), bili)
    else if huya.Some? then (SiteOf(sites, Huya), huya)
    else if douyu.Some? then (SiteOf(sites, Douyu), douyu)
    else if |input| > 0 && AllDigits(input) then (SiteOf(sites, Douyin), Some(input))
    else (None, None)
  }

  /** A Douyin link wins whatever else the text holds; a Bilibili link wins over Huya and Douyu
      ones; a bare number is a Douyin room. */
  lemma ParseInputOrder(sites: seq<Site>, input: string)
    ensures Capture(input, DouyinPrefix, Digit()).Some? ==>
      ParseInput(sites, input) == (SiteOf(sites, Douyin), Capture(input, DouyinPrefix, Digit()))
    ensures Capture(input, DouyinPrefix, Digit()).None? && Capture(input, BilibiliPrefix, Digit()).Some? ==>
      ParseInput(sites, input) == (SiteOf(sites, Bilibili), Capture(input, BilibiliPrefix, Digit()))
    ensures |input| > 0 && AllDigits(input) ==> ParseInput(sites, input) == (SiteOf(sites, Douyin), Some(input))
    ensures ParseInput(sites, input).1.Some? ==> |ParseInput(sites, input).1.value| > 0
  {
    if |input| > 0 && AllDigits(input) {
      NoLinkInDigits(input, DouyinPrefix, Digit());
      NoLinkInDigits(input, BilibiliPrefix, Digit());
      NoLinkInDigits(input, HuyaPrefix, Word());
      NoLinkInDigits(input, DouyuPrefix, Digit());
    }
    CaptureSpec(input, DouyinPrefix, Digit());
    CaptureSpec(input, BilibiliPrefix, Digit());
    CaptureSpec(input, HuyaPrefix, Word());
    CaptureSpec(input, DouyuPrefix, Digit());
  }

  /** A prefix holding a non-digit never occurs in an all-digit text. */
  lemma NoLinkInDigits(input: string, prefix: string, cls: char -> bool)
    requires AllDigits(input)
    requires |prefix| > 0 && !IsDigit(prefix[0])
    ensures Capture(input, prefix, cls).None?
  {
    forall q: nat | q < |input|
      ensures !MatchesAt(input, prefix, cls, q)
    {
      assert IsDigit(input[q]);
    }
    CaptureSpec(input, prefix, cls);
  }

  // ---------------------------------------------------------------------------------------------
  // Room ids of a chosen site

  /** The longest run of word characters `s` ends with. */
  function WordRunAtEnd(s: string): (r: string)
    ensures EndsWith(s, r) && AllWordChars(r)
    ensures |r| == |s| || !IsWordChar(s[|s| - |r| - 1])
    decreases |s|
  {
    if |s| > 0 && IsWordChar(s[|s| - 1]) then
      var init := s[..|s| - 1];
      var r := WordRunAtEnd(init);
      assert init[|init| - |r|..] == s[|s| - 1 - |r|..|s| - 1];
      assert s[|s| - 1 - |r|..] == r + [s[|s| - 1]];
      assert |r| < |init| ==> s[|s| - |r| - 2] == init[|init| - |r| - 1];
      r + [s[|s| - 1]]
    else ""
  }

  /** `Regex.Match(input, "/(\w+)/?$")`: the last path segment when the input ends in '/', word
      characters and at most one more '/'. */
  function LastSegment(input: string): (r: Option<string>)
    ensures r.Some? ==> (|r.value| > 0 && AllWordChars(r.value)
      && exists pre :: input == pre + "/" + r.value || input == pre + "/" + r.value + "/")
  {
    var t := if |input| > 0 && input[|input| - 1] == '/' then input[..|input| - 1] else input;
    var w := WordRunAtEnd(t);
    if |w| > 0 && |t| > |w| && t[|t| - |w| - 1] == '/' then
      var pre := t[..|t| - |w| - 1];
      assert t == pre + "/" + w;
      assert input == t || input == t + "/";
      Some(w)
    else None
  }

  /** `Regex.Replace(input, "[^\w]", "")`: the word characters of the input, in order. */
  function WordCharsOnly(input: string): (r: string)
    ensures AllWordChars(r) && |r| <= |input|
    ensures AllWordChars(input) ==> r == input
    decreases |input|
  {
    if |input| == 0 then ""
    else WordCharsOnly(input[..|input| - 1]) + (if IsWordChar(input[|input| - 1]) then [input[|input| - 1]] else [])
  }

  /** `ExtractRoomId`: the final path segment, else the input stripped of non-word characters. */
  function ExtractRoomId(input: string): (r: string)
    ensures AllWordChars(r)
    ensures LastSegment(input).Some? ==> r == LastSegment(input).value
    ensures LastSegment(input).None? ==> r == WordCharsOnly(input)
  {
    match LastSegment(input)
    case Some(w) => w
    case None => WordCharsOnly(input)
  }

  /** A url whose last segment is a room id gives that id, with or without a closing '/'. */
  lemma ExtractFromUrl(pre: string, id: string)
    requires |id| > 0 && AllWordChars(id)
    ensures ExtractRoomId(pre + "/" + id) == id
    ensures ExtractRoomId(pre + "/" + id + "/") == id
  {
    ExtractSegment(pre, id, pre + "/" + id);
    var s := pre + "/" + id + "/";
    assert s[..|s| - 1] == pre + "/" + id;
    ExtractSegment(pre, id, s[..|s| - 1]);
  }

  /** The word run a text ends with stops at the '/' before it. */
  lemma {:induction false} ExtractSegment(pre: string, id: string, t: string)
    requires AllWordChars(id) && t == pre + "/" + id
    ensures WordRunAtEnd(t) == id
    decreases |id|
  {
    if |id| > 0 {
      var init := id[..|id| - 1];
      assert t[..|t| - 1] == pre + "/" + init;
      ExtractSegment(pre, init, t[..|t| - 1]);
      assert id == init + [id[|id| - 1]];
    }
  }

  // ---------------------------------------------------------------------------------------------
  // The Go button

  datatype Outcome = ShowStatus(text: string) | Navigate(site: Site, roomId: string, text: string)

  const PromptText: string := "请输入链接或房间号"
  const UnknownText: string := "无法识别，请选择平台或检查输入"

  /** The site a combo-box tag selects: the four site tags, anything else Douyin. */
  function TagSite(tag: string): LiveSite {
    if tag == "douyin" then Douyin
    else if tag == "bilibili" then Bilibili
    else if tag == "huya" then Huya
    else if tag == "douyu" then Douyu
    else Douyin
  }

  /** `BtnGo_Click`: `text` is the input box (None for null) and `tag` the selected item's tag
      (None when nothing or no tag is selected, which means "auto"). */
  function BtnGo(sites: seq<Site>, text: Option<string>, tag: Option<string>): Outcome {
    var input := if text.Some? then Trim(text.value) else "";
    if input == "" then ShowStatus(PromptText)
    else
      var selectedTag := tag.GetOr("auto");
      var (site, roomId) :=
        if selectedTag == "auto" then ParseInput(sites, input)
        else (SiteOf(sites, TagSite(selectedTag)), Some(ExtractRoomId(input)));
      if site.Some? && !IsNullOrEmpty(roomId) then
        Navigate(site.value, roomId.value, "正在进入 " + site.value.name + " - " + roomId.value)
      else ShowStatus(UnknownText)
  }

  /** Blank input prompts for a link; otherwise the page navigates exactly when a registered site
      and a non-empty room id were found, and shows the failure text otherwise. */
  lemma BtnGoOutcome(sites: seq<Site>, text: Option<string>, tag: Option<string>)
    ensures text.None? || Trim(text.value) == "" ==> BtnGo(sites, text, tag) == ShowStatus(PromptText)
    ensures BtnGo(sites, text, tag).Navigate? ==>
      BtnGo(sites, text, tag).site in sites && |BtnGo(sites, text, tag).roomId| > 0
    ensures text.Some? && Trim(text.value) != "" && tag.Some? && tag.value != "auto" ==>
      var t := TagSite(tag.value);
      if SiteOf(sites, t).Some? && ExtractRoomId(Trim(text.value)) != "" then
        BtnGo(sites, text, tag).Navigate? && BtnGo(sites, text, tag).site.siteType == t
        && BtnGo(sites, text, tag).roomId == ExtractRoomId(Trim(text.value))
      else BtnGo(sites, text, tag) == ShowStatus(UnknownText)
  {
    if text.Some? {
      BtnGoNavigates(sites, text.value, tag);
      if Trim(text.value) != "" && tag.Some? && tag.value != "auto" {
        BtnGoByTag(sites, text.value, tag.value);
      }
    }
  }

  lemma BtnGoNavigates(sites: seq<Site>, text: string, tag: Option<string>)
    ensures var o := BtnGo(sites, Some(text), tag);
      (Trim(text) == "" ==> o == ShowStatus(PromptText))
      && (o.Navigate? ==> o.site in sites && |o.roomId| > 0)
  {
  }

  lemma BtnGoByTag(sites: seq<Site>, text: string, tag: string)
    requires Trim(text) != "" && tag != "auto"
    ensures var t, o := TagSite(tag), BtnGo(sites, Some(text), Some(tag));
      if SiteOf(sites, t).Some? && ExtractRoomId(Trim(text)) != "" then
        o.Navigate? && o.site.siteType == t && o.roomId == ExtractRoomId(Trim(text))
      else o == ShowStatus(UnknownText)
  {
  }

  /** Blank input of any white space trims to nothing and prompts. */
  lemma BlankPrompts(sites: seq<Site>, text: string, tag: Option<string>)
    requires forall i :: 0 <= i < |text| ==> IsWhiteSpace(text[i])
    ensures BtnGo(sites, Some(text), tag) == ShowStatus(PromptText)
  {
    TrimBlank(text);
  }
}
