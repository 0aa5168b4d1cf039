/** The string handling of the HTTP helper: the query string appended to a GET url, and the
    splitting of a `key=value&key=value` text into form fields for a POST. Sending the requests
    is not modelled. */
module HttpUtil {
  import opened Wrappers
  import opened Text
  import opened UriEscape

  /** Dictionary entries in enumeration order. */
  type Pairs = seq<(string, string)>

  // ---------------------------------------------------------------------------------------------
  // Query string

  /** One parameter: the key as it is, '=', the value escaped. */
  function PairText(key: string, value: string): string {
    key + "=" + EscapeDataString(value)
  }

  /** The parameters as the loop writes them: every pair followed by '&'. */
  function QueryText(ps: Pairs): string
    decreases |ps|
  {
    if |ps| == 0 then ""
    else QueryText(ps[..|ps| - 1]) + PairText(ps[|ps| - 1].0, ps[|ps| - 1].1) + "&"
  }

  /** The url sent by `GetString` and `Get`: unchanged without parameters, otherwise followed by
      '?', the pairs, and every trailing '&' trimmed. */
  function WithQuery(url: string, queryParameters: Option<Pairs>): string {
    match queryParameters
    case None => url
    case Some(ps) => TrimEnd(url + "?" + QueryText(ps), '&')
  }

  method AppendQuery(url: string, queryParameters: Option<Pairs>) returns (r: string)
    ensures r == WithQuery(url, queryParameters)
  {
    r := url;
    if queryParameters.Some? {
      var ps := queryParameters.value;
      r := r + "?";
      var i := 0;
      while i < |ps|
        invariant 0 <= i <= |ps|
        invariant r == url + "?" + QueryText(ps[..i])
      {
        QueryTextStep(url, ps, i);
        r := r + (PairText(ps[i].0, ps[i].1) + "&");
        i := i + 1;
      }
      assert ps[..i] == ps;
      r := TrimEnd(r, '&');
    }
  }

  lemma QueryTextStep(url: string, ps: Pairs, i: nat)
    requires i < |ps|
    ensures url + "?" + QueryText(ps[..i + 1]) ==
      (url + "?" + QueryText(ps[..i])) + (PairText(ps[i].0, ps[i].1) + "&")
  {
    assert ps[..i + 1][..i] == ps[..i];
  }

  /** The pair texts in order. */
  function PairTexts(ps: Pairs): (r: seq<string>)
    ensures |r| == |ps|
  {
    seq(|ps|, i requires 0 <= i < |ps| => PairText(ps[i].0, ps[i].1))
  }

  lemma {:induction false} QueryTextJoined(ps: Pairs)
    requires |ps| >= 1
    ensures QueryText(ps) == Join(PairTexts(ps), "&") + "&"
    decreases |ps|
  {
    var n := |ps|;
    var front := ps[..n - 1];
    var p := PairText(ps[n - 1].0, ps[n - 1].1);
    assert QueryText(ps) == QueryText(front) + p + "&";
    if n > 1 {
      QueryTextJoined(front);
      var f := Join(PairTexts(front), "&");
      assert PairTexts(ps) == PairTexts(front) + [p];
      JoinSnoc(PairTexts(front), p, "&");
      assert Join(PairTexts(ps), "&") == f + "&" + p;
    } else {
      assert PairTexts(ps) == [p];
      assert QueryText(front) == "";
    }
  }

  /** An escaped value never holds '&', so a pair never ends with one. */
  lemma PairEnd(key: string, value: string)
    ensures var t := PairText(key, value); |t| > 0 && t[|t| - 1] != '&'
  {
    var e := EscapeDataString(value);
    EscapedHasNo(value, '&');
    if |e| > 0 {
      assert e[|e| - 1] in e;
    }
  }

  lemma JoinLast(parts: seq<string>, sep: string)
    requires |parts| >= 1
    ensures EndsWith(Join(parts, sep), parts[|parts| - 1])
    decreases |parts|
  {
    if |parts| > 1 {
      JoinLast(parts[1..], sep);
      assert parts[1..][|parts| - 2] == parts[|parts| - 1];
    }
  }

  lemma TrimOneAmpersand(j: string)
    requires |j| > 0 && j[|j| - 1] != '&'
    ensures TrimEnd(j + "&", '&') == j
  {
    assert (j + "&")[..|j|] == j;
  }

  /** The url is followed by '?' and the pairs joined by '&': trimming removes exactly the '&'
      written after the last pair. With an empty dictionary the url ends in '?'. */
  lemma QueryAssembled(url: string, ps: Pairs)
    ensures |ps| == 0 ==> WithQuery(url, Some(ps)) == url + "?"
    ensures |ps| > 0 ==> WithQuery(url, Some(ps)) == url + "?" + Join(PairTexts(ps), "&")
  {
    if |ps| == 0 {
      TrimOneAmpersand(url + "?");
      assert (url + "?")[|url + "?"| - 1] == '?';
    } else {
      QueryTextJoined(ps);
      var joined := Join(PairTexts(ps), "&");
      JoinedEnd(ps);
      TrimOneAmpersand(url + "?" + joined);
      assert url + "?" + QueryText(ps) == url + "?" + joined + "&";
    }
  }

  /** The joined pairs end with the last pair's last character, which is not '&'. */
  lemma JoinedEnd(ps: Pairs)
    requires |ps| > 0
    ensures var joined := Join(PairTexts(ps), "&"); |joined| > 0 && joined[|joined| - 1] != '&'
  {
    var texts := PairTexts(ps);
    assert texts[|ps| - 1] == PairText(ps[|ps| - 1].0, ps[|ps| - 1].1);
    PairEnd(ps[|ps| - 1].0, ps[|ps| - 1].1);
    JoinEndsLikeLast(texts, "&");
  }

  lemma JoinEndsLikeLast(parts: seq<string>, sep: string)
    requires |parts| >= 1 && |parts[|parts| - 1]| > 0
    ensures var j, last := Join(parts, sep), parts[|parts| - 1];
      |j| > 0 && j[|j| - 1] == last[|last| - 1]
  {
    JoinLast(parts, sep);
  }

  // ---------------------------------------------------------------------------------------------
  // Form body

  /** The form fields from `&`-separated items: each item split on '=' gives its parts 0 and 1, the
      rest dropped; an item without '=' fails the request (None). */
  function FormPairs(items: seq<string>): Option<Pairs>
    decreases |items|
  {
    if |items| == 0 then Some([])
    else match FormPairs(items[..|items| - 1]) {
      case None => None
      case Some(front) =>
        var splits := Split(items[|items| - 1], '=');
        if |splits| < 2 then None else Some(front + [(splits[0], splits[1])])
    }
  }

  /** `PostString`'s body: a null data text fails as well. */
  function FormBody(data: Option<string>): Option<Pairs> {
    match data
    case None => None
    case Some(d) => FormPairs(Split(d, '&'))
  }

  method PostBody(data: Option<string>) returns (body: Option<Pairs>)
    ensures body == FormBody(data)
  {
    if data.None? {
      return None;
    }
    var items := Split(data.value, '&');
    var fields: Pairs := [];
    var i := 0;
    while i < |items|
      invariant 0 <= i <= |items|
      invariant FormPairs(items[..i]) == Some(fields)
    {
      var splits := Split(items[i], '=');
      FormPairsStep(items, i, fields);
      if |splits| < 2 {
        NoneStaysNone(items, i + 1);
        return None;
      }
      fields := fields + [(splits[0], splits[1])];
      i := i + 1;
    }
    assert items[..i] == items;
    return Some(fields);
  }

  lemma FormPairsStep(items: seq<string>, i: nat, fields: Pairs)
    requires i < |items| && FormPairs(items[..i]) == Some(fields)
    ensures var splits := Split(items[i], '=');
      FormPairs(items[..i + 1]) == if |splits| < 2 then None else Some(fields + [(splits[0], splits[1])])
  {
    assert items[..i + 1][..i] == items[..i];
  }

  /** Once an item fails, every longer prefix fails too. */
  lemma {:induction false} NoneStaysNone(items: seq<string>, k: nat)
    requires k <= |items| && FormPairs(items[..k]).None?
    ensures FormPairs(items).None?
    decreases |items| - k
  {
    if k < |items| {
      assert items[..k + 1][..k] == items[..k];
      NoneStaysNone(items, k + 1);
    } else {
      assert items[..k] == items;
    }
  }

  /** No key holds '&' or '='. */
  predicate PlainKeys(ps: Pairs) {
    forall i :: 0 <= i < |ps| ==> '&' !in ps[i].0 && '=' !in ps[i].0
  }

  /** Each key with its value escaped, as the query carries it. */
  function EscapedPairs(ps: Pairs): (r: Pairs)
    ensures |r| == |ps|
  {
    seq(|ps|, i requires 0 <= i < |ps| => (ps[i].0, EscapeDataString(ps[i].1)))
  }

  /** The form parser reads back what the query builder writes: for keys free of '&' and '=',
      the joined pairs give each key with its escaped value, in order. */
  lemma {:induction false} FormReadsQuery(ps: Pairs)
    requires |ps| >= 1
    requires PlainKeys(ps)
    ensures FormBody(Some(Join(PairTexts(ps), "&"))) ==
      Some(EscapedPairs(ps))
  {
    var texts := PairTexts(ps);
    forall i | 0 <= i < |texts|
      ensures '&' !in texts[i]
    {
      EscapedHasNo(ps[i].1, '&');
    }
    SplitJoin(texts, '&');
    FormPairsOfTexts(ps);
  }

  /** A pair splits on '=' into its key and escaped value. */
  lemma PairSplit(key: string, value: string)
    requires '=' !in key
    ensures Split(PairText(key, value), '=') == [key, EscapeDataString(value)]
  {
    var e := EscapeDataString(value);
    EscapedHasNo(value, '=');
    SplitJoin([key, e], '=');
    assert Join([key, e], "=") == key + "=" + e;
  }

  lemma EscapedPairsSnoc(ps: Pairs)
    requires |ps| >= 1
    ensures EscapedPairs(ps) ==
      EscapedPairs(ps[..|ps| - 1]) + [(ps[|ps| - 1].0, EscapeDataString(ps[|ps| - 1].1))]
  {
  }

  lemma {:induction false} FormPairsOfTexts(ps: Pairs)
    requires PlainKeys(ps)
    ensures FormPairs(PairTexts(ps)) == Some(EscapedPairs(ps))
    decreases |ps|
  {
    if |ps| > 0 {
      var n := |ps|;
      var front := ps[..n - 1];
      assert PlainKeys(front) by {
        assert forall i :: 0 <= i < |front| ==> front[i] == ps[i];
      }
      FormPairsOfTexts(front);
      FormPairsOfTextsStep(ps);
    }
  }

  lemma FormPairsOfTextsStep(ps: Pairs)
    requires |ps| > 0 && PlainKeys(ps)
    requires FormPairs(PairTexts(ps[..|ps| - 1])) == Some(EscapedPairs(ps[..|ps| - 1]))
    ensures FormPairs(PairTexts(ps)) == Some(EscapedPairs(ps))
  {
    var n := |ps|;
    var items := PairTexts(ps);
    assert items[..n - 1] == PairTexts(ps[..n - 1]);
    assert items[n - 1] == PairText(ps[n - 1].0, ps[n - 1].1);
    PairSplit(ps[n - 1].0, ps[n - 1].1);
    FormPairsLast(items, EscapedPairs(ps[..n - 1]), ps[n - 1].0, EscapeDataString(ps[n - 1].1));
    EscapedPairsSnoc(ps);
  }

  lemma FormPairsLast(items: seq<string>, front: Pairs, key: string, value: string)
    requires |items| > 0 && FormPairs(items[..|items| - 1]) == Some(front)
    requires var splits := Split(items[|items| - 1], '='); |splits| >= 2 && splits[0] == key && splits[1] == value
    ensures FormPairs(items) == Some(front + [(key, value)])
  {
  }

  /** An item without '=' makes the whole body fail. */
  lemma MissingEqualsFails(data: string, j: nat)
    requires j < |Split(data, '&')| && '=' !in Split(data, '&')[j]
    ensures FormBody(Some(data)).None?
  {
    var items := Split(data, '&');
    assert IndexOf(items[j], '=').None?;
    assert items[..j + 1][..j] == items[..j];
    assert FormPairs(items[..j + 1]).None?;
    NoneStaysNone(items, j + 1);
  }

  /** Text after a second '=' is dropped. */
  lemma SecondEqualsDropped()
    ensures FormBody(Some("a=b=c")) == Some([("a", "b")])
  {
    var s := "a=b=c";
    SplitNone(s, '&');
    SplitThree();
    assert [s][..0] == [];
    FormPairsLast([s], [], "a", "b");
    assert [] + [("a", "b")] == [("a", "b")];
  }

  lemma SplitThree()
    ensures Split("a=b=c", '=') == ["a", "b", "c"]
  {
    assert "a=b=c" == "a" + ['='] + "b=c";
    SplitConcat("a", "b=c", '=');
    SplitNone("a", '=');
    SplitTwo();
  }

  lemma SplitTwo()
    ensures Split("b=c", '=') == ["b", "c"]
  {
    assert "b=c" == "b" + ['='] + "c";
    SplitConcat("b", "c", '=');
    SplitNone("b", '=');
    SplitNone("c", '=');
  }

  lemma SplitNone(s: string, sep: char)
    requires sep !in s
    ensures Split(s, sep) == [s]
  {
  }
}
