/**
 * Kafka URLs, `kafka://[group@]broker[,broker...]/topic[,topic...]`
 * (hop/io.py, parse_kafka_url).
 *
 * The URL is first cut into scheme, network location, path, query and fragment
 * the way Python 3.9's urllib does it for a scheme without parameters, which is the
 * generic syntax of section 3 of RFC 3986: the scheme is the text before the
 * first ':' when it consists of scheme characters only, and it is lower-cased;
 * after a leading "//" the network location runs up to the first '/', '?' or
 * '#'; then the fragment is cut at the first '#' and the query at the first '?'.
 */
module Urls {
  import opened Basics
  import opened Text

  datatype UrlParts = UrlParts(scheme: string, netloc: string, path: string, query: string, fragment: string)

  /** Both are ValueErrors in the source; urllib raises the first one itself. */
  datatype UrlError = InvalidIPv6 | NotKafka

  /** What parse_kafka_url returns: the part before '@', the brokers and the topics. */
  datatype KafkaUrl = KafkaUrl(group: Option<string>, brokers: seq<string>, topics: Option<seq<string>>)

  predicate IsSchemeChar(c: char)
  {
    'a' <= c <= 'z' || 'A' <= c <= 'Z' || '0' <= c <= '9' || c == '+' || c == '-' || c == '.'
  }

  /** The scheme (lower-cased) and what follows its ':'; no scheme leaves the URL whole. */
  function SplitScheme(url: string): (string, string)
  {
    match IndexOf(url, ':')
    case Some(i) =>
      if i > 0 && forall k :: 0 <= k < i ==> IsSchemeChar(url[k]) then (Lower(url[..i]), url[i + 1..])
      else ("", url)
    case None => ("", url)
  }

  /** Cut at the first `c`: before it and after it, or the whole string and "". */
  function SplitAtFirst(s: string, c: char): (r: (string, string))
    ensures c !in r.0
    ensures c in s ==> s == r.0 + [c] + r.1
    ensures c !in s ==> r == (s, "")
  {
    match IndexOf(s, c)
    case Some(i) => (s[..i], s[i + 1..])
    case None => (s, "")
  }

  const NetlocEnd: set<char> := {'/', '?', '#'}

  predicate BracketsBalanced(netloc: string)
  {
    ('[' in netloc) == (']' in netloc)
  }

  /** urllib's urlsplit for a scheme without parameters. */
  function UrlSplit(url: string): (r: Result<UrlParts, UrlError>)
    ensures r.Err? ==> r.error == InvalidIPv6
    ensures r.Ok? ==> var n := r.value.netloc;
      && BracketsBalanced(n)
      && '/' !in n && '?' !in n && '#' !in n
      && '?' !in r.value.path && '#' !in r.value.path
      && '#' !in r.value.query
  {
    var (scheme, rest) := SplitScheme(url);
    var hasNetloc := |rest| >= 2 && rest[..2] == "//";
    var netlocEnd := if hasNetloc then 2 + PrefixWithout(rest[2..], NetlocEnd) else 0;
    var netloc := if hasNetloc then rest[2..netlocEnd] else "";
    if !BracketsBalanced(netloc) then Err(InvalidIPv6)
    else
      var (beforeFragment, fragment) := SplitAtFirst(rest[netlocEnd..], '#');
      var (path, query) := SplitAtFirst(beforeFragment, '?');
      Ok(UrlParts(scheme, netloc, path, query, fragment))
  }

  /** The netloc cut at its first '@' (Python's `split("@", maxsplit=1)`), brokers split at commas. */
  function GroupAndBrokers(netloc: string): (Option<string>, seq<string>)
  {
    match IndexOf(netloc, '@')
    case Some(i) => (Some(netloc[..i]), Split(netloc[i + 1..], ','))
    case None => (None, Split(netloc, ','))
  }

  /** The path without its leading slashes, split at commas; nothing left means no topics. */
  function TopicList(path: string): Option<seq<string>>
  {
    var topics := LStrip(path, '/');
    if |topics| == 0 then None else Some(Split(topics, ','))
  }

  /** hop/io.py parse_kafka_url. */
  function ParseKafkaUrl(url: string): (r: Result<KafkaUrl, UrlError>)
    ensures r.Ok? ==> |r.value.brokers| >= 1
  {
    match UrlSplit(url)
    case Err(e) => Err(e)
    case Ok(parts) =>
      if parts.scheme != "kafka" then Err(NotKafka)
      else
        var (group, brokers) := GroupAndBrokers(parts.netloc);
        Ok(KafkaUrl(group, brokers, TopicList(parts.path)))
  }

  /** A URL is accepted only when it starts with "kafka:", in any letter case. */
  lemma KafkaSchemeRequired(url: string)
    requires ParseKafkaUrl(url).Ok?
    ensures |url| > 5 && Lower(url[..5]) == "kafka" && url[5] == ':'
  {
    var i := IndexOf(url, ':').value;
    assert |Lower(url[..i])| == i;
    assert i == 5;
  }

  /**
   * The network location is cut at its first '@' only: the group is the part
   * before it, and the brokers are the comma-separated pieces of the rest, or of
   * the whole network location when there is no '@'.
   */
  lemma {:induction false} NetlocSplit(netloc: string)
    ensures var group, brokers := GroupAndBrokers(netloc).0, GroupAndBrokers(netloc).1;
      && |brokers| >= 1
      && (forall i :: 0 <= i < |brokers| ==> ',' !in brokers[i])
      && (group.None? ==> '@' !in netloc && Join(brokers, ',') == netloc)
      && (group.Some? ==> '@' !in group.value && netloc == group.value + "@" + Join(brokers, ','))
  {
    match IndexOf(netloc, '@')
    case None =>
      JoinSplit(netloc, ',');
    case Some(i) =>
      var group, rest := netloc[..i], netloc[i + 1..];
      assert GroupAndBrokers(netloc) == (Some(group), Split(rest, ','));
      JoinSplit(rest, ',');
      assert '@' !in group;
      assert netloc == group + "@" + rest;
  }

  /**
   * The topics are the path without its leading slashes, split at commas; an
   * empty remainder gives no topic list at all rather than an empty one.
   */
  lemma {:induction false} TopicsFromPath(path: string)
    ensures var topics, rest := TopicList(path), LStrip(path, '/');
      && (topics.None? <==> rest == "")
      && (topics.Some? ==> Join(topics.value, ',') == rest && |topics.value| >= 1)
      && (topics.Some? ==> forall i :: 0 <= i < |topics.value| ==> ',' !in topics.value[i])
  {
    JoinSplit(LStrip(path, '/'), ',');
  }

  /** A character that may appear in a group name or a broker address. */
  predicate NetlocChar(c: char)
  {
    c !in {'/', '?', '#', '@', ','}
  }

  /** A character that may appear in a topic name. */
  predicate TopicChar(c: char)
  {
    c !in {'/', '?', '#', ','}
  }

  function Netloc(k: KafkaUrl): string
  {
    (if k.group.Some? then k.group.value + "@" else "") + Join(k.brokers, ',')
  }

  function PathOf(k: KafkaUrl): string
  {
    if k.topics.Some? then "/" + Join(k.topics.value, ',') else ""
  }

  /** The URL text that names a group, brokers and topics. */
  function Compose(k: KafkaUrl): string
  {
    "kafka://" + Netloc(k) + PathOf(k)
  }

  predicate WellFormed(k: KafkaUrl)
  {
    && |k.brokers| >= 1
    && (k.group.Some? ==> forall j :: 0 <= j < |k.group.value| ==> NetlocChar(k.group.value[j]))
    && (forall i, j :: 0 <= i < |k.brokers| && 0 <= j < |k.brokers[i]| ==> NetlocChar(k.brokers[i][j]))
    && BracketsBalanced(Netloc(k))
    && (k.topics.Some? ==> |k.topics.value| >= 1)
    && (k.topics.Some? ==> forall i :: 0 <= i < |k.topics.value| ==> |k.topics.value[i]| >= 1)
    && (k.topics.Some? ==>
          forall i, j :: 0 <= i < |k.topics.value| && 0 <= j < |k.topics.value[i]| ==> TopicChar(k.topics.value[i][j]))
  }

  lemma NetlocAvoids(k: KafkaUrl, c: char)
    requires WellFormed(k)
    requires c in {'/', '?', '#'}
    ensures c !in Netloc(k)
  {
    JoinAvoids(k.brokers, ',', c);
  }

  lemma SchemeKafka(rest: string)
    ensures SplitScheme("kafka:" + rest) == ("kafka", rest)
  {
    var url := "kafka:" + rest;
    assert url == "kafka" + [':'] + rest;
    IndexOfFirst("kafka", ':', rest);
    assert url[..5] == "kafka";
    assert Lower("kafka") == "kafka";
    assert url[5 + 1..] == rest;
  }

  lemma SchemeOfComposed(k: KafkaUrl)
    ensures SplitScheme(Compose(k)) == ("kafka", "//" + Netloc(k) + PathOf(k))
  {
    var rest := "//" + Netloc(k) + PathOf(k);
    assert Compose(k) == "kafka:" + rest;
    SchemeKafka(rest);
  }

  /** The network location of "//" + n + p ends where p starts when p starts with '/'. */
  lemma NetlocBoundary(n: string, p: string)
    requires '/' !in n && '?' !in n && '#' !in n
    requires |p| > 0 ==> p[0] == '/'
    ensures PrefixWithout(n + p, NetlocEnd) == |n|
  {
    var s := n + p;
    assert forall j :: 0 <= j < |n| ==> s[j] == n[j];
    if |p| > 0 {
      assert s[|n|] == p[0];
    }
  }

  /** urlsplit of "kafka://" + n + p when n holds no delimiter and p is a plain path. */
  lemma UrlSplitNetlocPath(url: string, n: string, p: string)
    requires SplitScheme(url) == ("kafka", "//" + n + p)
    requires '/' !in n && '?' !in n && '#' !in n && BracketsBalanced(n)
    requires |p| > 0 ==> p[0] == '/'
    requires '?' !in p && '#' !in p
    ensures UrlSplit(url) == Ok(UrlParts("kafka", n, p, "", ""))
  {
    var rest := "//" + n + p;
    NetlocBoundary(n, p);
    assert rest[..2] == "//";
    assert rest[2..] == n + p;
    assert rest[2..2 + |n|] == n;
    assert rest[2 + |n|..] == p;
    assert SplitAtFirst(p, '#') == (p, "");
    assert SplitAtFirst(p, '?') == (p, "");
  }

  lemma UrlSplitOfComposed(k: KafkaUrl)
    requires WellFormed(k)
    ensures UrlSplit(Compose(k)) == Ok(UrlParts("kafka", Netloc(k), PathOf(k), "", ""))
  {
    SchemeOfComposed(k);
    NetlocAvoids(k, '/');
    NetlocAvoids(k, '?');
    NetlocAvoids(k, '#');
    var p := PathOf(k);
    if k.topics.Some? {
      JoinAvoids(k.topics.value, ',', '#');
      JoinAvoids(k.topics.value, ',', '?');
      assert p == "/" + Join(k.topics.value, ',');
    }
    assert '#' !in p && '?' !in p;
    UrlSplitNetlocPath(Compose(k), Netloc(k), p);
  }

  lemma NetlocOfComposed(k: KafkaUrl)
    requires WellFormed(k)
    ensures GroupAndBrokers(Netloc(k)) == (k.group, k.brokers)
  {
    var b := Join(k.brokers, ',');
    forall i | 0 <= i < |k.brokers| ensures '@' !in k.brokers[i] {
      assert forall j :: 0 <= j < |k.brokers[i]| ==> NetlocChar(k.brokers[i][j]);
    }
    JoinAvoids(k.brokers, ',', '@');
    SplitJoin(k.brokers, ',');
    if k.group.Some? {
      var g := k.group.value;
      assert '@' !in g;
      IndexOfFirst(g, '@', b);
      var n := g + ['@'] + b;
      assert Netloc(k) == n;
      assert n[..|g|] == g;
      assert n[|g| + 1..] == b;
      assert GroupAndBrokers(n) == (Some(g), Split(b, ','));
    } else {
      assert Netloc(k) == b;
      assert IndexOf(b, '@') == None;
    }
  }

  lemma PathOfComposed(k: KafkaUrl)
    requires WellFormed(k)
    ensures TopicList(PathOf(k)) == k.topics
  {
    if k.topics.Some? {
      var ts := k.topics.value;
      var j := Join(ts, ',');
      assert j[0] == ts[0][0];
      assert TopicChar(ts[0][0]);
      assert ("/" + j)[1..] == j;
      assert LStrip("/" + j, '/') == j;
      SplitJoin(ts, ',');
    }
  }

  /** Parsing the composed text gives back exactly the group, brokers and topics. */
  lemma ComposeRoundTrip(k: KafkaUrl)
    requires WellFormed(k)
    ensures ParseKafkaUrl(Compose(k)) == Ok(k)
  {
    UrlSplitOfComposed(k);
    NetlocOfComposed(k);
    PathOfComposed(k);
  }
}
