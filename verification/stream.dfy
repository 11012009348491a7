/**
 * Opening a stream (hop/io.py Stream and _generate_group_id): the order in
 * which a URL, its brokers and topics, the credentials and the mode are
 * checked, and which end of the stream is built from them.
 *
 * The file system, the default configuration paths and the random source are
 * inputs. `draw(i)` is the i-th number the random source hands out; the i-th
 * character of a generated group ID is the alphabet entry it selects.
 */
module Streams {
  import opened Basics
  import opened Text
  import opened Urls
  import opened Auth
  import Clients

  /** What the `auth` argument of Stream held. */
  datatype AuthArgument = Flag(enabled: bool) | One(credential: Credential) | Many(credentials: seq<Credential>) | NoneGiven

  /** What Stream keeps: a flag, or a list of credentials (a single one is wrapped), or None. */
  datatype StoredAuth = StoredFlag(enabled: bool) | StoredList(credentials: seq<Credential>) | StoredNone

  datatype Stream = Stream(auth: StoredAuth, startAt: Clients.StartPosition, persist: bool)

  /** hop/io.py Stream.__init__. */
  function NewStream(auth: AuthArgument, startAt: Clients.StartPosition, persist: bool): (s: Stream)
    ensures auth.One? ==> s.auth == StoredList([auth.credential])
    ensures s.startAt == startAt && s.persist == persist
  {
    var stored := match auth
      case Flag(b) => StoredFlag(b)
      case One(c) => StoredList([c])
      case Many(cs) => StoredList(cs)
      case NoneGiven => StoredNone;
    Stream(stored, startAt, persist)
  }

  /** Where the default credentials live. */
  datatype ConfigPaths = ConfigPaths(authPath: string, generalPath: string)

  /** The `auth` property of Stream: load the configured credentials when the flag is set. */
  function StreamCredentials(s: Stream, fs: FileSystem, paths: ConfigPaths): (r: Result<Option<seq<Credential>>, AuthError>)
    ensures s.auth == StoredFlag(false) || s.auth.StoredNone? ==> r == Ok(None)
    ensures s.auth.StoredList? ==> r == Ok(Some(s.auth.credentials))
    ensures s.auth == StoredFlag(true) ==>
      && (LoadAuth(fs, None, paths.authPath, paths.generalPath).Ok? ==>
            r == Ok(Some(LoadAuth(fs, None, paths.authPath, paths.generalPath).value)))
      && (LoadAuth(fs, None, paths.authPath, paths.generalPath).Err? ==>
            r == Err(LoadAuth(fs, None, paths.authPath, paths.generalPath).error))
    ensures r.Ok? && r.value.None? <==> s.auth == StoredFlag(false) || s.auth.StoredNone?
  {
    match s.auth
    case StoredFlag(enabled) =>
      if enabled then
        match LoadAuth(fs, None, paths.authPath, paths.generalPath)
        case Ok(creds) => Ok(Some(creds))
        case Err(e) => Err(e)
      else Ok(None)
    case StoredList(cs) => Ok(Some(cs))
    case StoredNone => Ok(None)
  }

  const Alphanumeric: string := "ABCDEFGHIJKLMNOPQRSTUVWXYZ0123456789"

  /** The `n` characters of _generate_group_id, each picked by the `i`-th draw. */
  function RandomSuffix(n: nat, draw: nat -> nat): (r: string)
    ensures |r| == n
  {
    seq(n, i requires 0 <= i < n => Alphanumeric[draw(i) % |Alphanumeric|])
  }

  /** hop/io.py _generate_group_id. */
  function GenerateGroupId(user: Option<string>, n: nat, draw: nat -> nat): (r: string)
    ensures |r| == n + (if user.Some? then |user.value| + 1 else 0)
    ensures r[|r| - n..] == RandomSuffix(n, draw)
    ensures user.Some? ==> r[..|user.value| + 1] == user.value + "-"
  {
    var suffix := RandomSuffix(n, draw);
    if user.None? then suffix else user.value + "-" + suffix
  }

  lemma SuffixAlphanumeric(n: nat, draw: nat -> nat)
    ensures forall i :: 0 <= i < n ==> 'A' <= RandomSuffix(n, draw)[i] <= 'Z' || '0' <= RandomSuffix(n, draw)[i] <= '9'
  {
    forall i | 0 <= i < n
      ensures 'A' <= RandomSuffix(n, draw)[i] <= 'Z' || '0' <= RandomSuffix(n, draw)[i] <= '9'
    {
      var k := draw(i) % |Alphanumeric|;
      assert RandomSuffix(n, draw)[i] == Alphanumeric[k];
    }
  }

  /**
   * A generated ID ends in `n` characters drawn from A-Z and 0-9, and it is
   * prefixed by the username and a '-' exactly when a username is given.
   */
  lemma GroupIdShape(user: Option<string>, n: nat, draw: nat -> nat)
    ensures var id := GenerateGroupId(user, n, draw);
      && |id| == n + (if user.Some? then |user.value| + 1 else 0)
      && (forall i :: |id| - n <= i < |id| ==> 'A' <= id[i] <= 'Z' || '0' <= id[i] <= '9')
      && (user.Some? ==> id[..|user.value| + 1] == user.value + "-")
  {
    var id := GenerateGroupId(user, n, draw);
    var suffix := RandomSuffix(n, draw);
    SuffixAlphanumeric(n, draw);
    assert id[|id| - n..] == suffix;
    forall i | |id| - n <= i < |id|
      ensures 'A' <= id[i] <= 'Z' || '0' <= id[i] <= '9'
    {
      assert id[i] == suffix[i - (|id| - n)];
    }
  }

  /** The failures of Stream.open, in the order they are checked. */
  datatype OpenError =
    | BadUrl(url: UrlError)
    | MultipleBrokers          // ValueError "Multiple broker addresses are not supported"
    | NoTopics                 // ValueError "no topic(s) specified in kafka URL"
    | LoadFailed(load: AuthError)
    | SelectFailed(select: SelectError)
    | NotOneTopic              // ValueError "must specify exactly one topic in write mode"
    | BadMode                  // ValueError "mode must be either 'w' or 'r'"

  /** The end of the stream that open builds: the arguments of the Producer or Consumer constructor. */
  datatype Handle =
    | ProducerHandle(brokers: seq<string>, topic: string, auth: Option<Credential>)
    | ConsumerHandle(groupId: string, brokers: seq<string>, topics: seq<string>,
                     startAt: Clients.StartPosition, auth: Option<Credential>, readForever: bool)

  /** The credential for the URL's broker and user part, when credentials are in use. */
  function CredentialFor(s: Stream, fs: FileSystem, paths: ConfigPaths, k: KafkaUrl)
    : (r: Result<Option<Credential>, OpenError>)
    requires |k.brokers| >= 1
    ensures StreamCredentials(s, fs, paths).Err? ==> r == Err(LoadFailed(StreamCredentials(s, fs, paths).error))
    ensures r == Ok(None) <==> StreamCredentials(s, fs, paths) == Ok(None)
    ensures r.Err? && r.error.SelectFailed? ==>
      && StreamCredentials(s, fs, paths).Ok? && StreamCredentials(s, fs, paths).value.Some?
      && Selection(StreamCredentials(s, fs, paths).value.value, k.brokers[0], k.group) == Err(r.error.select)
    ensures r.Ok? && r.value.Some? ==>
      && StreamCredentials(s, fs, paths).Ok? && StreamCredentials(s, fs, paths).value.Some?
      && r.value.value in StreamCredentials(s, fs, paths).value.value
      && Admissible(r.value.value, k.brokers[0], k.group)
  {
    match StreamCredentials(s, fs, paths)
    case Err(e) => Err(LoadFailed(e))
    case Ok(None) => Ok(None)
    case Ok(Some(creds)) =>
      match Selection(creds, k.brokers[0], k.group)
      case Err(e) => Err(SelectFailed(e))
      case Ok(c) => SelectedIsAdmissibleInput(creds, k.brokers[0], k.group); Ok(Some(c))
  }

  /** hop/io.py Stream.open. */
  function Open(s: Stream, fs: FileSystem, paths: ConfigPaths, url: string, mode: string,
                groupId: Option<string>, draw: nat -> nat): (r: Result<Handle, OpenError>)
    ensures ParseKafkaUrl(url).Err? ==> r == Err(BadUrl(ParseKafkaUrl(url).error))
    ensures r.Ok? ==> ParseKafkaUrl(url).Ok? && r.value.brokers == ParseKafkaUrl(url).value.brokers && |r.value.brokers| == 1
    ensures r.Ok? ==> (mode == "w" <==> r.value.ProducerHandle?) && (mode == "r" <==> r.value.ConsumerHandle?)
  {
    OpenParsed(s, fs, paths, ParseKafkaUrl(url), mode, groupId, draw)
  }

  /** Stream.open once the URL has been parsed. */
  function OpenParsed(s: Stream, fs: FileSystem, paths: ConfigPaths, parsed: Result<KafkaUrl, UrlError>, mode: string,
                      groupId: Option<string>, draw: nat -> nat): (r: Result<Handle, OpenError>)
    requires parsed.Ok? ==> |parsed.value.brokers| >= 1
    ensures parsed.Err? ==> r == Err(BadUrl(parsed.error))
    ensures r.Ok? ==> parsed.Ok? && r.value.brokers == parsed.value.brokers && |r.value.brokers| == 1
    ensures r.Ok? ==> (mode == "w" <==> r.value.ProducerHandle?) && (mode == "r" <==> r.value.ConsumerHandle?)
  {
    match parsed
    case Err(e) => Err(BadUrl(e))
    case Ok(k) =>
      if |k.brokers| > 1 then Err(MultipleBrokers)
      else if k.topics.None? then Err(NoTopics)
      else
        match CredentialFor(s, fs, paths, k)
        case Err(e) => Err(e)
        case Ok(credential) =>
          if mode == "w" then
            if |k.topics.value| != 1 then Err(NotOneTopic)
            else Ok(ProducerHandle(k.brokers, k.topics.value[0], credential))
          else if mode == "r" then
            var group := if groupId.Some? then groupId.value
                         else GenerateGroupId(if credential.Some? then Some(credential.value.username) else None, 10, draw);
            Ok(ConsumerHandle(group, k.brokers, k.topics.value, s.startAt, credential, s.persist))
          else Err(BadMode)
  }

  lemma OpenViaParsed(s: Stream, fs: FileSystem, paths: ConfigPaths, url: string, mode: string,
                      groupId: Option<string>, draw: nat -> nat)
    ensures Open(s, fs, paths, url, mode, groupId, draw) == OpenParsed(s, fs, paths, ParseKafkaUrl(url), mode, groupId, draw)
  {
  }

  /** The facts below, for an already parsed URL. */
  lemma OpenParsedFacts(s: Stream, fs: FileSystem, paths: ConfigPaths, parsed: Result<KafkaUrl, UrlError>, mode: string,
                        groupId: Option<string>, draw: nat -> nat)
    requires parsed.Ok? ==> |parsed.value.brokers| >= 1
    ensures var r := OpenParsed(s, fs, paths, parsed, mode, groupId, draw);
      && (parsed.Ok? && |parsed.value.brokers| > 1 ==> r == Err(MultipleBrokers))
      && (parsed.Ok? && |parsed.value.brokers| == 1 && parsed.value.topics.None? ==> r == Err(NoTopics))
      && ((parsed.Ok? && |parsed.value.brokers| == 1 && parsed.value.topics.Some? && CredentialFor(s, fs, paths, parsed.value).Err?)
            ==> r == Err(CredentialFor(s, fs, paths, parsed.value).error))
      && (r.Err? && r.error in {NotOneTopic, BadMode} ==> parsed.Ok? && CredentialFor(s, fs, paths, parsed.value).Ok?)
      && ((parsed.Ok? && |parsed.value.brokers| == 1 && parsed.value.topics.Some? && CredentialFor(s, fs, paths, parsed.value).Ok?)
            ==> && (mode == "w" && |parsed.value.topics.value| != 1 ==> r == Err(NotOneTopic))
                && (mode != "w" && mode != "r" ==> r == Err(BadMode)))
      && (r.Ok? ==>
            && parsed.Ok? && |parsed.value.brokers| == 1
            && CredentialFor(s, fs, paths, parsed.value).Ok?
            && r.value.auth == CredentialFor(s, fs, paths, parsed.value).value
            && r.value.brokers == parsed.value.brokers
            && (mode == "w" <==> r.value.ProducerHandle?)
            && (mode == "r" <==> r.value.ConsumerHandle?)
            && (r.value.ProducerHandle? ==> parsed.value.topics == Some([r.value.topic]))
            && (r.value.ConsumerHandle? ==>
                  && parsed.value.topics == Some(r.value.topics)
                  && r.value.startAt == s.startAt && r.value.readForever == s.persist
                  && r.value.groupId == if groupId.Some? then groupId.value
                                       else GenerateGroupId(if r.value.auth.Some? then Some(r.value.auth.value.username) else None, 10, draw)))
  {
    if parsed.Ok? && parsed.value.topics.Some? && |parsed.value.topics.value| == 1 {
      var ts := parsed.value.topics.value;
      assert ts == [ts[0]];
    }
  }

  /** A URL naming several brokers is refused before credentials, topics or mode are looked at. */
  lemma MultipleBrokersFirst(s: Stream, fs: FileSystem, paths: ConfigPaths, url: string, mode: string,
                             groupId: Option<string>, draw: nat -> nat)
    requires ParseKafkaUrl(url).Ok? && |ParseKafkaUrl(url).value.brokers| > 1
    ensures Open(s, fs, paths, url, mode, groupId, draw) == Err(MultipleBrokers)
  {
    OpenViaParsed(s, fs, paths, url, mode, groupId, draw);
    OpenParsedFacts(s, fs, paths, ParseKafkaUrl(url), mode, groupId, draw);
  }

  /** A URL without topics is refused next, still before any credential is loaded. */
  lemma NoTopicsBeforeCredentials(s: Stream, fs: FileSystem, paths: ConfigPaths, url: string, mode: string,
                                  groupId: Option<string>, draw: nat -> nat)
    requires ParseKafkaUrl(url).Ok? && |ParseKafkaUrl(url).value.brokers| <= 1
    requires ParseKafkaUrl(url).value.topics.None?
    ensures Open(s, fs, paths, url, mode, groupId, draw) == Err(NoTopics)
  {
    OpenViaParsed(s, fs, paths, url, mode, groupId, draw);
    OpenParsedFacts(s, fs, paths, ParseKafkaUrl(url), mode, groupId, draw);
  }

  /**
   * Credential problems are reported before the mode is looked at: an unknown
   * mode or a write with several topics only shows once credentials resolve.
   */
  lemma CredentialsBeforeMode(s: Stream, fs: FileSystem, paths: ConfigPaths, url: string, mode: string,
                              groupId: Option<string>, draw: nat -> nat)
    requires ParseKafkaUrl(url).Ok?
    ensures var k := ParseKafkaUrl(url).value;
      (|k.brokers| == 1 && k.topics.Some? && CredentialFor(s, fs, paths, k).Err?)
        ==> Open(s, fs, paths, url, mode, groupId, draw) == Err(CredentialFor(s, fs, paths, k).error)
    ensures Open(s, fs, paths, url, mode, groupId, draw).Err?
            && Open(s, fs, paths, url, mode, groupId, draw).error in {NotOneTopic, BadMode}
        ==> CredentialFor(s, fs, paths, ParseKafkaUrl(url).value).Ok?
    ensures var k := ParseKafkaUrl(url).value;
      (|k.brokers| == 1 && k.topics.Some? && CredentialFor(s, fs, paths, k).Ok?)
        ==> && (mode == "w" && |k.topics.value| != 1 ==> Open(s, fs, paths, url, mode, groupId, draw) == Err(NotOneTopic))
            && (mode != "w" && mode != "r" ==> Open(s, fs, paths, url, mode, groupId, draw) == Err(BadMode))
  {
    OpenViaParsed(s, fs, paths, url, mode, groupId, draw);
    OpenParsedFacts(s, fs, paths, ParseKafkaUrl(url), mode, groupId, draw);
  }

  /** With authentication switched off no file is read and no credential is used. */
  lemma DisabledAuthIgnoresFiles(startAt: Clients.StartPosition, persist: bool, fs1: FileSystem, fs2: FileSystem,
                                 paths: ConfigPaths, url: string, mode: string, groupId: Option<string>, draw: nat -> nat)
    ensures var s := NewStream(Flag(false), startAt, persist);
      Open(s, fs1, paths, url, mode, groupId, draw) == Open(s, fs2, paths, url, mode, groupId, draw)
    ensures var s := NewStream(Flag(false), startAt, persist);
      Open(s, fs1, paths, url, mode, groupId, draw).Ok? ==> Open(s, fs1, paths, url, mode, groupId, draw).value.auth.None?
  {
    var s := NewStream(Flag(false), startAt, persist);
    OpenViaParsed(s, fs1, paths, url, mode, groupId, draw);
    OpenViaParsed(s, fs2, paths, url, mode, groupId, draw);
    DisabledAuthParsed(s, fs1, fs2, paths, ParseKafkaUrl(url), mode, groupId, draw);
  }

  lemma DisabledAuthParsed(s: Stream, fs1: FileSystem, fs2: FileSystem, paths: ConfigPaths,
                           parsed: Result<KafkaUrl, UrlError>, mode: string, groupId: Option<string>, draw: nat -> nat)
    requires s.auth == StoredFlag(false)
    requires parsed.Ok? ==> |parsed.value.brokers| >= 1
    ensures OpenParsed(s, fs1, paths, parsed, mode, groupId, draw) == OpenParsed(s, fs2, paths, parsed, mode, groupId, draw)
    ensures OpenParsed(s, fs1, paths, parsed, mode, groupId, draw).Ok? ==> OpenParsed(s, fs1, paths, parsed, mode, groupId, draw).value.auth.None?
  {
    if parsed.Ok? {
      var k := parsed.value;
      assert CredentialFor(s, fs1, paths, k) == Ok(None) == CredentialFor(s, fs2, paths, k);
    }
  }

  /**
   * When credentials are in use, the one chosen is the selection for the URL's
   * single broker with the URL's user part as the username.
   */
  lemma CredentialSelectedForBroker(s: Stream, fs: FileSystem, paths: ConfigPaths, url: string, mode: string,
                                    groupId: Option<string>, draw: nat -> nat)
    requires Open(s, fs, paths, url, mode, groupId, draw).Ok?
    requires StreamCredentials(s, fs, paths).Ok? && StreamCredentials(s, fs, paths).value.Some?
    ensures ParseKafkaUrl(url).Ok?
    ensures var k, h := ParseKafkaUrl(url).value, Open(s, fs, paths, url, mode, groupId, draw).value;
      && |k.brokers| == 1
      && Selection(StreamCredentials(s, fs, paths).value.value, k.brokers[0], k.group).Ok?
      && h.auth == Some(Selection(StreamCredentials(s, fs, paths).value.value, k.brokers[0], k.group).value)
  {
    OpenViaParsed(s, fs, paths, url, mode, groupId, draw);
    OpenParsedFacts(s, fs, paths, ParseKafkaUrl(url), mode, groupId, draw);
  }

  /** Write mode opens a producer on the one topic; read mode a consumer on all of them. */
  lemma OpenedEnd(s: Stream, fs: FileSystem, paths: ConfigPaths, url: string, mode: string,
                  groupId: Option<string>, draw: nat -> nat)
    requires Open(s, fs, paths, url, mode, groupId, draw).Ok?
    ensures ParseKafkaUrl(url).Ok?
    ensures var k, h := ParseKafkaUrl(url).value, Open(s, fs, paths, url, mode, groupId, draw).value;
      && (mode == "w" <==> h.ProducerHandle?)
      && (mode == "r" <==> h.ConsumerHandle?)
      && h.brokers == k.brokers && |k.brokers| == 1
      && (h.ProducerHandle? ==> k.topics == Some([h.topic]))
      && (h.ConsumerHandle? ==> k.topics == Some(h.topics) && h.startAt == s.startAt && h.readForever == s.persist)
  {
    OpenViaParsed(s, fs, paths, url, mode, groupId, draw);
    OpenParsedFacts(s, fs, paths, ParseKafkaUrl(url), mode, groupId, draw);
  }

  /**
   * In read mode a given group ID is used as is; without one, the generated
   * ID carries the selected credential's username as its prefix, or no prefix
   * when no credential is in use.
   */
  lemma ConsumerGroupId(s: Stream, fs: FileSystem, paths: ConfigPaths, url: string,
                        groupId: Option<string>, draw: nat -> nat)
    requires Open(s, fs, paths, url, "r", groupId, draw).Ok?
    ensures var h := Open(s, fs, paths, url, "r", groupId, draw).value;
      && h.ConsumerHandle?
      && h.groupId == if groupId.Some? then groupId.value
                      else GenerateGroupId(if h.auth.Some? then Some(h.auth.value.username) else None, 10, draw)
  {
    OpenViaParsed(s, fs, paths, url, "r", groupId, draw);
    OpenParsedFacts(s, fs, paths, ParseKafkaUrl(url), "r", groupId, draw);
  }
}
