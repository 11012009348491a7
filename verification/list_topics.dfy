/**
 * `hop list-topics` (hop/list_topics.py): the broker and credential checks
 * before connecting, the restriction of the broker's topics to the ones asked
 * for, and the sorted listing.
 *
 * The topics the broker reports are an input.
 */
module ListTopics {
  import opened Basics
  import opened Text
  import opened Urls
  import opened Auth

  datatype ListError =
    | BadUrl(url: UrlError)
    | MultipleBrokers     // ValueError "Multiple broker addresses are not supported"
    | LoadFailed(load: AuthError)
    | SelectFailed(select: SelectError)

  /** The parsed URL and the credential to connect with (None with `--no-auth`). */
  function Access(fs: FileSystem, authPath: string, generalPath: string, url: string, noAuth: bool)
    : (r: Result<(KafkaUrl, Option<Credential>), ListError>)
    ensures ParseKafkaUrl(url).Err? ==> r == Err(BadUrl(ParseKafkaUrl(url).error))
    ensures r.Ok? ==> ParseKafkaUrl(url) == Ok(r.value.0) && |r.value.0.brokers| == 1
    ensures r.Ok? ==> (r.value.1.None? <==> noAuth)
  {
    AccessParsed(fs, authPath, generalPath, ParseKafkaUrl(url), noAuth)
  }

  /** Lines 12-18 once the URL has been parsed. */
  function AccessParsed(fs: FileSystem, authPath: string, generalPath: string, parsed: Result<KafkaUrl, UrlError>, noAuth: bool)
    : (r: Result<(KafkaUrl, Option<Credential>), ListError>)
    requires parsed.Ok? ==> |parsed.value.brokers| >= 1
    ensures parsed.Err? ==> r == Err(BadUrl(parsed.error))
    ensures r.Ok? ==> parsed == Ok(r.value.0) && |r.value.0.brokers| == 1
    ensures r.Ok? ==> (r.value.1.None? <==> noAuth)
  {
    match parsed
    case Err(e) => Err(BadUrl(e))
    case Ok(k) =>
      if |k.brokers| > 1 then Err(MultipleBrokers)
      else if noAuth then Ok((k, None))
      else
        match LoadAuth(fs, None, authPath, generalPath)
        case Err(e) => Err(LoadFailed(e))
        case Ok(creds) =>
          match Selection(creds, k.brokers[0], k.group)
          case Err(e) => Err(SelectFailed(e))
          case Ok(c) => Ok((k, Some(c)))
  }

  /** Several brokers are refused before any credential is looked at. */
  lemma MultipleBrokersRefused(fs: FileSystem, authPath: string, generalPath: string, url: string, noAuth: bool)
    requires ParseKafkaUrl(url).Ok? && |ParseKafkaUrl(url).value.brokers| > 1
    ensures Access(fs, authPath, generalPath, url, noAuth) == Err(MultipleBrokers)
  {
  }

  /**
   * With `--no-auth` nothing is read from the files and no credential is used;
   * otherwise the credential is the selection for the single broker and the
   * URL's user part.
   */
  lemma AuthGate(fs1: FileSystem, fs2: FileSystem, authPath: string, generalPath: string, url: string, noAuth: bool)
    ensures noAuth ==> Access(fs1, authPath, generalPath, url, true) == Access(fs2, authPath, generalPath, url, true)
    ensures var r := Access(fs1, authPath, generalPath, url, noAuth);
      r.Ok? ==> (r.value.1.None? <==> noAuth)
    ensures var r := Access(fs1, authPath, generalPath, url, noAuth);
      r.Ok? && !noAuth ==>
        && LoadAuth(fs1, None, authPath, generalPath).Ok?
        && r.value.1 == Some(Selection(LoadAuth(fs1, None, authPath, generalPath).value, r.value.0.brokers[0], r.value.0.group).value)
  {
    AccessGate(fs1, fs2, authPath, generalPath, ParseKafkaUrl(url), noAuth);
  }

  lemma AccessGate(fs1: FileSystem, fs2: FileSystem, authPath: string, generalPath: string,
                   parsed: Result<KafkaUrl, UrlError>, noAuth: bool)
    requires parsed.Ok? ==> |parsed.value.brokers| >= 1
    ensures noAuth ==> AccessParsed(fs1, authPath, generalPath, parsed, true) == AccessParsed(fs2, authPath, generalPath, parsed, true)
    ensures var r := AccessParsed(fs1, authPath, generalPath, parsed, noAuth);
      r.Ok? ==> (r.value.1.None? <==> noAuth)
    ensures var r := AccessParsed(fs1, authPath, generalPath, parsed, noAuth);
      r.Ok? && !noAuth ==>
        && r.value.0 == parsed.value
        && LoadAuth(fs1, None, authPath, generalPath).Ok?
        && r.value.1 == Some(Selection(LoadAuth(fs1, None, authPath, generalPath).value, r.value.0.brokers[0], r.value.0.group).value)
  {
  }

  // ---------------------------------------------------------------------------
  // Restricting the reported topics
  // ---------------------------------------------------------------------------

  /** The intended restriction: the reported topics that were asked for, or all of them. */
  function Restricted(reported: set<string>, query: Option<seq<string>>): set<string>
  {
    if query.None? then reported else set t | t in reported && t in query.value
  }

  /**
   * The restriction as a loop over a snapshot of the reported topics, removing
   * from the result each one that was not asked for.
   */
  method RestrictTopics(reported: set<string>, query: Option<seq<string>>) returns (valid: set<string>)
    ensures valid == Restricted(reported, query)
    ensures valid <= reported
    ensures query.Some? ==> forall t :: t in valid <==> t in reported && t in query.value
  {
    valid := reported;
    if query.None? {
      return;
    }
    var remaining := reported;
    while remaining != {}
      invariant remaining <= reported
      invariant valid == set t | t in reported && (t in remaining || t in query.value)
      decreases |remaining|
    {
      var topic :| topic in remaining;
      if topic !in query.value {
        valid := valid - {topic};
      }
      remaining := remaining - {topic};
    }
  }

  /** Restricting never adds a topic and never drops one that was asked for. */
  lemma RestrictedBounds(reported: set<string>, query: Option<seq<string>>)
    ensures Restricted(reported, query) <= reported
    ensures query.Some? ==> forall t :: t in reported && t in query.value ==> t in Restricted(reported, query)
    ensures Restricted(Restricted(reported, query), query) == Restricted(reported, query)
  {
  }

  /**
   * The loop as written deletes, by key, from the collection it is iterating
   * over. The client reports the topics as a set, which has no item deletion
   * (TypeError); a mapping would instead raise at the next step of the
   * iteration (RuntimeError). Either way the first reported topic that was not
   * asked for ends the command.
   */
  datatype IterationError = DeletedWhileIterating

  function RestrictAsWritten(reported: set<string>, query: Option<seq<string>>): (r: Result<set<string>, IterationError>)
    ensures r.Err? <==> Restricted(reported, query) != reported
    ensures r.Ok? ==> r.value == Restricted(reported, query)
  {
    if query.Some? && exists t :: t in reported && t !in query.value then Err(DeletedWhileIterating)
    else Ok(reported)
  }

  /** Asking for one topic the broker has and one it does not is enough to make the loop raise. */
  lemma RestrictAsWrittenFails()
    ensures RestrictAsWritten({"foo", "bar"}, Some(["foo", "baz"])) == Err(DeletedWhileIterating)
    ensures Restricted({"foo", "bar"}, Some(["foo", "baz"])) == {"foo"}
  {
    assert "bar" in {"foo", "bar"} && "bar" !in ["foo", "baz"];
  }

  // ---------------------------------------------------------------------------
  // Output
  // ---------------------------------------------------------------------------

  predicate StrictlySorted(s: seq<string>)
  {
    forall i, j :: 0 <= i < j < |s| ==> Below(s[i], s[j])
  }

  /** A finite set of strings has a least element in code-point order. */
  lemma {:induction false} LeastExists(s: set<string>)
    requires s != {}
    ensures exists m :: m in s && forall x :: x in s ==> !Below(x, m)
    decreases |s|
  {
    var y :| y in s;
    var rest := s - {y};
    if rest == {} {
      BelowIrreflexive(y);
      assert s == rest + {y};
    } else {
      LeastExists(rest);
      var m :| m in rest && forall x :: x in rest ==> !Below(x, m);
      if Below(y, m) {
        BelowIrreflexive(y);
        forall x | x in s
          ensures !Below(x, y)
        {
          if x != y && Below(x, y) {
            BelowTransitive(x, y, m);
          }
        }
      } else {
        BelowIrreflexive(m);
        assert forall x :: x in s ==> !Below(x, m);
      }
    }
  }

  /**
   * The printed lines for a set of topics: a notice when it is empty, otherwise
   * a header and one indented line per topic, in sorted order.
   */
  ghost predicate IsListing(lines: seq<string>, valid: set<string>)
  {
    if |valid| == 0 then lines == ["No accessible topics"]
    else
      && |lines| == |valid| + 1 && lines[0] == "Accessible topics:"
      && exists topics: seq<string> ::
           && StrictlySorted(topics)
           && (forall t :: t in topics <==> t in valid)
           && |topics| == |valid|
           && (forall i :: 0 <= i < |topics| ==> lines[i + 1] == " " + topics[i])
  }

  /** The lines printed for the restricted topics. */
  method Listing(valid: set<string>) returns (lines: seq<string>)
    ensures IsListing(lines, valid)
  {
    if |valid| == 0 {
      return ["No accessible topics"];
    }
    var topics: seq<string> := [];
    var remaining := valid;
    while remaining != {}
      invariant remaining <= valid
      invariant forall t :: t in topics <==> t in valid && t !in remaining
      invariant |topics| + |remaining| == |valid|
      invariant StrictlySorted(topics)
      invariant forall i, x :: 0 <= i < |topics| && x in remaining ==> Below(topics[i], x)
      decreases |remaining|
    {
      LeastExists(remaining);
      var m :| m in remaining && forall x :: x in remaining ==> !Below(x, m);
      forall x | x in remaining - {m}
        ensures Below(m, x)
      {
        BelowTotal(m, x);
      }
      topics := topics + [m];
      remaining := remaining - {m};
    }
    lines := ["Accessible topics:"];
    for i := 0 to |topics|
      invariant |lines| == i + 1 && lines[0] == "Accessible topics:"
      invariant forall j :: 0 <= j < i ==> lines[j + 1] == " " + topics[j]
    {
      lines := lines + [" " + topics[i]];
    }
  }

  /**
   * hop/list_topics.py _main with the snapshot restriction: check the URL and
   * credentials, restrict what the broker reports, and list the result.
   */
  method ListTopicsCommand(fs: FileSystem, authPath: string, generalPath: string, url: string, noAuth: bool,
              reported: set<string>) returns (r: Result<seq<string>, ListError>)
    ensures r.Err? <==> Access(fs, authPath, generalPath, url, noAuth).Err?
    ensures r.Err? ==> r.error == Access(fs, authPath, generalPath, url, noAuth).error
    ensures r.Ok? ==> IsListing(r.value, Restricted(reported, Access(fs, authPath, generalPath, url, noAuth).value.0.topics))
  {
    var access := Access(fs, authPath, generalPath, url, noAuth);
    if access.Err? {
      return Err(access.error);
    }
    var valid := RestrictTopics(reported, access.value.0.topics);
    var lines := Listing(valid);
    return Ok(lines);
  }
}
