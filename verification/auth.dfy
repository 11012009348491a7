/**
 * Credentials (hop/auth.py): reading them from a configuration file, turning
 * parsed TOML records into credentials, and choosing the one credential that
 * applies to a broker.
 *
 * The file system is a snapshot from paths to files; a file carries its mode
 * bits and its already-parsed TOML document (or the fact that it does not
 * parse).
 */
module Auth {
  import opened Basics
  import opened Text
  import opened Values

  /** The SASL mechanisms of adc's SASLMethod. */
  datatype Mechanism = Plain | ScramSha256 | ScramSha512 | Gssapi | OAuthBearer

  function MechanismName(m: Mechanism): string
  {
    match m
    case Plain => "PLAIN"
    case ScramSha256 => "SCRAM_SHA_256"
    case ScramSha512 => "SCRAM_SHA_512"
    case Gssapi => "GSSAPI"
    case OAuthBearer => "OAUTHBEARER"
  }

  /** `SASLMethod[name]`: a lookup by exact member name. */
  function MechanismNamed(name: string): (r: Option<Mechanism>)
    ensures r.None? ==> forall m: Mechanism :: MechanismName(m) != name
    ensures r.Some? ==> MechanismName(r.value) == name
  {
    if name == "PLAIN" then Some(Plain)
    else if name == "SCRAM_SHA_256" then Some(ScramSha256)
    else if name == "SCRAM_SHA_512" then Some(ScramSha512)
    else if name == "GSSAPI" then Some(Gssapi)
    else if name == "OAUTHBEARER" then Some(OAuthBearer)
    else None
  }

  /** An `Auth` object: the fields the client reads, plus what it hands to the SASL layer. */
  datatype Credential = Credential(
    username: string,
    password: Value,
    hostname: string,
    ssl: bool,
    mechanism: Mechanism,
    sslCaLocation: Option<Value>)

  /** The exceptions loading can raise. */
  datatype AuthError =
    | FileNotFound(path: string)                    // FileNotFoundError
    | UnsafePermissions(path: string, mode: bv32)   // RuntimeError
    | TomlSyntax(path: string)                      // the TOML parser's error
    | MissingAuthSection                            // KeyError: 'auth'
    | NotConfiguredCorrectly                        // KeyError from a credential entry
    | UnknownMechanism(name: string)                // KeyError from SASLMethod[name]
    | WrongType                                     // TypeError / AttributeError
    | UnsupportedFieldType(key: string)             // a non-string username or hostname
  {
    predicate IsKeyError()
    {
      MissingAuthSection? || NotConfiguredCorrectly? || UnknownMechanism?
    }
  }

  // ---------------------------------------------------------------------------
  // _interpret_auth_data
  // ---------------------------------------------------------------------------

  /** One TOML record turned into a credential (the body of the loop in _interpret_auth_data). */
  function InterpretEntry(entry: Value): (r: Result<Credential, AuthError>)
    ensures !entry.Table? ==> r == Err(WrongType)
    ensures entry.Table? && ("username" !in entry.fields || "password" !in entry.fields) ==> r == Err(NotConfiguredCorrectly)
    ensures r.Ok? ==> entry.Table? && "username" in entry.fields && "password" in entry.fields
                      && entry.fields["username"] == Str(r.value.username) && r.value.password == entry.fields["password"]
    ensures r.Err? ==> r.error.NotConfiguredCorrectly? || r.error.WrongType? || r.error.UnknownMechanism?
                       || r.error.UnsupportedFieldType?
  {
    match entry
    case Table(m) =>
      var plaintext := "protocol" in m && m["protocol"] == Str("SASL_PLAINTEXT");
      var caLocation := if !plaintext && "ssl_ca_location" in m then Some(m["ssl_ca_location"]) else None;
      if "username" !in m || "password" !in m then Err(NotConfiguredCorrectly)
      else if "mechanism" in m && !m["mechanism"].Str? then Err(WrongType)
      else
        var name := if "mechanism" in m then ReplaceChar(m["mechanism"].s, '-', '_') else "SCRAM_SHA_512";
        var mechanism := MechanismNamed(name);
        if mechanism.None? then Err(UnknownMechanism(name))
        else if !m["username"].Str? then Err(UnsupportedFieldType("username"))
        else if "hostname" in m && !m["hostname"].Str? then Err(UnsupportedFieldType("hostname"))
        else
          var host := if "hostname" in m then m["hostname"].s else "";
          Ok(Credential(m["username"].s, m["password"], host, !plaintext, mechanism.value, caLocation))
    case _ => Err(WrongType)
  }

  /** The records the loop visits: a single table is upgraded to a one-record list. */
  function AuthEntries(authData: Value): (r: Result<seq<Value>, AuthError>)
  {
    match authData
    case Table(_) => Ok([authData])
    case Arr(items) => Ok(items)
    case Str(s) => Ok(seq(|s|, i requires 0 <= i < |s| => Str([s[i]])))
    case _ => Err(WrongType)
  }

  /** Every record in order; the first record that fails decides the error. */
  function InterpretEntries(entries: seq<Value>): (r: Result<seq<Credential>, AuthError>)
    ensures r.Ok? ==> |r.value| == |entries|
    ensures r.Ok? ==> forall i :: 0 <= i < |entries| ==> InterpretEntry(entries[i]) == Ok(r.value[i])
    ensures r.Err? ==> exists i :: 0 <= i < |entries| && InterpretEntry(entries[i]) == Err(r.error)
                                   && forall j :: 0 <= j < i ==> InterpretEntry(entries[j]).Ok?
  {
    if |entries| == 0 then Ok([])
    else
      match InterpretEntry(entries[0])
      case Err(e) => Err(e)
      case Ok(c) =>
        match InterpretEntries(entries[1..])
        case Err(e) =>
          ghost var i :| 0 <= i < |entries| - 1 && InterpretEntry(entries[1..][i]) == Err(e)
                         && forall j :: 0 <= j < i ==> InterpretEntry(entries[1..][j]).Ok?;
          assert InterpretEntry(entries[i + 1]) == Err(e);
          assert forall j :: 1 <= j < i + 1 ==> entries[j] == entries[1..][j - 1];
          Err(e)
        case Ok(cs) => Ok([c] + cs)
  }

  /** hop/auth.py _interpret_auth_data, as a value. */
  function Interpreted(authData: Value): Result<seq<Credential>, AuthError>
  {
    match AuthEntries(authData)
    case Err(e) => Err(e)
    case Ok(entries) => InterpretEntries(entries)
  }

  /** hop/auth.py _interpret_auth_data: the loop that appends one credential per record. */
  method InterpretAuthData(authData: Value) returns (r: Result<seq<Credential>, AuthError>)
    ensures r == Interpreted(authData)
  {
    var entries: seq<Value>;
    match authData {
      case Table(_) =>
        entries := [authData];
      case Arr(items) =>
        entries := items;
      case Str(s) =>
        entries := seq(|s|, i requires 0 <= i < |s| => Str([s[i]]));
      case _ =>
        return Err(WrongType);
    }
    assert AuthEntries(authData) == Ok(entries);
    var auth: seq<Credential> := [];
    for i := 0 to |entries|
      invariant |auth| == i
      invariant forall j :: 0 <= j < i ==> InterpretEntry(entries[j]) == Ok(auth[j])
    {
      var entry := InterpretEntry(entries[i]);
      if entry.Err? {
        FirstFailureDecides(entries, i);
        return Err(entry.error);
      }
      auth := auth + [entry.value];
    }
    AllSucceed(entries, auth);
    return Ok(auth);
  }

  lemma {:induction false} FirstFailureDecides(entries: seq<Value>, i: nat)
    requires i < |entries| && InterpretEntry(entries[i]).Err?
    requires forall j :: 0 <= j < i ==> InterpretEntry(entries[j]).Ok?
    ensures InterpretEntries(entries) == Err(InterpretEntry(entries[i]).error)
  {
    if i > 0 {
      var rest := entries[1..];
      assert rest[i - 1] == entries[i];
      assert forall j :: 0 <= j < i - 1 ==> rest[j] == entries[j + 1];
      FirstFailureDecides(rest, i - 1);
      assert InterpretEntry(entries[0]).Ok?;
    }
  }

  lemma AllSucceed(entries: seq<Value>, auth: seq<Credential>)
    requires |auth| == |entries|
    requires forall j :: 0 <= j < |entries| ==> InterpretEntry(entries[j]) == Ok(auth[j])
    ensures InterpretEntries(entries) == Ok(auth)
  {
    assert InterpretEntries(entries).value == auth;
  }

  /** A record with only a username and a password gets every default. */
  lemma EntryDefaults(user: string, password: Value)
    ensures InterpretEntry(Table(map["username" := Str(user), "password" := password]))
         == Ok(Credential(user, password, "", true, ScramSha512, None))
  {
    var m := map["username" := Str(user), "password" := password];
    assert "mechanism" !in m && "protocol" !in m && "hostname" !in m && "ssl_ca_location" !in m;
    assert MechanismNamed("SCRAM_SHA_512") == Some(ScramSha512);
  }

  /** A missing username or password fails the record, whatever else it holds. */
  lemma EntryMissingKey(m: map<string, Value>)
    requires "username" !in m || "password" !in m
    ensures InterpretEntry(Table(m)) == Err(NotConfiguredCorrectly)
  {
  }

  /**
   * SSL is on unless the protocol is SASL_PLAINTEXT; a CA location is kept only
   * when SSL is on; the hostname defaults to "" and the mechanism to
   * SCRAM_SHA_512, and a given mechanism name has its '-' turned into '_'.
   */
  lemma EntryOptions(m: map<string, Value>)
    requires InterpretEntry(Table(m)).Ok?
    ensures var c := InterpretEntry(Table(m)).value;
      && c.username == m["username"].s
      && c.password == m["password"]
      && (c.ssl <==> !("protocol" in m && m["protocol"] == Str("SASL_PLAINTEXT")))
      && (c.sslCaLocation.Some? <==> c.ssl && "ssl_ca_location" in m)
      && (c.sslCaLocation.Some? ==> c.sslCaLocation.value == m["ssl_ca_location"])
      && (c.hostname == if "hostname" in m then m["hostname"].s else "")
      && ("mechanism" !in m ==> c.mechanism == ScramSha512)
      && ("mechanism" in m ==> MechanismName(c.mechanism) == ReplaceChar(m["mechanism"].s, '-', '_'))
  {
  }

  /** The legacy single-table form reads exactly like a list holding that table. */
  lemma LegacyTableUpgraded(m: map<string, Value>)
    ensures Interpreted(Table(m)) == Interpreted(Arr([Table(m)]))
  {
  }

  // ---------------------------------------------------------------------------
  // load_auth
  // ---------------------------------------------------------------------------

  datatype FileContent = Parsed(doc: map<string, Value>) | Malformed

  datatype File = File(mode: bv32, content: FileContent)

  type FileSystem = map<string, File>

  /** 0o7077: set-id, sticky, group and other bits. */
  const DangerousPermMask: bv32 := 0xE3F

  predicate SafeMode(mode: bv32)
  {
    mode & DangerousPermMask == 0
  }

  /** `load_auth(config_file)` with an explicit path. */
  function LoadAuthFile(fs: FileSystem, path: string): (r: Result<seq<Credential>, AuthError>)
    ensures path !in fs ==> r == Err(FileNotFound(path))
    ensures r.Ok? ==> path in fs && SafeMode(fs[path].mode) && fs[path].content.Parsed? && "auth" in fs[path].content.doc
                      && r == Interpreted(fs[path].content.doc["auth"])
  {
    if path !in fs then Err(FileNotFound(path))
    else if !SafeMode(fs[path].mode) then Err(UnsafePermissions(path, fs[path].mode))
    else
      match fs[path].content
      case Malformed => Err(TomlSyntax(path))
      case Parsed(doc) =>
        if "auth" !in doc then Err(MissingAuthSection) else Interpreted(doc["auth"])
  }

  /**
   * hop/auth.py load_auth. Without an explicit path it reads the auth file, and
   * when that is missing but the general configuration file exists it reads the
   * credentials from there instead, turning a KeyError into a complaint about
   * the missing auth file.
   */
  function LoadAuth(fs: FileSystem, configFile: Option<string>, authPath: string, generalPath: string)
    : (r: Result<seq<Credential>, AuthError>)
    ensures r.Ok? ==> r == LoadAuthFile(fs, if configFile.Some? then configFile.value
                                            else if authPath in fs then authPath else generalPath)
    ensures r.Err? && r.error.IsKeyError() ==> configFile.Some? || authPath in fs
  {
    match configFile
    case Some(path) => LoadAuthFile(fs, path)
    case None =>
      if authPath !in fs && generalPath in fs then
        match LoadAuthFile(fs, generalPath)
        case Ok(creds) => Ok(creds)
        case Err(e) => if e.IsKeyError() then Err(FileNotFound(authPath)) else Err(e)
      else LoadAuthFile(fs, authPath)
  }

  /** Python's `format(n, "o")`. */
  function Octal(n: nat): (r: string)
    ensures |r| >= 1
    ensures forall i :: 0 <= i < |r| ==> '0' <= r[i] <= '7'
  {
    if n < 8 then [(48 + n) as char] else Octal(n / 8) + [(48 + n % 8) as char]
  }

  /** The number an octal numeral denotes. */
  function OctalValue(s: string): nat
    requires forall i :: 0 <= i < |s| ==> '0' <= s[i] <= '7'
  {
    if |s| == 0 then 0 else 8 * OctalValue(s[..|s| - 1]) + (s[|s| - 1] as int - 48)
  }

  /** The mode in the unsafe-permissions message reads back as the file's mode. */
  lemma {:induction false} OctalRoundTrip(n: nat)
    ensures OctalValue(Octal(n)) == n
  {
    if n >= 8 {
      OctalRoundTrip(n / 8);
      var r := Octal(n);
      assert r[..|r| - 1] == Octal(n / 8);
    }
  }

  /** The RuntimeError's text for a file with unsafe permissions. */
  function UnsafeMessage(path: string, mode: bv32): string
  {
    path + " has unsafe permissions: " + Octal(mode as nat) + "\nPlease correct it to 0600"
  }

  /** The message names the file and shows its mode in octal, in digits that read back as that mode. */
  lemma UnsafeMessageShowsMode(path: string, mode: bv32)
    ensures var m, prefix, digits := UnsafeMessage(path, mode), path + " has unsafe permissions: ", Octal(mode as nat);
      && StartsWith(m, prefix)
      && |prefix| + |digits| <= |m| && m[|prefix|..|prefix| + |digits|] == digits
      && OctalValue(digits) == mode as nat
  {
    OctalRoundTrip(mode as nat);
    var prefix, digits := path + " has unsafe permissions: ", Octal(mode as nat);
    var m := UnsafeMessage(path, mode);
    assert m == prefix + digits + "\nPlease correct it to 0600";
    assert m[..|prefix|] == prefix;
    assert m[|prefix|..|prefix| + |digits|] == digits;
  }

  /** The mask admits exactly the modes whose permission bits are owner bits only. */
  lemma SafeModeIsOwnerOnly(mode: bv32)
    ensures SafeMode(mode) <==> mode & 0xFFF == mode & 0x1C0
  {
  }

  /** Any group or other permission bit makes the file unsafe; 0600 is safe. */
  lemma GroupOrOtherBitUnsafe(mode: bv32)
    ensures mode & 0x3F != 0 ==> !SafeMode(mode)
    ensures SafeMode(0x8180)
  {
  }

  /** Unsafe permissions are reported before the content is looked at. */
  lemma UnsafeRejectedUnread(fs: FileSystem, path: string, mode: bv32, content: FileContent)
    requires !SafeMode(mode)
    ensures LoadAuthFile(fs[path := File(mode, content)], path) == Err(UnsafePermissions(path, mode))
  {
  }

  /** A document without an `auth` key is a KeyError. */
  lemma MissingSectionIsKeyError(fs: FileSystem, path: string)
    requires path in fs && SafeMode(fs[path].mode)
    requires fs[path].content.Parsed? && "auth" !in fs[path].content.doc
    ensures LoadAuthFile(fs, path) == Err(MissingAuthSection) && MissingAuthSection.IsKeyError()
  {
  }

  /** When the auth file exists, the general configuration file plays no part. */
  lemma AuthFileShadowsGeneral(fs: FileSystem, authPath: string, generalPath: string)
    requires authPath in fs
    ensures LoadAuth(fs, None, authPath, generalPath) == LoadAuthFile(fs, authPath)
  {
  }

  /**
   * With the auth file missing and the general file present, the general file's
   * credentials are used, its KeyErrors become FileNotFoundError for the auth
   * file, and its other errors pass through.
   */
  lemma FallbackToGeneral(fs: FileSystem, authPath: string, generalPath: string)
    requires authPath !in fs && generalPath in fs
    ensures var general := LoadAuthFile(fs, generalPath);
      && (general.Ok? ==> LoadAuth(fs, None, authPath, generalPath) == general)
      && (general.Err? && general.error.IsKeyError() ==> LoadAuth(fs, None, authPath, generalPath) == Err(FileNotFound(authPath)))
      && (general.Err? && !general.error.IsKeyError() ==> LoadAuth(fs, None, authPath, generalPath) == general)
  {
  }

  /** With neither file present the complaint is about the auth file. */
  lemma NeitherFile(fs: FileSystem, authPath: string, generalPath: string)
    requires authPath !in fs && generalPath !in fs
    ensures LoadAuth(fs, None, authPath, generalPath) == Err(FileNotFound(authPath))
  {
  }

  /** The default lookup only ever names the auth file as missing. */
  lemma {:induction false} MissingFileIsAuthFile(fs: FileSystem, authPath: string, generalPath: string, p: string)
    requires LoadAuth(fs, None, authPath, generalPath) == Err(FileNotFound(p))
    ensures p == authPath
  {
    if authPath !in fs && generalPath in fs {
      var general := LoadAuthFile(fs, generalPath);
      assert general.Err? ==> !general.error.FileNotFound?;
    }
  }

  // ---------------------------------------------------------------------------
  // select_matching_auth
  // ---------------------------------------------------------------------------

  datatype SelectError =
    | NoMatch(hostname: string, username: Option<string>)
    | Ambiguous(hostname: string, username: Option<string>, matches: seq<Credential>)
  {
    /** The RuntimeError's text. */
    function Message(): string
    {
      match this
      case NoMatch(h, u) =>
        "No matching credential found for hostname '" + h + "'"
        + (if u.Some? then " with username '" + u.value + "'" else "")
      case Ambiguous(h, u, ms) =>
        "Ambiguous credentials found for hostname '" + h + "'"
        + (if u.Some? then " with username '" + u.value + "'" else " with no username specified")
        + "Matched credentials:" + MatchLines(ms)
    }
  }

  function MatchLines(ms: seq<Credential>): string
  {
    if |ms| == 0 then ""
    else
      "\n  " + ms[0].username
      + (if |ms[0].hostname| == 0 then " which has no associated hostname" else " for " + ms[0].hostname)
      + MatchLines(ms[1..])
  }

  /** A credential survives the filter: its hostname is empty or the requested one, and its username the given one. */
  predicate Admissible(c: Credential, hostname: string, username: Option<string>)
  {
    (|c.hostname| == 0 || c.hostname == hostname) && (username.None? || c.username == username.value)
  }

  predicate IsExact(c: Credential, hostname: string)
  {
    |c.hostname| > 0 && c.hostname == hostname
  }

  /** The admissible credentials, in input order. */
  function Candidates(creds: seq<Credential>, hostname: string, username: Option<string>): (r: seq<Credential>)
    ensures |r| <= |creds|
    ensures forall c :: c in r <==> c in creds && Admissible(c, hostname, username)
  {
    if |creds| == 0 then []
    else
      var last := creds[|creds| - 1];
      var init := creds[..|creds| - 1];
      assert creds == init + [last];
      Candidates(init, hostname, username) + (if Admissible(last, hostname, username) then [last] else [])
  }

  /** The credentials whose hostname is exactly the requested one, in order. */
  function WithHostname(ms: seq<Credential>, hostname: string): (r: seq<Credential>)
    ensures forall c :: c in r <==> c in ms && c.hostname == hostname
  {
    if |ms| == 0 then []
    else
      var last := ms[|ms| - 1];
      var init := ms[..|ms| - 1];
      assert ms == init + [last];
      WithHostname(init, hostname) + (if last.hostname == hostname then [last] else [])
  }

  /** When both hostname-specific and hostname-less credentials match, only the specific ones stay. */
  function Culled(matches: seq<Credential>, hostname: string): seq<Credential>
  {
    if SomeHostnamed(matches) && SomeHostnameless(matches) then WithHostname(matches, hostname) else matches
  }

  predicate SomeHostnamed(ms: seq<Credential>)
  {
    exists i :: 0 <= i < |ms| && |ms[i].hostname| > 0
  }

  predicate SomeHostnameless(ms: seq<Credential>)
  {
    exists i :: 0 <= i < |ms| && |ms[i].hostname| == 0
  }

  lemma FlagsAppend(ms: seq<Credential>, c: Credential)
    ensures SomeHostnamed(ms + [c]) <==> SomeHostnamed(ms) || |c.hostname| > 0
    ensures SomeHostnameless(ms + [c]) <==> SomeHostnameless(ms) || |c.hostname| == 0
  {
    assert forall j :: 0 <= j < |ms| ==> (ms + [c])[j] == ms[j];
    assert (ms + [c])[|ms|] == c;
  }

  /** The outcome of hop/auth.py select_matching_auth. */
  function Selection(creds: seq<Credential>, hostname: string, username: Option<string>): Result<Credential, SelectError>
  {
    var matches := Culled(Candidates(creds, hostname, username), hostname);
    if |matches| == 0 then Err(NoMatch(hostname, username))
    else if |matches| > 1 then Err(Ambiguous(hostname, username, matches))
    else Ok(matches[0])
  }

  lemma CandidatesStep(creds: seq<Credential>, i: nat, hostname: string, username: Option<string>)
    requires i < |creds|
    ensures Candidates(creds[..i + 1], hostname, username)
         == Candidates(creds[..i], hostname, username) + (if Admissible(creds[i], hostname, username) then [creds[i]] else [])
  {
    assert creds[..i + 1][..i] == creds[..i];
  }

  /** The cull of select_matching_auth: the matches whose hostname is the requested one, in order. */
  method KeepHostname(matches: seq<Credential>, hostname: string) returns (culled: seq<Credential>)
    ensures culled == WithHostname(matches, hostname)
  {
    culled := [];
    for i := 0 to |matches|
      invariant culled == WithHostname(matches[..i], hostname)
    {
      assert matches[..i + 1][..i] == matches[..i];
      if matches[i].hostname == hostname {
        culled := culled + [matches[i]];
      }
    }
    assert matches[..|matches|] == matches;
  }

  /** hop/auth.py select_matching_auth: one pass collecting matches and two flags, then the cull. */
  method SelectMatchingAuth(creds: seq<Credential>, hostname: string, username: Option<string>)
    returns (r: Result<Credential, SelectError>)
    ensures r == Selection(creds, hostname, username)
  {
    var matches: seq<Credential> := [];
    var exactHostnameMatch, inexactHostnameMatch := false, false;
    for i := 0 to |creds|
      invariant matches == Candidates(creds[..i], hostname, username)
      invariant exactHostnameMatch == SomeHostnamed(matches)
      invariant inexactHostnameMatch == SomeHostnameless(matches)
    {
      var cred := creds[i];
      CandidatesStep(creds, i, hostname, username);
      var maybeExact, maybeInexact := false, false;
      if |cred.hostname| > 0 {
        if cred.hostname != hostname {
          continue;
        }
        maybeExact := true;
      } else {
        maybeInexact := true;
      }
      if username.Some? && cred.username != username.value {
        continue;
      }
      FlagsAppend(matches, cred);
      matches := matches + [cred];
      exactHostnameMatch := exactHostnameMatch || maybeExact;
      inexactHostnameMatch := inexactHostnameMatch || maybeInexact;
    }
    assert creds[..|creds|] == creds;
    if inexactHostnameMatch && exactHostnameMatch {
      matches := KeepHostname(matches, hostname);
    }
    if |matches| == 0 {
      return Err(NoMatch(hostname, username));
    }
    if |matches| > 1 {
      return Err(Ambiguous(hostname, username, matches));
    }
    return Ok(matches[0]);
  }

  /** A selected credential is one of the inputs and passes the hostname and username filter. */
  lemma SelectedIsAdmissibleInput(creds: seq<Credential>, hostname: string, username: Option<string>)
    requires Selection(creds, hostname, username).Ok?
    ensures var c := Selection(creds, hostname, username).value;
      c in creds && Admissible(c, hostname, username)
  {
    var ms := Candidates(creds, hostname, username);
    assert Culled(ms, hostname)[0] in Culled(ms, hostname);
  }

  /** "No matching credential" is reported exactly when no credential passes the filter. */
  lemma NoMatchIffNoneAdmissible(creds: seq<Credential>, hostname: string, username: Option<string>)
    ensures Selection(creds, hostname, username).Err? && Selection(creds, hostname, username).error.NoMatch?
        <==> forall c :: c in creds ==> !Admissible(c, hostname, username)
  {
    var ms := Candidates(creds, hostname, username);
    CandidatesEmpty(creds, hostname, username);
    CandidatesMatchHost(creds, hostname, username);
    CulledEmpty(ms, hostname);
    assert Selection(creds, hostname, username).Err? && Selection(creds, hostname, username).error.NoMatch?
      <==> |Culled(ms, hostname)| == 0;
  }

  lemma CandidatesEmpty(creds: seq<Credential>, hostname: string, username: Option<string>)
    ensures |Candidates(creds, hostname, username)| == 0 <==> forall c :: c in creds ==> !Admissible(c, hostname, username)
  {
    var ms := Candidates(creds, hostname, username);
    if |ms| > 0 {
      assert ms[0] in ms;
    }
  }

  lemma CandidatesMatchHost(creds: seq<Credential>, hostname: string, username: Option<string>)
    ensures var ms := Candidates(creds, hostname, username);
      forall j :: 0 <= j < |ms| ==> |ms[j].hostname| == 0 || ms[j].hostname == hostname
  {
    var ms := Candidates(creds, hostname, username);
    forall j | 0 <= j < |ms|
      ensures |ms[j].hostname| == 0 || ms[j].hostname == hostname
    {
      assert ms[j] in ms;
    }
  }

  /** Culling keeps at least one match: the hostname-specific ones it keeps exist. */
  lemma CulledEmpty(ms: seq<Credential>, hostname: string)
    requires forall j :: 0 <= j < |ms| ==> |ms[j].hostname| == 0 || ms[j].hostname == hostname
    ensures |Culled(ms, hostname)| == 0 <==> |ms| == 0
  {
    if SomeHostnamed(ms) && SomeHostnameless(ms) {
      var i :| 0 <= i < |ms| && |ms[i].hostname| > 0;
      assert ms[i] in ms;
      assert ms[i] in WithHostname(ms, hostname);
    }
  }

  /**
   * A hostname-specific match beats hostname-less ones, and the selected
   * credential is the only admissible one of its kind: any other admissible
   * credential equals it or is a hostname-less one culled in its favour.
   */
  lemma SelectionIsUnique(creds: seq<Credential>, hostname: string, username: Option<string>, other: Credential)
    requires Selection(creds, hostname, username).Ok?
    requires other in creds && Admissible(other, hostname, username)
    ensures var c := Selection(creds, hostname, username).value;
      (IsExact(other, hostname) ==> IsExact(c, hostname))
      && (other == c || (IsExact(c, hostname) && !IsExact(other, hostname)))
  {
    var ms := Candidates(creds, hostname, username);
    var culled := Culled(ms, hostname);
    assert other in ms;
    assert culled[0] in culled;
    if culled == ms {
      assert |ms| == 1 && ms[0] == other;
    } else {
      assert other.hostname == hostname ==> other in culled;
    }
  }

  /** An ambiguity lists at least two admissible input credentials. */
  lemma AmbiguityListsMatches(creds: seq<Credential>, hostname: string, username: Option<string>)
    requires Selection(creds, hostname, username).Err? && Selection(creds, hostname, username).error.Ambiguous?
    ensures var ms := Selection(creds, hostname, username).error.matches;
      |ms| >= 2 && forall c :: c in ms ==> c in creds && Admissible(c, hostname, username)
  {
  }

  predicate StartsWith(s: string, prefix: string)
  {
    |prefix| <= |s| && s[..|prefix|] == prefix
  }

  /**
   * The two failures read differently: each message opens with its own phrase
   * and names the hostname.
   */
  lemma SelectMessagesDistinct(e: SelectError)
    ensures e.NoMatch? ==> StartsWith(e.Message(), "No matching credential found for hostname '" + e.hostname + "'")
    ensures e.Ambiguous? ==> StartsWith(e.Message(), "Ambiguous credentials found for hostname '" + e.hostname + "'")
  {
  }
}
