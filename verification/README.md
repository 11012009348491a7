# hop-client: Kafka URLs, envelopes and credentials in Dafny

This project models the address, envelope and credential logic of hop-client,
the Python client for the Hopskotch / SCiMMA Kafka streams, and proves
properties of it.

The Kafka client, the file system, TOML and JSON text, and randomness are
inputs to the model, not parts of it.

- **`Urls`** (`kafka_url.dfy`): `parse_kafka_url`.
  - The URL is split the way Python 3.9's urllib `urlsplit` splits it for a scheme
    without parameters. This is the generic syntax of section 3 of RFC 3986:
    lower-cased scheme, `//` network location, path, query and fragment.
  - The network location is split at its first `@`, and the brokers and
    topics at commas.
  - A round trip is proved: parsing a composed well-formed URL gives back its
    group, brokers and topics.
- **`Streams`** (`stream.dfy`):
  - `Stream.__init__`, the `auth` property and `_generate_group_id`.
  - `Stream.open`, with its fixed order of checks: URL, one broker, topics
    present, credentials, then mode and topic count. It builds a description
    of the Producer or Consumer that would be constructed.
- **`Messages`** (`messages.dfy`): `Producer._pack` and `deserialize`. The
  envelope is `{"format": …, "content": …}` over decoded JSON values. The
  format tag is compared without regard to letter case. BLOB gives the content
  back, a registered model builds from the content, and an unknown tag gives a
  Blob.
- **`Clients`** (`clients.dfy`):
  - The `Consumer` and `Producer` classes: default ports and the configuration
    handed to the Kafka client.
  - `Producer.write`, which appends to what the producer has sent.
  - `Consumer.read`, a method over what the Kafka client reports. It tracks
    which partitions have reached their end offsets and stops once none
    remain. It is proved against the specification function `ReadSpec`. Its
    first loop walks the records of the first poll's `data.items()`; the loop
    as written walks the dict itself and fails (see Findings).
- **`Auth`** (`auth.dfy`):
  - `load_auth` over a file-system snapshot: the 0o7077 permission check and
    the fallback from the auth file to the general configuration file.
  - `_interpret_auth_data`: a loop proved against a recursive specification.
  - `select_matching_auth`: a loop with two flags and a cull, proved against
    `Selection`. It also gives the two error messages.
- **`Configure`** (`configure.dfy`): `get_config_path` over an environment map,
  and the `setup` command over the file-system snapshot.
- **`ListTopics`** (`list_topics.dfy`): `hop list-topics`.
  - The broker check and the credential gate.
  - Restricting the reported topics to the ones asked for.
  - The sorted listing, built by a selection sort over code-point order,
    which is Python's string order.
- **`Basics`**, **`Values`** and **`Text`**: Option/Result, the dynamic value type
  of parsed TOML and JSON, and the Python string operations the core uses
  (`split`, `join`, `lstrip`, `upper`, `lower`, `replace`, `find`).

Where the code and its documentation differ, the model follows the code:

- More than one broker is refused by `Stream.open` and by `list-topics`, not
  by `parse_kafka_url`.
- A message whose format tag is not registered is not an error. It is
  delivered as a Blob marked as missing its schema.

## Model

| member | source | states |
|---|---|---|
| Urls.ParseKafkaUrl | hop/io.py:35-61 | a parsed URL always names at least one broker |
| Urls.UrlSplit | hop/io.py:44 | the only failure is an unbalanced `[`/`]` in the network location; the network location holds no `/`, `?` or `#`, the path no `?` or `#`, the query no `#` |
| Urls.KafkaSchemeRequired | hop/io.py:44-46 | a URL is accepted only if it starts with `kafka:` in any letter case |
| Urls.NetlocSplit | hop/io.py:48-54 | group is the text before the first `@` (with no `@` in it) and brokers are the comma pieces of the rest; without `@` there is no group and the pieces rejoin to the whole network location |
| Urls.TopicsFromPath | hop/io.py:56-61 | topics are None exactly when the path is only slashes; otherwise at least one comma-free topic, rejoining to the path without leading slashes |
| Urls.UrlSplitNetlocPath | hop/io.py:44 | urlsplit of `kafka://` + n + p, when n holds no `/?#` and p is a plain path, gives netloc n, path p, no query and no fragment |
| Urls.UrlSplitOfComposed | hop/io.py:44 | urlsplit of a composed URL yields scheme `kafka`, its network location and its path |
| Urls.NetlocOfComposed | hop/io.py:48-54 | the network location of a well-formed URL splits back into its group and brokers |
| Urls.PathOfComposed | hop/io.py:56-61 | the path of a well-formed URL splits back into its topics |
| Urls.ComposeRoundTrip | hop/io.py:35-61 | parsing the composed text of any well-formed group/brokers/topics gives them back exactly |
| Text.IndexOf | hop/io.py:48 | None exactly when the character is absent; otherwise the index of its first occurrence |
| Text.Split | hop/io.py:51 | at least one piece, none containing the separator |
| Text.JoinSplit | hop/io.py:48-60 | joining the pieces of a split gives back the string |
| Text.SplitJoin | hop/io.py:48-60 | splitting the join of separator-free pieces gives back the pieces |
| Text.LStrip | hop/io.py:56 | the result is a suffix that does not start with the character, and only that character was removed |
| Text.BelowIrreflexive | hop/list_topics.py:36 | no string sorts before itself |
| Text.BelowTransitive | hop/list_topics.py:36 | string order is transitive |
| Text.BelowTotal | hop/list_topics.py:36 | of two distinct strings one sorts before the other |
| Streams.NewStream | hop/io.py:80-83 | a single credential is stored as a one-element list; start position and persistence are kept |
| Streams.RandomSuffix | hop/io.py:262-263 | the suffix has exactly n characters |
| Streams.SuffixAlphanumeric | hop/io.py:262-263 | every suffix character is in A-Z or 0-9 |
| Streams.StreamCredentials | hop/io.py:85-107 | `auth=False` or None gives no credentials; a list (a single credential already wrapped) is returned as is; `auth=True` gives what `load_auth` loads, or its error; no credentials exactly in the first two cases |
| Streams.GenerateGroupId | hop/io.py:251-266 | the ID is the n drawn characters, preceded by the username and `-` exactly when a username is given |
| Streams.GroupIdShape | hop/io.py:251-266 | a group ID is n characters from A-Z0-9, prefixed by `<user>-` exactly when a user is given |
| Streams.Open | hop/io.py:109-162 | a malformed URL fails with the URL's own error; an opened end names the URL's single broker, and is a producer exactly for `w` and a consumer exactly for `r` |
| Streams.OpenParsed | hop/io.py:127-162 | the same, for an already parsed URL |
| Streams.CredentialFor | hop/io.py:136-139 | a load error is passed on; no credential exactly when none are in use; otherwise the selection's error, or a credential from the loaded list admissible for the URL's broker and user part |
| Streams.OpenParsedFacts | hop/io.py:127-162 | order of checks and which error each gives: several brokers, no topics, the credential error, then with credentials resolved `w` with other than one topic gives NotOneTopic and a mode other than `w` or `r` gives BadMode; and the shape of the opened end |
| Streams.MultipleBrokersFirst | hop/io.py:127-129 | several brokers are refused whatever the credentials, topics and mode |
| Streams.NoTopicsBeforeCredentials | hop/io.py:133-134 | a URL without topics is refused before any credential is loaded |
| Streams.CredentialsBeforeMode | hop/io.py:136-162 | a credential failure is reported before the mode and topic count are checked; those errors arise only once credentials resolve, and then `w` with other than one topic gives NotOneTopic and any mode other than `w` or `r` gives BadMode |
| Streams.DisabledAuthIgnoresFiles | hop/io.py:94-105 | with `auth=False` the result does not depend on the file system and no credential is used |
| Streams.CredentialSelectedForBroker | hop/io.py:136-137 | the credential used is the selection for the single broker with the URL's user part as username |
| Streams.OpenedEnd | hop/io.py:141-160 | `w` opens a producer on the one topic and `r` a consumer on all topics with the stream's start position and persistence |
| Streams.ConsumerGroupId | hop/io.py:148-150 | in read mode a given group ID is used as is; otherwise it is generated with the selected credential's username as prefix |
| Messages.PackRoundTrip | hop/io.py:547-550 | deserializing a packed plain value gives the value back unchanged |
| Messages.Pack | hop/io.py:547-550 | a plain value goes out as the envelope `{"format": "blob", "content": value}`, with no other key |
| Messages.Deserialize | hop/io.py:207-234 | success needs a mapping with a text `format` and a `content`; the result is the content itself exactly for a BLOB tag, a Blob of the content for an unregistered tag, and otherwise the registered model built from a mapping content |
| Messages.FormatCaseInsensitive | hop/io.py:223 | two tags equal up to ASCII letter case deserialize alike |
| Messages.MalformedEnvelope | hop/io.py:222-226 | a non-mapping, or one missing `format` or `content`, is "incorrectly formatted" |
| Messages.UnknownFormatIsBlob | hop/io.py:232-234 | an unregistered tag gives the content back as a Blob missing its schema |
| Messages.KnownFormatIsModel | hop/io.py:230-231 | a registered tag builds that model from the content's fields |
| Clients.DefaultPortProperties | hop/io.py:326-330 | the result names a port, keeps the address as prefix, is unchanged exactly when a `:` was present, and a second pass leaves it alone |
| Clients.AddDefaultPorts | hop/io.py:324-331 | same length and order, each address given the default port when it lacks one |
| Clients.Consumer.constructor | hop/io.py:320-365 | the configuration: ported brokers, group, credential, timeout (forever or 10000 ms), start position name, commit interval, API version (1, 0) |
| Clients.GetPartitions | hop/io.py:388-401 | the assignment less the partitions whose position equals their end offset |
| Clients.ReadSpec | hop/io.py:367-436 | the read takes no more messages than the iterator holds; without an error it yields one payload per polled record and per message taken; the awaited set stays within the assignment less what is at its end; with `read_forever` it takes every message, otherwise it stops early only with nothing awaited |
| Clients.Consumer.Read | hop/io.py:367-436 | the read, with its first loop over `data.items()`, yields exactly what `ReadSpec` describes, keeping the awaited set shrinking as a loop invariant |
| Clients.Drain | hop/io.py:431-436 | the loop consumes at least one message when any remain, and never reads past the stream |
| Clients.DecodeAll | hop/io.py:414-416 | earlier payloads are kept as a prefix; without an error every message is taken and yields one payload; an error ends the loop at the message that failed to deserialize |
| Clients.DrainShrinks | hop/io.py:403-408 | tracking only removes partitions, keeps earlier payloads, and stops early only when nothing is pending |
| Clients.DrainRemovesCompleted | hop/io.py:403-408 | a partition stops being awaited only after a message at its end offset minus one was read |
| Clients.DrainPending | hop/io.py:403-436 | the awaited set a read ends with is exactly the starting set less the partitions whose final message it read |
| Clients.CompletedIsRemoved | hop/io.py:403-408 | reading the message at offset end minus one of an awaited partition removes that partition |
| Clients.DrainStopsAtEmpty | hop/io.py:431-436 | every message the loop takes is taken while some partition is still awaited, so the message that empties the set is the last one taken |
| Clients.DecodeAllDelivers | hop/io.py:413-416 | without errors every message is delivered once, in order |
| Clients.ReadForeverDeliversAll | hop/io.py:413-436 | with `read_forever`, every record of the first poll's `data.items()` and then every later message is delivered, in order |
| Clients.DecodeBothDelivers | hop/io.py:414-433 | decoding the polled records and then the iterator delivers both in order, without an error |
| Clients.ReadForeverDecodes | hop/io.py:413-433 | with `read_forever`, the read is the polled records decoded and then the iterator's messages |
| Clients.ReadAsWritten | hop/io.py:413-415 | as written, a non-empty first poll fails at once with the TypeError on its first partition, consuming and yielding nothing; an empty one reads on as the corrected read does |
| Clients.ReadAsWrittenFails | hop/io.py:413-415 | as written, a non-empty first poll ends the read with a TypeError and no payload; one packed value in partition 0 of topic "t" is lost where the read over `data.items()` yields it |
| Clients.ReadAsWrittenAgrees | hop/io.py:413-415 | where the loop as written does not raise, it agrees with the read over `data.items()` |
| Clients.ReadTracking | hop/io.py:384-436 | without `read_forever`, the awaited set ends as the assignment less the partitions already at their end, less exactly those whose final message was read; every message is taken while some partition is awaited; a read whose assignment is all at its end takes nothing from the iterator |
| Clients.Producer.constructor | hop/io.py:502-525 | the producer's topic, credential and ported broker list |
| Clients.Producer.Write | hop/io.py:527-536 | the packed message is appended to what was sent, for the producer's topic |
| Clients.WriteThenRead | hop/io.py:527-550 | plain values a producer sent, carried in order by the iterator, are read back unchanged and in order by a consumer reading forever |
| Auth.MechanismNamed | hop/auth.py:145 | the lookup succeeds exactly for a mechanism's member name |
| Auth.InterpretEntry | hop/auth.py:118-146 | a non-table fails with a type error and a record without username or password with "not configured correctly"; a credential carries the record's username and password; a record only ever fails with a key, type or mechanism error |
| Auth.InterpretEntries | hop/auth.py:117-147 | success gives one credential per record, in order; failure is the error of the first failing record |
| Auth.InterpretAuthData | hop/auth.py:100-147 | the loop computes `Interpreted`: the upgraded record list, credential by credential, or the first error |
| Auth.EntryDefaults | hop/auth.py:120-140 | a record with only username and password gets hostname "", SSL on and SCRAM_SHA_512 |
| Auth.EntryMissingKey | hop/auth.py:131-143 | a record missing its username or password fails as "not configured correctly" |
| Auth.EntryOptions | hop/auth.py:120-146 | SSL is off exactly for SASL_PLAINTEXT; a CA location is kept exactly when SSL is on; hostname and mechanism defaults; `-` becomes `_` in a mechanism name |
| Auth.LegacyTableUpgraded | hop/auth.py:113-115 | a single table reads exactly like a list holding that table |
| Auth.Octal | hop/auth.py:90 | the mode is printed with at least one digit, all of them octal |
| Auth.OctalRoundTrip | hop/auth.py:90 | the printed octal digits denote the mode |
| Auth.UnsafeMessageShowsMode | hop/auth.py:89-91 | the message starts with the path and shows the mode in octal digits that read back as the mode |
| Auth.SafeModeIsOwnerOnly | hop/auth.py:88-89 | a mode passes the 0o7077 mask exactly when its permission bits are owner bits only |
| Auth.GroupOrOtherBitUnsafe | hop/auth.py:88-89 | any group or other bit is refused; 0o100600 passes |
| Auth.UnsafeRejectedUnread | hop/auth.py:86-95 | unsafe permissions are reported whatever the content |
| Auth.MissingSectionIsKeyError | hop/auth.py:93-95 | a document without `auth` fails with a KeyError |
| Auth.LoadAuthFile | hop/auth.py:84-97 | a missing file is reported by its path; credentials come only from a present file with safe permissions, parsed TOML and an `auth` section, read by `_interpret_auth_data` |
| Auth.LoadAuth | hop/auth.py:51-97 | credentials come from the given file, else the auth file when it exists, else the general file; a KeyError only surfaces from a given file or an existing auth file, since the general file's are rewritten |
| Auth.AuthFileShadowsGeneral | hop/auth.py:67-71 | when the auth file exists, the general file plays no part |
| Auth.FallbackToGeneral | hop/auth.py:71-80 | with the auth file missing, the general file's credentials are used, its KeyErrors become "auth file not found", and other errors pass through |
| Auth.NeitherFile | hop/auth.py:81-85 | with neither file present the error names the auth file |
| Auth.MissingFileIsAuthFile | hop/auth.py:67-85 | the default lookup only ever reports the auth file as missing |
| Auth.Candidates | hop/auth.py:170-191 | a credential is kept exactly when it is an input whose hostname is empty or the requested one and whose username matches any given one |
| Auth.WithHostname | hop/auth.py:195 | keeps exactly the matches whose hostname is the requested one |
| Auth.FlagsAppend | hop/auth.py:189-191 | the two flags after an append are the old flags or-ed with the new credential's kind |
| Auth.KeepHostname | hop/auth.py:194-195 | the cull loop computes `WithHostname` |
| Auth.SelectMatchingAuth | hop/auth.py:150-215 | the loop, flags and cull compute `Selection` |
| Auth.SelectedIsAdmissibleInput | hop/auth.py:170-215 | a selected credential is an input that passes the hostname and username filter |
| Auth.NoMatchIffNoneAdmissible | hop/auth.py:166-201 | "no matching credential" happens exactly when no input passes the filter |
| Auth.CulledEmpty | hop/auth.py:193-195 | the cull never empties a non-empty list of matches |
| Auth.SelectionIsUnique | hop/auth.py:193-215 | the selected credential is the only admissible one, apart from hostname-less ones culled in favour of an exact match |
| Auth.AmbiguityListsMatches | hop/auth.py:203-212 | an ambiguity lists at least two admissible inputs |
| Auth.SelectMessagesDistinct | hop/auth.py:197-212 | each message opens with its own phrase and names the hostname |
| Configure.PathJoinEndsWith | hop/configure.py:18-22 | joining a relative component ends with that component |
| Configure.XdgConfigPath | hop/configure.py:18-20 | with XDG_CONFIG_HOME set, the path is `$XDG_CONFIG_HOME/hop/config.toml` |
| Configure.HomeConfigPath | hop/configure.py:21-22 | otherwise it is `$HOME/.config/hop/config.toml` |
| Configure.XdgShadowsHome | hop/configure.py:19-20 | with XDG_CONFIG_HOME set, HOME makes no difference |
| Configure.GetConfigPath | hop/configure.py:11-22 | a path is produced exactly when one of XDG_CONFIG_HOME and HOME is set, and it ends in `hop/config.toml`; neither set is a TypeError |
| Configure.SetupAsWritten | hop/configure.py:54-63 | as written: an existing file is kept unless forced; otherwise the document is written, keeping an existing file's mode and giving a new one 0o666 less the umask; no other file changes |
| Configure.SetupAsWrittenUnreadable | hop/configure.py:62-63 | as written, under umask 0o022, a new configuration has mode 0o100644 and load_auth refuses it |
| Configure.Setup | hop/configure.py:54-64 | an existing file is kept unless forced; nothing else changes |
| Configure.SetupRoundTrip | hop/configure.py:63 | what setup writes reads back as exactly one credential with the given username and password and every default |
| ListTopics.MultipleBrokersRefused | hop/list_topics.py:12-14 | several brokers are refused, whatever the flag and the files |
| ListTopics.Access | hop/list_topics.py:12-18 | a malformed URL fails with its own error; success gives the parsed URL, with one broker, and no credential exactly under `--no-auth` |
| ListTopics.AccessGate | hop/list_topics.py:12-18 | as AuthGate, for a parsed URL |
| ListTopics.AuthGate | hop/list_topics.py:15-18 | with `--no-auth` the files play no part and no credential is used; otherwise the credential is the selection for the one broker and the URL's user part |
| ListTopics.RestrictTopics | hop/list_topics.py:26-30 | the kept topics are exactly the reported ones in the query, or all of them without a query |
| ListTopics.RestrictedBounds | hop/list_topics.py:26-30 | restriction never adds a topic, never drops a requested one, and is idempotent |
| ListTopics.RestrictAsWrittenFails | hop/list_topics.py:27-30 | as written, reported {foo, bar} with query [foo, baz] raises, where {foo} was meant |
| ListTopics.RestrictAsWritten | hop/list_topics.py:27-30 | as written, the loop raises exactly when the intended restriction would drop a topic, and otherwise gives the intended restriction |
| ListTopics.LeastExists | hop/list_topics.py:36 | every non-empty set of topics has a least one in code-point order |
| ListTopics.Listing | hop/list_topics.py:32-37 | "No accessible topics", or a header and one indented line per topic, strictly sorted |
| ListTopics.ListTopicsCommand | hop/list_topics.py:8-37 | fails exactly when the URL, broker or credential check fails; otherwise it lists the restricted topics |

## Left out

- The Kafka transport is not modelled: constructing KafkaConsumer and KafkaProducer, `poll`, `commit_async`, `send`, `close`, `mark_done`. What the client reports (the first poll's dict as its items in order, the assignment, end offsets, positions and the messages it yields) is a parameter of `Consumer.Read`. The `max_records=1` bound of the first poll is not imposed: the model accepts any number of polled records.
- Message metadata (`Metadata.from_message`), the `metadata` flag of `read`, and message headers in `write` are plain copies and are not modelled.
- Plugin discovery through pluggy is left out. The registered model names are a parameter of `Deserialize`, and building a model is represented by the name and its fields. hop/models.py is not part of this model.
- The random source of `_generate_group_id` is a parameter: `draw(i)` picks the i-th character.
- Floating-point values are not represented. The infinite consumer timeout is the `Forever` case, and `offset_commit_interval` is an optional whole number of milliseconds. Values carry no floats and no TOML date-times.
- File and text I/O is replaced by snapshots:
  - `os.path.exists`, `os.stat`, `open`, `os.makedirs`, and TOML parsing and writing are a map from paths to a mode and an already-parsed document (or the fact that it does not parse);
  - JSON encoding is left out, so payloads are decoded values;
  - `input` and `getpass` become parameters.
- adc's SASLAuth is not visible. A credential is a record, and the SASL mechanism names PLAIN, SCRAM_SHA_256, SCRAM_SHA_512, GSSAPI and OAUTHBEARER are assumed.
- Auth.InterpretEntry: a username or hostname that is not a string is refused with its own error. The source hands such values to SASLAuth unchecked. Passwords and CA locations are kept as given.
- The default configuration paths are parameters of `LoadAuth`. hop/auth.py calls `get_config_path("auth")` and `get_config_path("general")`, but hop/configure.py's `get_config_path` takes no argument.
- `lru_cache` on `Stream.auth` is left out. The model evaluates the property at each `open`, so a file system that changes between two opens can give a different result than the cached one.
- Urls.UrlSplit: the split follows Python 3.9's `urlsplit` (hop/auth.py imports `Mapping` from `collections`, which Python 3.10 removed). Before 3.9, `urlsplit` kept a scheme-less reading when everything after the first `:` is digits, so `kafka:9092` had no scheme there and was refused, while this model accepts it. urllib's removal of tab, carriage-return and newline characters, and of leading control characters, is left out. So is the ValueError that `_checknetloc` raises for a non-ASCII network location whose NFKC normalisation contains one of `/?#@:`, because Unicode normalisation is not modelled. The scheme is lower-cased for ASCII letters only.
- Messages.Deserialize: the format tag is upper-cased by `Text.Upper`, which maps ASCII letters only. Python's `str.upper` maps all of Unicode (`"ß".upper()` is `"SS"`), so a tag with non-ASCII letters can compare differently.
- Consumers are only built as `Stream.open` builds them, with `read_forever` and `start_at` given. Extra keyword arguments passed through to Kafka, `error_callback` and `delivery_callback` are left out.
- The group ID that `list-topics` generates and never uses is left out.
- `hop configure locate`, logging, warnings, argument parsing, hop/__main__.py, hop/publish.py and scimma/client are not modelled.

## Findings

| source | as written | input that shows it | evidently intended | confidence | as-written member | corrected member |
|---|---|---|---|---|---|---|
| hop/list_topics.py:27-30 | deletes each unrequested topic from the collection being iterated. The client reports a set, which has no item deletion. | broker reports {"foo", "bar"}, query is ["foo", "baz"] | keep the reported topics that were asked for: {"foo"} | high; not executed | ListTopics.RestrictAsWrittenFails | ListTopics.RestrictTopics |
| hop/io.py:413-415 | iterates the dict `poll` returns with `for topic, messages in data:`, which walks its keys. Each TopicPartition key unpacks into a topic and an int partition, and `for message in messages` raises TypeError on the int. | a first poll that returns one record from partition 0 of topic "t" | iterate `data.items()` and yield every polled record before reading on | high; not executed | Clients.ReadAsWrittenFails | Clients.ReadForeverDeliversAll |
| hop/configure.py:62-63 | creates the configuration with `open(path, "w")`, so its mode is 0o666 less the umask | a new file under umask 0o022 gets mode 0o100644, and load_auth refuses it for unsafe permissions | write the file with mode 0o600, as load_auth demands and tests/test_configure.py:11 checks | high; not executed | Configure.SetupAsWrittenUnreadable | Configure.SetupRoundTrip |
