/** The `geoip2` global app: its Caddyfile settings, the database readers it
    keeps, the lookup that runs every reader on a request, and the update
    schedule. File-system access, downloads and the clock are parameters. */
module AppState {
  import opened Basics
  import opened Text
  import opened Sink
  import opened MaxMind
  import opened Caddyfile
  import Replacers
  import EnterpriseFacts
  import IspReplacer
  import AnonymousReplacer

  // ---------------------------------------------------------------------------
  // Settings and the Caddyfile block
  // ---------------------------------------------------------------------------

  const DefaultUpdateUrl: string := "https://updates.maxmind.com"
  const DefaultDatabaseDirectory: string := "/tmp/"
  const DefaultLockFile: string := "/tmp/geoip2.lock"
  const DefaultEditionIds: seq<string> := ["GeoLite2-City"]

  /** The configurable fields of the app. */
  datatype Settings = Settings(
    accountId: int,
    databaseDirectory: string,
    licenseKey: string,
    lockFile: string,
    editionIds: seq<string>,
    updateUrl: string,
    updateFrequency: int)

  /** The settings of a freshly decoded, empty app. */
  const NoSettings: Settings := Settings(0, "", "", "", [], "", 0)

  /** How far reading the block got: the settings so far and, when it
      stopped early, the error it returns. */
  datatype Parsed = Parsed(settings: Settings, err: Option<string>)

  /** `strings.TrimSpace` on every piece. */
  function TrimAll(pieces: seq<string>): (r: seq<string>)
    ensures |r| == |pieces|
  {
    seq(|pieces|, i requires 0 <= i < |pieces| => TrimSpace(pieces[i]))
  }

  lemma TrimAllSnoc(pieces: seq<string>, j: nat)
    requires j < |pieces|
    ensures TrimAll(pieces[..j + 1]) == TrimAll(pieces[..j]) + [TrimSpace(pieces[j])]
  {
    var x := TrimAll(pieces[..j + 1]);
    var y := TrimAll(pieces[..j]) + [TrimSpace(pieces[j])];
    forall k | 0 <= k < j + 1 ensures x[k] == y[k] {
      assert pieces[..j + 1][k] == pieces[k];
    }
  }

  /** The editions one `editionID` value lists: its comma-separated pieces, trimmed. */
  function EditionPieces(value: string): seq<string> {
    TrimAll(Split(value, ","))
  }

  /** The two settings whose value must be a decimal integer. */
  predicate IsIntegerKey(key: string) {
    key == "accountId" || key == "updateFrequency"
  }

  /** The error an integer setting reports when its value does not parse. */
  function IntegerError(key: string, cause: string): string {
    if key == "accountId" then "accountID is not an integer: " + cause
    else "updateFrequency is not an integer: " + cause
  }

  /** An entry that stops the block with an error. */
  predicate Fails(e: Entry) {
    e.arg.Some? && IsIntegerKey(e.key) && Atoi(e.arg.value).Err?
  }

  /** One turn of the loop in `UnmarshalCaddyfile`. */
  function Step(s: Settings, e: Entry): Parsed {
    match e.arg
    case None => Parsed(s, None)
    case Some(value) =>
      match e.key
      case "accountId" =>
        (match Atoi(value)
         case Ok(n) => Parsed(s.(accountId := n), None)
         case Err(cause) => Parsed(s, Some(IntegerError(e.key, cause))))
      case "databaseDirectory" => Parsed(s.(databaseDirectory := value), None)
      case "licenseKey" => Parsed(s.(licenseKey := value), None)
      case "lockFile" => Parsed(s.(lockFile := value), None)
      case "editionID" => Parsed(s.(editionIds := s.editionIds + EditionPieces(value)), None)
      case "updateUrl" => Parsed(s.(updateUrl := value), None)
      case "updateFrequency" =>
        (match Atoi(value)
         case Ok(n) => Parsed(s.(updateFrequency := n), None)
         case Err(cause) => Parsed(s, Some(IntegerError(e.key, cause))))
      case _ => Parsed(s, None)
  }

  /** The loop over the whole block; the first error ends it. */
  function Walk(s: Settings, es: seq<Entry>): Parsed
    decreases |es|
  {
    if es == [] then Parsed(s, None)
    else
      var p := Walk(s, es[..|es| - 1]);
      if p.err.Some? then p else Step(p.settings, es[|es| - 1])
  }

  /** The defaults filled in after the loop. */
  function WithDefaults(s: Settings): Settings {
    s.(updateUrl := if s.updateUrl == "" then DefaultUpdateUrl else s.updateUrl,
       databaseDirectory := if s.databaseDirectory == "" then DefaultDatabaseDirectory else s.databaseDirectory,
       lockFile := if s.lockFile == "" then DefaultLockFile else s.lockFile,
       editionIds := if |s.editionIds| == 0 then DefaultEditionIds else s.editionIds)
  }

  /** `UnmarshalCaddyfile` on settings `s`: the loop, then the defaults when
      the loop did not fail. */
  function Unmarshal(s: Settings, es: seq<Entry>): Parsed {
    var p := Walk(s, es);
    if p.err.Some? then p else Parsed(WithDefaults(p.settings), None)
  }

  /** `Validate`: the app needs a database directory and at least one edition. */
  function Validate(s: Settings): Option<string> {
    if s.databaseDirectory == "" || |s.editionIds| == 0 then
      Some("missing: DatabaseDirectory " + Quoted(s.databaseDirectory)
        + " or EditionIDs [" + Join(s.editionIds, " ") + "]")
    else None
  }

  // ---------------------------------------------------------------------------
  // Reference definitions for what the block sets
  // ---------------------------------------------------------------------------

  /** The value of the last entry for `key` that has an argument. */
  function LastArg(es: seq<Entry>, key: string): Option<string>
    decreases |es|
  {
    if es == [] then None
    else if es[|es| - 1].key == key && es[|es| - 1].arg.Some? then es[|es| - 1].arg
    else LastArg(es[..|es| - 1], key)
  }

  /** A string setting after the block: the last value given, or the
      setting's previous value when no entry gives one. */
  function StringSetting(es: seq<Entry>, key: string, previous: string): string {
    match LastArg(es, key)
    case Some(v) => v
    case None => previous
  }

  /** All editions the block lists, in order. */
  function EditionsOf(es: seq<Entry>): seq<string>
    decreases |es|
  {
    if es == [] then []
    else if es[0].key == "editionID" && es[0].arg.Some? then
      EditionPieces(es[0].arg.value) + EditionsOf(es[1..])
    else EditionsOf(es[1..])
  }

  // ---------------------------------------------------------------------------
  // Properties of reading the block
  // ---------------------------------------------------------------------------

  /** An entry without an argument and an entry with an unknown key change nothing. */
  lemma StepIgnores(s: Settings, e: Entry)
    requires e.arg.None? || e.key !in {"accountId", "databaseDirectory", "licenseKey",
                                      "lockFile", "editionID", "updateUrl", "updateFrequency"}
    ensures Step(s, e) == Parsed(s, None)
  {
  }

  /** A step fails exactly on an integer setting whose value does not parse,
      and then reports that setting's error and keeps the settings. */
  lemma StepFails(s: Settings, e: Entry)
    ensures Step(s, e).err.Some? <==> Fails(e)
    ensures Fails(e) ==> Step(s, e) == Parsed(s, Some(IntegerError(e.key, Atoi(e.arg.value).error)))
  {
  }

  /** An integer setting whose value parses is set to the parsed number. */
  lemma StepInteger(s: Settings, e: Entry)
    requires e.arg.Some? && Atoi(e.arg.value).Ok?
    ensures e.key == "accountId" ==> Step(s, e) == Parsed(s.(accountId := Atoi(e.arg.value).value), None)
    ensures e.key == "updateFrequency" ==> Step(s, e) == Parsed(s.(updateFrequency := Atoi(e.arg.value).value), None)
  {
  }

  /** What a step that does not fail leaves in each setting: the entry's
      value in the setting it names, the editions it lists appended, and
      every other setting as it was. */
  lemma StepFields(s: Settings, e: Entry)
    requires Step(s, e).err.None?
    ensures var t := Step(s, e).settings;
      && t.databaseDirectory == (if e.key == "databaseDirectory" && e.arg.Some? then e.arg.value else s.databaseDirectory)
      && t.licenseKey == (if e.key == "licenseKey" && e.arg.Some? then e.arg.value else s.licenseKey)
      && t.lockFile == (if e.key == "lockFile" && e.arg.Some? then e.arg.value else s.lockFile)
      && t.updateUrl == (if e.key == "updateUrl" && e.arg.Some? then e.arg.value else s.updateUrl)
      && t.editionIds == s.editionIds + (if e.key == "editionID" && e.arg.Some? then EditionPieces(e.arg.value) else [])
      && (if e.key == "accountId" && e.arg.Some? then Atoi(e.arg.value) == Ok(t.accountId) else t.accountId == s.accountId)
      && (if e.key == "updateFrequency" && e.arg.Some? then Atoi(e.arg.value) == Ok(t.updateFrequency)
          else t.updateFrequency == s.updateFrequency)
  {
  }

  lemma WalkLast(s: Settings, es: seq<Entry>, e: Entry)
    ensures Walk(s, es + [e]) == if Walk(s, es).err.Some? then Walk(s, es) else Step(Walk(s, es).settings, e)
  {
    assert (es + [e])[..|es + [e]| - 1] == es;
  }

  /** Once the loop has failed on a prefix, the rest of the block is not read. */
  lemma {:induction false} WalkStops(s: Settings, es: seq<Entry>, n: nat)
    requires n <= |es|
    requires Walk(s, es[..n]).err.Some?
    ensures Walk(s, es) == Walk(s, es[..n])
    decreases |es| - n
  {
    if n < |es| {
      assert es[..|es| - 1][..n] == es[..n];
      WalkStops(s, es[..|es| - 1], n);
    } else {
      assert es[..n] == es;
    }
  }

  /** The block fails if and only if one of its entries fails, and then it
      reports the error of the first failing entry. */
  lemma {:induction false} WalkFails(s: Settings, es: seq<Entry>)
    ensures Walk(s, es).err.Some? <==> exists i :: 0 <= i < |es| && Fails(es[i])
    ensures forall i :: 0 <= i < |es| && Fails(es[i]) && (forall j :: 0 <= j < i ==> !Fails(es[j])) ==>
      Walk(s, es).err == Some(IntegerError(es[i].key, Atoi(es[i].arg.value).error))
    decreases |es|
  {
    if es != [] {
      var init := es[..|es| - 1];
      var e := es[|es| - 1];
      WalkFails(s, init);
      StepFails(Walk(s, init).settings, e);
      assert forall i :: 0 <= i < |init| ==> init[i] == es[i];
      if Walk(s, init).err.None? {
        assert forall i :: 0 <= i < |init| ==> !Fails(es[i]);
      }
    }
  }

  /** A block that does not fail sets every string setting to the last value
      given for it, with the previous value kept when none is given. */
  lemma {:induction false} WalkLastWins(s: Settings, es: seq<Entry>)
    requires Walk(s, es).err.None?
    ensures Walk(s, es).settings.databaseDirectory == StringSetting(es, "databaseDirectory", s.databaseDirectory)
    ensures Walk(s, es).settings.licenseKey == StringSetting(es, "licenseKey", s.licenseKey)
    ensures Walk(s, es).settings.lockFile == StringSetting(es, "lockFile", s.lockFile)
    ensures Walk(s, es).settings.updateUrl == StringSetting(es, "updateUrl", s.updateUrl)
    decreases |es|
  {
    if es != [] {
      var init := es[..|es| - 1];
      var e := es[|es| - 1];
      assert es == init + [e];
      WalkLast(s, init, e);
      WalkLastWins(s, init);
      StepFields(Walk(s, init).settings, e);
    }
  }

  /** A block that does not fail sets each integer setting to the number its
      last value spells, or keeps the previous value when none is given. */
  lemma {:induction false} WalkIntegers(s: Settings, es: seq<Entry>)
    requires Walk(s, es).err.None?
    ensures LastArg(es, "accountId").Some? ==>
      Atoi(LastArg(es, "accountId").value) == Ok(Walk(s, es).settings.accountId)
    ensures LastArg(es, "accountId").None? ==> Walk(s, es).settings.accountId == s.accountId
    ensures LastArg(es, "updateFrequency").Some? ==>
      Atoi(LastArg(es, "updateFrequency").value) == Ok(Walk(s, es).settings.updateFrequency)
    ensures LastArg(es, "updateFrequency").None? ==> Walk(s, es).settings.updateFrequency == s.updateFrequency
    decreases |es|
  {
    if es != [] {
      var init := es[..|es| - 1];
      var e := es[|es| - 1];
      assert es == init + [e];
      WalkLast(s, init, e);
      WalkIntegers(s, init);
      StepFields(Walk(s, init).settings, e);
    }
  }

  lemma EditionsOfSnoc(es: seq<Entry>, e: Entry)
    ensures EditionsOf(es + [e]) ==
      EditionsOf(es) + (if e.key == "editionID" && e.arg.Some? then EditionPieces(e.arg.value) else [])
    decreases |es|
  {
    if es != [] {
      assert (es + [e])[1..] == es[1..] + [e];
      EditionsOfSnoc(es[1..], e);
    } else {
      assert [e][1..] == [];
    }
  }

  /** A block that does not fail appends, in order, every edition it lists. */
  lemma {:induction false} WalkEditions(s: Settings, es: seq<Entry>)
    requires Walk(s, es).err.None?
    ensures Walk(s, es).settings.editionIds == s.editionIds + EditionsOf(es)
    decreases |es|
  {
    if es != [] {
      var init := es[..|es| - 1];
      var e := es[|es| - 1];
      var listed := if e.key == "editionID" && e.arg.Some? then EditionPieces(e.arg.value) else [];
      assert Walk(s, init).err.None? && Walk(s, es).settings.editionIds == Walk(s, init).settings.editionIds + listed by {
        assert es == init + [e];
        WalkLast(s, init, e);
        StepFields(Walk(s, init).settings, e);
      }
      assert EditionsOf(es) == EditionsOf(init) + listed by {
        assert es == init + [e];
        EditionsOfSnoc(init, e);
      }
      WalkEditions(s, init);
    }
  }

  /** Trimming a string that holds no separator leaves one that holds none. */
  lemma TrimKeepsFree(q: string, sep: string)
    requires |sep| > 0 && Free(q, sep)
    ensures Free(TrimSpace(q), sep)
  {
    var l := TrimLeft(q);
    TrimLeftShape(q);
    TrimRightShape(l);
    FreeSlice(q, sep, |q| - |l|, |q|);
    assert q[|q| - |l|..|q|] == l;
    FreeSlice(l, sep, 0, |TrimRight(l)|);
    assert l[0..|TrimRight(l)|] == TrimSpace(q);
  }

  /** Every listed edition is trimmed and holds no comma, and a value lists
      at least one edition. */
  lemma EditionPiecesShape(value: string)
    ensures forall p :: p in EditionPieces(value) ==> TrimSpace(p) == p && Free(p, ",")
    ensures |EditionPieces(value)| >= 1
  {
    var pieces := Split(value, ",");
    JoinSplit(value, ",");
    SplitPiecesFree(value, ",");
    forall p | p in EditionPieces(value) ensures TrimSpace(p) == p && Free(p, ",") {
      var i :| 0 <= i < |pieces| && EditionPieces(value)[i] == p;
      assert pieces[i] in pieces;
      TrimSpaceShape(pieces[i]);
      TrimKeepsFree(pieces[i], ",");
    }
  }

  /** A value with no comma and no surrounding white space lists itself. */
  lemma EditionPiecesSingle(value: string)
    requires Free(value, ",")
    requires value == [] || (!IsSpace(value[0]) && !IsSpace(value[|value| - 1]))
    ensures EditionPieces(value) == [value]
  {
    assert Index(value, ",").None?;
    assert Split(value, ",") == [value];
    TrimSpaceOfTrimmed(value);
  }

  /** After a block that does not fail every setting the app relies on is
      present: the defaults fill the empty ones, so `Validate` accepts it. */
  lemma UnmarshalValid(s: Settings, es: seq<Entry>)
    requires Unmarshal(s, es).err.None?
    ensures var t := Unmarshal(s, es).settings;
      t.updateUrl != "" && t.databaseDirectory != "" && t.lockFile != "" && |t.editionIds| > 0
    ensures Validate(Unmarshal(s, es).settings).None?
  {
  }

  /** On a fresh app, a block that does not fail yields the last value given
      for each string setting, the default where none (or an empty one) is
      given, and the listed editions or the default edition. */
  lemma UnmarshalFresh(es: seq<Entry>)
    requires Unmarshal(NoSettings, es).err.None?
    ensures var t := Unmarshal(NoSettings, es).settings;
      && t.databaseDirectory == (if StringSetting(es, "databaseDirectory", "") == "" then DefaultDatabaseDirectory
                                 else StringSetting(es, "databaseDirectory", ""))
      && t.lockFile == (if StringSetting(es, "lockFile", "") == "" then DefaultLockFile
                        else StringSetting(es, "lockFile", ""))
      && t.updateUrl == (if StringSetting(es, "updateUrl", "") == "" then DefaultUpdateUrl
                         else StringSetting(es, "updateUrl", ""))
      && t.licenseKey == StringSetting(es, "licenseKey", "")
      && t.editionIds == (if EditionsOf(es) == [] then DefaultEditionIds else EditionsOf(es))
  {
    WalkLastWins(NoSettings, es);
    WalkEditions(NoSettings, es);
  }

  /** A setting followed on its line by a block opening gets no value: the
      setting, the `{` and the closing `}` are all keys without an argument,
      so the block sets nothing, fails nowhere, and the defaults apply. */
  lemma BlockOpeningIgnored(key: string)
    ensures var es := Entries([Token(key, 1), Token("{", 1), Token("}", 2)]);
      && es == [Entry(key, None), Entry("{", None), Entry("}", None)]
      && Unmarshal(NoSettings, es) == Parsed(WithDefaults(NoSettings), None)
      && Unmarshal(NoSettings, es).settings.editionIds == DefaultEditionIds
  {
    var ts := [Token(key, 1), Token("{", 1), Token("}", 2)];
    EntriesOfLine(ts[0], ts[1], ts[2..]);
    assert ts == [ts[0], ts[1]] + ts[2..];
    assert ([ts[1]] + ts[2..])[1..] == [ts[2]];
    assert Entries([ts[2]]) == [Entry("}", None)];
    var es := Entries(ts);
    assert es == [Entry(key, None), Entry("{", None), Entry("}", None)];
    assert es[..2][..1] == [es[0]] && es[..1][..0] == [];
    assert Walk(NoSettings, es[..1]) == Parsed(NoSettings, None);
    assert Walk(NoSettings, es[..2]) == Parsed(NoSettings, None);
    assert es[..3] == es;
  }

  /** `Validate` rejects exactly a missing directory or an empty edition list. */
  lemma ValidateRejects(s: Settings)
    ensures Validate(s).Some? <==> s.databaseDirectory == "" || s.editionIds == []
  {
  }

  // ---------------------------------------------------------------------------
  // Opening the databases
  // ---------------------------------------------------------------------------

  /** The file system as `loadGeoIPReaders` sees it: whether `os.Stat` reports
      that a path does not exist, and what opening a path as a MaxMind
      database gives. */
  datatype Disk = Disk(missing: string -> bool, open: string -> Result<Database, string>)

  /** `filepath.Join(dir, name)` for a plain file name: one separator between
      the two, none added after a trailing one. */
  function PathJoin(dir: string, name: string): string {
    if dir == "" then name
    else if dir[|dir| - 1] == '/' then dir + name
    else dir + "/" + name
  }

  /** The database file of an edition. */
  function DatabasePath(dir: string, edition: string): string {
    PathJoin(dir, edition + ".mmdb")
  }

  /** The reader an edition contributes, if its file exists and opens as a
      database of a supported type. */
  function ReaderOf(dir: string, disk: Disk, edition: string): Option<Replacers.Projector> {
    var path := DatabasePath(dir, edition);
    if disk.missing(path) then None
    else match Replacers.New(disk.open(path))
      case Ok(p) => Some(p)
      case Err(_) => None
  }

  /** The readers of all editions, in edition order, skipping those that
      contribute none. */
  function Readers(dir: string, disk: Disk, editions: seq<string>): seq<Replacers.Projector>
    decreases |editions|
  {
    if editions == [] then []
    else
      var init := Readers(dir, disk, editions[..|editions| - 1]);
      match ReaderOf(dir, disk, editions[|editions| - 1])
      case Some(p) => init + [p]
      case None => init
  }

  /** An edition contributes a reader exactly when its file is not missing,
      opens, and has a supported database type; the reader then decodes that
      database. */
  lemma ReaderOfCases(dir: string, disk: Disk, edition: string)
    ensures var path := DatabasePath(dir, edition);
      ReaderOf(dir, disk, edition).Some? <==>
        !disk.missing(path) && disk.open(path).Ok? && Replacers.FamilyOf(disk.open(path).value.databaseType).Ok?
    ensures var path := DatabasePath(dir, edition);
      ReaderOf(dir, disk, edition).Some? ==>
        ReaderOf(dir, disk, edition).value.reader == disk.open(path).value.decoder &&
        Ok(ReaderOf(dir, disk, edition).value.family) == Replacers.FamilyOf(disk.open(path).value.databaseType)
  {
  }

  /** Reading two edition lists one after the other gives the readers of each, in order. */
  lemma {:induction false} ReadersAppend(dir: string, disk: Disk, a: seq<string>, b: seq<string>)
    ensures Readers(dir, disk, a + b) == Readers(dir, disk, a) + Readers(dir, disk, b)
    decreases |b|
  {
    if b == [] {
      assert a + b == a;
    } else {
      var bi := b[..|b| - 1];
      ReadersAppend(dir, disk, a, bi);
      assert (a + b)[..|a + b| - 1] == a + bi;
      assert (a + b)[|a + b| - 1] == b[|b| - 1];
    }
  }

  /** Every reader comes from one of the editions. */
  lemma {:induction false} ReadersFromEditions(dir: string, disk: Disk, editions: seq<string>)
    ensures forall p :: p in Readers(dir, disk, editions) ==>
      exists e :: e in editions && ReaderOf(dir, disk, e) == Some(p)
    decreases |editions|
  {
    if editions != [] {
      var init := editions[..|editions| - 1];
      ReadersFromEditions(dir, disk, init);
      forall p | p in Readers(dir, disk, editions)
        ensures exists e :: e in editions && ReaderOf(dir, disk, e) == Some(p)
      {
        if p in Readers(dir, disk, init) {
          var e :| e in init && ReaderOf(dir, disk, e) == Some(p);
          assert e in editions;
        } else {
          assert editions[|editions| - 1] in editions;
        }
      }
    }
  }

  /** When every edition contributes a reader, there is one reader per
      edition, in edition order. */
  lemma {:induction false} ReadersAll(dir: string, disk: Disk, editions: seq<string>)
    requires forall i :: 0 <= i < |editions| ==> ReaderOf(dir, disk, editions[i]).Some?
    ensures |Readers(dir, disk, editions)| == |editions|
    ensures forall i :: 0 <= i < |editions| ==>
      Readers(dir, disk, editions)[i] == ReaderOf(dir, disk, editions[i]).value
    decreases |editions|
  {
    if editions != [] {
      var init := editions[..|editions| - 1];
      ReadersAll(dir, disk, init);
    }
  }

  // ---------------------------------------------------------------------------
  // Looking up a request
  // ---------------------------------------------------------------------------

  /** The writes of each reader's lookup, one block per reader. */
  function LookupBlocks(readers: seq<Replacers.Projector>, clientIP: IP): (bs: seq<seq<Write>>)
    ensures |bs| == |readers|
  {
    seq(|readers|, i requires 0 <= i < |readers| => Replacers.ProjectorWrites(readers[i], clientIP))
  }

  /** The writes of every reader's lookup, reader by reader. */
  function LookupWrites(readers: seq<Replacers.Projector>, clientIP: IP): seq<Write> {
    Concat(LookupBlocks(readers, clientIP))
  }

  /** One more reader adds its lookup's writes at the end. */
  lemma LookupWritesSnoc(readers: seq<Replacers.Projector>, clientIP: IP, i: nat)
    requires i < |readers|
    ensures LookupWrites(readers[..i + 1], clientIP)
         == LookupWrites(readers[..i], clientIP) + Replacers.ProjectorWrites(readers[i], clientIP)
  {
    var bs := LookupBlocks(readers[..i + 1], clientIP);
    assert bs[..i] == LookupBlocks(readers[..i], clientIP);
  }

  /** Each lookup writes every key at most once. */
  lemma ProjectorDistinct(p: Replacers.Projector, clientIP: IP)
    ensures DistinctKeys(Replacers.ProjectorWrites(p, clientIP))
  {
    match p.family
    case Enterprise => EnterpriseFacts.EnterpriseDistinct(p.reader.enterprise(clientIP).record);
    case Isp => IspReplacer.IspKeysWritten(p.reader.isp(clientIP).record);
    case Anonymous => AnonymousReplacer.AnonymousKeysWritten(p.reader.anonymous(clientIP).record);
    case ConnectionType =>
    case Domain =>
  }

  /** No reader's lookup touches the client-address variable. */
  lemma LookupKeepsIpAddress(readers: seq<Replacers.Projector>, clientIP: IP)
    ensures Replacers.IpAddressKey !in KeysOf(LookupWrites(readers, clientIP))
  {
    var bs := LookupBlocks(readers, clientIP);
    forall i | 0 <= i < |bs| ensures Replacers.IpAddressKey !in KeysOf(bs[i]) {
      Replacers.IpAddressNotProjected(readers[i], clientIP);
    }
    ConcatKeys(bs, Replacers.IpAddressKey);
  }

  /** When several readers write the same variable the last of them wins:
      a write of reader `j` stands when no later reader writes its key. */
  lemma LaterReaderWins(m: map<string, Value>, readers: seq<Replacers.Projector>, clientIP: IP, j: nat, x: Write)
    requires j < |readers| && x in Replacers.ProjectorWrites(readers[j], clientIP)
    requires forall i :: j < i < |readers| ==> x.key !in KeysOf(Replacers.ProjectorWrites(readers[i], clientIP))
    ensures var F := Apply(m, LookupWrites(readers, clientIP));
      x.key in F && F[x.key] == x.value
  {
    var bs := LookupBlocks(readers, clientIP);
    ProjectorDistinct(readers[j], clientIP);
    ConcatLastWins(m, bs, j, x);
  }

  // ---------------------------------------------------------------------------
  // Updates
  // ---------------------------------------------------------------------------

  /** What `runGeoIPUpdate` does once it starts. */
  datatype Plan = Skip | Once | Periodic(seconds: int)

  /** The schedule as the code chooses it: nothing without credentials,
      otherwise one update, then one per tick when a frequency is set. */
  function PlanAsWritten(s: Settings): Plan {
    if s.accountId <= 0 || s.licenseKey == "" then Skip
    else if s.updateFrequency != 0 then Periodic(s.updateFrequency)
    else Once
  }

  const NanosPerSecond: int := 1_000_000_000

  /** A 64-bit two's-complement wrap-around. */
  function Wrap64(x: int): (r: int)
    ensures MinInt64 <= r <= MaxInt64
    ensures MinInt64 <= x <= MaxInt64 ==> r == x
  {
    var u := x % 0x1_0000_0000_0000_0000;
    if u > MaxInt64 then u - 0x1_0000_0000_0000_0000 else u
  }

  /** `time.Second * time.Duration(seconds)` in nanoseconds, a 64-bit product. */
  function TickInterval(seconds: int): int {
    Wrap64(seconds * NanosPerSecond)
  }

  /** `time.NewTicker` panics on an interval that is not positive. */
  predicate TickerPanics(p: Plan) {
    p.Periodic? && TickInterval(p.seconds) <= 0
  }

  /** A negative update frequency makes the update goroutine panic. */
  lemma NegativeFrequencyPanics()
    ensures PlanAsWritten(Settings(1, "/tmp/", "key", "/tmp/geoip2.lock", ["GeoLite2-City"], DefaultUpdateUrl, -1)) == Periodic(-1)
    ensures TickerPanics(Periodic(-1))
  {
  }

  /** So does a frequency whose nanosecond count does not fit in 64 bits and
      wraps to a negative one. */
  lemma HugeFrequencyPanics()
    ensures PlanAsWritten(Settings(1, "/tmp/", "key", "/tmp/geoip2.lock", ["GeoLite2-City"], DefaultUpdateUrl, 9223372037)) == Periodic(9223372037)
    ensures TickerPanics(Periodic(9223372037))
  {
  }

  /** A larger frequency can wrap to a positive count instead: then the
      ticker does not panic but ticks about every 0.29 seconds, where the
      corrected schedule updates once. */
  lemma HugeFrequencyWrapsPositive()
    ensures PlanAsWritten(Settings(1, "/tmp/", "key", "/tmp/geoip2.lock", ["GeoLite2-City"], DefaultUpdateUrl, 18446744074)) == Periodic(18446744074)
    ensures TickInterval(18446744074) == 290_448_384
    ensures !TickerPanics(Periodic(18446744074))
    ensures PlanOf(Settings(1, "/tmp/", "key", "/tmp/geoip2.lock", ["GeoLite2-City"], DefaultUpdateUrl, 18446744074)) == Once
  {
  }

  /** The largest number of seconds whose nanosecond count fits in 64 bits. */
  const MaxTickSeconds: int := MaxInt64 / NanosPerSecond

  /** The schedule with the frequency checked: periodic updates only for a
      positive frequency whose interval is representable, one update otherwise. */
  function PlanOf(s: Settings): Plan {
    if s.accountId <= 0 || s.licenseKey == "" then Skip
    else if 0 < s.updateFrequency <= MaxTickSeconds then Periodic(s.updateFrequency)
    else Once
  }

  /** The checked schedule never makes the ticker panic, ticks exactly every
      `seconds` seconds, and agrees with the code on every frequency the
      code handles. */
  lemma PlanSound(s: Settings)
    ensures !TickerPanics(PlanOf(s))
    ensures PlanOf(s).Periodic? ==> TickInterval(PlanOf(s).seconds) == PlanOf(s).seconds * NanosPerSecond > 0
    ensures 0 <= s.updateFrequency <= MaxTickSeconds ==> PlanOf(s) == PlanAsWritten(s)
    ensures PlanOf(s) == Skip <==> s.accountId <= 0 || s.licenseKey == ""
  {
  }

  /** Without credentials configured nothing is ever downloaded: a block that
      sets no account and no licence key runs no updates. */
  lemma NoCredentialsNoUpdates(es: seq<Entry>)
    requires Unmarshal(NoSettings, es).err.None?
    requires LastArg(es, "licenseKey").None? || LastArg(es, "accountId").None?
    ensures PlanOf(Unmarshal(NoSettings, es).settings) == Skip
  {
    WalkLastWins(NoSettings, es);
    WalkIntegers(NoSettings, es);
  }

  /** The editions whose download succeeded, in order. */
  function Downloaded(editions: seq<string>, fetched: string -> bool): (r: seq<string>)
    ensures forall e :: e in r <==> e in editions && fetched(e)
    decreases |editions|
  {
    if editions == [] then []
    else Downloaded(editions[..|editions| - 1], fetched) +
         (if fetched(editions[|editions| - 1]) then [editions[|editions| - 1]] else [])
  }

  /** The world one update round meets: which editions download (their file
      writer opens and the download completes), and the disk afterwards. */
  datatype Round = Round(fetched: string -> bool, disk: Disk)

  /** The state of the channel that ends the periodic updates. */
  datatype Channel = NoChannel | Open | Closed

  // ---------------------------------------------------------------------------
  // The app
  // ---------------------------------------------------------------------------

  class GeoIP2State {
    var accountId: int
    var databaseDirectory: string
    var licenseKey: string
    var lockFile: string
    var editionIds: seq<string>
    var updateUrl: string
    var updateFrequency: int
    var dbReaders: seq<Replacers.Projector>
    var done: Channel

    function Config(): Settings
      reads this
    {
      Settings(accountId, databaseDirectory, licenseKey, lockFile, editionIds, updateUrl, updateFrequency)
    }

    /** A freshly decoded app: no settings, no readers, no update loop. */
    constructor ()
      ensures Config() == NoSettings && dbReaders == [] && done == NoChannel
    {
      accountId := 0;
      databaseDirectory := "";
      licenseKey := "";
      lockFile := "";
      editionIds := [];
      updateUrl := "";
      updateFrequency := 0;
      dbReaders := [];
      done := NoChannel;
    }

    /** `UnmarshalCaddyfile`: reads the block's entries into the settings,
        stopping at the first integer setting that does not parse, then fills
        in the defaults. */
    method UnmarshalCaddyfile(entries: seq<Entry>) returns (err: Option<string>)
      modifies this
      ensures Parsed(Config(), err) == Unmarshal(old(Config()), entries)
      ensures dbReaders == old(dbReaders) && done == old(done)
    {
      ghost var start := Config();
      for i := 0 to |entries|
        invariant Walk(start, entries[..i]) == Parsed(Config(), None)
        invariant dbReaders == old(dbReaders) && done == old(done)
      {
        var e := entries[i];
        ghost var before := Config();
        assert entries[..i + 1] == entries[..i] + [e];
        WalkLast(start, entries[..i], e);
        if e.arg.Some? {
          var value := e.arg.value;
          match e.key {
            case "accountId" =>
              var n := Atoi(value);
              if n.Err? {
                err := Some(IntegerError(e.key, n.error));
                WalkStops(start, entries, i + 1);
                return;
              }
              accountId := n.value;
              assert Step(before, e) == Parsed(Config(), None);
            case "databaseDirectory" =>
              databaseDirectory := value;
              assert Step(before, e) == Parsed(Config(), None);
            case "licenseKey" =>
              licenseKey := value;
              assert Step(before, e) == Parsed(Config(), None);
            case "lockFile" =>
              lockFile := value;
              assert Step(before, e) == Parsed(Config(), None);
            case "editionID" =>
              var pieces := Split(value, ",");
              var ids := editionIds;
              for j := 0 to |pieces|
                modifies {}
                invariant ids == editionIds + TrimAll(pieces[..j])
              {
                TrimAllSnoc(pieces, j);
                ids := ids + [TrimSpace(pieces[j])];
              }
              assert pieces[..|pieces|] == pieces;
              editionIds := ids;
              assert Step(before, e) == Parsed(Config(), None);
            case "updateUrl" =>
              updateUrl := value;
              assert Step(before, e) == Parsed(Config(), None);
            case "updateFrequency" =>
              var n := Atoi(value);
              if n.Err? {
                err := Some(IntegerError(e.key, n.error));
                WalkStops(start, entries, i + 1);
                return;
              }
              updateFrequency := n.value;
              assert Step(before, e) == Parsed(Config(), None);
            case _ =>
              assert Step(before, e) == Parsed(Config(), None);
          }
        }
      }
      assert entries[..|entries|] == entries;
      if updateUrl == "" {
        updateUrl := DefaultUpdateUrl;
      }
      if databaseDirectory == "" {
        databaseDirectory := DefaultDatabaseDirectory;
      }
      if lockFile == "" {
        lockFile := DefaultLockFile;
      }
      if |editionIds| == 0 {
        editionIds := DefaultEditionIds;
      }
      err := None;
    }

    /** `loadGeoIPReaders`: opens the database of every edition and keeps the
        readers that open, in edition order. */
    method LoadGeoIPReaders(disk: Disk)
      modifies this
      ensures dbReaders == Readers(databaseDirectory, disk, editionIds)
      ensures Config() == old(Config()) && done == old(done)
    {
      var readers: seq<Replacers.Projector> := [];
      for i := 0 to |editionIds|
        invariant readers == Readers(databaseDirectory, disk, editionIds[..i])
      {
        assert editionIds[..i + 1][..i] == editionIds[..i];
        var path := DatabasePath(databaseDirectory, editionIds[i]);
        if !disk.missing(path) {
          var reader := Replacers.New(disk.open(path));
          if reader.Ok? {
            readers := readers + [reader.value];
          }
        }
      }
      assert editionIds[..|editionIds|] == editionIds;
      dbReaders := readers;
    }

    /** `lookup`: every reader sets its variables for the client, in reader order. */
    method Lookup(repl: Replacer, clientIP: IP)
      modifies repl
      ensures repl.log == old(repl.log) + LookupWrites(dbReaders, clientIP)
    {
      for i := 0 to |dbReaders|
        invariant repl.log == old(repl.log) + LookupWrites(dbReaders[..i], clientIP)
      {
        Replacers.Lookup(dbReaders[i], repl, clientIP);
        LookupWritesSnoc(dbReaders, clientIP, i);
        AppendAssociative(old(repl.log), LookupWrites(dbReaders[..i], clientIP),
                          Replacers.ProjectorWrites(dbReaders[i], clientIP));
      }
      assert dbReaders[..|dbReaders|] == dbReaders;
    }

    /** One `update`: tries to download every edition, skipping those that
        fail, then reloads the readers. */
    method Update(round: Round) returns (updated: seq<string>)
      modifies this
      ensures updated == Downloaded(editionIds, round.fetched)
      ensures dbReaders == Readers(databaseDirectory, round.disk, editionIds)
      ensures Config() == old(Config()) && done == old(done)
    {
      updated := [];
      for i := 0 to |editionIds|
        invariant updated == Downloaded(editionIds[..i], round.fetched)
      {
        assert editionIds[..i + 1][..i] == editionIds[..i];
        if round.fetched(editionIds[i]) {
          updated := updated + [editionIds[i]];
        }
      }
      assert editionIds[..|editionIds|] == editionIds;
      LoadGeoIPReaders(round.disk);
    }

    /** `runGeoIPUpdate` with the checked schedule: no updates without
        credentials; otherwise one update, then one per tick in periodic mode;
        `ticks` are the rounds the ticker delivers before `done` closes. The
        readers are those of the last round's disk. */
    method RunGeoIPUpdate(first: Round, ticks: seq<Round>) returns (rounds: nat)
      modifies this
      ensures Config() == old(Config())
      ensures PlanOf(Config()) == Skip ==> rounds == 0 && dbReaders == old(dbReaders) && done == old(done)
      ensures PlanOf(Config()) == Once ==>
        rounds == 1 && done == Open && dbReaders == Readers(databaseDirectory, first.disk, editionIds)
      ensures PlanOf(Config()).Periodic? ==>
        rounds == 1 + |ticks| && done == Open &&
        dbReaders == Readers(databaseDirectory, (if ticks == [] then first else ticks[|ticks| - 1]).disk, editionIds)
    {
      var plan := PlanOf(Config());
      if plan == Skip {
        return 0;
      }
      done := Open;
      var _ := Update(first);
      rounds := 1;
      if plan.Periodic? {
        for i := 0 to |ticks|
          invariant rounds == 1 + i && Config() == old(Config()) && done == Open
          invariant dbReaders == Readers(databaseDirectory, (if i == 0 then first else ticks[i - 1]).disk, editionIds)
        {
          var _ := Update(ticks[i]);
          rounds := rounds + 1;
        }
      }
    }

    /** `Stop`: closes the update channel if it was opened and drops the
        readers. A second close would panic, so it is called once. */
    method Stop()
      requires done != Closed
      modifies this
      ensures dbReaders == [] && Config() == old(Config())
      ensures done == if old(done) == Open then Closed else NoChannel
    {
      if done == Open {
        done := Closed;
      }
      dbReaders := [];
    }
  }
}
