/** The configuration file the setup wizard writes and a bare first run reads
    back. The wording of its comment lines is a parameter: any newline-free text
    after a `#`. */
module EnvFile {
  import opened Common
  import opened Strings

  type Setting = (string, string)

  datatype RestartMode = Unattended | Manual

  /** The wizard's answers, and the tokens and paths it generated. */
  datatype SetupParams = SetupParams(
    bind: string,
    publicUrl: string,
    relays: seq<string>,
    nodeUrl: string,
    currencies: seq<string>,
    apiToken: string,
    adminToken: string,
    webhookUrl: string,
    webhookSecret: string,
    walletPasswordFile: string,
    dataDir: string,
    dbPath: string,
    grin1Rail: bool,
    restartMode: RestartMode,
    unattendedEncrypted: bool)

  /** The comment lines, without their `#`. */
  datatype Notes = Notes(
    head: seq<string>,
    bind: string,
    publicUrl: string,
    relays: string,
    node: string,
    pricing: string,
    tokens: string,
    webhook: string,
    encrypted: seq<string>,
    plaintext: seq<string>,
    manual: seq<string>,
    state: string,
    rail: string)

  function Join(parts: seq<string>): string {
    if parts == [] then ""
    else if |parts| == 1 then parts[0]
    else parts[0] + "," + Join(parts[1..])
  }

  // ------------------------------------------------------------------ rendering

  function Comments(notes: seq<string>): seq<string> {
    seq(|notes|, k requires 0 <= k < |notes| => "#" + notes[k])
  }

  function SettingLine(s: Setting): string {
    s.0 + ['='] + s.1
  }

  function SettingLines(settings: seq<Setting>): seq<string> {
    seq(|settings|, k requires 0 <= k < |settings| => SettingLine(settings[k]))
  }

  /** One block of the file: its comments, its settings, a blank line. */
  function Section(notes: seq<string>, settings: seq<Setting>): seq<string> {
    Comments(notes) + SettingLines(settings) + [""]
  }

  function PasswordNotes(p: SetupParams, n: Notes): seq<string> {
    match p.restartMode
    case Unattended => if p.unattendedEncrypted then n.encrypted else n.plaintext
    case Manual => n.manual
  }

  const RAIL: Setting := ("GP_GRIN1_RAIL", "on")

  function RailLine(p: SetupParams): string {
    if p.grin1Rail then SettingLine(RAIL) else "#" + SettingLine(RAIL)
  }

  /** The sections up to pricing. */
  function TillLines(p: SetupParams, n: Notes): seq<string> {
    Section(n.head, [])
    + Section([n.bind], [("GP_BIND", p.bind)])
    + Section([n.publicUrl], [("GP_PUBLIC_URL", p.publicUrl)])
    + Section([n.relays], [("GP_RELAY_MODE", "external"), ("GP_RELAYS", Join(p.relays))])
    + Section([n.node], [("GP_NODE_URL", p.nodeUrl)])
    + Section([n.pricing], [("GP_RATE_CURRENCIES", Join(p.currencies)), ("GP_MATCH_MODE", "derived")])
  }

  /** The sections with tokens, secrets and paths. */
  function SecretLines(p: SetupParams, n: Notes): seq<string> {
    Section([n.tokens], [("GP_API_TOKEN", p.apiToken), ("GP_ADMIN_TOKEN", p.adminToken)])
    + Section([n.webhook], [("GP_WEBHOOK_URL", p.webhookUrl), ("GP_WEBHOOK_SECRET", p.webhookSecret)])
    + Section(PasswordNotes(p, n), [("GP_WALLET_PASSWORD_FILE", p.walletPasswordFile)])
    + Section([n.state], [("GP_DATA_DIR", p.dataDir), ("GP_DB_PATH", p.dbPath)])
  }

  /** The lines of the file, in order. */
  function EnvLines(p: SetupParams, n: Notes): seq<string> {
    TillLines(p, n) + SecretLines(p, n) + Comments([n.rail]) + [RailLine(p)]
  }

  /** Lines, each ended by a newline. */
  function Unlines(lines: seq<string>): string {
    if lines == [] then "" else Unlines(lines[..|lines| - 1]) + lines[|lines| - 1] + ['\n']
  }

  function RenderEnv(p: SetupParams, n: Notes): string {
    Unlines(EnvLines(p, n))
  }

  // -------------------------------------------------------------------- parsing

  function StripCr(line: string): string {
    if line != "" && line[|line| - 1] == '\r' then line[..|line| - 1] else line
  }

  /** Rust's `lines`: split at newlines, a carriage return before one dropped, no
      empty line after the last. */
  function Lines(text: string): seq<string>
    decreases |text|
  {
    if text == "" then []
    else
      match IndexOf(text, '\n')
      case None => [text]
      case Some(i) => [StripCr(text[..i])] + Lines(text[i + 1..])
  }

  /** The setting of one line, if it has one. */
  function ParseLine(raw: string): seq<Setting> {
    var line := Trim(raw);
    if line == "" || line[0] == '#' then []
    else
      match IndexOf(line, '=')
      case None => []
      case Some(i) =>
        var name := Trim(line[..i]);
        if name == "" then [] else [(name, Trim(line[i + 1..]))]
  }

  function ParseLines(lines: seq<string>): seq<Setting> {
    Collect(ParseLine, lines)
  }

  function ParseEnvFile(text: string): seq<Setting> {
    ParseLines(Lines(text))
  }

  // ----------------------------------------------------------------- round trip

  function TillSettings(p: SetupParams): seq<Setting> {
    [("GP_BIND", p.bind), ("GP_PUBLIC_URL", p.publicUrl), ("GP_RELAY_MODE", "external"), ("GP_RELAYS", Join(p.relays)),
     ("GP_NODE_URL", p.nodeUrl), ("GP_RATE_CURRENCIES", Join(p.currencies)), ("GP_MATCH_MODE", "derived")]
  }

  function SecretSettings(p: SetupParams): seq<Setting> {
    [("GP_API_TOKEN", p.apiToken), ("GP_ADMIN_TOKEN", p.adminToken),
     ("GP_WEBHOOK_URL", p.webhookUrl), ("GP_WEBHOOK_SECRET", p.webhookSecret),
     ("GP_WALLET_PASSWORD_FILE", p.walletPasswordFile), ("GP_DATA_DIR", p.dataDir), ("GP_DB_PATH", p.dbPath)]
  }

  /** The settings the file is meant to hold, in order. */
  function Settings(p: SetupParams): seq<Setting> {
    TillSettings(p) + SecretSettings(p) + if p.grin1Rail then [RAIL] else []
  }

  /** A value a line can carry: trimmed and newline-free. */
  predicate CleanValue(v: string) {
    '\n' !in v && Trim(v) == v
  }

  /** The wizard's free-form answers are clean. */
  predicate Clean(p: SetupParams) {
    && CleanValue(p.bind) && CleanValue(p.publicUrl) && CleanValue(Join(p.relays)) && CleanValue(p.nodeUrl)
    && CleanValue(Join(p.currencies)) && CleanValue(p.apiToken) && CleanValue(p.adminToken)
    && CleanValue(p.webhookUrl) && CleanValue(p.webhookSecret) && CleanValue(p.walletPasswordFile)
    && CleanValue(p.dataDir) && CleanValue(p.dbPath)
  }

  /** A line that survives splitting: newline-free, not ending in a carriage
      return. */
  predicate WholeLine(l: string) {
    '\n' !in l && (l != "" ==> l[|l| - 1] != '\r')
  }

  predicate WholeLines(lines: seq<string>) {
    forall k :: 0 <= k < |lines| ==> WholeLine(lines[k])
  }

  predicate WholeNotes(n: Notes) {
    && WholeLines(n.head) && WholeLines(n.encrypted) && WholeLines(n.plaintext) && WholeLines(n.manual)
    && WholeLine(n.bind) && WholeLine(n.publicUrl) && WholeLine(n.relays) && WholeLine(n.node) && WholeLine(n.pricing)
    && WholeLine(n.tokens) && WholeLine(n.webhook) && WholeLine(n.state) && WholeLine(n.rail)
  }

  lemma {:induction false} LinesFront(line: string, rest: string)
    requires WholeLine(line)
    ensures Lines(line + ['\n'] + rest) == [line] + Lines(rest)
  {
    var text := line + ['\n'] + rest;
    FindsSeparator(line, '\n', rest);
    assert text[..|line|] == line && text[|line| + 1..] == rest;
  }

  lemma {:induction false} UnlinesFront(line: string, lines: seq<string>)
    ensures Unlines([line] + lines) == line + ['\n'] + Unlines(lines)
  {
    if lines == [] {
      assert ([line] + lines)[..0] == [];
      assert Unlines([line]) == Unlines([]) + line + ['\n'];
    } else {
      var n := |lines|;
      UnlinesFront(line, lines[..n - 1]);
      assert ([line] + lines)[..n] == [line] + lines[..n - 1];
    }
  }

  /** Splitting undoes joining. */
  lemma {:induction false} LinesUndoUnlines(lines: seq<string>)
    requires WholeLines(lines)
    ensures Lines(Unlines(lines)) == lines
  {
    if lines != [] {
      assert lines == [lines[0]] + lines[1..];
      UnlinesFront(lines[0], lines[1..]);
      LinesFront(lines[0], Unlines(lines[1..]));
      LinesUndoUnlines(lines[1..]);
    }
  }

  lemma {:induction false} CollectNothing<A, B>(f: A -> seq<B>, xs: seq<A>)
    requires forall k :: 0 <= k < |xs| ==> f(xs[k]) == []
    ensures Collect(f, xs) == []
  {
    if xs != [] { CollectNothing(f, xs[..|xs| - 1]); }
  }

  lemma {:induction false} CollectOneEach<A, B>(f: A -> seq<B>, xs: seq<A>, ys: seq<B>)
    requires |xs| == |ys| && forall k :: 0 <= k < |xs| ==> f(xs[k]) == [ys[k]]
    ensures Collect(f, xs) == ys
  {
    if xs != [] {
      var n := |xs| - 1;
      CollectOneEach(f, xs[..n], ys[..n]);
      assert ys == ys[..n] + [ys[n]];
    }
  }

  lemma {:induction false} KeepsHead(s: string)
    requires s != "" && !White(s[0])
    ensures TrimEnd(s) != "" && TrimEnd(s)[0] == s[0]
  {
    if White(s[|s| - 1]) { KeepsHead(s[..|s| - 1]); }
  }

  lemma CommentLineIsSkipped(note: string)
    ensures ParseLine("#" + note) == []
  {
    KeepsHead("#" + note);
  }

  predicate IsName(name: string) {
    name != "" && Trim(name) == name && '=' !in name && name[0] != '#' && !White(name[0]) && WholeLine(name)
  }

  lemma SettingLineParses(s: Setting)
    requires IsName(s.0) && CleanValue(s.1)
    ensures ParseLine(SettingLine(s)) == [s] && WholeLine(SettingLine(s))
  {
    var line := s.0 + ['='] + s.1;
    TrimTrims(s.1);
    assert line[0] == s.0[0];
    assert line[|line| - 1] == if s.1 == "" then '=' else s.1[|s.1| - 1];
    FindsSeparator(s.0, '=', s.1);
    assert line[..|s.0|] == s.0 && line[|s.0| + 1..] == s.1;
  }

  lemma CommentsAreSkipped(notes: seq<string>)
    requires WholeLines(notes)
    ensures ParseLines(Comments(notes)) == [] && WholeLines(Comments(notes))
  {
    forall k | 0 <= k < |notes| ensures WholeLine(Comments(notes)[k]) && ParseLine(Comments(notes)[k]) == [] {
      assert WholeLine(notes[k]);
      CommentLineIsSkipped(notes[k]);
    }
    CollectNothing(ParseLine, Comments(notes));
  }

  predicate AllParse(settings: seq<Setting>) {
    forall k :: 0 <= k < |settings| ==> IsName(settings[k].0) && CleanValue(settings[k].1)
  }

  lemma SettingsParse(settings: seq<Setting>)
    requires AllParse(settings)
    ensures ParseLines(SettingLines(settings)) == settings && WholeLines(SettingLines(settings))
  {
    forall k | 0 <= k < |settings|
      ensures WholeLine(SettingLines(settings)[k]) && ParseLine(SettingLines(settings)[k]) == [settings[k]]
    {
      SettingLineParses(settings[k]);
    }
    CollectOneEach(ParseLine, SettingLines(settings), settings);
  }

  /** Parses to these settings, line by line. */
  ghost predicate ParsesTo(lines: seq<string>, settings: seq<Setting>) {
    WholeLines(lines) && ParseLines(lines) == settings
  }

  lemma ParsesConcat(a: seq<string>, s: seq<Setting>, b: seq<string>, t: seq<Setting>)
    requires ParsesTo(a, s) && ParsesTo(b, t)
    ensures ParsesTo(a + b, s + t)
  {
    CollectConcat(ParseLine, a, b);
  }

  /** A section parses to its settings. */
  lemma SectionParses(notes: seq<string>, settings: seq<Setting>)
    requires WholeLines(notes) && AllParse(settings)
    ensures ParsesTo(Section(notes, settings), settings)
  {
    CommentsAreSkipped(notes);
    SettingsParse(settings);
    ParsesConcat(Comments(notes), [], SettingLines(settings), settings);
    assert ParseLines([""]) == Collect(ParseLine, []) + ParseLine("") == [];
    ParsesConcat(Comments(notes) + SettingLines(settings), [] + settings, [""], []);
  }

  lemma NamesOfTheAddresses()
    ensures IsName("GP_BIND") && IsName("GP_PUBLIC_URL")
  {
  }

  lemma NamesOfThePrices()
    ensures IsName("GP_NODE_URL") && IsName("GP_RATE_CURRENCIES") && IsName("GP_MATCH_MODE")
  {
  }

  lemma NamesOfThePaths()
    ensures IsName("GP_WALLET_PASSWORD_FILE") && IsName("GP_DATA_DIR") && IsName("GP_DB_PATH") && IsName("GP_GRIN1_RAIL")
  {
  }

  lemma OneParses(note: string, name: string, value: string)
    requires WholeLine(note) && IsName(name) && CleanValue(value)
    ensures ParsesTo(Section([note], [(name, value)]), [(name, value)])
  {
    SectionParses([note], [(name, value)]);
  }

  lemma TwoParse(note: string, a: Setting, b: Setting)
    requires WholeLine(note) && IsName(a.0) && CleanValue(a.1) && IsName(b.0) && CleanValue(b.1)
    ensures ParsesTo(Section([note], [a, b]), [a, b])
  {
    SectionParses([note], [a, b]);
  }

  lemma AddressesParse(p: SetupParams, n: Notes)
    requires Clean(p) && WholeNotes(n)
    ensures ParsesTo(
              Section(n.head, []) + Section([n.bind], [("GP_BIND", p.bind)]) + Section([n.publicUrl], [("GP_PUBLIC_URL", p.publicUrl)]),
              [("GP_BIND", p.bind), ("GP_PUBLIC_URL", p.publicUrl)])
  {
    NamesOfTheAddresses();
    var lines := Section(n.head, []);
    SectionParses(n.head, []);
    OneParses(n.bind, "GP_BIND", p.bind);
    var s1: seq<Setting> := [("GP_BIND", p.bind)];
    ParsesConcat(lines, [], Section([n.bind], s1), s1);
    lines := lines + Section([n.bind], s1);
    OneParses(n.publicUrl, "GP_PUBLIC_URL", p.publicUrl);
    var s2: seq<Setting> := [("GP_PUBLIC_URL", p.publicUrl)];
    ParsesConcat(lines, [] + s1, Section([n.publicUrl], s2), s2);
    assert [] + s1 + s2 == [s1[0], s2[0]];
  }

  lemma TillParses(p: SetupParams, n: Notes)
    requires Clean(p) && WholeNotes(n)
    ensures ParsesTo(TillLines(p, n), TillSettings(p))
  {
    NamesOfThePrices();
    AddressesParse(p, n);
    var lines := Section(n.head, []) + Section([n.bind], [("GP_BIND", p.bind)]) + Section([n.publicUrl], [("GP_PUBLIC_URL", p.publicUrl)]);
    var s2: seq<Setting> := [("GP_BIND", p.bind), ("GP_PUBLIC_URL", p.publicUrl)];
    TwoParse(n.relays, ("GP_RELAY_MODE", "external"), ("GP_RELAYS", Join(p.relays)));
    var s3: seq<Setting> := [("GP_RELAY_MODE", "external"), ("GP_RELAYS", Join(p.relays))];
    ParsesConcat(lines, s2, Section([n.relays], s3), s3);
    lines := lines + Section([n.relays], s3);
    OneParses(n.node, "GP_NODE_URL", p.nodeUrl);
    var s4: seq<Setting> := [("GP_NODE_URL", p.nodeUrl)];
    ParsesConcat(lines, s2 + s3, Section([n.node], s4), s4);
    lines := lines + Section([n.node], s4);
    TwoParse(n.pricing, ("GP_RATE_CURRENCIES", Join(p.currencies)), ("GP_MATCH_MODE", "derived"));
    var s5: seq<Setting> := [("GP_RATE_CURRENCIES", Join(p.currencies)), ("GP_MATCH_MODE", "derived")];
    ParsesConcat(lines, s2 + s3 + s4, Section([n.pricing], s5), s5);
    assert s2 + s3 + s4 + s5 == TillSettings(p);
  }

  lemma SecretsParse(p: SetupParams, n: Notes)
    requires Clean(p) && WholeNotes(n)
    ensures ParsesTo(SecretLines(p, n), SecretSettings(p))
  {
    NamesOfThePaths();
    var s1: seq<Setting> := [("GP_API_TOKEN", p.apiToken), ("GP_ADMIN_TOKEN", p.adminToken)];
    var s2: seq<Setting> := [("GP_WEBHOOK_URL", p.webhookUrl), ("GP_WEBHOOK_SECRET", p.webhookSecret)];
    var s3: seq<Setting> := [("GP_WALLET_PASSWORD_FILE", p.walletPasswordFile)];
    var s4: seq<Setting> := [("GP_DATA_DIR", p.dataDir), ("GP_DB_PATH", p.dbPath)];
    TwoParse(n.tokens, s1[0], s1[1]);
    var lines := Section([n.tokens], s1);
    TwoParse(n.webhook, s2[0], s2[1]);
    ParsesConcat(lines, s1, Section([n.webhook], s2), s2);
    lines := lines + Section([n.webhook], s2);
    SectionParses(PasswordNotes(p, n), s3);
    ParsesConcat(lines, s1 + s2, Section(PasswordNotes(p, n), s3), s3);
    lines := lines + Section(PasswordNotes(p, n), s3);
    TwoParse(n.state, s4[0], s4[1]);
    ParsesConcat(lines, s1 + s2 + s3, Section([n.state], s4), s4);
    assert s1 + s2 + s3 + s4 == SecretSettings(p);
  }

  /** The rail is armed by one setting line, or left as a comment. */
  lemma RailLineParses(p: SetupParams)
    ensures ParsesTo([RailLine(p)], if p.grin1Rail then [RAIL] else [])
  {
    if p.grin1Rail {
      NamesOfThePaths();
      SettingLineParses(RAIL);
      CollectOneEach(ParseLine, [RailLine(p)], [RAIL]);
    } else {
      NamesOfThePaths();
      SettingLineParses(RAIL);
      CommentLineIsSkipped(SettingLine(RAIL));
      CollectNothing(ParseLine, [RailLine(p)]);
    }
  }

  lemma Regroup<T>(a: seq<T>, b: seq<T>, c: seq<T>)
    ensures a + b + c == a + (b + c)
  {
  }

  lemma CleanRoundTrips(p: SetupParams, n: Notes)
    requires Clean(p) && WholeNotes(n)
    ensures ParseEnvFile(RenderEnv(p, n)) == Settings(p)
  {
    var rail := if p.grin1Rail then [RAIL] else [];
    TillParses(p, n);
    SecretsParse(p, n);
    CommentsAreSkipped([n.rail]);
    RailLineParses(p);
    ParsesConcat(Comments([n.rail]), [], [RailLine(p)], rail);
    assert [] + rail == rail;
    ParsesConcat(TillLines(p, n), TillSettings(p), SecretLines(p, n), SecretSettings(p));
    var lines := TillLines(p, n) + SecretLines(p, n);
    ParsesConcat(lines, TillSettings(p) + SecretSettings(p), Comments([n.rail]) + [RailLine(p)], rail);
    Regroup(lines, Comments([n.rail]), [RailLine(p)]);
    LinesUndoUnlines(EnvLines(p, n));
  }

  lemma {:induction false} FirstIsFirst(s: string, c: char)
    ensures IndexOf(s, c).Some? ==> c !in s[..IndexOf(s, c).value]
  {
    if s != [] && s[0] != c && IndexOf(s[1..], c).Some? {
      FirstIsFirst(s[1..], c);
      var i := IndexOf(s[1..], c).value;
      assert s[..i + 1] == [s[0]] + s[1..][..i];
    }
  }

  lemma {:induction false} LinesAreWhole(text: string)
    ensures forall k :: 0 <= k < |Lines(text)| ==> '\n' !in Lines(text)[k]
    decreases |text|
  {
    if text != "" && IndexOf(text, '\n').Some? {
      var i := IndexOf(text, '\n').value;
      LinesAreWhole(text[i + 1..]);
      FirstIsFirst(text, '\n');
    }
  }

  /** A key that is not blank and a value, both trimmed and newline-free. */
  predicate CleanSetting(s: Setting) {
    s.0 != "" && CleanValue(s.0) && CleanValue(s.1)
  }

  lemma LineSettingIsClean(raw: string)
    requires '\n' !in raw
    ensures forall k :: 0 <= k < |ParseLine(raw)| ==> CleanSetting(ParseLine(raw)[k])
  {
    var line := Trim(raw);
    TrimTrims(raw);
    if IndexOf(line, '=').Some? {
      var tail := line[IndexOf(line, '=').value + 1..];
      TrimTrims(tail);
      assert forall c :: c in tail ==> c in line;
      var name := line[..IndexOf(line, '=').value];
      TrimTrims(name);
      assert forall c :: c in name ==> c in line;
    }
  }

  predicate AllGood<B>(ys: seq<B>, good: B -> bool) {
    forall k :: 0 <= k < |ys| ==> good(ys[k])
  }

  lemma {:induction false} CollectKeeps<A, B>(f: A -> seq<B>, xs: seq<A>, good: B -> bool)
    requires forall k :: 0 <= k < |xs| ==> AllGood(f(xs[k]), good)
    ensures AllGood(Collect(f, xs), good)
  {
    if xs != [] { CollectKeeps(f, xs[..|xs| - 1], good); }
  }

  /** Whatever the text, every setting read from it is clean. */
  lemma ParsedSettingsAreClean(text: string)
    ensures forall k :: 0 <= k < |ParseEnvFile(text)| ==> CleanSetting(ParseEnvFile(text)[k])
  {
    LinesAreWhole(text);
    forall k | 0 <= k < |Lines(text)| ensures AllGood(ParseLine(Lines(text)[k]), CleanSetting) {
      LineSettingIsClean(Lines(text)[k]);
    }
    CollectKeeps(ParseLine, Lines(text), CleanSetting);
  }

  /** Reading the file back gives every key exactly once with exactly its value, in
      all three restart shapes, if and only if every answer is trimmed and free of
      newlines. */
  lemma ParseUndoesRender(p: SetupParams, n: Notes)
    requires WholeNotes(n)
    ensures ParseEnvFile(RenderEnv(p, n)) == Settings(p) <==> Clean(p)
  {
    if Clean(p) {
      CleanRoundTrips(p, n);
    } else {
      ParsedSettingsAreClean(RenderEnv(p, n));
      var s := Settings(p);
      assert s[0].1 == p.bind && s[1].1 == p.publicUrl && s[3].1 == Join(p.relays) && s[4].1 == p.nodeUrl;
      assert s[5].1 == Join(p.currencies) && s[7].1 == p.apiToken && s[8].1 == p.adminToken && s[9].1 == p.webhookUrl;
      assert s[10].1 == p.webhookSecret && s[11].1 == p.walletPasswordFile && s[12].1 == p.dataDir && s[13].1 == p.dbPath;
    }
  }

  /** What a first run reads the pairs into: a later pair wins. */
  function AsMap(pairs: seq<Setting>): map<string, string> {
    if pairs == [] then map[]
    else AsMap(pairs[..|pairs| - 1])[pairs[|pairs| - 1].0 := pairs[|pairs| - 1].1]
  }

  /** With every key once, the map holds each pair and nothing else. */
  lemma {:induction false} UniqueKeysAreKept(pairs: seq<Setting>)
    requires forall j, k :: 0 <= j < k < |pairs| ==> pairs[j].0 != pairs[k].0
    ensures forall name, value :: (name in AsMap(pairs) && AsMap(pairs)[name] == value) <==> (name, value) in pairs
  {
    if pairs != [] {
      var n := |pairs| - 1;
      UniqueKeysAreKept(pairs[..n]);
      assert pairs == pairs[..n] + [pairs[n]];
    }
  }

  /** No key is written twice. */
  lemma KeysAreUnique(p: SetupParams)
    ensures forall j, k :: 0 <= j < k < |Settings(p)| ==> Settings(p)[j].0 != Settings(p)[k].0
  {
  }

  /** Looked up by key, the file gives each setting exactly its value, and no
      other key. */
  lemma LookupFindsEachValue(p: SetupParams, n: Notes)
    requires Clean(p) && WholeNotes(n)
    ensures var env := AsMap(ParseEnvFile(RenderEnv(p, n)));
            forall name, value :: (name in env && env[name] == value) <==> (name, value) in Settings(p)
  {
    CleanRoundTrips(p, n);
    KeysAreUnique(p);
    UniqueKeysAreKept(Settings(p));
  }

  lemma SecretKeys(p: SetupParams)
    ensures forall s :: s in SecretSettings(p) ==> s.0 != "GP_MNEMONIC" && s.0 != "GP_WALLET_PASSWORD" && s.0 != RAIL.0
  {
  }

  lemma TillKeys(p: SetupParams)
    ensures forall s :: s in TillSettings(p) ==> s.0 != "GP_MNEMONIC" && s.0 != "GP_WALLET_PASSWORD" && s.0 != RAIL.0
  {
  }

  /** The rail key is armed iff the rail is on, and the file holds neither the seed
      nor the wallet password. */
  lemma RailIffAskedAndNoSecrets(p: SetupParams, n: Notes)
    requires Clean(p) && WholeNotes(n)
    ensures ("GP_GRIN1_RAIL", "on") in ParseEnvFile(RenderEnv(p, n)) <==> p.grin1Rail
    ensures forall s :: s in ParseEnvFile(RenderEnv(p, n)) ==> s.0 != "GP_MNEMONIC" && s.0 != "GP_WALLET_PASSWORD"
  {
    CleanRoundTrips(p, n);
    SecretKeys(p);
    TillKeys(p);
    assert RAIL.0 != "GP_MNEMONIC" && RAIL.0 != "GP_WALLET_PASSWORD";
  }

  function Kept(part: string): seq<string> {
    if Trim(part) == "" then [] else [Trim(part)]
  }

  /** How the server reads a list: split at commas, each part trimmed, blanks
      dropped. */
  function ReadList(text: string): seq<string>
    decreases |text|
  {
    match IndexOf(text, ',')
    case None => Kept(text)
    case Some(i) => Kept(text[..i]) + ReadList(text[i + 1..])
  }

  predicate Listable(parts: seq<string>) {
    forall k :: 0 <= k < |parts| ==> parts[k] != "" && Trim(parts[k]) == parts[k] && ',' !in parts[k]
  }

  lemma {:induction false} ReadListUndoesJoin(parts: seq<string>)
    requires Listable(parts)
    ensures ReadList(Join(parts)) == parts
  {
    if |parts| > 1 {
      ReadListUndoesJoin(parts[1..]);
      FindsSeparator(parts[0], ',', Join(parts[1..]));
      assert parts[0] + "," + Join(parts[1..]) == parts[0] + [','] + Join(parts[1..]);
    }
  }

  lemma ListSettings(p: SetupParams)
    ensures ("GP_RELAYS", Join(p.relays)) in Settings(p) && ("GP_RATE_CURRENCIES", Join(p.currencies)) in Settings(p)
  {
    assert TillSettings(p)[3] == ("GP_RELAYS", Join(p.relays)) && TillSettings(p)[5] == ("GP_RATE_CURRENCIES", Join(p.currencies));
  }

  /** The two lists of the file read back as they were given. */
  lemma ListsReadBack(p: SetupParams, n: Notes)
    requires Clean(p) && WholeNotes(n) && Listable(p.relays) && Listable(p.currencies)
    ensures var env := AsMap(ParseEnvFile(RenderEnv(p, n)));
            && "GP_RELAYS" in env && ReadList(env["GP_RELAYS"]) == p.relays
            && "GP_RATE_CURRENCIES" in env && ReadList(env["GP_RATE_CURRENCIES"]) == p.currencies
  {
    LookupFindsEachValue(p, n);
    ReadListUndoesJoin(p.relays);
    ReadListUndoesJoin(p.currencies);
    ListSettings(p);
  }

  // ---------------------------------------------------------------- as they run

  /** `parse_env_file`: line by line, pushing pairs. */
  method ParseAll(text: string) returns (pairs: seq<Setting>)
    ensures pairs == ParseEnvFile(text)
  {
    var lines := Lines(text);
    pairs := [];
    for k := 0 to |lines|
      invariant pairs == ParseLines(lines[..k])
    {
      assert lines[..k + 1][..k] == lines[..k];
      var line := Trim(lines[k]);
      if line == "" || line[0] == '#' { continue; }
      var i := IndexOf(line, '=');
      if i.Some? {
        var name := Trim(line[..i.value]);
        if name != "" {
          pairs := pairs + [(name, Trim(line[i.value + 1..]))];
        }
      }
    }
    assert lines[..|lines|] == lines;
  }

  method AppendLine(text: string, line: string, ghost lines: seq<string>) returns (text': string)
    requires text == Unlines(lines)
    ensures text' == Unlines(lines + [line])
  {
    text' := text + line + ['\n'];
    assert (lines + [line])[..|lines|] == lines;
  }

  method AppendAll(text: string, more: seq<string>, ghost lines: seq<string>) returns (text': string)
    requires text == Unlines(lines)
    ensures text' == Unlines(lines + more)
  {
    text' := text;
    assert lines + more[..0] == lines;
    for k := 0 to |more|
      invariant text' == Unlines(lines + more[..k])
    {
      text' := AppendLine(text', more[k], lines + more[..k]);
      assert lines + more[..k + 1] == lines + more[..k] + [more[k]];
    }
    assert more[..|more|] == more;
  }

  method AppendSection(text: string, notes: seq<string>, settings: seq<Setting>, ghost lines: seq<string>) returns (text': string)
    requires text == Unlines(lines)
    ensures text' == Unlines(lines + Section(notes, settings))
  {
    text' := AppendAll(text, Comments(notes), lines);
    text' := AppendAll(text', SettingLines(settings), lines + Comments(notes));
    text' := AppendLine(text', "", lines + Comments(notes) + SettingLines(settings));
    assert lines + Comments(notes) + SettingLines(settings) + [""] == lines + Section(notes, settings);
  }

  method RenderTill(p: SetupParams, n: Notes) returns (text: string)
    ensures text == Unlines(TillLines(p, n))
  {
    text := AppendSection("", n.head, [], []);
    ghost var lines := Section(n.head, []);
    assert [] + lines == lines;
    var bind: seq<Setting> := [("GP_BIND", p.bind)];
    text := AppendSection(text, [n.bind], bind, lines);
    lines := lines + Section([n.bind], bind);
    var publicUrl: seq<Setting> := [("GP_PUBLIC_URL", p.publicUrl)];
    text := AppendSection(text, [n.publicUrl], publicUrl, lines);
    lines := lines + Section([n.publicUrl], publicUrl);
    var relays: seq<Setting> := [("GP_RELAY_MODE", "external"), ("GP_RELAYS", Join(p.relays))];
    text := AppendSection(text, [n.relays], relays, lines);
    lines := lines + Section([n.relays], relays);
    var node: seq<Setting> := [("GP_NODE_URL", p.nodeUrl)];
    text := AppendSection(text, [n.node], node, lines);
    lines := lines + Section([n.node], node);
    var pricing: seq<Setting> := [("GP_RATE_CURRENCIES", Join(p.currencies)), ("GP_MATCH_MODE", "derived")];
    text := AppendSection(text, [n.pricing], pricing, lines);
  }

  method RenderSecrets(text: string, p: SetupParams, n: Notes) returns (text': string)
    requires text == Unlines(TillLines(p, n))
    ensures text' == Unlines(TillLines(p, n) + SecretLines(p, n))
  {
    ghost var start := TillLines(p, n);
    var tokens: seq<Setting> := [("GP_API_TOKEN", p.apiToken), ("GP_ADMIN_TOKEN", p.adminToken)];
    text' := AppendSection(text, [n.tokens], tokens, start);
    ghost var lines := Section([n.tokens], tokens);
    var webhook: seq<Setting> := [("GP_WEBHOOK_URL", p.webhookUrl), ("GP_WEBHOOK_SECRET", p.webhookSecret)];
    text' := AppendSection(text', [n.webhook], webhook, start + lines);
    Regroup(start, lines, Section([n.webhook], webhook));
    lines := lines + Section([n.webhook], webhook);
    var password: seq<Setting> := [("GP_WALLET_PASSWORD_FILE", p.walletPasswordFile)];
    text' := AppendSection(text', PasswordNotes(p, n), password, start + lines);
    Regroup(start, lines, Section(PasswordNotes(p, n), password));
    lines := lines + Section(PasswordNotes(p, n), password);
    var state: seq<Setting> := [("GP_DATA_DIR", p.dataDir), ("GP_DB_PATH", p.dbPath)];
    text' := AppendSection(text', [n.state], state, start + lines);
    Regroup(start, lines, Section([n.state], state));
  }

  /** `render_env`: append section after section. */
  method RenderAll(p: SetupParams, n: Notes) returns (text: string)
    ensures text == RenderEnv(p, n)
  {
    text := RenderTill(p, n);
    text := RenderSecrets(text, p, n);
    ghost var lines := TillLines(p, n) + SecretLines(p, n);
    text := AppendLine(text, "#" + n.rail, lines);
    text := AppendLine(text, RailLine(p), lines + ["#" + n.rail]);
    assert Comments([n.rail]) == ["#" + n.rail];
  }
}
