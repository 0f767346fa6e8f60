/** The file SaveDefaultConfiguration writes when LoadConfiguration finds
    no INI file, and the proof that reading it back gives exactly the member
    initialisers of PluginConfig. */
module DefaultFile {
  import opened Wrappers
  import opened Text
  import opened Numeric
  import opened Settings

  /** The text SaveDefaultConfiguration writes after `key=` for each
      setting. */
  function DefaultText(f: Field): string
  {
    match f
    case QuestEnabled => "true"
    case QuestEditorID => "YW_Quest_MDF"
    case QuestPlugin => "YurianaWench.esp"
    case TriggerStage => "21"
    case CompletionStage => "30"
    case QuestShowNotification => "true"
    case ItemEnabled => "true"
    case ItemID => "625C7C"
    case ItemPlugin => "YurianaWench.esp"
    case ItemName => "Lelyna's Remedy"
    case RemoveOnDetection => "true"
    case ItemShowNotification => "true"
    case MessagesEnabled => "true"
    case TriggerMessage => DefaultTriggerMessage
    case CompletionMessage => DefaultCompletionMessage
    case ShowTriggerMessage => "true"
    case ShowCompletionMessage => "true"
    case MonitoringEnabled => "true"
    case CheckIntervalMs => "1000"
    case NotificationEnabled => "true"
  }

  /** Every text of the default file reads back as the initial value of its
      setting: the file and the member initialisers of PluginConfig agree. */
  lemma DefaultTextReads(f: Field)
    ensures Clean(DefaultText(f)) && Decode(f, DefaultText(f)) == Some(Get(DefaultConfig, f))
  {
    match f
    case TriggerStage | CompletionStage | CheckIntervalMs => NumberTextReads(f);
    case TriggerMessage | CompletionMessage => MessageTextsClean();
    case QuestEditorID | QuestPlugin | ItemID | ItemPlugin | ItemName =>
    case QuestEnabled | QuestShowNotification | ItemEnabled | RemoveOnDetection | ItemShowNotification
      | MessagesEnabled | ShowTriggerMessage | ShowCompletionMessage | MonitoringEnabled | NotificationEnabled =>
      assert DefaultText(f) == "true";
  }

  /** The three integer settings: "21", "30" and "1000" are what
      std::to_string gives for the initial values, so std::stoi reads them
      back. */
  lemma NumberTextReads(f: Field)
    requires KindOf(f) == IntKind
    ensures Clean(DefaultText(f)) && Decode(f, DefaultText(f)) == Some(Get(DefaultConfig, f))
  {
    match f
    case TriggerStage =>
      TwentyOneText();
      DecimalReads(21, "21");
    case CompletionStage =>
      ThirtyText();
      DecimalReads(30, "30");
    case CheckIntervalMs =>
      ThousandText();
      DecimalReads(1000, "1000");
  }

  lemma TwentyOneText()
    ensures IntToDecimal(21) == "21"
  {
    assert NatToDecimal(2) == "2";
  }

  lemma ThirtyText()
    ensures IntToDecimal(30) == "30"
  {
    assert NatToDecimal(3) == "3";
  }

  lemma ThousandText()
    ensures IntToDecimal(1000) == "1000"
  {
    assert NatToDecimal(1) == "1" && NatToDecimal(10) == "10" && NatToDecimal(100) == "100";
  }

  /** Both default messages start and end with a letter or a stop, so the
      reader's trimming leaves them whole. */
  lemma MessageTextsClean()
    ensures Clean(DefaultTriggerMessage) && Clean(DefaultCompletionMessage)
  {
    CleanJoin("You must craft Lelyna's Remedy", " to cure Elora.", " Check your inventory for the recipe.");
    CleanJoin("You have crafted the potion", " and the temple girls are very happy.", " You have saved Elora!");
  }

  /** The decimal text of a number in range is clean and reads as that
      number. */
  lemma DecimalReads(n: nat, text: string)
    requires n <= Int32Max && IntToDecimal(n) == text
    ensures ParseInt(text) == Some(n) && Clean(text)
  {
    ParseIntOfDecimal(n);
    DigitsClean(IntToDecimal(n));
  }

  /** A run of decimal digits neither starts nor ends with white space. */
  lemma DigitsClean(s: string)
    requires |s| > 0 && AllDigits(s, 10)
    ensures Clean(s)
  {
    assert IsDigitIn(s[0], 10) && IsDigitIn(s[|s| - 1], 10);
  }

  /** The settings of each group of the default file, in the order the file
      lists them. */
  function QuestFields(): (fs: seq<Field>)
    ensures forall i :: 0 <= i < |fs| ==> SectionName(fs[i]) == "Quest"
  {
    [QuestEnabled, QuestEditorID, QuestPlugin, TriggerStage, CompletionStage, QuestShowNotification]
  }

  function ItemFields(): (fs: seq<Field>)
    ensures forall i :: 0 <= i < |fs| ==> SectionName(fs[i]) == "Item"
  {
    [ItemEnabled, ItemID, ItemPlugin, ItemName, RemoveOnDetection, ItemShowNotification]
  }

  function MessagesFields(): (fs: seq<Field>)
    ensures forall i :: 0 <= i < |fs| ==> SectionName(fs[i]) == "Messages"
  {
    [MessagesEnabled, TriggerMessage, CompletionMessage, ShowTriggerMessage, ShowCompletionMessage]
  }

  function MonitoringFields(): (fs: seq<Field>)
    ensures forall i :: 0 <= i < |fs| ==> SectionName(fs[i]) == "Monitoring"
  {
    [MonitoringEnabled, CheckIntervalMs]
  }

  function NotificationFields(): (fs: seq<Field>)
    ensures forall i :: 0 <= i < |fs| ==> SectionName(fs[i]) == "Notification"
  {
    [NotificationEnabled]
  }

  /** Every setting belongs to one of the groups of the default file. */
  lemma EveryFieldWritten(f: Field)
    ensures f in QuestFields() || f in ItemFields() || f in MessagesFields() ||
            f in MonitoringFields() || f in NotificationFields()
  {
    match f
    case QuestEnabled | QuestEditorID | QuestPlugin | TriggerStage | CompletionStage | QuestShowNotification =>
      assert QuestFields()[0] == QuestEnabled && QuestFields()[1] == QuestEditorID && QuestFields()[2] == QuestPlugin;
      assert QuestFields()[3] == TriggerStage && QuestFields()[4] == CompletionStage && QuestFields()[5] == QuestShowNotification;
    case ItemEnabled | ItemID | ItemPlugin | ItemName | RemoveOnDetection | ItemShowNotification =>
      assert ItemFields()[0] == ItemEnabled && ItemFields()[1] == ItemID && ItemFields()[2] == ItemPlugin;
      assert ItemFields()[3] == ItemName && ItemFields()[4] == RemoveOnDetection && ItemFields()[5] == ItemShowNotification;
    case MessagesEnabled | TriggerMessage | CompletionMessage | ShowTriggerMessage | ShowCompletionMessage =>
      assert MessagesFields()[0] == MessagesEnabled && MessagesFields()[1] == TriggerMessage;
      assert MessagesFields()[2] == CompletionMessage && MessagesFields()[3] == ShowTriggerMessage;
      assert MessagesFields()[4] == ShowCompletionMessage;
    case MonitoringEnabled | CheckIntervalMs =>
      assert MonitoringFields()[0] == MonitoringEnabled && MonitoringFields()[1] == CheckIntervalMs;
    case NotificationEnabled =>
      assert NotificationFields()[0] == NotificationEnabled;
  }

  /** One `key=value` line per setting of fs, each with its default text. */
  function DefaultEntries(fs: seq<Field>): (lines: seq<string>)
    ensures |lines| == |fs|
    ensures forall i :: 0 <= i < |fs| ==> lines[i] == AssignmentLine(fs[i], DefaultText(fs[i]))
  {
    if fs == [] then [] else [AssignmentLine(fs[0], DefaultText(fs[0]))] + DefaultEntries(fs[1..])
  }

  /** A group of the default file: the header of f's section and the
      entries of fs. */
  function GroupLines(f: Field, fs: seq<Field>): seq<string>
  {
    [HeaderLine(f)] + DefaultEntries(fs)
  }

  /** The [Monitoring] group also writes this line, whose key the reader
      does not know. */
  const MaxDistanceLine: string := EntryLine("MaxDetectionDistance", "5000.0")

  /** The lines SaveDefaultConfiguration writes when no INI file exists, as
      the reader gets them back one by one: five groups, each but the last
      followed by an empty line. */
  function DefaultIniLines(): seq<string>
  {
    Layout(QuestEnabled, QuestFields(), ItemEnabled, ItemFields(), MessagesEnabled, MessagesFields(),
           MonitoringEnabled, MonitoringFields(), NotificationEnabled, NotificationFields())
  }

  /** The shape of the default file: five groups, each but the last
      followed by an empty line, the fourth also by MaxDistanceLine before it. */
  function Layout(h1: Field, fs1: seq<Field>, h2: Field, fs2: seq<Field>, h3: Field, fs3: seq<Field>,
                  h4: Field, fs4: seq<Field>, h5: Field, fs5: seq<Field>): seq<string>
  {
    GroupLines(h1, fs1) + [""] + GroupLines(h2, fs2) + [""] + GroupLines(h3, fs3) + [""] +
    GroupLines(h4, fs4) + [MaxDistanceLine] + [""] + GroupLines(h5, fs5)
  }

  /** The settings c after each setting of fs is given its initial value. */
  function ResetAll(c: PluginConfig, fs: seq<Field>): (r: PluginConfig)
    ensures forall g: Field :: Get(r, g) == if g in fs then Get(DefaultConfig, g) else Get(c, g)
    decreases |fs|
  {
    if fs == [] then c
    else
      var next := Set(c, fs[0], Get(DefaultConfig, fs[0]));
      var r := ResetAll(next, fs[1..]);
      assert forall g: Field :: g in fs <==> g == fs[0] || g in fs[1..];
      r
  }

  /** Inside their section, the default entries of fs give each of those
      settings its initial value and leave the section alone. */
  lemma {:induction false} EntriesRead(st: LoadState, fs: seq<Field>)
    requires forall i :: 0 <= i < |fs| ==> SectionName(fs[i]) == st.section
    ensures Run(st, DefaultEntries(fs)) == Running(st.(config := ResetAll(st.config, fs)))
    decreases |fs|
  {
    if fs != [] {
      DefaultTextReads(fs[0]);
      AssignmentLineSets(st, fs[0], DefaultText(fs[0]));
      var next := st.(config := Set(st.config, fs[0], Get(DefaultConfig, fs[0])));
      var lines := DefaultEntries(fs);
      assert lines[1..] == DefaultEntries(fs[1..]);
      assert forall i :: 0 <= i < |fs[1..]| ==> SectionName(fs[1..][i]) == next.section by {
        assert forall i :: 0 <= i < |fs[1..]| ==> fs[1..][i] == fs[i + 1];
      }
      EntriesRead(next, fs[1..]);
    }
  }

  /** After lines that left the reader in `mid`, a group whose settings all
      lie in f's section ends the reader in that section with those settings
      at their initial values. */
  lemma ThenGroup(st: LoadState, prefix: seq<string>, mid: LoadState, f: Field, fs: seq<Field>)
    requires Run(st, prefix) == Running(mid)
    requires forall i :: 0 <= i < |fs| ==> SectionName(fs[i]) == SectionName(f)
    ensures Run(st, prefix + GroupLines(f, fs)) == Running(LoadState(ResetAll(mid.config, fs), SectionName(f)))
  {
    var g := GroupLines(f, fs);
    RunAppend(st, prefix, g);
    HeaderLineSetsSection(mid, f);
    assert g[0] == HeaderLine(f) && g[1..] == DefaultEntries(fs);
    EntriesRead(mid.(section := SectionName(f)), fs);
  }

  /** After lines that left the reader in `mid`, a line that the reader
      steps over leaves it there. */
  lemma ThenSkipped(st: LoadState, prefix: seq<string>, mid: LoadState, line: string)
    requires Run(st, prefix) == Running(mid)
    requires ApplyLine(mid, line) == Continue(mid)
    ensures Run(st, prefix + [line]) == Running(mid)
  {
    RunAppend(st, prefix, [line]);
    assert [line][1..] == [];
  }

  /** The empty line between groups changes nothing. */
  lemma EmptyLineSkipped(st: LoadState)
    ensures ApplyLine(st, "") == Continue(st)
  {
    assert ClassifyLine("").Blank?;
  }

  /** Inside [Monitoring], the MaxDetectionDistance line changes nothing:
      it is an assignment to a key the reader does not know. */
  lemma MaxDistanceSkipped(st: LoadState)
    requires st.section == "Monitoring"
    ensures ApplyLine(st, MaxDistanceLine) == Continue(st)
  {
    MaxDistanceLineParts();
    ClassifyAssignment("MaxDetectionDistance", "5000.0");
  }

  /** The key of that line is a word no setting of [Monitoring] has, and
      its value is clean. */
  lemma MaxDistanceLineParts()
    ensures IsWord("MaxDetectionDistance") && Clean("5000.0")
    ensures FieldOf("Monitoring", "MaxDetectionDistance") == None
  {
  }

  /** The settings fs all lie in the section of the header h. */
  predicate InSection(h: Field, fs: seq<Field>)
  {
    forall i :: 0 <= i < |fs| ==> SectionName(fs[i]) == SectionName(h)
  }

  /** The conditions under which a file of the default shape reads as
      intended: each group's settings lie in its header's section, and the
      fourth group is [Monitoring]. */
  predicate Grouped(h1: Field, fs1: seq<Field>, h2: Field, fs2: seq<Field>, h3: Field, fs3: seq<Field>,
                    h4: Field, fs4: seq<Field>, h5: Field, fs5: seq<Field>)
  {
    InSection(h1, fs1) && InSection(h2, fs2) && InSection(h3, fs3) && InSection(h4, fs4) && InSection(h5, fs5) &&
    SectionName(h4) == "Monitoring"
  }

  /** The default file's groups meet those conditions. */
  lemma DefaultGrouped()
    ensures Grouped(QuestEnabled, QuestFields(), ItemEnabled, ItemFields(), MessagesEnabled, MessagesFields(),
                    MonitoringEnabled, MonitoringFields(), NotificationEnabled, NotificationFields())
  {
  }

  /** Reading a file of the default shape from any state gives each group's
      settings their initial values, group after group, and ends in the
      section of the last group. */
  lemma LayoutRead(st: LoadState, h1: Field, fs1: seq<Field>, h2: Field, fs2: seq<Field>, h3: Field, fs3: seq<Field>,
                   h4: Field, fs4: seq<Field>, h5: Field, fs5: seq<Field>)
    requires Grouped(h1, fs1, h2, fs2, h3, fs3, h4, fs4, h5, fs5)
    ensures Run(st, Layout(h1, fs1, h2, fs2, h3, fs3, h4, fs4, h5, fs5)) ==
      Running(LoadState(ResetAll(ResetAll(ResetAll(ResetAll(ResetAll(st.config, fs1), fs2), fs3), fs4), fs5), SectionName(h5)))
  {
    assert Run(st, []) == Running(st);
    var p1 := GroupLines(h1, fs1);
    assert [] + p1 == p1;
    ThenGroup(st, [], st, h1, fs1);
    var m1 := LoadState(ResetAll(st.config, fs1), SectionName(h1));
    EmptyLineSkipped(m1);
    ThenSkipped(st, p1, m1, "");
    var p2 := p1 + [""] + GroupLines(h2, fs2);
    ThenGroup(st, p1 + [""], m1, h2, fs2);
    var m2 := LoadState(ResetAll(m1.config, fs2), SectionName(h2));
    EmptyLineSkipped(m2);
    ThenSkipped(st, p2, m2, "");
    var p3 := p2 + [""] + GroupLines(h3, fs3);
    ThenGroup(st, p2 + [""], m2, h3, fs3);
    var m3 := LoadState(ResetAll(m2.config, fs3), SectionName(h3));
    EmptyLineSkipped(m3);
    ThenSkipped(st, p3, m3, "");
    var p4 := p3 + [""] + GroupLines(h4, fs4);
    ThenGroup(st, p3 + [""], m3, h4, fs4);
    var m4 := LoadState(ResetAll(m3.config, fs4), SectionName(h4));
    EmptyLineSkipped(m4);
    MaxDistanceSkipped(m4);
    ThenSkipped(st, p4, m4, MaxDistanceLine);
    ThenSkipped(st, p4 + [MaxDistanceLine], m4, "");
    ThenGroup(st, p4 + [MaxDistanceLine] + [""], m4, h5, fs5);
  }

  /** The default file reads back, from any settings, as exactly the member
      initialisers of PluginConfig, ending in the [Notification] section. */
  lemma DefaultFileReadsBack(cfg: PluginConfig)
    ensures Run(LoadState(cfg, ""), DefaultIniLines()) == Running(LoadState(DefaultConfig, "Notification"))
  {
    DefaultGrouped();
    LayoutRead(LoadState(cfg, ""), QuestEnabled, QuestFields(), ItemEnabled, ItemFields(), MessagesEnabled, MessagesFields(),
               MonitoringEnabled, MonitoringFields(), NotificationEnabled, NotificationFields());
    AllGroupsReset(cfg);
  }

  /** Giving the settings of all five groups their initial values gives the
      initial configuration, whatever the settings were before. */
  lemma AllGroupsReset(cfg: PluginConfig)
    ensures ResetAll(ResetAll(ResetAll(ResetAll(ResetAll(cfg, QuestFields()), ItemFields()), MessagesFields()),
                              MonitoringFields()), NotificationFields()) == DefaultConfig
  {
    var last := ResetAll(ResetAll(ResetAll(ResetAll(ResetAll(cfg, QuestFields()), ItemFields()), MessagesFields()),
                                  MonitoringFields()), NotificationFields());
    forall g: Field
      ensures Get(last, g) == Get(DefaultConfig, g)
    {
      EveryFieldWritten(g);
    }
    SameSettings(last, DefaultConfig);
  }

  /** A text whose first and last pieces start and end outside LineSpace
      is clean. */
  lemma CleanJoin(a: string, b: string, c: string)
    requires |a| > 0 && |c| > 0 && a[0] !in LineSpace && c[|c| - 1] !in LineSpace
    ensures Clean(a + b + c)
  {
    assert (a + b + c)[0] == a[0];
    assert (a + b + c)[|a + b + c| - 1] == c[|c| - 1];
  }
}
