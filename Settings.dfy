/** PluginConfig and the INI reader of LoadConfiguration: each line is trimmed,
    comments and blank lines are skipped, `[Section]` lines select a section,
    and `Key=Value` lines update the one setting that the current section and
    the key name, if they name one. */
module Settings {
  import opened Wrappers
  import opened Text
  import opened Numeric

  datatype QuestSettings = QuestSettings(
    enabled: bool, questEditorID: string, questPlugin: string,
    triggerStage: int, completionStage: int, showNotification: bool)

  datatype ItemSettings = ItemSettings(
    enabled: bool, itemID: string, itemPlugin: string, itemName: string,
    removeOnDetection: bool, showNotification: bool)

  datatype MessageSettings = MessageSettings(
    enabled: bool, triggerMessage: string, completionMessage: string,
    showTriggerMessage: bool, showCompletionMessage: bool)

  datatype MonitoringSettings = MonitoringSettings(enabled: bool, checkIntervalMs: int)

  datatype NotificationSettings = NotificationSettings(enabled: bool)

  datatype PluginConfig = PluginConfig(
    quest: QuestSettings, item: ItemSettings, messages: MessageSettings,
    monitoring: MonitoringSettings, notification: NotificationSettings)

  const DefaultTriggerMessage: string :=
    "You must craft Lelyna's Remedy" + " to cure Elora." + " Check your inventory for the recipe."
  const DefaultCompletionMessage: string :=
    "You have crafted the potion" + " and the temple girls are very happy." + " You have saved Elora!"

  /** The member initialisers of PluginConfig. */
  const DefaultConfig: PluginConfig := PluginConfig(
    QuestSettings(true, "YW_Quest_MDF", "YurianaWench.esp", 21, 30, true),
    ItemSettings(true, "625C7C", "YurianaWench.esp", "Lelyna's Remedy", true, true),
    MessageSettings(true, DefaultTriggerMessage, DefaultCompletionMessage, true, true),
    MonitoringSettings(true, 1000),
    NotificationSettings(true))

  /** Every setting the INI reader can assign. */
  datatype Field =
    | QuestEnabled | QuestEditorID | QuestPlugin | TriggerStage | CompletionStage | QuestShowNotification
    | ItemEnabled | ItemID | ItemPlugin | ItemName | RemoveOnDetection | ItemShowNotification
    | MessagesEnabled | TriggerMessage | CompletionMessage | ShowTriggerMessage | ShowCompletionMessage
    | MonitoringEnabled | CheckIntervalMs
    | NotificationEnabled

  function SectionName(f: Field): string
  {
    match f
    case QuestEnabled | QuestEditorID | QuestPlugin | TriggerStage | CompletionStage | QuestShowNotification => "Quest"
    case ItemEnabled | ItemID | ItemPlugin | ItemName | RemoveOnDetection | ItemShowNotification => "Item"
    case MessagesEnabled | TriggerMessage | CompletionMessage | ShowTriggerMessage | ShowCompletionMessage => "Messages"
    case MonitoringEnabled | CheckIntervalMs => "Monitoring"
    case NotificationEnabled => "Notification"
  }

  function KeyName(f: Field): string
  {
    match f
    case QuestEnabled => "Enabled"
    case QuestEditorID => "QuestEditorID"
    case QuestPlugin => "QuestPlugin"
    case TriggerStage => "TriggerStage"
    case CompletionStage => "CompletionStage"
    case QuestShowNotification => "ShowNotification"
    case ItemEnabled => "Enabled"
    case ItemID => "ItemID"
    case ItemPlugin => "ItemPlugin"
    case ItemName => "ItemName"
    case RemoveOnDetection => "RemoveOnDetection"
    case ItemShowNotification => "ShowNotification"
    case MessagesEnabled => "Enabled"
    case TriggerMessage => "TriggerMessage"
    case CompletionMessage => "CompletionMessage"
    case ShowTriggerMessage => "ShowTriggerMessage"
    case ShowCompletionMessage => "ShowCompletionMessage"
    case MonitoringEnabled => "Enabled"
    case CheckIntervalMs => "CheckIntervalMs"
    case NotificationEnabled => "Enabled"
  }

  /** The if/else-if chains of the reader: which setting a key names inside a
      section, or None for an unknown section or key (MaxDetectionDistance,
      whose float value the model does not carry, is read as unknown). */
  function FieldOf(section: string, key: string): (r: Option<Field>)
    ensures r.Some? ==> SectionName(r.value) == section && KeyName(r.value) == key
    ensures r.None? ==> forall f: Field :: SectionName(f) != section || KeyName(f) != key
  {
    if section == "Quest" then
      if key == "Enabled" then Some(QuestEnabled)
      else if key == "QuestEditorID" then Some(QuestEditorID)
      else if key == "QuestPlugin" then Some(QuestPlugin)
      else if key == "TriggerStage" then Some(TriggerStage)
      else if key == "CompletionStage" then Some(CompletionStage)
      else if key == "ShowNotification" then Some(QuestShowNotification)
      else None
    else if section == "Item" then
      if key == "Enabled" then Some(ItemEnabled)
      else if key == "ItemID" then Some(ItemID)
      else if key == "ItemPlugin" then Some(ItemPlugin)
      else if key == "ItemName" then Some(ItemName)
      else if key == "RemoveOnDetection" then Some(RemoveOnDetection)
      else if key == "ShowNotification" then Some(ItemShowNotification)
      else None
    else if section == "Messages" then
      if key == "Enabled" then Some(MessagesEnabled)
      else if key == "TriggerMessage" then Some(TriggerMessage)
      else if key == "CompletionMessage" then Some(CompletionMessage)
      else if key == "ShowTriggerMessage" then Some(ShowTriggerMessage)
      else if key == "ShowCompletionMessage" then Some(ShowCompletionMessage)
      else None
    else if section == "Monitoring" then
      if key == "Enabled" then Some(MonitoringEnabled)
      else if key == "CheckIntervalMs" then Some(CheckIntervalMs)
      else None
    else if section == "Notification" then
      if key == "Enabled" then Some(NotificationEnabled) else None
    else None
  }

  /** Every setting is reached by its own section and key. */
  lemma FieldOfNames(f: Field)
    ensures FieldOf(SectionName(f), KeyName(f)) == Some(f)
  {
  }

  datatype Value = Flag(b: bool) | Str(s: string) | Number(n: int)

  datatype FieldKind = BoolKind | StringKind | IntKind

  function KindOf(f: Field): FieldKind
  {
    match f
    case QuestEditorID | QuestPlugin | ItemID | ItemPlugin | ItemName | TriggerMessage | CompletionMessage => StringKind
    case TriggerStage | CompletionStage | CheckIntervalMs => IntKind
    case _ => BoolKind
  }

  predicate Fits(f: Field, v: Value)
  {
    match KindOf(f)
    case BoolKind => v.Flag?
    case StringKind => v.Str?
    case IntKind => v.Number?
  }

  /** The current value of one setting. */
  function Get(c: PluginConfig, f: Field): (v: Value)
    ensures Fits(f, v)
  {
    match f
    case QuestEnabled => Flag(c.quest.enabled)
    case QuestEditorID => Str(c.quest.questEditorID)
    case QuestPlugin => Str(c.quest.questPlugin)
    case TriggerStage => Number(c.quest.triggerStage)
    case CompletionStage => Number(c.quest.completionStage)
    case QuestShowNotification => Flag(c.quest.showNotification)
    case ItemEnabled => Flag(c.item.enabled)
    case ItemID => Str(c.item.itemID)
    case ItemPlugin => Str(c.item.itemPlugin)
    case ItemName => Str(c.item.itemName)
    case RemoveOnDetection => Flag(c.item.removeOnDetection)
    case ItemShowNotification => Flag(c.item.showNotification)
    case MessagesEnabled => Flag(c.messages.enabled)
    case TriggerMessage => Str(c.messages.triggerMessage)
    case CompletionMessage => Str(c.messages.completionMessage)
    case ShowTriggerMessage => Flag(c.messages.showTriggerMessage)
    case ShowCompletionMessage => Flag(c.messages.showCompletionMessage)
    case MonitoringEnabled => Flag(c.monitoring.enabled)
    case CheckIntervalMs => Number(c.monitoring.checkIntervalMs)
    case NotificationEnabled => Flag(c.notification.enabled)
  }

  /** Assigns one setting. Exactly that setting changes. */
  function Set(c: PluginConfig, f: Field, v: Value): (r: PluginConfig)
    requires Fits(f, v)
    ensures Get(r, f) == v
    ensures forall g: Field :: g != f ==> Get(r, g) == Get(c, g)
  {
    match f
    case QuestEnabled => c.(quest := c.quest.(enabled := v.b))
    case QuestEditorID => c.(quest := c.quest.(questEditorID := v.s))
    case QuestPlugin => c.(quest := c.quest.(questPlugin := v.s))
    case TriggerStage => c.(quest := c.quest.(triggerStage := v.n))
    case CompletionStage => c.(quest := c.quest.(completionStage := v.n))
    case QuestShowNotification => c.(quest := c.quest.(showNotification := v.b))
    case ItemEnabled => c.(item := c.item.(enabled := v.b))
    case ItemID => c.(item := c.item.(itemID := v.s))
    case ItemPlugin => c.(item := c.item.(itemPlugin := v.s))
    case ItemName => c.(item := c.item.(itemName := v.s))
    case RemoveOnDetection => c.(item := c.item.(removeOnDetection := v.b))
    case ItemShowNotification => c.(item := c.item.(showNotification := v.b))
    case MessagesEnabled => c.(messages := c.messages.(enabled := v.b))
    case TriggerMessage => c.(messages := c.messages.(triggerMessage := v.s))
    case CompletionMessage => c.(messages := c.messages.(completionMessage := v.s))
    case ShowTriggerMessage => c.(messages := c.messages.(showTriggerMessage := v.b))
    case ShowCompletionMessage => c.(messages := c.messages.(showCompletionMessage := v.b))
    case MonitoringEnabled => c.(monitoring := c.monitoring.(enabled := v.b))
    case CheckIntervalMs => c.(monitoring := c.monitoring.(checkIntervalMs := v.n))
    case NotificationEnabled => c.(notification := c.notification.(enabled := v.b))
  }

  /** Two configurations that agree on every setting are the same. */
  lemma {:induction false} SameSettings(c: PluginConfig, d: PluginConfig)
    requires forall f: Field :: Get(c, f) == Get(d, f)
    ensures c == d
  {
    SameQuest(c, d);
    SameItem(c, d);
    SameMessages(c, d);
    assert Get(c, MonitoringEnabled) == Get(d, MonitoringEnabled);
    assert Get(c, CheckIntervalMs) == Get(d, CheckIntervalMs);
    assert Get(c, NotificationEnabled) == Get(d, NotificationEnabled);
  }

  lemma {:induction false} SameQuest(c: PluginConfig, d: PluginConfig)
    requires forall f: Field :: Get(c, f) == Get(d, f)
    ensures c.quest == d.quest
  {
    assert Get(c, QuestEnabled) == Get(d, QuestEnabled);
    assert Get(c, QuestEditorID) == Get(d, QuestEditorID);
    assert Get(c, QuestPlugin) == Get(d, QuestPlugin);
    assert Get(c, TriggerStage) == Get(d, TriggerStage);
    assert Get(c, CompletionStage) == Get(d, CompletionStage);
    assert Get(c, QuestShowNotification) == Get(d, QuestShowNotification);
  }

  lemma {:induction false} SameItem(c: PluginConfig, d: PluginConfig)
    requires forall f: Field :: Get(c, f) == Get(d, f)
    ensures c.item == d.item
  {
    assert Get(c, ItemEnabled) == Get(d, ItemEnabled);
    assert Get(c, ItemID) == Get(d, ItemID);
    assert Get(c, ItemPlugin) == Get(d, ItemPlugin);
    assert Get(c, ItemName) == Get(d, ItemName);
    assert Get(c, RemoveOnDetection) == Get(d, RemoveOnDetection);
    assert Get(c, ItemShowNotification) == Get(d, ItemShowNotification);
  }

  lemma {:induction false} SameMessages(c: PluginConfig, d: PluginConfig)
    requires forall f: Field :: Get(c, f) == Get(d, f)
    ensures c.messages == d.messages
  {
    assert Get(c, MessagesEnabled) == Get(d, MessagesEnabled);
    assert Get(c, TriggerMessage) == Get(d, TriggerMessage);
    assert Get(c, CompletionMessage) == Get(d, CompletionMessage);
    assert Get(c, ShowTriggerMessage) == Get(d, ShowTriggerMessage);
    assert Get(c, ShowCompletionMessage) == Get(d, ShowCompletionMessage);
  }

  /** The reader's boolean test: only "1", "true" and "True" are true. */
  predicate IsTrueText(value: string)
  {
    value == "1" || value == "true" || value == "True"
  }

  /** The value a setting receives from the text after '=', or None when
      std::stoi throws on the text of an integer setting. */
  function Decode(f: Field, value: string): (r: Option<Value>)
    ensures r.Some? ==> Fits(f, r.value)
    ensures r.None? <==> KindOf(f) == IntKind && ParseInt(value).None?
    ensures KindOf(f) == BoolKind ==> r.Some? && (r.value.b <==> value == "1" || value == "true" || value == "True")
    ensures KindOf(f) == StringKind ==> r == Some(Str(value))
    ensures KindOf(f) == IntKind && r.Some? ==> r.value.n == ParseInt(value).value
  {
    match KindOf(f)
    case BoolKind => Some(Flag(IsTrueText(value)))
    case StringKind => Some(Str(value))
    case IntKind => if ParseInt(value).Some? then Some(Number(ParseInt(value).value)) else None
  }

  /** How the reader sees one line once it is trimmed. */
  datatype LineKind =
    | Blank
    | Comment
    | Header(name: string)
    | Assignment(key: string, value: string)
    | Unrecognized

  /** Classifies a raw line: trimmed of spaces, tabs, carriage returns and
      line feeds; a blank line; a line starting with ';' or '#'; a line that
      starts with '[' and ends with ']'; a line holding '=' (split at the
      first one, both sides trimmed of spaces and tabs); anything else. */
  function ClassifyLine(raw: string): (k: LineKind)
    ensures k.Blank? <==> forall i :: 0 <= i < |raw| ==> raw[i] in LineSpace
    ensures var line := Trim(raw, LineSpace);
      k.Comment? <==> line != [] && line[0] in {';', '#'}
    ensures var line := Trim(raw, LineSpace);
      k.Header? <==> line != [] && line[0] == '[' && line[|line| - 1] == ']'
    ensures k.Header? ==> Trim(raw, LineSpace) == "[" + k.name + "]"
    ensures var line := Trim(raw, LineSpace);
      k.Assignment? <==>
        line != [] && line[0] !in {';', '#'} && !(line[0] == '[' && line[|line| - 1] == ']') && '=' in line
    ensures k.Assignment? ==>
      var line := Trim(raw, LineSpace);
      var e := IndexOf(line, '=');
      e < |line| && k.key == Trim(line[..e], SpaceTab) && k.value == Trim(line[e + 1..], SpaceTab)
    ensures k.Assignment? ==> '=' !in k.key && Trim(k.key, SpaceTab) == k.key && Trim(k.value, SpaceTab) == k.value
  {
    var line := Trim(raw, LineSpace);
    if line == [] then Blank
    else if line[0] == ';' || line[0] == '#' then Comment
    else if line[0] == '[' && line[|line| - 1] == ']' then
      assert line == "[" + line[1..|line| - 1] + "]";
      Header(line[1..|line| - 1])
    else
      match SplitAtFirst(line, '=')
      case None => Unrecognized
      case Some((before, after)) =>
        var key := Trim(before, SpaceTab);
        TrimIdempotent(before, SpaceTab);
        TrimIdempotent(after, SpaceTab);
        TrimKeepsOut(before, SpaceTab, '=');
        Assignment(key, Trim(after, SpaceTab))
  }

  /** The reader's state between lines: the configuration and currentSection. */
  datatype LoadState = LoadState(config: PluginConfig, section: string)

  /** One line either lets the reader go on, or makes std::stoi throw, which
      leaves LoadConfiguration with the settings assigned so far. */
  datatype LineOutcome = Continue(next: LoadState) | Threw(config: PluginConfig)

  /** One iteration of the reading loop. A header changes only the section,
      an assignment to a known setting changes only that setting, and every
      other line changes nothing. */
  function ApplyLine(st: LoadState, raw: string): (r: LineOutcome)
    ensures match ClassifyLine(raw)
      case Header(n) => r == Continue(st.(section := n))
      case Assignment(k, v) =>
        (match FieldOf(st.section, k)
         case None => r == Continue(st)
         case Some(f) =>
           (Decode(f, v).None? ==> r == Threw(st.config)) &&
           (Decode(f, v).Some? ==>
              r.Continue? && r.next.section == st.section &&
              Get(r.next.config, f) == Decode(f, v).value &&
              forall g: Field :: g != f ==> Get(r.next.config, g) == Get(st.config, g)))
      case _ => r == Continue(st)
  {
    match ClassifyLine(raw)
    case Header(n) => Continue(st.(section := n))
    case Assignment(k, v) =>
      (match FieldOf(st.section, k)
       case None => Continue(st)
       case Some(f) =>
         match Decode(f, v)
         case None => Threw(st.config)
         case Some(value) => Continue(st.(config := Set(st.config, f, value))))
    case _ => Continue(st)
  }

  /** Where the reading loop ends: at the end of the file, or at a line that
      threw. */
  datatype RunOutcome = Running(state: LoadState) | Stopped(config: PluginConfig)

  /** The reading loop as a fold over the file's lines. */
  function Run(st: LoadState, lines: seq<string>): RunOutcome
    decreases |lines|
  {
    if lines == [] then Running(st)
    else
      match ApplyLine(st, lines[0])
      case Threw(c) => Stopped(c)
      case Continue(next) => Run(next, lines[1..])
  }

  /** Reading a file in two parts is reading the first part and then, unless
      it threw, the second from where the first left off. */
  lemma {:induction false} RunAppend(st: LoadState, a: seq<string>, b: seq<string>)
    ensures Run(st, a + b) ==
      match Run(st, a)
      case Stopped(c) => Stopped(c)
      case Running(mid) => Run(mid, b)
    decreases |a|
  {
    if a == [] {
      assert a + b == b;
    } else {
      assert (a + b)[0] == a[0];
      assert (a + b)[1..] == a[1..] + b;
      match ApplyLine(st, a[0])
      case Threw(c) =>
      case Continue(next) => RunAppend(next, a[1..], b);
    }
  }

  /** A `[name]` section header line. */
  function SectionLine(name: string): string
  {
    "[" + name + "]"
  }

  /** A `key=value` line. */
  function EntryLine(key: string, value: string): string
  {
    key + "=" + value
  }

  /** The header line of a setting's section. */
  function HeaderLine(f: Field): string
  {
    SectionLine(SectionName(f))
  }

  /** A line assigning a value to a setting. */
  function AssignmentLine(f: Field, value: string): string
  {
    EntryLine(KeyName(f), value)
  }

  /** A value whose text survives the reader's trimming untouched. */
  predicate Clean(value: string)
  {
    |value| > 0 ==> value[0] !in LineSpace && value[|value| - 1] !in LineSpace
  }

  /** A non-empty run of ASCII letters, as every key name is. */
  predicate IsWord(s: string)
  {
    |s| > 0 && forall i :: 0 <= i < |s| ==> 'A' <= s[i] <= 'Z' || 'a' <= s[i] <= 'z'
  }

  lemma KeyNameIsWord(f: Field)
    ensures IsWord(KeyName(f))
  {
    match f
    case QuestEnabled | QuestEditorID | QuestPlugin => QuestKeyIsWord(f);
    case TriggerStage | CompletionStage | QuestShowNotification => StageKeyIsWord(f);
    case ItemEnabled | ItemID | ItemPlugin | ItemName | RemoveOnDetection | ItemShowNotification => ItemKeyIsWord(f);
    case MessagesEnabled | TriggerMessage | CompletionMessage => MessagesKeyIsWord(f);
    case ShowTriggerMessage | ShowCompletionMessage => ShowKeyIsWord(f);
    case MonitoringEnabled | CheckIntervalMs | NotificationEnabled => OtherKeyIsWord(f);
  }

  lemma QuestKeyIsWord(f: Field)
    requires f == QuestEnabled || f == QuestEditorID || f == QuestPlugin
    ensures IsWord(KeyName(f))
  {
    if f == QuestEnabled { }
    if f == QuestEditorID { }
    if f == QuestPlugin { }
  }

  lemma StageKeyIsWord(f: Field)
    requires f == TriggerStage || f == CompletionStage || f == QuestShowNotification
    ensures IsWord(KeyName(f))
  {
    if f == TriggerStage { }
    if f == CompletionStage { }
    if f == QuestShowNotification { }
  }

  lemma ItemKeyIsWord(f: Field)
    requires f == ItemEnabled || f == ItemID || f == ItemPlugin || f == ItemName || f == RemoveOnDetection || f == ItemShowNotification
    ensures IsWord(KeyName(f))
  {
    if f == ItemEnabled { }
    if f == ItemID { }
    if f == ItemPlugin { }
    if f == ItemName { }
    if f == RemoveOnDetection { }
    if f == ItemShowNotification { }
  }

  lemma MessagesKeyIsWord(f: Field)
    requires f == MessagesEnabled || f == TriggerMessage || f == CompletionMessage
    ensures IsWord(KeyName(f))
  {
    if f == MessagesEnabled { }
    if f == TriggerMessage { }
    if f == CompletionMessage { }
  }

  lemma ShowKeyIsWord(f: Field)
    requires f == ShowTriggerMessage || f == ShowCompletionMessage
    ensures IsWord(KeyName(f))
  {
    if f == ShowTriggerMessage { }
    if f == ShowCompletionMessage { }
  }

  lemma OtherKeyIsWord(f: Field)
    requires f == MonitoringEnabled || f == CheckIntervalMs || f == NotificationEnabled
    ensures IsWord(KeyName(f))
  {
    if f == MonitoringEnabled { }
    if f == CheckIntervalMs { }
    if f == NotificationEnabled { }
  }

  /** A trimmed line between '[' and ']' is read as a header. */
  lemma ClassifyAsHeader(raw: string)
    requires |Trim(raw, LineSpace)| > 0
    requires Trim(raw, LineSpace)[0] == '[' && Trim(raw, LineSpace)[|Trim(raw, LineSpace)| - 1] == ']'
    ensures ClassifyLine(raw) == Header(Trim(raw, LineSpace)[1..|Trim(raw, LineSpace)| - 1])
  {
  }

  /** A trimmed line that is neither a comment nor a header and holds an
      '=' is read as the assignment of its trimmed halves; this includes a
      line such as `[Quest=1` that opens a bracket it does not close. */
  lemma ClassifyAsAssignment(raw: string, before: string, after: string)
    requires var line := Trim(raw, LineSpace);
      line != [] && line[0] !in {';', '#'} && !(line[0] == '[' && line[|line| - 1] == ']')
    requires SplitAtFirst(Trim(raw, LineSpace), '=') == Some((before, after))
    ensures ClassifyLine(raw) == Assignment(Trim(before, SpaceTab), Trim(after, SpaceTab))
  {
  }

  /** A line `key=value` with a word for key and a clean value is read as
      exactly that assignment. */
  lemma ClassifyAssignment(key: string, value: string)
    requires IsWord(key) && Clean(value)
    ensures ClassifyLine(key + "=" + value) == Assignment(key, value)
  {
    TrimOfTrimmed(key, SpaceTab);
    TrimOfTrimmed(value, SpaceTab);
    var line := key + "=" + value;
    assert line == key + ['='] + value;
    assert line[0] == key[0];
    assert line[|line| - 1] !in LineSpace;
    TrimOfTrimmed(line, LineSpace);
    assert '=' !in key by {
      assert forall i :: 0 <= i < |key| ==> key[i] != '=';
    }
    SplitAtFirstOf(key, '=', value);
    ClassifyAsAssignment(line, key, value);
  }

  /** A section header line sets the section and nothing else. */
  lemma HeaderLineSetsSection(st: LoadState, f: Field)
    ensures ApplyLine(st, HeaderLine(f)) == Continue(st.(section := SectionName(f)))
  {
    var h := HeaderLine(f);
    assert h == "[" + SectionName(f) + "]";
    TrimOfTrimmed(h, LineSpace);
    ClassifyAsHeader(h);
    assert h[1..|h| - 1] == SectionName(f);
  }

  /** Inside its section, a line assigning a clean value to a setting gives
      that setting the decoded value. */
  lemma AssignmentLineSets(st: LoadState, f: Field, value: string)
    requires st.section == SectionName(f)
    requires Clean(value) && Decode(f, value).Some?
    ensures ApplyLine(st, AssignmentLine(f, value)) ==
      Continue(st.(config := Set(st.config, f, Decode(f, value).value)))
  {
    KeyNameIsWord(f);
    ClassifyAssignment(KeyName(f), value);
    FieldOfNames(f);
  }

  /** A later assignment overrides an earlier one: whatever the lines before,
      a header for a setting's section followed by an assignment to it leaves
      that setting with the assigned value, unless the earlier lines threw. */
  lemma LastAssignmentWins(st: LoadState, lines: seq<string>, f: Field, value: string)
    requires Clean(value) && Decode(f, value).Some?
    ensures match Run(st, lines + [HeaderLine(f), AssignmentLine(f, value)])
      case Stopped(_) => Run(st, lines).Stopped?
      case Running(last) => last.section == SectionName(f) && Get(last.config, f) == Decode(f, value).value
  {
    var tail := [HeaderLine(f), AssignmentLine(f, value)];
    RunAppend(st, lines, tail);
    match Run(st, lines)
    case Stopped(_) =>
    case Running(mid) =>
      HeaderLineSetsSection(mid, f);
      var inSection := mid.(section := SectionName(f));
      AssignmentLineSets(inSection, f, value);
      var last := inSection.(config := Set(inSection.config, f, Decode(f, value).value));
      assert tail[0] == HeaderLine(f) && tail[1..] == [AssignmentLine(f, value)];
      assert Run(mid, tail) == Run(inSection, tail[1..]);
      assert Run(inSection, tail[1..]) == Run(last, []);
  }
}
