/** The visible requests the quest fix makes of the game: message boxes,
    on-screen notifications, console commands and inventory removals,
    recorded in the order they are made. */
module Effects {
  import opened Wrappers
  import opened Text
  import opened Numeric
  import opened FormIds

  /** The three notifications: the trigger stage was reached, the potion was
      detected, the quest was completed (with the configured text). */
  datatype Notice = StageReached(stage: int) | PotionDetected | QuestCompleted(text: string)

  /** A request; a console command is the setstage command for a quest and
      a stage, whose text CommandText gives. */
  datatype Effect =
    | MessageBox(text: string)
    | Notification(notice: Notice)
    | ConsoleCommand(questEditorID: string, stage: int)
    | RemoveItem(formID: FormID, count: nat)

  /** How many requests of each kind a trace holds. */
  datatype Tally = Tally(boxes: nat, stageNotices: nat, potionNotices: nat,
                         completionNotices: nat, commands: nat, removals: nat)

  const NoRequests := Tally(0, 0, 0, 0, 0, 0)

  /** One more request of the kind of e. */
  function Bump(c: Tally, e: Effect): Tally
  {
    match e
    case MessageBox(_) => c.(boxes := c.boxes + 1)
    case Notification(StageReached(_)) => c.(stageNotices := c.stageNotices + 1)
    case Notification(PotionDetected) => c.(potionNotices := c.potionNotices + 1)
    case Notification(QuestCompleted(_)) => c.(completionNotices := c.completionNotices + 1)
    case ConsoleCommand(_, _) => c.(commands := c.commands + 1)
    case RemoveItem(_, _) => c.(removals := c.removals + 1)
  }

  function TallyOf(trace: seq<Effect>): Tally
  {
    if |trace| == 0 then NoRequests
    else Bump(TallyOf(trace[..|trace| - 1]), trace[|trace| - 1])
  }

  /** A request that may or may not be made bumps the tally or leaves it. */
  lemma TallyMaybe(trace: seq<Effect>, made: bool, e: Effect)
    ensures TallyOf(trace + (if made then [e] else [])) == if made then Bump(TallyOf(trace), e) else TallyOf(trace)
  {
    if made {
      assert (trace + [e])[..|trace|] == trace;
    } else {
      assert trace + [] == trace;
    }
  }

  /** The text ShowNotificationMessage is given. */
  function NoticeText(n: Notice): (text: string)
    ensures text == [] <==> n.QuestCompleted? && n.text == []
    ensures n.QuestCompleted? ==> text == n.text
  {
    match n
    case StageReached(stage) => "BWY-Fix - Quest stage " + IntToDecimal(stage) + " reached"
    case PotionDetected => "BWY FIX: Potion detected to cure the priestess. Wait for Yulia to take it."
    case QuestCompleted(text) => text
  }

  /** The console command SetQuestStageViaConsole builds. */
  function CommandText(questEditorID: string, stage: int): string
  {
    "setstage " + questEditorID + " " + IntToDecimal(stage)
  }

  /** The command names the quest and the stage recoverably: for an editor
      ID without spaces, the words after "setstage " are the editor ID and
      the decimal stage, which reads back as the stage. */
  lemma CommandNamesQuestAndStage(questEditorID: string, stage: int)
    requires ' ' !in questEditorID
    requires Int32Min <= stage <= Int32Max
    ensures CommandText(questEditorID, stage)[..9] == "setstage "
    ensures SplitAtFirst(CommandText(questEditorID, stage)[9..], ' ') == Some((questEditorID, IntToDecimal(stage)))
    ensures ParseInt(IntToDecimal(stage)) == Some(stage)
  {
    var rest := questEditorID + [' '] + IntToDecimal(stage);
    assert CommandText(questEditorID, stage) == "setstage " + rest;
    assert CommandText(questEditorID, stage)[9..] == rest;
    SplitAtFirstOf(questEditorID, ' ', IntToDecimal(stage));
    ParseIntOfDecimal(stage);
  }

  /** The stage notification names the stage recoverably: between its
      fixed prefix and suffix stands the decimal stage, which `std::stoi`
      reads back as the stage. */
  lemma StageNoticeNamesStage(stage: int)
    requires Int32Min <= stage <= Int32Max
    ensures var text := NoticeText(StageReached(stage));
      |text| >= 30 && text[..22] == "BWY-Fix - Quest stage " && text[|text| - 8..] == " reached" &&
      ParseInt(text[22..|text| - 8]) == Some(stage)
  {
    var d := IntToDecimal(stage);
    var text := NoticeText(StageReached(stage));
    assert text == "BWY-Fix - Quest stage " + d + " reached";
    assert text[..22] == "BWY-Fix - Quest stage ";
    assert text[22..|text| - 8] == d;
    assert text[|text| - 8..] == " reached";
    ParseIntOfDecimal(stage);
  }
}
