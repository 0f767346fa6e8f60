/** What one session of the quest fix asks of the game, judged on values:
    the flags the plugin keeps (`Flags`) and the requests made since the
    last reset must agree (`Agrees`), and every step of the state machine
    keeps them agreeing. This is what makes each message box, notification,
    console command and removal happen at most once per session. */
module Session {
  import opened Numeric
  import opened FormIds
  import opened Settings
  import opened Effects

  function Once(b: bool): nat
  {
    if b then 1 else 0
  }

  predicate TriggerBoxWanted(cfg: PluginConfig)
  {
    cfg.messages.enabled && cfg.messages.showTriggerMessage
  }

  predicate StageNoticeWanted(cfg: PluginConfig)
  {
    cfg.notification.enabled && cfg.quest.showNotification
  }

  predicate CompletionNoticeWanted(cfg: PluginConfig)
  {
    cfg.messages.enabled && cfg.messages.showCompletionMessage
  }

  /** The trigger message box of ProcessQuestTrigger, unless it was shown. */
  function BoxEffects(cfg: PluginConfig, boxShown: bool): seq<Effect>
  {
    if TriggerBoxWanted(cfg) && !boxShown then [MessageBox(cfg.messages.triggerMessage)] else []
  }

  /** The stage notification of ProcessQuestTrigger. */
  function StageNoticeEffects(cfg: PluginConfig): seq<Effect>
  {
    if StageNoticeWanted(cfg) then [Notification(StageReached(cfg.quest.triggerStage))] else []
  }

  /** Everything ProcessQuestTrigger asks for, in its order. */
  function TriggerEffects(cfg: PluginConfig, boxShown: bool): seq<Effect>
  {
    BoxEffects(cfg, boxShown) + StageNoticeEffects(cfg)
  }

  /** The potion notification of ProcessItemDetection, unless it was shown. */
  function PotionEffects(noticeShown: bool): seq<Effect>
  {
    if noticeShown then [] else [Notification(PotionDetected)]
  }

  /** The removal request made when the delay ends, if configured. */
  function RemovalEffects(cfg: PluginConfig, itemFormID: FormID): seq<Effect>
  {
    if cfg.item.removeOnDetection then [RemoveItem(itemFormID, 1)] else []
  }

  /** The completion notification of ProcessQuestCompletion, unless shown. */
  function CompletionNoticeEffects(cfg: PluginConfig, noticeShown: bool): seq<Effect>
  {
    if CompletionNoticeWanted(cfg) && !noticeShown then [Notification(QuestCompleted(cfg.messages.completionMessage))] else []
  }

  /** Everything ProcessQuestCompletion asks for: the setstage console
      command, then the completion notification. */
  function CompletionEffects(cfg: PluginConfig, noticeShown: bool): seq<Effect>
  {
    [ConsoleCommand(cfg.quest.questEditorID, cfg.quest.completionStage)] +
    CompletionNoticeEffects(cfg, noticeShown)
  }

  /** The flags of the plugin that record what was asked for this session. */
  datatype Flags = Flags(
    triggerShown: bool, triggerReached: bool, potionShown: bool,
    itemDetected: bool, waiting: bool, completionDone: bool, completionShown: bool)

  const Cleared := Flags(false, false, false, false, false, false, false)

  /** The requests `t` of one session agree with the flags `f`: one trigger
      message box per shown flag, at most one stage notification and only
      once the trigger is reached, one potion notification per shown flag,
      one console command per completion, one completion notification per
      shown flag, at most one removal and only once the delay is over; and
      the flags imply each other as the code sets them. */
  predicate Agrees(t: seq<Effect>, f: Flags)
  {
    var c := TallyOf(t);
    c.boxes == Once(f.triggerShown) &&
    c.stageNotices <= Once(f.triggerReached) &&
    c.potionNotices == Once(f.potionShown) &&
    c.commands == Once(f.completionDone) &&
    c.completionNotices == Once(f.completionShown) &&
    c.removals <= Once(f.itemDetected && !f.waiting) &&
    (f.triggerShown ==> f.triggerReached) &&
    (f.potionShown ==> f.itemDetected) &&
    (f.completionShown ==> f.completionDone) &&
    (f.waiting ==> f.itemDetected)
  }

  /** A session starts with no requests and every flag cleared. */
  lemma ClearedAgrees()
    ensures Agrees([], Cleared)
  {
  }

  /** Reaching the trigger: the box and the notice are new, and the flags
      that record them are set. */
  lemma TriggerStep(t: seq<Effect>, f: Flags, cfg: PluginConfig)
    requires Agrees(t, f) && !f.triggerReached
    ensures Agrees(t + TriggerEffects(cfg, f.triggerShown),
                   f.(triggerReached := true, triggerShown := f.triggerShown || TriggerBoxWanted(cfg)))
  {
    var withBox := t + BoxEffects(cfg, f.triggerShown);
    TallyMaybe(t, TriggerBoxWanted(cfg) && !f.triggerShown, MessageBox(cfg.messages.triggerMessage));
    TallyMaybe(withBox, StageNoticeWanted(cfg), Notification(StageReached(cfg.quest.triggerStage)));
    assert t + TriggerEffects(cfg, f.triggerShown) == withBox + StageNoticeEffects(cfg);
  }

  /** Detecting the potion: the delay starts and the notice is new unless
      it was shown. */
  lemma DetectionStep(t: seq<Effect>, f: Flags)
    requires Agrees(t, f) && !f.itemDetected && !f.waiting
    ensures Agrees(t + PotionEffects(f.potionShown),
                   f.(itemDetected := true, waiting := true, potionShown := true))
  {
    TallyMaybe(t, !f.potionShown, Notification(PotionDetected));
  }

  /** The end of the delay: it stops waiting, and the removal (the only one
      of the session) may be asked for. */
  lemma RemovalStep(t: seq<Effect>, f: Flags, cfg: PluginConfig, itemFormID: FormID)
    requires Agrees(t, f) && f.waiting
    ensures Agrees(t + RemovalEffects(cfg, itemFormID), f.(waiting := false))
  {
    TallyMaybe(t, cfg.item.removeOnDetection, RemoveItem(itemFormID, 1));
  }

  /** Completing the quest: the console command is new and so is the
      notice unless it was shown. */
  lemma CompletionStep(t: seq<Effect>, f: Flags, cfg: PluginConfig)
    requires Agrees(t, f) && !f.completionDone
    ensures Agrees(t + CompletionEffects(cfg, f.completionShown),
                   f.(completionDone := true, completionShown := f.completionShown || CompletionNoticeWanted(cfg)))
  {
    var command := ConsoleCommand(cfg.quest.questEditorID, cfg.quest.completionStage);
    var withCommand := t + (if true then [command] else []);
    TallyMaybe(t, true, command);
    TallyMaybe(withCommand, CompletionNoticeWanted(cfg) && !f.completionShown,
               Notification(QuestCompleted(cfg.messages.completionMessage)));
    assert t + CompletionEffects(cfg, f.completionShown) == withCommand + CompletionNoticeEffects(cfg, f.completionShown);
  }
}
