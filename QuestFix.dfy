/** The quest-fix state machine: the quest is watched until it reaches the
    trigger stage, then the player's inventory is watched for the potion,
    and five seconds after the potion turns up the quest is moved to its
    completion stage through the console. Every answer of the game (the
    quest's state, inventory contents, the clock in milliseconds, plugin
    lookups, the INI file) is a parameter; every handler is one atomic step. */
module QuestFix {
  import opened Wrappers
  import opened Numeric
  import opened FormIds
  import opened Settings
  import opened DefaultFile
  import opened Effects
  import opened Cache
  import opened Session

  datatype QuestStateData = QuestStateData(
    questActive: bool, triggerStageReached: bool, itemDetected: bool,
    completionDone: bool, currentStage: int)

  const InitialQuestState := QuestStateData(false, false, false, false, 0)

  /** What the game reports about the quest found under the configured
      editor ID. */
  datatype QuestView = QuestView(formID: FormID, isRunning: bool, stage: int)

  /** The form identifier ResolveFormIDs caches for the quest, if found. */
  function QuestFormID(quest: Option<QuestView>): Option<FormID>
  {
    match quest
    case None => None
    case Some(view) => Some(view.formID)
  }

  /** PlayerHasItem. `carried` holds the identifiers of the bound objects of
      which the player holds a positive count (none when there is no
      player); the null identifier is never held. */
  predicate PlayerHasItem(itemFormID: FormID, carried: set<FormID>): (held: bool)
    ensures held <==> itemFormID in carried - {0}
  {
    itemFormID != 0 && itemFormID in carried
  }

  /** The INI file as LoadConfiguration finds it: missing (and then either
      SaveDefaultConfiguration can create it or it cannot), present but not
      openable, or present with these lines. */
  datatype IniFile = Absent(canCreate: bool) | Unopenable | Present(lines: seq<string>)

  /** How LoadConfiguration ends: having read the whole file, having failed
      to open it, or by an exception from std::stoi. */
  datatype LoadResult = Loaded | OpenFailed | ParseThrew

  /** The seconds the potion delay and the warm-up wait. */
  const DelaySeconds: int := 5

  /** duration_cast to whole seconds of a span of milliseconds: truncation
      toward zero. */
  function WholeSeconds(ms: int): (r: int)
    ensures ms >= 0 ==> r * 1000 <= ms < r * 1000 + 1000
    ensures ms < 0 ==> r <= 0
    ensures r >= DelaySeconds <==> ms >= DelaySeconds * 1000
  {
    if ms >= 0 then ms / 1000 else -((-ms) / 1000)
  }

  /** The rule both the periodic check and the stage event apply: the quest
      is active, the trigger has not been reached yet and the stage is at
      least the trigger stage. */
  predicate TriggerFires(active: bool, reached: bool, stage: int, triggerStage: int)
  {
    active && !reached && stage >= triggerStage
  }

  /** The lines LoadConfiguration reads from a file it could open: the file
      itself, or the defaults SaveDefaultConfiguration writes when there was
      none. */
  function IniLines(file: IniFile): seq<string>
  {
    match file
    case Present(lines) => lines
    case _ => DefaultIniLines()
  }

  /** What LoadConfiguration ends with, starting from the settings `cfg`. A
      missing file that cannot be created, or a file that cannot be opened,
      leaves the settings alone; otherwise the lines are read as Run reads
      them, and an exception from std::stoi ends the reading with the
      settings assigned so far. A missing file that can be created loads
      exactly the defaults, whatever the settings were before. */
  function LoadOutcome(file: IniFile, cfg: PluginConfig): (r: (LoadResult, PluginConfig))
    ensures r.0 == OpenFailed <==> file.Unopenable? || file == Absent(false)
    ensures r.0 == OpenFailed ==> r.1 == cfg
    ensures file == Absent(true) ==> r == (Loaded, DefaultConfig)
  {
    if file.Unopenable? || file == Absent(false) then (OpenFailed, cfg)
    else
      DefaultFileReadsBack(cfg);
      match Run(LoadState(cfg, ""), IniLines(file))
      case Running(last) => (Loaded, last.config)
      case Stopped(c) => (ParseThrew, c)
  }

  /** The reading loop of LoadConfiguration over the lines of an opened
      file, starting from the settings `cfg` outside any section: each line
      is applied in turn, the current section carried from line to line, and
      an exception from std::stoi ends the loop with the settings assigned
      so far. */
  method ReadLines(lines: seq<string>, cfg: PluginConfig) returns (result: LoadResult, config: PluginConfig)
    ensures match Run(LoadState(cfg, ""), lines)
      case Running(last) => result == Loaded && config == last.config
      case Stopped(c) => result == ParseThrew && config == c
  {
    config := cfg;
    var currentSection := "";
    var i := 0;
    while i < |lines|
      invariant 0 <= i <= |lines|
      invariant Run(LoadState(cfg, ""), lines) == Run(LoadState(config, currentSection), lines[i..])
    {
      assert lines[i..][0] == lines[i] && lines[i..][1..] == lines[i + 1..];
      match ApplyLine(LoadState(config, currentSection), lines[i]) {
        case Threw(c) =>
          return ParseThrew, c;
        case Continue(next) =>
          config := next.config;
          currentSection := next.section;
      }
      i := i + 1;
    }
    return Loaded, config;
  }

  /** The plugin's global state. `effects` is every request made of the game
      since the session was last reset. */
  class Monitor {
    var config: PluginConfig
    var state: QuestStateData
    var cache: CachedFormIDs
    var triggerMessageShown: bool
    var completionMessageShown: bool
    var potionDetectedMessageShown: bool
    var potionDetectedTime: int
    var waitingForPotionDelay: bool
    var lastQuestCheck: int
    var lastItemCheck: int
    var monitoringActive: bool
    var initialDelayComplete: bool
    var isInGameTransition: bool
    var isShuttingDown: bool
    var isInitialized: bool
    var monitorCycles: int
    var monitoringStartTime: int
    var effects: seq<Effect>

    /** The requests of the current session agree with the flags (Agrees),
        and a resolved item has a nonzero identifier. */
    ghost predicate Inv()
      reads this`effects, this`triggerMessageShown, this`state, this`potionDetectedMessageShown,
            this`waitingForPotionDelay, this`completionMessageShown, this`cache
    {
      Agrees(effects,
             Flags(triggerMessageShown, state.triggerStageReached, potionDetectedMessageShown,
                   state.itemDetected, waitingForPotionDelay, state.completionDone, completionMessageShown)) &&
      CacheValid(cache)
    }

    /** The pipeline's order: an item is only detected after the trigger and
        once it is resolved, completion only follows a detection, and the
        delay is never pending after completion. */
    ghost predicate Ordered()
      reads this`state, this`cache, this`waitingForPotionDelay
    {
      (state.itemDetected ==> state.triggerStageReached && cache.itemResolved) &&
      (state.completionDone ==> state.itemDetected) &&
      (waitingForPotionDelay ==> !state.completionDone)
    }

    ghost predicate Valid()
      reads this`effects, this`triggerMessageShown, this`state, this`potionDetectedMessageShown,
            this`waitingForPotionDelay, this`completionMessageShown, this`cache
    {
      Inv() && Ordered()
    }

    /** The globals as the plugin is loaded: the configuration defaults and
        everything else cleared. */
    constructor()
      ensures Valid()
      ensures config == DefaultConfig && state == InitialQuestState && cache == EmptyCache
      ensures !triggerMessageShown && !completionMessageShown && !potionDetectedMessageShown
      ensures !waitingForPotionDelay && !monitoringActive && !initialDelayComplete
      ensures !isInGameTransition && !isShuttingDown && !isInitialized
      ensures effects == []
    {
      config := DefaultConfig;
      state := InitialQuestState;
      cache := EmptyCache;
      triggerMessageShown := false;
      completionMessageShown := false;
      potionDetectedMessageShown := false;
      potionDetectedTime := 0;
      waitingForPotionDelay := false;
      lastQuestCheck := 0;
      lastItemCheck := 0;
      monitoringActive := false;
      initialDelayComplete := false;
      isInGameTransition := false;
      isShuttingDown := false;
      isInitialized := false;
      monitorCycles := 0;
      monitoringStartTime := 0;
      effects := [];
      ClearedAgrees();
    }

    /** ProcessQuestTrigger: does nothing once the trigger was reached;
        otherwise records it, shows the trigger message box if configured and
        not shown yet, and the stage notification if configured. */
    method ProcessQuestTrigger()
      requires Valid()
      modifies this`state, this`triggerMessageShown, this`effects
      ensures Valid()
      ensures old(state.triggerStageReached) ==>
        state == old(state) && triggerMessageShown == old(triggerMessageShown) && effects == old(effects)
      ensures !old(state.triggerStageReached) ==>
        state == old(state).(triggerStageReached := true) &&
        triggerMessageShown == (old(triggerMessageShown) || TriggerBoxWanted(config)) &&
        effects == old(effects) + TriggerEffects(config, old(triggerMessageShown))
    {
      if state.triggerStageReached {
        return;
      }
      ghost var before := Flags(triggerMessageShown, state.triggerStageReached, potionDetectedMessageShown,
                                state.itemDetected, waitingForPotionDelay, state.completionDone, completionMessageShown);
      TriggerStep(effects, before, config);
      effects := effects + TriggerEffects(config, triggerMessageShown);
      state := state.(triggerStageReached := true);
      if config.messages.enabled && config.messages.showTriggerMessage && !triggerMessageShown {
        triggerMessageShown := true;
      }
      assert Flags(triggerMessageShown, state.triggerStageReached, potionDetectedMessageShown,
                   state.itemDetected, waitingForPotionDelay, state.completionDone, completionMessageShown) ==
             before.(triggerReached := true, triggerShown := before.triggerShown || TriggerBoxWanted(config));
    }

    /** The part of CheckQuestState that follows a successful lookup of the
        quest: a running quest becomes active, an active quest has its stage
        recorded, the trigger fires by TriggerFires with the reported stage,
        and a quest that is not running ends up inactive. */
    method ObserveQuest(view: QuestView)
      requires Valid()
      modifies this`state, this`triggerMessageShown, this`effects
      ensures Valid()
      ensures var active := old(state.questActive) || view.isRunning;
        var fires := TriggerFires(active, old(state.triggerStageReached), view.stage, config.quest.triggerStage);
        state == old(state).(questActive := view.isRunning,
                             currentStage := if active then view.stage else old(state.currentStage),
                             triggerStageReached := old(state.triggerStageReached) || fires) &&
        triggerMessageShown == (old(triggerMessageShown) || (fires && TriggerBoxWanted(config))) &&
        effects == old(effects) + (if fires then TriggerEffects(config, old(triggerMessageShown)) else [])
    {
      var isRunning := view.isRunning;
      var currentStage := view.stage;
      if !state.questActive && isRunning {
        state := state.(questActive := true, currentStage := currentStage);
      }
      if state.questActive && currentStage != state.currentStage {
        state := state.(currentStage := currentStage);
      }
      if state.questActive && !state.triggerStageReached {
        if currentStage >= config.quest.triggerStage {
          ProcessQuestTrigger();
        }
      }
      if !isRunning && state.questActive {
        state := state.(questActive := false);
      }
    }

    /** CheckQuestState. Nothing at all happens while the quest feature is
        disabled, once completion is done, or before checkIntervalMs has
        passed since the last check. Otherwise the check time is recorded; a
        quest that cannot be found only stops being active, and a found one
        is observed as ObserveQuest states. The item and completion flags
        never change. */
    method CheckQuestState(now: int, quest: Option<QuestView>)
      requires Valid()
      modifies this`state, this`lastQuestCheck, this`triggerMessageShown, this`effects
      ensures Valid()
      ensures !config.quest.enabled || old(state.completionDone) ||
              now - old(lastQuestCheck) < config.monitoring.checkIntervalMs ==>
        state == old(state) && lastQuestCheck == old(lastQuestCheck) &&
        triggerMessageShown == old(triggerMessageShown) && effects == old(effects)
      ensures config.quest.enabled && !old(state.completionDone) &&
              now - old(lastQuestCheck) >= config.monitoring.checkIntervalMs ==>
        lastQuestCheck == now &&
        match quest
        case None =>
          state == old(state).(questActive := false) &&
          triggerMessageShown == old(triggerMessageShown) && effects == old(effects)
        case Some(view) =>
          var active := old(state.questActive) || view.isRunning;
          var fires := TriggerFires(active, old(state.triggerStageReached), view.stage, config.quest.triggerStage);
          state == old(state).(questActive := view.isRunning,
                               currentStage := if active then view.stage else old(state.currentStage),
                               triggerStageReached := old(state.triggerStageReached) || fires) &&
          triggerMessageShown == (old(triggerMessageShown) || (fires && TriggerBoxWanted(config))) &&
          effects == old(effects) + (if fires then TriggerEffects(config, old(triggerMessageShown)) else [])
    {
      if !config.quest.enabled {
        return;
      }
      if state.completionDone {
        return;
      }
      var elapsed := now - lastQuestCheck;
      if elapsed < config.monitoring.checkIntervalMs {
        return;
      }
      lastQuestCheck := now;
      if quest.None? {
        if state.questActive {
          state := state.(questActive := false);
        }
        return;
      }
      ObserveQuest(quest.value);
    }

    /** The filter of QuestStageEventSink::ProcessEvent. `questEditorID` is the
        editor ID of the quest the event names, or None when no quest has the
        event's form ID. Events are ignored while the quest feature is
        disabled, once completion is done, and unless the editor ID is
        non-empty and the configured one. An accepted event makes the quest
        active at the event's stage and fires the trigger by TriggerFires. */
    method QuestStageChanged(questEditorID: Option<string>, newStage: int)
      requires Valid()
      modifies this`state, this`triggerMessageShown, this`effects
      ensures Valid()
      ensures !(config.quest.enabled && !old(state.completionDone) && questEditorID.Some? &&
                questEditorID.value != "" && questEditorID.value == config.quest.questEditorID) ==>
        state == old(state) && triggerMessageShown == old(triggerMessageShown) && effects == old(effects)
      ensures config.quest.enabled && !old(state.completionDone) && questEditorID.Some? &&
              questEditorID.value != "" && questEditorID.value == config.quest.questEditorID ==>
        var fires := TriggerFires(true, old(state.triggerStageReached), newStage, config.quest.triggerStage);
        state == old(state).(questActive := true, currentStage := newStage,
                             triggerStageReached := old(state.triggerStageReached) || fires) &&
        triggerMessageShown == (old(triggerMessageShown) || (fires && TriggerBoxWanted(config))) &&
        effects == old(effects) + (if fires then TriggerEffects(config, old(triggerMessageShown)) else [])
    {
      if !config.quest.enabled {
        return;
      }
      if state.completionDone {
        return;
      }
      if questEditorID.None? {
        return;
      }
      if questEditorID.value == "" {
        return;
      }
      if questEditorID.value == config.quest.questEditorID {
        state := state.(questActive := true, currentStage := newStage);
        if !state.triggerStageReached && newStage >= config.quest.triggerStage {
          ProcessQuestTrigger();
        }
      }
    }

    /** ProcessItemDetection: does nothing once the item was detected or
        while the delay is pending; otherwise records the detection and its
        time, starts the delay and shows the potion notification if it was
        not shown yet. */
    method ProcessItemDetection(now: int)
      requires Valid() && state.triggerStageReached && cache.itemResolved
      modifies this`state, this`waitingForPotionDelay, this`potionDetectedTime,
               this`potionDetectedMessageShown, this`effects
      ensures Valid()
      ensures old(state.itemDetected) || old(waitingForPotionDelay) ==>
        state == old(state) && waitingForPotionDelay == old(waitingForPotionDelay) &&
        potionDetectedTime == old(potionDetectedTime) &&
        potionDetectedMessageShown == old(potionDetectedMessageShown) && effects == old(effects)
      ensures !old(state.itemDetected) && !old(waitingForPotionDelay) ==>
        state == old(state).(itemDetected := true) && waitingForPotionDelay &&
        potionDetectedTime == now && potionDetectedMessageShown &&
        effects == old(effects) + PotionEffects(old(potionDetectedMessageShown))
    {
      if state.itemDetected {
        return;
      }
      if waitingForPotionDelay {
        return;
      }
      DetectionStep(effects,
                    Flags(triggerMessageShown, state.triggerStageReached, potionDetectedMessageShown,
                          state.itemDetected, waitingForPotionDelay, state.completionDone, completionMessageShown));
      state := state.(itemDetected := true);
      waitingForPotionDelay := true;
      potionDetectedTime := now;
      if !potionDetectedMessageShown {
        potionDetectedMessageShown := true;
        effects := effects + [Notification(PotionDetected)];
      }
    }

    /** ResolveFormIDs: one resolution attempt, as Resolve states it, which
        never loses a resolved entry. */
    method ResolveFormIDs(itemPlugin: Option<PluginFile>, quest: Option<FormID>)
      requires Valid()
      modifies this`cache
      ensures Valid()
      ensures cache == Resolve(config, old(cache), itemPlugin, quest)
    {
      if config.item.enabled && !cache.itemResolved {
        var id := GetFormIDFromPlugin(itemPlugin, config.item.itemID);
        cache := cache.(itemFormID := id);
        if id != 0 {
          cache := cache.(itemResolved := true);
        }
      }
      if config.quest.enabled && !cache.questResolved {
        if quest.Some? {
          cache := cache.(questFormID := quest.value, questResolved := true);
        }
      }
    }

    /** The gates of CheckPlayerInventory, in its order: the item feature is
        enabled, the trigger was reached, the item is not detected yet, the
        quest is not completed, and checkIntervalMs has passed since the last
        item check. */
    predicate ItemCheckDue(now: int)
      reads this`config, this`state, this`lastItemCheck
    {
      config.item.enabled && state.triggerStageReached && !state.itemDetected &&
      !state.completionDone && now - lastItemCheck >= config.monitoring.checkIntervalMs
    }

    /** CheckPlayerInventory. Nothing happens while the item feature is
        disabled, before the trigger, once the item was detected or the quest
        completed, or before checkIntervalMs has passed since the last item
        check. Otherwise the check time is recorded, an unresolved item is
        resolved first (the attempt also covers the quest), and a resolved
        item the player holds is detected as ProcessItemDetection does. */
    method CheckPlayerInventory(now: int, itemPlugin: Option<PluginFile>, quest: Option<FormID>,
                                carried: set<FormID>)
      requires Valid()
      modifies this`lastItemCheck, this`cache, this`state, this`waitingForPotionDelay,
               this`potionDetectedTime, this`potionDetectedMessageShown, this`effects
      ensures Valid()
      ensures !old(ItemCheckDue(now)) ==>
        lastItemCheck == old(lastItemCheck) && cache == old(cache) && state == old(state) &&
        waitingForPotionDelay == old(waitingForPotionDelay) && potionDetectedTime == old(potionDetectedTime) &&
        potionDetectedMessageShown == old(potionDetectedMessageShown) && effects == old(effects)
      ensures old(ItemCheckDue(now)) ==>
        lastItemCheck == now &&
        cache == (if old(cache.itemResolved) then old(cache) else Resolve(config, old(cache), itemPlugin, quest)) &&
        if cache.itemResolved && PlayerHasItem(cache.itemFormID, carried) then
          state == old(state).(itemDetected := true) && waitingForPotionDelay &&
          potionDetectedTime == now && potionDetectedMessageShown &&
          effects == old(effects) + PotionEffects(old(potionDetectedMessageShown))
        else
          state == old(state) && waitingForPotionDelay == old(waitingForPotionDelay) &&
          potionDetectedTime == old(potionDetectedTime) &&
          potionDetectedMessageShown == old(potionDetectedMessageShown) && effects == old(effects)
    {
      if !ItemCheckDue(now) {
        return;
      }
      lastItemCheck := now;
      InspectInventory(now, itemPlugin, quest, carried);
    }

    /** The part of CheckPlayerInventory after its gates: an unresolved item
        is resolved first, and a resolved item the player holds is detected
        as ProcessItemDetection does. */
    method InspectInventory(now: int, itemPlugin: Option<PluginFile>, quest: Option<FormID>,
                            carried: set<FormID>)
      requires Valid() && state.triggerStageReached && !state.itemDetected
      modifies this`cache, this`state, this`waitingForPotionDelay,
               this`potionDetectedTime, this`potionDetectedMessageShown, this`effects
      ensures Valid()
      ensures cache == (if old(cache.itemResolved) then old(cache) else Resolve(config, old(cache), itemPlugin, quest))
      ensures if cache.itemResolved && PlayerHasItem(cache.itemFormID, carried) then
          state == old(state).(itemDetected := true) && waitingForPotionDelay &&
          potionDetectedTime == now && potionDetectedMessageShown &&
          effects == old(effects) + PotionEffects(old(potionDetectedMessageShown))
        else
          state == old(state) && waitingForPotionDelay == old(waitingForPotionDelay) &&
          potionDetectedTime == old(potionDetectedTime) &&
          potionDetectedMessageShown == old(potionDetectedMessageShown) && effects == old(effects)
    {
      if !cache.itemResolved {
        ResolveFormIDs(itemPlugin, quest);
        if !cache.itemResolved {
          return;
        }
      }
      if PlayerHasItem(cache.itemFormID, carried) {
        ProcessItemDetection(now);
      }
    }

    /** The filter of ContainerChangeEventSink::ProcessEvent. `player` is the
        player's form identifier, or None when there is no player. Only
        before detection, after the trigger and before completion, and only
        an item of the resolved identifier moved into the player's inventory,
        is detected; the item feature's Enabled flag is not consulted. */
    method ContainerChanged(newContainer: FormID, baseObj: FormID, player: Option<FormID>, now: int)
      requires Valid()
      modifies this`state, this`waitingForPotionDelay, this`potionDetectedTime,
               this`potionDetectedMessageShown, this`effects
      ensures Valid()
      ensures !(old(state.triggerStageReached) && !old(state.itemDetected) && !old(state.completionDone) &&
                player.Some? && newContainer == player.value && cache.itemResolved && baseObj == cache.itemFormID) ==>
        state == old(state) && waitingForPotionDelay == old(waitingForPotionDelay) &&
        potionDetectedTime == old(potionDetectedTime) &&
        potionDetectedMessageShown == old(potionDetectedMessageShown) && effects == old(effects)
      ensures old(state.triggerStageReached) && !old(state.itemDetected) && !old(state.completionDone) &&
              player.Some? && newContainer == player.value && cache.itemResolved && baseObj == cache.itemFormID ==>
        state == old(state).(itemDetected := true) && waitingForPotionDelay &&
        potionDetectedTime == now && potionDetectedMessageShown &&
        effects == old(effects) + PotionEffects(old(potionDetectedMessageShown))
    {
      if !state.triggerStageReached || state.itemDetected || state.completionDone {
        return;
      }
      if player.None? {
        return;
      }
      if newContainer == player.value {
        if cache.itemResolved && baseObj == cache.itemFormID {
          ProcessItemDetection(now);
        }
      }
    }

    /** ProcessQuestCompletion: does nothing once completion is done;
        otherwise sends the setstage console command, records completion and
        shows the completion notification if configured and not shown yet.
        Its only caller ends the delay first, after a detection. */
    method ProcessQuestCompletion()
      requires Valid() && state.itemDetected && !waitingForPotionDelay
      modifies this`state, this`completionMessageShown, this`effects
      ensures Valid()
      ensures old(state.completionDone) ==>
        state == old(state) && completionMessageShown == old(completionMessageShown) && effects == old(effects)
      ensures !old(state.completionDone) ==>
        state == old(state).(completionDone := true) &&
        completionMessageShown == (old(completionMessageShown) || CompletionNoticeWanted(config)) &&
        effects == old(effects) + CompletionEffects(config, old(completionMessageShown))
    {
      if state.completionDone {
        return;
      }
      ghost var before := Flags(triggerMessageShown, state.triggerStageReached, potionDetectedMessageShown,
                                state.itemDetected, waitingForPotionDelay, state.completionDone, completionMessageShown);
      CompletionStep(effects, before, config);
      effects := effects + CompletionEffects(config, completionMessageShown);
      state := state.(completionDone := true);
      if config.messages.enabled && config.messages.showCompletionMessage && !completionMessageShown {
        completionMessageShown := true;
      }
    }

    /** ProcessDelayedQuestCompletion. Only while the delay is pending after
        a detection and before completion, and only once at least five whole
        seconds have passed since the detection: the delay ends, the item is
        asked to be removed if configured (whatever the answer), and the
        quest is completed as ProcessQuestCompletion does. A removal always
        names a nonzero identifier. */
    method ProcessDelayedQuestCompletion(now: int)
      requires Valid()
      modifies this`state, this`waitingForPotionDelay, this`completionMessageShown, this`effects
      ensures Valid()
      ensures !(old(waitingForPotionDelay) && old(state.itemDetected) && !old(state.completionDone) &&
                WholeSeconds(now - potionDetectedTime) >= DelaySeconds) ==>
        state == old(state) && waitingForPotionDelay == old(waitingForPotionDelay) &&
        completionMessageShown == old(completionMessageShown) && effects == old(effects)
      ensures old(waitingForPotionDelay) && old(state.itemDetected) && !old(state.completionDone) &&
              WholeSeconds(now - potionDetectedTime) >= DelaySeconds ==>
        !waitingForPotionDelay && state == old(state).(completionDone := true) &&
        completionMessageShown == (old(completionMessageShown) || CompletionNoticeWanted(config)) &&
        effects == old(effects) + RemovalEffects(config, cache.itemFormID) +
                   CompletionEffects(config, old(completionMessageShown)) &&
        (config.item.removeOnDetection ==> cache.itemFormID != 0)
    {
      if !waitingForPotionDelay {
        return;
      }
      if !state.itemDetected {
        return;
      }
      if state.completionDone {
        return;
      }
      var elapsed := WholeSeconds(now - potionDetectedTime);
      if elapsed < DelaySeconds {
        return;
      }
      EndDelay();
      ProcessQuestCompletion();
    }

    /** The end of the potion delay: it stops waiting and, if configured,
        asks for one potion to be removed, which names a nonzero identifier. */
    method EndDelay()
      requires Valid() && waitingForPotionDelay
      modifies this`waitingForPotionDelay, this`effects
      ensures Valid() && !waitingForPotionDelay
      ensures effects == old(effects) + RemovalEffects(config, cache.itemFormID)
      ensures config.item.removeOnDetection ==> cache.itemFormID != 0
    {
      ghost var before := Flags(triggerMessageShown, state.triggerStageReached, potionDetectedMessageShown,
                                state.itemDetected, waitingForPotionDelay, state.completionDone, completionMessageShown);
      RemovalStep(effects, before, config, cache.itemFormID);
      waitingForPotionDelay := false;
      if config.item.removeOnDetection {
        effects := effects + [RemoveItem(cache.itemFormID, 1)];
      }
    }

    /** ValidatePluginsInINI: disables in memory each enabled feature whose
        plugin is not loaded, as ValidatePlugins states. */
    method ValidatePluginsInINI(loaded: Option<set<string>>)
      requires Valid()
      modifies this`config
      ensures Valid()
      ensures config == ValidatePlugins(old(config), loaded)
    {
      if loaded.None? {
        return;
      }
      if config.quest.enabled {
        if config.quest.questPlugin !in loaded.value {
          config := config.(quest := config.quest.(enabled := false));
        }
      }
      if config.item.enabled {
        if config.item.itemPlugin !in loaded.value {
          config := config.(item := config.item.(enabled := false));
        }
      }
    }

    /** LoadConfiguration: creates the default file when there is none, then
        reads it as ReadLines does, as LoadOutcome states. */
    method LoadConfiguration(file: IniFile) returns (result: LoadResult)
      requires Valid()
      modifies this`config
      ensures Valid()
      ensures (result, config) == LoadOutcome(file, old(config))
    {
      if file.Unopenable? || file == Absent(false) {
        return OpenFailed;
      }
      result, config := ReadLines(IniLines(file), config);
    }

    /** The logic reset both session starts and StartMonitoringThread
        perform: the quest state, the shown flags, the delay and the cache are
        cleared, both check times become now, and a new session of requests
        begins. */
    method ResetLogicState(now: int)
      modifies this`state, this`triggerMessageShown, this`completionMessageShown,
               this`potionDetectedMessageShown, this`waitingForPotionDelay, this`cache,
               this`lastQuestCheck, this`lastItemCheck, this`effects
      ensures Valid()
      ensures state == InitialQuestState && cache == EmptyCache
      ensures !triggerMessageShown && !completionMessageShown && !potionDetectedMessageShown
      ensures !waitingForPotionDelay && lastQuestCheck == now && lastItemCheck == now && effects == []
    {
      state := InitialQuestState;
      triggerMessageShown := false;
      completionMessageShown := false;
      potionDetectedMessageShown := false;
      waitingForPotionDelay := false;
      cache := EmptyCache;
      lastQuestCheck := now;
      lastItemCheck := now;
      effects := [];
      ClearedAgrees();
    }

    /** StartMonitoringThread: only when monitoring is not active, activates
        it with no cycles, the warm-up pending from now, and the logic reset. */
    method StartMonitoringThread(now: int)
      requires Valid()
      modifies this`monitoringActive, this`monitorCycles, this`initialDelayComplete, this`monitoringStartTime,
               this`state, this`triggerMessageShown, this`completionMessageShown,
               this`potionDetectedMessageShown, this`waitingForPotionDelay, this`cache,
               this`lastQuestCheck, this`lastItemCheck, this`effects
      ensures Valid()
      ensures old(monitoringActive) ==>
        monitorCycles == old(monitorCycles) && initialDelayComplete == old(initialDelayComplete) &&
        monitoringStartTime == old(monitoringStartTime) && state == old(state) && cache == old(cache) &&
        triggerMessageShown == old(triggerMessageShown) && completionMessageShown == old(completionMessageShown) &&
        potionDetectedMessageShown == old(potionDetectedMessageShown) &&
        waitingForPotionDelay == old(waitingForPotionDelay) && lastQuestCheck == old(lastQuestCheck) &&
        lastItemCheck == old(lastItemCheck) && effects == old(effects)
      ensures monitoringActive
      ensures !old(monitoringActive) ==>
        monitorCycles == 0 && !initialDelayComplete && monitoringStartTime == now &&
        state == InitialQuestState && cache == EmptyCache &&
        !triggerMessageShown && !completionMessageShown && !potionDetectedMessageShown &&
        !waitingForPotionDelay && lastQuestCheck == now && lastItemCheck == now && effects == []
    {
      if !monitoringActive {
        monitoringActive := true;
        monitorCycles := 0;
        initialDelayComplete := false;
        ResetLogicState(now);
        monitoringStartTime := now;
      }
    }

    /** StopMonitoringThread: monitoring is no longer active. */
    method StopMonitoringThread()
      modifies this`monitoringActive
      ensures !monitoringActive
    {
      if monitoringActive {
        monitoringActive := false;
      }
    }

    /** ShutdownPlugin: the shutdown flag is raised and monitoring stops. */
    method Shutdown()
      modifies this`isShuttingDown, this`monitoringActive
      ensures isShuttingDown && !monitoringActive
    {
      isShuttingDown := true;
      StopMonitoringThread();
    }

    /** The kPreLoadGame message: a game transition begins. */
    method PreLoadGame()
      modifies this`isInGameTransition
      ensures isInGameTransition
    {
      isInGameTransition := true;
    }

    /** The kNewGame and kPostLoadGame messages: the transition and shutdown
        flags are cleared, the warm-up is pending again, the logic is reset
        and monitoring is started if it was not active. A thread that was
        already active keeps its start time and its cycle count, so its
        warm-up is measured from when it started. */
    method SessionStarted(now: int)
      requires Valid()
      modifies this`isInGameTransition, this`isShuttingDown,
               this`monitoringActive, this`monitorCycles, this`initialDelayComplete, this`monitoringStartTime,
               this`state, this`triggerMessageShown, this`completionMessageShown,
               this`potionDetectedMessageShown, this`waitingForPotionDelay, this`cache,
               this`lastQuestCheck, this`lastItemCheck, this`effects
      ensures Valid()
      ensures !isInGameTransition && !isShuttingDown && monitoringActive && !initialDelayComplete
      ensures state == InitialQuestState && cache == EmptyCache
      ensures !triggerMessageShown && !completionMessageShown && !potionDetectedMessageShown
      ensures !waitingForPotionDelay && lastQuestCheck == now && lastItemCheck == now && effects == []
      ensures monitorCycles == (if old(monitoringActive) then old(monitorCycles) else 0)
      ensures monitoringStartTime == (if old(monitoringActive) then old(monitoringStartTime) else now)
    {
      isInGameTransition := false;
      isShuttingDown := false;
      initialDelayComplete := false;
      ResetLogicState(now);
      if !monitoringActive {
        StartMonitoringThread(now);
      }
    }

    /** The kDataLoaded message: the first time, the configuration is loaded
        (an exception from std::stoi leaves the handler at once, with the
        settings assigned so far and the plugin still uninitialized); then
        the plugins are validated and monitoring is started if it was not
        active. */
    method DataLoaded(file: IniFile, loaded: Option<set<string>>, now: int)
      requires Valid()
      modifies this`config, this`isInitialized,
               this`monitoringActive, this`monitorCycles, this`initialDelayComplete, this`monitoringStartTime,
               this`state, this`triggerMessageShown, this`completionMessageShown,
               this`potionDetectedMessageShown, this`waitingForPotionDelay, this`cache,
               this`lastQuestCheck, this`lastItemCheck, this`effects
      ensures Valid()
      ensures var threw := !old(isInitialized) && LoadOutcome(file, old(config)).0 == ParseThrew;
        var read := if old(isInitialized) then old(config) else LoadOutcome(file, old(config)).1;
        if threw then
          config == read && !isInitialized && monitoringActive == old(monitoringActive) &&
          state == old(state) && effects == old(effects)
        else
          config == ValidatePlugins(read, loaded) && isInitialized && monitoringActive &&
          (old(monitoringActive) ==> state == old(state) && effects == old(effects)) &&
          (!old(monitoringActive) ==> state == InitialQuestState && effects == [] && monitoringStartTime == now)
    {
      var threw := Initialize(file);
      if threw {
        return;
      }
      ValidatePluginsInINI(loaded);
      if !monitoringActive {
        StartMonitoringThread(now);
      }
    }

    /** The first-time part of kDataLoaded: unless the plugin is already
        initialized, the configuration is loaded, and the plugin counts as
        initialized unless std::stoi threw while reading it. */
    method Initialize(file: IniFile) returns (threw: bool)
      requires Valid()
      modifies this`config, this`isInitialized
      ensures Valid()
      ensures threw <==> !old(isInitialized) && LoadOutcome(file, old(config)).0 == ParseThrew
      ensures config == if old(isInitialized) then old(config) else LoadOutcome(file, old(config)).1
      ensures isInitialized == !threw
    {
      threw := false;
      if !isInitialized {
        var result := LoadConfiguration(file);
        if result == ParseThrew {
          return true;
        }
        isInitialized := true;
      }
    }

    /** The loop goes on and the pass is not skipped: monitoring is active,
        the plugin is not shutting down, and no game transition is under way. */
    predicate CycleRuns()
      reads this`monitoringActive, this`isShuttingDown, this`isInGameTransition
    {
      monitoringActive && !isShuttingDown && !isInGameTransition
    }

    /** The warm-up is over, or DelaySeconds whole seconds have passed since
        the thread started. */
    predicate WarmedUp(now: int)
      reads this`initialDelayComplete, this`monitoringStartTime
    {
      initialDelayComplete || WholeSeconds(now - monitoringStartTime) >= DelaySeconds
    }

    /** One pass of MonitoringThreadFunction's loop at the instant `now`,
        with the game's answers for this pass: the quest under the configured
        editor ID, the item's plugin, the bound objects the player carries.
        Nothing happens once monitoring stopped or during a game transition,
        nor while the warm-up of five whole seconds since the thread started
        is running. The pass that ends the warm-up resolves the form
        identifiers first; every pass counts a cycle, then checks the quest,
        the inventory and the delay, in that order. */
    method Cycle(now: int, quest: Option<QuestView>, itemPlugin: Option<PluginFile>, carried: set<FormID>)
      requires Valid()
      modifies this`initialDelayComplete, this`monitorCycles, this`cache,
               this`state, this`lastQuestCheck, this`lastItemCheck, this`triggerMessageShown,
               this`waitingForPotionDelay, this`potionDetectedTime, this`potionDetectedMessageShown,
               this`completionMessageShown, this`effects
      ensures Valid()
      ensures !CycleRuns() || !old(WarmedUp(now)) ==>
        initialDelayComplete == old(initialDelayComplete) && monitorCycles == old(monitorCycles) &&
        cache == old(cache) && state == old(state) && effects == old(effects)
      ensures CycleRuns() && old(WarmedUp(now)) ==>
        initialDelayComplete && monitorCycles == old(monitorCycles) + 1
    {
      if !CycleRuns() {
        return;
      }
      var ready := WarmUp(now, itemPlugin, QuestFormID(quest));
      if !ready {
        return;
      }
      monitorCycles := monitorCycles + 1;
      RunChecks(now, quest, itemPlugin, carried);
    }

    /** The warm-up of the monitoring thread: until DelaySeconds whole seconds
        have passed since the thread started nothing happens; the first pass
        after that marks the delay complete and resolves the identifiers. */
    method WarmUp(now: int, itemPlugin: Option<PluginFile>, quest: Option<FormID>) returns (ready: bool)
      requires Valid()
      modifies this`initialDelayComplete, this`cache
      ensures Valid()
      ensures ready <==> old(WarmedUp(now))
      ensures initialDelayComplete == ready
      ensures cache == if old(initialDelayComplete) || !ready then old(cache)
                       else Resolve(config, old(cache), itemPlugin, quest)
    {
      if initialDelayComplete {
        return true;
      }
      var elapsedSeconds := WholeSeconds(now - monitoringStartTime);
      if elapsedSeconds < DelaySeconds {
        return false;
      }
      initialDelayComplete := true;
      ResolveFormIDs(itemPlugin, quest);
      return true;
    }

    /** The three checks of a monitoring cycle once the warm-up is over, in
        the thread's order: the quest, the inventory, the delay. */
    method RunChecks(now: int, quest: Option<QuestView>, itemPlugin: Option<PluginFile>, carried: set<FormID>)
      requires Valid()
      modifies this`cache, this`state, this`lastQuestCheck, this`lastItemCheck, this`triggerMessageShown,
               this`waitingForPotionDelay, this`potionDetectedTime, this`potionDetectedMessageShown,
               this`completionMessageShown, this`effects
      ensures Valid()
    {
      CheckQuestState(now, quest);
      CheckPlayerInventory(now, itemPlugin, QuestFormID(quest), carried);
      ProcessDelayedQuestCompletion(now);
    }
  }
}
