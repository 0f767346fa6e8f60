/** ResolveFormIDs and ValidatePluginsInINI: caching the form identifiers of
    the configured item and quest, and switching features off in memory
    when their plugin is not loaded. The host's lookups are inputs. */
module Cache {
  import opened Wrappers
  import opened FormIds
  import opened Settings

  datatype CachedFormIDs = CachedFormIDs(
    questFormID: FormID, itemFormID: FormID, questResolved: bool, itemResolved: bool)

  const EmptyCache := CachedFormIDs(0, 0, false, false)

  /** One call of ResolveFormIDs. `itemPlugin` is what the host reports for
      the item's plugin, `quest` the form identifier of the quest found under
      the configured editor ID, if any. An enabled, unresolved entry is
      looked up again; the item counts as resolved only for a nonzero
      identifier (a failed attempt stores 0), the quest whenever it is found.
      A resolved entry is never looked up again nor cleared, and a disabled
      one is left alone. */
  function Resolve(cfg: PluginConfig, c: CachedFormIDs, itemPlugin: Option<PluginFile>,
                   quest: Option<FormID>): (r: CachedFormIDs)
    ensures c.itemResolved || !cfg.item.enabled ==> r.itemResolved == c.itemResolved && r.itemFormID == c.itemFormID
    ensures c.questResolved || !cfg.quest.enabled ==> r.questResolved == c.questResolved && r.questFormID == c.questFormID
    ensures !c.itemResolved && cfg.item.enabled ==>
      r.itemFormID == GetFormIDFromPlugin(itemPlugin, cfg.item.itemID) &&
      (r.itemResolved <==> r.itemFormID != 0)
    ensures !c.questResolved && cfg.quest.enabled ==>
      (r.questResolved <==> quest.Some?) &&
      r.questFormID == (if quest.Some? then quest.value else c.questFormID)
  {
    var afterItem :=
      if cfg.item.enabled && !c.itemResolved then
        var id := GetFormIDFromPlugin(itemPlugin, cfg.item.itemID);
        c.(itemFormID := id, itemResolved := id != 0)
      else c;
    if cfg.quest.enabled && !afterItem.questResolved && quest.Some? then
      afterItem.(questFormID := quest.value, questResolved := true)
    else afterItem
  }

  /** A resolved item carries a nonzero identifier, before and after any
      call. */
  predicate CacheValid(c: CachedFormIDs)
  {
    c.itemResolved ==> c.itemFormID != 0
  }

  /** Resolution keeps CacheValid, and a failed attempt is retried: after a
      call that could not find the item's plugin, a call that finds it with
      a key that parses to a nonzero identifier resolves the item. */
  lemma ResolveRetries(cfg: PluginConfig, c: CachedFormIDs, file: PluginFile, quest: Option<FormID>)
    requires cfg.item.enabled && !c.itemResolved
    requires GetFormIDFromPlugin(Some(file), cfg.item.itemID) != 0
    ensures CacheValid(Resolve(cfg, c, None, quest))
    ensures !Resolve(cfg, c, None, quest).itemResolved
    ensures Resolve(cfg, Resolve(cfg, c, None, quest), Some(file), quest).itemResolved
  {
  }

  /** ValidatePluginsInINI. `loaded` answers whether a plugin of that name is
      loaded, or is None when there is no data handler, in which case nothing
      changes. An enabled feature whose plugin is missing is disabled; no
      other setting changes. */
  function ValidatePlugins(cfg: PluginConfig, loaded: Option<set<string>>): (r: PluginConfig)
    ensures r.quest.enabled <==> cfg.quest.enabled && (loaded.None? || cfg.quest.questPlugin in loaded.value)
    ensures r.item.enabled <==> cfg.item.enabled && (loaded.None? || cfg.item.itemPlugin in loaded.value)
    ensures r.(quest := cfg.quest, item := cfg.item) == cfg
    ensures r.quest.(enabled := cfg.quest.enabled) == cfg.quest
    ensures r.item.(enabled := cfg.item.enabled) == cfg.item
  {
    match loaded
    case None => cfg
    case Some(names) =>
      var q := if cfg.quest.enabled && cfg.quest.questPlugin !in names then cfg.(quest := cfg.quest.(enabled := false)) else cfg;
      if q.item.enabled && q.item.itemPlugin !in names then q.(item := q.item.(enabled := false)) else q
  }

  /** Validating twice is validating once. */
  lemma ValidateIdempotent(cfg: PluginConfig, loaded: Option<set<string>>)
    ensures ValidatePlugins(ValidatePlugins(cfg, loaded), loaded) == ValidatePlugins(cfg, loaded)
  {
  }
}
