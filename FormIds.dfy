/** GetFormIDFromPlugin: turning a plugin-relative hexadecimal record key into
    a load-order-qualified 32-bit form identifier. The plugin lookup itself is
    a host call; its answer is passed in. */
module FormIds {
  import opened Wrappers
  import opened Numeric

  type FormID = x: int | 0 <= x < 0x1_0000_0000
  type Byte = x: int | 0 <= x < 0x100
  type Word = x: int | 0 <= x < 0x1_0000

  /** 2^24: the top byte of a form identifier is its mod index, the low 24
      bits the record's own identifier. */
  const LowSpan: int := 0x100_0000

  /** What the host reports about a loaded plugin file. */
  datatype PluginFile = PluginFile(compileIndex: Byte, smallFileCompileIndex: Word)

  /** Drops a leading "XX" placeholder for the mod index, if there is one. */
  function StripPlaceholder(id: string): (r: string)
    ensures |id| >= 2 && id[..2] == "XX" ==> id == "XX" + r
    ensures !(|id| >= 2 && id[..2] == "XX") ==> r == id
  {
    if |id| >= 2 && id[..2] == "XX" then
      assert id == id[..2] + id[2..];
      id[2..]
    else id
  }

  /** The mod index used for a plugin: its compile index, or, when that is
      0xFF, its small-file compile index narrowed to the 8-bit variable the
      source stores it in. */
  function ModIndex(file: PluginFile): Byte
  {
    if file.compileIndex == 0xFF then file.smallFileCompileIndex % 0x100 else file.compileIndex
  }

  /** `(modIndex << 24) | (localID & 0x00FFFFFF)`, written arithmetically:
      shifting a byte left by 24 and or-ing in a 24-bit value is the same as
      multiplying by 2^24 and adding. */
  function Compose(modIndex: Byte, localID: nat): FormID
  {
    modIndex * LowSpan + localID % LowSpan
  }

  /** GetFormIDFromPlugin. The result is 0 when the plugin is not loaded (or
      there is no data handler) and when the key is not hexadecimal; otherwise
      its top byte is the plugin's mod index and its low 24 bits are those of
      the parsed key. */
  function GetFormIDFromPlugin(plugin: Option<PluginFile>, localFormID: string): (r: FormID)
    ensures plugin.None? ==> r == 0
    ensures ParseHex(StripPlaceholder(localFormID)).None? ==> r == 0
    ensures plugin.Some? && ParseHex(StripPlaceholder(localFormID)).Some? ==>
      r / LowSpan == ModIndex(plugin.value) &&
      r % LowSpan == ParseHex(StripPlaceholder(localFormID)).value % LowSpan
  {
    match plugin
    case None => 0
    case Some(file) =>
      match ParseHex(StripPlaceholder(localFormID))
      case None => 0
      case Some(localID) => Compose(ModIndex(file), localID)
  }
}
