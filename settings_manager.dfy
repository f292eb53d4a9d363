/**
 * The settings store (`SettingsManager.kt`): a `java.util.Properties` table
 * of string keys and string values, written to the settings file after
 * every change. The table is a map; the file is a ghost snapshot.
 */
module Settings {
  import opened Wrappers

  /** A Kotlin `Float`, as its IEEE 754 single-precision bit pattern. */
  type Float = bv32

  /** `0.25f` and `0.5f`. */
  const QuarterFloat: Float := 0x3E80_0000
  const HalfFloat: Float := 0x3F00_0000

  /** The bit patterns that encode NaN: all exponent bits set, fraction not zero. */
  predicate IsNaN(f: Float) {
    (f >> 23) & 0xFF == 0xFF && f & 0x7F_FFFF != 0
  }

  /**
   * The two conversions between `Float` and text that the store uses:
   * `String.toFloat()` (None where it throws `NumberFormatException`) and
   * `Float.toString()`. Their grammar is not part of this model, so a
   * store is given them when it is built.
   */
  datatype FloatText = FloatText(parse: string -> Option<Float>, show: Float -> string)

  /**
   * Printing a value that is not NaN and parsing the text back gives the
   * same value again (every NaN prints as "NaN", which parses to one NaN).
   */
  ghost predicate RoundTrips(floatText: FloatText) {
    forall f :: !IsNaN(f) ==> floatText.parse(floatText.show(f)) == Some(f)
  }

  /** The keys under which the main window keeps its four divider positions. */
  const SplitPositionKeys: seq<string> :=
    ["mainSplitPosition", "rightVerticalSplitPosition", "topHorizontalSplitPosition", "bottomHorizontalSplitPosition"]

  class SettingsManager {
    /** The in-memory `Properties` table. */
    var properties: map<string, string>
    /** What the settings file holds; None while there is no file. */
    ghost var settingsFile: Option<map<string, string>>
    const floatText: FloatText

    /**
     * `init`: the table starts as the file's contents when the file exists,
     * and empty otherwise. Nothing is written.
     */
    constructor (existingFile: Option<map<string, string>>, floatText: FloatText)
      ensures properties == (if existingFile.Some? then existingFile.value else map[])
      ensures settingsFile == existingFile
      ensures this.floatText == floatText
    {
      properties := if existingFile.Some? then existingFile.value else map[];
      settingsFile := existingFile;
      this.floatText := floatText;
    }

    /** `getString`: the stored text, or the default when the key is absent. */
    function GetString(key: string, defaultValue: string): (r: string)
      reads this
      ensures key in properties ==> r == properties[key]
      ensures key !in properties ==> r == defaultValue
    {
      if key in properties then properties[key] else defaultValue
    }

    /**
     * `getFloat`: the parsed stored text; the default when the key is
     * absent or its text does not parse.
     */
    function GetFloat(key: string, defaultValue: Float): (r: Float)
      reads this
      ensures key !in properties ==> r == defaultValue
      ensures key in properties && floatText.parse(properties[key]).None? ==> r == defaultValue
      ensures key in properties && floatText.parse(properties[key]).Some? ==> r == floatText.parse(properties[key]).value
    {
      if key in properties then
        match floatText.parse(properties[key])
        case Some(v) => v
        case None => defaultValue
      else defaultValue
    }

    /** `setString`: store the text under the key, then save. */
    method SetString(key: string, value: string)
      modifies this
      ensures properties == old(properties)[key := value]
      ensures forall d :: GetString(key, d) == value
      ensures forall k, d :: k != key ==> GetString(k, d) == old(GetString(k, d))
      ensures settingsFile == Some(properties)
    {
      properties := properties[key := value];
      SaveSettings();
    }

    /** `setFloat`: store the value's text under the key, then save. */
    method SetFloat(key: string, value: Float)
      modifies this
      ensures properties == old(properties)[key := floatText.show(value)]
      ensures RoundTrips(floatText) && !IsNaN(value) ==> forall d :: GetFloat(key, d) == value
      ensures forall k, d :: k != key ==> GetFloat(k, d) == old(GetFloat(k, d))
      ensures settingsFile == Some(properties)
    {
      properties := properties[key := floatText.show(value)];
      SaveSettings();
    }

    /** `saveSettings`: the file now holds exactly the table. */
    method SaveSettings()
      modifies this
      ensures properties == old(properties)
      ensures settingsFile == Some(properties)
    {
      settingsFile := Some(properties);
    }
  }

  /**
   * The main window's start-up reads: without a settings file, every
   * divider position comes back as its default.
   */
  method SplitPositionsWithoutFile(floatText: FloatText) returns (positions: seq<Float>)
    ensures positions == [QuarterFloat, HalfFloat, HalfFloat, HalfFloat]
  {
    var settings := new SettingsManager(None, floatText);
    var main := settings.GetFloat(SplitPositionKeys[0], QuarterFloat);
    var rightVertical := settings.GetFloat(SplitPositionKeys[1], HalfFloat);
    var topHorizontal := settings.GetFloat(SplitPositionKeys[2], HalfFloat);
    var bottomHorizontal := settings.GetFloat(SplitPositionKeys[3], HalfFloat);
    positions := [main, rightVertical, topHorizontal, bottomHorizontal];
  }

  /**
   * A divider position saved with `setFloat` comes back from `getFloat` on
   * a store started from the saved file, whatever default is asked for.
   */
  method SavedPositionSurvivesRestart(floatText: FloatText, key: string, position: Float, defaultValue: Float)
    returns (restored: Float)
    requires RoundTrips(floatText) && !IsNaN(position)
    ensures restored == position
  {
    var settings := new SettingsManager(None, floatText);
    settings.SetFloat(key, position);
    // The restart reads the file the setter saved, which holds the table.
    assert settings.settingsFile == Some(settings.properties);
    var restarted := new SettingsManager(Some(settings.properties), floatText);
    restored := restarted.GetFloat(key, defaultValue);
  }
}
