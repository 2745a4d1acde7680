/**
 * The base classes plugin authors derive from: their default fields and the
 * text `get_display_info` shows for a plugin.
 */
module AperioPluginBase {
  import AperioPlugin

  const BASE_NAME: string := "BasePlugin"
  const BASE_DISPLAY_NAME: string := "Base Plugin"
  const BASE_DESCRIPTION: string := "This is a base plugin class."
  const MAIN_VERSION: string := "0.1.0"
  const MAIN_AUTHOR: string := "Your Name"

  /** The image generator a main plugin is constructed with; it is accepted and not kept. */
  datatype ImageGeneratorHandle = ImageGeneratorHandle(id: nat)

  /** `PluginBase.get_display_info`: the display name, a newline and a tab, then the description. */
  function DisplayInfo(displayName: string, description: string): (s: string)
    ensures |s| == |displayName| + 2 + |description|
    ensures s[..|displayName|] == displayName
    ensures s[|displayName|..|displayName| + 2] == "\n\t"
    ensures s[|displayName| + 2..] == description
  {
    displayName + "\n\t" + description
  }

  /** The first line of the display information: the display name with the version and the author. */
  function Headline(displayName: string, version: string, author: string): (s: string)
    ensures |s| == |displayName| + 2 + |version| + 4 + |author|
    ensures s[..|displayName|] == displayName
    ensures s[|displayName|..|displayName| + 2] == " v"
    ensures s[|displayName| + 2..|displayName| + 2 + |version|] == version
    ensures s[|displayName| + 2 + |version|..|displayName| + 2 + |version| + 4] == " by "
    ensures s[|displayName| + 2 + |version| + 4..] == author
  {
    displayName + " v" + version + " by " + author
  }

  /** `MainPluginBase.get_display_info`: the headline, a newline and a tab, then the description. */
  function MainDisplayInfo(displayName: string, version: string, author: string, description: string): (s: string)
  {
    DisplayInfo(Headline(displayName, version, author), description)
  }

  /**
   * The main plugin's text is the base text with the version and author
   * put after the display name; the description follows unchanged.
   */
  lemma MainDisplayInfoShape(displayName: string, version: string, author: string, description: string)
    ensures var s := MainDisplayInfo(displayName, version, author, description);
      && |s| == |DisplayInfo(displayName, description)| + 6 + |version| + |author|
      && s[..|displayName|] == displayName
      && s[|s| - |description|..] == description
      && s[|s| - |description| - 2..|s| - |description|] == "\n\t"
  {
    var head := Headline(displayName, version, author);
    var s := DisplayInfo(head, description);
    assert |s| - |description| == |head| + 2;
    assert s[..|displayName|] == s[..|head|][..|displayName|];
  }

  /** `PluginBase`: a name, a display name and a description. */
  class PluginBase {
    var name: string
    var displayName: string
    var description: string

    constructor ()
      ensures name == BASE_NAME && displayName == BASE_DISPLAY_NAME && description == BASE_DESCRIPTION
    {
      name := BASE_NAME;
      displayName := BASE_DISPLAY_NAME;
      description := BASE_DESCRIPTION;
    }

    function GetDisplayInfo(): string
      reads this
    {
      DisplayInfo(displayName, description)
    }
  }

  /** `MainPluginBase`: the base fields, then a version, an author and the manager it registers with. */
  class MainPluginBase {
    var name: string
    var displayName: string
    var description: string
    var version: string
    var author: string
    var manager: AperioPlugin.PluginManager

    constructor (manager: AperioPlugin.PluginManager, generator: ImageGeneratorHandle)
      ensures name == BASE_NAME && displayName == BASE_DISPLAY_NAME && description == BASE_DESCRIPTION
      ensures version == MAIN_VERSION && author == MAIN_AUTHOR && this.manager == manager
    {
      name := BASE_NAME;
      displayName := BASE_DISPLAY_NAME;
      description := BASE_DESCRIPTION;
      version := MAIN_VERSION;
      author := MAIN_AUTHOR;
      this.manager := manager;
    }

    function GetDisplayInfo(): string
      reads this
    {
      MainDisplayInfo(displayName, version, author, description)
    }
  }
}
