/**
 * The button that stands for one plugin of a track's chain
 * (PluginHosting/PluginStuff.h): its label and what a click on it does.
 */
module PluginComponents {
  import opened Juce
  import opened Tracktion

  /** A plugin's button: the plugin it refers to, its text and its bounds in the panel. */
  datatype PluginComponent = PluginComponent(plugin: Plugin, text: string, bounds: Rect)

  /** The button text: the plugin's name cut to its first five characters (all of it when shorter). */
  function Label(name: string): (s: string)
    ensures |s| <= 5 && |s| <= |name| && s == name[..|s|]
    ensures |s| == 5 || s == name
  {
    name[..Juce.Min(5, |name|)]
  }

  /** A new button for `p`, not yet placed. */
  function NewPluginComponent(p: Plugin): PluginComponent
  {
    PluginComponent(p, Label(p.name), Rect(0, 0, 0, 0))
  }

  /** What a click asks for: the pop-up offering "Delete", or the plugin's window. */
  datatype ClickAction = OfferDelete | ShowWindow

  /** A pop-up-menu click (the right button, or its modifier equivalent) offers deletion; any other click shows the window. */
  function Clicked(isPopupMenu: bool): (a: ClickAction)
    ensures a == OfferDelete <==> isPopupMenu
    ensures a == ShowWindow <==> !isPopupMenu
  {
    if isPopupMenu then OfferDelete else ShowWindow
  }
}
