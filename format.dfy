/** showFormattedPluginsInfo: one titled, bulleted section of the update report.
    Output is modelled as the sequence of newline-terminated lines written; the
    bytes written are their concatenation. */
module Format {

  /** The section title line: two spaces, the header, a colon. */
  function HeaderLine(header: string): string
  {
    "  " + header + ":\n"
  }

  /** One bullet line: four spaces, an asterisk, a space, the item. */
  function ItemLine(item: string): string
  {
    "    * " + item + "\n"
  }

  /** The lines of a section: exactly one header line, then one bullet per
      item, in the order of `items`. */
  function PluginsInfo(header: string, items: seq<string>): (lines: seq<string>)
    ensures |lines| == |items| + 1
    ensures lines[0] == HeaderLine(header)
    ensures forall k :: 0 <= k < |items| ==> lines[k + 1] == ItemLine(items[k])
    decreases |items|
  {
    if items == [] then [HeaderLine(header)]
    else PluginsInfo(header, items[..|items| - 1]) + [ItemLine(items[|items| - 1])]
  }

  lemma PluginsInfoOfOne(header: string, item: string)
    ensures PluginsInfo(header, [item]) == [HeaderLine(header), ItemLine(item)]
  {
  }

  /** Builds the section in a buffer line by line, then hands the buffer over. */
  method ShowFormattedPluginsInfo(header: string, plugins: seq<string>) returns (written: seq<string>)
    ensures written == PluginsInfo(header, plugins)
  {
    var b := [HeaderLine(header)];
    for i := 0 to |plugins|
      invariant b == PluginsInfo(header, plugins[..i])
    {
      assert plugins[..i + 1][..i] == plugins[..i];
      b := b + [ItemLine(plugins[i])];
    }
    assert plugins[..|plugins|] == plugins;
    written := b;
  }
}
