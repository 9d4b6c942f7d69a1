/** The `Markdown` accumulator of lib/markdown.js: a text that grows by
    `append` and is read back trimmed (`toString`) or rendered (`toHtml`). */
module Markdown {
  import Text

  class Markdown {
    var markdown: string

    /** `new Markdown(markdown)` keeps the text as given. */
    constructor (markdown: string)
      ensures this.markdown == markdown
    {
      this.markdown := markdown;
    }

    /** `toString()`: the stored text without the whitespace at either end. */
    function ToString(): (r: string)
      reads this
      ensures Text.IsTrimOf(markdown, r)
    {
      Text.TrimSpec(markdown);
      Text.Trim(markdown)
    }

    /** `toHtml()`: the renderer (markdown-it, not part of this model) applied
        to what `toString()` returns. */
    function ToHtml(render: string -> string): (r: string)
      reads this
      ensures r == render(ToString())
    {
      render(Text.Trim(markdown))
    }

    /** `append(string)`: the stored text followed by `s`. */
    method Append(s: string)
      modifies this
      ensures markdown == old(markdown) + s
    {
      markdown := markdown + s;
    }
  }
}
