/** `create_html`: the converted markdown placed in a fixed standalone
    document whose head carries a constant style sheet. The markdown
    converter (markdown2) is a parameter. */
module Render {
  import opened Wrappers
  import opened Text

  /** `markdown2.markdown(text, extras=...)`, text in, HTML fragment out. */
  type Converter = (string, seq<string>) -> string

  const Extras: seq<string> := ["fenced-code-blocks", "tables", "break-on-newline", "header-ids", "task_list"]

  /** The `<style>` element, character for character as the template embeds
      it. */
  const Css: string :=
    "\n" +
    "        <style>\n" +
    "            body {\n" +
    "                font-family: Arial, sans-serif;\n" +
    "                line-height: 1.6;\n" +
    "                color: #333;\n" +
    "                max-width: 800px;\n" +
    "                margin: 0 auto;\n" +
    "                padding: 20px;\n" +
    "                background-color: #f5f5f5;\n" +
    "            }\n" +
    "            .content {\n" +
    "                background-color: white;\n" +
    "                padding: 30px;\n" +
    "                border-radius: 8px;\n" +
    "                box-shadow: 0 2px 4px rgba(0,0,0,0.1);\n" +
    "            }\n" +
    "            h1, h2, h3, h4, h5, h6 {\n" +
    "                color: #2c3e50;\n" +
    "                margin-top: 24px;\n" +
    "                margin-bottom: 16px;\n" +
    "            }\n" +
    "            h1 { font-size: 2em; border-bottom: 2px solid #eee; }\n" +
    "            h2 { font-size: 1.5em; border-bottom: 1px solid #eee; }\n" +
    "            pre {\n" +
    "                background-color: #f6f8fa;\n" +
    "                padding: 16px;\n" +
    "                border-radius: 6px;\n" +
    "                overflow-x: auto;\n" +
    "                line-height: 1.45;\n" +
    "            }\n" +
    "            code {\n" +
    "                background-color: #f6f8fa;\n" +
    "                padding: 2px 4px;\n" +
    "                border-radius: 3px;\n" +
    "                font-family: Consolas, monospace;\n" +
    "                font-size: 0.9em;\n" +
    "            }\n" +
    "            blockquote {\n" +
    "                border-left: 4px solid #0078D4;\n" +
    "                margin: 0;\n" +
    "                padding: 10px 20px;\n" +
    "                color: #666;\n" +
    "                background-color: #f8f9fa;\n" +
    "            }\n" +
    "            table {\n" +
    "                border-collapse: collapse;\n" +
    "                width: 100%;\n" +
    "                margin: 16px 0;\n" +
    "            }\n" +
    "            th, td {\n" +
    "                border: 1px solid #ddd;\n" +
    "                padding: 12px;\n" +
    "                text-align: left;\n" +
    "            }\n" +
    "            th {\n" +
    "                background-color: #f8f9fa;\n" +
    "            }\n" +
    "            tr:nth-child(even) {\n" +
    "                background-color: #f8f9fa;\n" +
    "            }\n" +
    "            img {\n" +
    "                max-width: 100%;\n" +
    "                height: auto;\n" +
    "                border-radius: 4px;\n" +
    "            }\n" +
    "            p {\n" +
    "                margin: 16px 0;\n" +
    "                line-height: 1.8;\n" +
    "            }\n" +
    "            ul, ol {\n" +
    "                padding-left: 20px;\n" +
    "            }\n" +
    "            li {\n" +
    "                margin: 8px 0;\n" +
    "            }\n" +
    "            a {\n" +
    "                color: #0366d6;\n" +
    "                text-decoration: none;\n" +
    "            }\n" +
    "            a:hover {\n" +
    "                text-decoration: underline;\n" +
    "            }\n" +
    "        </style>\n" +
    "        "

  /** The template up to the style sheet. */
  const Opening: string :=
    "\n        <!DOCTYPE html>\n        <html>\n        <head>\n            <meta charset=\"UTF-8\">\n" +
    "            <title>Screenshot Analysis</title>\n            "

  /** From the style sheet to the converted fragment. */
  const Middle: string := "\n        </head>\n        <body>\n            <div class=\"content\">\n                "

  /** After the converted fragment. */
  const Closing: string := "\n            </div>\n        </body>\n        </html>\n        "

  /** Everything before the fragment. */
  const Head: string := Opening + Css + Middle

  function CreateHtml(convert: Converter, markdownText: string): string {
    Head + convert(markdownText, Extras) + Closing
  }

  /** The text strictly between a given prefix and a given suffix, when the
      document has both. */
  function Between(doc: string, prefix: string, suffix: string): (r: Option<string>)
    ensures r.Some? ==> doc == prefix + r.value + suffix
    ensures r.None? ==> !(StartsWith(doc, prefix) && EndsWith(doc, suffix) && |prefix| + |suffix| <= |doc|)
  {
    if |doc| >= |prefix| + |suffix| && StartsWith(doc, prefix) && EndsWith(doc, suffix)
    then
      var r := doc[|prefix|..|doc| - |suffix|];
      assert doc == doc[..|prefix|] + r + doc[|doc| - |suffix|..];
      Some(r)
    else None
  }

  lemma BetweenRecovers(prefix: string, middle: string, suffix: string)
    ensures Between(prefix + middle + suffix, prefix, suffix) == Some(middle)
  {
    var doc := prefix + middle + suffix;
    assert doc[..|prefix|] == prefix;
    assert doc[|doc| - |suffix|..] == suffix;
    assert doc[|prefix|..|doc| - |suffix|] == middle;
  }

  /** The part of a document between the fixed head and the fixed closing
      lines. */
  function ExtractFragment(doc: string): Option<string> {
    Between(doc, Head, Closing)
  }

  /** The converted fragment is exactly what sits inside the template, and a
      document is recognised only when it has the template's shape. */
  lemma FragmentRecovered(convert: Converter, markdownText: string, doc: string)
    ensures ExtractFragment(CreateHtml(convert, markdownText)) == Some(convert(markdownText, Extras))
    ensures ExtractFragment(doc).Some? ==> doc == Head + ExtractFragment(doc).value + Closing
  {
    BetweenRecovers(Head, convert(markdownText, Extras), Closing);
  }

  /** Two documents are equal exactly when their converted fragments are:
      the template adds nothing that depends on the input. */
  lemma DocumentDeterminesFragment(c1: Converter, t1: string, c2: Converter, t2: string)
    ensures CreateHtml(c1, t1) == CreateHtml(c2, t2) <==> c1(t1, Extras) == c2(t2, Extras)
  {
    FragmentRecovered(c1, t1, CreateHtml(c1, t1));
    FragmentRecovered(c2, t2, CreateHtml(c2, t2));
  }
}
