/** The printable HTML of a list of chat messages: a fixed document wrapper
    around one block per message, each with its content, its numbered
    sources and its timestamp. Timestamp formatting is locale dependent and
    is an input. Nothing is escaped. */
module PrintRenderer {
  import opened Wrappers
  import opened Text
  import opened Seqs
  import opened ApiModels

  const Prefix := "\n    <html>\n    <head>\n      <style>\n"
    + "        body { font-family: Arial, sans-serif; padding: 20px; }\n"
    + "        .message { margin-bottom: 16px; max-width: 600px; }\n"
    + "        .user { background: #2563eb; color: white; border-radius: 8px; padding: 12px; margin-left: auto; }\n"
    + "        .ai { background: #f3f4f6; border: 1px solid #e5e7eb; border-radius: 8px; padding: 12px; }\n"
    + "        .timestamp { font-size: 10px; color: #6b7280; margin-top: 4px; }\n"
    + "        .sources { font-size: 12px; margin-top: 8px; padding-top: 8px; border-top: 1px solid #ddd; }\n"
    + "        .source-item { margin-bottom: 4px; }\n"
    + "      </style>\n    </head>\n    <body>\n      "

  const Suffix := "\n    </body>\n    </html>\n  "

  /** The source with 1-based number `n`. */
  function SourceItem(n: nat, source: string): string {
    "<div class=\"source-item\">[" + NatToString(n) + "] " + source + "</div>"
  }

  /** The items of `sources`, numbered from `start + 1`. */
  function SourceItems(sources: seq<string>, start: nat): string {
    Numbered(sources, start, SourceItem)
  }

  /** Appending a source appends one item with the next number. */
  lemma SourceItemsSnoc(sources: seq<string>, start: nat, s: string)
    ensures SourceItems(sources + [s], start) == SourceItems(sources, start) + SourceItem(start + |sources| + 1, s)
  {
    NumberedSnoc(sources, start, s, SourceItem);
  }

  /** The sources section: present iff there is at least one source. */
  function SourcesPart(sources: Option<seq<string>>): (r: string)
    ensures r != "" <==> sources.Some? && |sources.value| > 0
  {
    if sources.Some? && |sources.value| > 0 then
      "<div class=\"sources\">\n                    <strong>Sources:</strong>\n                    "
      + SourceItems(sources.value, 0) + "\n                   </div>"
    else ""
  }

  /** Everything of a block before the message content. */
  function BlockOpening(m: Message): string {
    "\n          <div class=\"message " + m.kind.Name() + "\">\n            <div>"
  }

  /** Everything of a block after the message content. */
  function BlockClosing(m: Message, format: string -> string): string {
    "</div>\n            " + SourcesPart(m.sources)
    + "\n            <div class=\"timestamp\">" + format(m.timestamp) + "</div>\n          </div>\n        "
  }

  function Block(m: Message, format: string -> string): (r: string)
    ensures BlockOpening(m) <= r
  {
    BlockOpening(m) + m.content + BlockClosing(m, format)
  }

  function BlockOf(format: string -> string): Message -> string {
    m => Block(m, format)
  }

  function Blocks(msgs: seq<Message>, format: string -> string): string {
    FlatMap(msgs, BlockOf(format))
  }

  /** `renderStyledMessages(msgs)`. */
  function Render(msgs: seq<Message>, format: string -> string): (r: string)
    ensures Prefix <= r
  {
    Prefix + Blocks(msgs, format) + Suffix
  }

  /** No messages: just the wrapper. */
  lemma RenderEmpty(format: string -> string)
    ensures Render([], format) == Prefix + Suffix
  {
  }

  /** One block per message, in order. */
  lemma BlocksAppend(a: seq<Message>, b: seq<Message>, format: string -> string)
    ensures Blocks(a + b, format) == Blocks(a, format) + Blocks(b, format)
  {
    FlatMapAppend(a, b, BlockOf(format));
  }

  lemma BlocksSingle(m: Message, format: string -> string)
    ensures Blocks([m], format) == Block(m, format)
  {
    assert [m][1..] == [];
    assert FlatMap([m], BlockOf(format)) == BlockOf(format)(m) + FlatMap([], BlockOf(format));
  }

  /** The content sits verbatim right after the block's opening. */
  lemma ContentVerbatim(m: Message, format: string -> string)
    ensures OccursAt(Block(m, format), m.content, |BlockOpening(m)|)
    ensures Contains(Block(m, format), m.content)
  {
    OccursBetween(BlockOpening(m), m.content, BlockClosing(m, format));
  }

  /** The i-th source of a message is numbered i + 1. */
  lemma SourceNumbering(sources: seq<string>, i: nat)
    requires i < |sources|
    ensures SourceItems(sources, 0) == SourceItems(sources[..i], 0) + SourceItem(i + 1, sources[i])
                                     + SourceItems(sources[i + 1..], i + 1)
  {
    var head := sources[..i];
    NumberedSplit(sources, i + 1, 0, SourceItem);
    assert sources[..i + 1] == head + [sources[i]];
    NumberedSnoc(head, 0, sources[i], SourceItem);
  }

  /** Numbering continues across a split of the sources. */
  lemma SourceItemsSplit(sources: seq<string>, k: nat, start: nat)
    requires k <= |sources|
    ensures SourceItems(sources, start) == SourceItems(sources[..k], start) + SourceItems(sources[k..], start + k)
  {
    NumberedSplit(sources, k, start, SourceItem);
  }
}
