/** The three parsers of the server: a document becomes one narration string
    (src/server/speechify.ts:6-43), chosen by the document's type in
    `addToQueue` (src/server/speechify.ts:72-79). */
module Normalizer {
  import opened Common
  import opened Strings

  /** What parsing a JSON payload yields for the fields the chat format reads.
      `from` and `channel` are `None` when the field is absent or is not a
      string, in which case calling `substr` on it throws. `sentAt` is the
      already localised rendering of `new Date(timeSent)`, and `message` the
      rendering of the `message` field whatever its value. */
  datatype JsonDoc = JsonDoc(from: Option<string>, channel: Option<string>, sentAt: string, message: string)

  /** The foreign collaborators of the parsers, taken as given functions:
      `htmlToText(markup, baseUrl)` and `JSON.parse`, which yields `None`
      when it throws on a malformed payload. */
  datatype Library = Library(htmlToText: (string, string) -> string, parseJson: string -> Option<JsonDoc>)

  /** The result of a parser: a narration, or an exception. */
  datatype Outcome = Text(text: string) | Threw

  const StockTicker: string := "feeds.stock-ticker"
  const SlackWebhook: string := "https://slack.com/webhooks/chat"
  const SlackMessages: string := "webhooks.slack.messages"
  const StockHeader: string := "Reading stock prices. "
  /** How JavaScript renders a plain object inside a template literal. */
  const ObjectRendering: string := "[object Object]"

  /** One stock line `sym\tdollars.cents`. A line without a tab has no price,
      and `price.split` throws; a price without a '.' renders its cents as
      `undefined`. */
  function StockEntry(entry: string): (r: Option<string>)
    ensures r.None? <==> '\t' !in entry
  {
    var fields := Split(entry, '\t');
    if |fields| < 2 then
      SplitNoTab(entry, fields);
      None
    else
      assert '\t' in entry by { JoinSplit(entry, '\t'); TabInJoin(fields); }
      var parts := Split(fields[1], '.');
      var dollar := parts[0];
      var cent := if |parts| >= 2 then parts[1] else "undefined";
      Some(fields[0] + ", " + dollar + " dollars and " + cent + " cents.")
  }

  lemma SplitNoTab(entry: string, fields: seq<string>)
    requires fields == Split(entry, '\t') && |fields| < 2
    ensures '\t' !in entry
  {
    JoinSplit(entry, '\t');
  }

  lemma TabInJoin(fields: seq<string>)
    requires |fields| >= 2
    ensures '\t' in Join(fields, ['\t'])
  {
    var j := Join(fields, ['\t']);
    assert j == fields[0] + ['\t'] + Join(fields[1..], ['\t']);
    assert j[|fields[0]|] == '\t';
  }

  /** `lines.map(StockEntry)`, where one throwing line makes the whole map throw. */
  function StockEntries(entries: seq<string>): (r: Option<seq<string>>)
    ensures r.Some? <==> forall i :: 0 <= i < |entries| ==> '\t' in entries[i]
    ensures r.Some? ==> |r.value| == |entries|
    ensures r.Some? ==> forall i :: 0 <= i < |entries| ==> Some(r.value[i]) == StockEntry(entries[i])
  {
    if |entries| == 0 then Some([])
    else
      match StockEntry(entries[0])
      case None => None
      case Some(line) =>
        match StockEntries(entries[1..])
        case None => None
        case Some(rest) => Some([line] + rest)
  }

  /** `parseTxt`: the stock ticker is read line by line; any other source is
      read verbatim behind a header naming it. */
  function ParseTxt(text: Data): (r: Outcome)
    ensures r.Threw? <==>
      text.source == StockTicker &&
      exists i :: 0 <= i < |Split(text.data, '\n')| && '\t' !in Split(text.data, '\n')[i]
    ensures r.Text? ==> r.text != ""
  {
    if text.source == StockTicker then
      var entries := Split(text.data, '\n');
      match StockEntries(entries)
      case None =>
        assert exists i :: 0 <= i < |Split(text.data, '\n')| && '\t' !in Split(text.data, '\n')[i];
        Threw
      case Some(lines) => Text(StockHeader + "\n " + Join(lines, "\n"))
    else
      Text("Reading Text from " + text.source + ".\n " + text.data)
  }

  /** `parseHtml`: the markup converted to text behind a header naming the site. */
  function ParseHtml(html: Data, lib: Library): (r: Outcome)
    ensures r.Text? && r.text != ""
  {
    Text("Reading website " + html.source + ". \n" + lib.htmlToText(html.data, html.source))
  }

  /** `s.substr(1)`: `s` without its first character. */
  function DropFirst(s: string): (r: string)
    ensures s == [] ==> r == []
    ensures s != [] ==> s == [s[0]] + r
  {
    if |s| == 0 then "" else s[1..]
  }

  predicate IsSlackSource(source: string)
  {
    source == SlackWebhook || source == SlackMessages
  }

  /** `parseJson`: a chat message from either chat webhook, or, for any other
      source, a header followed by the rendering of the document object. */
  function ParseJson(jsonData: Data, lib: Library): (r: Outcome)
    ensures r.Threw? <==>
      lib.parseJson(jsonData.data).None? ||
      (IsSlackSource(jsonData.source) &&
        (lib.parseJson(jsonData.data).value.from.None? || lib.parseJson(jsonData.data).value.channel.None?))
    ensures r.Text? ==> r.text != ""
  {
    match lib.parseJson(jsonData.data)
    case None => Threw
    case Some(json) =>
      if IsSlackSource(jsonData.source) then
        if json.from.None? || json.channel.None? then Threw
        else
          Text("Reading slack chat from " + DropFirst(json.from.value) + ", in " + DropFirst(json.channel.value)
            + " channel on " + json.sentAt + ".\n" + json.message)
      else
        Text("Reading JSON from " + jsonData.source + ". \n " + ObjectRendering)
  }

  /** The dispatch at the start of `addToQueue`: an unsupported type leaves the
      narration empty. */
  function Normalize(data: Data, lib: Library): (r: Outcome)
    ensures r == Text("") <==> data.kind.Unsupported?
    ensures r.Threw? ==> data.kind == Txt || data.kind == Json
  {
    match data.kind
    case Txt => ParseTxt(data)
    case Html => ParseHtml(data, lib)
    case Json => ParseJson(data, lib)
    case Unsupported(_) => Text("")
  }

  /** A stock line of the documented shape is read as dollars and cents. */
  lemma StockEntryFormat(sym: string, dollars: string, cents: string)
    requires '\t' !in sym && '\t' !in dollars && '\t' !in cents
    requires '.' !in dollars && '.' !in cents
    ensures StockEntry(sym + "\t" + dollars + "." + cents)
         == Some(sym + ", " + dollars + " dollars and " + cents + " cents.")
  {
    var price := dollars + "." + cents;
    assert '\t' !in price;
    SplitNoSeparator(price, '\t');
    assert sym + "\t" + dollars + "." + cents == sym + ['\t'] + price;
    SplitAtFirst(sym, '\t', price);
    SplitNoSeparator(cents, '.');
    assert price == dollars + ['.'] + cents;
    SplitAtFirst(dollars, '.', cents);
  }

  /** A text document from any source but the stock ticker never throws and
      ends with its payload unchanged. */
  lemma TxtFallbackVerbatim(text: Data, lib: Library)
    requires text.kind == Txt && text.source != StockTicker
    ensures var r := Normalize(text, lib);
      r.Text? && |r.text| >= |text.data| && r.text[|r.text| - |text.data|..] == text.data
  {
  }
}

module NormalizerFacts {
  import opened Common
  import opened Strings
  import opened Normalizer

  /** A formatted stock line has no line break of its own. */
  lemma StockEntryOneLine(entry: string)
    requires '\n' !in entry && StockEntry(entry).Some?
    ensures '\n' !in StockEntry(entry).value
  {
    var fields := Split(entry, '\t');
    JoinSplit(entry, '\t');
    NoBreakInPieces(fields, ['\t']);
    var parts := Split(fields[1], '.');
    JoinSplit(fields[1], '.');
    NoBreakInPieces(parts, ['.']);
  }

  /** A piece of a break-free join is break-free. */
  lemma {:induction false} NoBreakInPieces(parts: seq<string>, sep: string)
    requires '\n' !in Join(parts, sep)
    ensures forall i :: 0 <= i < |parts| ==> '\n' !in parts[i]
  {
    if |parts| > 1 {
      assert Join(parts, sep) == parts[0] + sep + Join(parts[1..], sep);
      NoBreakInPieces(parts[1..], sep);
      forall i | 1 <= i < |parts| ensures '\n' !in parts[i] {
        assert parts[i] == parts[1..][i - 1];
      }
    }
  }

  /** The stock narration has one line for the header and one per stock line:
      N ticker lines make N + 1 narration lines. */
  lemma StockNarrationLines(text: Data)
    requires text.source == StockTicker && ParseTxt(text).Text?
    ensures |Split(ParseTxt(text).text, '\n')| == |Split(text.data, '\n')| + 1
  {
    var entries := Split(text.data, '\n');
    StockText(text);
    StockLinesBreakFree(entries);
    HeaderLines(StockEntries(entries).value);
  }

  /** Lines formatted from break-free entries are break-free. */
  lemma StockLinesBreakFree(entries: seq<string>)
    requires forall i :: 0 <= i < |entries| ==> '\n' !in entries[i]
    requires StockEntries(entries).Some?
    ensures forall i :: 0 <= i < |entries| ==> '\n' !in StockEntries(entries).value[i]
  {
    var lines := StockEntries(entries).value;
    forall i | 0 <= i < |entries| ensures '\n' !in lines[i] {
      StockEntryOneLine(entries[i]);
    }
  }

  /** The header, a line break, and N break-free lines indented by one
      space make N + 1 lines. */
  lemma HeaderLines(lines: seq<string>)
    requires |lines| >= 1 && forall i :: 0 <= i < |lines| ==> '\n' !in lines[i]
    ensures |Split(StockHeader + "\n " + Join(lines, "\n"), '\n')| == |lines| + 1
  {
    var shifted := [[' '] + lines[0]] + lines[1..];
    IndentFirst(lines, shifted);
    SplitJoin(shifted, '\n');
    assert '\n' !in StockHeader;
    assert StockHeader + "\n " + Join(lines, "\n") == StockHeader + ['\n'] + Join(shifted, "\n");
    SplitAtFirst(StockHeader, '\n', Join(shifted, "\n"));
  }

  lemma StockText(text: Data)
    requires text.source == StockTicker && ParseTxt(text).Text?
    ensures StockEntries(Split(text.data, '\n')).Some?
    ensures ParseTxt(text).text == StockHeader + "\n " + Join(StockEntries(Split(text.data, '\n')).value, "\n")
  {
  }

  /** Indenting the first of several break-free lines by one space. */
  lemma IndentFirst(lines: seq<string>, shifted: seq<string>)
    requires |lines| >= 1 && forall i :: 0 <= i < |lines| ==> '\n' !in lines[i]
    requires shifted == [[' '] + lines[0]] + lines[1..]
    ensures " " + Join(lines, "\n") == Join(shifted, "\n")
    ensures |shifted| == |lines| && forall i :: 0 <= i < |shifted| ==> '\n' !in shifted[i]
  {
    assert shifted[1..] == lines[1..];
    forall i | 0 <= i < |shifted| ensures '\n' !in shifted[i] {
      if i > 0 { assert shifted[i] == lines[i]; }
    }
  }

  /** A one-line ticker payload `sym\tdollars.cents` is narrated as the
      header line followed by the price line. */
  lemma StockSingleLine(sym: string, dollars: string, cents: string, lib: Library)
    requires '\t' !in sym && '\t' !in dollars && '\t' !in cents
    requires '.' !in dollars && '.' !in cents
    requires '\n' !in sym && '\n' !in dollars && '\n' !in cents
    ensures Normalize(Data(Txt, StockTicker, sym + "\t" + dollars + "." + cents), lib)
         == Text(StockHeader + "\n " + sym + ", " + dollars + " dollars and " + cents + " cents.")
  {
    var data := sym + "\t" + dollars + "." + cents;
    var line := sym + ", " + dollars + " dollars and " + cents + " cents.";
    SingleLineEntries(sym, dollars, cents);
    assert Join([line], "\n") == line;
  }

  lemma SingleLineEntries(sym: string, dollars: string, cents: string)
    requires '\t' !in sym && '\t' !in dollars && '\t' !in cents
    requires '.' !in dollars && '.' !in cents
    requires '\n' !in sym && '\n' !in dollars && '\n' !in cents
    ensures StockEntries(Split(sym + "\t" + dollars + "." + cents, '\n'))
         == Some([sym + ", " + dollars + " dollars and " + cents + " cents."])
  {
    var data := sym + "\t" + dollars + "." + cents;
    assert data == sym + (['\t'] + dollars) + (['.'] + cents);
    assert '\n' !in data;
    SplitNoSeparator(data, '\n');
    StockEntryFormat(sym, dollars, cents);
    StockEntriesSingle(data);
  }

  lemma StockEntriesSingle(entry: string)
    requires StockEntry(entry).Some?
    ensures StockEntries([entry]) == Some([StockEntry(entry).value])
  {
    var one := [entry];
    var line := StockEntry(entry).value;
    assert one[0] == entry && one[1..] == [];
    assert StockEntries(one[1..]) == Some([]);
    assert [line] + [] == [line];
  }

  /** An empty ticker payload is one empty line, which has no price: the
      document throws and is dropped. */
  lemma EmptyStockFeedThrows(lib: Library)
    ensures Normalize(Data(Txt, StockTicker, ""), lib).Threw?
  {
  }

  /** An empty payload from any other text source is still narrated: the
      header alone is not empty. */
  lemma EmptyTextNarrated(source: string, lib: Library)
    requires source != StockTicker
    ensures Normalize(Data(Txt, source, ""), lib) == Text("Reading Text from " + source + ".\n ")
  {
  }

  /** A chat message has the leading '@' and '#' of its sender and channel
      stripped. */
  lemma SlackExample(doc: Data, lib: Library, from: string, channel: string, sentAt: string, message: string)
    requires doc.kind == Json && doc.source == SlackMessages
    requires from == "@bob" && channel == "#general"
    requires lib.parseJson(doc.data) == Some(JsonDoc(Some(from), Some(channel), sentAt, message))
    ensures Normalize(doc, lib)
         == Text("Reading slack chat from " + "bob" + ", in " + "general" + " channel on " + sentAt + ".\n" + message)
  {
  }
}
