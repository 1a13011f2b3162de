/**
 * The rich-text editor (`src/components/RichTextEditor.tsx`): change
 * notification after input and formatting, and link insertion with its
 * URL normalisation and anchor markup. The editable element's HTML is a
 * string; a browser command's effect on it is an input.
 */
module RichTextEditor {
  import opened Wrappers
  import opened Strings

  const NoSelectionNotice: string := "Please select some text first to create a link."

  /** The anchor markup around the URL and around the link text. */
  const AnchorOpen: string := "<a href=\""
  const AnchorMiddle: string := "\" target=\"_blank\" rel=\"noopener noreferrer\">"
  const AnchorClose: string := "</a>"

  /**
   * A URL without a protocol gets `https://`. Anything that starts with
   * "http" is kept as typed, including "httpfoo.com".
   */
  function NormalizeUrl(url: string): (valid: string)
    ensures StartsWith(valid, "http")
    ensures |url| <= |valid| && valid[|valid| - |url|..] == url
    ensures StartsWith(url, "http") ==> valid == url
    ensures !StartsWith(url, "http") ==> valid == "https://" + url
  {
    if StartsWith(url, "http") then url else "https://" + url
  }

  /** Normalising twice is normalising once. */
  lemma NormalizeUrlIdempotent(url: string)
    ensures NormalizeUrl(NormalizeUrl(url)) == NormalizeUrl(url)
  {
  }

  /** Normalisation adds no quote character. */
  lemma NormalizeUrlKeepsQuotes(url: string)
    ensures '"' in NormalizeUrl(url) <==> '"' in url
  {
    if !StartsWith(url, "http") {
      assert NormalizeUrl(url) == "https://" + url;
      assert forall i :: 0 <= i < |url| ==> NormalizeUrl(url)[i + 8] == url[i];
    }
  }

  /** The inserted anchor; URL and text go in unescaped. */
  function LinkHtml(url: string, text: string): (html: string)
    ensures StartsWith(html, AnchorOpen + url + AnchorMiddle)
    ensures |text + AnchorClose| <= |html| && html[|html| - |text + AnchorClose|..] == text + AnchorClose
  {
    AnchorOpen + url + AnchorMiddle + text + AnchorClose
  }

  /**
   * Reads back markup of the form `open URL middle TEXT close`, where
   * `middle` starts with the quote that ends the URL: the URL runs to the
   * first quote after `open`, the text from the end of `middle` to `close`.
   */
  function ParseAnchor(html: string, open: string, middle: string, close: string): (r: Option<(string, string)>)
    ensures r.Some? ==> '"' !in r.value.0
  {
    if !StartsWith(html, open) then None
    else
      var rest := html[|open|..];
      if '"' !in rest then None
      else
        var i := IndexOf(rest, '"');
        SplitTail(rest[..i], rest[i..], middle, close)
  }

  /** The URL already cut off; `tail` must be `middle TEXT close`. */
  function SplitTail(url: string, tail: string, middle: string, close: string): (r: Option<(string, string)>)
    ensures r.Some? ==> r.value.0 == url
  {
    if |tail| < |middle| + |close| || !StartsWith(tail, middle) || tail[|tail| - |close|..] != close
    then None
    else Some((url, tail[|middle|..|tail| - |close|]))
  }

  /** Reads an anchor written by `LinkHtml` back into its URL and text. */
  function ParseLink(html: string): (r: Option<(string, string)>)
    ensures r.Some? ==> '"' !in r.value.0
  {
    ParseAnchor(html, AnchorOpen, AnchorMiddle, AnchorClose)
  }

  /** The two halves of a concatenation. */
  lemma Halves(a: string, b: string)
    ensures (a + b)[..|a|] == a && (a + b)[|a|..] == b
  {
  }

  /** In `a + b` with no quote in `a` and a quote opening `b`, the first quote is at `|a|`. */
  lemma FirstQuoteAt(a: string, b: string)
    requires '"' !in a && |b| > 0 && b[0] == '"'
    ensures '"' in a + b && IndexOf(a + b, '"') == |a|
  {
    assert (a + b)[|a|] == '"';
    assert (a + b)[..|a|] == a;
  }

  /** `SplitTail` recovers the text between `middle` and `close`. */
  lemma TailRoundTrip(url: string, middle: string, text: string, close: string)
    ensures SplitTail(url, middle + (text + close), middle, close) == Some((url, text))
  {
    var body := text + close;
    var tail := middle + body;
    Halves(middle, body);
    Halves(text, close);
    assert tail[|middle|..|tail| - |close|] == body[..|text|];
    assert tail[|tail| - |close|..] == body[|text|..];
  }

  /** Whatever the markup around them, a quote-free URL and any text read back unchanged. */
  lemma AnchorRoundTrip(open: string, middle: string, close: string, url: string, text: string)
    requires '"' !in url && |middle| > 0 && middle[0] == '"'
    ensures ParseAnchor(open + (url + (middle + (text + close))), open, middle, close) == Some((url, text))
  {
    var tail := middle + (text + close);
    var rest := url + tail;
    Halves(open, rest);
    FirstQuoteAt(url, tail);
    Halves(url, tail);
    TailRoundTrip(url, middle, text, close);
  }

  /** With a quote-free URL, the anchor determines both the URL and the text. */
  lemma LinkHtmlRoundTrip(url: string, text: string)
    requires '"' !in url
    ensures ParseLink(LinkHtml(url, text)) == Some((url, text))
  {
    assert AnchorMiddle[0] == '"';
    assert LinkHtml(url, text) == AnchorOpen + (url + (AnchorMiddle + (text + AnchorClose)));
    AnchorRoundTrip(AnchorOpen, AnchorMiddle, AnchorClose, url, text);
  }

  /** Two links with quote-free URLs are the same markup only when URL and text agree. */
  lemma LinkHtmlInjective(u1: string, t1: string, u2: string, t2: string)
    requires '"' !in u1 && '"' !in u2
    requires LinkHtml(u1, t1) == LinkHtml(u2, t2)
    ensures u1 == u2 && t1 == t2
  {
    LinkHtmlRoundTrip(u1, t1);
    LinkHtmlRoundTrip(u2, t2);
  }

  /**
   * Unescaped insertion: a URL holding the closing quote and the rest of
   * the opening tag yields the same markup as a different URL and text.
   */
  lemma LinkHtmlAmbiguousWithQuotes()
    ensures LinkHtml("x" + AnchorMiddle + "y", "z") == LinkHtml("x", "y" + AnchorMiddle + "z")
    ensures "x" + AnchorMiddle + "y" != "x"
  {
  }

  /** A selection inside the editor's HTML; its text is `html[start..end]`. */
  datatype Selection = Selection(start: nat, end: nat)

  class Editor {
    /** The editable element's `innerHTML`. */
    var html: string
    /** Every value handed to `onChange`, oldest first. */
    var notified: seq<string>
    var alerts: seq<string>

    /** The mount effect copies the `value` prop into the element once. */
    constructor (value: string)
      ensures html == value && notified == [] && alerts == []
    {
      html := value;
      notified := [];
      alerts := [];
    }

    /** `handleInput`: the browser's edit lands in the element and its HTML is reported. */
    method HandleInput(edited: string)
      modifies this
      ensures html == edited && notified == old(notified) + [edited] && alerts == old(alerts)
    {
      html := edited;
      notified := notified + [html];
    }

    /** `formatText`: the command's result replaces the HTML, which is then reported. */
    method FormatText(result: string)
      modifies this
      ensures html == result && notified == old(notified) + [result] && alerts == old(alerts)
    {
      html := result;
      notified := notified + [html];
    }

    /**
     * `insertLink`: with no selected text it only raises the notice; with a
     * cancelled or empty answer it does nothing; otherwise the selection is
     * replaced by an anchor to the normalised URL around the selected text,
     * and the new HTML is reported.
     */
    method InsertLink(selection: Option<Selection>, answer: Option<string>) returns (inserted: bool)
      requires selection.Some? ==> selection.value.start <= selection.value.end <= |html|
      modifies this
      ensures var hasText := selection.Some? && selection.value.start < selection.value.end;
        && (!hasText ==> !inserted && html == old(html) && notified == old(notified)
                         && alerts == old(alerts) + [NoSelectionNotice])
        && (hasText ==> alerts == old(alerts) && (inserted <==> answer.Some? && answer.value != ""))
      ensures !inserted ==> html == old(html) && notified == old(notified)
      ensures inserted ==>
        var s := selection.value;
        && html == old(html)[..s.start] + LinkHtml(NormalizeUrl(answer.value), old(html)[s.start..s.end])
                   + old(html)[s.end..]
        && notified == old(notified) + [html]
    {
      if selection.None? || selection.value.start == selection.value.end {
        alerts := alerts + [NoSelectionNotice];
        return false;
      }
      if answer.None? || answer.value == "" {
        return false;
      }
      var s := selection.value;
      var link := LinkHtml(NormalizeUrl(answer.value), html[s.start..s.end]);
      html := html[..s.start] + link + html[s.end..];
      notified := notified + [html];
      inserted := true;
    }
  }

  /**
   * The anchor a completed insertion writes reads back as the normalised
   * URL and the selected text, whenever the typed URL has no quote.
   */
  lemma InsertedLinkReadsBack(answer: string, selected: string)
    requires '"' !in answer
    ensures ParseLink(LinkHtml(NormalizeUrl(answer), selected)) == Some((NormalizeUrl(answer), selected))
  {
    NormalizeUrlKeepsQuotes(answer);
    LinkHtmlRoundTrip(NormalizeUrl(answer), selected);
  }
}
