/** The base email template (templates/emails/base.js): the page layout with its
    slots, `{{key}}` substitution, and the button, information-box and divider
    blocks. The static markup between the slots is kept to the elements that hold
    them; the style sheet and the decorative attributes are not reproduced. */
module EmailBase {
  import opened Js
  import opened Text

  // ===========================================================================
  // generateBaseEmailHTML

  /** The static parts of the layout around the slots, in document order: the title,
      the preheader, the content, the portfolio link, the year and the preferences and
      unsubscribe links. */
  const HeadOpen := "<" + "!DOCTYPE html>\n<html lang=\"fr\">\n<head>\n<meta charset=\"UTF-8\">\n<title>"
  const HeadClose := "</title>\n</head>\n<body>\n<div style=\"display: none; max-height: 0; overflow: hidden;\">\n"
  const BeforeContent := "\n</div>\n<table>\n<tr>\n<td class=\"content\">\n"
  const BeforePortfolio := "\n</td>\n</tr>\n<tr>\n<td class=\"footer\">\n<a href=\""
  const BeforeYear := "/portfolio\">Portfolio</a>\n<p>© "
  const BeforePreferences := " LE SAGE DEV. Tous droits réservés.</p>\n<p><a href=\""
  const BeforeUnsubscribe := "/preferences\">Gérer mes préférences</a> • <a href=\""
  const DocumentEnd := "/unsubscribe\">Se désabonner</a></p>\n</td>\n</tr>\n</table>\n</body>\n</html" + ">"

  /** The layout from the footer on: the portfolio link, the year and the preferences
      and unsubscribe links. */
  function Footer(frontendUrl: string, year: string): string
  {
    BeforePortfolio + frontendUrl + BeforeYear + year + BeforePreferences + frontendUrl + BeforeUnsubscribe
      + frontendUrl + DocumentEnd
  }

  /** The layout from the content slot on. */
  function FromContent(content: string, frontendUrl: string, year: string): string
  {
    BeforeContent + content + Footer(frontendUrl, year)
  }

  /** The layout from the preheader slot on. */
  function FromPreheader(preheader: string, content: string, frontendUrl: string, year: string): string
  {
    HeadClose + preheader + FromContent(content, frontendUrl, year)
  }

  /** The layout with its slots filled in, as it stands between the whitespace that
      opens and closes the template literal. */
  function Document(title: string, preheader: string, content: string, frontendUrl: string, year: string): string
  {
    HeadOpen + title + FromPreheader(preheader, content, frontendUrl, year)
  }

  /** `FRONTEND_URL || 'http://localhost:3000'` */
  function FrontendUrl(configured: Value): string
  {
    ToText(Or(configured, Str("http://localhost:3000")))
  }

  /** `generateBaseEmailHTML({ title, preheader, content })`: the template literal,
      trimmed. `frontendUrl` is the `FRONTEND_URL` setting and `year` the current year
      as the clock gives it. */
  function GenerateBaseEmailHtml(title: Value, preheader: Value, content: Value, frontendUrl: Value, year: nat): string
  {
    Trim("\n  " + Document(ToText(title), ToText(preheader), ToText(content), FrontendUrl(frontendUrl),
                           NatToString(year)) + "\n    ")
  }

  /** `a + b + c` starts with `a + b` and holds `b` right after `a`. */
  lemma SlotAt(a: string, b: string, c: string)
    ensures IsPrefix(a + b, a + b + c)
    ensures (a + b + c)[|a|..|a| + |b|] == b
  {
    assert (a + b + c)[..|a + b|] == a + b;
  }

  /** `a + (x + y) + b` starts with `a + x`. */
  lemma PrefixWithin(a: string, x: string, y: string, b: string)
    ensures IsPrefix(a + x, a + (x + y) + b)
  {
    assert (a + (x + y) + b)[..|a + x|] == a + x;
  }

  /** Three slots between static parts, each found right after the part before it. */
  lemma SlotsAt(a: string, t: string, b: string, p: string, c2: string, c: string, f: string)
    ensures var d := a + t + (b + p + (c2 + c + f));
      var pAt := |a| + |t| + |b|;
      var cAt := pAt + |p| + |c2|;
      && IsPrefix(a, d)
      && d[|a|..|a| + |t|] == t
      && d[pAt..pAt + |p|] == p
      && d[cAt..cAt + |c|] == c
  {
    var tail2 := c2 + c + f;
    var tail1 := b + p + tail2;
    var d := a + t + tail1;
    assert d[..|a|] == a;
    assert d[|a| + |t|..] == tail1;
    var pAt := |a| + |t| + |b|;
    assert d[pAt..] == tail1[|b|..];
    assert tail1[|b|..] == p + tail2;
    var cAt := pAt + |p| + |c2|;
    assert d[cAt..] == tail2[|c2|..];
    assert tail2[|c2|..] == c + f;
  }

  /** The layout opens with '<' and closes with '>'. */
  lemma LayoutDelimiters()
    ensures |HeadOpen| > 0 && HeadOpen[0] == '<'
    ensures |DocumentEnd| > 0 && DocumentEnd[|DocumentEnd| - 1] == '>'
  {
  }

  /** A text starts as its first part does and ends as its last part does. */
  lemma Ends(a: string, z: string)
    requires |a| > 0 && |z| > 0
    ensures (a + z)[0] == a[0] && (a + z)[|a + z| - 1] == z[|z| - 1]
  {
  }

  /** The footer ends with '>'. */
  lemma FooterEnds(u: string, y: string)
    ensures |Footer(u, y)| > 0 && Footer(u, y)[|Footer(u, y)| - 1] == '>'
  {
    LayoutDelimiters();
    Ends(BeforePortfolio + u + BeforeYear + y + BeforePreferences + u + BeforeUnsubscribe + u, DocumentEnd);
  }

  /** The filled-in layout starts with its head and embeds the title, the preheader
      and the content verbatim, in that order. */
  lemma DocumentEmbedsSlots(t: string, p: string, c: string, u: string, y: string)
    ensures var d := Document(t, p, c, u, y);
      var pAt := |HeadOpen| + |t| + |HeadClose|;
      var cAt := pAt + |p| + |BeforeContent|;
      && IsPrefix(HeadOpen, d)
      && d[|HeadOpen|..|HeadOpen| + |t|] == t
      && d[pAt..pAt + |p|] == p
      && d[cAt..cAt + |c|] == c
  {
    SlotsAt(HeadOpen, t, HeadClose, p, BeforeContent, c, Footer(u, y));
  }

  /** The whitespace that opens and closes the template literal. */
  lemma LiteralPadding()
    ensures forall i :: 0 <= i < |"\n  "| ==> IsSpace("\n  "[i])
    ensures forall i :: 0 <= i < |"\n    "| ==> IsSpace("\n    "[i])
    ensures forall i :: 0 <= i < |""| ==> IsSpace(""[i])
  {
  }

  /** The filled-in layout starts with '<' and ends with '>'. */
  lemma DocumentEnds(t: string, p: string, c: string, u: string, y: string)
    ensures var d := Document(t, p, c, u, y);
      |d| > 0 && !IsSpace(d[0]) && !IsSpace(d[|d| - 1])
  {
    var footer := Footer(u, y);
    FooterEnds(u, y);
    LayoutDelimiters();
    Ends(HeadOpen, t + (HeadClose + p + (BeforeContent + c + footer)));
    Ends(HeadOpen + t + (HeadClose + p + (BeforeContent + c)), footer);
    assert Document(t, p, c, u, y) == HeadOpen + t + (HeadClose + p + (BeforeContent + c)) + footer;
  }

  /** A text that starts and ends with a non-space character is its own trim, with or
      without the literal's padding around it. */
  lemma PaddingTrimmed(d: string)
    requires |d| > 0 && !IsSpace(d[0]) && !IsSpace(d[|d| - 1])
    ensures Trim(d) == d
    ensures Trim("\n  " + d + "\n    ") == d
  {
    LiteralPadding();
    TrimPadded("\n  ", d, "\n    ");
    TrimPadded("", d, "");
    assert "" + d + "" == d;
  }

  /** The filled-in layout is its own trim, with or without the literal's padding. */
  lemma DocumentIsTrimmed(t: string, p: string, c: string, u: string, y: string)
    ensures var d := Document(t, p, c, u, y);
      && Trim(d) == d
      && Trim("\n  " + d + "\n    ") == d
  {
    DocumentEnds(t, p, c, u, y);
    PaddingTrimmed(Document(t, p, c, u, y));
  }

  /** The trim removes only the literal's surrounding whitespace: the email is the
      filled-in layout. */
  lemma BaseIsDocument(title: Value, preheader: Value, content: Value, frontendUrl: Value, year: nat)
    ensures GenerateBaseEmailHtml(title, preheader, content, frontendUrl, year)
         == Document(ToText(title), ToText(preheader), ToText(content), FrontendUrl(frontendUrl), NatToString(year))
  {
    DocumentIsTrimmed(ToText(title), ToText(preheader), ToText(content), FrontendUrl(frontendUrl), NatToString(year));
  }

  // ===========================================================================
  // replaceVariables

  /** The `{{key}}` placeholder of a variable. */
  function Placeholder(key: string): (p: string)
    ensures |p| == |key| + 4
  {
    "{{" + key + "}}"
  }

  /** The text a value is substituted as: `value || ''`. */
  function Substitute(value: Value): string
  {
    ToText(Or(value, Str("")))
  }

  /** The template after the substitutions of the first entries, one entry after the
      other in `Object.entries` order, each replacing every occurrence of its
      placeholder. */
  function Substituted(template: string, variables: seq<(string, Value)>): string
  {
    if |variables| == 0 then template
    else
      var last := variables[|variables| - 1];
      ReplaceAll(Substituted(template, variables[..|variables| - 1]), Placeholder(last.0), Substitute(last.1))
  }

  /** `replaceVariables(template, variables)` */
  method ReplaceVariables(template: string, variables: seq<(string, Value)>) returns (result: string)
    ensures result == Substituted(template, variables)
  {
    result := template;
    var i := 0;
    while i < |variables|
      invariant 0 <= i <= |variables|
      invariant result == Substituted(template, variables[..i])
    {
      var (key, value) := variables[i];
      assert variables[..i + 1][..i] == variables[..i];
      result := ReplaceAll(result, Placeholder(key), Substitute(value));
      i := i + 1;
    }
    assert variables[..i] == variables;
  }

  /** A falsy value is substituted as the empty string, a string as itself. */
  lemma SubstituteRules(value: Value)
    ensures !Truthy(value) ==> Substitute(value) == ""
    ensures value.Str? ==> Substitute(value) == value.s
  {
  }

  /** Each entry replaces every occurrence of its placeholder: the text it works on is
      cut at each occurrence, left to right, into pieces free of the placeholder, and
      the value is put between them. */
  lemma EachOccurrenceReplaced(template: string, variables: seq<(string, Value)>)
    requires |variables| > 0
    ensures var before := Substituted(template, variables[..|variables| - 1]);
      var last := variables[|variables| - 1];
      var pieces := Split(before, Placeholder(last.0));
      && Substituted(template, variables) == Join(pieces, Substitute(last.1))
      && Join(pieces, Placeholder(last.0)) == before
      && forall k :: 0 <= k < |pieces| ==> !Contains(pieces[k], Placeholder(last.0))
  {
    var before := Substituted(template, variables[..|variables| - 1]);
    var last := variables[|variables| - 1];
    ReplaceAllIsSplitJoin(before, Placeholder(last.0), Substitute(last.1));
    SplitJoin(before, Placeholder(last.0));
    SplitPiecesAvoid(before, Placeholder(last.0));
  }

  /** With no variables the template comes back unchanged, and so it does when none of
      the supplied placeholders occurs in it: placeholders of keys that are not
      supplied are left as they are. */
  lemma {:induction false} AbsentPlaceholdersUntouched(template: string, variables: seq<(string, Value)>)
    requires forall k :: 0 <= k < |variables| ==> !Contains(template, Placeholder(variables[k].0))
    ensures Substituted(template, variables) == template
  {
    if |variables| > 0 {
      var last := variables[|variables| - 1];
      AbsentPlaceholdersUntouched(template, variables[..|variables| - 1]);
      ReplaceAllAbsent(template, Placeholder(last.0), Substitute(last.1));
    }
  }

  // ===========================================================================
  // createButton, createInfoBox, createDivider

  const ButtonStart := "<table>\n<tr>\n<td align=\"center\">\n<a href=\""
  const ButtonMid := "\" class=\"button\">\n"
  const ButtonEnd := "\n</a>\n</td>\n</tr>\n</table>"

  /** `createButton(text, url)` */
  function CreateButton(text: Value, url: Value): string
  {
    ButtonStart + ToText(url) + ButtonMid + ToText(text) + ButtonEnd
  }

  /** The button's `href` holds the URL and its link body the text, verbatim. */
  lemma ButtonShowsUrlAndText(text: Value, url: Value)
    ensures var r, u, t := CreateButton(text, url), ToText(url), ToText(text);
      && IsSuffix("<a href=\"", ButtonStart)
      && r[|ButtonStart|..|ButtonStart| + |u|] == u
      && IsPrefix("\"", r[|ButtonStart| + |u|..])
      && r[|ButtonStart| + |u| + |ButtonMid|..|ButtonStart| + |u| + |ButtonMid| + |t|] == t
      && IsPrefix("\n</a>", r[|ButtonStart| + |u| + |ButtonMid| + |t|..])
  {
    var r, u, t := CreateButton(text, url), ToText(url), ToText(text);
    assert r == ButtonStart + u + (ButtonMid + t + ButtonEnd);
    assert r[|ButtonStart| + |u|..] == ButtonMid + t + ButtonEnd;
    assert r == ButtonStart + u + ButtonMid + t + ButtonEnd;
    assert r[|ButtonStart| + |u| + |ButtonMid| + |t|..] == ButtonEnd;
  }

  /** A label and value pair of an information box. */
  datatype InfoItem = InfoItem(labelText: Value, value: Value)

  const ItemStart := "\n<p>\n<strong>"
  const ItemMid := ":</strong> "
  const ItemEnd := "\n</p>\n"
  const BoxStart := "\n<div class=\"info-box\">\n"
  const BoxEnd := "\n</div>\n"

  /** One item's paragraph: the label, a colon, then the value. */
  function ItemHtml(item: InfoItem): string
  {
    ItemStart + ToText(item.labelText) + ItemMid + ToText(item.value) + ItemEnd
  }

  /** `items.map(...)` */
  function Paragraphs(items: seq<InfoItem>): (r: seq<string>)
    ensures |r| == |items|
    ensures forall i :: 0 <= i < |items| ==> r[i] == ItemHtml(items[i])
  {
    seq(|items|, i requires 0 <= i < |items| => ItemHtml(items[i]))
  }

  /** `items.map(...).join('')`: the items' paragraphs one after the other. */
  function ItemsHtml(items: seq<InfoItem>): string
  {
    Join(Paragraphs(items), "")
  }

  /** `createInfoBox(items)` */
  function CreateInfoBox(items: seq<InfoItem>): string
  {
    BoxStart + ItemsHtml(items) + BoxEnd
  }

  /** The paragraphs keep the items' order: the box of `a + b` holds the paragraphs of
      `a`, then those of `b`. */
  lemma ItemsInOrder(a: seq<InfoItem>, b: seq<InfoItem>)
    ensures ItemsHtml(a + b) == ItemsHtml(a) + ItemsHtml(b)
  {
    assert Paragraphs(a + b) == Paragraphs(a) + Paragraphs(b);
    JoinEmptyAppend(Paragraphs(a), Paragraphs(b));
  }

  /** The box holds one paragraph per item, in order: the first item's paragraph
      comes first, followed by those of the others. */
  lemma FirstItemFirst(items: seq<InfoItem>)
    requires |items| > 0
    ensures ItemsHtml(items) == ItemHtml(items[0]) + ItemsHtml(items[1..])
  {
    assert items == [items[0]] + items[1..];
    ItemsInOrder([items[0]], items[1..]);
    assert Paragraphs([items[0]]) == [ItemHtml(items[0])];
    assert Join([ItemHtml(items[0])], "") == ItemHtml(items[0]);
  }

  /** The box opens with the first item's paragraph. */
  lemma BoxOpensWithFirstItem(items: seq<InfoItem>)
    requires |items| > 0
    ensures IsPrefix(BoxStart + ItemHtml(items[0]), CreateInfoBox(items))
  {
    FirstItemFirst(items);
    PrefixWithin(BoxStart, ItemHtml(items[0]), ItemsHtml(items[1..]), BoxEnd);
  }

  /** An item's paragraph shows its label, verbatim, right after the paragraph's
      opening, and its value after the colon. */
  lemma ItemShowsLabelAndValue(item: InfoItem)
    ensures var r, l, v := ItemHtml(item), ToText(item.labelText), ToText(item.value);
      var vAt := |ItemStart| + |l| + |ItemMid|;
      && r[|ItemStart|..|ItemStart| + |l|] == l
      && r[vAt..vAt + |v|] == v
  {
    var l, v := ToText(item.labelText), ToText(item.value);
    SlotsAt(ItemStart, l, ItemMid, v, "", "", ItemEnd);
    assert ItemHtml(item) == ItemStart + l + (ItemMid + v + ("" + "" + ItemEnd));
  }

  /** `createDivider()` */
  const DividerTag := "div class=\"divider\""
  const DividerOpen := "<" + DividerTag + ">"
  const DividerClose := "</div>"
  const Divider := DividerOpen + DividerClose

  /** A divider carries no text: the plain-text fallback drops it entirely. */
  lemma DividerHasNoText()
    ensures StripTags(Divider) == ""
  {
    assert '>' !in DividerTag;
    StripTagsDropsTag(DividerTag, DividerClose);
    var y := "/div";
    assert DividerClose == "<" + y + ">";
    StripTagsDropsTag(y, "");
    assert "<" + y + ">" + "" == DividerClose;
  }
}
