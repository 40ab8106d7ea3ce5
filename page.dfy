/** The HTML the server renders: the three-slot page template and the
    recommendation table. */
module Page {
  import opened Wrappers
  import opened Text
  import opened Template

  // The literal text of the page template around its three replacement
  // fields, kept as short pieces so that each can be checked brace-free.
  const HeadOpen := "\n" + "<!DOCTYPE html>\n" + "<html>\n" + "    <head>\n"
  const Meta := "        <meta charset=\"utf-8\">\n"
  const Title := "        <title>" + "Resiliency Workshop" + "</title>\n"
  const BodyOpen := "    </head>\n" + "    <body>\n"
  const Heading := "        <h1>" + "Enjoy some classic television" + "</h1>\n" + "        <p>"
  const HtmlPrefix := HeadOpen + Meta + Title + BodyOpen + Heading
  const HtmlMessageToContent := "</p>\n" + "        <p>"
  const HtmlContentToLink := "</p>\n" + "        <p><a href=\""
  const LinkClose := "\"><br/><br/>"
  const LinkText := "click here to make " + "a healthcheck request"
  const BodyClose := "</a></p>\n" + "    </body>\n" + "</html>"
  const HtmlSuffix := LinkClose + LinkText + BodyClose

  /** The template text as the server holds it, with its `{Message}`, `{Content}` and `{Link}` fields. */
  const HtmlTemplate := HtmlPrefix + (Field("Message") + (HtmlMessageToContent + (Field("Content") + (HtmlContentToLink + (Field("Link") + HtmlSuffix)))))

  /** The page with its three slots filled literally. */
  function Fill(message: string, content: string, link: string): string
  {
    HtmlPrefix + (message + (HtmlMessageToContent + (content + (HtmlContentToLink + (link + HtmlSuffix)))))
  }

  lemma HeadOpenHasNoBraces() ensures NoBraces(HeadOpen) {}
  lemma MetaHasNoBraces() ensures NoBraces(Meta) {}
  lemma TitleHasNoBraces() ensures NoBraces(Title) {}
  lemma BodyOpenHasNoBraces() ensures NoBraces(BodyOpen) {}
  lemma HeadingHasNoBraces() ensures NoBraces(Heading) {}
  lemma MidHasNoBraces() ensures NoBraces(HtmlMessageToContent) && NoBraces(HtmlContentToLink) {}
  lemma LinkCloseHasNoBraces() ensures NoBraces(LinkClose) {}
  lemma LinkTextHasNoBraces() ensures NoBraces(LinkText) {}
  lemma BodyCloseHasNoBraces() ensures NoBraces(BodyClose) {}

  lemma PrefixHasNoBraces()
    ensures NoBraces(HtmlPrefix)
  {
    HeadOpenHasNoBraces();
    MetaHasNoBraces();
    TitleHasNoBraces();
    BodyOpenHasNoBraces();
    HeadingHasNoBraces();
    NoBracesAppend(HeadOpen, Meta);
    NoBracesAppend(HeadOpen + Meta, Title);
    NoBracesAppend(HeadOpen + Meta + Title, BodyOpen);
    NoBracesAppend(HeadOpen + Meta + Title + BodyOpen, Heading);
  }

  lemma SuffixHasNoBraces()
    ensures NoBraces(HtmlSuffix)
  {
    LinkCloseHasNoBraces();
    LinkTextHasNoBraces();
    BodyCloseHasNoBraces();
    NoBracesAppend(LinkClose, LinkText);
    NoBracesAppend(LinkClose + LinkText, BodyClose);
  }

  /** Formatting the template with the three keyword arguments never fails and fills the slots literally. */
  lemma HtmlFormatFills(message: string, content: string, link: string)
    ensures Format(HtmlTemplate, map["Content" := content, "Message" := message, "Link" := link])
         == Some(Fill(message, content, link))
  {
    var kw := map["Content" := content, "Message" := message, "Link" := link];
    PrefixHasNoBraces();
    MidHasNoBraces();
    SuffixHasNoBraces();
    FieldNamesArePlain();
    var t3 := Field("Link") + HtmlSuffix;
    var t2 := HtmlContentToLink + t3;
    var t1 := Field("Content") + t2;
    var t0 := HtmlMessageToContent + t1;
    var t := Field("Message") + t0;
    assert HtmlTemplate == HtmlPrefix + t;
    FormatNoBraces(HtmlSuffix, kw);
    FormatField("Link", HtmlSuffix, kw);
    FormatLiteral(HtmlContentToLink, t3, kw);
    FormatField("Content", t2, kw);
    FormatLiteral(HtmlMessageToContent, t1, kw);
    FormatField("Message", t0, kw);
    FormatLiteral(HtmlPrefix, t, kw);
  }

  /** The template's three field names are looked up as keywords. */
  lemma FieldNamesArePlain()
    ensures PlainFieldName("Message") && PlainFieldName("Content") && PlainFieldName("Link")
  {
    assert !Text.IsDigit("Message"[0]);
    assert !Text.IsDigit("Content"[0]);
    assert !Text.IsDigit("Link"[0]);
  }

  /** With the message and link fixed, the page determines the content it shows. */
  lemma FillDeterminesContent(message: string, link: string, c1: string, c2: string)
    requires Fill(message, c1, link) == Fill(message, c2, link)
    ensures c1 == c2
  {
    var start := |HtmlPrefix| + |message| + |HtmlMessageToContent|;
    var p1, p2 := Fill(message, c1, link), Fill(message, c2, link);
    assert |c1| == |c2|;
    assert p1[start..start + |c1|] == c1;
    assert p2[start..start + |c2|] == c2;
  }

  /** The filled page shows each of the three values it was given. */
  lemma FillShowsSlots(message: string, content: string, link: string)
    ensures Contains(Fill(message, content, link), message)
    ensures Contains(Fill(message, content, link), content)
    ensures Contains(Fill(message, content, link), link)
  {
    var tail := HtmlContentToLink + (link + HtmlSuffix);
    ContainsStart(link, HtmlSuffix);
    ContainsPrepend(HtmlContentToLink, link + HtmlSuffix, link);
    ContainsPrepend(content, tail, link);
    ContainsStart(content, tail);
    ContainsPrepend(HtmlMessageToContent, content + tail, link);
    ContainsPrepend(HtmlMessageToContent, content + tail, content);
    ContainsStart(message, HtmlMessageToContent + (content + tail));
    ContainsPrepend(message, HtmlMessageToContent + (content + tail), link);
    ContainsPrepend(message, HtmlMessageToContent + (content + tail), content);
    ContainsPrepend(HtmlPrefix, message + (HtmlMessageToContent + (content + tail)), link);
    ContainsPrepend(HtmlPrefix, message + (HtmlMessageToContent + (content + tail)), content);
    ContainsPrepend(HtmlPrefix, message + (HtmlMessageToContent + (content + tail)), message);
  }

  /** The tag line of a recommendation: personalised or the classic. */
  function TagLine(isCustom: bool): (tag: string)
    ensures tag == "your recommendation is" <==> isCustom
    ensures tag == "everyone enjoys this classic" <==> !isCustom
  {
    if isCustom then "your recommendation is" else "everyone enjoys this classic"
  }

  /** A one-row, two-cell table: the bold user name with the tag line, then the bold show title. */
  function RecommendationMessage(userName: string, tvShow: string, isCustom: bool): (msg: string)
    ensures |msg| == 70 + |userName| + |TagLine(isCustom)| + |tvShow|
  {
    var tagLine := TagLine(isCustom);
    var cell1 := "<b>" + userName + "</b>, " + tagLine + ":";
    var cell2 := "<b>" + tvShow + "</b>";
    "<table border=\"5\"><tr>" + "<td>" + cell1 + "</td>" + "<td>" + cell2 + "</td>" + "</tr></table>"
  }

  /** The table opens with the first cell, the bold user name and the tag line, and closes
      with the second cell, the bold show title; with the length, these two cells are all of it. */
  lemma RecommendationMessageCells(userName: string, tvShow: string, isCustom: bool)
    ensures StartsWith(RecommendationMessage(userName, tvShow, isCustom),
      "<table border=\"5\"><tr>" + "<td>" + ("<b>" + userName + "</b>, " + TagLine(isCustom) + ":") + "</td>")
    ensures EndsWith(RecommendationMessage(userName, tvShow, isCustom),
      "<td>" + ("<b>" + tvShow + "</b>") + "</td>" + "</tr></table>")
  {
    var cell1 := "<b>" + userName + "</b>, " + TagLine(isCustom) + ":";
    var cell2 := "<b>" + tvShow + "</b>";
    var first := "<table border=\"5\"><tr>" + "<td>" + cell1 + "</td>";
    StartsWithAppend(first, "<td>");
    StartsWithPrefix(first + "<td>", cell2, first);
    StartsWithPrefix(first + "<td>" + cell2, "</td>", first);
    StartsWithPrefix(first + "<td>" + cell2 + "</td>", "</tr></table>", first);
    EndsWithAppend(first, "<td>");
    EndsWithExtend(first + "<td>", "<td>", cell2);
    EndsWithExtend(first + "<td>" + cell2, "<td>" + cell2, "</td>");
    EndsWithExtend(first + "<td>" + cell2 + "</td>", "<td>" + cell2 + "</td>", "</tr></table>");
  }

  /** The table shows the user name, the show title and the tag line. */
  lemma RecommendationMessageShows(userName: string, tvShow: string, isCustom: bool)
    ensures Contains(RecommendationMessage(userName, tvShow, isCustom), userName)
    ensures Contains(RecommendationMessage(userName, tvShow, isCustom), tvShow)
    ensures Contains(RecommendationMessage(userName, tvShow, isCustom), TagLine(isCustom))
  {
    var msg := RecommendationMessage(userName, tvShow, isCustom);
    var tag := TagLine(isCustom);
    var cell1 := "<b>" + userName + "</b>, " + tag + ":";
    var cell2 := "<b>" + tvShow + "</b>";
    var first := "<table border=\"5\"><tr>" + "<td>" + cell1 + "</td>";
    var second := "<td>" + cell2 + "</td>" + "</tr></table>";
    RecommendationMessageCells(userName, tvShow, isCustom);
    StartsWithContains(msg, first);
    EndsWithContains(msg, second);
    ContainsEnd("<table border=\"5\"><tr>" + "<td>", cell1);
    ContainsAppend("<table border=\"5\"><tr>" + "<td>" + cell1, "</td>", cell1);
    ContainsTrans(msg, first, cell1);
    // The user name and the tag line, inside the first cell.
    ContainsEnd("<b>", userName);
    ContainsAppend("<b>" + userName, "</b>, ", userName);
    ContainsAppend("<b>" + userName + "</b>, ", tag, userName);
    ContainsAppend("<b>" + userName + "</b>, " + tag, ":", userName);
    ContainsTrans(msg, cell1, userName);
    ContainsEnd("<b>" + userName + "</b>, ", tag);
    ContainsAppend("<b>" + userName + "</b>, " + tag, ":", tag);
    ContainsTrans(msg, cell1, tag);
    // The show title, inside the second cell.
    ContainsEnd("<b>", tvShow);
    ContainsAppend("<b>" + tvShow, "</b>", tvShow);
    ContainsEnd("<td>", cell2);
    ContainsAppend("<td>" + cell2, "</td>", cell2);
    ContainsAppend("<td>" + cell2 + "</td>", "</tr></table>", cell2);
    ContainsTrans(msg, second, cell2);
    ContainsTrans(msg, cell2, tvShow);
  }

  /** The personalised and the classic tables for the same name and show differ. */
  lemma RecommendationMessageShowsFlag(userName: string, tvShow: string, b1: bool, b2: bool)
    requires RecommendationMessage(userName, tvShow, b1) == RecommendationMessage(userName, tvShow, b2)
    ensures b1 == b2
  {
    assert |TagLine(b1)| == |TagLine(b2)|;
  }
}
