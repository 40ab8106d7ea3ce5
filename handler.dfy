/** The request handler's GET logic. The instance metadata, the randomly drawn
    user id and the recommendation store are inputs; the handler's answer is a
    value: the store calls it made and the response it wrote, if any. */
module Handler {
  import opened Wrappers
  import opened Text
  import opened Template
  import opened Page

  /** Instance identification read from the metadata service. */
  datatype Metadata = Metadata(
    accountId: string,
    amiId: string,
    availabilityZone: string,
    instanceId: string,
    instanceType: string,
    privateHostname: string,
    privateIpv4: string)

  function MetadataParts(m: Metadata): seq<string>
  {
    [ "account_id: " + m.accountId,
      "ami_id: " + m.amiId,
      "availability_zone: " + m.availabilityZone,
      "instance_id: " + m.instanceId,
      "instance_type: " + m.instanceType,
      "private_hostname: " + m.privateHostname,
      "private_ipv4: " + m.privateIpv4 ]
  }

  const OutsideAws := "Running outside AWS"
  const WatchNext := "<h1>What to watch next....</h1>"

  /** The metadata lines joined by line breaks, or the fixed text when the service is unavailable. */
  function MetadataBlock(metadata: Option<Metadata>): string
  {
    match metadata
    case Some(m) => Join("<br>", MetadataParts(m))
    case None => OutsideAws
  }

  /** The metadata block written out: the seven lines in order, separated by line breaks. */
  lemma MetadataBlockSpelledOut(m: Metadata)
    ensures MetadataBlock(Some(m))
         == ("account_id: " + m.accountId) + "<br>"
          + ("ami_id: " + m.amiId) + "<br>"
          + ("availability_zone: " + m.availabilityZone) + "<br>"
          + ("instance_id: " + m.instanceId) + "<br>"
          + ("instance_type: " + m.instanceType) + "<br>"
          + ("private_hostname: " + m.privateHostname) + "<br>"
          + ("private_ipv4: " + m.privateIpv4)
  {
    var p := MetadataParts(m);
    assert [p[0]] + [p[1]] == p[..2];
    JoinSnoc("<br>", [p[0]], p[1]);
    JoinSnoc("<br>", p[..2], p[2]);
    assert p[..2] + [p[2]] == p[..3];
    JoinSnoc("<br>", p[..3], p[3]);
    assert p[..3] + [p[3]] == p[..4];
    JoinSnoc("<br>", p[..4], p[4]);
    assert p[..4] + [p[4]] == p[..5];
    JoinSnoc("<br>", p[..5], p[5]);
    assert p[..5] + [p[5]] == p[..6];
    JoinSnoc("<br>", p[..6], p[6]);
    assert p[..6] + [p[6]] == p;
  }

  /** A DynamoDB attribute value: type descriptor ("S", "N", ...) to its text. */
  type AttributeValue = map<string, string>

  /** A DynamoDB item or key: attribute name to attribute value. */
  type Item = map<string, AttributeValue>

  datatype GetItemRequest = GetItemRequest(tableName: string, key: Item)

  /** What `get_item` gives back: a response with or without an "Item", or an exception. */
  datatype GetItemOutcome = Returned(item: Option<Item>) | Raised(diagnostic: string)

  const TableName := "serviceCallMocks"
  const ServiceApi := "getRecommendation"

  /** The lookup for a user: the mock table, keyed by the service name and the user id as a number. */
  function RecommendationRequest(userId: int): (req: GetItemRequest)
    requires 1 <= userId <= 4
    ensures req.tableName == "serviceCallMocks"
    ensures req.key.Keys == {"ServiceAPI", "UserID"}
    ensures req.key["ServiceAPI"] == map["S" := "getRecommendation"]
    ensures req.key["UserID"].Keys == {"N"}
    ensures ParseDecimal(req.key["UserID"]["N"]) == Some(userId)
    ensures req.key["UserID"]["N"] in {"1", "2", "3", "4"}
  {
    ParseDecimalOfDecimal(userId);
    GetItemRequest(TableName, map["ServiceAPI" := map["S" := ServiceApi], "UserID" := map["N" := Decimal(userId)]])
  }

  /** The text Python shows for the KeyError a missing key raises
      (a one-element list of the formatted exception line). */
  function KeyErrorText(key: string): string
  {
    "[\"KeyError: '" + key + "'\\n\"]"
  }

  /** The response has an item with string-typed "Result" and "UserName" attributes. */
  predicate HasRecommendation(outcome: GetItemOutcome)
  {
    && outcome.Returned?
    && outcome.item.Some?
    && "Result" in outcome.item.value && "S" in outcome.item.value["Result"]
    && "UserName" in outcome.item.value && "S" in outcome.item.value["UserName"]
  }

  /** Reads `response['Item']['Result']['S']` then `response['Item']['UserName']['S']`:
      the show and the user name, or the diagnostic of the first failure. */
  function ExtractRecommendation(outcome: GetItemOutcome): (r: Result<(string, string), string>)
    ensures r.Success? <==> HasRecommendation(outcome)
    ensures r.Success? ==> r.value == (outcome.item.value["Result"]["S"], outcome.item.value["UserName"]["S"])
    ensures outcome.Raised? ==> r == Failure(outcome.diagnostic)
    ensures outcome == Returned(None) ==> r == Failure(KeyErrorText("Item"))
    ensures outcome.Returned? && r.Failure? ==>
      r.error in {KeyErrorText("Item"), KeyErrorText("Result"), KeyErrorText("UserName"), KeyErrorText("S")}
  {
    match outcome
    case Raised(diagnostic) => Failure(diagnostic)
    case Returned(None) => Failure(KeyErrorText("Item"))
    case Returned(Some(item)) =>
      if "Result" !in item then Failure(KeyErrorText("Result"))
      else if "S" !in item["Result"] then Failure(KeyErrorText("S"))
      else if "UserName" !in item then Failure(KeyErrorText("UserName"))
      else if "S" !in item["UserName"] then Failure(KeyErrorText("S"))
      else Success((item["Result"]["S"], item["UserName"]["S"]))
  }

  const FallbackUser := "Valued Customer"
  const FallbackShow := "I Love Lucy"
  const DiagnosticHeading := "<br><br><br><h2>" + "Diagnostic Info:" + "</h2>"
  const UnableNotice := "<br>We are unable to provide personalized recommendations"
  const ReportNotice := "<br>If this persists, please report the following info to us:"

  /** What the root page shows in its Content slot: the metadata block, the
      heading, then the personalised recommendation, or the classic one
      followed by the diagnostic section. */
  function RootContent(metadata: Option<Metadata>, outcome: GetItemOutcome): string
  {
    match ExtractRecommendation(outcome)
    case Success(found) =>
      MetadataBlock(metadata) + WatchNext + ("<br>" + RecommendationMessage(found.1, found.0, true))
    case Failure(diagnostic) =>
      MetadataBlock(metadata) + WatchNext + RecommendationMessage(FallbackUser, FallbackShow, false)
        + DiagnosticHeading + UnableNotice + ReportNotice + diagnostic
  }

  const MetadataMessage := "Data from the metadata API"
  const HealthcheckLink := "healthcheck"
  const HealthcheckPage := "<html><head><title>healthcheck</title></head>" + "<body>success</body></html>"

  datatype Response = Response(status: int, contentType: string, body: string)

  /** Everything a GET does to the outside: the store lookups it makes and what it writes back. */
  datatype Exchange = Exchange(calls: seq<GetItemRequest>, response: Option<Response>)

  /** The answer to `GET path`. */
  function Respond(path: string, metadata: Option<Metadata>, userId: int, store: GetItemRequest -> GetItemOutcome): (r: Exchange)
    requires 1 <= userId <= 4
    ensures r.response.Some? <==> path == "/" || path == "/healthcheck"
    ensures r.response.Some? ==> r.response.value.status == 200 && r.response.value.contentType == "text/html"
    ensures |r.calls| == (if path == "/" then 1 else 0)
  {
    if path == "/" then
      var request := RecommendationRequest(userId);
      var content := RootContent(metadata, store(request));
      Exchange([request], Some(Response(200, "text/html", Fill(MetadataMessage, content, HealthcheckLink))))
    else if path == "/healthcheck" then
      Exchange([], Some(Response(200, "text/html", HealthcheckPage)))
    else
      Exchange([], None)
  }

  /** `do_GET`: builds the root page's content piece by piece, formats the template, answers. */
  method HandleGet(path: string, metadata: Option<Metadata>, userId: int, store: GetItemRequest -> GetItemOutcome)
    returns (calls: seq<GetItemRequest>, response: Option<Response>)
    requires 1 <= userId <= 4
    ensures Exchange(calls, response) == Respond(path, metadata, userId, store)
  {
    calls := [];
    response := None;
    if path == "/" {
      var link := HealthcheckLink;
      var message: string;
      match metadata {
        case Some(m) => message := Join("<br>", MetadataParts(m));
        case None => message := OutsideAws;
      }
      message := message + WatchNext;
      var request := RecommendationRequest(userId);
      var outcome := store(request);
      calls := calls + [request];
      match ExtractRecommendation(outcome) {
        case Success(found) =>
          var (tvShow, userName) := found;
          message := message + ("<br>" + RecommendationMessage(userName, tvShow, true));
        case Failure(diagnostic) =>
          message := message + RecommendationMessage(FallbackUser, FallbackShow, false);
          message := message + DiagnosticHeading;
          message := message + UnableNotice;
          message := message + ReportNotice;
          message := message + diagnostic;
      }
      assert message == RootContent(metadata, outcome);
      HtmlFormatFills(MetadataMessage, message, link);
      var page := Format(HtmlTemplate, map["Content" := message, "Message" := MetadataMessage, "Link" := link]);
      response := Some(Response(200, "text/html", page.value));
    } else if path == "/healthcheck" {
      var body := "<html><head><title>healthcheck</title></head>";
      body := body + "<body>success</body></html>";
      response := Some(Response(200, "text/html", body));
    }
  }

  /** The health check answers the same fixed success page whatever the
      metadata, the user id and the store, and it makes no lookup. */
  lemma HealthcheckIgnoresDependency(
    metadata1: Option<Metadata>, userId1: int, store1: GetItemRequest -> GetItemOutcome,
    metadata2: Option<Metadata>, userId2: int, store2: GetItemRequest -> GetItemOutcome)
    requires 1 <= userId1 <= 4 && 1 <= userId2 <= 4
    ensures Respond("/healthcheck", metadata1, userId1, store1) == Respond("/healthcheck", metadata2, userId2, store2)
    ensures Respond("/healthcheck", metadata1, userId1, store1)
         == Exchange([], Some(Response(200, "text/html",
              "<html><head><title>healthcheck</title></head>" + "<body>success</body></html>")))
    ensures Contains(Respond("/healthcheck", metadata1, userId1, store1).response.value.body, "success")
  {
    ContainsIntro("<body>", "success", "</body></html>");
    ContainsPrepend("<html><head><title>healthcheck</title></head>", "<body>" + "success" + "</body></html>", "success");
  }

  /** The root page is the template formatted with the fixed message, the built content and the
      relative link "healthcheck"; it is made after exactly one lookup, for the drawn user. */
  lemma RootPage(metadata: Option<Metadata>, userId: int, store: GetItemRequest -> GetItemOutcome)
    requires 1 <= userId <= 4
    ensures var r := Respond("/", metadata, userId, store);
      var content := RootContent(metadata, store(RecommendationRequest(userId)));
      && r.calls == [RecommendationRequest(userId)]
      && r.response.Some?
      && r.response.value.status == 200
      && Some(r.response.value.body)
         == Format(HtmlTemplate, map["Content" := content, "Message" := "Data from the metadata API", "Link" := "healthcheck"])
      && Contains(r.response.value.body, content)
  {
    var content := RootContent(metadata, store(RecommendationRequest(userId)));
    HtmlFormatFills(MetadataMessage, content, HealthcheckLink);
    FillShowsSlots(MetadataMessage, content, HealthcheckLink);
  }

  /** The root content opens with the metadata block, or exactly "Running outside AWS",
      followed by the heading, whatever the lookup gave. */
  lemma RootContentOpening(metadata: Option<Metadata>, outcome: GetItemOutcome)
    ensures StartsWith(RootContent(metadata, outcome), MetadataBlock(metadata) + "<h1>What to watch next....</h1>")
    ensures metadata.None? ==>
      StartsWith(RootContent(metadata, outcome), "Running outside AWS" + "<h1>What to watch next....</h1>")
  {
    var opening := MetadataBlock(metadata) + WatchNext;
    var content := RootContent(metadata, outcome);
    match ExtractRecommendation(outcome) {
      case Success(found) =>
        StartsWithAppend(opening, "<br>" + RecommendationMessage(found.1, found.0, true));
      case Failure(diagnostic) =>
        var table := RecommendationMessage(FallbackUser, FallbackShow, false);
        StartsWithAppend(opening, table);
        StartsWithPrefix(opening + table, DiagnosticHeading, opening);
        StartsWithPrefix(opening + table + DiagnosticHeading, UnableNotice, opening);
        StartsWithPrefix(opening + table + DiagnosticHeading + UnableNotice, ReportNotice, opening);
        StartsWithPrefix(opening + table + DiagnosticHeading + UnableNotice + ReportNotice, diagnostic, opening);
    }
  }

  /** A lookup that found the show and the user name gives the personalised table, at the very end
      of the content, and the page shows both values and the personalised tag line. */
  lemma RootPersonalised(metadata: Option<Metadata>, userId: int, store: GetItemRequest -> GetItemOutcome)
    requires 1 <= userId <= 4
    requires HasRecommendation(store(RecommendationRequest(userId)))
    ensures var outcome := store(RecommendationRequest(userId));
      var tvShow := outcome.item.value["Result"]["S"];
      var userName := outcome.item.value["UserName"]["S"];
      var content := RootContent(metadata, outcome);
      var body := Respond("/", metadata, userId, store).response.value.body;
      && content == MetadataBlock(metadata) + "<h1>What to watch next....</h1>" + ("<br>" + RecommendationMessage(userName, tvShow, true))
      && EndsWith(content, "<br>" + RecommendationMessage(userName, tvShow, true))
      && Contains(body, userName)
      && Contains(body, tvShow)
      && Contains(body, "your recommendation is")
  {
    var outcome := store(RecommendationRequest(userId));
    var tvShow := outcome.item.value["Result"]["S"];
    var userName := outcome.item.value["UserName"]["S"];
    var content := RootContent(metadata, outcome);
    var opening := MetadataBlock(metadata) + WatchNext;
    var table := RecommendationMessage(userName, tvShow, true);
    assert content == opening + ("<br>" + table);
    assert content[|content| - |"<br>" + table|..] == "<br>" + table;
    RootPage(metadata, userId, store);
    var body := Respond("/", metadata, userId, store).response.value.body;
    RecommendationMessageShows(userName, tvShow, true);
    ContainsEnd("<br>", table);
    ContainsEnd(opening, "<br>" + table);
    ContainsTrans(content, "<br>" + table, table);
    ContainsTrans(body, content, table);
    ContainsTrans(body, table, userName);
    ContainsTrans(body, table, tvShow);
    ContainsTrans(body, table, TagLine(true));
  }

  /** Any failed lookup, a raised exception or a missing key alike, gives the classic
      recommendation followed by the diagnostic section, which ends in the error text. */
  lemma FallbackContent(metadata: Option<Metadata>, outcome: GetItemOutcome)
    requires !HasRecommendation(outcome)
    ensures var diagnostic := ExtractRecommendation(outcome).error;
      var content := RootContent(metadata, outcome);
      && content == MetadataBlock(metadata) + "<h1>What to watch next....</h1>"
           + RecommendationMessage("Valued Customer", "I Love Lucy", false)
           + ("<br><br><br><h2>" + "Diagnostic Info:" + "</h2>")
           + "<br>We are unable to provide personalized recommendations"
           + "<br>If this persists, please report the following info to us:"
           + diagnostic
      && (outcome.Raised? ==> diagnostic == outcome.diagnostic)
      && Contains(content, RecommendationMessage("Valued Customer", "I Love Lucy", false))
      && Contains(content, "Diagnostic Info:")
      && EndsWith(content, diagnostic)
  {
    var diagnostic := ExtractRecommendation(outcome).error;
    var content := RootContent(metadata, outcome);
    var opening := MetadataBlock(metadata) + WatchNext;
    var table := RecommendationMessage(FallbackUser, FallbackShow, false);
    var upToTable := opening + table;
    var upToHeading := upToTable + DiagnosticHeading;
    var upToReport := upToHeading + UnableNotice + ReportNotice;
    assert content == upToReport + diagnostic;
    ContainsEnd(opening, table);
    ContainsAppend(upToTable, DiagnosticHeading, table);
    ContainsAppend(upToHeading, UnableNotice, table);
    ContainsAppend(upToHeading + UnableNotice, ReportNotice, table);
    ContainsAppend(upToReport, diagnostic, table);
    ContainsIntro("<br><br><br><h2>", "Diagnostic Info:", "</h2>");
    ContainsEnd(upToTable, DiagnosticHeading);
    ContainsAppend(upToHeading, UnableNotice, DiagnosticHeading);
    ContainsAppend(upToHeading + UnableNotice, ReportNotice, DiagnosticHeading);
    ContainsAppend(upToReport, diagnostic, DiagnosticHeading);
    ContainsTrans(content, DiagnosticHeading, "Diagnostic Info:");
    EndsWithAppend(upToReport, diagnostic);
  }

  /** A failed lookup is absorbed: the answer is still a 200 page, showing the fallback
      user and show, the classic tag line, the diagnostic heading and the error text. */
  lemma RootFallback(metadata: Option<Metadata>, userId: int, store: GetItemRequest -> GetItemOutcome)
    requires 1 <= userId <= 4
    requires !HasRecommendation(store(RecommendationRequest(userId)))
    ensures var outcome := store(RecommendationRequest(userId));
      var diagnostic := ExtractRecommendation(outcome).error;
      var r := Respond("/", metadata, userId, store);
      && r.response.Some?
      && r.response.value.status == 200
      && Contains(r.response.value.body, "Valued Customer")
      && Contains(r.response.value.body, "I Love Lucy")
      && Contains(r.response.value.body, "everyone enjoys this classic")
      && Contains(r.response.value.body, "Diagnostic Info:")
      && Contains(r.response.value.body, diagnostic)
  {
    var outcome := store(RecommendationRequest(userId));
    var diagnostic := ExtractRecommendation(outcome).error;
    var content := RootContent(metadata, outcome);
    var table := RecommendationMessage(FallbackUser, FallbackShow, false);
    RootPage(metadata, userId, store);
    FallbackContent(metadata, outcome);
    var body := Respond("/", metadata, userId, store).response.value.body;
    RecommendationMessageShows(FallbackUser, FallbackShow, false);
    ContainsTrans(body, content, table);
    ContainsTrans(body, table, FallbackUser);
    ContainsTrans(body, table, FallbackShow);
    ContainsTrans(body, table, TagLine(false));
    ContainsTrans(body, content, "Diagnostic Info:");
    EndsWithContains(content, diagnostic);
    ContainsTrans(body, content, diagnostic);
  }
}
