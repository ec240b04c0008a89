/**
 * Customer-support answers (functions/support_functions.py): the FAQ, the
 * store's contact card, issue tickets and size guides. Nothing here changes
 * state; the random part of a ticket id is passed in.
 */
module Support {
  import opened Strings
  import opened Values

  // ---------------------------------------------------------------------
  // get_help

  /** The FAQ topics, in the order the FAQ lists them. */
  const FaqTopics: seq<string> := ["return_policy", "shipping", "warranty", "size_guide", "payment", "contact"]

  const Faq: map<string, string> := map[
    "return_policy" := "You can return items within 30 days of purchase with original receipt. Items must be in original condition.",
    "shipping" := "We offer free shipping on orders over $50. Standard shipping takes 3-5 business days.",
    "warranty" := "All sports equipment comes with a 1-year manufacturer warranty. Apparel has a 90-day warranty.",
    "size_guide" := "Please check our size guide on the product page. We offer exchanges for wrong sizes within 14 days.",
    "payment" := "We accept major credit cards, PayPal, and store credit. Payment is processed securely.",
    "contact" := "You can reach us at " + "support@wrteam.com" + " or call " + "1-800-WRTEAM" + " during business hours 9AM-6PM EST."]

  const HelpIndexMessage := "Here are the help topics available. Ask about any specific topic for detailed information."

  /** Either the answer for one topic or the index of every topic. */
  datatype Help =
    | TopicHelp(topic: string, information: string, additionalHelp: string)
    | HelpIndex(availableTopics: seq<string>, faq: map<string, string>, message: string)

  /** `get_help`: the topic is looked up case-insensitively and echoed as given; anything else gets the whole FAQ. */
  function GetHelp(topic: string): (r: Help)
    ensures r.TopicHelp? <==> Lower(topic) in Faq
    ensures r.TopicHelp? ==> r == TopicHelp(topic, Faq[Lower(topic)], "For more specific questions, contact our support team.")
    ensures r.HelpIndex? ==> r == HelpIndex(FaqTopics, Faq, HelpIndexMessage)
  {
    if Lower(topic) in Faq then
      TopicHelp(topic, Faq[Lower(topic)], "For more specific questions, contact our support team.")
    else
      HelpIndex(FaqTopics, Faq, HelpIndexMessage)
  }

  /** The index lists each FAQ key exactly once. */
  lemma FaqTopicsAreTheKeys()
    ensures forall t :: t in FaqTopics <==> t in Faq
    ensures forall i, j :: 0 <= i < j < |FaqTopics| ==> FaqTopics[i] != FaqTopics[j]
  {
  }

  /** Asking about a listed topic, in any letter case, answers that topic. */
  lemma {:induction false} HelpAnswersListedTopic(topic: string, i: nat)
    requires i < |FaqTopics| && Lower(topic) == FaqTopics[i]
    ensures GetHelp(topic).TopicHelp?
    ensures GetHelp(topic).information == Faq[FaqTopics[i]]
    ensures GetHelp(topic).topic == topic
  {
    FaqTopicsAreTheKeys();
  }

  /** The answer depends on the topic only through its lower-case form, apart from the echoed topic. */
  lemma HelpIgnoresCase(topic: string)
    ensures GetHelp(Lower(topic)).TopicHelp? == GetHelp(topic).TopicHelp?
    ensures GetHelp(topic).TopicHelp? ==> GetHelp(Lower(topic)).information == GetHelp(topic).information
  {
    LowerIdempotent(topic);
  }

  function HelpToDict(h: Help): Value
  {
    match h
    case TopicHelp(t, info, more) =>
      VDict(map["topic" := VStr(t), "information" := VStr(info), "additional_help" := VStr(more)])
    case HelpIndex(topics, faq, msg) =>
      VDict(map[
        "available_topics" := VList(seq(|topics|, i requires 0 <= i < |topics| => VStr(topics[i]))),
        "faq" := VDict(map k | k in faq :: VStr(faq[k])),
        "message" := VStr(msg)])
  }

  // ---------------------------------------------------------------------
  // get_store_info

  datatype StoreInfo = StoreInfo(name: string, hours: string, phone: string, email: string, address: string, website: string)

  const TheStore := StoreInfo(
    "WRTeam Sport Center",
    "Monday-Saturday: 9AM-9PM, Sunday: 10AM-6PM",
    "1-800-WRTEAM",
    "support@wrteam.com",
    "123 Sports Avenue, Athletic City, AC 12345",
    "www.wrteam.com")

  /** `get_store_info`: the fixed contact card, as a dictionary with its six keys. */
  function GetStoreInfo(): (r: Value)
    ensures r.VDict? && r.entries.Keys == {"name", "hours", "phone", "email", "address", "website"}
    ensures r.entries["email"] == VStr(TheStore.email) && r.entries["phone"] == VStr(TheStore.phone)
  {
    VDict(map[
      "name" := VStr(TheStore.name),
      "hours" := VStr(TheStore.hours),
      "phone" := VStr(TheStore.phone),
      "email" := VStr(TheStore.email),
      "address" := VStr(TheStore.address),
      "website" := VStr(TheStore.website)])
  }

  /** The FAQ's contact answer gives the same e-mail address and phone number as the contact card. */
  lemma ContactAgreesWithStoreInfo()
    ensures Contains(Faq["contact"], TheStore.email)
    ensures Contains(Faq["contact"], TheStore.phone)
  {
    var tail := " during business hours 9AM-6PM EST.";
    assert Faq["contact"] == "You can reach us at " + TheStore.email + (" or call " + TheStore.phone + tail);
    ContainsMiddle("You can reach us at ", TheStore.email, " or call " + TheStore.phone + tail);
    ContainsMiddle("You can reach us at " + TheStore.email + " or call ", TheStore.phone, tail);
  }

  // ---------------------------------------------------------------------
  // report_issue

  datatype IssueReport = IssueReport(ticketId: string, issueType: string, message: string, nextSteps: string)

  /**
   * `report_issue`: the ticket id is "TICKET" and the upper-cased first eight
   * characters of a fresh UUID, passed here as `uuid`. The description is
   * accepted but not recorded anywhere.
   */
  function ReportIssue(issueType: string, description: string, uuid: string): (r: IssueReport)
    ensures r.ticketId == "TICKET" + Upper(Prefix(uuid, 8))
    ensures r.issueType == issueType
    ensures r.message == "Your issue has been submitted. Ticket ID: " + r.ticketId + ". Our support team will contact you within 24 hours."
  {
    var ticketId := "TICKET" + Upper(Prefix(uuid, 8));
    IssueReport(
      ticketId,
      issueType,
      "Your issue has been submitted. Ticket ID: " + ticketId + ". Our support team will contact you within 24 hours.",
      "Check your email for updates or contact us at support@wrteam.com with your ticket ID.")
  }

  /** A lower-case hexadecimal digit, as `str(uuid.uuid4())` writes them. */
  predicate IsHexDigit(c: char) { '0' <= c <= '9' || 'a' <= c <= 'f' }

  /** From a UUID string whose first eight characters are hex digits the ticket id is 14 characters with no lower-case letter, and the confirmation quotes it. */
  lemma {:induction false} TicketIdShape(issueType: string, description: string, uuid: string)
    requires |uuid| >= 8 && forall i :: 0 <= i < 8 ==> IsHexDigit(uuid[i])
    ensures var t := ReportIssue(issueType, description, uuid).ticketId;
      && |t| == 14
      && t[..6] == "TICKET"
      && (forall i :: 6 <= i < 14 ==> !IsLower(t[i]) && (t[i] == UpperChar(uuid[i - 6])))
    ensures Contains(ReportIssue(issueType, description, uuid).message, ReportIssue(issueType, description, uuid).ticketId)
  {
    var r := ReportIssue(issueType, description, uuid);
    var t := r.ticketId;
    var u := Upper(Prefix(uuid, 8));
    assert t == "TICKET" + u;
    forall i | 6 <= i < 14 ensures t[i] == UpperChar(uuid[i - 6]) {
      assert t[i] == u[i - 6];
    }
    ContainsMiddle("Your issue has been submitted. Ticket ID: ", t, ". Our support team will contact you within 24 hours.");
  }

  function IssueReportToDict(r: IssueReport): Value
  {
    VDict(map[
      "success" := VBool(true),
      "ticket_id" := VStr(r.ticketId),
      "issue_type" := VStr(r.issueType),
      "status" := VStr("submitted"),
      "message" := VStr(r.message),
      "next_steps" := VStr(r.nextSteps)])
  }

  // ---------------------------------------------------------------------
  // get_size_guide

  function StrList(xs: seq<string>): (v: Value)
    ensures v.VList? && |v.elems| == |xs|
    ensures forall i :: 0 <= i < |xs| ==> v.elems[i] == VStr(xs[i])
  {
    VList(seq(|xs|, i requires 0 <= i < |xs| => VStr(xs[i])))
  }

  /** The size-guide categories, in the order the guides are listed. */
  const SizeCategories: seq<string> := ["footwear", "apparel", "equipment"]

  const FootwearGuide := VDict(map[
    "sizes" := StrList(["6", "7", "8", "9", "10", "11", "12", "13"]),
    "guide" := VStr("Measure your foot length in inches. Add 0.5 inches for comfort."),
    "tips" := VStr("Try shoes in the evening when feet are slightly swollen for best fit.")])

  const ApparelGuide := VDict(map[
    "sizes" := StrList(["XS", "S", "M", "L", "XL", "XXL"]),
    "guide" := VDict(map[
      "XS" := VStr("Chest: 32-34 inches"),
      "S" := VStr("Chest: 35-37 inches"),
      "M" := VStr("Chest: 38-40 inches"),
      "L" := VStr("Chest: 41-43 inches"),
      "XL" := VStr("Chest: 44-46 inches"),
      "XXL" := VStr("Chest: 47-49 inches")]),
    "tips" := VStr("Measure around the fullest part of your chest for accurate sizing.")])

  const EquipmentGuide := VDict(map[
    "guide" := VStr("Equipment sizes vary by sport. Check individual product pages for specific sizing information."),
    "tips" := VStr("Consider your skill level and playing style when choosing equipment sizes.")])

  const SizeGuides: map<string, Value> := map[
    "footwear" := FootwearGuide,
    "apparel" := ApparelGuide,
    "equipment" := EquipmentGuide]

  const SizeIndexMessage := "Size guides available for footwear, apparel, and equipment."

  datatype SizeGuide =
    | CategoryGuide(category: string, sizeInfo: Value)
    | AllGuides(availableCategories: seq<string>, allGuides: map<string, Value>, message: string)

  /** `get_size_guide`: one category's guide, looked up case-insensitively, or every guide. */
  function GetSizeGuide(category: string): (r: SizeGuide)
    ensures r.CategoryGuide? <==> Lower(category) in SizeGuides
    ensures r.CategoryGuide? ==> r.category == category && r.sizeInfo == SizeGuides[Lower(category)]
    ensures r.AllGuides? ==> r == AllGuides(SizeCategories, SizeGuides, SizeIndexMessage)
  {
    if Lower(category) in SizeGuides then CategoryGuide(category, SizeGuides[Lower(category)])
    else AllGuides(SizeCategories, SizeGuides, SizeIndexMessage)
  }

  /** The category list names each guide once, and every guide has its guide text. */
  lemma SizeCategoriesAreTheKeys()
    ensures forall c :: c in SizeCategories <==> c in SizeGuides
    ensures forall i, j :: 0 <= i < j < |SizeCategories| ==> SizeCategories[i] != SizeCategories[j]
    ensures forall c :: c in SizeGuides ==> SizeGuides[c].VDict? && "guide" in SizeGuides[c].entries
  {
  }

  function SizeGuideToDict(g: SizeGuide): Value
  {
    match g
    case CategoryGuide(c, info) => VDict(map["category" := VStr(c), "size_info" := info])
    case AllGuides(cats, guides, msg) =>
      VDict(map["available_categories" := StrList(cats), "all_guides" := VDict(guides), "message" := VStr(msg)])
  }
}
