/** The ten FAQ entries initializeFAQs stores when the catalogue is empty,
    and the seed-once rule itself. */
module FaqCatalogue {
  import opened Wrappers
  import opened TextUtil
  import opened ChatModel

  // The default entries as stored.  The inputs carry no isActive field, so
  // the schema default (true) applies; they are already trimmed and their
  // keywords already lower-case, so the schema stores them unchanged (see
  // NewFaqKeepsValidEntry).  The answers are written as concatenations of
  // short pieces; the pieces join to the exact text.

  const Default0 := FaqEntry(
    "How can I track my shipment?",
    ["track", "tracking", "shipment", "package", "order", "status"],
    "You can track your shipment by " +
    ("entering your tracking number on " +
    "our tracking page. Simply go to the " +
    "Track section and enter your " +
    "tracking ID."),
    Tracking, true, 1)

  const Default1 := FaqEntry(
    "What are your shipping rates?",
    ["price", "cost", "rates", "shipping", "fees", "charges", "how much"],
    "Our shipping rates depend on the " +
    ("package size, weight, and " +
    "destination. Please visit our " +
    "Services page for detailed pricing " +
    "information or contact our support " +
    "team for a custom quote."),
    Pricing, true, 1)

  const Default2 := FaqEntry(
    "How long does delivery take?",
    ["delivery", "time", "how long", "duration", "days", "when", "arrive"],
    "Delivery times vary based on the " +
    ("service type and destination. " +
    "Standard delivery takes 3-5 " +
    "business days, Express delivery " +
    "takes 1-2 business days, and " +
    "Same-day delivery is available in " +
    "select areas."),
    Delivery, true, 1)

  const Default3 := FaqEntry(
    "What shipping services do you offer?",
    ["services", "types", "options", "shipping methods", "delivery options"],
    "We offer Standard Shipping, Express " +
    ("Delivery, Same-day Delivery, " +
    "International Shipping, and Freight " +
    "Services. Each service has " +
    "different pricing and delivery " +
    "timeframes."),
    Shipping, true, 1)

  const Default4 := FaqEntry(
    "How do I create an account?",
    ["account", "register", "sign up", "signup", "create", "join"],
    "You can create an account by " +
    ("clicking the 'Sign Up' button on " +
    "our homepage. You'll need to " +
    "provide your name, email, phone " +
    "number, and address information."),
    Account, true, 1)

  const Default5 := FaqEntry(
    "What if my package is lost or damaged?",
    ["lost", "damaged", "missing", "broken", "claim", "insurance"],
    "If your package is lost or damaged, " +
    ("please contact our customer support " +
    "immediately. We'll investigate the " +
    "issue and provide appropriate " +
    "compensation based on our insurance " +
    "policy."),
    Support, true, 1)

  const Default6 := FaqEntry(
    "Can I change my delivery address?",
    ["change", "address", "delivery", "redirect", "modify"],
    "You can change your delivery " +
    ("address before the package is out " +
    "for delivery. Please contact our " +
    "support team as soon as possible " +
    "with your tracking number and new " +
    "address."),
    Delivery, true, 1)

  const Default7 := FaqEntry(
    "Do you offer international shipping?",
    ["international", "overseas", "abroad", "global", "worldwide", "export"],
    "Yes, we offer international " +
    ("shipping to over 200 countries. " +
    "International delivery times and " +
    "rates vary by destination. " +
    "Additional customs fees may apply."),
    Shipping, true, 1)

  const Default8 := FaqEntry(
    "How can I contact customer support?",
    ["contact", "support", "help", "customer service", "phone", "email"],
    "You can contact our customer " +
    ("support through this chatbot, email " +
    "us at support@trakship.com, or call " +
    "us at 1-800-TRAKSHIP. Our support " +
    "team is available 24/7."),
    Support, true, 1)

  const Default9 := FaqEntry(
    "What payment methods do you accept?",
    ["payment", "pay", "credit card", "debit", "paypal", "methods", "billing"],
    "We accept all major credit cards " +
    ("(Visa, MasterCard, American " +
    "Express), debit cards, PayPal, and " +
    "bank transfers. Payment is " +
    "processed securely through our " +
    "encrypted system."),
    General, true, 1)

  /** A keyword that is already normal is stored as it is. */
  lemma NormalizeNormalKeyword(k: string)
    requires NormalKeyword(k)
    ensures NormalizeKeyword(k) == k
  {
    TrimOfTrimmed(k);
    LowerOfLower(k);
  }

  /** Building a document from the fields of a valid entry gives back that
      entry (with isActive taking its default when not given). */
  lemma NewFaqKeepsValidEntry(f: FaqEntry)
    requires ValidFaq(f)
    ensures NewFaq(f.question, f.keywords, f.answer, CategoryName(f.category), None, Some(f.priority))
            == Accepted(f.(isActive := true))
  {
    TrimOfTrimmed(f.question);
    TrimOfTrimmed(f.answer);
    TrimEmptyIff(f.question);
    TrimEmptyIff(f.answer);
    CategoryNameRoundTrip(f.category);
    forall k | 0 <= k < |f.keywords|
      ensures NormalizeKeyword(f.keywords[k]) == f.keywords[k]
    {
      NormalizeNormalKeyword(f.keywords[k]);
    }
    var r := NewFaq(f.question, f.keywords, f.answer, CategoryName(f.category), None, Some(f.priority));
    assert r.Accepted?;
    assert r.doc.keywords == f.keywords;
  }

  lemma Default0Valid()
    ensures ValidFaq(Default0)
  {
    var f := Default0;
    assert f.question != "" && IsTrimmed(f.question);
    assert f.answer != "" && IsTrimmed(f.answer);
    assert forall k :: 0 <= k < |f.keywords| ==> NormalKeyword(f.keywords[k]);
  }

  lemma Default1Valid()
    ensures ValidFaq(Default1)
  {
    var f := Default1;
    assert f.question != "" && IsTrimmed(f.question);
    assert f.answer != "" && IsTrimmed(f.answer);
    assert forall k :: 0 <= k < |f.keywords| ==> NormalKeyword(f.keywords[k]);
  }

  lemma Default2Valid()
    ensures ValidFaq(Default2)
  {
    var f := Default2;
    assert f.question != "" && IsTrimmed(f.question);
    assert f.answer != "" && IsTrimmed(f.answer);
    assert forall k :: 0 <= k < |f.keywords| ==> NormalKeyword(f.keywords[k]);
  }

  lemma Default3Valid()
    ensures ValidFaq(Default3)
  {
    var f := Default3;
    assert f.question != "" && IsTrimmed(f.question);
    assert f.answer != "" && IsTrimmed(f.answer);
    assert NormalKeyword(f.keywords[3]) && NormalKeyword(f.keywords[4]);
    assert forall k :: 0 <= k < |f.keywords| ==> NormalKeyword(f.keywords[k]);
  }

  lemma Default4Valid()
    ensures ValidFaq(Default4)
  {
    var f := Default4;
    assert f.question != "" && IsTrimmed(f.question);
    assert f.answer != "" && IsTrimmed(f.answer);
    assert forall k :: 0 <= k < |f.keywords| ==> NormalKeyword(f.keywords[k]);
  }

  lemma Default5Valid()
    ensures ValidFaq(Default5)
  {
    var f := Default5;
    assert f.question != "" && IsTrimmed(f.question);
    assert f.answer != "" && IsTrimmed(f.answer);
    assert forall k :: 0 <= k < |f.keywords| ==> NormalKeyword(f.keywords[k]);
  }

  lemma Default6Valid()
    ensures ValidFaq(Default6)
  {
    var f := Default6;
    assert f.question != "" && IsTrimmed(f.question);
    assert f.answer != "" && IsTrimmed(f.answer);
    assert forall k :: 0 <= k < |f.keywords| ==> NormalKeyword(f.keywords[k]);
  }

  lemma Default7Valid()
    ensures ValidFaq(Default7)
  {
    var f := Default7;
    assert f.question != "" && IsTrimmed(f.question);
    assert f.answer != "" && IsTrimmed(f.answer);
    assert forall k :: 0 <= k < |f.keywords| ==> NormalKeyword(f.keywords[k]);
  }

  lemma Default8Valid()
    ensures ValidFaq(Default8)
  {
    var f := Default8;
    assert f.question != "" && IsTrimmed(f.question);
    assert f.answer != "" && IsTrimmed(f.answer);
    assert forall k :: 0 <= k < |f.keywords| ==> NormalKeyword(f.keywords[k]);
  }

  lemma Default9Valid()
    ensures ValidFaq(Default9)
  {
    var f := Default9;
    assert f.question != "" && IsTrimmed(f.question);
    assert f.answer != "" && IsTrimmed(f.answer);
    assert forall k :: 0 <= k < |f.keywords| ==> NormalKeyword(f.keywords[k]);
  }

  /** The ten documents insertMany stores, in the order of the inputs. */
  const DefaultFaqs: seq<FaqEntry> :=
    [Default0, Default1, Default2, Default3, Default4,
     Default5, Default6, Default7, Default8, Default9]

  /** Every default entry is a valid document, active and of priority 1. */
  lemma DefaultFaqsSpec()
    ensures |DefaultFaqs| == 10
    ensures forall k :: 0 <= k < 10 ==> ValidFaq(DefaultFaqs[k])
    ensures forall k :: 0 <= k < 10 ==> DefaultFaqs[k].isActive && DefaultFaqs[k].priority == 1
  {
    forall k | 0 <= k < 10
      ensures ValidFaq(DefaultFaqs[k]) && DefaultFaqs[k].isActive && DefaultFaqs[k].priority == 1
    {
      if k < 5 {
        FirstDefaultsValid(k);
      } else {
        LastDefaultsValid(k);
      }
    }
  }

  lemma FirstDefaultsValid(k: int)
    requires 0 <= k < 5
    ensures ValidFaq(DefaultFaqs[k]) && DefaultFaqs[k].isActive && DefaultFaqs[k].priority == 1
  {
    if k == 0 { Default0Valid(); }
    else if k == 1 { Default1Valid(); }
    else if k == 2 { Default2Valid(); }
    else if k == 3 { Default3Valid(); }
    else { Default4Valid(); }
  }

  lemma LastDefaultsValid(k: int)
    requires 5 <= k < 10
    ensures ValidFaq(DefaultFaqs[k]) && DefaultFaqs[k].isActive && DefaultFaqs[k].priority == 1
  {
    if k == 5 { Default5Valid(); }
    else if k == 6 { Default6Valid(); }
    else if k == 7 { Default7Valid(); }
    else if k == 8 { Default8Valid(); }
    else { Default9Valid(); }
  }

  /** initializeFAQs on a catalogue: a non-empty catalogue is left alone, an
      empty one receives the ten defaults. */
  function SeedIfEmpty(faqs: seq<FaqEntry>): (r: seq<FaqEntry>)
    ensures |faqs| > 0 ==> r == faqs
    ensures |faqs| == 0 ==> r == DefaultFaqs
  {
    if |faqs| > 0 then faqs else DefaultFaqs
  }

  /** Seeding twice is seeding once, so an empty catalogue initialised twice
      holds exactly ten entries. */
  lemma SeedTwice(faqs: seq<FaqEntry>)
    ensures SeedIfEmpty(SeedIfEmpty(faqs)) == SeedIfEmpty(faqs)
    ensures |faqs| == 0 ==> |SeedIfEmpty(SeedIfEmpty(faqs))| == 10
  {
  }
}
