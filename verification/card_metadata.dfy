/**
 * The three card templates of the first-generation metadata generator:
 * `nft_visual` (the marketplace card), `prepaid_card` (the card product) and
 * `apple_wallet` (the wallet pass).  Each maps a token id and the card's
 * attributes to a metadata object, written here as a datatype whose fields
 * are the object's properties in order; `now` is the ISO time the templates
 * stamp.  Reading a property of null or undefined attributes throws, which
 * the model returns as an error.
 */
module CardMetadata {
  import opened Wrappers
  import opened Js

  const NO_BENEFITS := "No benefits assigned"
  /** The separator `"\\n"` of the source: a backslash and the letter n. */
  const BENEFIT_SEPARATOR := "\\n"
  const DEFAULT_EXPIRY := "12/2025"
  const BLACK_BACKGROUND := "rgb(0, 0, 0)"
  const GREY_BACKGROUND := "rgb(48, 48, 48)"

  /** `{ trait_type, value }` */
  datatype Trait = Trait(traitType: string, value: Json)

  // ----------------------------------------------------------- nft_visual

  datatype VisualProperties = VisualProperties(tier: Json, benefits: Json, cardDesign: Json)

  datatype VisualCard = VisualCard(
    name: string, description: string, image: Json, attributes: seq<Trait>, properties: VisualProperties)

  /** `MetadataTemplates.nft_visual(tokenId, attributes)` */
  function NftVisual(tokenId: Json, attributes: Json, now: string): Result<VisualCard, string> {
    if Nullish(attributes) then Err(ReadError(attributes, "membershipTier"))
    else
      var tier := Get(attributes, "membershipTier");
      Ok(VisualCard(
        "WaveX Card #" + Show(tokenId),
        "WaveX " + Show(tier) + " Membership Card",
        Or(Get(attributes, "imageUrl"), Str("ipfs://" + Show(Get(attributes, "imageHash")))),
        [Trait("Membership Tier", tier), Trait("Card Type", Get(attributes, "cardType")),
         Trait("Issue Date", Str(now))],
        VisualProperties(tier, Or(Get(attributes, "benefits"), Arr([])),
                         Or(Get(attributes, "designVersion"), Str("v1")))))
  }

  /** Null or undefined attributes throw; any other attributes give a card. */
  lemma NftVisualRefuses(tokenId: Json, attributes: Json, now: string)
    ensures Nullish(attributes) <==> NftVisual(tokenId, attributes, now).Err?
  {
  }

  /** The card is named after its token id, which reads back from the name. */
  lemma NftVisualName(tokenId: nat, attributes: Json, now: string)
    requires !Nullish(attributes)
    ensures var name := NftVisual(Num(tokenId), attributes, now).value.name;
      var prefix := "WaveX Card #";
      name[..|prefix|] == prefix && ParseIntStr(name[|prefix|..]) == Num(tokenId)
  {
    var name := NftVisual(Num(tokenId), attributes, now).value.name;
    assert name == "WaveX Card #" + IntToString(tokenId);
    ParseIntOfIntToString(tokenId);
  }

  /** The image is the given URL when there is one, and otherwise the IPFS
      address of the given hash. */
  lemma NftVisualImage(tokenId: Json, attributes: Json, now: string)
    requires !Nullish(attributes)
    ensures var image := NftVisual(tokenId, attributes, now).value.image;
      var hashed := Str("ipfs://" + Show(Get(attributes, "imageHash")));
      (Truthy(Get(attributes, "imageUrl")) ==> image == Get(attributes, "imageUrl")) &&
      (!Truthy(Get(attributes, "imageUrl")) ==> image == hashed)
  {
  }

  /** The three attributes are the tier, the card type and the issue date, in
      that order, and the tier property repeats the tier attribute; benefits
      default to none and the design to "v1". */
  lemma NftVisualTraits(tokenId: Json, attributes: Json, now: string)
    requires !Nullish(attributes)
    ensures var card := NftVisual(tokenId, attributes, now).value;
      |card.attributes| == 3 &&
      card.attributes[0].traitType == "Membership Tier" && card.attributes[1].traitType == "Card Type" &&
      card.attributes[2].traitType == "Issue Date" &&
      card.attributes[1].value == Get(attributes, "cardType") && card.attributes[2].value == Str(now) &&
      card.properties.tier == card.attributes[0].value == Get(attributes, "membershipTier") &&
      (Truthy(Get(attributes, "benefits")) ==> card.properties.benefits == Get(attributes, "benefits")) &&
      (!Truthy(Get(attributes, "benefits")) ==> card.properties.benefits == Arr([])) &&
      (Truthy(Get(attributes, "designVersion")) ==> card.properties.cardDesign == Get(attributes, "designVersion")) &&
      (!Truthy(Get(attributes, "designVersion")) ==> card.properties.cardDesign == Str("v1"))
  {
  }

  // --------------------------------------------------------- prepaid_card

  datatype Balance = Balance(currentBalance: string, currency: string, lastUpdated: string)
  datatype Security = Security(tokenized: bool, secureElement: bool, contactless: bool)
  datatype Design = Design(template: string, primaryColor: Json, textColor: string)

  datatype PrepaidCard = PrepaidCard(
    name: string, cardNetwork: Json, cardProduct: string, maskedNumber: Json, expirationDate: Json,
    cardStatus: string, balanceTracking: Balance, securityFeatures: Security, cardDesign: Design)

  /** `attributes.membershipTier.toLowerCase()` */
  function LowerTier(tier: Json): Result<string, string> {
    if tier.Str? then Ok(ToLower(tier.s))
    else if Nullish(tier) then Err(ReadError(tier, "toLowerCase"))
    else Err("attributes.membershipTier.toLowerCase is not a function")
  }

  /** `MetadataTemplates.prepaid_card(tokenId, attributes)` */
  function Prepaid(tokenId: Json, attributes: Json, now: string): Result<PrepaidCard, string> {
    if Nullish(attributes) then Err(ReadError(attributes, "cardType"))
    else
      var tier := Get(attributes, "membershipTier");
      match LowerTier(tier)
      case Err(e) => Err(e)
      case Ok(template) =>
        Ok(PrepaidCard(
          "WaveX Prepaid Card #" + Show(tokenId),
          Get(attributes, "cardType"),
          "WaveX " + Show(tier),
          Or(Get(attributes, "maskedPAN"), Str("****-****-****-0000")),
          Or(Get(attributes, "expirationDate"), Str(DEFAULT_EXPIRY)),
          "ACTIVE",
          Balance("0.00", "USD", now),
          Security(true, true, true),
          Design(template, Or(Get(attributes, "cardColor"), Str("#000000")), "#FFFFFF")))
  }

  /** A prepaid card exists exactly for attributes whose tier is a string; a
      tier of any other kind throws.  Its design template is the tier in
      lower case, the same tier up to case, and the card starts active with
      a zero balance. */
  lemma PrepaidNeedsTextTier(tokenId: Json, attributes: Json, now: string)
    ensures Prepaid(tokenId, attributes, now).Ok? <==>
      !Nullish(attributes) && Get(attributes, "membershipTier").Str?
    ensures Prepaid(tokenId, attributes, now).Ok? ==>
      var card := Prepaid(tokenId, attributes, now).value;
      var tier := Get(attributes, "membershipTier").s;
      |card.cardDesign.template| == |tier| &&
      ToUpper(card.cardDesign.template) == ToUpper(tier) &&
      (forall i | 0 <= i < |tier| :: !('A' <= card.cardDesign.template[i] <= 'Z')) &&
      card.cardStatus == "ACTIVE" && card.balanceTracking.currentBalance == "0.00"
  {
    if Prepaid(tokenId, attributes, now).Ok? {
      UpperOfLower(Get(attributes, "membershipTier").s);
    }
  }

  /** Lower-casing loses nothing upper-casing keeps. */
  lemma UpperOfLower(s: string)
    ensures ToUpper(ToLower(s)) == ToUpper(s)
  {
  }

  // --------------------------------------------------------- apple_wallet

  datatype PassField = PassField(key: string, caption: string, value: Json, currencyCode: Option<string>)

  datatype WalletGeneric = WalletGeneric(
    primaryFields: seq<PassField>, secondaryFields: seq<PassField>,
    auxiliaryFields: seq<PassField>, backFields: seq<PassField>)

  datatype WalletPass = WalletPass(
    formatVersion: nat, passTypeIdentifier: string, serialNumber: string, description: string,
    organizationName: string, logoText: string, foregroundColor: string, backgroundColor: string,
    generic: WalletGeneric)

  /** `attributes.benefits?.join("\\n") || "No benefits assigned"` */
  function BenefitsText(benefits: Json): Result<string, string> {
    if Nullish(benefits) then Ok(NO_BENEFITS)
    else if benefits.Arr? then
      var items := benefits.items;
      var joined := Join(seq(|items|, i requires 0 <= i < |items| =>
                               if Nullish(items[i]) then "" else Show(items[i])), BENEFIT_SEPARATOR);
      Ok(if joined == "" then NO_BENEFITS else joined)
    else Err("attributes.benefits?.join is not a function")
  }

  /** `MetadataTemplates.apple_wallet(tokenId, attributes)` */
  function AppleWallet(tokenId: Json, attributes: Json): Result<WalletPass, string> {
    if Nullish(attributes) then Err(ReadError(attributes, "membershipTier"))
    else
      var tier := Get(attributes, "membershipTier");
      match BenefitsText(Get(attributes, "benefits"))
      case Err(e) => Err(e)
      case Ok(benefits) =>
        Ok(WalletPass(
          1, "pass.com.wavex.card", "WAVEX-" + Show(tokenId), "WaveX " + Show(tier) + " Card",
          "WaveX", "WaveX", "rgb(255, 255, 255)",
          if StrictEquals(tier, Str("BLACK")) then BLACK_BACKGROUND else GREY_BACKGROUND,
          WalletGeneric(
            [PassField("balance", "BALANCE", Str("$ 0.00"), Some("USD"))],
            [PassField("membership", "MEMBERSHIP", tier, None),
             PassField("cardType", "TYPE", Get(attributes, "cardType"), None)],
            [PassField("expiry", "EXPIRES", Or(Get(attributes, "expirationDate"), Str(DEFAULT_EXPIRY)), None)],
            [PassField("benefits", "BENEFITS", Str(benefits), None)])))
  }

  /** The pass's serial number is "WAVEX-" and the token id, which reads
      back from it, and its background is black exactly for the BLACK tier
      and grey for every other. */
  lemma WalletSerialAndColour(tokenId: nat, attributes: Json)
    requires AppleWallet(Num(tokenId), attributes).Ok?
    ensures var pass := AppleWallet(Num(tokenId), attributes).value;
      pass.serialNumber[..6] == "WAVEX-" && ParseIntStr(pass.serialNumber[6..]) == Num(tokenId) &&
      (pass.backgroundColor == BLACK_BACKGROUND <==> Get(attributes, "membershipTier") == Str("BLACK")) &&
      (pass.backgroundColor == GREY_BACKGROUND <==> Get(attributes, "membershipTier") != Str("BLACK"))
  {
    var pass := AppleWallet(Num(tokenId), attributes).value;
    WalletHeader(Num(tokenId), attributes);
    ShowNat(tokenId);
    ParseIntOfNatToString(tokenId);
    SerialAndColour(pass.serialNumber, pass.backgroundColor, tokenId, Get(attributes, "membershipTier"));
  }

  /** Where the serial number and the background come from. */
  lemma WalletHeader(tokenId: Json, attributes: Json)
    requires AppleWallet(tokenId, attributes).Ok?
    ensures var pass := AppleWallet(tokenId, attributes).value;
      pass.serialNumber == "WAVEX-" + Show(tokenId) &&
      pass.backgroundColor ==
        if StrictEquals(Get(attributes, "membershipTier"), Str("BLACK")) then BLACK_BACKGROUND else GREY_BACKGROUND
  {
  }

  /** The serial number and background of a pass, from the token id's numeral
      and the tier. */
  lemma SerialAndColour(serial: string, background: string, tokenId: nat, tier: Json)
    requires serial == "WAVEX-" + NatToString(tokenId) && ParseIntStr(NatToString(tokenId)) == Num(tokenId)
    requires background == if StrictEquals(tier, Str("BLACK")) then BLACK_BACKGROUND else GREY_BACKGROUND
    ensures serial[..6] == "WAVEX-" && ParseIntStr(serial[6..]) == Num(tokenId)
    ensures background == BLACK_BACKGROUND <==> tier == Str("BLACK")
    ensures background == GREY_BACKGROUND <==> tier != Str("BLACK")
  {
    assert serial[6..] == NatToString(tokenId);
    assert BLACK_BACKGROUND != GREY_BACKGROUND by {
      assert BLACK_BACKGROUND[4] != GREY_BACKGROUND[4];
    }
  }

  /** A wallet pass exists exactly for attributes whose benefits are absent
      or a list.  Its fronts show the tier and card type, its expiry is the
      given date or else 12/2025, and its back holds the benefits text. */
  lemma WalletFields(tokenId: Json, attributes: Json)
    ensures AppleWallet(tokenId, attributes).Ok? <==>
      !Nullish(attributes) && (Nullish(Get(attributes, "benefits")) || Get(attributes, "benefits").Arr?)
    ensures AppleWallet(tokenId, attributes).Ok? ==>
      var g := AppleWallet(tokenId, attributes).value.generic;
      |g.secondaryFields| == 2 && |g.auxiliaryFields| == 1 && |g.backFields| == 1 &&
      g.secondaryFields[0].value == Get(attributes, "membershipTier") &&
      g.secondaryFields[1].value == Get(attributes, "cardType") &&
      (!Truthy(Get(attributes, "expirationDate")) ==> g.auxiliaryFields[0].value == Str(DEFAULT_EXPIRY)) &&
      g.backFields[0].value == Str(BenefitsText(Get(attributes, "benefits")).value)
  {
  }

  /** The BENEFITS back field: no benefits (absent, or an empty list) reads
      "No benefits assigned"; a list of texts, one of them not empty, is
      joined with a backslash and an n, so the field holds no line break
      unless a benefit does; any other value throws. */
  lemma BenefitsBackField(benefits: Json, texts: seq<string>)
    ensures Nullish(benefits) || benefits == Arr([]) ==> BenefitsText(benefits) == Ok(NO_BENEFITS)
    ensures !Nullish(benefits) && !benefits.Arr? ==> BenefitsText(benefits).Err?
    ensures benefits == Arr(seq(|texts|, i requires 0 <= i < |texts| => Str(texts[i]))) &&
            (exists i | 0 <= i < |texts| :: texts[i] != "") ==>
      BenefitsText(benefits) == Ok(Join(texts, BENEFIT_SEPARATOR)) &&
      ((forall i | 0 <= i < |texts| :: '\n' !in texts[i]) ==> '\n' !in Join(texts, BENEFIT_SEPARATOR))
  {
    if benefits == Arr(seq(|texts|, i requires 0 <= i < |texts| => Str(texts[i]))) &&
       exists i | 0 <= i < |texts| :: texts[i] != "" {
      var items := benefits.items;
      var shown := seq(|items|, i requires 0 <= i < |items| => if Nullish(items[i]) then "" else Show(items[i]));
      assert shown == texts;
      var k :| 0 <= k < |texts| && texts[k] != "";
      JoinKeepsParts(texts, BENEFIT_SEPARATOR, k);
      if forall i | 0 <= i < |texts| :: '\n' !in texts[i] {
        JoinAvoids(texts, BENEFIT_SEPARATOR, '\n');
      }
    }
  }

  /** A join is not empty when one of its parts is not. */
  lemma {:induction false} JoinKeepsParts(parts: seq<string>, sep: string, k: nat)
    requires k < |parts| && parts[k] != ""
    ensures Join(parts, sep) != ""
  {
    if |parts| > 1 {
      if k > 0 {
        JoinKeepsParts(parts[1..], sep, k - 1);
      }
      assert |Join(parts, sep)| >= |parts[0]| + |Join(parts[1..], sep)|;
    }
  }

  /** The time stamp is the only input besides the token id and the
      attributes: two cards made at different times differ only in their
      issue date or last update, and the wallet pass carries no time. */
  lemma OnlyTimestampsVary(tokenId: Json, attributes: Json, now1: string, now2: string)
    ensures NftVisual(tokenId, attributes, now1).Ok? ==>
      var a := NftVisual(tokenId, attributes, now1).value;
      var b := NftVisual(tokenId, attributes, now2).value;
      a.(attributes := a.attributes[2 := Trait("Issue Date", Str(now2))]) == b
    ensures Prepaid(tokenId, attributes, now1).Ok? ==>
      var a := Prepaid(tokenId, attributes, now1).value;
      a.(balanceTracking := a.balanceTracking.(lastUpdated := now2)) == Prepaid(tokenId, attributes, now2).value
    ensures Prepaid(tokenId, attributes, now1).Err? ==> Prepaid(tokenId, attributes, now2) == Prepaid(tokenId, attributes, now1)
  {
  }
}
