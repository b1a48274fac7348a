/**
 * The rendering half of `QuestionProcessor`: the product detail block, the
 * two-product comparison and the listing grouped by category.
 *
 * Each renderer builds its answer by appending to a string. The model names
 * the sequence of appended pieces (one per `+=`) as a specification function;
 * each method is proved to return `Concat` of that sequence, and the layout
 * facts (what comes first, what comes last, which sections appear, in which
 * order) are proved about the piece sequence.
 */
module ProductResponses {
  import opened Wrappers
  import opened Text
  import opened Products

  // ------------------------------------------------------------- bullets

  /** One `- item\n` line. */
  function Bullet(item: string): string
  {
    "- " + item + "\n"
  }

  function Bullets(items: seq<string>): (r: seq<string>)
    ensures |r| == |items|
    ensures forall i :: 0 <= i < |items| ==> r[i] == Bullet(items[i])
  {
    seq(|items|, i requires 0 <= i < |items| => Bullet(items[i]))
  }

  /** A bold title line, one bullet per item, then a blank line. */
  function BulletSection(title: string, items: seq<string>): seq<string>
  {
    [title] + Bullets(items) + ["\n"]
  }

  /** `items.forEach(item => { response += `- ${item}\n`; })`. */
  method AppendBullets(response: string, items: seq<string>) returns (r: string)
    ensures r == response + Concat(Bullets(items))
  {
    r := response;
    var i := 0;
    while i < |items|
      invariant 0 <= i <= |items|
      invariant r == response + Concat(Bullets(items[..i]))
    {
      BulletsStep(response, items, i);
      r := r + Bullet(items[i]);
      i := i + 1;
    }
    assert items[..i] == items;
  }

  /** One more pass of the bullet loop appends the next item's bullet. */
  lemma BulletsStep(response: string, items: seq<string>, i: nat)
    requires i < |items|
    ensures response + Concat(Bullets(items[..i])) + Bullet(items[i]) == response + Concat(Bullets(items[..i + 1]))
  {
    assert Bullets(items[..i + 1]) == Bullets(items[..i]) + [Bullet(items[i])];
    ConcatSnoc(Bullets(items[..i]), Bullet(items[i]));
  }

  /** The title, the bullet loop and the closing `"\n"`. */
  method AppendSection(response: string, title: string, items: seq<string>) returns (r: string)
    ensures r == response + Concat(BulletSection(title, items))
  {
    r := response + title;
    r := AppendBullets(r, items);
    r := r + "\n";
    ConcatAppend([title], Bullets(items));
    ConcatSingle(title);
    ConcatSnoc([title] + Bullets(items), "\n");
  }

  // ------------------------------------------------------ product detail

  const FeaturesTitle: string := "**Key Features:**\n"
  const PlatformsTitle: string := "**Supported Platforms:**\n"
  const IntegrationsTitle: string := "**Integrations:**\n"
  const RelatedTitle: string := "**Related Products:**\n"

  function PlatformSection(info: ProductInfo): seq<string>
  {
    if info.technicalDetails.Some? && info.technicalDetails.value.platforms.Some?
    then BulletSection(PlatformsTitle, info.technicalDetails.value.platforms.value)
    else []
  }

  function IntegrationSection(info: ProductInfo): seq<string>
  {
    if info.technicalDetails.Some? && info.technicalDetails.value.integrations.Some?
    then BulletSection(IntegrationsTitle, info.technicalDetails.value.integrations.value)
    else []
  }

  /** `relatedProducts?.length` is falsy both when the list is absent and when it is empty. */
  function RelatedSection(info: ProductInfo): seq<string>
  {
    if info.relatedProducts.Some? && |info.relatedProducts.value| > 0
    then BulletSection(RelatedTitle, info.relatedProducts.value)
    else []
  }

  function NameLine(name: string): string { "**" + name + "**\n\n" }

  function LinkLine(info: ProductInfo): string { "For more details, visit: " + info.url + "\n\n" }

  function DescriptionLine(info: ProductInfo): string { info.description + "\n\n" }

  function CategoryLine(info: ProductInfo): string { "**Category:** " + CategoryName(info.category) + "\n\n" }

  /** The name, description and category lines. */
  function HeadPieces(name: string, info: ProductInfo): seq<string>
  {
    [NameLine(name), DescriptionLine(info), CategoryLine(info)]
  }

  /** The pieces `generateProductResponse` appends for a known product, in order. */
  function ResponsePieces(name: string, info: ProductInfo): (r: seq<string>)
    ensures |r| >= 6 + |info.keyFeatures|
    ensures r[0] == NameLine(name) && r[|r| - 1] == LinkLine(info)
  {
    HeadPieces(name, info)
    + BulletSection(FeaturesTitle, info.keyFeatures)
    + PlatformSection(info) + IntegrationSection(info) + RelatedSection(info)
    + [LinkLine(info)]
  }

  /** The detail block's text, part by part. */
  lemma ResponseText(name: string, info: ProductInfo)
    ensures Concat(ResponsePieces(name, info)) ==
      NameLine(name) + DescriptionLine(info) + CategoryLine(info)
      + Concat(BulletSection(FeaturesTitle, info.keyFeatures))
      + Concat(PlatformSection(info)) + Concat(IntegrationSection(info)) + Concat(RelatedSection(info))
      + LinkLine(info)
  {
    var h := HeadPieces(name, info);
    var f := BulletSection(FeaturesTitle, info.keyFeatures);
    var p, i, r := PlatformSection(info), IntegrationSection(info), RelatedSection(info);
    ConcatSnoc(h + f + p + i + r, LinkLine(info));
    ConcatAppend(h + f + p + i, r);
    ConcatAppend(h + f + p, i);
    ConcatAppend(h + f, p);
    ConcatAppend(h, f);
    assert Concat(h) == NameLine(name) + DescriptionLine(info) + CategoryLine(info) by {
      ConcatSingle(NameLine(name));
      ConcatSnoc([NameLine(name)], DescriptionLine(info));
      ConcatSnoc([NameLine(name), DescriptionLine(info)], CategoryLine(info));
      assert [NameLine(name)] + [DescriptionLine(info)] == [NameLine(name), DescriptionLine(info)];
      assert [NameLine(name), DescriptionLine(info)] + [CategoryLine(info)] == h;
    }
  }

  /** The block opens with the bold name and closes with the link line, so it is never empty. */
  lemma ResponseFraming(name: string, info: ProductInfo)
    ensures StartsWith(Concat(ResponsePieces(name, info)), NameLine(name))
    ensures EndsWith(Concat(ResponsePieces(name, info)), LinkLine(info))
    ensures Concat(ResponsePieces(name, info)) != []
  {
    var pieces := ResponsePieces(name, info);
    PieceAt(pieces, 0);
    assert pieces[..0] == [];
    var text := Concat(pieces);
    assert text == Concat(pieces[..|pieces| - 1]) + LinkLine(info);
    assert text[|text| - |LinkLine(info)|..] == LinkLine(info);
  }

  /** Piece `4 + j` of the block is the bullet of feature `j`. */
  lemma FeatureBulletAt(name: string, info: ProductInfo, j: nat)
    requires j < |info.keyFeatures|
    ensures 4 + j < |ResponsePieces(name, info)|
    ensures ResponsePieces(name, info)[4 + j] == Bullet(info.keyFeatures[j])
  {
    var section := BulletSection(FeaturesTitle, info.keyFeatures);
    assert section[1 + j] == Bullet(info.keyFeatures[j]);
    var front := HeadPieces(name, info) + section;
    assert front[4 + j] == section[1 + j];
    var rest := PlatformSection(info) + IntegrationSection(info) + RelatedSection(info) + [LinkLine(info)];
    assert ResponsePieces(name, info) == front + rest;
  }

  /** Every key feature gets its own bullet in the response. */
  lemma FeaturesListed(name: string, info: ProductInfo)
    ensures forall f :: f in info.keyFeatures ==> Contains(Concat(ResponsePieces(name, info)), Bullet(f))
  {
    var pieces := ResponsePieces(name, info);
    var fs := info.keyFeatures;
    forall f | f in fs ensures Contains(Concat(pieces), Bullet(f)) {
      var j :| 0 <= j < |fs| && fs[j] == f;
      FeatureBulletAt(name, info, j);
      PieceIn(pieces, pieces[4 + j]);
    }
  }

  /** The feature bullets follow the order of the list. */
  lemma FeaturesOrdered(name: string, info: ProductInfo)
    ensures forall j, k :: 0 <= j < k < |info.keyFeatures| ==>
      Before(Concat(ResponsePieces(name, info)), Bullet(info.keyFeatures[j]), Bullet(info.keyFeatures[k]))
  {
    var pieces := ResponsePieces(name, info);
    var fs := info.keyFeatures;
    forall j: nat, k: nat | j < k < |fs|
      ensures Before(Concat(pieces), Bullet(fs[j]), Bullet(fs[k]))
    {
      FeaturePairOrdered(name, info, j, k);
    }
  }

  lemma FeaturePairOrdered(name: string, info: ProductInfo, j: nat, k: nat)
    requires j < k < |info.keyFeatures|
    ensures Before(Concat(ResponsePieces(name, info)), Bullet(info.keyFeatures[j]), Bullet(info.keyFeatures[k]))
  {
    FeatureBulletAt(name, info, j);
    FeatureBulletAt(name, info, k);
    PiecesBefore(ResponsePieces(name, info), 4 + j, 4 + k);
  }

  /** A piece that is not a section title: a blank line, a line ending in a blank line, or a bullet. */
  predicate PlainPiece(p: string)
  {
    p == "\n" || (|p| >= 2 && p[|p| - 2..] == "\n\n") || (|p| >= 1 && p[0] == '-')
  }

  lemma TitlesAreNotPlain()
    ensures !PlainPiece(FeaturesTitle) && !PlainPiece(PlatformsTitle)
    ensures !PlainPiece(IntegrationsTitle) && !PlainPiece(RelatedTitle)
  {
    assert FeaturesTitle[|FeaturesTitle| - 2] == '*';
    assert PlatformsTitle[|PlatformsTitle| - 2] == '*';
    assert IntegrationsTitle[|IntegrationsTitle| - 2] == '*';
    assert RelatedTitle[|RelatedTitle| - 2] == '*';
  }

  lemma HeadIsPlain(name: string, info: ProductInfo)
    ensures forall p :: p in HeadPieces(name, info) + [LinkLine(info)] ==> PlainPiece(p)
  {
    var n, d, c, l := NameLine(name), DescriptionLine(info), CategoryLine(info), LinkLine(info);
    assert n[|n| - 2..] == "\n\n";
    assert d[|d| - 2..] == "\n\n";
    assert c[|c| - 2..] == "\n\n";
    assert l[|l| - 2..] == "\n\n";
  }

  /** A title that is not plain occurs in a bullet section only as that section's own title. */
  lemma TitleInSection(t: string, title: string, items: seq<string>)
    requires !PlainPiece(t)
    ensures t in BulletSection(title, items) <==> t == title
  {
    forall i | 0 <= i < |items| ensures PlainPiece(Bullets(items)[i]) {
      assert Bullets(items)[i][0] == '-';
    }
  }

  /**
   * The platform and integration sections appear exactly when the product has
   * technical details with that field (an empty list still prints its title);
   * the related-products section exactly when the list is present and non-empty.
   */
  lemma SectionsPresentIff(name: string, info: ProductInfo)
    ensures PlatformsTitle in ResponsePieces(name, info) <==>
      info.technicalDetails.Some? && info.technicalDetails.value.platforms.Some?
    ensures IntegrationsTitle in ResponsePieces(name, info) <==>
      info.technicalDetails.Some? && info.technicalDetails.value.integrations.Some?
    ensures RelatedTitle in ResponsePieces(name, info) <==>
      info.relatedProducts.Some? && |info.relatedProducts.value| > 0
  {
    TitlesAreNotPlain();
    HeadIsPlain(name, info);
    var outer := HeadPieces(name, info) + [LinkLine(info)];
    var f, p, i, r := BulletSection(FeaturesTitle, info.keyFeatures), PlatformSection(info),
      IntegrationSection(info), RelatedSection(info);
    assert ResponsePieces(name, info) == HeadPieces(name, info) + f + p + i + r + [LinkLine(info)];
    forall t | t in [PlatformsTitle, IntegrationsTitle, RelatedTitle]
      ensures t in ResponsePieces(name, info) <==> t in f || t in p || t in i || t in r
    {
      assert t !in outer;
    }
    TitleInSection(PlatformsTitle, FeaturesTitle, info.keyFeatures);
    TitleInSection(IntegrationsTitle, FeaturesTitle, info.keyFeatures);
    TitleInSection(RelatedTitle, FeaturesTitle, info.keyFeatures);
    if p != [] {
      var items := info.technicalDetails.value.platforms.value;
      TitleInSection(PlatformsTitle, PlatformsTitle, items);
      TitleInSection(IntegrationsTitle, PlatformsTitle, items);
      TitleInSection(RelatedTitle, PlatformsTitle, items);
    }
    if i != [] {
      var items := info.technicalDetails.value.integrations.value;
      TitleInSection(PlatformsTitle, IntegrationsTitle, items);
      TitleInSection(IntegrationsTitle, IntegrationsTitle, items);
      TitleInSection(RelatedTitle, IntegrationsTitle, items);
    }
    if r != [] {
      var items := info.relatedProducts.value;
      TitleInSection(PlatformsTitle, RelatedTitle, items);
      TitleInSection(IntegrationsTitle, RelatedTitle, items);
      TitleInSection(RelatedTitle, RelatedTitle, items);
    }
  }

  /** A section that is present shows up in the text as its title line. */
  lemma PresentSectionIsShown(name: string, info: ProductInfo, title: string)
    requires title in ResponsePieces(name, info)
    ensures Contains(Concat(ResponsePieces(name, info)), title)
  {
    PieceIn(ResponsePieces(name, info), title);
  }

  /** `generateProductResponse`: `''` for a name the catalog lacks, the detail block otherwise. */
  method GenerateProductResponse(productName: string) returns (response: string)
    ensures Lookup(ArcadProducts, productName).None? ==> response == ""
    ensures Lookup(ArcadProducts, productName).Some? ==>
      response == Concat(ResponsePieces(productName, Lookup(ArcadProducts, productName).value))
  {
    var found := Lookup(ArcadProducts, productName);
    if found.None? {
      return "";
    }
    response := DetailBlock(productName, found.value);
  }

  /** The body of `generateProductResponse` once the product's info is found. */
  method DetailBlock(productName: string, info: ProductInfo) returns (response: string)
    ensures response == Concat(ResponsePieces(productName, info))
  {
    response := NameLine(productName);
    response := response + DescriptionLine(info);
    response := response + CategoryLine(info);
    response := AppendSection(response, FeaturesTitle, info.keyFeatures);
    response := AppendTechnicalDetails(response, info);
    response := AppendRelated(response, info);
    response := response + LinkLine(info);
    ResponseText(productName, info);
  }

  /** The `if (productInfo.technicalDetails)` block: platforms, then integrations. */
  method AppendTechnicalDetails(response: string, info: ProductInfo) returns (r: string)
    ensures r == response + Concat(PlatformSection(info)) + Concat(IntegrationSection(info))
  {
    r := response;
    if info.technicalDetails.Some? {
      if info.technicalDetails.value.platforms.Some? {
        r := AppendSection(r, PlatformsTitle, info.technicalDetails.value.platforms.value);
      }
      if info.technicalDetails.value.integrations.Some? {
        r := AppendSection(r, IntegrationsTitle, info.technicalDetails.value.integrations.value);
      }
    }
  }

  /** The `if (productInfo.relatedProducts?.length)` block. */
  method AppendRelated(response: string, info: ProductInfo) returns (r: string)
    ensures r == response + Concat(RelatedSection(info))
  {
    r := response;
    if info.relatedProducts.Some? && |info.relatedProducts.value| > 0 {
      r := AppendSection(r, RelatedTitle, info.relatedProducts.value);
    }
  }

  // ----------------------------------------------------------- comparison

  /** A `- key: value\n` line. */
  function Labeled(key: string, value: string): string
  {
    "- " + key + ": " + value + "\n"
  }

  function CompareIntro(product1: string, product2: string): string
  {
    "Let me compare **" + product1 + "** and **" + product2 + "** for you:\n\n"
  }

  /** The pieces from the opening line up to the first product's feature heading. */
  function ComparisonHead(product1: string, info1: ProductInfo, product2: string, info2: ProductInfo): seq<string>
  {
    [CompareIntro(product1, product2),
     "**Categories:**\n",
     Labeled(product1, CategoryName(info1.category)),
     Labeled(product2, CategoryName(info2.category)) + "\n",
     "**Purpose:**\n",
     Labeled(product1, info1.description),
     Labeled(product2, info2.description) + "\n",
     "**Key Features Comparison:**\n\n",
     "*" + product1 + ":*\n"]
  }

  function SecondFeaturesHeading(product2: string): string { "\n*" + product2 + ":*\n" }

  /** The closing pieces: a blank line, the heading and the two links. */
  function ComparisonTail(product1: string, info1: ProductInfo, product2: string, info2: ProductInfo): seq<string>
  {
    ["\n", "For more detailed information:\n", Labeled(product1, info1.url), Labeled(product2, info2.url)]
  }

  /** The pieces `generateProductComparison` appends for two known products, in order. */
  function ComparisonPieces(product1: string, info1: ProductInfo, product2: string, info2: ProductInfo): (r: seq<string>)
    ensures |r| == 14 + |info1.keyFeatures| + |info2.keyFeatures|
    ensures r[0] == CompareIntro(product1, product2) && r[|r| - 1] == Labeled(product2, info2.url)
  {
    ComparisonHead(product1, info1, product2, info2)
    + Bullets(info1.keyFeatures)
    + [SecondFeaturesHeading(product2)]
    + Bullets(info2.keyFeatures)
    + ComparisonTail(product1, info1, product2, info2)
  }

  /** `generateProductComparison`: `''` unless both names are in the catalog. */
  method GenerateProductComparison(product1: string, product2: string) returns (response: string)
    ensures Lookup(ArcadProducts, product1).None? || Lookup(ArcadProducts, product2).None? ==> response == ""
    ensures Lookup(ArcadProducts, product1).Some? && Lookup(ArcadProducts, product2).Some? ==>
      response == Concat(ComparisonPieces(product1, Lookup(ArcadProducts, product1).value,
                                          product2, Lookup(ArcadProducts, product2).value))
  {
    var found1 := Lookup(ArcadProducts, product1);
    var found2 := Lookup(ArcadProducts, product2);
    if found1.None? || found2.None? {
      return "";
    }
    response := ComparisonBlock(product1, found1.value, product2, found2.value);
  }

  /** The opening pieces' text, line by line. */
  lemma ComparisonHeadText(product1: string, info1: ProductInfo, product2: string, info2: ProductInfo)
    ensures Concat(ComparisonHead(product1, info1, product2, info2)) ==
      CompareIntro(product1, product2) + "**Categories:**\n"
      + Labeled(product1, CategoryName(info1.category)) + (Labeled(product2, CategoryName(info2.category)) + "\n")
      + "**Purpose:**\n" + Labeled(product1, info1.description) + (Labeled(product2, info2.description) + "\n")
      + "**Key Features Comparison:**\n\n" + ("*" + product1 + ":*\n")
  {
    ConcatNine(CompareIntro(product1, product2), "**Categories:**\n",
      Labeled(product1, CategoryName(info1.category)), Labeled(product2, CategoryName(info2.category)) + "\n",
      "**Purpose:**\n", Labeled(product1, info1.description), Labeled(product2, info2.description) + "\n",
      "**Key Features Comparison:**\n\n", "*" + product1 + ":*\n");
  }

  /** The comparison's text: the opening, both feature lists and the closing pieces, in append order. */
  lemma ComparisonText(product1: string, info1: ProductInfo, product2: string, info2: ProductInfo)
    ensures Concat(ComparisonPieces(product1, info1, product2, info2)) ==
      Concat(ComparisonHead(product1, info1, product2, info2))
      + Concat(Bullets(info1.keyFeatures)) + SecondFeaturesHeading(product2) + Concat(Bullets(info2.keyFeatures))
      + "\n" + "For more detailed information:\n" + Labeled(product1, info1.url) + Labeled(product2, info2.url)
  {
    var head := ComparisonHead(product1, info1, product2, info2);
    var b1, b2 := Bullets(info1.keyFeatures), Bullets(info2.keyFeatures);
    var h2 := SecondFeaturesHeading(product2);
    var l1, l2 := Labeled(product1, info1.url), Labeled(product2, info2.url);
    ConcatAppend(head, b1);
    ConcatSnoc(head + b1, h2);
    ConcatAppend(head + b1 + [h2], b2);
    var body := head + b1 + [h2] + b2;
    ConcatSnoc(body, "\n");
    ConcatSnoc(body + ["\n"], "For more detailed information:\n");
    ConcatSnoc(body + ["\n"] + ["For more detailed information:\n"], l1);
    ConcatSnoc(body + ["\n"] + ["For more detailed information:\n"] + [l1], l2);
    assert ComparisonPieces(product1, info1, product2, info2) ==
      body + ["\n"] + ["For more detailed information:\n"] + [l1] + [l2];
  }

  /** The body of `generateProductComparison` once both products are found. */
  method ComparisonBlock(product1: string, info1: ProductInfo, product2: string, info2: ProductInfo)
    returns (response: string)
    ensures response == Concat(ComparisonPieces(product1, info1, product2, info2))
  {
    response := CompareIntro(product1, product2);
    response := response + "**Categories:**\n";
    response := response + Labeled(product1, CategoryName(info1.category));
    response := response + (Labeled(product2, CategoryName(info2.category)) + "\n");
    response := response + "**Purpose:**\n";
    response := response + Labeled(product1, info1.description);
    response := response + (Labeled(product2, info2.description) + "\n");
    response := response + "**Key Features Comparison:**\n\n";
    response := response + ("*" + product1 + ":*\n");
    ComparisonHeadText(product1, info1, product2, info2);
    response := AppendBullets(response, info1.keyFeatures);
    response := response + SecondFeaturesHeading(product2);
    response := AppendBullets(response, info2.keyFeatures);
    response := response + "\n";
    response := response + "For more detailed information:\n";
    response := response + Labeled(product1, info1.url);
    response := response + Labeled(product2, info2.url);
    ComparisonText(product1, info1, product2, info2);
  }

  /** Where each line of the comparison sits in its piece sequence. */
  lemma ComparisonLayout(product1: string, info1: ProductInfo, product2: string, info2: ProductInfo)
    ensures var pieces := ComparisonPieces(product1, info1, product2, info2);
      var n1, n2 := |info1.keyFeatures|, |info2.keyFeatures|;
      && |pieces| == 14 + n1 + n2
      && pieces[0] == CompareIntro(product1, product2)
      && pieces[2] == Labeled(product1, CategoryName(info1.category))
      && pieces[3] == Labeled(product2, CategoryName(info2.category)) + "\n"
      && pieces[5] == Labeled(product1, info1.description)
      && pieces[6] == Labeled(product2, info2.description) + "\n"
      && pieces[8] == "*" + product1 + ":*\n"
      && (forall j :: 0 <= j < n1 ==> pieces[9 + j] == Bullet(info1.keyFeatures[j]))
      && pieces[9 + n1] == SecondFeaturesHeading(product2)
      && (forall j :: 0 <= j < n2 ==> pieces[10 + n1 + j] == Bullet(info2.keyFeatures[j]))
      && pieces[12 + n1 + n2] == Labeled(product1, info1.url)
      && pieces[13 + n1 + n2] == Labeled(product2, info2.url)
  {
    var head := ComparisonHead(product1, info1, product2, info2);
    var b1, b2 := Bullets(info1.keyFeatures), Bullets(info2.keyFeatures);
    var front := head + b1 + [SecondFeaturesHeading(product2)];
    assert forall j :: 0 <= j < |b1| ==> front[9 + j] == b1[j];
    var body := front + b2;
    assert forall j :: 0 <= j < |b2| ==> body[|front| + j] == b2[j];
  }

  /** The comparison opens with the introduction and closes with the second product's link. */
  lemma ComparisonFraming(product1: string, info1: ProductInfo, product2: string, info2: ProductInfo)
    ensures StartsWith(Concat(ComparisonPieces(product1, info1, product2, info2)), CompareIntro(product1, product2))
    ensures EndsWith(Concat(ComparisonPieces(product1, info1, product2, info2)), Labeled(product2, info2.url))
  {
    var pieces := ComparisonPieces(product1, info1, product2, info2);
    var text := Concat(pieces);
    ComparisonLayout(product1, info1, product2, info2);
    PieceAt(pieces, 0);
    assert pieces[..0] == [];
    assert text == Concat(pieces[..|pieces| - 1]) + Labeled(product2, info2.url);
    assert text[|text| - |Labeled(product2, info2.url)|..] == Labeled(product2, info2.url);
  }

  /** In the categories, purpose and links sections the first product's line comes before the second's. */
  lemma ComparisonLinesInOrder(product1: string, info1: ProductInfo, product2: string, info2: ProductInfo)
    ensures var text := Concat(ComparisonPieces(product1, info1, product2, info2));
      && Before(text, Labeled(product1, CategoryName(info1.category)),
                      Labeled(product2, CategoryName(info2.category)) + "\n")
      && Before(text, Labeled(product1, info1.description), Labeled(product2, info2.description) + "\n")
      && Before(text, Labeled(product1, info1.url), Labeled(product2, info2.url))
  {
    var pieces := ComparisonPieces(product1, info1, product2, info2);
    var n1, n2 := |info1.keyFeatures|, |info2.keyFeatures|;
    ComparisonLayout(product1, info1, product2, info2);
    PiecesBefore(pieces, 2, 3);
    PiecesBefore(pieces, 5, 6);
    PiecesBefore(pieces, 12 + n1 + n2, 13 + n1 + n2);
  }

  /** Every feature of the first product is listed before the second product's heading, every feature of the second after it. */
  lemma ComparisonFeaturesInOrder(product1: string, info1: ProductInfo, product2: string, info2: ProductInfo)
    ensures var text := Concat(ComparisonPieces(product1, info1, product2, info2));
      && Before(text, "*" + product1 + ":*\n", SecondFeaturesHeading(product2))
      && (forall f :: f in info1.keyFeatures ==> Before(text, Bullet(f), SecondFeaturesHeading(product2)))
      && (forall f :: f in info2.keyFeatures ==> Before(text, SecondFeaturesHeading(product2), Bullet(f)))
  {
    var pieces := ComparisonPieces(product1, info1, product2, info2);
    var text := Concat(pieces);
    var n1, n2 := |info1.keyFeatures|, |info2.keyFeatures|;
    assert Before(text, "*" + product1 + ":*\n", SecondFeaturesHeading(product2)) by {
      ComparisonLayout(product1, info1, product2, info2);
      PiecesBefore(pieces, 8, 9 + n1);
    }
    forall f | f in info1.keyFeatures ensures Before(text, Bullet(f), SecondFeaturesHeading(product2)) {
      var j :| 0 <= j < n1 && info1.keyFeatures[j] == f;
      ComparisonLayout(product1, info1, product2, info2);
      PiecesBefore(pieces, 9 + j, 9 + n1);
    }
    forall f | f in info2.keyFeatures ensures Before(text, SecondFeaturesHeading(product2), Bullet(f)) {
      var j :| 0 <= j < n2 && info2.keyFeatures[j] == f;
      ComparisonLayout(product1, info1, product2, info2);
      PiecesBefore(pieces, 9 + n1, 10 + n1 + j);
    }
  }

  // -------------------------------------------------------------- listing

  /** The categories of `es` in the order each first occurs: the key order of the grouping `Map`. */
  function CategoryOrder(es: seq<Entry>): (r: seq<Category>)
    ensures NoDuplicates(r)
  {
    if es == [] then []
    else
      var order := CategoryOrder(es[..|es| - 1]);
      var c := es[|es| - 1].info.category;
      if c in order then order else order + [c]
  }

  /** The entries of category `c`, in catalog order: the array the grouping `Map` holds for `c`. */
  function InCategory(es: seq<Entry>, c: Category): (r: seq<Entry>)
    ensures forall e :: e in r ==> e in es && e.info.category == c
  {
    if es == [] then []
    else
      var init := InCategory(es[..|es| - 1], c);
      var e := es[|es| - 1];
      if e.info.category == c then init + [e] else init
  }

  predicate NoDuplicates<T(==)>(s: seq<T>)
  {
    forall a, b :: 0 <= a < b < |s| ==> s[a] != s[b]
  }

  /**
   * The `Object.entries(...).forEach` loop that fills `productsByCategory`:
   * a category gets an empty array the first time it is seen, then every
   * entry is pushed onto its category's array. A JavaScript `Map` remembers
   * insertion order, so the model returns that order beside the map.
   */
  method GroupByCategory(es: seq<Entry>) returns (order: seq<Category>, groups: map<Category, seq<Entry>>)
    ensures order == CategoryOrder(es)
    ensures forall c :: c in groups <==> c in order
    ensures forall c :: c in groups ==> groups[c] == InCategory(es, c)
  {
    order, groups := [], map[];
    var i := 0;
    while i < |es|
      invariant 0 <= i <= |es|
      invariant order == CategoryOrder(es[..i])
      invariant forall c :: c in groups <==> c in order
      invariant forall c :: c in groups ==> groups[c] == InCategory(es[..i], c)
    {
      ghost var order0, groups0 := order, groups;
      order, groups := AddToGroup(order, groups, es[i]);
      GroupingStep(es, i, order0, groups0, order, groups);
      i := i + 1;
    }
    assert es[..i] == es;
  }

  /** The `forEach` callback: open the category's array if it is new, then push the entry onto it. */
  method AddToGroup(order: seq<Category>, groups: map<Category, seq<Entry>>, e: Entry)
    returns (order': seq<Category>, groups': map<Category, seq<Entry>>)
    ensures var c := e.info.category;
      && order' == (if c in groups then order else order + [c])
      && groups' == groups[c := (if c in groups then groups[c] else []) + [e]]
  {
    var c := e.info.category;
    order', groups' := order, groups;
    if c !in groups' {
      groups' := groups'[c := []];
      order' := order' + [c];
    }
    groups' := groups'[c := groups'[c] + [e]];
  }

  /** One pass of the grouping loop keeps the order and the arrays in step with the entries seen. */
  lemma GroupingStep(es: seq<Entry>, i: int, order: seq<Category>, groups: map<Category, seq<Entry>>,
                     order': seq<Category>, groups': map<Category, seq<Entry>>)
    requires 0 <= i < |es|
    requires order == CategoryOrder(es[..i])
    requires forall c :: c in groups <==> c in order
    requires forall c :: c in groups ==> groups[c] == InCategory(es[..i], c)
    requires var c := es[i].info.category;
      && order' == (if c in groups then order else order + [c])
      && groups' == groups[c := (if c in groups then groups[c] else []) + [es[i]]]
    ensures order' == CategoryOrder(es[..i + 1])
    ensures forall c :: c in groups' <==> c in order'
    ensures forall c :: c in groups' ==> groups'[c] == InCategory(es[..i + 1], c)
  {
    var c := es[i].info.category;
    CategoryOrderStep(es, i);
    InCategoryStep(es, i);
    if c !in groups {
      UnlistedCategoryIsEmpty(es[..i], c);
    }
  }

  /** One more entry appends its category to the order unless it is already there. */
  lemma CategoryOrderStep(es: seq<Entry>, i: int)
    requires 0 <= i < |es|
    ensures var c := es[i].info.category;
      var prev := CategoryOrder(es[..i]);
      CategoryOrder(es[..i + 1]) == if c in prev then prev else prev + [c]
  {
    assert es[..i + 1][..i] == es[..i];
  }

  /** One more entry joins the end of its own category's array and no other. */
  lemma InCategoryStep(es: seq<Entry>, i: int)
    requires 0 <= i < |es|
    ensures forall d :: InCategory(es[..i + 1], d) ==
                        InCategory(es[..i], d) + (if es[i].info.category == d then [es[i]] else [])
  {
    assert es[..i + 1][..i] == es[..i];
  }

  /** A category is listed exactly when some entry has it. */
  lemma {:induction false} CategoryOrderMembership(es: seq<Entry>, c: Category)
    ensures c in CategoryOrder(es) <==> exists i :: 0 <= i < |es| && es[i].info.category == c
  {
    if es != [] {
      var init := es[..|es| - 1];
      CategoryOrderMembership(init, c);
      if exists i :: 0 <= i < |init| && init[i].info.category == c {
        var i :| 0 <= i < |init| && init[i].info.category == c;
        assert es[i].info.category == c;
      }
      if exists i :: 0 <= i < |es| && es[i].info.category == c {
        var i :| 0 <= i < |es| && es[i].info.category == c;
        if i < |init| {
          assert init[i].info.category == c;
        }
      }
    }
  }

  /** Some entry before index `i` has category `c`. */
  predicate SeenBefore(es: seq<Entry>, c: Category, i: int)
  {
    exists j :: 0 <= j < i && j < |es| && es[j].info.category == c
  }

  /**
   * Wherever an entry of a later-listed category sits, an entry of every
   * earlier-listed category sits before it.
   */
  predicate ListedInFirstSeenOrder(es: seq<Entry>)
  {
    var order := CategoryOrder(es);
    forall a, b, i :: 0 <= a < b < |order| && 0 <= i < |es| && es[i].info.category == order[b] ==>
      SeenBefore(es, order[a], i)
  }

  /** Categories are listed in order of first occurrence. */
  lemma {:induction false} CategoryOrderFirstSeen(es: seq<Entry>)
    ensures ListedInFirstSeenOrder(es)
  {
    if es != [] {
      var init := es[..|es| - 1];
      var last := |es| - 1;
      var order := CategoryOrder(es);
      var prev := CategoryOrder(init);
      CategoryOrderFirstSeen(init);
      forall a, b, i | 0 <= a < b < |order| && 0 <= i < |es| && es[i].info.category == order[b]
        ensures SeenBefore(es, order[a], i)
      {
        FirstSeenStep(es, a, b, i);
      }
    }
  }

  /** The inductive step of `CategoryOrderFirstSeen` for one pair of listed categories and one entry. */
  lemma FirstSeenStep(es: seq<Entry>, a: int, b: int, i: int)
    requires es != []
    requires var init := es[..|es| - 1];
      var prev := CategoryOrder(init);
      0 <= a < b < |prev| ==>
        forall k :: 0 <= k < |init| && init[k].info.category == prev[b] ==> SeenBefore(init, prev[a], k)
    requires 0 <= a < b < |CategoryOrder(es)| && 0 <= i < |es| && es[i].info.category == CategoryOrder(es)[b]
    ensures SeenBefore(es, CategoryOrder(es)[a], i)
  {
    var init := es[..|es| - 1];
    var order := CategoryOrder(es);
    var prev := CategoryOrder(init);
    assert order[a] == prev[a];
    if b < |prev| {
      assert order[b] == prev[b];
      FirstSeenOldCategory(es, a, b, i);
    } else {
      FirstSeenNewCategory(es, a, i);
    }
  }

  /** The later category was already listed: the earlier one was seen before any of its entries. */
  lemma FirstSeenOldCategory(es: seq<Entry>, a: int, b: int, i: int)
    requires es != []
    requires var init := es[..|es| - 1];
      var prev := CategoryOrder(init);
      && 0 <= a < b < |prev| && 0 <= i < |es| && es[i].info.category == prev[b]
      && forall k :: 0 <= k < |init| && init[k].info.category == prev[b] ==> SeenBefore(init, prev[a], k)
    ensures SeenBefore(es, CategoryOrder(es[..|es| - 1])[a], i)
  {
    var init := es[..|es| - 1];
    var prev := CategoryOrder(init);
    if i < |init| {
      assert init[i].info.category == prev[b];
      assert SeenBefore(init, prev[a], i);
    } else {
      CategoryOrderMembership(init, prev[b]);
      var i' :| 0 <= i' < |init| && init[i'].info.category == prev[b];
      assert SeenBefore(init, prev[a], i');
    }
  }

  /** The last entry opened a new category: every category listed before it was seen earlier. */
  lemma FirstSeenNewCategory(es: seq<Entry>, a: int, i: int)
    requires es != []
    requires var prev := CategoryOrder(es[..|es| - 1]);
      0 <= a < |prev| && 0 <= i < |es| && es[i].info.category !in prev
    ensures SeenBefore(es, CategoryOrder(es[..|es| - 1])[a], i)
  {
    var init := es[..|es| - 1];
    var prev := CategoryOrder(init);
    CategoryOrderMembership(init, prev[a]);
    CategoryOrderMembership(init, es[i].info.category);
    var j :| 0 <= j < |init| && init[j].info.category == prev[a];
    assert es[j].info.category == prev[a];
  }

  /** One more entry adds itself to the end of its own category's array and nowhere else. */
  lemma InCategorySnoc(es: seq<Entry>, e: Entry, c: Category)
    ensures InCategory(es + [e], c) == InCategory(es, c) + (if e.info.category == c then [e] else [])
  {
    assert (es + [e])[..|es|] == es;
  }

  /** The arrays of the listed categories, one after the other: the entries in listing order. */
  function Grouped(es: seq<Entry>, order: seq<Category>): seq<Entry>
  {
    if order == [] then [] else Grouped(es, order[..|order| - 1]) + InCategory(es, order[|order| - 1])
  }

  lemma {:induction false} GroupedSnoc(es: seq<Entry>, e: Entry, order: seq<Category>)
    requires NoDuplicates(order)
    ensures multiset(Grouped(es + [e], order)) ==
      multiset(Grouped(es, order)) + (if e.info.category in order then multiset{e} else multiset{})
  {
    if order != [] {
      var init, c := order[..|order| - 1], order[|order| - 1];
      assert order == init + [c];
      assert c !in init;
      GroupedSnoc(es, e, init);
      InCategorySnoc(es, e, c);
      var before, after := Grouped(es, init), Grouped(es + [e], init);
      assert Grouped(es, order) == before + InCategory(es, c);
      assert Grouped(es + [e], order) == after + InCategory(es + [e], c);
      if e.info.category == c {
        assert multiset(after) == multiset(before);
        assert multiset(InCategory(es + [e], c)) == multiset(InCategory(es, c)) + multiset{e};
      } else {
        assert InCategory(es + [e], c) == InCategory(es, c);
        assert e.info.category in order <==> e.info.category in init;
      }
    }
  }

  /** A category no entry has gets an empty array. */
  lemma {:induction false} UnlistedCategoryIsEmpty(es: seq<Entry>, c: Category)
    requires c !in CategoryOrder(es)
    ensures InCategory(es, c) == []
  {
    if es != [] {
      UnlistedCategoryIsEmpty(es[..|es| - 1], c);
    }
  }

  /** Every entry appears in the grouped listing exactly as often as in the catalog: once per entry. */
  lemma {:induction false} GroupedIsPermutation(es: seq<Entry>)
    ensures multiset(Grouped(es, CategoryOrder(es))) == multiset(es)
  {
    if es != [] {
      var init := es[..|es| - 1];
      var e := es[|es| - 1];
      assert init + [e] == es;
      GroupedIsPermutation(init);
      GroupedSnoc(init, e, CategoryOrder(init));
      if e.info.category !in CategoryOrder(init) {
        NewCategoryGroup(init, e);
      }
    }
  }

  /** An entry of a category not seen before opens a group of its own, holding only it. */
  lemma NewCategoryGroup(init: seq<Entry>, e: Entry)
    requires e.info.category !in CategoryOrder(init)
    ensures multiset(Grouped(init + [e], CategoryOrder(init + [e]))) ==
      multiset(Grouped(init + [e], CategoryOrder(init))) + multiset{e}
  {
    var es, c, prev := init + [e], e.info.category, CategoryOrder(init);
    assert es[..|es| - 1] == init;
    assert CategoryOrder(es) == prev + [c];
    assert Grouped(es, prev + [c]) == Grouped(es, prev) + InCategory(es, c) by {
      assert (prev + [c])[..|prev|] == prev;
    }
    UnlistedCategoryIsEmpty(init, c);
    InCategorySnoc(init, e, c);
  }

  // ----------------------------------------------------- listing text

  /** The text after a product line's dash: the bold name and the description. */
  function ProductItem(e: Entry): string
  {
    "**" + e.name + "**: " + e.info.description
  }

  /** A product's listing line, `- **name**: description\n`. */
  function ProductLine(e: Entry): string
  {
    Bullet(ProductItem(e))
  }

  function ProductItems(products: seq<Entry>): (r: seq<string>)
    ensures |r| == |products|
    ensures forall i :: 0 <= i < |products| ==> r[i] == ProductItem(products[i])
  {
    seq(|products|, i requires 0 <= i < |products| => ProductItem(products[i]))
  }

  function CategoryHeading(c: Category): string
  {
    "**" + CategoryName(c) + "**\n"
  }

  /** One category's heading, its product lines and a blank line. */
  function CategoryBlock(c: Category, products: seq<Entry>): seq<string>
  {
    BulletSection(CategoryHeading(c), ProductItems(products))
  }

  /** The blocks of the categories in `order`, each holding that category's entries of `es`. */
  function Blocks(es: seq<Entry>, order: seq<Category>): seq<string>
  {
    if order == [] then []
    else
      var c := order[|order| - 1];
      Blocks(es, order[..|order| - 1]) + CategoryBlock(c, InCategory(es, c))
  }

  function ListingHeader(count: nat): string
  {
    "ARCAD Software offers " + DecimalString(count) + " powerful products for IBM i modernization and DevOps solutions.\n\n"
  }

  const Overview: string := "Here's an overview of our products by category:\n\n"

  const AskLine: string := "Would you like to know more about any specific product? Just ask!\n"
  const ExampleLine: string := "For example:\n"
  const TellExample: string := "- 'Tell me more about ARCAD-Skipper'\n"
  const FeaturesExample: string := "- 'What are the features of ARCAD-Observer?'\n"
  const CompareExample: string := "- 'Compare ARCAD-Transformer with ARCAD-CodeChecker'\n"

  const FooterLines: seq<string> := [AskLine, ExampleLine, TellExample, FeaturesExample, CompareExample]

  /** Appending the footer's pieces appends its five lines one after the other. */
  lemma FooterText(acc: seq<string>)
    ensures Concat(acc + FooterLines) ==
      Concat(acc) + AskLine + ExampleLine + TellExample + FeaturesExample + CompareExample
  {
    assert acc + FooterLines == acc + [AskLine] + [ExampleLine] + [TellExample] + [FeaturesExample] + [CompareExample];
    ConcatSnoc(acc, AskLine);
    ConcatSnoc(acc + [AskLine], ExampleLine);
    ConcatSnoc(acc + [AskLine] + [ExampleLine], TellExample);
    ConcatSnoc(acc + [AskLine] + [ExampleLine] + [TellExample], FeaturesExample);
    ConcatSnoc(acc + [AskLine] + [ExampleLine] + [TellExample] + [FeaturesExample], CompareExample);
  }

  /** The pieces `generateProductListByCategory` appends, in order, for the catalog `es`. */
  function ListingPieces(es: seq<Entry>): (r: seq<string>)
    ensures |r| >= 7
    ensures r[0] == ListingHeader(|es|) && r[1] == Overview
    ensures r[|r| - 5..] == FooterLines
  {
    [ListingHeader(|es|), Overview] + Blocks(es, CategoryOrder(es)) + FooterLines
  }

  /** Appending block `k` to the text of the first `k` blocks gives the text of the first `k + 1`. */
  lemma BlocksStep(response: string, es: seq<Entry>, order: seq<Category>, k: nat)
    requires k < |order|
    ensures response + Concat(Blocks(es, order[..k])) + Concat(CategoryBlock(order[k], InCategory(es, order[k]))) ==
      response + Concat(Blocks(es, order[..k + 1]))
  {
    var done, block := Blocks(es, order[..k]), CategoryBlock(order[k], InCategory(es, order[k]));
    assert order[..k + 1][..k] == order[..k];
    ConcatAppend(done, block);
  }

  /** One category's `forEach`: heading, one line per product, blank line. */
  method AppendCategoryBlock(response: string, c: Category, products: seq<Entry>) returns (r: string)
    ensures r == response + Concat(CategoryBlock(c, products))
  {
    r := AppendSection(response, CategoryHeading(c), ProductItems(products));
  }

  /** `productsByCategory.forEach(...)`: one block per category, in the map's key order. */
  method AppendBlocks(response: string, es: seq<Entry>, order: seq<Category>, groups: map<Category, seq<Entry>>)
    returns (r: string)
    requires forall c :: c in order ==> c in groups && groups[c] == InCategory(es, c)
    ensures r == response + Concat(Blocks(es, order))
  {
    r := response;
    var k := 0;
    while k < |order|
      invariant 0 <= k <= |order|
      invariant r == response + Concat(Blocks(es, order[..k]))
    {
      var c := order[k];
      BlocksStep(response, es, order, k);
      r := AppendCategoryBlock(r, c, groups[c]);
      k := k + 1;
    }
    assert order[..k] == order;
  }

  /**
   * `generateProductListByCategory` over the catalog `es`: the count line,
   * the overview line, one block per category in first-seen order, then the
   * fixed footer.
   */
  method ListByCategory(es: seq<Entry>) returns (r: string)
    ensures r == Concat(ListingPieces(es))
  {
    var order, groups := GroupByCategory(es);
    ghost var head := [ListingHeader(|es|), Overview];
    r := ListingHeader(|es|);
    r := r + Overview;
    assert r == Concat(head) by {
      ConcatSingle(ListingHeader(|es|));
      ConcatSnoc([ListingHeader(|es|)], Overview);
      assert [ListingHeader(|es|)] + [Overview] == head;
    }
    r := AppendBlocks(r, es, order, groups);
    ConcatAppend(head, Blocks(es, order));
    r := r + AskLine;
    r := r + ExampleLine;
    r := r + TellExample;
    r := r + FeaturesExample;
    r := r + CompareExample;
    FooterText(head + Blocks(es, order));
  }

  /** `generateProductListByCategory()` over the product table. */
  method GenerateProductListByCategory() returns (r: string)
    ensures r == Concat(ListingPieces(ArcadProducts))
  {
    r := ListByCategory(ArcadProducts);
  }

  // ------------------------------------------------ listing properties

  /** The listing opens with the count line and closes with the last example question. */
  lemma ListingFraming(es: seq<Entry>)
    ensures StartsWith(Concat(ListingPieces(es)), ListingHeader(|es|))
    ensures EndsWith(Concat(ListingPieces(es)), CompareExample)
  {
    var pieces := ListingPieces(es);
    ConcatFraming(pieces);
    assert pieces[|pieces| - 1] == CompareExample by {
      assert pieces[|pieces| - 5..][4] == pieces[|pieces| - 1];
    }
  }

  /** Every entry sits in its own category's array. */
  lemma {:induction false} InOwnCategory(es: seq<Entry>, e: Entry)
    requires e in es
    ensures e in InCategory(es, e.info.category)
  {
    var init := es[..|es| - 1];
    if e != es[|es| - 1] {
      assert es == init + [es[|es| - 1]];
      InOwnCategory(init, e);
    }
  }

  /** A category in `order` contributes every line of its block. */
  lemma {:induction false} BlockInBlocks(es: seq<Entry>, order: seq<Category>, c: Category, p: string)
    requires c in order
    requires p in CategoryBlock(c, InCategory(es, c))
    ensures p in Blocks(es, order)
  {
    var init := order[..|order| - 1];
    if c != order[|order| - 1] {
      assert c in init by {
        assert order == init + [order[|order| - 1]];
      }
      BlockInBlocks(es, init, c, p);
    }
  }

  /** Each category's product lines are its entries' lines, one per entry. */
  lemma ProductLineInBlock(c: Category, products: seq<Entry>, e: Entry)
    requires e in products
    ensures ProductLine(e) in CategoryBlock(c, products)
  {
    var j :| 0 <= j < |products| && products[j] == e;
    assert CategoryBlock(c, products)[1 + j] == Bullet(ProductItems(products)[j]);
  }

  /** Every entry of the catalog gets its line in the listing. */
  lemma EveryProductListed(es: seq<Entry>, e: Entry)
    requires e in es
    ensures ProductLine(e) in ListingPieces(es)
    ensures Contains(Concat(ListingPieces(es)), ProductLine(e))
  {
    var c := e.info.category;
    var i :| 0 <= i < |es| && es[i] == e;
    CategoryOrderMembership(es, c);
    InOwnCategory(es, e);
    ProductLineInBlock(c, InCategory(es, c), e);
    BlockInBlocks(es, CategoryOrder(es), c, ProductLine(e));
    PieceIn(ListingPieces(es), ProductLine(e));
  }

  /** A line of the block of category `c` is its heading, the closing blank line or the line of one of `products`. */
  predicate BlockLine(c: Category, products: seq<Entry>, p: string)
  {
    p == CategoryHeading(c) || p == "\n" || exists e :: e in products && p == ProductLine(e)
  }

  lemma BlockLines(c: Category, products: seq<Entry>, p: string)
    requires p in CategoryBlock(c, products)
    ensures BlockLine(c, products, p)
  {
    var block := CategoryBlock(c, products);
    var k :| 0 <= k < |block| && block[k] == p;
    if 0 < k < |block| - 1 {
      assert p == ProductLine(products[k - 1]);
    }
  }

  /**
   * The listing holds nothing but its fixed lines, category headings and the
   * lines of catalog entries: no product line is made up.
   */
  lemma {:induction false} BlocksHoldOnlyCatalogLines(es: seq<Entry>, order: seq<Category>, p: string)
    requires p in Blocks(es, order)
    ensures p == "\n" || (exists c :: c in order && p == CategoryHeading(c)) ||
      exists e :: e in es && p == ProductLine(e)
  {
    var init, c := order[..|order| - 1], order[|order| - 1];
    assert Blocks(es, order) == Blocks(es, init) + CategoryBlock(c, InCategory(es, c));
    if p in Blocks(es, init) {
      BlocksHoldOnlyCatalogLines(es, init, p);
      if exists d :: d in init && p == CategoryHeading(d) {
        var d :| d in init && p == CategoryHeading(d);
        assert d in order;
      }
    } else {
      BlockLines(c, InCategory(es, c), p);
    }
  }

  /** A piece that is a bullet line: it starts with `-`. */
  predicate IsBulletPiece(p: string)
  {
    |p| > 0 && p[0] == '-'
  }

  /** The bullet lines among `pieces`, in order. */
  function BulletPieces(pieces: seq<string>): seq<string>
  {
    if pieces == [] then []
    else
      var last := pieces[|pieces| - 1];
      BulletPieces(pieces[..|pieces| - 1]) + (if IsBulletPiece(last) then [last] else [])
  }

  lemma {:induction false} BulletPiecesAppend(a: seq<string>, b: seq<string>)
    ensures BulletPieces(a + b) == BulletPieces(a) + BulletPieces(b)
    decreases |b|
  {
    if b == [] {
      assert a + b == a;
    } else {
      var init := b[..|b| - 1];
      assert (a + b)[..|a + b| - 1] == a + init;
      BulletPiecesAppend(a, init);
    }
  }

  /** Pieces that are all bullet lines are kept as they are. */
  lemma {:induction false} AllBulletPieces(pieces: seq<string>)
    requires forall i :: 0 <= i < |pieces| ==> IsBulletPiece(pieces[i])
    ensures BulletPieces(pieces) == pieces
  {
    if pieces != [] {
      var init, last := pieces[..|pieces| - 1], pieces[|pieces| - 1];
      assert forall i :: 0 <= i < |init| ==> init[i] == pieces[i];
      AllBulletPieces(init);
      assert IsBulletPiece(last);
      assert init + [last] == pieces;
    }
  }

  lemma BulletPiecesSingle(p: string)
    ensures BulletPieces([p]) == if IsBulletPiece(p) then [p] else []
  {
    assert [p][..0] == [];
  }

  /** The listing lines of `products`, in order. */
  function ProductLines(products: seq<Entry>): (r: seq<string>)
    ensures |r| == |products|
    ensures forall i :: 0 <= i < |products| ==> r[i] == ProductLine(products[i])
  {
    seq(|products|, i requires 0 <= i < |products| => ProductLine(products[i]))
  }

  lemma ProductLinesAppend(a: seq<Entry>, b: seq<Entry>)
    ensures ProductLines(a + b) == ProductLines(a) + ProductLines(b)
  {
    assert forall i :: 0 <= i < |a| ==> (a + b)[i] == a[i];
    assert forall i :: 0 <= i < |b| ==> (a + b)[|a| + i] == b[i];
  }

  /** A category block's only bullet lines are its products' lines, in order. */
  lemma BlockBulletsAreProductLines(c: Category, products: seq<Entry>)
    ensures BulletPieces(CategoryBlock(c, products)) == ProductLines(products)
  {
    var heading, bullets := CategoryHeading(c), Bullets(ProductItems(products));
    ItemBulletsAreProductLines(products);
    HeadingIsNoBullet(c);
    BulletPiecesSingle("\n");
    BulletPiecesAppend([heading], bullets);
    BulletPiecesAppend([heading] + bullets, ["\n"]);
  }

  lemma ItemBulletsAreProductLines(products: seq<Entry>)
    ensures BulletPieces(Bullets(ProductItems(products))) == ProductLines(products)
  {
    var bullets := Bullets(ProductItems(products));
    assert bullets == ProductLines(products);
    AllBulletPieces(bullets);
  }

  lemma HeadingIsNoBullet(c: Category)
    ensures BulletPieces([CategoryHeading(c)]) == []
  {
    assert CategoryHeading(c)[0] == '*';
    BulletPiecesSingle(CategoryHeading(c));
  }

  /**
   * The bullet lines of the category blocks, in order, are the lines of the
   * grouped entries: each array of the map contributes its products' lines
   * and nothing else.
   */
  lemma {:induction false} BlockBulletsFollowGroups(es: seq<Entry>, order: seq<Category>)
    ensures BulletPieces(Blocks(es, order)) == ProductLines(Grouped(es, order))
  {
    if order != [] {
      var init, c := order[..|order| - 1], order[|order| - 1];
      BlockBulletsFollowGroups(es, init);
      BulletPiecesAppend(Blocks(es, init), CategoryBlock(c, InCategory(es, c)));
      BlockBulletsAreProductLines(c, InCategory(es, c));
      ProductLinesAppend(Grouped(es, init), InCategory(es, c));
    }
  }

  /** Reordering entries reorders their lines: equal multisets of entries give equal multisets of lines. */
  lemma {:induction false} ProductLinesPermutation(a: seq<Entry>, b: seq<Entry>)
    requires multiset(a) == multiset(b)
    ensures multiset(ProductLines(a)) == multiset(ProductLines(b))
    decreases |a|
  {
    if a == [] {
      assert |multiset(b)| == 0;
    } else {
      var n := |a| - 1;
      var x := a[n];
      assert x in multiset(b);
      var k :| 0 <= k < |b| && b[k] == x;
      RemoveAt(a, n);
      RemoveAt(b, k);
      ProductLinesPermutation(a[..n] + a[n + 1..], b[..k] + b[k + 1..]);
      LinesRemoveAt(a, n);
      LinesRemoveAt(b, k);
    }
  }

  /** Taking out the entry at `k` takes out one occurrence of its line. */
  lemma LinesRemoveAt(b: seq<Entry>, k: nat)
    requires k < |b|
    ensures multiset(ProductLines(b)) == multiset(ProductLines(b[..k] + b[k + 1..])) + multiset{ProductLine(b[k])}
  {
    RemoveAt(b, k);
    ProductLinesAppend(b[..k], [b[k]]);
    ProductLinesAppend(b[..k] + [b[k]], b[k + 1..]);
    ProductLinesAppend(b[..k], b[k + 1..]);
  }

  /** Taking out the entry at `k` leaves the rest of the sequence and one occurrence less of that entry. */
  lemma RemoveAt(b: seq<Entry>, k: nat)
    requires k < |b|
    ensures b == b[..k] + [b[k]] + b[k + 1..]
    ensures multiset(b[..k] + b[k + 1..]) == multiset(b) - multiset{b[k]}
  {
    assert b == b[..k] + b[k..];
    assert b[k..] == [b[k]] + b[k + 1..];
    assert b == b[..k] + [b[k]] + b[k + 1..];
    assert multiset(b) == multiset(b[..k]) + multiset{b[k]} + multiset(b[k + 1..]);
  }

  /**
   * The listing's product lines: in the order the blocks show them they are
   * the grouped entries' lines, and taken together each entry of the
   * catalog contributes exactly one line.
   */
  lemma ListingShowsEachProductOnce(es: seq<Entry>)
    ensures BulletPieces(Blocks(es, CategoryOrder(es))) == ProductLines(Grouped(es, CategoryOrder(es)))
    ensures multiset(BulletPieces(Blocks(es, CategoryOrder(es)))) == multiset(ProductLines(es))
  {
    BlockBulletsFollowGroups(es, CategoryOrder(es));
    GroupedIsPermutation(es);
    ProductLinesPermutation(Grouped(es, CategoryOrder(es)), es);
  }

  /** The catalog listing announces its eleven products. */
  lemma CatalogListingHeader()
    ensures |ArcadProducts| == 11
    ensures ListingHeader(|ArcadProducts|) ==
      "ARCAD Software offers " + "11" + " powerful products for IBM i modernization and DevOps solutions.\n\n"
  {
    assert |ArcadProducts| == 11;
    ElevenInDecimal();
  }

  lemma ElevenInDecimal()
    ensures DecimalString(11) == "11"
  {
    assert DecimalString(11) == DecimalString(1) + [DigitChar(1)];
    assert DigitChar(1) == '1';
  }

  /** The catalog's categories, in the order the listing shows them. */
  lemma CatalogCategoryOrder()
    ensures CategoryOrder(ArcadProducts) == [Modernization, DevOps, Testing, Integration, Security]
  {
    CatalogCategories();
    FirstSeenOrder(ArcadProducts);
  }

  lemma FirstSeenOrder(es: seq<Entry>)
    requires |es| == 11
    requires es[0].info.category == Modernization && es[1].info.category == DevOps
    requires es[2].info.category == Testing && es[3].info.category == Modernization
    requires es[4].info.category == DevOps && es[5].info.category == DevOps
    requires es[6].info.category == Integration && es[7].info.category == DevOps
    requires es[8].info.category == Testing && es[9].info.category == Modernization
    requires es[10].info.category == Security
    ensures CategoryOrder(es) == [Modernization, DevOps, Testing, Integration, Security]
  {
    FirstSeenOrderFirstThree(es);
    FirstSeenOrderToSix(es);
    FirstSeenOrderToNine(es);
    FirstSeenOrderToEleven(es);
    assert es[..11] == es;
  }

  lemma FirstSeenOrderFirstThree(es: seq<Entry>)
    requires 3 <= |es|
    requires es[0].info.category == Modernization && es[1].info.category == DevOps
    requires es[2].info.category == Testing
    ensures CategoryOrder(es[..3]) == [Modernization, DevOps, Testing]
  {
    assert es[..0] == [];
    assert CategoryOrder(es[..1]) == [Modernization] by { CategoryOrderStep(es, 0); }
    assert CategoryOrder(es[..2]) == [Modernization, DevOps] by { CategoryOrderStep(es, 1); }
    CategoryOrderStep(es, 2);
  }

  lemma FirstSeenOrderToSix(es: seq<Entry>)
    requires 6 <= |es| && CategoryOrder(es[..3]) == [Modernization, DevOps, Testing]
    requires es[3].info.category == Modernization && es[4].info.category == DevOps
    requires es[5].info.category == DevOps
    ensures CategoryOrder(es[..6]) == [Modernization, DevOps, Testing]
  {
    assert CategoryOrder(es[..4]) == [Modernization, DevOps, Testing] by { CategoryOrderStep(es, 3); }
    assert CategoryOrder(es[..5]) == [Modernization, DevOps, Testing] by { CategoryOrderStep(es, 4); }
    CategoryOrderStep(es, 5);
  }

  lemma FirstSeenOrderToNine(es: seq<Entry>)
    requires 9 <= |es| && CategoryOrder(es[..6]) == [Modernization, DevOps, Testing]
    requires es[6].info.category == Integration && es[7].info.category == DevOps
    requires es[8].info.category == Testing
    ensures CategoryOrder(es[..9]) == [Modernization, DevOps, Testing, Integration]
  {
    assert CategoryOrder(es[..7]) == [Modernization, DevOps, Testing, Integration] by { CategoryOrderStep(es, 6); }
    assert CategoryOrder(es[..8]) == [Modernization, DevOps, Testing, Integration] by { CategoryOrderStep(es, 7); }
    CategoryOrderStep(es, 8);
  }

  lemma FirstSeenOrderToEleven(es: seq<Entry>)
    requires 11 <= |es| && CategoryOrder(es[..9]) == [Modernization, DevOps, Testing, Integration]
    requires es[9].info.category == Modernization && es[10].info.category == Security
    ensures CategoryOrder(es[..11]) == [Modernization, DevOps, Testing, Integration, Security]
  {
    assert CategoryOrder(es[..10]) == [Modernization, DevOps, Testing, Integration] by { CategoryOrderStep(es, 9); }
    CategoryOrderStep(es, 10);
  }
}
