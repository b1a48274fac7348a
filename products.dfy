/**
 * The static product catalog (`ARCAD_PRODUCTS`) and the name-to-URL map
 * derived from it by a left fold (`ARCAD_PRODUCT_MAP`).
 *
 * A JavaScript object literal keeps its keys in insertion order, so the
 * catalog is an ordered sequence of entries; looking a name up returns the
 * entry with that name.
 */
module Products {
  import opened Wrappers

  datatype Category = DevOps | Modernization | Testing | Security | Integration

  /** The category as the renderers print it. */
  function CategoryName(c: Category): string
  {
    match c
    case DevOps => "DevOps"
    case Modernization => "Modernization"
    case Testing => "Testing"
    case Security => "Security"
    case Integration => "Integration"
  }

  datatype TechnicalDetails = TechnicalDetails(
    requirements: Option<seq<string>>,
    platforms: Option<seq<string>>,
    integrations: Option<seq<string>>)

  datatype ProductInfo = ProductInfo(
    url: string,
    description: string,
    category: Category,
    keyFeatures: seq<string>,
    relatedProducts: Option<seq<string>>,
    technicalDetails: Option<TechnicalDetails>)

  /** One `name: info` pair of the catalog object. */
  datatype Entry = Entry(name: string, info: ProductInfo)

  const SkipperEntry: Entry := Entry("ARCAD-Skipper", ProductInfo(
      "https://www.arcadsoftware.com/products/arcad-skipper/",
      "Application analysis and documentation tool for IBM i modernization",
      Modernization,
      ["Cross-reference database for IBM i applications",
       "Impact analysis for code changes",
       "Automated documentation generation",
       "Code quality metrics and analysis",
       "Integration with DevOps tools"],
      Some(["ARCAD-Observer", "ARCAD-Transformer"]),
      Some(TechnicalDetails(None, Some(["IBM i"]), Some(["Git", "Jenkins", "ARCAD-Observer"])))))

  const ObserverEntry: Entry := Entry("ARCAD-Observer", ProductInfo(
      "https://www.arcadsoftware.com/products/arcad-observer/",
      "Real-time application monitoring and performance analysis",
      DevOps,
      ["Real-time application monitoring",
       "Performance metrics tracking",
       "Resource usage analysis",
       "Bottleneck identification",
       "Integration with CI/CD pipelines"],
      Some(["ARCAD-Skipper", "ARCAD-Deliver"]),
      Some(TechnicalDetails(None, Some(["IBM i"]), Some(["Jenkins", "Grafana", "ELK Stack"])))))

  const VerifierEntry: Entry := Entry("ARCAD-Verifier", ProductInfo(
      "https://www.arcadsoftware.com/products/arcad-verifier/",
      "Quality assurance and testing solution for IBM i applications",
      Testing,
      ["Automated testing capabilities",
       "Test coverage analysis",
       "Regression testing",
       "Integration with CI/CD pipelines"],
      None, None))

  const TransformerEntry: Entry := Entry("ARCAD-Transformer", ProductInfo(
      "https://www.arcadsoftware.com/products/arcad-transformer/",
      "Comprehensive modernization suite for IBM i applications",
      Modernization,
      ["RPG code conversion",
       "Database modernization",
       "User interface modernization",
       "Code refactoring tools"],
      None, None))

  const ListenerEntry: Entry := Entry("ARCAD-Listener", ProductInfo(
      "https://www.arcadsoftware.com/products/arcad-listener/",
      "Real-time change tracking and version control for IBM i",
      DevOps,
      ["Source code change monitoring",
       "Git integration",
       "Version control management",
       "Change history tracking"],
      None, None))

  const CodeCheckerEntry: Entry := Entry("ARCAD-CodeChecker", ProductInfo(
      "https://www.arcadsoftware.com/products/arcad-codechecker/",
      "Code quality and standards enforcement tool",
      DevOps,
      ["Code quality analysis",
       "Coding standards enforcement",
       "Automated code reviews",
       "Quality metrics reporting"],
      None, None))

  const ApiEntry: Entry := Entry("ARCAD-API", ProductInfo(
      "https://www.arcadsoftware.com/products/arcad-api/",
      "API management and development solution",
      Integration,
      ["API creation and management",
       "REST API development",
       "API documentation",
       "Integration capabilities"],
      None, None))

  const BuilderEntry: Entry := Entry("ARCAD-Builder", ProductInfo(
      "https://www.arcadsoftware.com/products/arcad-builder/",
      "Build and deployment automation for IBM i",
      DevOps,
      ["Automated builds",
       "Deployment automation",
       "Build pipeline integration",
       "Version management"],
      None, None))

  const IUnitEntry: Entry := Entry("ARCAD iUnit", ProductInfo(
      "https://www.arcadsoftware.com/arcad/products/arcad-iunit-ibm-i-unit-testing/",
      "Unit testing framework for IBM i applications",
      Testing,
      ["Automated unit testing",
       "Test case management",
       "Test coverage analysis",
       "Integration with CI/CD"],
      None, None))

  const TransformerDbEntry: Entry := Entry("ARCAD Transformer DB", ProductInfo(
      "https://www.arcadsoftware.com/arcad/products/arcad-transformer-db-database-modernization/",
      "Database modernization solution for IBM i",
      Modernization,
      ["Database structure analysis",
       "Data migration tools",
       "Schema modernization",
       "Data quality validation"],
      None, None))

  const DotAnonymizerEntry: Entry := Entry("DOT Anonymizer", ProductInfo(
      "https://www.arcadsoftware.com/dot/data-masking/dot-anonymizer/",
      "Data masking and anonymization solution",
      Security,
      ["Data privacy protection",
       "Compliance management",
       "Test data generation",
       "Sensitive data handling"],
      None, None))

  const ArcadProducts: seq<Entry> := [
    SkipperEntry, ObserverEntry, VerifierEntry, TransformerEntry, ListenerEntry, CodeCheckerEntry, ApiEntry, BuilderEntry, IUnitEntry, TransformerDbEntry, DotAnonymizerEntry
  ]

  /** `Object.keys(...)` of a catalog: the names in insertion order. */
  function Names(es: seq<Entry>): (ns: seq<string>)
    ensures |ns| == |es|
    ensures forall i :: 0 <= i < |es| ==> ns[i] == es[i].name
  {
    if es == [] then [] else Names(es[..|es| - 1]) + [es[|es| - 1].name]
  }

  predicate DistinctNames(es: seq<Entry>)
  {
    forall i, j :: 0 <= i < j < |es| ==> es[i].name != es[j].name
  }

  /** `catalog[name]`: the info stored under `name`, or nothing. */
  function Lookup(es: seq<Entry>, name: string): (r: Option<ProductInfo>)
    ensures r.None? <==> name !in Names(es)
    ensures r.Some? ==> Entry(name, r.value) in es
  {
    if es == [] then None
    else if es[0].name == name then Some(es[0].info)
    else
      assert Names(es[1..]) == Names(es)[1..];
      Lookup(es[1..], name)
  }

  /**
   * The `reduce` that builds `ARCAD_PRODUCT_MAP`: each entry in turn sets
   * `acc[name] = info.url`.
   */
  function ProductMap(es: seq<Entry>): (r: map<string, string>)
    ensures r.Keys == set n | n in Names(es)
  {
    if es == [] then map[]
    else
      assert Names(es) == Names(es[..|es| - 1]) + [es[|es| - 1].name];
      ProductMap(es[..|es| - 1])[es[|es| - 1].name := es[|es| - 1].info.url]
  }

  /**
   * The key order of the reduced object: a key keeps the place of its first
   * assignment, so every catalog name appears exactly once.
   */
  function ProductMapKeys(es: seq<Entry>): (r: seq<string>)
    ensures forall k :: k in r <==> k in Names(es)
    ensures forall i, j :: 0 <= i < j < |r| ==> r[i] != r[j]
  {
    if es == [] then []
    else
      assert Names(es) == Names(es[..|es| - 1]) + [es[|es| - 1].name];
      var ks := ProductMapKeys(es[..|es| - 1]);
      if es[|es| - 1].name in ks then ks else ks + [es[|es| - 1].name]
  }

  const ArcadProductMap: map<string, string> := ProductMap(ArcadProducts)

  /** With distinct names, each key of the reduced map holds that entry's URL. */
  lemma {:induction false} ProductMapHoldsUrls(es: seq<Entry>, name: string)
    requires DistinctNames(es)
    requires Lookup(es, name).Some?
    ensures name in ProductMap(es)
    ensures ProductMap(es)[name] == Lookup(es, name).value.url
  {
    var init := es[..|es| - 1];
    var last := es[|es| - 1];
    if last.name != name {
      LookupPrefix(es, name);
      ProductMapHoldsUrls(init, name);
    } else {
      LookupLast(es);
    }
  }

  lemma {:induction false} LookupPrefix(es: seq<Entry>, name: string)
    requires es != [] && es[|es| - 1].name != name
    ensures Lookup(es, name) == Lookup(es[..|es| - 1], name)
  {
    if |es| > 1 && es[0].name != name {
      assert es[1..][..|es[1..]| - 1] == es[..|es| - 1][1..];
      LookupPrefix(es[1..], name);
    }
  }

  lemma {:induction false} LookupLast(es: seq<Entry>)
    requires es != [] && DistinctNames(es)
    ensures Lookup(es, es[|es| - 1].name) == Some(es[|es| - 1].info)
  {
    if |es| > 1 {
      assert es[1..][|es[1..]| - 1] == es[|es| - 1];
      LookupLast(es[1..]);
    }
  }

  /** With distinct names, each entry's name looks up that entry. */
  lemma {:induction false} LookupOwnEntry(es: seq<Entry>, i: int)
    requires DistinctNames(es)
    requires 0 <= i < |es|
    ensures Lookup(es, es[i].name) == Some(es[i].info)
  {
    if i == |es| - 1 {
      LookupLast(es);
    } else {
      var init := es[..|es| - 1];
      assert init[i] == es[i];
      LookupPrefix(es, es[i].name);
      LookupOwnEntry(init, i);
    }
  }

  /** With distinct names the reduced object lists its keys in catalog order. */
  lemma {:induction false} ProductMapKeysInCatalogOrder(es: seq<Entry>)
    requires DistinctNames(es)
    ensures ProductMapKeys(es) == Names(es)
  {
    if es != [] {
      var init := es[..|es| - 1];
      ProductMapKeysInCatalogOrder(init);
      assert es[|es| - 1].name !in Names(init);
    }
  }

  // ------------------------------------------------ facts about the table

  lemma CatalogNamesDistinct()
    ensures DistinctNames(ArcadProducts)
  {
    var es := ArcadProducts;
    assert es[0].name[6] == 'S' && es[7].name[6] == 'B';
    assert es[1].name[6] == 'O' && es[2].name[6] == 'V' && es[4].name[6] == 'L' && es[10].name[0] == 'D';
    assert es[3].name[6] == 'T' && es[5].name[6] == 'C';
  }

  lemma CatalogNamesNonEmpty()
    ensures forall n :: n in Names(ArcadProducts) ==> n != []
  {
    forall i | 0 <= i < |ArcadProducts| ensures ArcadProducts[i].name != [] {
    }
  }

  /** Catalog keys the question-processing examples rely on. */
  lemma SomeCatalogNames()
    ensures "ARCAD-Skipper" in Names(ArcadProducts)
    ensures "ARCAD-Transformer" in Names(ArcadProducts)
    ensures "ARCAD Transformer DB" in Names(ArcadProducts)
  {
    assert Names(ArcadProducts)[0] == "ARCAD-Skipper";
    assert Names(ArcadProducts)[3] == "ARCAD-Transformer";
    assert Names(ArcadProducts)[9] == "ARCAD Transformer DB";
  }

  /** The catalog has eleven products, and the reduced map has those names as keys and their URLs as values. */
  lemma CatalogAndMapAgree()
    ensures |ArcadProducts| == 11
    ensures ArcadProductMap.Keys == set n | n in Names(ArcadProducts)
    ensures ProductMapKeys(ArcadProducts) == Names(ArcadProducts)
    ensures forall n :: n in ArcadProductMap ==> ArcadProductMap[n] == Lookup(ArcadProducts, n).value.url
  {
    CatalogNamesDistinct();
    ProductMapKeysInCatalogOrder(ArcadProducts);
    forall n | n in ArcadProductMap
      ensures ArcadProductMap[n] == Lookup(ArcadProducts, n).value.url
    {
      ProductMapHoldsUrls(ArcadProducts, n);
    }
  }

  /**
   * Only ARCAD-Skipper and ARCAD-Observer carry related products and technical
   * details, and ARCAD-Observer names a related product (ARCAD-Deliver) that is
   * not in the catalog.
   */
  lemma OptionalFieldsOfCatalog()
    ensures forall i :: 0 <= i < |ArcadProducts| ==>
      (ArcadProducts[i].info.relatedProducts.Some? <==>
         ArcadProducts[i].name == "ARCAD-Skipper" || ArcadProducts[i].name == "ARCAD-Observer")
    ensures forall i :: 0 <= i < |ArcadProducts| ==>
      (ArcadProducts[i].info.technicalDetails.Some? <==>
         ArcadProducts[i].name == "ARCAD-Skipper" || ArcadProducts[i].name == "ARCAD-Observer")
    ensures Lookup(ArcadProducts, "ARCAD-Observer").Some?
    ensures "ARCAD-Deliver" in Lookup(ArcadProducts, "ARCAD-Observer").value.relatedProducts.value
    ensures Lookup(ArcadProducts, "ARCAD-Deliver").None?
  {
    var es := ArcadProducts;
    forall i | 2 <= i < |es|
      ensures es[i].name != "ARCAD-Skipper" && es[i].name != "ARCAD-Observer"
    {
      CatalogNamesDistinct();
      assert es[0].name != es[i].name && es[1].name != es[i].name;
    }
    var deliver := "ARCAD-Deliver";
    forall i | 0 <= i < |es| ensures es[i].name != deliver {
      assert deliver[6] == 'D';
    }
  }

  /** The category of each catalog entry, by position. */
  lemma CatalogCategories()
    ensures |ArcadProducts| == 11
    ensures ArcadProducts[0].info.category == Modernization && ArcadProducts[1].info.category == DevOps
    ensures ArcadProducts[2].info.category == Testing && ArcadProducts[3].info.category == Modernization
    ensures ArcadProducts[4].info.category == DevOps && ArcadProducts[5].info.category == DevOps
    ensures ArcadProducts[6].info.category == Integration && ArcadProducts[7].info.category == DevOps
    ensures ArcadProducts[8].info.category == Testing && ArcadProducts[9].info.category == Modernization
    ensures ArcadProducts[10].info.category == Security
  {
    assert ArcadProducts[0] == SkipperEntry && ArcadProducts[1] == ObserverEntry;
    assert ArcadProducts[2] == VerifierEntry && ArcadProducts[3] == TransformerEntry;
    assert ArcadProducts[4] == ListenerEntry && ArcadProducts[5] == CodeCheckerEntry;
    assert ArcadProducts[6] == ApiEntry && ArcadProducts[7] == BuilderEntry;
    assert ArcadProducts[8] == IUnitEntry && ArcadProducts[9] == TransformerDbEntry;
    assert ArcadProducts[10] == DotAnonymizerEntry;
  }
}
