/**
 * The classifying half of `QuestionProcessor`: text normalization, the
 * first-match-wins categorizer, the three phrase detectors and the search for
 * catalog names mentioned in a question. All of it is substring matching over
 * fixed tables.
 */
module QuestionProcessor {
  import opened Wrappers
  import opened Text
  import opened Products

  // ------------------------------------------------------------- tables

  datatype LanguageInfo = LanguageInfo(name: string, url: string)

  /** `Constants.URLS.PRODUCTS`. */
  const ProductsUrl: string := "https://www.arcadsoftware.com/arcad/products/"

  /**
   * `ARCAD_LANGUAGE_MAP` in key order. The second key is the mis-decoded
   * spelling of "français" that the table holds (U+221A, U+00DF).
   */
  const LanguageMap: seq<(string, LanguageInfo)> := [
    ("french", LanguageInfo("French", "https://www.arcadsoftware.com/fr/")),
    ("fran\U{221A}\U{00DF}ais", LanguageInfo("French", "https://www.arcadsoftware.com/fr/")),
    ("frace", LanguageInfo("French", "https://www.arcadsoftware.com/fr/")),
    ("spanish", LanguageInfo("Spanish", "https://www.arcadsoftware.com/es/")),
    ("german", LanguageInfo("German", "https://www.arcadsoftware.com/de/")),
    ("italian", LanguageInfo("Italian", "https://www.arcadsoftware.com/it/")),
    ("japanese", LanguageInfo("Japanese", "https://www.arcadsoftware.com/ja/")),
    ("india", LanguageInfo("India", "https://www.arcadsoftware.com/about/contact-us/")),
    ("idnia", LanguageInfo("India", "https://www.arcadsoftware.com/about/contact-us/")),
    ("france", LanguageInfo("French", "https://www.arcadsoftware.com/fr/")),
    ("english", LanguageInfo("English", ProductsUrl)),
    ("neng", LanguageInfo("English", ProductsUrl))
  ]

  /** `Object.keys(ARCAD_LANGUAGE_MAP)`. */
  function LanguageKeys(): (r: seq<string>)
    ensures |r| == 12
    ensures r[0] == "french" && r[1] == "fran\U{221A}\U{00DF}ais" && r[2] == "frace"
    ensures r[9] == "france" && r[10] == "english" && r[11] == "neng"
    ensures forall k :: k in r ==> k != []
  {
    seq(|LanguageMap|, i requires 0 <= i < |LanguageMap| => LanguageMap[i].0)
  }

  const TechnicalTerms: seq<string> := [
    "how to", "implement", "configure", "setup", "install", "deploy",
    "documentation", "guide", "tutorial", "example", "requirement"
  ]

  const IntegrationTerms: seq<string> := [
    "integrate", "connection", "workflow", "pipeline", "devops",
    "jenkins", "github", "gitlab", "ci/cd", "automation"
  ]

  const ProductQueryTerms: seq<string> := [
    "product", "what is", "tell me about", "how many", "list", "show me"
  ]

  const ProductListTerms: seq<string> := [
    "list products", "show products", "what products", "which products"
  ]

  const ProductComparisonTerms: seq<string> := [
    "compare", "difference between", "vs", "versus"
  ]

  // -------------------------------------------------------- normalizing

  const Punctuation: set<char> := {'.', ',', '!', '?'}

  const DashAndWhitespace: set<char> := {'-'} + JsWhitespace

  /**
   * `normalizeText`: lowercase, drop `. , ! ?`, drop hyphens and every
   * whitespace character, then trim.
   */
  function NormalizeText(text: string): (r: string)
    ensures NoUpper(r)
    ensures Avoids(r, Punctuation) && Avoids(r, DashAndWhitespace)
    ensures |r| <= |text|
  {
    var unpunctuated := Without(ToLower(text), Punctuation);
    var stripped := Without(unpunctuated, DashAndWhitespace);
    WithoutAvoids(ToLower(text), Punctuation);
    WithoutAvoids(unpunctuated, DashAndWhitespace);
    assert Avoids(stripped, JsWhitespace);
    TrimOfUnspaced(stripped);
    Trim(stripped)
  }

  lemma TrimOfUnspaced(s: string)
    requires Avoids(s, JsWhitespace)
    ensures Trim(s) == s
  {
  }

  /** Normalizing an already normalized text changes nothing. */
  lemma NormalizeIdempotent(text: string)
    ensures NormalizeText(NormalizeText(text)) == NormalizeText(text)
  {
    var n := NormalizeText(text);
    ToLowerFixesLowercase(n);
    WithoutKeepsAvoided(n, Punctuation);
    WithoutKeepsAvoided(n, DashAndWhitespace);
    TrimOfUnspaced(n);
  }

  // ------------------------------------------------------- categorizing

  datatype QuestionCategory =
    | ProductSpecific(product: string)
    | Technical
    | Integration
    | General
    | Language(language: string)

  /** Some key, lowercased, is a substring of `text`. */
  predicate MentionsAny(keys: seq<string>, text: string)
  {
    exists k :: k in keys && Contains(text, ToLower(k))
  }

  /** `k` is the first key in table order whose lowercase form is a substring of `text`. */
  ghost predicate IsFirstMatch(keys: seq<string>, text: string, k: string)
  {
    exists i :: 0 <= i < |keys| && keys[i] == k && Contains(text, ToLower(k)) &&
      forall j :: 0 <= j < i ==> !Contains(text, ToLower(keys[j]))
  }

  /** `keys.find(key => text.includes(key.toLowerCase()))`. */
  function FindFirst(keys: seq<string>, text: string): (r: Option<string>)
    ensures r.None? <==> !MentionsAny(keys, text)
    ensures r.Some? ==> IsFirstMatch(keys, text, r.value)
  {
    if keys == [] then None
    else if Contains(text, ToLower(keys[0])) then
      assert keys[0] in keys;
      Some(keys[0])
    else
      var r := FindFirst(keys[1..], text);
      assert forall k :: k in keys[1..] ==> k in keys;
      assert forall k :: k in keys ==> k == keys[0] || k in keys[1..];
      if r.Some? then
        assert IsFirstMatch(keys[1..], text, r.value);
        var i :| 0 <= i < |keys[1..]| && keys[1..][i] == r.value && Contains(text, ToLower(r.value)) &&
          forall j :: 0 <= j < i ==> !Contains(text, ToLower(keys[1..][j]));
        assert keys[i + 1] == r.value;
        r
      else
        r
  }

  /** `terms.some(term => text.includes(term))`. */
  function SomeIncluded(terms: seq<string>, text: string): (r: bool)
    ensures r <==> exists t :: t in terms && Contains(text, t)
  {
    if terms == [] then false
    else
      assert forall t :: t in terms <==> t == terms[0] || t in terms[1..];
      Contains(text, terms[0]) || SomeIncluded(terms[1..], text)
  }

  /** The catalog keys `categorizeQuestion` tries: `Object.keys(ARCAD_PRODUCT_MAP)`. */
  function ProductKeys(): seq<string>
  {
    ProductMapKeys(ArcadProducts)
  }

  /**
   * `categorizeQuestion`: on the lowercased (not normalized) question, the
   * language table wins over the catalog, which wins over the technical terms,
   * which win over the integration terms; otherwise `general`. A match reports
   * the table key itself.
   */
  function CategorizeQuestion(question: string): (r: QuestionCategory)
    ensures var lq := ToLower(question);
      && (r.Language? <==> MentionsAny(LanguageKeys(), lq))
      && (r.Language? ==> IsFirstMatch(LanguageKeys(), lq, r.language))
      && (r.ProductSpecific? <==> !MentionsAny(LanguageKeys(), lq) && MentionsAny(ProductKeys(), lq))
      && (r.ProductSpecific? ==> IsFirstMatch(ProductKeys(), lq, r.product))
      && (r.Technical? <==>
            !MentionsAny(LanguageKeys(), lq) && !MentionsAny(ProductKeys(), lq) &&
            SomeIncluded(TechnicalTerms, lq))
      && (r.Integration? <==>
            !MentionsAny(LanguageKeys(), lq) && !MentionsAny(ProductKeys(), lq) &&
            !SomeIncluded(TechnicalTerms, lq) && SomeIncluded(IntegrationTerms, lq))
      && (r.General? <==>
            !MentionsAny(LanguageKeys(), lq) && !MentionsAny(ProductKeys(), lq) &&
            !SomeIncluded(TechnicalTerms, lq) && !SomeIncluded(IntegrationTerms, lq))
  {
    var lowerQuestion := ToLower(question);
    match FindFirst(LanguageKeys(), lowerQuestion)
    case Some(language) => Language(language)
    case None =>
      match FindFirst(ProductKeys(), lowerQuestion)
      case Some(product) => ProductSpecific(product)
      case None =>
        if SomeIncluded(TechnicalTerms, lowerQuestion) then Technical
        else if SomeIncluded(IntegrationTerms, lowerQuestion) then QuestionCategory.Integration
        else General
  }

  // ---------------------------------------------------------- detectors

  /** `terms.map(term => term.replace(/\s/g, ''))`. */
  function Squeezed(terms: seq<string>): (r: seq<string>)
    ensures |r| == |terms|
    ensures forall i :: 0 <= i < |terms| ==> r[i] == Without(terms[i], JsWhitespace)
    ensures forall i :: 0 <= i < |r| ==> Avoids(r[i], JsWhitespace)
  {
    assert forall i :: 0 <= i < |terms| ==> Avoids(Without(terms[i], JsWhitespace), JsWhitespace) by {
      forall i | 0 <= i < |terms| ensures Avoids(Without(terms[i], JsWhitespace), JsWhitespace) {
        WithoutAvoids(terms[i], JsWhitespace);
      }
    }
    seq(|terms|, i requires 0 <= i < |terms| => Without(terms[i], JsWhitespace))
  }

  /**
   * Some term, with its whitespace removed, is a substring of the normalized
   * question. An empty table matches nothing; a term made only of whitespace
   * matches every question.
   */
  predicate MatchesTerm(terms: seq<string>, question: string): (r: bool)
    ensures terms == [] ==> !r
    ensures (exists t :: t in terms && Without(t, JsWhitespace) == []) ==> r
  {
    assert OccursAt(NormalizeText(question), [], 0);
    exists t :: t in terms && Contains(NormalizeText(question), Without(t, JsWhitespace))
  }

  lemma SqueezedIncluded(terms: seq<string>, text: string)
    ensures SomeIncluded(Squeezed(terms), text) <==>
      exists t :: t in terms && Contains(text, Without(t, JsWhitespace))
  {
    var sq := Squeezed(terms);
    if SomeIncluded(sq, text) {
      var p :| p in sq && Contains(text, p);
      var i :| 0 <= i < |sq| && sq[i] == p;
      assert terms[i] in terms;
    }
    if exists t :: t in terms && Contains(text, Without(t, JsWhitespace)) {
      var t :| t in terms && Contains(text, Without(t, JsWhitespace));
      var i :| 0 <= i < |terms| && terms[i] == t;
      assert sq[i] in sq;
    }
  }

  /** `isProductQuery`. */
  function IsProductQuery(question: string): (r: bool)
    ensures r <==> MatchesTerm(ProductQueryTerms, question)
  {
    SqueezedIncluded(ProductQueryTerms, NormalizeText(question));
    SomeIncluded(Squeezed(ProductQueryTerms), NormalizeText(question))
  }

  /** `isProductListingQuery`. */
  function IsProductListingQuery(question: string): (r: bool)
    ensures r <==> MatchesTerm(ProductListTerms, question)
  {
    SqueezedIncluded(ProductListTerms, NormalizeText(question));
    SomeIncluded(Squeezed(ProductListTerms), NormalizeText(question))
  }

  /** `isProductComparisonQuery`. */
  function IsProductComparisonQuery(question: string): (r: bool)
    ensures r <==> MatchesTerm(ProductComparisonTerms, question)
  {
    SqueezedIncluded(ProductComparisonTerms, NormalizeText(question));
    SomeIncluded(Squeezed(ProductComparisonTerms), NormalizeText(question))
  }

  // ------------------------------------------------ mentioned products

  /** `a` is `b` with some elements left out, the rest in the same order. */
  predicate IsSubsequence<T(==)>(a: seq<T>, b: seq<T>)
    decreases |b|
  {
    a == [] || (b != [] && ((a[0] == b[0] && IsSubsequence(a[1..], b[1..])) || IsSubsequence(a, b[1..])))
  }

  /** `keys.filter(key => text.includes(normalizeText(key)))`. */
  function MentionedKeys(keys: seq<string>, text: string): (r: seq<string>)
    ensures forall k :: k in r <==> k in keys && Contains(text, NormalizeText(k))
    ensures IsSubsequence(r, keys)
  {
    if keys == [] then []
    else
      var rest := MentionedKeys(keys[1..], text);
      assert forall k :: k in keys <==> k == keys[0] || k in keys[1..];
      if Contains(text, NormalizeText(keys[0])) then
        assert ([keys[0]] + rest)[1..] == rest;
        [keys[0]] + rest
      else
        rest
  }

  /**
   * `findMentionedProducts`: the catalog names whose normalized form occurs in
   * the normalized question, in catalog order.
   */
  function FindMentionedProducts(question: string): (r: seq<string>)
    ensures forall k :: k in r <==>
      k in Names(ArcadProducts) && Contains(NormalizeText(question), NormalizeText(k))
    ensures IsSubsequence(r, Names(ArcadProducts))
  {
    MentionedKeys(Names(ArcadProducts), NormalizeText(question))
  }

  // ------------------------------------------------------------ lemmas

  lemma ToLowerAppend(a: string, b: string)
    ensures ToLower(a + b) == ToLower(a) + ToLower(b)
  {
  }

  /** Stripping `. , ! ?`, hyphens and whitespace leaves nothing for `trim` to remove. */
  lemma StrippedIsTrimmed(lowered: string)
    ensures var s := Without(Without(lowered, Punctuation), DashAndWhitespace); Trim(s) == s
  {
    WithoutAvoids(Without(lowered, Punctuation), DashAndWhitespace);
    TrimOfUnspaced(Without(Without(lowered, Punctuation), DashAndWhitespace));
  }

  /** Normalizing distributes over concatenation. */
  lemma NormalizeAppend(a: string, b: string)
    ensures NormalizeText(a + b) == NormalizeText(a) + NormalizeText(b)
  {
    var la, lb := ToLower(a), ToLower(b);
    var pa, pb := Without(la, Punctuation), Without(lb, Punctuation);
    var sa, sb := Without(pa, DashAndWhitespace), Without(pb, DashAndWhitespace);
    assert ToLower(a + b) == la + lb by {
      ToLowerAppend(a, b);
    }
    assert Without(la + lb, Punctuation) == pa + pb by {
      WithoutAppend(la, lb, Punctuation);
    }
    assert Without(pa + pb, DashAndWhitespace) == sa + sb by {
      WithoutAppend(pa, pb, DashAndWhitespace);
    }
    assert NormalizeText(a + b) == sa + sb by {
      StrippedIsTrimmed(la + lb);
    }
    assert NormalizeText(a) == sa by {
      StrippedIsTrimmed(la);
    }
    assert NormalizeText(b) == sb by {
      StrippedIsTrimmed(lb);
    }
  }

  /** A hyphen or whitespace character vanishes under normalization. */
  lemma NormalizeSeparator(x: char)
    requires x in DashAndWhitespace
    ensures NormalizeText([x]) == []
  {
    assert ToLower([x]) == [x];
    assert Without([x], Punctuation) == [x];
  }

  /** Replacing one separator by another (`-` for a space, say) does not change the normal form. */
  lemma NormalizeSwapSeparator(a: string, x: char, y: char, b: string)
    requires x in DashAndWhitespace && y in DashAndWhitespace
    ensures NormalizeText(a + [x] + b) == NormalizeText(a + [y] + b)
  {
    NormalizeAppend(a + [x], b);
    NormalizeAppend(a, [x]);
    NormalizeAppend(a + [y], b);
    NormalizeAppend(a, [y]);
    NormalizeSeparator(x);
    NormalizeSeparator(y);
  }

  /** Each detector gives the same answer on a question and on its normal form, and so does the product search. */
  lemma DetectorsIgnoreNormalization(question: string)
    ensures IsProductQuery(NormalizeText(question)) == IsProductQuery(question)
    ensures IsProductListingQuery(NormalizeText(question)) == IsProductListingQuery(question)
    ensures IsProductComparisonQuery(NormalizeText(question)) == IsProductComparisonQuery(question)
    ensures FindMentionedProducts(NormalizeText(question)) == FindMentionedProducts(question)
  {
    NormalizeIdempotent(question);
  }

  /** A word, a space and "products", with the space removed, still contains "product". */
  lemma WordThenProducts(w: string)
    requires Avoids(w, JsWhitespace)
    ensures Contains(Without(w + [' '] + "products", JsWhitespace), "product")
  {
    assert Without(w + [' '] + "products", JsWhitespace) == w + "products" by {
      LettersAvoidWhitespace("products");
      JoinWithout(w, ' ', "products", JsWhitespace);
    }
    ContainsAt(w + "products", "product", |w|);
  }

  /** A listing phrase with its space removed still contains "product". */
  lemma ListTermContainsProduct(t: string)
    requires t in ProductListTerms
    ensures Contains(Without(t, JsWhitespace), "product")
  {
    var w: string;
    if t == "list products" {
      w := "list";
    } else if t == "show products" {
      w := "show";
    } else if t == "what products" {
      w := "what";
    } else {
      w := "which";
    }
    assert t == w + [' '] + "products";
    assert Avoids(w, JsWhitespace) by {
      LettersAvoidWhitespace(w);
    }
    WordThenProducts(w);
  }

  /** Every listing phrase ends in "products", so a listing question is always also a product question. */
  lemma ListingImpliesProductQuery(question: string)
    ensures IsProductListingQuery(question) ==> IsProductQuery(question)
  {
    if IsProductListingQuery(question) {
      var n := NormalizeText(question);
      var t :| t in ProductListTerms && Contains(n, Without(t, JsWhitespace));
      assert Contains(n, "product") by {
        ListTermContainsProduct(t);
        ContainsTransitive(n, Without(t, JsWhitespace), "product");
      }
      ProductTermUnspaced();
      assert MatchesTerm(ProductQueryTerms, question);
    }
  }

  lemma ProductTermUnspaced()
    ensures "product" in ProductQueryTerms && Without("product", JsWhitespace) == "product"
  {
    LettersAvoidWhitespace("product");
    WithoutKeepsAvoided("product", JsWhitespace);
  }

  /** No key of a table of non-empty keys occurs in the empty text. */
  lemma NoKeyInEmpty(keys: seq<string>)
    requires forall k :: k in keys ==> k != []
    ensures !MentionsAny(keys, "")
    ensures forall k :: k in keys ==> !Contains("", k)
  {
  }

  lemma TablesHaveNoEmptyKey()
    ensures forall k :: k in ProductKeys() ==> k != []
    ensures forall t :: t in TechnicalTerms ==> t != []
    ensures forall t :: t in IntegrationTerms ==> t != []
  {
    assert ProductKeys() == Names(ArcadProducts) by {
      CatalogAndMapAgree();
    }
    CatalogNamesNonEmpty();
  }

  /** The empty question matches nothing and is `general`. */
  lemma EmptyQuestionIsGeneral()
    ensures CategorizeQuestion("") == General
  {
    assert ToLower("") == "";
    TablesHaveNoEmptyKey();
    NoKeyInEmpty(LanguageKeys());
    NoKeyInEmpty(ProductKeys());
    NoKeyInEmpty(TechnicalTerms);
    NoKeyInEmpty(IntegrationTerms);
  }

  /** A match reports the table key itself, here the misspelling "frace". */
  lemma MisspellingIsReportedAsKey()
    ensures CategorizeQuestion("frace") == Language("frace")
  {
    var q := "frace";
    ToLowerFixesLowercase(q);
    var keys := LanguageKeys();
    assert keys[0] == "french" && keys[1] == "fran\U{221A}\U{00DF}ais" && keys[2] == q;
    assert !Contains(q, ToLower(keys[0])) && !Contains(q, ToLower(keys[1]));
    assert OccursAt(q, ToLower(keys[2]), 0) by {
      ToLowerFixesLowercase(keys[2]);
    }
  }

  /** Of two language keywords, the one earlier in the table wins, whatever their order in the question. */
  lemma TableOrderBeatsQuestionOrder()
    ensures CategorizeQuestion("english or french") == Language("french")
  {
    var q := "english or french";
    ToLowerFixesLowercase(q);
    ToLowerFixesLowercase("french");
    assert LanguageKeys()[0] == "french";
    assert OccursAt(q, "french", 11);
  }

  /** A name that normalizes to a substring of the normalized question is found. */
  lemma FoundWhenNormalFormOccurs(question: string, name: string)
    requires name in Names(ArcadProducts)
    requires Contains(NormalizeText(question), NormalizeText(name))
    ensures name in FindMentionedProducts(question)
  {
  }

  lemma SkipperSpellingsNormalizeAlike()
    ensures NormalizeText("ARCAD Skipper") == NormalizeText("ARCAD-Skipper")
  {
    assert "ARCAD Skipper" == "ARCAD" + [' '] + "Skipper";
    assert "ARCAD-Skipper" == "ARCAD" + ['-'] + "Skipper";
    NormalizeSwapSeparator("ARCAD", ' ', '-', "Skipper");
  }

  lemma SkipperNotInSpacedLowercase()
    ensures !Contains(ToLower("ARCAD Skipper"), ToLower("ARCAD-Skipper"))
  {
    assert ToLower("ARCAD-Skipper")[5] == '-';
    assert '-' !in ToLower("ARCAD Skipper");
    NotContainsByChar(ToLower("ARCAD Skipper"), ToLower("ARCAD-Skipper"), '-');
  }

  /** The categorizer looks at the lowercased raw text, where the hyphenated name does not occur. */
  lemma CategorizerMissesSpacedName()
    ensures CategorizeQuestion("ARCAD Skipper") != ProductSpecific("ARCAD-Skipper")
  {
    SkipperNotInSpacedLowercase();
  }

  /** A question whose normal form equals a catalog name's normal form mentions that product. */
  lemma FoundUnderSameNormalForm(question: string, name: string)
    requires name in Names(ArcadProducts)
    requires NormalizeText(question) == NormalizeText(name)
    ensures name in FindMentionedProducts(question)
  {
    var n := NormalizeText(question);
    ContainsAt(n, n, 0);
    FoundWhenNormalFormOccurs(question, name);
  }

  /** The product search compares normal forms, where the two spellings agree. */
  lemma SearchFindsSpacedName()
    ensures "ARCAD-Skipper" in FindMentionedProducts("ARCAD Skipper")
  {
    SkipperSpellingsNormalizeAlike();
    SomeCatalogNames();
    FoundUnderSameNormalForm("ARCAD Skipper", "ARCAD-Skipper");
  }

  lemma TransformerNormalFormIsPrefix()
    ensures OccursAt(NormalizeText("ARCAD Transformer DB"), NormalizeText("ARCAD-Transformer"), 0)
  {
    var db := "ARCAD Transformer DB";
    var tr := "ARCAD-Transformer";
    assert db == ("ARCAD" + [' '] + "Transformer") + " DB";
    assert tr == "ARCAD" + ['-'] + "Transformer";
    NormalizeSwapSeparator("ARCAD", ' ', '-', "Transformer");
    NormalizeAppend("ARCAD" + [' '] + "Transformer", " DB");
  }

  /**
   * The normal form of "ARCAD-Transformer" is a prefix of that of
   * "ARCAD Transformer DB", so naming the latter finds both products.
   */
  lemma TransformerDbAlsoFindsTransformer()
    ensures "ARCAD-Transformer" in FindMentionedProducts("ARCAD Transformer DB")
    ensures "ARCAD Transformer DB" in FindMentionedProducts("ARCAD Transformer DB")
  {
    var n := NormalizeText("ARCAD Transformer DB");
    assert Contains(n, NormalizeText("ARCAD-Transformer")) by {
      TransformerNormalFormIsPrefix();
      ContainsAt(n, NormalizeText("ARCAD-Transformer"), 0);
    }
    assert Contains(n, n) by {
      ContainsAt(n, n, 0);
    }
    SomeCatalogNames();
    FoundWhenNormalFormOccurs("ARCAD Transformer DB", "ARCAD-Transformer");
    FoundWhenNormalFormOccurs("ARCAD Transformer DB", "ARCAD Transformer DB");
  }
}
