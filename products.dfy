/**
 * The product routes of the backend: choosing how an upload is read, the
 * size and length limits on uploads, the stored product and its counts, the
 * listing, and the ownership checks of reading and deleting a product. PDF
 * text extraction, UTF-8 decoding and the USP extractor are parameters.
 */
module Products {
  import opened Common
  import opened Store

  // ---------------------------------------------------------------------------
  // Reading an upload

  datatype UploadPath = PdfPath | TextPath

  /** A file name ending in ".pdf", in any letter case, is read as a PDF; anything else as text. */
  function PathFor(filename: string): (r: UploadPath)
    ensures r == PdfPath <==> EndsWith(Lower(filename), ".pdf")
  {
    if EndsWith(Lower(filename), ".pdf") then PdfPath else TextPath
  }

  /** The text of each PDF page, a page without text counting as empty. */
  function PageTexts(pages: seq<Option<string>>): (r: seq<string>)
    ensures |r| == |pages| && forall i :: 0 <= i < |pages| ==> r[i] == GetOr(pages[i], "")
  {
    seq(|pages|, i requires 0 <= i < |pages| => GetOr(pages[i], ""))
  }

  /**
   * The source's `parse_upload`, given what the PDF reader extracts from each
   * page (`None` when the reader fails on the file) and the UTF-8 decoding of
   * the bytes, which never fails because undecodable bytes are replaced.
   */
  function ParseUpload(filename: string, pdf: Option<seq<Option<string>>>, decoded: string): (r: Option<string>)
    ensures r.None? <==> PathFor(filename) == PdfPath && pdf.None?
    ensures PathFor(filename) == TextPath ==> r == Some(decoded)
  {
    match PathFor(filename)
    case PdfPath => if pdf.None? then None else Some(Join("\n", PageTexts(pdf.value)))
    case TextPath => Some(decoded)
  }

  /**
   * A PDF's text keeps its pages apart: with no page text containing a
   * newline, splitting the text on newlines gives back the page texts, and a
   * PDF without pages gives the empty text.
   */
  lemma ParseUploadPages(filename: string, pages: seq<Option<string>>, decoded: string)
    ensures PathFor(filename) == PdfPath && pages == [] ==> ParseUpload(filename, Some(pages), decoded) == Some("")
    ensures PathFor(filename) == PdfPath && |pages| >= 1 && (forall i :: 0 <= i < |pages| ==> '\n' !in GetOr(pages[i], "")) ==>
      Split(ParseUpload(filename, Some(pages), decoded).value, '\n') == PageTexts(pages)
  {
    if PathFor(filename) == PdfPath && |pages| >= 1 && (forall i :: 0 <= i < |pages| ==> '\n' !in GetOr(pages[i], "")) {
      SplitJoin('\n', PageTexts(pages));
    }
  }

  /** Upper and lower case spellings of the extension take the same path. */
  lemma PdfCaseInsensitive(stem: string)
    ensures PathFor(stem + ".PDF") == PathFor(stem + ".pdf") == PdfPath
    ensures PathFor(stem + ".Pdf") == PdfPath
  {
    var a, b, c := stem + ".PDF", stem + ".pdf", stem + ".Pdf";
    assert Lower(a)[|a| - 4..] == ".pdf";
    assert Lower(b)[|b| - 4..] == ".pdf";
    assert Lower(c)[|c| - 4..] == ".pdf";
  }

  // ---------------------------------------------------------------------------
  // Python `str.strip()` on ASCII whitespace

  predicate IsSpace(c: char)
  {
    c == ' ' || c == '\t' || c == '\n' || c == '\r' || c == '\U{0B}' || c == '\U{0C}'
  }

  function StripStart(s: string): (r: string)
    ensures |r| <= |s| && r == s[|s| - |r|..]
    ensures r == [] || !IsSpace(r[0])
    ensures forall i :: 0 <= i < |s| - |r| ==> IsSpace(s[i])
  {
    if s == [] || !IsSpace(s[0]) then s else StripStart(s[1..])
  }

  function StripEnd(s: string): (r: string)
    ensures |r| <= |s| && r == s[..|r|]
    ensures r == [] || !IsSpace(r[|r| - 1])
    ensures forall i :: |r| <= i < |s| ==> IsSpace(s[i])
  {
    if s == [] || !IsSpace(s[|s| - 1]) then s else StripEnd(s[..|s| - 1])
  }

  /** `s` without its leading and trailing whitespace. */
  function Strip(s: string): (r: string)
    ensures |r| <= |s|
    ensures r == [] || (!IsSpace(r[0]) && !IsSpace(r[|r| - 1]))
  {
    var t := StripStart(s);
    assert StripEnd(t) == [] || StripEnd(t)[0] == t[0];
    StripEnd(t)
  }

  /** Only whitespace is stripped: the stripped text keeps every non-space character, so it is at least that long. */
  lemma StripKeepsNonSpace(s: string)
    ensures NonSpace(Strip(s)) == NonSpace(s)
    ensures |Strip(s)| >= NonSpace(s)
  {
    var t := StripStart(s);
    StripStartKeeps(s);
    StripEndKeeps(t);
    NonSpaceBound(Strip(s));
  }

  lemma {:induction false} StripStartKeeps(s: string)
    ensures NonSpace(StripStart(s)) == NonSpace(s)
  {
    if s != [] && IsSpace(s[0]) {
      var head, tail := [s[0]], s[1..];
      StripStartKeeps(tail);
      assert head[..0] == [] && NonSpace(head) == 0;
      NonSpaceSplit(head, tail);
      assert head + tail == s;
    }
  }

  lemma {:induction false} StripEndKeeps(s: string)
    ensures NonSpace(StripEnd(s)) == NonSpace(s)
  {
    if s != [] && IsSpace(s[|s| - 1]) {
      StripEndKeeps(s[..|s| - 1]);
    }
  }

  /** The number of non-whitespace characters. */
  function NonSpace(s: string): nat
  {
    if s == [] then 0 else NonSpace(s[..|s| - 1]) + (if IsSpace(s[|s| - 1]) then 0 else 1)
  }

  lemma {:induction false} NonSpaceSplit(s: string, t: string)
    ensures NonSpace(s + t) == NonSpace(s) + NonSpace(t)
    decreases |t|
  {
    if t == [] {
      assert s + t == s;
    } else {
      assert (s + t)[..|s + t| - 1] == s + t[..|t| - 1];
      NonSpaceSplit(s, t[..|t| - 1]);
    }
  }

  lemma {:induction false} NonSpaceBound(s: string)
    ensures NonSpace(s) <= |s|
  {
    if s != [] {
      NonSpaceBound(s[..|s| - 1]);
    }
  }

  // ---------------------------------------------------------------------------
  // Uploading a product

  /** The largest accepted upload, in bytes. */
  const MaxUploadBytes: nat := 10 * 1024 * 1024

  /** The fewest non-blank characters a document must have. */
  const MinTextLength: nat := 50

  /** What the USP extractor returned; a key it left out is `None`. */
  datatype Extraction = Extraction(
    usps: Option<seq<Usp>>, keyTerms: Option<seq<KeyTerm>>, objections: Option<seq<Objection>>, clientFrames: Option<Json>)

  datatype UploadSummary = UploadSummary(id: int, name: string, uspsCount: nat, termsCount: nat, objectionsCount: nat)

  /**
   * The checks of `upload_product`, in order: the size of the file, reading
   * its text, the length of the text, then the USP extractor. A failing
   * reader or extractor raises, which the server answers with a 500.
   */
  function UploadError(size: nat, rawText: Option<string>, extracted: Option<Extraction>): (r: Option<HttpError>)
    ensures size > MaxUploadBytes ==> r == Some(HttpError(400, "File too large (max 10MB)"))
    ensures size <= MaxUploadBytes && rawText.None? ==> r == Some(InternalServerError)
    ensures size <= MaxUploadBytes && rawText.Some? && |Strip(rawText.value)| < MinTextLength ==>
      r == Some(HttpError(400, "Document too short to extract USPs from"))
    ensures size <= MaxUploadBytes && rawText.Some? && |Strip(rawText.value)| >= MinTextLength && extracted.None? ==>
      r == Some(InternalServerError)
    ensures r.None? <==>
      size <= MaxUploadBytes && rawText.Some? && |Strip(rawText.value)| >= MinTextLength && extracted.Some?
  {
    if size > MaxUploadBytes then Some(HttpError(400, "File too large (max 10MB)"))
    else if rawText.None? then Some(InternalServerError)
    else if |Strip(rawText.value)| < MinTextLength then Some(HttpError(400, "Document too short to extract USPs from"))
    else if extracted.None? then Some(InternalServerError)
    else None
  }

  /** Exactly 10 MiB is accepted and one byte more is not; fifty non-blank characters are enough. */
  lemma UploadLimits(rawText: string, extracted: Extraction)
    requires NonSpace(rawText) >= 50
    ensures UploadError(10 * 1024 * 1024, Some(rawText), Some(extracted)).None?
    ensures UploadError(10 * 1024 * 1024 + 1, Some(rawText), Some(extracted)) == Some(HttpError(400, "File too large (max 10MB)"))
  {
    StripKeepsNonSpace(rawText);
  }

  /** The row `upload_product` stores: a fresh id and the extractor's lists, a missing list as empty. */
  function NewProduct(products: seq<Product>, userId: int, name: string, rawText: string, extracted: Extraction, now: int): (p: Product)
    ensures forall i :: 0 <= i < |products| ==> products[i].id != p.id
    ensures p.userId == userId && p.name == name && p.rawText == rawText
    ensures p.usps == GetOr(extracted.usps, []) && p.keyTerms == GetOr(extracted.keyTerms, [])
    ensures p.objections == GetOr(extracted.objections, []) && p.clientFrames == GetOr(extracted.clientFrames, JObj([]))
  {
    Product(NextProductId(products), userId, name, rawText, GetOr(extracted.usps, []), GetOr(extracted.keyTerms, []),
      GetOr(extracted.objections, []), GetOr(extracted.clientFrames, JObj([])), now)
  }

  /** The counts `upload_product` answers with: the lengths of the stored lists. */
  function SummaryOfUpload(p: Product): (r: UploadSummary)
    ensures r.id == p.id && r.name == p.name
    ensures r.uspsCount == |p.usps| && r.termsCount == |p.keyTerms| && r.objectionsCount == |p.objections|
  {
    UploadSummary(p.id, p.name, |p.usps|, |p.keyTerms|, |p.objections|)
  }

  /**
   * The source's `upload_product`. The file's bytes, what the PDF reader and
   * the UTF-8 decoder make of them, and the extractor's answer (`None` when
   * it raises) are given.
   */
  method UploadProduct(
    db: Database, userId: int, name: string, filename: string, contents: seq<bv8>,
    pdf: Option<seq<Option<string>>>, decoded: string, extracted: Option<Extraction>, now: int)
    returns (r: Result<UploadSummary>)
    requires db.Valid()
    modifies db
    ensures db.Valid()
    ensures db.sessions == old(db.sessions) && db.scores == old(db.scores) && db.answerScores == old(db.answerScores)
    ensures var rawText := ParseUpload(filename, pdf, decoded);
      var err := UploadError(|contents|, rawText, extracted);
      (err.Some? ==> r == Err(err.value) && db.products == old(db.products))
      && (err.None? ==>
            var p := NewProduct(old(db.products), userId, name, rawText.value, extracted.value, now);
            r == Ok(SummaryOfUpload(p)) && db.products == old(db.products) + [p])
  {
    if |contents| > MaxUploadBytes {
      return Err(HttpError(400, "File too large (max 10MB)"));
    }
    var rawText := ParseUpload(filename, pdf, decoded);
    if rawText.None? {
      return Err(InternalServerError);
    }
    if |Strip(rawText.value)| < MinTextLength {
      return Err(HttpError(400, "Document too short to extract USPs from"));
    }
    if extracted.None? {
      return Err(InternalServerError);
    }
    var product := NewProduct(db.products, userId, name, rawText.value, extracted.value, now);
    db.products := db.products + [product];
    r := Ok(SummaryOfUpload(product));
  }

  // ---------------------------------------------------------------------------
  // Listing, reading and deleting products

  datatype ProductSummary = ProductSummary(id: int, name: string, uspsCount: nat, termsCount: nat, createdAt: int)

  /** A user's products, newest first (creation order reversed). */
  function OwnProductsNewestFirst(products: seq<Product>, userId: int): (r: seq<Product>)
    ensures |r| <= |products|
    ensures forall p :: p in r ==> p in products && p.userId == userId
    ensures forall p :: p in products && p.userId == userId ==> p in r
  {
    if products == [] then []
    else
      var last := products[|products| - 1];
      var rest := OwnProductsNewestFirst(products[..|products| - 1], userId);
      assert products == products[..|products| - 1] + [last];
      if last.userId == userId then [last] + rest else rest
  }

  /** The source's `list_products`: the user's products, newest first, with their list sizes. */
  function ListProducts(products: seq<Product>, userId: int): (r: seq<ProductSummary>)
    ensures var own := OwnProductsNewestFirst(products, userId);
      |r| == |own|
      && forall i :: 0 <= i < |r| ==>
           r[i] == ProductSummary(own[i].id, own[i].name, |own[i].usps|, |own[i].keyTerms|, own[i].createdAt)
  {
    var own := OwnProductsNewestFirst(products, userId);
    seq(|own|, i requires 0 <= i < |own| => ProductSummary(own[i].id, own[i].name, |own[i].usps|, |own[i].keyTerms|, own[i].createdAt))
  }

  /** Of two products of the user, the later-created one is listed first. */
  lemma {:induction false} ListNewestFirst(products: seq<Product>, userId: int, a: nat, b: nat) returns (i: nat, j: nat)
    requires a < b < |products| && products[a].userId == userId && products[b].userId == userId
    ensures var own := OwnProductsNewestFirst(products, userId);
      i < j < |own| && own[i] == products[b] && own[j] == products[a]
  {
    var init := products[..|products| - 1];
    var own := OwnProductsNewestFirst(products, userId);
    var rest := OwnProductsNewestFirst(init, userId);
    if b == |products| - 1 {
      assert products[a] == init[a];
      assert products[a] in rest;
      var k :| 0 <= k < |rest| && rest[k] == products[a];
      assert own == [products[b]] + rest;
      i, j := 0, k + 1;
    } else {
      assert init[a] == products[a] && init[b] == products[b];
      var i', j' := ListNewestFirst(init, userId, a, b);
      if products[|products| - 1].userId == userId {
        assert own == [products[|products| - 1]] + rest;
        i, j := i' + 1, j' + 1;
      } else {
        i, j := i', j';
      }
    }
  }

  datatype ProductDetail = ProductDetail(
    id: int, name: string, usps: seq<Usp>, keyTerms: seq<KeyTerm>, objections: seq<Objection>, clientFrames: Json, createdAt: int)

  /** The source's `get_product`: a missing or foreign product is a 404. */
  function GetProduct(products: seq<Product>, userId: int, productId: int): (r: Result<ProductDetail>)
    ensures FindOwnedProduct(products, productId, userId).None? <==> r == Err(HttpError(404, "Product not found"))
    ensures r.Ok? ==>
      var k := FindOwnedProduct(products, productId, userId);
      k.Some? && products[k.value].id == productId && products[k.value].userId == userId
      && var p := products[k.value];
      r.value.id == p.id && r.value.name == p.name && r.value.usps == p.usps && r.value.keyTerms == p.keyTerms
      && r.value.objections == p.objections && r.value.clientFrames == p.clientFrames && r.value.createdAt == p.createdAt
  {
    var found := FindOwnedProduct(products, productId, userId);
    if found.None? then Err(HttpError(404, "Product not found"))
    else
      var p := products[found.value];
      Ok(ProductDetail(p.id, p.name, p.usps, p.keyTerms, p.objections, p.clientFrames, p.createdAt))
  }

  /** The products without the `i`-th. */
  function RemoveAt(products: seq<Product>, i: nat): (r: seq<Product>)
    requires i < |products|
    ensures |r| == |products| - 1
    ensures forall j :: 0 <= j < i ==> r[j] == products[j]
    ensures forall j :: i <= j < |r| ==> r[j] == products[j + 1]
  {
    products[..i] + products[i + 1..]
  }

  /** The source's `delete_product`: a missing or foreign product is a 404, otherwise that product alone goes. */
  method DeleteProduct(db: Database, userId: int, productId: int) returns (r: Result<string>)
    requires db.Valid()
    modifies db
    ensures db.Valid()
    ensures db.sessions == old(db.sessions) && db.scores == old(db.scores) && db.answerScores == old(db.answerScores)
    ensures FindOwnedProduct(old(db.products), productId, userId).None? ==>
      r == Err(HttpError(404, "Product not found")) && db.products == old(db.products)
    ensures FindOwnedProduct(old(db.products), productId, userId).Some? ==>
      r == Ok("Product deleted") && db.products == RemoveAt(old(db.products), FindOwnedProduct(old(db.products), productId, userId).value)
  {
    var found := FindOwnedProduct(db.products, productId, userId);
    if found.None? {
      return Err(HttpError(404, "Product not found"));
    }
    db.products := RemoveAt(db.products, found.value);
    r := Ok("Product deleted");
  }

  /**
   * `delete_product` as the ORM runs it: `Product.sessions` has no delete
   * cascade, so deleting the product first sets `product_id` of each of its
   * sessions to NULL, which the NOT NULL column refuses; the request fails
   * with a 500 and the transaction is rolled back.
   */
  function DeleteAsWritten(products: seq<Product>, sessions: seq<SessionRow>, userId: int, productId: int): (r: Result<string>)
    ensures FindOwnedProduct(products, productId, userId).None? ==> r == Err(HttpError(404, "Product not found"))
    ensures FindOwnedProduct(products, productId, userId).Some? ==>
      (r == Err(InternalServerError) <==> exists j :: 0 <= j < |sessions| && sessions[j].productId == productId)
    ensures r.Ok? <==>
      FindOwnedProduct(products, productId, userId).Some? && forall j :: 0 <= j < |sessions| ==> sessions[j].productId != productId
  {
    if FindOwnedProduct(products, productId, userId).None? then Err(HttpError(404, "Product not found"))
    else if exists j :: 0 <= j < |sessions| && sessions[j].productId == productId then Err(InternalServerError)
    else Ok("Product deleted")
  }

  /**
   * A product that has been practised with once cannot be deleted as
   * written, while `DeleteProduct` removes it.
   */
  lemma DeleteAfterPracticeFails()
    ensures var p := Product(1, 7, "Widget", "", [], [], [], JObj([]), 0);
      var s := SessionRow(1, 7, 1, "skeptical_buyer", None, [], "completed", 0);
      DeleteAsWritten([p], [s], 7, 1) == Err(InternalServerError)
      && FindOwnedProduct([p], 1, 7) == Some(0) && RemoveAt([p], 0) == []
  {
    var p := Product(1, 7, "Widget", "", [], [], [], JObj([]), 0);
    var s := SessionRow(1, 7, 1, "skeptical_buyer", None, [], "completed", 0);
    assert [s][0].productId == 1;
  }

  /** With unique ids, deleting a product leaves no product with its id and keeps every other product. */
  lemma DeleteRemovesOnlyIt(products: seq<Product>, i: nat)
    requires i < |products| && UniqueProductIds(products)
    ensures var r := RemoveAt(products, i);
      UniqueProductIds(r)
      && (forall p :: p in r ==> p.id != products[i].id)
      && (forall j :: 0 <= j < |products| && j != i ==> products[j] in r)
  {
    var r := RemoveAt(products, i);
    forall j | 0 <= j < |products| && j != i
      ensures products[j] in r
    {
      if j < i {
        assert r[j] == products[j];
      } else {
        assert r[j - 1] == products[j];
      }
    }
  }
}
