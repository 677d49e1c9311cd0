/**
 * The extraction helpers of src/scraper/screenshot-helper.ts: the
 * https links of a page and its long-form description, plus the content
 * type of a screenshot upload.
 *
 * The HTML parser is not modelled. A loaded page is given as the values
 * of its `a[href]` attributes in document order and, for each element
 * that can be the description root, the elements below it in document
 * order with their tag name and `.text()`.
 */
module Extraction {
  import opened Wrappers
  import opened Text
  import opened Url

  /** An element as the parser reports it. */
  datatype Element = Element(tagName: string, text: string)

  /** The descendants of one element, in document order. */
  type Region = seq<Element>

  /**
   * A loaded page: its `a[href]` values, the descendants of every
   * `article`, `main` and `section` element (in document order), and
   * the descendants of `body`.
   */
  datatype Document = Document(
    hrefs: seq<string>, articles: seq<Region>, mains: seq<Region>, sections: seq<Region>, body: Region)

  // ---------------------------------------------------------------- links

  /** What one `href` contributes: the normalised form of an absolute https URL, and nothing otherwise. */
  function LinkOf(href: string, parse: UrlParser): (r: Option<string>)
    ensures r.Some? <==> href != "" && parse(href).Some? && parse(href).value.protocol == "https:"
    ensures r.Some? ==> r.value == parse(href).value.href
  {
    if href == "" then None
    else match parse(href)
      case None => None
      case Some(u) => if u.protocol == "https:" then Some(u.href) else None
  }

  /** The links of `hrefs` in order, repeats included. */
  function Candidates(hrefs: seq<string>, parse: UrlParser): (r: seq<string>)
    ensures forall l :: l in r ==> exists h :: h in hrefs && LinkOf(h, parse) == Some(l)
    ensures forall h :: h in hrefs && LinkOf(h, parse).Some? ==> LinkOf(h, parse).value in r
  {
    if hrefs == [] then []
    else
      var init := hrefs[..|hrefs| - 1];
      var last := hrefs[|hrefs| - 1];
      assert forall h :: h in hrefs ==> h in init || h == last;
      Candidates(init, parse) + (match LinkOf(last, parse) case Some(l) => [l] case None => [])
  }

  /** The first occurrence of every element of `xs`, in order: what an insertion-ordered `Set` holds. */
  function Dedup(xs: seq<string>): (r: seq<string>)
    ensures forall x :: x in r <==> x in xs
    ensures forall i, j :: 0 <= i < j < |r| ==> r[i] != r[j]
  {
    if xs == [] then []
    else
      var d := Dedup(xs[..|xs| - 1]);
      var last := xs[|xs| - 1];
      assert forall x :: x in xs <==> x in xs[..|xs| - 1] || x == last;
      if last in d then d else d + [last]
  }

  /** The position of the first occurrence of `x` in `xs`. */
  function FirstIndex(xs: seq<string>, x: string): (k: nat)
    requires x in xs
    ensures k < |xs| && xs[k] == x && forall i :: 0 <= i < k ==> xs[i] != x
  {
    if xs[0] == x then 0 else 1 + FirstIndex(xs[1..], x)
  }

  lemma FirstIndexOfPrefix(xs: seq<string>, ys: seq<string>, x: string)
    requires x in xs
    ensures FirstIndex(xs + ys, x) == FirstIndex(xs, x)
  {
    var k := FirstIndex(xs, x);
    var k' := FirstIndex(xs + ys, x);
    assert (xs + ys)[k] == x;
  }

  /** `Dedup` keeps elements in the order of their first occurrences. */
  lemma {:induction false} DedupKeepsFirstOccurrenceOrder(xs: seq<string>)
    ensures forall i, j :: 0 <= i < j < |Dedup(xs)| ==> FirstIndex(xs, Dedup(xs)[i]) < FirstIndex(xs, Dedup(xs)[j])
  {
    if xs != [] {
      var init := xs[..|xs| - 1];
      var last := xs[|xs| - 1];
      var d := Dedup(init);
      DedupKeepsFirstOccurrenceOrder(init);
      assert xs == init + [last];
      forall x | x in init ensures FirstIndex(xs, x) == FirstIndex(init, x) {
        FirstIndexOfPrefix(init, [last], x);
      }
      if last !in d {
        var r := d + [last];
        assert FirstIndex(xs, last) == |init|;
        forall i, j | 0 <= i < j < |r| ensures FirstIndex(xs, r[i]) < FirstIndex(xs, r[j]) {
          if j < |d| {
            assert r[i] == d[i] && r[j] == d[j] && d[i] in init && d[j] in init;
            assert FirstIndex(xs, r[i]) == FirstIndex(init, r[i]);
            assert FirstIndex(xs, r[j]) == FirstIndex(init, r[j]);
          } else {
            assert r[i] == d[i] && d[i] in init && r[j] == last;
            assert FirstIndex(xs, r[i]) == FirstIndex(init, r[i]) < |init|;
            assert FirstIndex(xs, r[j]) == |init|;
          }
        }
      }
    }
  }

  /** The links `extractLinks` returns, in the order it returns them. */
  function Links(hrefs: seq<string>, parse: UrlParser): seq<string> {
    Dedup(Candidates(hrefs, parse))
  }

  /**
   * `CheerioHelper.extractLinks`: every absolute https link of the page,
   * normalised, once each, in the order it first appears. Empty,
   * relative, malformed and non-https hrefs are skipped.
   */
  method ExtractLinks(hrefs: seq<string>, parse: UrlParser) returns (links: seq<string>)
    ensures links == Links(hrefs, parse)
    ensures forall l :: l in links <==> exists h :: h in hrefs && LinkOf(h, parse) == Some(l)
    ensures forall i, j :: 0 <= i < j < |links| ==> links[i] != links[j]
  {
    links := [];
    var i := 0;
    while i < |hrefs|
      invariant 0 <= i <= |hrefs|
      invariant links == Dedup(Candidates(hrefs[..i], parse))
    {
      var href := hrefs[i];
      ghost var before := Candidates(hrefs[..i], parse);
      assert hrefs[..i + 1][..i] == hrefs[..i] && hrefs[..i + 1][i] == href;
      ghost var link := LinkOf(href, parse);
      assert Candidates(hrefs[..i + 1], parse)
        == before + (match link case Some(l) => [l] case None => []);
      if href != "" {
        var u := parse(href);
        if u.Some? && u.value.protocol == "https:" {
          assert link == Some(u.value.href);
          assert (before + [u.value.href])[..|before|] == before;
          if u.value.href !in links {
            links := links + [u.value.href];
          }
        } else {
          assert before + [] == before;
        }
      } else {
        assert before + [] == before;
      }
      i := i + 1;
    }
    assert hrefs[..i] == hrefs;
  }

  // ---------------------------------------------------------- description

  /** The root of the description: the first `article`, else the first `main`, else the first `section`, else `body`. */
  function DescriptionRoot(d: Document): (r: Region)
    ensures d.articles != [] ==> r == d.articles[0]
    ensures d.articles == [] && d.mains != [] ==> r == d.mains[0]
    ensures d.articles == [] && d.mains == [] && d.sections != [] ==> r == d.sections[0]
    ensures d.articles == [] && d.mains == [] && d.sections == [] ==> r == d.body
  {
    if d.articles != [] then d.articles[0]
    else if d.mains != [] then d.mains[0]
    else if d.sections != [] then d.sections[0]
    else d.body
  }

  /** The tags the description selector matches. */
  const SelectedTags: set<string> := {"h1", "h2", "h3", "p", "li", "blockquote", "ul", "ol"}

  predicate IsHeading(tag: string) {
    tag == "h1" || tag == "h2" || tag == "h3"
  }

  /** `Number(tag[1])` for a heading tag. */
  function HeadingLevel(tag: string): (n: nat)
    requires IsHeading(tag)
    ensures 1 <= n <= 3
    ensures |tag| == 2 && n == (tag[1] as int) - ('0' as int)
  {
    if tag == "h1" then 1 else if tag == "h2" then 2 else 3
  }

  /** How one element's trimmed text is written into the description. */
  function FormatItem(tag: string, text: string): string {
    if IsHeading(tag) then "\n" + Repeat('#', HeadingLevel(tag)) + " " + text
    else if tag == "blockquote" then "> " + text
    else if tag == "li" then "\U{2022} " + text
    else text
  }

  /** Every formatted item ends with the element's text, after a marker that depends only on the tag. */
  lemma FormatItemLayout(tag: string, text: string)
    ensures var r := FormatItem(tag, text);
      && |r| >= |text| && r[|r| - |text|..] == text
      && (IsHeading(tag) ==> r[..|r| - |text|] == "\n" + Repeat('#', HeadingLevel(tag)) + " ")
      && (tag == "blockquote" ==> r[..|r| - |text|] == "> ")
      && (tag == "li" ==> r[..|r| - |text|] == "\U{2022} ")
      && (!IsHeading(tag) && tag != "blockquote" && tag != "li" ==> r == text)
  {
    var r := FormatItem(tag, text);
    if IsHeading(tag) {
      var m := "\n" + Repeat('#', HeadingLevel(tag)) + " ";
      assert r == m + text;
    } else if tag == "blockquote" {
      assert r == "> " + text;
    } else if tag == "li" {
      assert r == "\U{2022} " + text;
    }
  }

  /** What one element contributes: nothing unless its tag is selected and its trimmed text is not empty. */
  function ItemOf(e: Element): Option<string> {
    var tag := ToLower(e.tagName);
    var text := Trim(e.text);
    if tag !in SelectedTags || text == "" then None else Some(FormatItem(tag, text))
  }

  /** The items of a region, in document order. */
  function DescriptionItems(region: Region): (r: seq<string>)
    ensures |r| <= |region|
    ensures forall item :: item in r ==> exists e :: e in region && ItemOf(e) == Some(item)
    ensures forall e :: e in region && ItemOf(e).Some? ==> ItemOf(e).value in r
  {
    if region == [] then []
    else
      var init := region[..|region| - 1];
      var last := region[|region| - 1];
      assert forall e :: e in region ==> e in init || e == last;
      DescriptionItems(init) + (match ItemOf(last) case Some(item) => [item] case None => [])
  }

  /** The description `extractLongFormDescription` returns. */
  function Description(d: Document): string {
    Trim(Join(DescriptionItems(DescriptionRoot(d)), "\n\n"))
  }

  /**
   * `CheerioHelper.extractLongFormDescription`: the formatted items of
   * the root, joined by blank lines, trimmed.
   */
  method ExtractLongFormDescription(d: Document) returns (description: string)
    ensures description == Description(d)
  {
    var root := DescriptionRoot(d);
    var result: seq<string> := [];
    var i := 0;
    while i < |root|
      invariant 0 <= i <= |root|
      invariant result == DescriptionItems(root[..i])
    {
      assert root[..i + 1][..i] == root[..i];
      var item := ItemOf(root[i]);
      if item.Some? {
        result := result + [item.value];
      }
      i := i + 1;
    }
    assert root[..i] == root;
    description := Trim(Join(result, "\n\n"));
  }

  /** An element whose trimmed text is empty adds nothing. */
  lemma BlankElementAddsNothing(region: Region, e: Element)
    requires Blank(e.text)
    ensures DescriptionItems(region + [e]) == DescriptionItems(region)
  {
    TrimEmptyIff(e.text);
    assert (region + [e])[..|region|] == region;
  }

  /** An item with a non-blank text is not blank. */
  lemma ItemIsNotBlank(e: Element)
    requires ItemOf(e).Some?
    ensures !Blank(ItemOf(e).value)
  {
    var text := Trim(e.text);
    var item := ItemOf(e).value;
    TrimEmptyIff(e.text);
    TrimmedHasNoOuterSpace(e.text);
    FormatItemLayout(ToLower(e.tagName), text);
    assert item[|item| - |text|] == text[0];
  }

  /** The description is empty exactly when no element of the root contributes an item. */
  lemma DescriptionEmptyIff(d: Document)
    ensures Description(d) == "" <==> forall e :: e in DescriptionRoot(d) ==> ItemOf(e).None?
  {
    var root := DescriptionRoot(d);
    var items := DescriptionItems(root);
    var joined := Join(items, "\n\n");
    TrimEmptyIff(joined);
    if items == [] {
      assert joined == "";
    } else {
      var e :| e in root && ItemOf(e) == Some(items[0]);
      ItemIsNotBlank(e);
      JoinStartsWithFirst(items, "\n\n");
      var k :| 0 <= k < |items[0]| && !IsSpace(items[0][k]);
      assert joined[k] == items[0][k];
    }
  }

  // ----------------------------------------------------------- screenshots

  datatype ImageType = Png | Jpeg

  /** The content type of a screenshot upload. */
  function ContentType(t: ImageType): (r: string)
    ensures r == "image/png" <==> t == Png
    ensures r == "image/jpeg" <==> t == Jpeg
  {
    assert |"image/png"| != |"image/jpeg"|;
    match t
    case Png => "image/png"
    case Jpeg => "image/jpeg"
  }
}
