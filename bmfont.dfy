/**
 * The bitmap-font importer: reads an AngelCode BMFont descriptor (sections `font/info`,
 * `font/common`, `font/pages`, `font/chars`) into a font-file record, builds the map from
 * character code to glyph, collects one texture per page, and answers glyph and page
 * lookups.
 */
module BMFonts {
  import opened Options
  import opened Markup

  /** The parsed document: the four sections, with the repeated `page` and `char`
      children as ordered lists. */
  datatype FontDocument = FontDocument(
    info: Element,
    common: Element,
    pageElems: seq<Element>,
    chars: Element,
    charElems: seq<Element>)

  datatype BMFontInfo = BMFontInfo(
    face: string, charset: string, padding: string,
    size: int, bold: int, italic: int, unicode: int, stretchH: int,
    smooth: int, antiAliasing: int,
    padX: int, padY: int, padW: int, padH: int,
    spacingX: int, spacingY: int, outline: int)

  datatype BMFontCommon = BMFontCommon(
    lineHeight: int, base: int, scaleW: int, scaleH: int, pages: int, packed: int,
    alphaChannel: int, redChannel: int, greenChannel: int, blueChannel: int)

  datatype BMFontPage = BMFontPage(id: int, file: string)

  /** One glyph: its character code, atlas rectangle, draw offsets, advance, page and channel. */
  datatype FontChar = FontChar(
    id: int, x: int, y: int, width: int, height: int,
    xOffset: int, yOffset: int, xAdvance: int, page: int, channel: int)

  datatype BMFontFile = BMFontFile(
    info: BMFontInfo, common: BMFontCommon, pages: seq<BMFontPage>, chars: seq<FontChar>)

  /** A texture handed out by the resource manager; only its identity matters here. */
  class Texture {
    constructor () {}
  }

  const BlankInfo := BMFontInfo("", "", "", 0, 0, 0, 0, 0, 0, 0, 0, 0, 0, 0, 0, 0, 0)
  const BlankCommon := BMFontCommon(0, 0, 0, 0, 0, 0, 0, 0, 0, 0)

  // ---------------------------------------------------------------------------
  // Section readers

  /** What the info reader dereferences: the four text attributes are present, and the
      padding and spacing lists have at least four and two values. */
  predicate InfoReadable(doc: FontDocument)
  {
    && "face" in doc.info.strs && "charset" in doc.info.strs
    && "padding" in doc.info.strs && "spacing" in doc.info.strs
    && |Split(doc.info.strs["padding"], ',')| >= 4
    && |Split(doc.info.strs["spacing"], ',')| >= 2
  }

  /** Every `page` element carries the `file` attribute the page reader copies. */
  predicate PageFilesPresent(doc: FontDocument)
  {
    forall i :: 0 <= i < |doc.pageElems| ==> "file" in doc.pageElems[i].strs
  }

  /** Fills the info block.  `toInt` is the conversion of one comma-separated item to an
      integer. */
  function ReadFontInfo(doc: FontDocument, toInt: string -> int): (info: BMFontInfo)
    requires InfoReadable(doc)
    ensures info.face == doc.info.strs["face"] && info.charset == doc.info.strs["charset"]
    ensures info.padding == doc.info.strs["padding"]
    ensures var pad := Split(info.padding, ',');
      && info.padX == toInt(pad[0]) && info.padY == toInt(pad[1])
      && info.padW == toInt(pad[2]) && info.padH == toInt(pad[3])
    ensures var spacing := Split(doc.info.strs["spacing"], ',');
      info.spacingX == toInt(spacing[0]) && info.spacingY == toInt(spacing[1])
    ensures && info.size == IntAttribute(doc.info, "size")
            && info.bold == IntAttribute(doc.info, "bold")
            && info.italic == IntAttribute(doc.info, "italic")
            && info.unicode == IntAttribute(doc.info, "unicode")
            && info.stretchH == IntAttribute(doc.info, "stretchH")
            && info.smooth == IntAttribute(doc.info, "smooth")
            && info.antiAliasing == IntAttribute(doc.info, "aa")
            && info.outline == IntAttribute(doc.info, "outline")
  {
    var e := doc.info;
    var padding := e.strs["padding"];
    var paddingValues := Split(padding, ',');
    var spacingValues := Split(e.strs["spacing"], ',');
    BMFontInfo(
      e.strs["face"], e.strs["charset"], padding,
      IntAttribute(e, "size"), IntAttribute(e, "bold"), IntAttribute(e, "italic"),
      IntAttribute(e, "unicode"), IntAttribute(e, "stretchH"), IntAttribute(e, "smooth"),
      IntAttribute(e, "aa"),
      toInt(paddingValues[0]), toInt(paddingValues[1]),
      toInt(paddingValues[2]), toInt(paddingValues[3]),
      toInt(spacingValues[0]), toInt(spacingValues[1]),
      IntAttribute(e, "outline"))
  }

  /** Fills the common block. */
  function ReadFontCommon(doc: FontDocument): (common: BMFontCommon)
    ensures && common.lineHeight == IntAttribute(doc.common, "lineHeight")
            && common.base == IntAttribute(doc.common, "base")
            && common.scaleW == IntAttribute(doc.common, "scaleW")
            && common.scaleH == IntAttribute(doc.common, "scaleH")
            && common.pages == IntAttribute(doc.common, "pages")
            && common.packed == IntAttribute(doc.common, "packed")
            && common.alphaChannel == IntAttribute(doc.common, "alphaChnl")
            && common.redChannel == IntAttribute(doc.common, "redChnl")
            && common.greenChannel == IntAttribute(doc.common, "greenChnl")
            && common.blueChannel == IntAttribute(doc.common, "blueChnl")
  {
    var e := doc.common;
    BMFontCommon(
      IntAttribute(e, "lineHeight"), IntAttribute(e, "base"),
      IntAttribute(e, "scaleW"), IntAttribute(e, "scaleH"),
      IntAttribute(e, "pages"), IntAttribute(e, "packed"),
      IntAttribute(e, "alphaChnl"), IntAttribute(e, "redChnl"),
      IntAttribute(e, "greenChnl"), IntAttribute(e, "blueChnl"))
  }

  function PageOf(e: Element): BMFontPage
    requires "file" in e.strs
  {
    BMFontPage(IntAttribute(e, "id"), e.strs["file"])
  }

  /** The page records of the `page` elements, in document order. */
  function PagesOf(elems: seq<Element>): seq<BMFontPage>
    requires forall i :: 0 <= i < |elems| ==> "file" in elems[i].strs
  {
    seq(|elems|, i requires 0 <= i < |elems| => PageOf(elems[i]))
  }

  /** Appends one page per `page` element, walking the sibling pointer until it is null. */
  method ReadFontPages(doc: FontDocument, file: BMFontFile) returns (r: BMFontFile)
    requires PageFilesPresent(doc)
    ensures r == file.(pages := file.pages + PagesOf(doc.pageElems))
    ensures |r.pages| == |file.pages| + |doc.pageElems|
    ensures forall k :: 0 <= k < |doc.pageElems| ==>
      && r.pages[|file.pages| + k].id == IntAttribute(doc.pageElems[k], "id")
      && r.pages[|file.pages| + k].file == doc.pageElems[k].strs["file"]
  {
    var elems := doc.pageElems;
    var pages := file.pages;
    var pageElement := FirstChildElement(elems);
    ghost var steps: nat := 0;
    while pageElement.Some?
      invariant steps <= |elems|
      invariant pageElement == CursorAt(elems, steps)
      invariant pages == file.pages + PagesOf(elems[..steps])
      decreases |elems| - steps
    {
      CursorAtIndex(elems, steps);
      var p := PageOf(elems[pageElement.value]);
      pages := pages + [p];
      pageElement := NextSiblingElement(elems, pageElement.value);
      assert PagesOf(elems[..steps + 1]) == PagesOf(elems[..steps]) + [p];
      steps := steps + 1;
    }
    CursorAtIndex(elems, steps);
    assert elems[..steps] == elems;
    r := file.(pages := pages);
  }

  function GlyphOf(e: Element): FontChar
  {
    FontChar(
      IntAttribute(e, "id"), IntAttribute(e, "x"), IntAttribute(e, "y"),
      IntAttribute(e, "width"), IntAttribute(e, "height"),
      IntAttribute(e, "xoffset"), IntAttribute(e, "yoffset"),
      IntAttribute(e, "xadvance"), IntAttribute(e, "page"), IntAttribute(e, "chnl"))
  }

  /** The glyphs of the first `n` `char` elements, in document order. */
  function GlyphsOf(elems: seq<Element>, n: nat): seq<FontChar>
    requires n <= |elems|
  {
    seq(n, i requires 0 <= i < n => GlyphOf(elems[i]))
  }

  /** The `count` attribute of `chars`, which the loop trusts; a negative count runs no
      iterations. */
  function DeclaredChars(doc: FontDocument): nat
  {
    var count := IntAttribute(doc.chars, "count");
    if count < 0 then 0 else count
  }

  /** As written, iteration i of the glyph loop reads through the cursor after i steps;
      true when one of the `count` iterations finds that cursor null. */
  predicate ReadsNullChar(doc: FontDocument)
  {
    exists i: nat :: i < IntAttribute(doc.chars, "count") && CursorAt(doc.charElems, i).None?
  }

  /** The loop as written dereferences null exactly when the declared count exceeds the
      number of `char` elements present. */
  lemma ReadsNullCharIffShort(doc: FontDocument)
    ensures ReadsNullChar(doc) <==> IntAttribute(doc.chars, "count") > |doc.charElems|
  {
    var n := |doc.charElems|;
    if IntAttribute(doc.chars, "count") > n {
      CursorAtIndex(doc.charElems, n);
    }
    forall i: nat | CursorAt(doc.charElems, i).None?
      ensures i >= n
    {
      CursorAtIndex(doc.charElems, i);
    }
  }

  /** Appends the declared number of glyphs, glyph i read from the i-th `char` element.
      Where the loop as written would dereference a null sibling, this reader stops and
      reports failure, leaving the file as it was. */
  method ReadFontChars(doc: FontDocument, file: BMFontFile) returns (ok: bool, r: BMFontFile)
    ensures ok <==> IntAttribute(doc.chars, "count") <= |doc.charElems|
    ensures !ok ==> r == file
    ensures ok ==> DeclaredChars(doc) <= |doc.charElems|
    ensures ok ==> r == file.(chars := file.chars + GlyphsOf(doc.charElems, DeclaredChars(doc)))
    ensures ok ==> |r.chars| == |file.chars| + DeclaredChars(doc)
    ensures ok ==> forall k :: 0 <= k < DeclaredChars(doc) ==>
        && r.chars[|file.chars| + k].id == IntAttribute(doc.charElems[k], "id")
        && r.chars[|file.chars| + k].x == IntAttribute(doc.charElems[k], "x")
        && r.chars[|file.chars| + k].y == IntAttribute(doc.charElems[k], "y")
        && r.chars[|file.chars| + k].width == IntAttribute(doc.charElems[k], "width")
        && r.chars[|file.chars| + k].height == IntAttribute(doc.charElems[k], "height")
        && r.chars[|file.chars| + k].xOffset == IntAttribute(doc.charElems[k], "xoffset")
        && r.chars[|file.chars| + k].yOffset == IntAttribute(doc.charElems[k], "yoffset")
        && r.chars[|file.chars| + k].xAdvance == IntAttribute(doc.charElems[k], "xadvance")
        && r.chars[|file.chars| + k].page == IntAttribute(doc.charElems[k], "page")
        && r.chars[|file.chars| + k].channel == IntAttribute(doc.charElems[k], "chnl")
  {
    var elems := doc.charElems;
    var count := IntAttribute(doc.chars, "count");
    var chars := file.chars;
    var charElement := FirstChildElement(elems);
    var i := 0;
    while i < count
      invariant 0 <= i <= DeclaredChars(doc) && i <= |elems|
      invariant charElement == CursorAt(elems, i)
      invariant chars == file.chars + GlyphsOf(elems, i)
    {
      CursorAtIndex(elems, i);
      if charElement.None? {
        return false, file;
      }
      var c := GlyphOf(elems[charElement.value]);
      chars := chars + [c];
      charElement := NextSiblingElement(elems, charElement.value);
      assert GlyphsOf(elems, i + 1) == GlyphsOf(elems, i) + [c];
      i := i + 1;
    }
    return true, file.(chars := chars);
  }

  // ---------------------------------------------------------------------------
  // Character map and page textures

  /** The map after `m[c.id] := c` for each glyph of `cs` in order. */
  function InsertAll(m: map<int, FontChar>, cs: seq<FontChar>): map<int, FontChar>
  {
    if |cs| == 0 then m
    else InsertAll(m, cs[..|cs| - 1])[cs[|cs| - 1].id := cs[|cs| - 1]]
  }

  function IdsOf(cs: seq<FontChar>): set<int>
  {
    set c | c in cs :: c.id
  }

  /** The keys of the character map are the old keys and the ids of the glyphs. */
  lemma {:induction false} InsertAllKeys(m: map<int, FontChar>, cs: seq<FontChar>)
    ensures InsertAll(m, cs).Keys == m.Keys + IdsOf(cs)
  {
    if |cs| > 0 {
      var init := cs[..|cs| - 1];
      InsertAllKeys(m, init);
      assert cs == init + [cs[|cs| - 1]];
      assert IdsOf(cs) == IdsOf(init) + {cs[|cs| - 1].id};
    }
  }

  /** On duplicate ids the last glyph wins: a glyph with no later glyph of the same id is
      what the map holds for that id. */
  lemma {:induction false} InsertAllLastWins(m: map<int, FontChar>, cs: seq<FontChar>, j: nat)
    requires j < |cs|
    requires forall k :: j < k < |cs| ==> cs[k].id != cs[j].id
    ensures cs[j].id in InsertAll(m, cs) && InsertAll(m, cs)[cs[j].id] == cs[j]
  {
    if j < |cs| - 1 {
      InsertAllLastWins(m, cs[..|cs| - 1], j);
    }
  }

  /** With pairwise distinct ids, a fresh character map holds exactly one entry per glyph. */
  lemma {:induction false} InsertAllDistinctSize(cs: seq<FontChar>)
    requires forall j, k :: 0 <= j < k < |cs| ==> cs[j].id != cs[k].id
    ensures |InsertAll(map[], cs)| == |cs|
  {
    InsertAllKeys(map[], cs);
    DistinctIdsCount(cs);
  }

  lemma {:induction false} DistinctIdsCount(cs: seq<FontChar>)
    requires forall j, k :: 0 <= j < k < |cs| ==> cs[j].id != cs[k].id
    ensures |IdsOf(cs)| == |cs|
  {
    if |cs| > 0 {
      var init := cs[..|cs| - 1];
      var last := cs[|cs| - 1];
      DistinctIdsCount(init);
      assert cs == init + [last];
      assert IdsOf(cs) == IdsOf(init) + {last.id};
      assert last.id !in IdsOf(init);
    }
  }

  /** Codes that no glyph carries keep what the map held before. */
  lemma {:induction false} InsertAllKeepsOthers(m: map<int, FontChar>, cs: seq<FontChar>, code: int)
    requires code !in IdsOf(cs)
    ensures code in InsertAll(m, cs) <==> code in m
    ensures code in m ==> InsertAll(m, cs)[code] == m[code]
  {
    if |cs| > 0 {
      var init := cs[..|cs| - 1];
      assert IdsOf(init) <= IdsOf(cs) by {
        forall c | c in init ensures c in cs { }
      }
      InsertAllKeepsOthers(m, init, code);
    }
  }

  /** The textures whose open returned non-null, in page order. */
  function OpenedTextures(pages: seq<BMFontPage>, open: string -> Texture?): seq<Texture>
  {
    if |pages| == 0 then []
    else
      var t := open(pages[|pages| - 1].file);
      OpenedTextures(pages[..|pages| - 1], open) + (if t != null then [t] else [])
  }

  /** The indices of the pages whose open returned non-null, in page order. */
  function OpenedPages(pages: seq<BMFontPage>, open: string -> Texture?): seq<nat>
  {
    if |pages| == 0 then []
    else
      OpenedPages(pages[..|pages| - 1], open)
        + (if open(pages[|pages| - 1].file) != null then [|pages| - 1] else [])
  }

  /** The texture list is the subsequence of page textures that opened: one entry per such
      page, in increasing page order, and none for a page whose open returned null. */
  lemma {:induction false} OpenedTexturesSubsequence(pages: seq<BMFontPage>, open: string -> Texture?)
    ensures var idx := OpenedPages(pages, open);
      && |idx| == |OpenedTextures(pages, open)| <= |pages|
      && (forall k :: 0 <= k < |idx| ==>
            idx[k] < |pages| && open(pages[idx[k]].file) == OpenedTextures(pages, open)[k])
      && (forall k, l :: 0 <= k < l < |idx| ==> idx[k] < idx[l])
      && (forall p :: 0 <= p < |pages| && open(pages[p].file) != null ==> p in idx)
  {
    if |pages| > 0 {
      var init := pages[..|pages| - 1];
      OpenedTexturesSubsequence(init, open);
      forall p | 0 <= p < |init| ensures init[p] == pages[p] { }
    }
  }

  // ---------------------------------------------------------------------------
  // The font asset

  /** The font file after reading the four sections of `doc` into `file`. */
  function ParsedFile(file: BMFontFile, doc: FontDocument, toInt: string -> int): BMFontFile
    requires InfoReadable(doc) && PageFilesPresent(doc)
    requires DeclaredChars(doc) <= |doc.charElems|
  {
    BMFontFile(
      ReadFontInfo(doc, toInt),
      ReadFontCommon(doc),
      file.pages + PagesOf(doc.pageElems),
      file.chars + GlyphsOf(doc.charElems, DeclaredChars(doc)))
  }

  class BMFont {
    var fontFile: BMFontFile
    var charMap: map<int, FontChar>
    var textures: seq<Texture>

    constructor ()
      ensures fontFile.pages == [] && fontFile.chars == []
      ensures charMap == map[] && textures == []
    {
      fontFile := BMFontFile(BlankInfo, BlankCommon, [], []);
      charMap := map[];
      textures := [];
    }

    /** Loads the font from a document, `None` when the document failed to load.
        `openTexture` is the resource manager's texture request, null on failure. */
    method InitFromFile(doc: Option<FontDocument>, openTexture: string -> Texture?,
                        toInt: string -> int) returns (ok: bool)
      requires doc.Some? ==> InfoReadable(doc.value) && PageFilesPresent(doc.value)
      modifies this
      ensures ok <==> doc.Some? && IntAttribute(doc.value.chars, "count") <= |doc.value.charElems|
      ensures !ok ==> fontFile == old(fontFile) && charMap == old(charMap) && textures == old(textures)
      ensures ok ==> fontFile == ParsedFile(old(fontFile), doc.value, toInt)
      ensures ok ==> charMap == InsertAll(old(charMap), fontFile.chars)
      ensures ok ==> textures == old(textures) + OpenedTextures(fontFile.pages, openTexture)
    {
      if doc.None? {
        return false;
      }
      var d := doc.value;
      var file := fontFile.(info := ReadFontInfo(d, toInt), common := ReadFontCommon(d));
      file := ReadFontPages(d, file);
      var charsOk;
      charsOk, file := ReadFontChars(d, file);
      if !charsOk {
        return false;
      }
      assert file == ParsedFile(old(fontFile), d, toInt);
      fontFile := file;
      MapChars(file.chars);
      OpenPageTextures(file.pages, openTexture);
      ok := true;
    }

    /** Enters every glyph into the character map, in order, so that the last glyph of an
        id is the one kept. */
    method MapChars(chars: seq<FontChar>)
      modifies this`charMap
      ensures charMap == InsertAll(old(charMap), chars)
    {
      var i := 0;
      while i < |chars|
        invariant i <= |chars|
        invariant charMap == InsertAll(old(charMap), chars[..i])
      {
        var c := chars[i];
        charMap := charMap[c.id := c];
        assert chars[..i + 1][..i] == chars[..i];
        i := i + 1;
      }
      assert chars[..i] == chars;
    }

    /** Requests the texture of every page, in order, keeping those that opened. */
    method OpenPageTextures(pages: seq<BMFontPage>, openTexture: string -> Texture?)
      modifies this`textures
      ensures textures == old(textures) + OpenedTextures(pages, openTexture)
    {
      var j := 0;
      while j < |pages|
        invariant j <= |pages|
        invariant textures == old(textures) + OpenedTextures(pages[..j], openTexture)
      {
        var texture := openTexture(pages[j].file);
        if texture != null {
          textures := textures + [texture];
        }
        assert pages[..j + 1][..j] == pages[..j];
        j := j + 1;
      }
      assert pages[..j] == pages;
    }

    /** Texture of page `index`, null past the end of the texture list. */
    function PageTexture(index: nat): (t: Texture?)
      reads this
      ensures t != null <==> index < |textures|
      ensures index < |textures| ==> t == textures[index]
    {
      if index >= |textures| then null else textures[index]
    }

    /** The page lookup as written: null when `index > size`, otherwise the read
        `textures[index]`; `None` marks that read falling past the end of the list. */
    function PageTextureAsWritten(index: nat): Option<Texture?>
      reads this
    {
      if index > |textures| then Some(null)
      else if index < |textures| then Some(textures[index])
      else None
    }

    /** The lookup as written reads past the end for exactly one index, the size of the
        texture list, and everywhere else agrees with the corrected lookup. */
    lemma PageTextureAsWrittenOffByOne(index: nat)
      ensures PageTextureAsWritten(index).None? <==> index == |textures|
      ensures PageTextureAsWritten(index).Some? ==> PageTextureAsWritten(index).value == PageTexture(index)
    {
    }

    /** Glyph lookup: whether `c` has a glyph, and the glyph found or else `fontChar`
        (the caller's out-parameter) untouched. */
    function FindChar(c: int, fontChar: FontChar): (r: (bool, FontChar))
      reads this
      ensures r.0 <==> c in charMap
      ensures r.0 ==> r.1 == charMap[c]
      ensures !r.0 ==> r.1 == fontChar
    {
      if c in charMap then (true, charMap[c]) else (false, fontChar)
    }

    /** Line height of the common block, for vertical layout. */
    function LineHeight(): (h: int)
      reads this
      ensures h == fontFile.common.lineHeight
    {
      fontFile.common.lineHeight
    }
  }
}
