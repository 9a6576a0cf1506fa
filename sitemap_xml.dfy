/**
 * The sitemap document shared by the build script and the in-app service:
 * a URL record, its `<url>` block in the sitemaps.org Sitemap XML format 0.9
 * (with the Google image-sitemap extension for `<image:image>` entries),
 * the whole `<urlset>` document, and a decoder that reads the document back.
 *
 * The serialiser concatenates text exactly as the source's template
 * strings do; it escapes nothing. The decoder is the partner that states
 * what the text means: for records whose fields hold no `<`, decoding the
 * document gives back exactly the records, in order, and every image
 * caption names the last path segment of its record's `loc`.
 */
module SitemapXml {
  import opened Wrappers
  import opened Text

  datatype UrlRecord = UrlRecord(
    loc: string,
    lastmod: string,
    changefreq: string,
    priority: string,
    images: seq<string>
  )

  const UrlOpen := "\n  <url>\n    <loc>"
  const LocClose := "</loc>\n    <lastmod>"
  const LastmodClose := "</lastmod>\n    <changefreq>"
  const ChangefreqClose := "</changefreq>\n    <priority>"
  const PriorityClose := "</priority>"
  const UrlClose := "\n  </url>"
  const ImageOpen := "\n    <image:image>\n      <image:loc>"
  const ImageLocClose := "</image:loc>\n      <image:caption>" + "Imagen del contenido - "
  const ImageClose := "</image:caption>\n    </image:image>"

  /** Document head of the build script: sitemap 0.9 namespace plus the image extension. */
  const ImageSitemapHead := "<?xml version=\"1.0\" encoding=\"UTF-8\"?>\n<urlset xmlns=\"http://www.sitemaps.org/schemas/sitemap/0.9\"\n        xmlns:image=\"http://www.google.com/schemas/sitemap-image/1.1\">\n"
  /** Document head of the in-app service: the sitemap 0.9 namespace only. */
  const PlainSitemapHead := "<?xml version=\"1.0\" encoding=\"UTF-8\"?>\n<urlset xmlns=\"http://www.sitemaps.org/schemas/sitemap/0.9\">\n"
  const SitemapTail := "\n</urlset>"

  /** One `<image:image>` entry; the caption ends with the last `/`-segment of the record's `loc`. */
  function ImageBlock(image: string, loc: string): string
  {
    ImageOpen + (image + (ImageLocClose + (LastSegment(loc) + ImageClose)))
  }

  /** The image entries of a record, `""` when it has none. */
  function ImagesXml(images: seq<string>, loc: string): string
  {
    if images == [] then "" else ImageBlock(images[0], loc) + ImagesXml(images[1..], loc)
  }

  /** One `<url>` element. */
  function UrlBlock(r: UrlRecord): string
  {
    UrlOpen + (r.loc + (LocClose + (r.lastmod + (LastmodClose + (r.changefreq +
      (ChangefreqClose + (r.priority + (PriorityClose + (ImagesXml(r.images, r.loc) + UrlClose)))))))))
  }

  /** The `<url>` elements of all records, in order (`map(...).join("")`). */
  function UrlsXml(records: seq<UrlRecord>): string
  {
    if records == [] then "" else UrlBlock(records[0]) + UrlsXml(records[1..])
  }

  /** The whole document: head, the `<url>` elements, and the closing `</urlset>`. */
  function Document(head: string, records: seq<UrlRecord>): string
  {
    head + (UrlsXml(records) + SitemapTail)
  }

  // ---------------------------------------------------------------------
  // Decoding

  /** Splits off the longest prefix that holds no `<`: the text content of an element. */
  function Field(s: string): (f: (string, string))
    ensures f.0 + f.1 == s && '<' !in f.0
    ensures f.1 == [] || f.1[0] == '<'
  {
    if s == [] || s[0] == '<' then ("", s)
    else
      var f := Field(s[1..]);
      ([s[0]] + f.0, f.1)
  }

  /** Reads an element's text content up to its closing text `close`, and skips that. */
  function ReadElement(s: string, close: string): (r: Option<(string, string)>)
    ensures r.Some? ==> |r.value.1| + |close| <= |s|
  {
    var f := Field(s);
    if close <= f.1 then Some((f.0, f.1[|close|..])) else None
  }

  /** Reads the image entries at the front of `s`; each caption must name `LastSegment(loc)`. */
  function ParseImages(s: string, loc: string): (r: Option<(seq<string>, string)>)
    ensures r.Some? ==> |r.value.1| <= |s|
    decreases |s|
  {
    if !(ImageOpen <= s) then Some(([], s))
    else
      match ReadElement(s[|ImageOpen|..], ImageLocClose)
      case None => None
      case Some(image) =>
        match ReadElement(image.1, ImageClose)
        case None => None
        case Some(caption) =>
          if caption.0 != LastSegment(loc) then None
          else
            match ParseImages(caption.1, loc)
            case None => None
            case Some(more) => Some(([image.0] + more.0, more.1))
  }

  /** Reads one `<url>` element at the front of `s`. */
  function ParseUrl(s: string): (r: Option<(UrlRecord, string)>)
    ensures r.Some? ==> |r.value.1| < |s|
  {
    if !(UrlOpen <= s) then None
    else
      match ReadElement(s[|UrlOpen|..], LocClose)
      case None => None
      case Some(loc) =>
        match ReadElement(loc.1, LastmodClose)
        case None => None
        case Some(lastmod) =>
          match ReadElement(lastmod.1, ChangefreqClose)
          case None => None
          case Some(changefreq) =>
            match ReadElement(changefreq.1, PriorityClose)
            case None => None
            case Some(priority) =>
              match ParseImages(priority.1, loc.0)
              case None => None
              case Some(images) =>
                if !(UrlClose <= images.1) then None
                else Some((UrlRecord(loc.0, lastmod.0, changefreq.0, priority.0, images.0),
                           images.1[|UrlClose|..]))
  }

  /** Reads the `<url>` elements at the front of `s`. */
  function ParseUrls(s: string): (r: Option<(seq<UrlRecord>, string)>)
    decreases |s|
  {
    if !(UrlOpen <= s) then Some(([], s))
    else
      match ParseUrl(s)
      case None => None
      case Some(first) =>
        match ParseUrls(first.1)
        case None => None
        case Some(more) => Some(([first.0] + more.0, more.1))
  }

  /** Reads a whole document with the given head back into its records. */
  function Decode(head: string, doc: string): Option<seq<UrlRecord>>
  {
    if !(head <= doc) then None
    else
      match ParseUrls(doc[|head|..])
      case None => None
      case Some(urls) => if urls.1 == SitemapTail then Some(urls.0) else None
  }

  // ---------------------------------------------------------------------
  // Round trip

  /** Text that can stand as an element's content and be read back: it holds no `<`. */
  predicate NoAngle(s: string)
  {
    '<' !in s
  }

  lemma NoAngleAppend(a: string, b: string)
    requires NoAngle(a) && NoAngle(b)
    ensures NoAngle(a + b)
  {
  }

  lemma DatePartNoAngle(s: string)
    requires NoAngle(s)
    ensures NoAngle(DatePart(s))
  {
    DatePartIsLongestPrefix(s);
    assert forall k :: 0 <= k < |DatePart(s)| ==> DatePart(s)[k] == s[k];
  }

  /** Records whose text fields can be read back: none of them holds `<`. */
  predicate WellFormed(r: UrlRecord)
  {
    && NoAngle(r.loc) && NoAngle(r.lastmod) && NoAngle(r.changefreq) && NoAngle(r.priority)
    && forall i :: 0 <= i < |r.images| ==> NoAngle(r.images[i])
  }

  lemma {:induction false} FieldOf(v: string, t: string)
    requires '<' !in v
    requires t == [] || t[0] == '<'
    ensures Field(v + t) == (v, t)
  {
    if v == [] {
      assert v + t == t;
    } else {
      var s := v + t;
      assert v[0] in v;
      assert s != [] && s[0] == v[0] && s[0] != '<';
      assert s[1..] == v[1..] + t;
      assert '<' !in v[1..] by {
        forall ch | ch in v[1..] ensures ch in v { }
      }
      FieldOf(v[1..], t);
      assert Field(s) == ([v[0]] + v[1..], t);
      assert [v[0]] + v[1..] == v;
    }
  }

  /** An element's content without `<`, then its closing text, reads back as that content. */
  lemma ReadElementOf(v: string, close: string, rest: string)
    requires '<' !in v
    requires close != [] && close[0] == '<'
    ensures ReadElement(v + (close + rest), close) == Some((v, rest))
  {
    FieldOf(v, close + rest);
    assert (close + rest)[|close|..] == rest;
  }

  /** Text that starts with `</url>` cannot be read as an image entry. */
  lemma UrlCloseIsNotImage(t: string)
    requires UrlClose <= t
    ensures !(ImageOpen <= t)
  {
    assert t[3] == UrlClose[3] == '<';
    assert ImageOpen[3] == ' ';
  }

  /** Text that starts with `</urlset>` cannot be read as a `<url>` element. */
  lemma TailIsNotUrl()
    ensures !(UrlOpen <= SitemapTail)
  {
    assert SitemapTail[1] == '<';
    assert UrlOpen[1] == ' ';
  }

  /** One image entry followed by `rest`, written out innermost-first. */
  lemma ImageBlockThen(image: string, loc: string, rest: string)
    ensures ImageBlock(image, loc) + rest
         == ImageOpen + (image + (ImageLocClose + (LastSegment(loc) + (ImageClose + rest))))
  {
    var seg := LastSegment(loc);
    AppendAssoc(ImageOpen, image + (ImageLocClose + (seg + ImageClose)), rest);
    AppendAssoc(image, ImageLocClose + (seg + ImageClose), rest);
    AppendAssoc(ImageLocClose, seg + ImageClose, rest);
    AppendAssoc(seg, ImageClose, rest);
  }

  lemma {:induction false} ImagesRoundTrip(images: seq<string>, loc: string, t: string)
    requires forall i :: 0 <= i < |images| ==> '<' !in images[i]
    requires '<' !in loc
    requires UrlClose <= t
    ensures ParseImages(ImagesXml(images, loc) + t, loc) == Some((images, t))
  {
    var seg := LastSegment(loc);
    LastSegmentIsSuffix(loc);
    assert '<' !in seg by {
      assert forall k :: 0 <= k < |seg| ==> seg[k] == loc[|loc| - |seg| + k];
    }
    if images == [] {
      UrlCloseIsNotImage(t);
      assert ImagesXml(images, loc) + t == t;
    } else {
      var rest := ImagesXml(images[1..], loc) + t;
      ImagesRoundTrip(images[1..], loc, t);
      var afterImage := ImageLocClose + (seg + (ImageClose + rest));
      var s := ImagesXml(images, loc) + t;
      AppendAssoc(ImageBlock(images[0], loc), ImagesXml(images[1..], loc), t);
      ImageBlockThen(images[0], loc, rest);
      assert s == ImageOpen + (images[0] + afterImage);
      assert s[|ImageOpen|..] == images[0] + afterImage;
      ReadElementOf(images[0], ImageLocClose, seg + (ImageClose + rest));
      ReadElementOf(seg, ImageClose, rest);
      assert [images[0]] + images[1..] == images;
    }
  }

  /** A `<url>` block followed by `t` reads as the text `UrlOpen + loc + ...` with `t` at the end. */
  lemma UrlBlockThen(r: UrlRecord, t: string)
    ensures UrlBlock(r) + t
         == UrlOpen + (r.loc + (LocClose + (r.lastmod + (LastmodClose + (r.changefreq +
              (ChangefreqClose + (r.priority + (PriorityClose + (ImagesXml(r.images, r.loc) + (UrlClose + t))))))))))
  {
    var x9 := ImagesXml(r.images, r.loc);
    var y8 := PriorityClose + (x9 + UrlClose);
    var y7 := r.priority + y8;
    var y6 := ChangefreqClose + y7;
    var y5 := r.changefreq + y6;
    var y4 := LastmodClose + y5;
    var y3 := r.lastmod + y4;
    var y2 := LocClose + y3;
    var y1 := r.loc + y2;
    AppendAssoc(UrlOpen, y1, t);
    AppendAssoc(r.loc, y2, t);
    AppendAssoc(LocClose, y3, t);
    AppendAssoc(r.lastmod, y4, t);
    AppendAssoc(LastmodClose, y5, t);
    AppendAssoc(r.changefreq, y6, t);
    AppendAssoc(ChangefreqClose, y7, t);
    AppendAssoc(r.priority, y8, t);
    AppendAssoc(PriorityClose, x9 + UrlClose, t);
    AppendAssoc(x9, UrlClose, t);
  }

  lemma UrlBlockStartsWithOpen(r: UrlRecord, t: string)
    ensures UrlOpen <= UrlBlock(r) + t
  {
    UrlBlockThen(r, t);
  }

  lemma UrlRoundTrip(r: UrlRecord, t: string)
    requires WellFormed(r)
    ensures ParseUrl(UrlBlock(r) + t) == Some((r, t))
  {
    var afterImages := UrlClose + t;
    ImagesRoundTrip(r.images, r.loc, afterImages);
    var a5 := ImagesXml(r.images, r.loc) + afterImages;
    var a4 := r.priority + (PriorityClose + a5);
    var a3 := r.changefreq + (ChangefreqClose + a4);
    var a2 := r.lastmod + (LastmodClose + a3);
    var s := UrlBlock(r) + t;
    UrlBlockThen(r, t);
    assert s[|UrlOpen|..] == r.loc + (LocClose + a2);
    ReadElementOf(r.loc, LocClose, a2);
    ReadElementOf(r.lastmod, LastmodClose, a3);
    ReadElementOf(r.changefreq, ChangefreqClose, a4);
    ReadElementOf(r.priority, PriorityClose, a5);
    assert afterImages[|UrlClose|..] == t;
  }

  /** One step of `ParseUrls`: the first record's `<url>` element read off the front, then the rest. */
  lemma ParseUrlsStep(s: string, records: seq<UrlRecord>, rest: string, t: string)
    requires records != [] && UrlOpen <= s
    requires ParseUrl(s) == Some((records[0], rest))
    requires ParseUrls(rest) == Some((records[1..], t))
    ensures ParseUrls(s) == Some((records, t))
  {
    assert [records[0]] + records[1..] == records;
  }

  lemma {:induction false} UrlsRoundTrip(records: seq<UrlRecord>, t: string)
    requires forall i :: 0 <= i < |records| ==> WellFormed(records[i])
    requires !(UrlOpen <= t)
    ensures ParseUrls(UrlsXml(records) + t) == Some((records, t))
  {
    if records == [] {
      assert UrlsXml(records) + t == t;
    } else {
      var r := records[0];
      var rest := UrlsXml(records[1..]) + t;
      var s := UrlsXml(records) + t;
      AppendAssoc(UrlBlock(r), UrlsXml(records[1..]), t);
      assert s == UrlBlock(r) + rest;
      UrlRoundTrip(r, rest);
      UrlsRoundTrip(records[1..], t);
      UrlBlockStartsWithOpen(r, rest);
      ParseUrlsStep(s, records, rest, t);
    }
  }

  /** Decoding a serialised document gives back exactly its records, in order. */
  lemma DocumentRoundTrip(head: string, records: seq<UrlRecord>)
    requires forall i :: 0 <= i < |records| ==> WellFormed(records[i])
    ensures Decode(head, Document(head, records)) == Some(records)
  {
    TailIsNotUrl();
    UrlsRoundTrip(records, SitemapTail);
    assert Document(head, records)[|head|..] == UrlsXml(records) + SitemapTail;
  }

  /** Serialising distributes over concatenation: one block per record, in order. */
  lemma {:induction false} UrlsXmlAppend(a: seq<UrlRecord>, b: seq<UrlRecord>)
    ensures UrlsXml(a + b) == UrlsXml(a) + UrlsXml(b)
  {
    if a == [] {
      assert a + b == b;
    } else {
      assert a + b != [] && (a + b)[0] == a[0];
      assert (a + b)[1..] == a[1..] + b;
      UrlsXmlAppend(a[1..], b);
      AppendAssoc(UrlBlock(a[0]), UrlsXml(a[1..]), UrlsXml(b));
    }
  }
}
