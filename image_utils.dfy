/** `getFirstImage` from src/lib/utils.ts: picks one image URL out of a loosely
    typed `images` value and routes storage-hosted URLs through the wsrv.nl
    resizing proxy. */
module ImageUtils {
  import opened Gateway
  import opened Js
  import opened UriEncoding

  /** A `url` or `src` property holding text is `Some`; a missing, `null` or
      `undefined` property is `None`. */
  type UrlProperty = Option<string>

  /** The shapes `images[0]` can take. `ItemRecord` is any non-null object,
      arrays included (an array has no `url` or `src` of its own); `ItemOther`
      is `undefined`, a number or a boolean. */
  datatype ImageItem =
    | ItemText(text: string)
    | ItemNull
    | ItemRecord(url: UrlProperty, src: UrlProperty)
    | ItemOther

  /** The shapes of the `images` argument. `Missing` is `null` or `undefined`;
      `OtherValue` is a number, a boolean or an object that is not an array. */
  datatype Images =
    | Missing
    | TextValue(text: string)
    | ListValue(items: seq<ImageItem>)
    | OtherValue

  const Placeholder: string := "/placeholder.jpg"
  const StorageHost: string := "supabase.co"
  const ProxyPrefix: string := "https://wsrv.nl/?url="
  const DefaultWidth: int := 100

  /** JavaScript truthiness of a text property: present and not empty. */
  predicate Truthy(p: UrlProperty) {
    p.Some? && p.value != ""
  }

  /** Step 1 of `getFirstImage`: the URL taken from the argument. */
  function ChosenUrl(images: Images): string {
    match images
    case ListValue(items) =>
      if |items| == 0 then Placeholder
      else (
        match items[0]
        case ItemText(t) => t
        case ItemRecord(url, src) =>
          if Truthy(url) then url.value else if Truthy(src) then src.value else Placeholder
        case _ => Placeholder)
    case TextValue(t) => t
    case _ => Placeholder
  }

  const ProxyOptions: string := "&output=webp&q=80"

  /** The proxy URL for a storage-hosted image. */
  function ProxyUrl(url: string, width: int): string {
    ProxyPrefix + EncodeUriComponent(url) + "&w=" + IntToDecimal(width) + ProxyOptions
  }

  /** `getFirstImage(images, width)`; `width == None` is an omitted or
      `undefined` width, which defaults to 100. */
  function GetFirstImage(images: Images, width: Option<int>): string {
    var url := ChosenUrl(images);
    if Includes(url, StorageHost) then ProxyUrl(url, width.GetOr(DefaultWidth)) else url
  }

  // ---- What the proxy reads back ----

  /** The text before the first `c` in `s`, and whether there is one. */
  function UpTo(s: string, c: char): (r: string)
    ensures |r| <= |s| && r == s[..|r|] && c !in r
    ensures |r| < |s| ==> s[|r|] == c
  {
    if |s| == 0 || s[0] == c then "" else [s[0]] + UpTo(s[1..], c)
  }

  lemma {:induction false} UpToDelimited(a: string, c: char, b: string)
    requires c !in a
    ensures UpTo(a + [c] + b, c) == a
  {
    if |a| > 0 {
      assert (a + [c] + b)[1..] == a[1..] + [c] + b;
      UpToDelimited(a[1..], c, b);
      assert [a[0]] + a[1..] == a;
    } else {
      assert a + [c] + b == [c] + b;
    }
  }

  /** The raw `url` and `w` parameters of a URL that starts with the proxy
      prefix: `url` runs up to the next `&`, which must begin `&w=`, and `w`
      runs up to the following `&`. */
  function ProxyFields(r: string): Option<(string, string)> {
    if !StartsWith(r, ProxyPrefix) then None
    else
      var query := r[|ProxyPrefix|..];
      var encoded := UpTo(query, '&');
      var rest := query[|encoded|..];
      if !StartsWith(rest, "&w=") then None
      else Some((encoded, UpTo(rest[3..], '&')))
  }

  /** What the proxy reads: the `url` parameter percent-decoded and the `w`
      parameter parsed as a number. */
  function ProxyParameters(r: string): Option<(string, int)> {
    match ProxyFields(r)
    case None => None
    case Some((encoded, widthText)) =>
      match (DecodeUriComponent(encoded), ParseInt(widthText))
      case (Some(url), Some(width)) => Some((url, width))
      case _ => None
  }

  lemma ProxyFieldsOf(enc: string, digits: string)
    requires '&' !in enc && '&' !in digits
    ensures ProxyFields(ProxyPrefix + enc + "&w=" + digits + ProxyOptions) == Some((enc, digits))
  {
    var r := ProxyPrefix + enc + "&w=" + digits + ProxyOptions;
    var query := enc + ['&'] + ("w=" + digits + ProxyOptions);
    SplitAfterPrefix(enc, digits);
    UpToDelimited(enc, '&', "w=" + digits + ProxyOptions);
    SplitAfterUrl(enc, digits);
    WidthField(digits);
  }

  lemma SplitAfterPrefix(enc: string, digits: string)
    ensures var r := ProxyPrefix + enc + "&w=" + digits + ProxyOptions;
      StartsWith(r, ProxyPrefix) && r[|ProxyPrefix|..] == enc + ['&'] + ("w=" + digits + ProxyOptions)
  {
    var query := enc + ['&'] + ("w=" + digits + ProxyOptions);
    var r := ProxyPrefix + query;
    assert ProxyPrefix + enc + "&w=" + digits + ProxyOptions == r;
    assert r[..|ProxyPrefix|] == ProxyPrefix;
    assert r[|ProxyPrefix|..] == query;
  }

  lemma SplitAfterUrl(enc: string, digits: string)
    ensures (enc + ['&'] + ("w=" + digits + ProxyOptions))[|enc|..] == "&w=" + digits + ProxyOptions
  {
  }

  lemma WidthField(digits: string)
    requires '&' !in digits
    ensures var rest := "&w=" + digits + ProxyOptions;
      StartsWith(rest, "&w=") && UpTo(rest[3..], '&') == digits
  {
    var rest := "&w=" + digits + ProxyOptions;
    assert rest[..3] == "&w=";
    assert rest[3..] == digits + ['&'] + "output=webp&q=80";
    UpToDelimited(digits, '&', "output=webp&q=80");
  }

  /** The proxy recovers exactly the original URL and the requested width from
      the rewritten URL: the encoding leaves no `&` for it to stop at early. */
  lemma ProxyUrlRoundTrip(url: string, width: int)
    ensures ProxyParameters(ProxyUrl(url, width)) == Some((url, width))
  {
    EncodedHasNoAmpersand(url);
    DigitsHaveNoAmpersand(width);
    ProxyFieldsOf(EncodeUriComponent(url), IntToDecimal(width));
    DecodeEncode(url);
    ParseIntOfDecimal(width);
  }

  lemma DigitsHaveNoAmpersand(n: int)
    ensures '&' !in IntToDecimal(n)
  {
    var d := NatToDecimal(if n < 0 then -n else n);
    assert forall i :: 0 <= i < |d| ==> d[i] != '&';
    if n < 0 {
      assert IntToDecimal(n) == "-" + d;
    }
  }

  /** An occurrence inside `s` is an occurrence inside `a + s + b`. */
  lemma IncludesWithin(a: string, s: string, b: string, sub: string)
    requires Includes(s, sub)
    ensures Includes(a + s + b, sub)
  {
    var i :| OccursAt(s, sub, i);
    var t := a + s + b;
    assert t[|a| + i..|a| + i + |sub|] == s[i..i + |sub|];
    assert OccursAt(t, sub, |a| + i);
  }

  /** The storage host name is made of unreserved characters, so it survives
      encoding. */
  lemma EncodedKeepsHost(url: string)
    requires Includes(url, StorageHost)
    ensures Includes(EncodeUriComponent(url), StorageHost)
  {
    var i :| OccursAt(url, StorageHost, i);
    var a, b := url[..i], url[i + |StorageHost|..];
    assert url == a + StorageHost + b;
    EncodeConcat(a + StorageHost, b);
    EncodeConcat(a, StorageHost);
    HostEncodesToItself();
    IncludesInfix(EncodeUriComponent(a), StorageHost, EncodeUriComponent(b));
  }

  lemma HostEncodesToItself()
    ensures EncodeUriComponent(StorageHost) == StorageHost
  {
    EncodeUnreserved(StorageHost);
  }

  /** The proxy URL of a storage-hosted URL still names the storage host. */
  lemma ProxyKeepsHost(url: string, width: int)
    requires Includes(url, StorageHost)
    ensures Includes(ProxyUrl(url, width), StorageHost)
  {
    var enc := EncodeUriComponent(url);
    var tail := "&w=" + IntToDecimal(width) + ProxyOptions;
    EncodedKeepsHost(url);
    IncludesWithin(ProxyPrefix, enc, tail, StorageHost);
    assert ProxyUrl(url, width) == ProxyPrefix + enc + tail;
  }

  /** Encoding never shortens its input. */
  lemma {:induction false} EncodedLength(s: string)
    ensures |EncodeUriComponent(s)| >= |s|
  {
    if |s| > 0 {
      EncodedLength(s[1..]);
      if !IsUnreserved(s[0]) {
        assert |EncodeChar(s[0])| == 3 * |Utf8(s[0])|;
      }
    }
  }

  // ---- The properties of getFirstImage ----

  lemma PlaceholderNotOnStorageHost()
    ensures !Includes(Placeholder, StorageHost)
  {
    assert StorageHost[0] !in Placeholder;
    MissingFirstCharacter(Placeholder, StorageHost);
  }

  lemma MissingFirstCharacter(s: string, sub: string)
    requires |sub| > 0 && sub[0] !in s
    ensures !Includes(s, sub)
  {
  }

  /** Every input that yields no URL yields the placeholder, unrewritten:
      `null`, `undefined`, an empty array, a null or non-object first element,
      and anything that is neither a string nor an array. */
  lemma NoUrlGivesPlaceholder(images: Images, width: Option<int>)
    requires images.Missing? || images.OtherValue? ||
             (images.ListValue? && (|images.items| == 0 || images.items[0].ItemNull? || images.items[0].ItemOther?))
    ensures GetFirstImage(images, width) == Placeholder
  {
    PlaceholderNotOnStorageHost();
  }

  /** For an object first element the URL is `url` when truthy, else `src`
      when truthy, else the placeholder: an empty `url` falls through. */
  lemma RecordItemChoice(items: seq<ImageItem>, width: Option<int>)
    requires |items| > 0 && items[0].ItemRecord?
    ensures var item := items[0];
      var url := if Truthy(item.url) then item.url.value
                 else if Truthy(item.src) then item.src.value
                 else Placeholder;
      !Includes(url, StorageHost) ==> GetFirstImage(ListValue(items), width) == url
  {
    var item := items[0];
    var url := if Truthy(item.url) then item.url.value
               else if Truthy(item.src) then item.src.value
               else Placeholder;
    assert ChosenUrl(ListValue(items)) == url;
  }

  /** A first element that is a string off the storage host is returned as it is. */
  lemma FirstTextItemUnchanged(items: seq<ImageItem>, width: Option<int>)
    requires |items| > 0 && items[0].ItemText? && !Includes(items[0].text, StorageHost)
    ensures GetFirstImage(ListValue(items), width) == items[0].text
  {
  }

  /** A storage-hosted URL becomes exactly the proxy URL with the requested width. */
  lemma StorageUrlRewritten(images: Images, width: Option<int>)
    requires Includes(ChosenUrl(images), StorageHost)
    ensures GetFirstImage(images, width) ==
      "https://wsrv.nl/?url=" + EncodeUriComponent(ChosenUrl(images)) + "&w=" + IntToDecimal(width.GetOr(100)) + "&output=webp&q=80"
  {
  }

  /** A bare string off the storage host is returned as it is. */
  lemma BareTextUnchanged(text: string, width: Option<int>)
    requires !Includes(text, StorageHost)
    ensures GetFirstImage(TextValue(text), width) == text
  {
  }

  /** Only `images[0]` is consulted. */
  lemma OnlyFirstItemMatters(a: seq<ImageItem>, b: seq<ImageItem>, width: Option<int>)
    requires |a| > 0 && |b| > 0 && a[0] == b[0]
    ensures GetFirstImage(ListValue(a), width) == GetFirstImage(ListValue(b), width)
  {
  }

  /** The result either is the chosen URL itself, or starts with the proxy
      prefix and carries the chosen URL and the width (100 when omitted). */
  lemma ResultShape(images: Images, width: Option<int>)
    ensures var r := GetFirstImage(images, width);
      r == ChosenUrl(images) ||
      (StartsWith(r, ProxyPrefix) && ProxyParameters(r) == Some((ChosenUrl(images), width.GetOr(DefaultWidth))))
    ensures !StartsWith(GetFirstImage(images, width), ProxyPrefix) ==> GetFirstImage(images, width) == ChosenUrl(images)
  {
    var url := ChosenUrl(images);
    var w := width.GetOr(DefaultWidth);
    if Includes(url, StorageHost) {
      ProxyUrlRoundTrip(url, w);
      assert ProxyUrl(url, w)[..|ProxyPrefix|] == ProxyPrefix;
    }
  }

  /** Feeding a proxied URL back into `getFirstImage` wraps it a second
      time: the rewrite is not idempotent. */
  lemma RewriteNotIdempotent(url: string, width: Option<int>)
    requires Includes(url, StorageHost)
    ensures var once := GetFirstImage(TextValue(url), width);
      once != url && GetFirstImage(TextValue(once), width) == ProxyUrl(once, width.GetOr(DefaultWidth))
  {
    var w := width.GetOr(DefaultWidth);
    ProxyKeepsHost(url, w);
    EncodedLength(url);
    assert |ProxyUrl(url, w)| > |url|;
  }
}
