/**
  Decoding of the supplier feed (importer.js). The feed arrives as the value xml2js builds
  with `explicitArray: true`: every child element is an array, whose entries are plain
  strings or element objects carrying their text under `_` and their attributes under `$`.
  Everything in this module is a pure expression of the source.
 */
module Feed {
  import opened Wrappers

  /** One entry of an xml2js child array. */
  datatype Node =
    | Text(s: string)
    | Element(body: Option<string>, attrs: map<string, string>)

  /** A property of an xml2js object: `undefined`, or the array of its child entries. */
  type Field = Option<seq<Node>>

  /** The value of a JavaScript expression that may throw a TypeError. */
  datatype Decoded<T> = Value(v: T) | TypeError

  // ---------------------------------------------------------------------------------------
  // String.prototype.trim

  /** JavaScript's WhiteSpace and LineTerminator code points, which `trim` removes. */
  predicate IsSpace(c: char) {
    c == '\t' || c == '\n' || c == '\U{000B}' || c == '\U{000C}' || c == '\r' || c == ' '
    || c == '\U{00A0}' || c == '\U{1680}' || ('\U{2000}' <= c <= '\U{200A}')
    || c == '\U{2028}' || c == '\U{2029}' || c == '\U{202F}' || c == '\U{205F}'
    || c == '\U{3000}' || c == '\U{FEFF}'
  }

  /** `t` is `s[i..j]`, everything outside `i..j` is white space and `t` neither starts nor
      ends with white space. */
  ghost predicate TrimmedAt(s: string, t: string, i: int, j: int) {
    && 0 <= i <= j <= |s|
    && t == s[i..j]
    && (forall k :: 0 <= k < i ==> IsSpace(s[k]))
    && (forall k :: j <= k < |s| ==> IsSpace(s[k]))
    && (t == [] || (!IsSpace(t[0]) && !IsSpace(t[|t| - 1])))
  }

  /** Reference meaning of `s.trim() === t`. */
  ghost predicate TrimmedFrom(s: string, t: string) {
    exists i, j :: TrimmedAt(s, t, i, j)
  }

  /** The end of the run of white space that starts at `i`. */
  function SpaceRunEnd(s: string, i: nat): (j: nat)
    requires i <= |s|
    ensures i <= j <= |s|
    ensures forall k :: i <= k < j ==> IsSpace(s[k])
    ensures j == |s| || !IsSpace(s[j])
    decreases |s| - i
  {
    if i < |s| && IsSpace(s[i]) then SpaceRunEnd(s, i + 1) else i
  }

  /** The start of the run of white space that ends at `j`, going no lower than `lo`. */
  function SpaceRunStart(s: string, lo: nat, j: nat): (i: nat)
    requires lo <= j <= |s|
    ensures lo <= i <= j
    ensures forall k :: i <= k < j ==> IsSpace(s[k])
    ensures i == lo || !IsSpace(s[i - 1])
    decreases j
  {
    if j > lo && IsSpace(s[j - 1]) then SpaceRunStart(s, lo, j - 1) else j
  }

  /** Leading white space removed. */
  function TrimStart(s: string): string {
    s[SpaceRunEnd(s, 0)..]
  }

  /** `s.trim()`. */
  function Trim(s: string): (r: string)
    ensures TrimmedFrom(s, r)
  {
    var i := SpaceRunEnd(s, 0);
    var j := SpaceRunStart(s, i, |s|);
    assert i < j ==> s[i..j][0] == s[i] && s[i..j][j - i - 1] == s[j - 1];
    assert TrimmedAt(s, s[i..j], i, j);
    s[i..j]
  }

  /** The trimmed text of a string is unique, so `Trim` is the only function meeting its
      contract. */
  lemma TrimmedUnique(s: string, t1: string, t2: string)
    requires TrimmedFrom(s, t1) && TrimmedFrom(s, t2)
    ensures t1 == t2
  {
    var i1, j1 :| TrimmedAt(s, t1, i1, j1);
    var i2, j2 :| TrimmedAt(s, t2, i2, j2);
    if t1 != [] && t2 != [] {
      assert s[i1] == t1[0] && s[i2] == t2[0];
      assert s[j1 - 1] == t1[|t1| - 1] && s[j2 - 1] == t2[|t2| - 1];
      assert i1 == i2;
      assert j1 == j2;
    }
  }

  /** Trimming twice is trimming once. */
  lemma TrimIdempotent(s: string)
    ensures Trim(Trim(s)) == Trim(s)
  {
    var t := Trim(s);
    assert TrimmedAt(t, t, 0, |t|);
    TrimmedUnique(t, Trim(t), t);
  }

  // ---------------------------------------------------------------------------------------
  // getValue (importer.js:21-30)

  /** `obj && obj[0]`: the field exists and its first entry is truthy (not the empty string;
      an element object is always truthy). */
  predicate Present(f: Field) {
    f.Some? && |f.value| > 0 && f.value[0] != Text("")
  }

  /** `getValue` throws on the field: its first entry is an element object without a
      non-empty `_`, so `obj[0].trim` is not a function. */
  predicate Throws(f: Field) {
    Present(f) && f.value[0].Element? && (f.value[0].body.None? || f.value[0].body.value == "")
  }

  /** `getValue(obj, def)`: the trimmed first entry, the trimmed `_` of an element object, or
      `def` when there is no first entry. An element object without a non-empty `_` reaches
      `obj[0].trim()`, which throws. */
  function GetValue(f: Field, def: Option<string>): (r: Decoded<Option<string>>)
    ensures r.TypeError? <==> Throws(f)
    ensures !Present(f) ==> r == Value(def)
    ensures Present(f) && f.value[0].Text? ==>
              r.Value? && r.v.Some? && TrimmedFrom(f.value[0].s, r.v.value)
    ensures Present(f) && f.value[0].Element? ==>
              (r.TypeError? <==> f.value[0].body.None? || f.value[0].body.value == "")
    ensures Present(f) && f.value[0].Element? && r.Value? ==>
              r.v.Some? && TrimmedFrom(f.value[0].body.value, r.v.value)
  {
    if f.Some? && |f.value| > 0 && f.value[0] != Text("") then
      match f.value[0]
      case Element(body, _) =>
        if body.Some? && body.value != "" then Value(Some(Trim(body.value))) else TypeError
      case Text(s) => Value(Some(Trim(s)))
    else
      Value(def)
  }

  /** `getValue(obj, def)` with a string default: the result is never null. */
  function GetValueOr(f: Field, def: string): (r: Decoded<string>)
    ensures !Present(f) ==> r == Value(def)
    ensures r.TypeError? <==> GetValue(f, Some(def)).TypeError?
    ensures r.Value? && Present(f) ==> Some(r.v) == GetValue(f, Some(def)).v
  {
    match GetValue(f, Some(def))
    case TypeError => TypeError
    case Value(v) => Value(if v.Some? then v.value else def)
  }

  // ---------------------------------------------------------------------------------------
  // parseInt with no radix argument

  predicate IsDigit(c: char, radix: nat) {
    if radix == 16 then '0' <= c <= '9' || 'a' <= c <= 'f' || 'A' <= c <= 'F'
    else '0' <= c <= '9'
  }

  function DigitValue(c: char): nat {
    if '0' <= c <= '9' then c as nat - '0' as nat
    else if 'a' <= c <= 'f' then c as nat - 'a' as nat + 10
    else if 'A' <= c <= 'F' then c as nat - 'A' as nat + 10
    else 0
  }

  /** The longest prefix of `s` made of digits of the radix. */
  function DigitPrefix(s: string, radix: nat): (r: string)
    ensures |r| <= |s| && r == s[..|r|]
    ensures forall k :: 0 <= k < |r| ==> IsDigit(r[k], radix)
    ensures |r| == |s| || !IsDigit(s[|r|], radix)
  {
    if s == [] || !IsDigit(s[0], radix) then [] else [s[0]] + DigitPrefix(s[1..], radix)
  }

  /** The number a digit string denotes in the radix. */
  function DigitsValue(d: string, radix: nat): nat {
    if d == [] then 0 else DigitsValue(d[..|d| - 1], radix) * radix + DigitValue(d[|d| - 1])
  }

  /** The digits after the sign: a `0x`/`0X` prefix selects base 16, then the longest run of
      digits of the base is read; `None` when that run is empty. */
  function ParseUnsigned(u: string): Option<nat> {
    var hex := |u| >= 2 && u[0] == '0' && (u[1] == 'x' || u[1] == 'X');
    var radix := if hex then 16 else 10;
    var digits := DigitPrefix(if hex then u[2..] else u, radix);
    if digits == [] then None else Some(DigitsValue(digits, radix))
  }

  /** `parseInt(s)` with no radix: leading white space skipped, an optional sign, then
      `ParseUnsigned`; `None` stands for NaN. */
  function ParseInt(s: string): Option<int> {
    var t := TrimStart(s);
    var negative := |t| > 0 && t[0] == '-';
    var u := if |t| > 0 && (t[0] == '-' || t[0] == '+') then t[1..] else t;
    match ParseUnsigned(u)
    case None => None
    case Some(m) => Some(if negative then -(m as int) else m as int)
  }

  /** Decimal rendering of a natural number: the reference `ParseInt` is checked against. */
  function FormatNat(n: nat): (r: string)
    ensures r != []
    ensures forall k :: 0 <= k < |r| ==> IsDigit(r[k], 10)
    ensures r[0] == '0' ==> n == 0
  {
    if n < 10 then ['0' + n as char]
    else FormatNat(n / 10) + ['0' + (n % 10) as char]
  }

  function FormatInt(n: int): string {
    if n < 0 then "-" + FormatNat(-n) else FormatNat(n)
  }

  lemma {:induction false} DigitPrefixOfDigits(s: string, radix: nat)
    requires forall k :: 0 <= k < |s| ==> IsDigit(s[k], radix)
    ensures DigitPrefix(s, radix) == s
  {
    if s != [] {
      DigitPrefixOfDigits(s[1..], radix);
    }
  }

  lemma {:induction false} FormatNatValue(n: nat)
    ensures DigitsValue(FormatNat(n), 10) == n
  {
    var r := FormatNat(n);
    if n >= 10 {
      FormatNatValue(n / 10);
      assert r[..|r| - 1] == FormatNat(n / 10);
    }
  }

  lemma ParseUnsignedFormat(m: nat)
    ensures ParseUnsigned(FormatNat(m)) == Some(m)
  {
    var f := FormatNat(m);
    DigitPrefixOfDigits(f, 10);
    FormatNatValue(m);
  }

  /** `parseInt` reads back every decimal rendering. */
  lemma ParseIntFormat(n: int)
    ensures ParseInt(FormatInt(n)) == Some(n)
  {
    var s := FormatInt(n);
    var m: nat := if n < 0 then -n else n;
    assert !IsSpace(s[0]);
    assert TrimStart(s) == s;
    if n < 0 {
      assert s[1..] == FormatNat(m);
    }
    ParseUnsignedFormat(m);
  }

  // ---------------------------------------------------------------------------------------
  // VAT (importer.js:127-128)

  /** Index of the first occurrence of `c`. */
  function IndexOf(s: string, c: char): (i: nat)
    requires c in s
    ensures i < |s| && s[i] == c && c !in s[..i]
  {
    if s[0] == c then 0 else 1 + IndexOf(s[1..], c)
  }

  /** `s.replace(c, '')` with a one-character pattern: drops the first occurrence only. */
  function RemoveFirst(s: string, c: char): string {
    if c in s then s[..IndexOf(s, c)] + s[IndexOf(s, c) + 1..] else s
  }

  /** The stored VAT of a VAT string: `parseInt(vatString.replace('%', ''))`. */
  function VatOf(vatString: string): Option<int> {
    ParseInt(RemoveFirst(vatString, '%'))
  }

  /** "23%" is stored as 23: a percentage string reads back as its number. */
  lemma VatOfPercent(n: nat)
    ensures VatOf(FormatNat(n) + "%") == Some(n)
  {
    var f := FormatNat(n);
    var s := f + "%";
    assert '%' in s by { assert s[|f|] == '%'; }
    var i := IndexOf(s, '%');
    assert i == |f|;
    assert RemoveFirst(s, '%') == f;
    ParseIntFormat(n);
  }

  /** A missing VAT takes the default "0%" and is stored as 0; a missing numeric field
      takes the default "0". */
  lemma MissingNumericDefaults()
    ensures VatOf("0%") == Some(0)
    ensures ParseInt("0") == Some(0)
  {
    assert FormatNat(0) == "0";
    VatOfPercent(0);
    ParseIntFormat(0);
  }

  // ---------------------------------------------------------------------------------------
  // Image links (importer.js:123-125)

  /** `links.join(' ')`. */
  function JoinWithSpaces(links: seq<string>): string {
    if links == [] then ""
    else if |links| == 1 then links[0]
    else links[0] + " " + JoinWithSpaces(links[1..])
  }

  /** Splitting at every space: the reference `JoinWithSpaces` is checked against. */
  function SplitAtSpaces(s: string): (r: seq<string>)
    ensures |r| > 0
  {
    if s == [] then [""]
    else
      var rest := SplitAtSpaces(s[1..]);
      if s[0] == ' ' then [""] + rest else [[s[0]] + rest[0]] + rest[1..]
  }

  lemma {:induction false} SplitWord(w: string, tail: string)
    requires ' ' !in w
    ensures SplitAtSpaces(w + " " + tail) == [w] + SplitAtSpaces(tail)
    ensures SplitAtSpaces(w) == [w]
  {
    if w != [] {
      assert (w + " " + tail)[1..] == w[1..] + " " + tail;
      SplitWord(w[1..], tail);
      assert [w[0]] + w[1..] == w;
    }
  }

  /** The stored `image_urls` field gives back the links when none contains a space. */
  lemma {:induction false} SplitJoin(links: seq<string>)
    requires links != []
    requires forall k :: 0 <= k < |links| ==> ' ' !in links[k]
    ensures SplitAtSpaces(JoinWithSpaces(links)) == links
  {
    SplitWord(links[0], "");
    if |links| > 1 {
      SplitJoin(links[1..]);
      SplitWord(links[0], JoinWithSpaces(links[1..]));
    }
  }

  /** `image_urls`: the `link_do_zdjecia` list joined with single spaces, "" when the
      `linki_do_zdjec` block or its list is absent. */
  function ImageUrls(links: Option<seq<string>>): string {
    if links.Some? then JoinWithSpaces(links.value) else ""
  }

  // ---------------------------------------------------------------------------------------
  // Responsible producer (importer.js:111-117)

  const ProducerLabel: string := "Producent odpowiedzialny"

  /** `a.$ && a.$.name === "Producent odpowiedzialny"`. */
  predicate IsProducerTag(n: Node) {
    n.Element? && "name" in n.attrs && n.attrs["name"] == ProducerLabel
  }

  /** `array.find(IsProducerTag)`, as the index of the entry found. */
  function FindProducerTag(nodes: seq<Node>): (r: Option<nat>)
    ensures r.None? <==> forall k :: 0 <= k < |nodes| ==> !IsProducerTag(nodes[k])
    ensures r.Some? ==> r.value < |nodes| && IsProducerTag(nodes[r.value])
                        && forall k :: 0 <= k < r.value ==> !IsProducerTag(nodes[k])
  {
    if nodes == [] then None
    else if IsProducerTag(nodes[0]) then Some(0)
    else match FindProducerTag(nodes[1..])
      case None => None
      case Some(k) => Some(k + 1)
  }

  /** `producerName`: `getValue([producerTag])` of the first producer tag, null when the
      product has no `a` list or no such entry. */
  function ResponsibleProducer(attributes: Option<seq<Node>>): (r: Decoded<Option<string>>)
    ensures attributes.None? ==> r == Value(None)
    ensures attributes.Some? && FindProducerTag(attributes.value).None? ==> r == Value(None)
    ensures attributes.Some? && FindProducerTag(attributes.value).Some? ==>
              var tag := attributes.value[FindProducerTag(attributes.value).value];
              && (r.TypeError? <==> tag.body.None? || tag.body.value == "")
              && (r.Value? ==> tag.Element? && tag.body.Some? && r.v.Some? && TrimmedFrom(tag.body.value, r.v.value))
  {
    if attributes.None? then Value(None)
    else match FindProducerTag(attributes.value)
      case None => Value(None)
      case Some(k) => GetValue(Some([attributes.value[k]]), None)
  }

  // ---------------------------------------------------------------------------------------
  // Feed records

  datatype Address = Address(countryCode: Field, street: Field, postalCode: Field, city: Field)

  datatype Contact = Contact(email: Field, phoneNumber: Field)

  /** One `p` entry of `responsibleProducers`; `address` and `contact` are the first entries
      of their arrays, `None` when the element is missing. */
  datatype ProducerEntry = ProducerEntry(name: Field, address: Option<Address>, contact: Option<Contact>)

  /** One `Produkt` entry; the comment names the feed element of each field. */
  datatype ProductEntry = ProductEntry(
    sku: Field,                        // Indeks
    name: Field,                       // Nazwa
    ean: Field,                        // Ean
    description: Field,                // opis
    listPrice: Field,                  // Cena_z_cennika
    suggestedPrice: Field,             // Cena_z_sugerowana
    vat: Field,                        // Vat
    stock: Field,                      // Stan_mag
    packageLength: Field,              // Szt_dlugosc_opakowania
    packageWidth: Field,               // Szt_szerokosc_opakowania
    packageHeight: Field,              // Szt_wysokosc_opakowania
    grossWeight: Field,                // Szt_waga_brutto
    category: Field,                   // Kategoria
    brand: Field,                      // Marka
    attributes: Option<seq<Node>>,     // a
    imageLinks: Option<seq<string>>    // linki_do_zdjec[0].link_do_zdjecia
  )

  /** The decoded feed: `Document.responsibleProducers[0].p` and `Document.Produkt`. With
      `explicitArray: true` xml2js gives an array only for an element that occurs, so a
      missing element is `None`, and reading `length` of it throws. */
  datatype Document = Document(producers: Option<seq<ProducerEntry>>, products: Option<seq<ProductEntry>>)

  /** The six producer columns besides the name. */
  datatype ProducerInfo = ProducerInfo(
    countryCode: Option<string>, street: Option<string>, postalCode: Option<string>,
    city: Option<string>, email: Option<string>, phoneNumber: Option<string>)

  /** What one iteration of the producer loop does. */
  datatype ProducerStep = SkipProducer | ProducerFails | UpsertProducer(name: string, info: ProducerInfo)

  /** Reading one of the six columns of a producer throws. */
  predicate InfoThrows(a: Address, c: Contact) {
    || Throws(a.countryCode) || Throws(a.street) || Throws(a.postalCode) || Throws(a.city)
    || Throws(c.email) || Throws(c.phoneNumber)
  }

  /** The producer loop body up to the query (importer.js:77-100). */
  function ProducerStepOf(e: ProducerEntry): (r: ProducerStep)
    ensures r.UpsertProducer? ==> r.name != "" && GetValue(e.name, None) == Value(Some(r.name))
    ensures r.SkipProducer? <==> GetValue(e.name, None) in {Value(None), Value(Some(""))}
    ensures r.ProducerFails? <==>
              || Throws(e.name)
              || (GetValue(e.name, None) !in {Value(None), Value(Some(""))}
                  && (e.address.None? || e.contact.None? || InfoThrows(e.address.value, e.contact.value)))
    ensures r.UpsertProducer? ==>
              && e.address.Some? && e.contact.Some?
              && r.info == ProducerInfo(
                   GetValue(e.address.value.countryCode, None).v, GetValue(e.address.value.street, None).v,
                   GetValue(e.address.value.postalCode, None).v, GetValue(e.address.value.city, None).v,
                   GetValue(e.contact.value.email, None).v, GetValue(e.contact.value.phoneNumber, None).v)
  {
    match GetValue(e.name, None)
    case TypeError => ProducerFails
    case Value(name) =>
      if name.None? || name.value == "" then SkipProducer
      else if e.address.None? || e.contact.None? then ProducerFails
      else
        var a, c := e.address.value, e.contact.value;
        var cc, st, pc := GetValue(a.countryCode, None), GetValue(a.street, None), GetValue(a.postalCode, None);
        var ci, em, ph := GetValue(a.city, None), GetValue(c.email, None), GetValue(c.phoneNumber, None);
        if cc.TypeError? || st.TypeError? || pc.TypeError? || ci.TypeError? || em.TypeError? || ph.TypeError?
        then ProducerFails
        else UpsertProducer(name.value, ProducerInfo(cc.v, st.v, pc.v, ci.v, em.v, ph.v))
  }

  /** The two names a product refers to, read before `getOrCreateId` runs. */
  datatype ProductRefs = ProductRefs(brand: Option<string>, producer: Option<string>)

  /** importer.js:108-117: the brand name, then the responsible producer's name; either
      read may throw. */
  function ProductRefsOf(e: ProductEntry): (r: Decoded<ProductRefs>)
    ensures r.TypeError? <==> Throws(e.brand) || ResponsibleProducer(e.attributes).TypeError?
    ensures r.Value? ==> r.v.brand == GetValue(e.brand, None).v
    ensures r.Value? ==> r.v.producer == ResponsibleProducer(e.attributes).v
  {
    match GetValue(e.brand, None)
    case TypeError => TypeError
    case Value(brand) =>
      match ResponsibleProducer(e.attributes)
      case TypeError => TypeError
      case Value(producer) => Value(ProductRefs(brand, producer))
  }

  /** The `values` array of the product query, before the database sees it: `sku` may be
      null, `vat` and `stock` may be NaN (`None`). `parseFloat` is not modelled: the price,
      dimension and weight columns carry the string it would read. */
  datatype ProductValues = ProductValues(
    sku: Option<string>, name: Option<string>, ean: Option<string>, description: Option<string>,
    price: string, suggestedPrice: string, vat: Option<int>, stock: Option<int>,
    packageLength: string, packageWidth: string, packageHeight: string, grossWeight: string,
    imageUrls: string, categoryPath: Option<string>)

  /** Building the product's values throws: one of the thirteen fields read by `getValue`
      has an element without text. */
  predicate ValuesThrow(e: ProductEntry) {
    || Throws(e.sku) || Throws(e.name) || Throws(e.ean) || Throws(e.description)
    || Throws(e.listPrice) || Throws(e.suggestedPrice) || Throws(e.vat) || Throws(e.stock)
    || Throws(e.packageLength) || Throws(e.packageWidth) || Throws(e.packageHeight)
    || Throws(e.grossWeight) || Throws(e.category)
  }

  /** importer.js:123-128 and 155-172. */
  function ProductValuesOf(e: ProductEntry): (r: Decoded<ProductValues>)
    ensures r.TypeError? <==> ValuesThrow(e)
    ensures r.Value? ==> r.v.sku == GetValue(e.sku, None).v
    ensures r.Value? ==> r.v.name == GetValue(e.name, None).v
    ensures r.Value? ==> r.v.ean == GetValue(e.ean, None).v
    ensures r.Value? ==> r.v.description == GetValue(e.description, None).v
    ensures r.Value? ==> r.v.categoryPath == GetValue(e.category, None).v
    ensures r.Value? ==> r.v.price == GetValueOr(e.listPrice, "0").v
    ensures r.Value? ==> r.v.suggestedPrice == GetValueOr(e.suggestedPrice, "0").v
    ensures r.Value? ==> r.v.packageLength == GetValueOr(e.packageLength, "0").v
    ensures r.Value? ==> r.v.packageWidth == GetValueOr(e.packageWidth, "0").v
    ensures r.Value? ==> r.v.packageHeight == GetValueOr(e.packageHeight, "0").v
    ensures r.Value? ==> r.v.grossWeight == GetValueOr(e.grossWeight, "0").v
    ensures r.Value? ==> r.v.vat == VatOf(GetValueOr(e.vat, "0%").v)
    ensures r.Value? ==> r.v.stock == ParseInt(GetValueOr(e.stock, "0").v)
    ensures r.Value? ==> r.v.imageUrls == ImageUrls(e.imageLinks)
    ensures r.Value? && !Present(e.vat) ==> r.v.vat == Some(0)
    ensures r.Value? && !Present(e.listPrice) ==> r.v.price == "0"
    ensures r.Value? && !Present(e.suggestedPrice) ==> r.v.suggestedPrice == "0"
    ensures r.Value? && !Present(e.packageLength) ==> r.v.packageLength == "0"
    ensures r.Value? && !Present(e.packageWidth) ==> r.v.packageWidth == "0"
    ensures r.Value? && !Present(e.packageHeight) ==> r.v.packageHeight == "0"
    ensures r.Value? && !Present(e.grossWeight) ==> r.v.grossWeight == "0"
    ensures r.Value? && !Present(e.stock) ==> r.v.stock == Some(0)
  {
    var images := ImageUrls(e.imageLinks);
    var vatString := GetValueOr(e.vat, "0%");
    var sku, name, ean, description := GetValue(e.sku, None), GetValue(e.name, None), GetValue(e.ean, None), GetValue(e.description, None);
    var price, suggested := GetValueOr(e.listPrice, "0"), GetValueOr(e.suggestedPrice, "0");
    var stock := GetValueOr(e.stock, "0");
    var len, wid, hei, wei := GetValueOr(e.packageLength, "0"), GetValueOr(e.packageWidth, "0"), GetValueOr(e.packageHeight, "0"), GetValueOr(e.grossWeight, "0");
    var category := GetValue(e.category, None);
    if vatString.TypeError? || sku.TypeError? || name.TypeError? || ean.TypeError?
       || description.TypeError? || price.TypeError? || suggested.TypeError? || stock.TypeError?
       || len.TypeError? || wid.TypeError? || hei.TypeError? || wei.TypeError? || category.TypeError?
    then TypeError
    else
      MissingNumericDefaults();
      Value(ProductValues(sku.v, name.v, ean.v, description.v, price.v, suggested.v,
                          VatOf(vatString.v), ParseInt(stock.v), len.v, wid.v, hei.v, wei.v,
                          images, category.v))
  }

  /** The product columns as stored. */
  datatype ProductFields = ProductFields(
    name: Option<string>, ean: Option<string>, description: Option<string>,
    price: string, suggestedPrice: string, vat: int, stock: int,
    packageLength: string, packageWidth: string, packageHeight: string, grossWeight: string,
    imageUrls: string, categoryPath: Option<string>)

  /** The database accepts the insert: the SKU is not null and the two integer columns are
      numbers. */
  predicate Accepted(v: ProductValues) {
    v.sku.Some? && v.vat.Some? && v.stock.Some?
  }

  function FieldsOf(v: ProductValues): ProductFields
    requires Accepted(v)
  {
    ProductFields(v.name, v.ean, v.description, v.price, v.suggestedPrice, v.vat.value,
                  v.stock.value, v.packageLength, v.packageWidth, v.packageHeight,
                  v.grossWeight, v.imageUrls, v.categoryPath)
  }
}
