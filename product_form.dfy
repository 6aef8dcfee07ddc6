/** The product creation form, app/admin/products/create/page.tsx: the form
    fields, the list of media inputs (which never becomes empty), the weight
    input's `parseInt(value) || 0`, the seller prefill, and the request body
    a submission sends to the product endpoint. */
module ProductForm {
  import opened Common
  import opened Seqs
  import opened Store
  import opened ProductsRoute

  /** The form fields, with the page's initial values. */
  datatype FormData = FormData(
    name: string,
    description: string,
    weight: int,
    inStock: bool,
    fishId: string,
    cityId: string,
    sellerId: string)

  const InitialData := FormData("", "", 0, true, "", "", "")

  /** The media input added by "add media": an empty url of type IMAGE. */
  const BlankMedia := MediaRow("", IMAGE)

  /** `handleMediaChange(index, field, value)`: the url or the type. */
  datatype MediaEdit = SetUrl(url: string) | SetKind(kind: MediaKind)

  /** A change event on one of the inputs handled by `handleChange` or the
      checkbox; `WeightText` carries the raw text of the weight input. */
  datatype FormInput =
    | NameText(value: string)
    | DescriptionText(value: string)
    | WeightText(text: string)
    | FishChoice(value: string)
    | CityChoice(value: string)
    | SellerChoice(value: string)
    | InStockBox(checked: bool)

  // ---------------------------------------------------------------------
  // `parseInt(value)` with no radix, and `|| 0`.

  /** The characters `trim` and `parseInt` skip: ECMAScript white space and
      line terminators. */
  predicate IsSpace(c: char) {
    c == '\t' || c == '\n' || c == '\U{B}' || c == '\U{C}' || c == '\r' || c == ' '
    || c == '\U{A0}' || c == '\U{1680}' || ('\U{2000}' <= c <= '\U{200A}')
    || c == '\U{2028}' || c == '\U{2029}' || c == '\U{202F}' || c == '\U{205F}'
    || c == '\U{3000}' || c == '\U{FEFF}'
  }

  /** The text after leading white space. */
  function TrimStart(s: string): (r: string)
    ensures |r| <= |s| && r == s[|s| - |r|..]
    ensures r != [] ==> !IsSpace(r[0])
    ensures forall i :: 0 <= i < |s| - |r| ==> IsSpace(s[i])
  {
    if s != [] && IsSpace(s[0]) then TrimStart(s[1..]) else s
  }

  /** The value of a digit in base 16, or -1. */
  function DigitValue(c: char): int {
    if '0' <= c <= '9' then c as int - '0' as int
    else if 'a' <= c <= 'f' then c as int - 'a' as int + 10
    else if 'A' <= c <= 'F' then c as int - 'A' as int + 10
    else -1
  }

  predicate IsDigitIn(c: char, radix: int) {
    0 <= DigitValue(c) < radix
  }

  /** The length of the longest prefix of `t` made of digits of the radix. */
  function DigitRun(t: string, radix: int): (n: nat)
    ensures n <= |t|
    ensures forall i :: 0 <= i < n ==> IsDigitIn(t[i], radix)
    ensures n < |t| ==> !IsDigitIn(t[n], radix)
  {
    if t == [] || !IsDigitIn(t[0], radix) then 0 else 1 + DigitRun(t[1..], radix)
  }

  /** The number a run of digits denotes, most significant first. */
  function DigitsValue(ds: string, radix: int): int
    requires forall i :: 0 <= i < |ds| ==> IsDigitIn(ds[i], radix)
  {
    if ds == [] then 0
    else DigitsValue(ds[..|ds| - 1], radix) * radix + DigitValue(ds[|ds| - 1])
  }

  /** `parseInt(s)`: leading white space skipped, an optional sign, a `0x`
      prefix switching to base 16, then the longest run of digits; `None`
      stands for NaN, when that run is empty. */
  function ParseInt(s: string): (r: Option<int>)
  {
    var t := TrimStart(s);
    var negative := t != [] && t[0] == '-';
    var unsigned := if t != [] && (t[0] == '-' || t[0] == '+') then t[1..] else t;
    var hex := |unsigned| >= 2 && unsigned[0] == '0' && (unsigned[1] == 'x' || unsigned[1] == 'X');
    var radix := if hex then 16 else 10;
    var body := if hex then unsigned[2..] else unsigned;
    match LeadingDigits(body, radix)
    case None => None
    case Some(v) => Some(if negative then -v else v)
  }

  /** The value of the longest run of digits at the start of `body`; `None`
      when there is none. */
  function LeadingDigits(body: string, radix: int): Option<int> {
    var n := DigitRun(body, radix);
    if n == 0 then None
    else
      var ds := body[..n];
      assert forall i :: 0 <= i < |ds| ==> ds[i] == body[i];
      Some(DigitsValue(ds, radix))
  }

  /** `parseInt(value) || 0`: NaN (and zero) become 0. */
  function WeightFromText(s: string): int {
    match ParseInt(s)
    case None => 0
    case Some(v) => v
  }

  /** The decimal rendering of a natural number, as the number input shows it. */
  function Decimal(n: nat): (s: string)
    ensures s != [] && forall i :: 0 <= i < |s| ==> '0' <= s[i] <= '9'
    ensures |s| > 1 ==> s[0] != '0'
  {
    if n < 10 then [('0' as int + n) as char]
    else Decimal(n / 10) + [('0' as int + n % 10) as char]
  }

  lemma {:induction false} DecimalValue(n: nat)
    ensures forall i :: 0 <= i < |Decimal(n)| ==> IsDigitIn(Decimal(n)[i], 10)
    ensures DigitsValue(Decimal(n), 10) == n
  {
    var s := Decimal(n);
    if n >= 10 {
      DecimalValue(n / 10);
      assert s[..|s| - 1] == Decimal(n / 10);
    }
  }

  /** A run of digits is read whole. */
  lemma {:induction false} DigitRunAll(t: string, radix: int)
    requires forall i :: 0 <= i < |t| ==> IsDigitIn(t[i], radix)
    ensures DigitRun(t, radix) == |t|
  {
    if t != [] {
      DigitRunAll(t[1..], radix);
    }
  }

  /** A string of decimal digits with no `0x` prefix is read as its digits. */
  lemma ParseDecimalDigits(s: string)
    requires s != [] && forall i :: 0 <= i < |s| ==> '0' <= s[i] <= '9'
    ensures forall i :: 0 <= i < |s| ==> IsDigitIn(s[i], 10)
    ensures ParseInt(s) == Some(DigitsValue(s, 10))
  {
    assert !IsSpace(s[0]);
    assert TrimStart(s) == s;
    assert s[0] != '-' && s[0] != '+';
    assert !(|s| >= 2 && (s[1] == 'x' || s[1] == 'X'));
    forall i | 0 <= i < |s| ensures IsDigitIn(s[i], 10) {
    }
    DigitRunAll(s, 10);
    assert s[..|s|] == s;
  }

  /** The weight input reads back any natural number it displays. */
  lemma WeightRoundTrip(n: nat)
    ensures WeightFromText(Decimal(n)) == n
  {
    DecimalValue(n);
    ParseDecimalDigits(Decimal(n));
  }

  /** Text that is not a number gives weight 0. */
  lemma NonNumericWeightIsZero()
    ensures WeightFromText("abc") == 0
    ensures WeightFromText("") == 0
  {
    assert !IsSpace('a');
    assert TrimStart("abc") == "abc";
    assert DigitRun("abc", 10) == 0;
  }

  /** Text after the digits is ignored. */
  lemma TrailingTextIgnored()
    ensures WeightFromText("12kg") == 12
  {
    assert !IsSpace('1');
    assert TrimStart("12kg") == "12kg";
    assert DigitRun("kg", 10) == 0;
    assert DigitRun("2kg", 10) == 1;
    assert DigitRun("12kg", 10) == 2;
    assert "12kg"[..2] == "12" && "12"[..1] == "1" && "1"[..0] == "";
    assert DigitsValue("1", 10) == 1;
    assert DigitsValue("12", 10) == 12;
    assert LeadingDigits("12kg", 10) == Some(12);
  }

  /** A leading minus sign negates, after any leading white space. */
  lemma NegativeWeight()
    ensures WeightFromText(" -5") == -5
  {
    assert IsSpace(' ') && !IsSpace('-');
    assert " -5"[1..] == "-5";
    assert TrimStart("-5") == "-5";
    assert TrimStart(" -5") == "-5";
    assert "-5"[1..] == "5";
    assert DigitRun("5", 10) == 1;
    assert "5"[..1] == "5" && "5"[..0] == "";
    assert DigitsValue("5", 10) == 5;
    assert LeadingDigits("5", 10) == Some(5);
  }

  /** A `0x` prefix reads hexadecimal. */
  lemma HexWeight()
    ensures WeightFromText("0x1A") == 26
  {
    var t := "0x1A";
    assert t[0] == '0' && t[1] == 'x' && !IsSpace(t[0]);
    assert TrimStart(t) == t;
    assert t[2..] == "1A";
    HexDigits();
    assert ParseInt(t) == Some(26);
  }

  /** The digits after the prefix, read in base 16. */
  lemma HexDigits()
    ensures LeadingDigits("1A", 16) == Some(26)
  {
    assert DigitRun("A", 16) == 1;
    assert DigitRun("1A", 16) == 2;
    assert "1A"[..2] == "1A" && "1A"[..1] == "1" && "1"[..0] == "";
    assert DigitsValue("1", 16) == 1;
    assert DigitsValue("1A", 16) == 26;
  }

  // ---------------------------------------------------------------------
  // Media inputs and submission.

  /** `media.filter(item => item.url.trim() !== '')`. */
  function ValidMedia(media: seq<MediaRow>): seq<MediaRow> {
    Filter(media, HasUrl)
  }

  /** `item.url.trim() !== ''`. */
  predicate HasUrl(m: MediaRow) {
    TrimStart(m.url) != []
  }

  /** `trim()` gives '' exactly for a string of white space. */
  lemma {:induction false} TrimStartEmpty(s: string)
    ensures TrimStart(s) == [] <==> forall i :: 0 <= i < |s| ==> IsSpace(s[i])
  {
    if s != [] && IsSpace(s[0]) {
      TrimStartEmpty(s[1..]);
      if forall i :: 0 <= i < |s[1..]| ==> IsSpace(s[1..][i]) {
        forall i | 0 <= i < |s| ensures IsSpace(s[i]) {
          if i > 0 {
            assert s[i] == s[1..][i - 1];
          }
        }
      }
    }
  }

  /** An input is submitted exactly when its url holds a character other than
      white space. */
  lemma ValidMediaMeaning(media: seq<MediaRow>, m: MediaRow)
    ensures m in ValidMedia(media) <==>
      (m in media && exists j :: 0 <= j < |m.url| && !IsSpace(m.url[j]))
  {
    TrimStartEmpty(m.url);
    if m in media && HasUrl(m) {
      var k :| 0 <= k < |media| && media[k] == m;
    }
    if m in ValidMedia(media) {
      var k :| 0 <= k < |ValidMedia(media)| && ValidMedia(media)[k] == m;
    }
  }

  /** The submitted inputs keep their order. */
  lemma ValidMediaKeepsOrder(media: seq<MediaRow>)
    ensures Subsequence(ValidMedia(media), media)
  {
    FilterIsSubsequence(media, HasUrl);
  }

  /** The checks `handleSubmit` runs before sending anything. */
  predicate CanSubmit(d: FormData) {
    d.name != "" && d.description != "" && d.weight > 0
  }

  /** The JSON body sent: every form field, and the valid media, or no
      `media` key at all when none is valid. */
  function Payload(d: FormData, media: seq<MediaRow>): (b: ProductBody)
    ensures b.media.Some? <==> ValidMedia(media) != []
    ensures b.media.Some? ==> b.media.value == ValidMedia(media)
  {
    var valid := ValidMedia(media);
    ProductBody(Some(d.name), Some(d.description), Some(d.weight), Some(d.inStock), Some(d.fishId),
                if |valid| > 0 then Some(valid) else None,
                Some(d.sellerId), Some(d.cityId))
  }

  /** A body the form sends always passes the server's check for name,
      description and weight. */
  lemma SubmittedBodyPassesFieldCheck(d: FormData, media: seq<MediaRow>)
    requires CanSubmit(d)
    ensures var b := Payload(d, media);
      Present(b.name) && Present(b.description) && WeightGiven(b.weight)
  {
  }

  /** The page's state. */
  class ProductFormPage {
    var data: FormData
    var media: seq<MediaRow>

    /** The media list is never empty. */
    ghost predicate Valid()
      reads this
    {
      |media| >= 1
    }

    constructor ()
      ensures data == InitialData && media == [BlankMedia]
      ensures Valid()
    {
      data := InitialData;
      media := [BlankMedia];
    }

    /** `addMediaField`. */
    method AddMediaField()
      requires Valid()
      modifies this
      ensures media == old(media) + [BlankMedia] && data == old(data)
      ensures Valid()
    {
      media := media + [BlankMedia];
    }

    /** `removeMediaField(index)`: `splice(index, 1)` on a copy, only while more
        than one input is left. A negative index counts from the end; an index
        past the end removes nothing. */
    method RemoveMediaField(index: int)
      requires Valid()
      modifies this
      ensures old(|media|) <= 1 ==> media == old(media)
      ensures old(|media|) > 1 ==>
        var start := if index < 0 then (if |old(media)| + index < 0 then 0 else |old(media)| + index)
                     else index;
        && (start < |old(media)| ==> media == old(media)[..start] + old(media)[start + 1..])
        && (start >= |old(media)| ==> media == old(media))
      ensures data == old(data)
      ensures Valid()
    {
      if |media| > 1 {
        var start := if index < 0 then (if |media| + index < 0 then 0 else |media| + index) else index;
        if start < |media| {
          media := media[..start] + media[start + 1..];
        }
      }
    }

    /** `handleMediaChange(index, field, value)`; the page calls it only with
        the index of an input it renders. */
    method HandleMediaChange(index: nat, edit: MediaEdit)
      requires Valid() && index < |media|
      modifies this
      ensures |media| == old(|media|) && data == old(data)
      ensures edit.SetUrl? ==> media == old(media)[index := old(media)[index].(url := edit.url)]
      ensures edit.SetKind? ==> media == old(media)[index := old(media)[index].(kind := edit.kind)]
      ensures Valid()
    {
      var updated := media;
      match edit {
        case SetUrl(u) =>
          updated := updated[index := updated[index].(url := u)];
        case SetKind(k) =>
          updated := updated[index := updated[index].(kind := k)];
      }
      media := updated;
    }

    /** `handleChange` and the stock checkbox: one field is replaced; the
        weight input stores `parseInt(value) || 0`. */
    method HandleChange(input: FormInput)
      modifies this
      ensures media == old(media)
      ensures data == match input
        case NameText(v) => old(data).(name := v)
        case DescriptionText(v) => old(data).(description := v)
        case WeightText(t) => old(data).(weight := WeightFromText(t))
        case FishChoice(v) => old(data).(fishId := v)
        case CityChoice(v) => old(data).(cityId := v)
        case SellerChoice(v) => old(data).(sellerId := v)
        case InStockBox(c) => old(data).(inStock := c)
    {
      match input
      case NameText(v) => data := data.(name := v);
      case DescriptionText(v) => data := data.(description := v);
      case WeightText(t) => data := data.(weight := WeightFromText(t));
      case FishChoice(v) => data := data.(fishId := v);
      case CityChoice(v) => data := data.(cityId := v);
      case SellerChoice(v) => data := data.(sellerId := v);
      case InStockBox(c) => data := data.(inStock := c);
    }

    /** The prefill for a seller: their own seller id and city, from their
        seller record; the other fields keep their values. */
    method PrefillSeller(seller: Seller)
      modifies this
      ensures data == old(data).(sellerId := seller.id, cityId := seller.cityId)
      ensures media == old(media)
    {
      data := data.(sellerId := seller.id, cityId := seller.cityId);
    }

    /** `handleSubmit`: the body sent, or `None` when a required field is
        empty or the weight is not positive. */
    method HandleSubmit() returns (r: Option<ProductBody>)
      ensures r.None? <==> !CanSubmit(data)
      ensures r.Some? ==> r.value == Payload(data, media)
    {
      if data.name == "" || data.description == "" || data.weight <= 0 {
        return None;
      }
      return Some(Payload(data, media));
    }
  }

  /** The list of media inputs cannot be emptied: removing from a one-input
      list leaves it as it is. */
  method RemoveLastInputKept(page: ProductFormPage, index: int)
    requires page.Valid() && |page.media| == 1
    modifies page
    ensures page.media == old(page.media) && |page.media| == 1
  {
    page.RemoveMediaField(index);
  }
}
