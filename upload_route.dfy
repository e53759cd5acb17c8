/** The invoice API route of the web front end: `POST` validates a batch of
    uploaded images before forwarding them for recognition, `PUT` validates a
    correction request before forwarding it. Both ask a rate limiter first.
    The limiter's verdict, the form and JSON decoding, reading an image's
    bytes and the backend call are outside the model: the verdict, the decoded
    fields and whether each read succeeds are inputs. */
module UploadRoute {
  import opened Wrappers
  import opened Text
  import opened JsonValue

  const MaxImages := 10
  const MaxSize := 50 * 1024 * 1024
  const AllowedMimeTypes := ["image/jpeg", "image/jpg", "image/png", "image/gif", "image/webp", "image/bmp", "image/tiff"]

  /** One entry of the `images` form field: an uploaded file, or a plain text
      entry. `readable` tells whether `arrayBuffer()` on the file succeeds. */
  datatype Part = FilePart(name: string, mimeType: string, size: nat, readable: bool) | TextPart(text: string)

  /** What is forwarded for each accepted image (its encoded contents aside). */
  datatype ImageData = ImageData(filename: string, mimeType: string, size: nat, originalName: string)

  /** The `metadata` form field: missing or empty (falsy), text that
      `JSON.parse` reads as a value, or text on which it throws, with the
      message of the error. */
  datatype MetadataField = NoMetadata | Parsed(value: J) | Unparsable(message: string)

  /** `now` is `new Date().toISOString()` when the payload is built. */
  datatype PostRequest = PostRequest(rateLimited: bool, images: seq<Part>, limitField: Option<string>,
                                     metadata: MetadataField, now: string)

  datatype Response =
    | Reject(status: int, error: string)
    /** The batch that goes to the backend; `limit == None` is `NaN`. */
    | Forward(files: seq<ImageData>, totalSize: nat, limit: Option<int>, metadata: Fields)

  // ---- The key the limiter counts under ----

  predicate Truthy(s: Option<string>) { s.Some? && s.value != "" }

  /** `x-forwarded-for || x-real-ip || 'unknown'` for `POST`. */
  function PostIdentifier(forwardedFor: Option<string>, realIp: Option<string>): (id: string)
    ensures Truthy(forwardedFor) ==> id == forwardedFor.value
    ensures !Truthy(forwardedFor) && Truthy(realIp) ==> id == realIp.value
    ensures !Truthy(forwardedFor) && !Truthy(realIp) ==> id == "unknown"
  {
    if Truthy(forwardedFor) then forwardedFor.value
    else if Truthy(realIp) then realIp.value
    else "unknown"
  }

  // ---- parseInt ----

  function HexValue(c: char): (d: nat)
    ensures d <= 16
  {
    if '0' <= c <= '9' then (c as int) - ('0' as int)
    else if 'a' <= c <= 'f' then (c as int) - ('a' as int) + 10
    else if 'A' <= c <= 'F' then (c as int) - ('A' as int) + 10
    else 16
  }

  /** The longest prefix of `s` made of digits of the given radix (10 or 16). */
  function LeadingDigits(s: string, radix: nat): (r: string)
    ensures |r| <= |s| && r == s[..|r|]
    ensures forall i :: 0 <= i < |r| ==> HexValue(r[i]) < radix
    ensures |r| < |s| ==> HexValue(s[|r|]) >= radix
  {
    if s != [] && HexValue(s[0]) < radix then [s[0]] + LeadingDigits(s[1..], radix) else []
  }

  /** Value of a digit string in the given radix, most significant digit first. */
  function RadixValue(s: string, radix: nat): nat
  {
    if s == [] then 0
    else RadixValue(s[..|s| - 1], radix) * radix + (if HexValue(s[|s| - 1]) < radix then HexValue(s[|s| - 1]) else 0)
  }

  /** The digits after the sign: a `0x` prefix selects radix 16, then the
      longest run of digits is read; no digit at all gives `NaN`, here `None`. */
  function ParseUnsigned(u: string): (r: Option<nat>)
    ensures r.None? <==> LeadingDigits(if HasHexPrefix(u) then u[2..] else u, if HasHexPrefix(u) then 16 else 10) == []
  {
    var radix := if HasHexPrefix(u) then 16 else 10;
    var digits := LeadingDigits(if HasHexPrefix(u) then u[2..] else u, radix);
    if digits == [] then None else Some(RadixValue(digits, radix))
  }

  predicate HasHexPrefix(u: string) { |u| >= 2 && u[0] == '0' && (u[1] == 'x' || u[1] == 'X') }

  /** The text `parseInt` reads digits from: after leading white space and one sign. */
  function Unsigned(s: string): string
  {
    var t := TrimStart(s, IsJsSpace);
    if t != [] && (t[0] == '-' || t[0] == '+') then t[1..] else t
  }

  /** `parseInt(s)` without a radix: leading white space and one sign are
      skipped; the result is `NaN` exactly when no digit follows, and is
      negative only after a minus sign. */
  function ParseInt(s: string): (r: Option<int>)
    ensures r.None? <==> ParseUnsigned(Unsigned(s)).None?
    ensures r.Some? ==> (if r.value < 0 then -r.value else r.value) == ParseUnsigned(Unsigned(s)).value
    ensures r.Some? && r.value < 0 ==> TrimStart(s, IsJsSpace) != [] && TrimStart(s, IsJsSpace)[0] == '-'
  {
    var t := TrimStart(s, IsJsSpace);
    if t != [] && t[0] == '-' then
      (match ParseUnsigned(t[1..]) case None => None case Some(n) => var m: int := n; Some(-m))
    else if t != [] && t[0] == '+' then
      (match ParseUnsigned(t[1..]) case None => None case Some(n) => Some(n))
    else
      (match ParseUnsigned(t) case None => None case Some(n) => Some(n))
  }

  /** `parseInt(field?.toString() || '0')`. */
  function ParseLimit(field: Option<string>): Option<int>
  {
    ParseInt(if Truthy(field) then field.value else "0")
  }

  /** `limit < 0 || limit > 100`; every comparison with `NaN` is false. */
  predicate LimitOutOfRange(limit: Option<int>)
  {
    limit.Some? && (limit.value < 0 || limit.value > 100)
  }

  /** A missing or empty field reads as 0. */
  lemma LimitDefaultsToZero()
    ensures ParseLimit(None) == Some(0) && ParseLimit(Some("")) == Some(0)
  {
    assert TrimStart("0", IsJsSpace) == "0";
    assert !HasHexPrefix("0");
    assert LeadingDigits("0", 10) == "0";
    assert ParseUnsigned("0") == Some(0);
  }

  /** Text without leading digits reads as `NaN` and gets through the range check. */
  lemma LimitNaNPasses()
    ensures ParseLimit(Some("alto")) == None && !LimitOutOfRange(ParseLimit(Some("alto")))
  {
    assert !IsJsSpace('a');
    assert TrimStart("alto", IsJsSpace) == "alto";
    assert !HasHexPrefix("alto");
    assert LeadingDigits("alto", 10) == [];
    assert ParseUnsigned("alto") == None;
  }

  lemma {:induction false} TrimSpacesPrefix(ws: string, x: string)
    requires forall i :: 0 <= i < |ws| ==> IsJsSpace(ws[i])
    requires x == [] || !IsJsSpace(x[0])
    ensures TrimStart(ws + x, IsJsSpace) == x
  {
    if ws == [] {
      assert ws + x == x;
    } else {
      assert (ws + x)[1..] == ws[1..] + x;
      TrimSpacesPrefix(ws[1..], x);
    }
  }

  lemma {:induction false} LeadingDecimalDigits(d: string, rest: string)
    requires AllDigits(d)
    requires rest == [] || !IsDigit(rest[0])
    ensures LeadingDigits(d + rest, 10) == d
  {
    if d == [] {
      assert d + rest == rest;
    } else {
      assert (d + rest)[0] == d[0];
      assert (d + rest)[1..] == d[1..] + rest;
      LeadingDecimalDigits(d[1..], rest);
      assert d == [d[0]] + d[1..];
    }
  }

  lemma {:induction false} DecimalRadixValue(d: string)
    requires AllDigits(d)
    ensures RadixValue(d, 10) == DigitsValue(d)
  {
    if d != [] {
      DecimalRadixValue(d[..|d| - 1]);
    }
  }

  /** A run of decimal digits followed by text that cannot continue it reads as its value. */
  lemma UnsignedReadsDigits(d: string, rest: string)
    requires d != [] && AllDigits(d)
    requires rest == [] || (!IsDigit(rest[0]) && rest[0] != 'x' && rest[0] != 'X')
    ensures ParseUnsigned(d + rest) == Some(DigitsValue(d))
  {
    DecimalRadixValue(d);
    LeadingDecimalDigits(d, rest);
    assert !HasHexPrefix(d + rest) by {
      if |d + rest| >= 2 && |d| >= 2 {
        assert (d + rest)[1] == d[1] && IsDigit(d[1]);
      } else if |d + rest| >= 2 {
        assert (d + rest)[1] == rest[0];
      }
    }
  }

  /** Digits with text after them that cannot continue them: `parseInt` reads their value. */
  lemma NaturalReads(d: string, rest: string, x: string)
    requires d != [] && AllDigits(d)
    requires rest == [] || (!IsDigit(rest[0]) && rest[0] != 'x' && rest[0] != 'X')
    requires x == d + rest
    ensures x != [] && !IsJsSpace(x[0]) && ParseInt(x) == Some(DigitsValue(d))
  {
    UnsignedReadsDigits(d, rest);
    assert x[0] == d[0] && IsDigit(x[0]);
    assert TrimStart(x, IsJsSpace) == x;
  }

  /** The same after a minus sign. */
  lemma NegativeReads(d: string, rest: string, x: string)
    requires d != [] && AllDigits(d)
    requires rest == [] || (!IsDigit(rest[0]) && rest[0] != 'x' && rest[0] != 'X')
    requires x == "-" + (d + rest)
    ensures x != [] && !IsJsSpace(x[0]) && ParseInt(x) == Some(0 - DigitsValue(d))
  {
    UnsignedReadsDigits(d, rest);
    assert x[0] == '-' && !IsJsSpace(x[0]);
    assert TrimStart(x, IsJsSpace) == x;
    assert x[1..] == d + rest;
  }

  /** `parseInt` looks only at the text after the leading white space. */
  lemma ParseIntSameTrim(s: string, t: string)
    requires TrimStart(s, IsJsSpace) == TrimStart(t, IsJsSpace)
    ensures ParseInt(s) == ParseInt(t)
  {
  }

  /** `parseInt` skips leading white space, reads a whole decimal integer and
      ignores whatever follows it that cannot continue it (a `x` after a lone
      `0` would make it hexadecimal). */
  lemma ParseIntReadsInteger(ws: string, n: int, rest: string)
    requires forall i :: 0 <= i < |ws| ==> IsJsSpace(ws[i])
    requires rest == [] || (!IsDigit(rest[0]) && rest[0] != 'x' && rest[0] != 'X')
    ensures ParseInt(ws + IntToString(n) + rest) == Some(n)
  {
    var x := IntToString(n) + rest;
    assert ws + IntToString(n) + rest == ws + x;
    assert ParseInt(x) == Some(n) && !IsJsSpace(x[0]) by {
      IntTextReads(n, rest, x);
    }
    ParseIntAfterSpaces(ws, x);
  }

  /** Leading white space does not change what `parseInt` reads. */
  lemma ParseIntAfterSpaces(ws: string, x: string)
    requires forall i :: 0 <= i < |ws| ==> IsJsSpace(ws[i])
    requires x != [] && !IsJsSpace(x[0])
    ensures ParseInt(ws + x) == ParseInt(x)
  {
    TrimSpacesPrefix(ws, x);
    assert TrimStart(x, IsJsSpace) == x;
    ParseIntSameTrim(ws + x, x);
  }

  lemma IntTextReads(n: int, rest: string, x: string)
    requires rest == [] || (!IsDigit(rest[0]) && rest[0] != 'x' && rest[0] != 'X')
    requires x == IntToString(n) + rest
    ensures x != [] && !IsJsSpace(x[0]) && ParseInt(x) == Some(n)
  {
    var m: nat := if n < 0 then -n else n;
    var d := NatToString(m);
    assert d != [] && AllDigits(d) && DigitsValue(d) == m by {
      NatToStringValue(m);
    }
    if n < 0 {
      assert x == "-" + (d + rest);
      assert ParseInt(x) == Some(0 - DigitsValue(d)) && !IsJsSpace(x[0]) by {
        NegativeReads(d, rest, x);
      }
    } else {
      assert x == d + rest;
      assert ParseInt(x) == Some(DigitsValue(d)) && !IsJsSpace(x[0]) by {
        NaturalReads(d, rest, x);
      }
    }
  }

  /** A limit field holding an integer, with or without surrounding text, is
      range-checked by that integer. */
  lemma LimitReadsInteger(ws: string, n: int, rest: string)
    requires forall i :: 0 <= i < |ws| ==> IsJsSpace(ws[i])
    requires rest == [] || (!IsDigit(rest[0]) && rest[0] != 'x' && rest[0] != 'X')
    ensures ParseLimit(Some(ws + IntToString(n) + rest)) == Some(n)
    ensures LimitOutOfRange(ParseLimit(Some(ws + IntToString(n) + rest))) <==> n < 0 || n > 100
  {
    ParseIntReadsInteger(ws, n, rest);
    assert |ws + IntToString(n) + rest| >= |IntToString(n)| >= 1;
  }

  // ---- The per-image checks ----

  /** `name.replace(/\s+/g, '_')`: every maximal run of white space becomes one `_`. */
  function CollapseSpaces(s: string): (r: string)
    ensures forall i :: 0 <= i < |r| ==> !IsJsSpace(r[i])
    ensures |r| <= |s|
    ensures (forall i :: 0 <= i < |s| ==> !IsJsSpace(s[i])) ==> r == s
    decreases |s|
  {
    if s == [] then []
    else if IsJsSpace(s[0]) then "_" + CollapseSpaces(TrimStart(s, IsJsSpace))
    else [s[0]] + CollapseSpaces(s[1..])
  }

  /** `ALLOWED_MIME_TYPES.includes(type.toLowerCase())`. */
  predicate AllowedMime(mimeType: string) { Lower(mimeType) in AllowedMimeTypes }

  /** Why an image is refused, in the order the route tests it. */
  datatype Problem = NotAFile | NotAnImage | TooLarge | TypeNotAllowed | ReadFailed

  /** The first check that image `p` fails, or `None` when it is accepted;
      a file that passes every check can still fail to be read. */
  function ImageProblem(p: Part): (r: Option<Problem>)
    ensures r.None? <==> (p.FilePart? && StartsWith(p.mimeType, "image/") && p.size <= MaxSize
                          && AllowedMime(p.mimeType) && p.readable)
    ensures r == Some(NotAFile) <==> p.TextPart?
    ensures r == Some(NotAnImage) <==> p.FilePart? && !StartsWith(p.mimeType, "image/")
    ensures r == Some(TooLarge) <==> p.FilePart? && StartsWith(p.mimeType, "image/") && p.size > MaxSize
    ensures r == Some(TypeNotAllowed) <==> (p.FilePart? && StartsWith(p.mimeType, "image/")
                                            && p.size <= MaxSize && !AllowedMime(p.mimeType))
  {
    match p
    case TextPart(_) => Some(NotAFile)
    case FilePart(_, mime, size, readable) =>
      if !StartsWith(mime, "image/") then Some(NotAnImage)
      else if size > MaxSize then Some(TooLarge)
      else if !AllowedMime(mime) then Some(TypeNotAllowed)
      else if !readable then Some(ReadFailed)
      else None
  }

  /** The error text of a refused image; `index` is 0-based, the text counts from 1. */
  function Message(index: nat, p: Part, problem: Problem): string
  {
    match problem
    case NotAFile => "La imagen " + NatToString(index + 1) + " no es válida"
    case NotAnImage => "El archivo \"" + NameOf(p) + "\" debe ser una imagen válida"
    case TooLarge => "La imagen \"" + NameOf(p) + "\" es demasiado grande (máximo 10MB)"
    case TypeNotAllowed =>
      "Tipo de archivo no permitido para \"" + NameOf(p) + "\". Formatos aceptados: JPEG, PNG, GIF, WebP, BMP, TIFF"
    case ReadFailed => "Error al procesar la imagen \"" + NameOf(p) + "\""
  }

  function NameOf(p: Part): string { if p.FilePart? then p.name else "" }

  function Accept(p: Part): (d: ImageData)
    requires p.FilePart?
    ensures d.size == p.size && d.mimeType == p.mimeType && d.originalName == p.name
    ensures forall i :: 0 <= i < |d.filename| ==> !IsJsSpace(d.filename[i])
  {
    ImageData(CollapseSpaces(p.name), p.mimeType, p.size, p.name)
  }

  /** The first image that fails a check, if any. */
  function FirstRejected(images: seq<Part>): (r: Option<nat>)
    ensures r.Some? ==> r.value < |images| && ImageProblem(images[r.value]).Some?
    ensures r.Some? ==> forall j :: 0 <= j < r.value ==> ImageProblem(images[j]).None?
    ensures r.None? <==> forall j :: 0 <= j < |images| ==> ImageProblem(images[j]).None?
  {
    FirstRejectedFrom(images, 0)
  }

  function FirstRejectedFrom(images: seq<Part>, from: nat): (r: Option<nat>)
    requires from <= |images|
    ensures r.Some? ==> from <= r.value < |images| && ImageProblem(images[r.value]).Some?
    ensures r.Some? ==> forall j :: from <= j < r.value ==> ImageProblem(images[j]).None?
    ensures r.None? <==> forall j :: from <= j < |images| ==> ImageProblem(images[j]).None?
    decreases |images| - from
  {
    if from == |images| then None
    else if ImageProblem(images[from]).Some? then Some(from)
    else FirstRejectedFrom(images, from + 1)
  }

  /** An image that fails while every earlier one passes is the first rejected one. */
  lemma FirstRejectedAt(images: seq<Part>, k: nat)
    requires k < |images| && ImageProblem(images[k]).Some?
    requires forall j :: 0 <= j < k ==> ImageProblem(images[j]).None?
    ensures FirstRejected(images) == Some(k)
  {
  }

  /** The answer `POST` gives a batch whose image `k` is the first refused
      one: 400 for a failed check, 500 from the catch around the read. */
  function RejectionOf(images: seq<Part>, k: nat): Response
    requires k < |images| && ImageProblem(images[k]).Some?
  {
    var problem := ImageProblem(images[k]).value;
    Reject(if problem == ReadFailed then 500 else 400, Message(k, images[k], problem))
  }

  /** `imagesData.reduce((sum, img) => sum + img.size, 0)`. */
  function TotalSize(files: seq<ImageData>): nat
  {
    if files == [] then 0 else TotalSize(files[..|files| - 1]) + files[|files| - 1].size
  }

  lemma {:induction false} TotalSizeBound(files: seq<ImageData>)
    requires forall i :: 0 <= i < |files| ==> files[i].size <= MaxSize
    ensures TotalSize(files) <= |files| * MaxSize
  {
    if files != [] {
      TotalSizeBound(files[..|files| - 1]);
    }
  }

  /** The loop over the images: stops at the first image that fails a check
      and returns its index; otherwise returns every image's forwarded data. */
  method CheckImages(images: seq<Part>) returns (rejected: Option<nat>, files: seq<ImageData>)
    ensures rejected == FirstRejected(images)
    ensures rejected.None? ==> |files| == |images|
    ensures rejected.None? ==>
      forall i :: 0 <= i < |images| ==> images[i].FilePart? && files[i] == Accept(images[i])
    ensures rejected.None? ==> forall i :: 0 <= i < |files| ==> files[i].size <= MaxSize
  {
    files := [];
    var i := 0;
    while i < |images|
      invariant 0 <= i <= |images|
      invariant |files| == i
      invariant forall j :: 0 <= j < i ==> ImageProblem(images[j]).None?
      invariant forall j :: 0 <= j < i ==> images[j].FilePart? && files[j] == Accept(images[j])
      invariant forall j :: 0 <= j < i ==> files[j].size <= MaxSize
    {
      if ImageProblem(images[i]).Some? {
        FirstRejectedAt(images, i);
        return Some(i), files;
      }
      files := files + [Accept(images[i])];
      i := i + 1;
    }
    rejected := None;
  }

  /** The `reduce` that sums the forwarded sizes. */
  method SumSizes(files: seq<ImageData>) returns (total: nat)
    ensures total == TotalSize(files)
    ensures (forall i :: 0 <= i < |files| ==> files[i].size <= MaxSize) ==> total <= |files| * MaxSize
  {
    total := 0;
    var j := 0;
    while j < |files|
      invariant 0 <= j <= |files|
      invariant total == TotalSize(files[..j])
    {
      assert files[..j + 1][..j] == files[..j];
      total := total + files[j].size;
      j := j + 1;
    }
    assert files[..|files|] == files;
    if forall i :: 0 <= i < |files| ==> files[i].size <= MaxSize {
      TotalSizeBound(files);
    }
  }

  /** Whether a request gets past every check of `POST`. */
  predicate PostAccepted(req: PostRequest)
  {
    !req.rateLimited && 0 < |req.images| <= MaxImages
    && FirstRejected(req.images).None? && !LimitOutOfRange(ParseLimit(req.limitField))
    && !req.metadata.Unparsable?
  }

  /** The answer of the outer `catch` to the error `JSON.parse` throws: 408
      when its message mentions a timeout; otherwise 500, since a syntax
      error carries no status. */
  function MetadataFailure(message: string): (resp: Response)
    ensures resp.Reject? && (resp.status == 408 <==> Contains(message, "timeout"))
    ensures resp.status != 408 ==> resp == Reject(500, "Error interno al subir imagen")
  {
    if Contains(message, "timeout") then Reject(408, "Timeout en procesamiento de la factura")
    else Reject(500, "Error interno al subir imagen")
  }

  /** `{...x}` for a parsed value: an object gives its own keys, an array its
      indices, a string one key per character; anything else gives nothing. */
  function Spread(x: J): Fields
  {
    match x
    case JObj(f) => f
    case JArr(items) => seq(|items|, i requires 0 <= i < |items| => (NatToString(i), items[i]))
    case JStr(s) => seq(|s|, i requires 0 <= i < |s| => (NatToString(i), JStr([s[i]])))
    case _ => []
  }

  /** `{...base, ...extra}`: each key of `extra` in turn, as `SetField` does. */
  function Merge(base: Fields, extra: Fields): Fields
    decreases |extra|
  {
    if extra == [] then base else Merge(SetField(base, extra[0].0, extra[0].1), extra[1..])
  }

  /** The `metadata` object sent to the backend: the image count, the total
      size and the timestamp, then whatever the client's metadata spreads over them. */
  function PayloadMetadata(count: nat, total: nat, now: string, m: MetadataField): Fields
  {
    var base := MetadataBase(count, total, now);
    if m.Parsed? then Merge(base, Spread(m.value)) else base
  }

  function MetadataBase(count: nat, total: nat, now: string): Fields
  {
    [("total_images", JNum(Fin(count as real))), ("total_size", JNum(Fin(total as real))), ("timestamp", JStr(now))]
  }

  lemma BaseLookup(count: nat, total: nat, now: string, k: string)
    ensures Lookup(MetadataBase(count, total, now), k) ==
      if k == "total_images" then Some(JNum(Fin(count as real)))
      else if k == "total_size" then Some(JNum(Fin(total as real)))
      else if k == "timestamp" then Some(JStr(now))
      else None
  {
    var base := MetadataBase(count, total, now);
    var rest1: Fields := [("total_size", JNum(Fin(total as real))), ("timestamp", JStr(now))];
    var rest2: Fields := [("timestamp", JStr(now))];
    var empty: Fields := [];
    assert base[1..] == rest1 && rest1[1..] == rest2 && rest2[1..] == empty;
    assert Lookup(rest2, k) == if k == "timestamp" then Some(JStr(now)) else Lookup(empty, k);
    assert Lookup(rest1, k) == if k == "total_size" then Some(JNum(Fin(total as real))) else Lookup(rest2, k);
  }

  /** Every key of the client's object overrides the computed field of that
      name; the computed fields it does not name are kept. */
  lemma {:induction false} MergeLookup(base: Fields, extra: Fields, k: string)
    requires UniqueKeys(extra)
    ensures Lookup(Merge(base, extra), k) == if HasKey(extra, k) then Lookup(extra, k) else Lookup(base, k)
    decreases |extra|
  {
    if extra != [] {
      var t := extra[1..];
      assert UniqueKeys(t) by {
        forall a, b | 0 <= a < b < |t|
          ensures t[a].0 != t[b].0
        {
          assert t[a] == extra[a + 1] && t[b] == extra[b + 1];
        }
      }
      MergeLookup(SetField(base, extra[0].0, extra[0].1), t, k);
      SetFieldLookup(base, extra[0].0, extra[0].1, k);
      assert Keys(extra) == [extra[0].0] + Keys(t);
      if k == extra[0].0 {
        assert !HasKey(t, k) by {
          forall j | 0 <= j < |t|
            ensures Keys(t)[j] != k
          {
            assert t[j] == extra[j + 1];
          }
        }
      }
    }
  }

  /** A client object that names `total_size` replaces the computed total in
      what the backend receives; one that names no computed field keeps all three. */
  lemma ClientMetadataOverrides(count: nat, total: nat, now: string, f: Fields, k: string)
    requires UniqueKeys(f)
    ensures var m := PayloadMetadata(count, total, now, Parsed(JObj(f)));
      Lookup(m, k) == if HasKey(f, k) then Lookup(f, k)
        else if k == "total_images" then Some(JNum(Fin(count as real)))
        else if k == "total_size" then Some(JNum(Fin(total as real)))
        else if k == "timestamp" then Some(JStr(now))
        else None
  {
    MergeLookup(MetadataBase(count, total, now), f, k);
    BaseLookup(count, total, now, k);
  }

  /** `POST`: the rate limit, the image count, each image in order (its
      checks, then reading its bytes), the limit field, then the client's
      metadata; an accepted batch forwards every image, in order, with its
      renamed file name, the sum of their sizes and the merged metadata. */
  method Post(req: PostRequest) returns (resp: Response)
    ensures req.rateLimited ==> resp == Reject(429, "Demasiadas peticiones")
    ensures !req.rateLimited && |req.images| == 0 ==> resp == Reject(400, "Al menos una imagen es requerida")
    ensures !req.rateLimited && |req.images| > MaxImages ==> resp == Reject(400, "Máximo 10 imágenes permitidas")
    ensures !req.rateLimited && 0 < |req.images| <= MaxImages && FirstRejected(req.images).Some?
      ==> resp == RejectionOf(req.images, FirstRejected(req.images).value)
    ensures !req.rateLimited && 0 < |req.images| <= MaxImages && FirstRejected(req.images).None?
      && LimitOutOfRange(ParseLimit(req.limitField))
      ==> resp == Reject(400, "limit_thinking_ai debe estar entre 0 y 100")
    ensures !req.rateLimited && 0 < |req.images| <= MaxImages && FirstRejected(req.images).None?
      && !LimitOutOfRange(ParseLimit(req.limitField)) && req.metadata.Unparsable?
      ==> resp == MetadataFailure(req.metadata.message)
    ensures resp.Forward? <==> PostAccepted(req)
    ensures resp.Forward? ==> |resp.files| == |req.images| && resp.limit == ParseLimit(req.limitField)
    ensures resp.Forward? ==>
      forall i :: 0 <= i < |req.images| ==> req.images[i].FilePart? && resp.files[i] == Accept(req.images[i])
    ensures resp.Forward? ==> resp.totalSize == TotalSize(resp.files) && resp.totalSize <= MaxImages * MaxSize
    ensures resp.Forward? ==>
      resp.metadata == PayloadMetadata(|req.images|, resp.totalSize, req.now, req.metadata)
  {
    if req.rateLimited {
      return Reject(429, "Demasiadas peticiones");
    }
    if |req.images| == 0 {
      return Reject(400, "Al menos una imagen es requerida");
    }
    if |req.images| > MaxImages {
      return Reject(400, "Máximo 10 imágenes permitidas");
    }
    resp := PostImages(req.images, req.limitField, req.metadata, req.now);
  }

  /** The part of `POST` after the count checks: each image in order, then
      the limit field, then the metadata, then the forwarded batch. */
  method PostImages(images: seq<Part>, limitField: Option<string>, metadata: MetadataField, now: string)
    returns (resp: Response)
    requires |images| <= MaxImages
    ensures FirstRejected(images).Some? ==> resp == RejectionOf(images, FirstRejected(images).value)
    ensures FirstRejected(images).None? && LimitOutOfRange(ParseLimit(limitField))
      ==> resp == Reject(400, "limit_thinking_ai debe estar entre 0 y 100")
    ensures FirstRejected(images).None? && !LimitOutOfRange(ParseLimit(limitField)) && metadata.Unparsable?
      ==> resp == MetadataFailure(metadata.message)
    ensures resp.Forward? <==>
      (FirstRejected(images).None? && !LimitOutOfRange(ParseLimit(limitField)) && !metadata.Unparsable?)
    ensures resp.Forward? ==> |resp.files| == |images| && resp.limit == ParseLimit(limitField)
    ensures resp.Forward? ==>
      forall i :: 0 <= i < |images| ==> images[i].FilePart? && resp.files[i] == Accept(images[i])
    ensures resp.Forward? ==> resp.totalSize == TotalSize(resp.files) && resp.totalSize <= MaxImages * MaxSize
    ensures resp.Forward? ==> resp.metadata == PayloadMetadata(|images|, resp.totalSize, now, metadata)
  {
    var limit := ParseLimit(limitField);
    var rejected, files := CheckImages(images);
    if rejected.Some? {
      return RejectionOf(images, rejected.value);
    }
    if LimitOutOfRange(limit) {
      return Reject(400, "limit_thinking_ai debe estar entre 0 y 100");
    }
    var total := SumSizes(files);
    if metadata.Unparsable? {
      return MetadataFailure(metadata.message);
    }
    BatchSizeBound(files);
    return Forward(files, total, limit, PayloadMetadata(|files|, total, now, metadata));
  }

  /** A batch of at most `MaxImages` images of at most `MaxSize` bytes each. */
  lemma BatchSizeBound(files: seq<ImageData>)
    requires |files| <= MaxImages
    requires forall i :: 0 <= i < |files| ==> files[i].size <= MaxSize
    ensures TotalSize(files) <= MaxImages * MaxSize
  {
    TotalSizeBound(files);
    assert |files| * MaxSize <= MaxImages * MaxSize;
  }

  /** Two batches that differ only in an image after the first rejected one get the same answer. */
  lemma {:induction false} LaterImagesIgnored(a: seq<Part>, b: seq<Part>, k: nat)
    requires k < |a| && k < |b| && a[..k + 1] == b[..k + 1]
    requires ImageProblem(a[k]).Some?
    ensures FirstRejected(a) == FirstRejected(b)
  {
    assert forall j :: 0 <= j <= k ==> a[j] == a[..k + 1][j] == b[..k + 1][j] == b[j];
    var ra := FirstRejected(a);
    var rb := FirstRejected(b);
    assert ra.Some? && ra.value <= k;
    assert rb.Some? && rb.value <= k;
  }

  // ---- PUT ----

  /** JavaScript truthiness of a decoded JSON field; a missing field is `undefined`. */
  predicate TruthyValue(v: Option<J>)
  {
    match v
    case None => false
    case Some(JNull) => false
    case Some(JBool(b)) => b
    case Some(JNum(n)) => n != NaN && n != Fin(0.0)
    case Some(JStr(s)) => s != ""
    case Some(_) => true
  }

  /** `/(\.\.\/|\.\.\\|\/\/|\\\\)/.test(path)`. */
  predicate Dangerous(path: string)
  {
    Contains(path, "../") || Contains(path, "..\\") || Contains(path, "//") || Contains(path, "\\\\")
  }

  datatype PutOutcome = PutReject(status: int, error: string) | PutForward(url: string)

  /** `PUT`. `toText` is `String(x)`, which the regular expression applies to a
      non-string `path_dir`. */
  function Put(rateLimited: bool, pathDir: Option<J>, modelType: Option<J>, correctedData: Option<J>,
               toText: J -> string): (r: PutOutcome)
    ensures rateLimited ==> r == PutReject(429, "Demasiadas peticiones")
    ensures !rateLimited && !TruthyValue(pathDir) ==> r == PutReject(400, "path_dir es requerido")
    ensures !rateLimited && TruthyValue(pathDir) && (!TruthyValue(modelType) || !TruthyValue(correctedData))
      ==> r == PutReject(400, "model_type y corrected_data son requeridos")
    ensures r.PutForward? <==>
      (!rateLimited && TruthyValue(pathDir) && TruthyValue(modelType)
       && TruthyValue(correctedData) && !Dangerous(PathText(pathDir.value, toText)))
    ensures r.PutForward? ==> r.url == "/correct/?path_dir=" + PathText(pathDir.value, toText)
    ensures r.PutReject? ==> r.status == 429 || r.status == 400
  {
    if rateLimited then PutReject(429, "Demasiadas peticiones")
    else if !TruthyValue(pathDir) then PutReject(400, "path_dir es requerido")
    else if !TruthyValue(modelType) || !TruthyValue(correctedData) then
      PutReject(400, "model_type y corrected_data son requeridos")
    else if Dangerous(PathText(pathDir.value, toText)) then PutReject(400, "path_dir contiene patrones peligrosos")
    else PutForward("/correct/?path_dir=" + PathText(pathDir.value, toText))
  }

  function PathText(v: J, toText: J -> string): string
  {
    if v.JStr? then v.s else toText(v)
  }

  /** A forwarded path never holds `../`, `..\`, `//` or `\\` anywhere. */
  lemma {:induction false} ForwardedPathIsSafe(path: string, i: nat)
    requires !Dangerous(path)
    requires i + 3 <= |path|
    ensures path[i..i + 3] != "../" && path[i..i + 3] != "..\\"
    ensures path[i..i + 2] != "//" && path[i..i + 2] != "\\\\"
  {
    if path[i..i + 3] == "../" { ContainsAt(path, "../", i); }
    if path[i..i + 3] == "..\\" { ContainsAt(path, "..\\", i); }
    if path[i..i + 2] == "//" { ContainsAt(path, "//", i); }
    if path[i..i + 2] == "\\\\" { ContainsAt(path, "\\\\", i); }
  }
}
