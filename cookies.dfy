/** The cookie loader (`script.py`): normalises browser-exported cookie
    objects into the shape the automation engine accepts. Reading the file
    and decoding its JSON are I/O; the model starts from their outcome. */
module CookieLoader {
  import opened Wrappers

  /** A value as the JSON decoder produces it (a JSON integer and a JSON
      fraction decode to different Python types). */
  datatype Json =
    | Null
    | Bool(b: bool)
    | Int(i: int)
    | Float(f: real)
    | Str(s: string)
    | Arr(items: seq<Json>)
    | Obj(fields: map<string, Json>)

  /** The exceptions the conversion can raise. */
  datatype Error = KeyError(key: string) | TypeError | ValueError | OverflowError

  /** What Python's `float()` makes of a string: a finite number, an
      infinity, a NaN, or a `ValueError` for text it does not accept. */
  datatype FloatParse = Finite(value: real) | Infinite | NotANumber | Invalid

  /** The outcome of opening the cookie file and decoding it. */
  datatype FileRead = FileNotFound | InvalidJson | Decoded(json: Json)

  /** A converted cookie: the dictionary handed to the browser context. */
  type Cookie = map<string, Json>

  /** The keys every converted cookie has. */
  const CookieKeys: set<string> := {"name", "value", "domain", "path", "secure", "httpOnly", "sameSite"}

  /** Python's `int()` of a float: truncation toward zero. */
  function Truncate(x: real): (n: int)
    ensures 0.0 <= x ==> 0 <= n && n as real <= x < n as real + 1.0
    ensures x < 0.0 ==> n <= 0 && n as real - 1.0 < x <= n as real
  {
    if 0.0 <= x then x.Floor else -((-x).Floor)
  }

  /** `raw.get(key, default)`. */
  function GetOr(fields: map<string, Json>, key: string, default: Json): Json {
    if key in fields then fields[key] else default
  }

  /** `samesite_map.get(raw.get("sameSite"), "None")`: the table maps
      "no_restriction", "lax", "strict" and an absent or null value; the
      lookup is case-sensitive, any other hashable value falls back to
      "None", and a list or object is unhashable and raises `TypeError`. */
  function SameSite(fields: map<string, Json>): (r: Result<string, Error>)
    ensures r.Success? ==> r.value == "None" || r.value == "Lax" || r.value == "Strict"
    ensures r.Failure? <==> "sameSite" in fields && (fields["sameSite"].Arr? || fields["sameSite"].Obj?)
    ensures r.Failure? ==> r.error == TypeError
    ensures r == Success("Lax") <==> "sameSite" in fields && fields["sameSite"] == Str("lax")
    ensures r == Success("Strict") <==> "sameSite" in fields && fields["sameSite"] == Str("strict")
  {
    match GetOr(fields, "sameSite", Null)
    case Null => Success("None")
    case Str(s) =>
      if s == "no_restriction" then Success("None")
      else if s == "lax" then Success("Lax")
      else if s == "strict" then Success("Strict")
      else Success("None")
    case Arr(_) => Failure(TypeError)
    case Obj(_) => Failure(TypeError)
    case _ => Success("None")
  }

  /** `int(float(v))`, the conversion of `expirationDate`. Strings go through
      `parseFloat`, which stands for Python's parser of float literals. */
  function ExpiryOf(v: Json, parseFloat: string -> FloatParse): (r: Result<int, Error>)
    ensures v.Int? ==> r == Success(v.i)
    ensures v.Bool? ==> r == Success(if v.b then 1 else 0)
    ensures v.Float? ==> r == Success(Truncate(v.f))
    ensures v.Str? && parseFloat(v.s).Finite? ==> r == Success(Truncate(parseFloat(v.s).value))
    ensures v.Str? && parseFloat(v.s).Infinite? ==> r == Failure(OverflowError)
    ensures v.Str? && (parseFloat(v.s).NotANumber? || parseFloat(v.s).Invalid?) ==> r == Failure(ValueError)
    ensures v.Null? || v.Arr? || v.Obj? ==> r == Failure(TypeError)
    ensures r.Failure? ==> r.error == TypeError || r.error == ValueError || r.error == OverflowError
  {
    match v
    case Null => Failure(TypeError)
    case Bool(b) => Success(if b then 1 else 0)
    case Int(i) => Success(i)
    case Float(f) => Success(Truncate(f))
    case Str(s) =>
      (match parseFloat(s)
       case Finite(x) => Success(Truncate(x))
       case Infinite => Failure(OverflowError)
       case NotANumber => Failure(ValueError)
       case Invalid => Failure(ValueError))
    case Arr(_) => Failure(TypeError)
    case Obj(_) => Failure(TypeError)
  }

  /** The required keys are all present. */
  predicate HasRequired(fields: map<string, Json>) {
    "name" in fields && "value" in fields && "domain" in fields
  }

  /** `convert_cookie`. A value that is not an object cannot be indexed by a
      key and raises `TypeError`; the required keys are looked up in the order
      name, value, domain, and the first missing one raises `KeyError`; the
      same-site lookup and the expiry conversion come after them. */
  function ConvertCookie(raw: Json, parseFloat: string -> FloatParse): (r: Result<Cookie, Error>)
    ensures !raw.Obj? ==> r == Failure(TypeError)
    ensures raw.Obj? && "name" !in raw.fields ==> r == Failure(KeyError("name"))
    ensures raw.Obj? && "name" in raw.fields && "value" !in raw.fields ==> r == Failure(KeyError("value"))
    ensures raw.Obj? && "name" in raw.fields && "value" in raw.fields && "domain" !in raw.fields
            ==> r == Failure(KeyError("domain"))
    ensures r.Failure? && r.error.KeyError? ==> raw.Obj? && r.error.key !in raw.fields
    ensures r.Failure? && r.error.KeyError? ==> raw.Obj? && !HasRequired(raw.fields)
    ensures raw.Obj? && HasRequired(raw.fields) && SameSite(raw.fields).Failure?
            ==> r == Failure(SameSite(raw.fields).error)
    ensures raw.Obj? && HasRequired(raw.fields) && SameSite(raw.fields).Success?
            && "expirationDate" in raw.fields
            && ExpiryOf(raw.fields["expirationDate"], parseFloat).Failure?
            ==> r == Failure(ExpiryOf(raw.fields["expirationDate"], parseFloat).error)
    ensures raw.Obj? && HasRequired(raw.fields) ==>
              (r.Success? <==> SameSite(raw.fields).Success?
                               && ("expirationDate" in raw.fields ==>
                                     ExpiryOf(raw.fields["expirationDate"], parseFloat).Success?))
    ensures r.Success? ==>
              && raw.Obj? && HasRequired(raw.fields)
              && r.value.Keys == CookieKeys + (if "expirationDate" in raw.fields then {"expires"} else {})
              && r.value["name"] == raw.fields["name"]
              && r.value["value"] == raw.fields["value"]
              && r.value["domain"] == raw.fields["domain"]
              && r.value["path"] == GetOr(raw.fields, "path", Str("/"))
              && r.value["secure"] == GetOr(raw.fields, "secure", Bool(false))
              && r.value["httpOnly"] == GetOr(raw.fields, "httpOnly", Bool(false))
              && r.value["sameSite"] == Str(SameSite(raw.fields).value)
              && ("expirationDate" in raw.fields ==>
                    r.value["expires"] == Int(ExpiryOf(raw.fields["expirationDate"], parseFloat).value))
  {
    if !raw.Obj? then Failure(TypeError)
    else
      var f := raw.fields;
      if "name" !in f then Failure(KeyError("name"))
      else if "value" !in f then Failure(KeyError("value"))
      else if "domain" !in f then Failure(KeyError("domain"))
      else
        match SameSite(f)
        case Failure(e) => Failure(e)
        case Success(sameSite) =>
          var cookie := map[
            "name" := f["name"],
            "value" := f["value"],
            "domain" := f["domain"],
            "path" := GetOr(f, "path", Str("/")),
            "secure" := GetOr(f, "secure", Bool(false)),
            "httpOnly" := GetOr(f, "httpOnly", Bool(false)),
            "sameSite" := Str(sameSite)];
          if "expirationDate" in f then
            match ExpiryOf(f["expirationDate"], parseFloat)
            case Failure(e) => Failure(e)
            case Success(n) => Success(cookie["expires" := Int(n)])
          else Success(cookie)
  }

  /** The list comprehension `[convert_cookie(c) for c in raw_cookies]`: the
      conversions in order, or the exception of the first element that
      raises one. */
  function ConvertAll(raws: seq<Json>, parseFloat: string -> FloatParse): (r: Result<seq<Cookie>, Error>)
    ensures r.Success? ==>
              |r.value| == |raws|
              && forall i :: 0 <= i < |raws| ==> ConvertCookie(raws[i], parseFloat) == Success(r.value[i])
    ensures r.Failure? ==>
              exists i :: 0 <= i < |raws| && ConvertCookie(raws[i], parseFloat) == Failure(r.error)
                          && forall j :: 0 <= j < i ==> ConvertCookie(raws[j], parseFloat).Success?
    decreases |raws|
  {
    if raws == [] then Success([])
    else
      match ConvertCookie(raws[0], parseFloat)
      case Failure(e) => Failure(e)
      case Success(c) =>
        match ConvertAll(raws[1..], parseFloat)
        case Failure(e) => Failure(e)
        case Success(cs) => Success([c] + cs)
  }

  /** `load_and_convert_cookies` after the decode: a top level that is not a
      list raises `ValueError` (not caught); a missing required key in the
      first element that fails makes the whole result empty; any other
      exception escapes. */
  function LoadCookies(decoded: Json, parseFloat: string -> FloatParse): (r: Result<seq<Cookie>, Error>)
    ensures !decoded.Arr? ==> r == Failure(ValueError)
    ensures r.Failure? ==> !r.error.KeyError?
    ensures r.Success? ==>
              decoded.Arr?
              && (r.value == []
                  || (|r.value| == |decoded.items|
                      && forall i :: 0 <= i < |decoded.items| ==>
                           ConvertCookie(decoded.items[i], parseFloat) == Success(r.value[i])))
    ensures decoded.Arr? && (forall i :: 0 <= i < |decoded.items| ==> ConvertCookie(decoded.items[i], parseFloat).Success?)
            ==> r.Success? && |r.value| == |decoded.items|
    ensures decoded.Arr? && ConvertAll(decoded.items, parseFloat).Failure?
            && !ConvertAll(decoded.items, parseFloat).error.KeyError?
            ==> r == Failure(ConvertAll(decoded.items, parseFloat).error)
    ensures r == Success([]) ==>
              decoded.items == []
              || (ConvertAll(decoded.items, parseFloat).Failure?
                  && ConvertAll(decoded.items, parseFloat).error.KeyError?)
  {
    if !decoded.Arr? then Failure(ValueError)
    else
      match ConvertAll(decoded.items, parseFloat)
      case Success(cookies) => Success(cookies)
      case Failure(KeyError(_)) => Success([])
      case Failure(e) => Failure(e)
  }

  /** The whole of `load_and_convert_cookies`: a missing file and malformed
      JSON are reported and give the empty list. */
  function LoadAndConvertCookies(read: FileRead, parseFloat: string -> FloatParse): (r: Result<seq<Cookie>, Error>)
    ensures read.FileNotFound? || read.InvalidJson? ==> r == Success([])
    ensures read.Decoded? ==> r == LoadCookies(read.json, parseFloat)
  {
    match read
    case FileNotFound => Success([])
    case InvalidJson => Success([])
    case Decoded(json) => LoadCookies(json, parseFloat)
  }

  /** When the first element that fails lacks a required key, the result is
      the empty list, whatever the other elements are. */
  lemma MissingKeyEmptiesAll(raws: seq<Json>, parseFloat: string -> FloatParse, i: int)
    requires 0 <= i < |raws|
    requires forall j :: 0 <= j < i ==> ConvertCookie(raws[j], parseFloat).Success?
    requires raws[i].Obj? && !HasRequired(raws[i].fields)
    ensures LoadCookies(Arr(raws), parseFloat) == Success([])
  {
    var all := ConvertAll(raws, parseFloat);
    assert ConvertCookie(raws[i], parseFloat).Failure?;
    if all.Failure? {
      var k :| 0 <= k < |raws| && ConvertCookie(raws[k], parseFloat) == Failure(all.error)
               && forall j :: 0 <= j < k ==> ConvertCookie(raws[j], parseFloat).Success?;
      assert k == i;
    }
  }

  /** Conversely, a non-empty list loads as `[]` only when its first failing
      element is an object that lacks a required key; every element before
      it converts. */
  lemma EmptyOnlyFromMissingKey(raws: seq<Json>, parseFloat: string -> FloatParse)
    requires raws != [] && LoadCookies(Arr(raws), parseFloat) == Success([])
    ensures exists i :: 0 <= i < |raws| && raws[i].Obj? && !HasRequired(raws[i].fields)
                        && forall j :: 0 <= j < i ==> ConvertCookie(raws[j], parseFloat).Success?
  {
    var all := ConvertAll(raws, parseFloat);
    var i :| 0 <= i < |raws| && ConvertCookie(raws[i], parseFloat) == Failure(all.error)
             && forall j :: 0 <= j < i ==> ConvertCookie(raws[j], parseFloat).Success?;
    assert raws[i].Obj? && !HasRequired(raws[i].fields);
  }

  /** The example of a browser export: `no_restriction` becomes "None" and
      1700000000.9 becomes the integer 1700000000. */
  lemma ExportedCookieExample(parseFloat: string -> FloatParse)
    ensures var raw := Obj(map["name" := Str("a"), "value" := Str("b"), "domain" := Str("d"),
                               "sameSite" := Str("no_restriction"),
                               "expirationDate" := Float(1700000000.9)]);
            var r := ConvertCookie(raw, parseFloat);
            r.Success? && r.value["sameSite"] == Str("None") && r.value["expires"] == Int(1700000000)
              && r.value["path"] == Str("/") && r.value["secure"] == Bool(false)
  {
  }

  /** The lookup is case-sensitive: "Lax" is not in the table and falls back
      to "None", as does an absent value. */
  lemma SameSiteCaseSensitive()
    ensures SameSite(map["sameSite" := Str("Lax")]) == Success("None")
    ensures SameSite(map[]) == Success("None")
  {
  }
}
