/**
 * The structured view over one completed curl transfer (class ResponseAbstract):
 * the header-line callback that fills the header object, the body view, the
 * closed dispatch of property reads and the copy of the headers into an array.
 *
 * PHP's stdClass objects are modelled as maps from property name to value; the
 * header object holds the text of every field line and, from the status line,
 * the protocol version, the integer status code and the reason text.
 */
module Response {
  import opened Wrappers
  import opened PhpStrings

  /** A property value: text, an integer, or PHP's null. */
  datatype Value = Str(s: string) | Int(i: int) | Null

  /** A stdClass object as the map of its properties. */
  type Object = map<string, Value>

  /** What the constructor receives: a curl handle, or `false` when none could be made. */
  datatype CurlHandle = NoHandle | Handle(id: nat)

  /** The body view: raw content, its length in bytes, and its content type (or null). */
  datatype Body = Body(content: string, length: nat, contentType: Value)

  /** What reading a property of a response yields. */
  datatype Property =
    | BodyProp(body: Body)
    | InfoProp(info: Object)
    | JsonProp(source: string, assoc: bool)  // json_decode(source, assoc): the decoding itself is not modelled
    | ErrorProp(error: Object)
    | HeadersProp(headers: Object)
    | HeadersArrayProp(entries: map<string, Value>)
    | PhpFalse

  const HTTP_VERSION := "httpversion"
  const STATUS_CODE := "statuscode"
  const STATUS_TEXT := "statustext"

  /** The property names the response answers; every other name reads as `false`. */
  const PROPERTY_NAMES: set<string> := {"body", "info", "json", "json_array", "error", "headers", "headers_array"}

  /** The header name a field line is stored under. */
  function FieldName(raw: string): string
  {
    Trim(ToLower(raw))
  }

  predicate StartsWithHttp(line: string)
  {
    |line| >= 4 && line[..4] == "HTTP"
  }

  /** How the callback reads one raw line. */
  datatype LineKind =
    | FieldLine(name: string, value: string)  // the text before and after the first colon
    | StatusLine(parts: seq<string>)          // the line cut at its first two spaces
    | OtherLine

  /**
   * A line with a colon is a field line and takes precedence; otherwise a line
   * starting with "HTTP" is the status line; any other line is ignored.
   */
  function ReadLine(line: string): (k: LineKind)
    ensures k.StatusLine? ==> 1 <= |k.parts| <= 3
  {
    var header := Explode(':', line, 2);
    if |header| == 2 then FieldLine(header[0], header[1])
    else if StartsWithHttp(line) then StatusLine(Explode(' ', line, 3))
    else OtherLine
  }

  /**
   * The header object after storing what one line holds. A missing part of a
   * status line reads as PHP's null: a missing code gives 0 and a missing reason
   * the empty text; a first part without '/' gives a null version.
   */
  function Store(h: Object, kind: LineKind): Object
    requires kind.StatusLine? ==> 1 <= |kind.parts| <= 3
  {
    match kind
    case FieldLine(name, value) => h[FieldName(name) := Str(Trim(value))]
    case StatusLine(status) =>
      var version := Explode('/', status[0], 2);
      h[HTTP_VERSION := if |version| == 2 then Str(version[1]) else Null]
       [STATUS_CODE := Int(if |status| >= 2 then IntVal(status[1]) else 0)]
       [STATUS_TEXT := Str(if |status| == 3 then Trim(status[2]) else "")]
    case OtherLine => h
  }

  /** The header object after the callback has seen `line`. */
  function ApplyLine(h: Object, line: string): Object
  {
    Store(h, ReadLine(line))
  }

  /** The header object after the callback has seen `lines`, in order. */
  function ApplyLines(h: Object, lines: seq<string>): Object
  {
    if lines == [] then h else ApplyLine(ApplyLines(h, lines[..|lines| - 1]), lines[|lines| - 1])
  }

  /** The header names a line may store. */
  function Writes(line: string): set<string>
  {
    match ReadLine(line)
    case FieldLine(name, _) => {FieldName(name)}
    case StatusLine(_) => {HTTP_VERSION, STATUS_CODE, STATUS_TEXT}
    case OtherLine => {}
  }

  /** `o->key ?? …`: the property when it is set and not null. */
  function Coalesce(o: Object, key: string): Option<Value>
  {
    if key in o && o[key] != Null then Some(o[key]) else None
  }

  /** The body view as getBody builds it: it reads the header property `content_type`. */
  function BodyViewAsWritten(content: string, headers: Object, info: Object): (b: Body)
    ensures b.content == content && b.length == |content|
    ensures b.contentType != Null <==> Coalesce(headers, "content_type").Some? || Coalesce(info, "content_type").Some?
    ensures Coalesce(headers, "content_type").Some? ==> b.contentType == headers["content_type"]
    ensures Coalesce(headers, "content_type").None? && Coalesce(info, "content_type").Some? ==>
              b.contentType == info["content_type"]
  {
    Body(content, |content|, match Coalesce(headers, "content_type")
      case Some(v) => v
      case None => match Coalesce(info, "content_type")
        case Some(v) => v
        case None => Null)
  }

  /**
   * The body view with the content type taken from the `content-type` header the
   * callback stores, falling back to the transport's content type, then to null.
   */
  function BodyView(content: string, headers: Object, info: Object): (b: Body)
    ensures b.content == content && b.length == |content|
    ensures b.contentType != Null <==> Coalesce(headers, "content-type").Some? || Coalesce(info, "content_type").Some?
    ensures Coalesce(headers, "content-type").Some? ==> b.contentType == headers["content-type"]
    ensures Coalesce(headers, "content-type").None? && Coalesce(info, "content_type").Some? ==>
              b.contentType == info["content_type"]
  {
    Body(content, |content|, match Coalesce(headers, "content-type")
      case Some(v) => v
      case None => match Coalesce(info, "content_type")
        case Some(v) => v
        case None => Null)
  }

  class ResponseAbstract {
    const curl: nat
    var headers: Object
    var body: string
    var info: Object
    var error: Object

    /** A response over a valid handle, before the transfer has filled it. */
    constructor (curl: nat)
      ensures this.curl == curl
      ensures headers == map[] && body == "" && info == map[] && error == map[]
    {
      this.curl := curl;
      headers := map[];
      body := "";
      info := map[];
      error := map[];
    }

    /** The header callback: records one raw line and reports it consumed whole. */
    method HeaderLine(line: string) returns (consumed: nat)
      modifies this`headers
      ensures headers == ApplyLine(old(headers), line)
      ensures consumed == |line|
    {
      var header := Explode(':', line, 2);
      if |header| == 2 {
        headers := headers[FieldName(header[0]) := Str(Trim(header[1]))];
      } else if |line| >= 4 && line[..4] == "HTTP" {
        var status := Explode(' ', line, 3);
        headers := Store(headers, StatusLine(status));
      }
      consumed := |line|;
    }

    /** Reading a property by name: seven names are answered, every other one is `false`. */
    function Get(name: string): (p: Property)
      reads this
      ensures p == PhpFalse <==> name !in PROPERTY_NAMES
      ensures name == "body" ==> p == BodyProp(BodyViewAsWritten(body, headers, info))
      ensures name == "json" ==> p == JsonProp(body, false)
      ensures name == "json_array" ==> p == JsonProp(body, true)
      ensures name == "info" ==> p == InfoProp(info)
      ensures name == "error" ==> p == ErrorProp(error)
      ensures name == "headers" ==> p == HeadersProp(headers)
      ensures name == "headers_array" ==> p == HeadersArrayProp(headers)
    {
      match name
      case "body" => BodyProp(BodyViewAsWritten(body, headers, info))
      case "info" => InfoProp(info)
      case "json" => JsonProp(body, false)
      case "json_array" => JsonProp(body, true)
      case "error" => ErrorProp(error)
      case "headers" => HeadersProp(headers)
      case "headers_array" => HeadersArrayProp(headers)
      case _ => PhpFalse
    }

    /** Copies the properties of the header object, one by one, into an array. */
    method ResponseHeadersArray(props: Object) returns (arr: map<string, Value>)
      ensures arr.Keys == props.Keys
      ensures forall k :: k in props ==> arr[k] == props[k]
    {
      arr := map[];
      var todo := props.Keys;
      while todo != {}
        invariant todo <= props.Keys
        invariant arr.Keys == props.Keys - todo
        invariant forall k :: k in arr ==> arr[k] == props[k]
        decreases todo
      {
        var k :| k in todo;
        arr := arr[k := props[k]];
        todo := todo - {k};
      }
    }
  }

  /** The constructor's guard: a `false` handle is refused before anything else happens. */
  method Open(curl: CurlHandle) returns (r: Result<ResponseAbstract, string>)
    ensures r.Failure? <==> curl.NoHandle?
    ensures r.Failure? ==> r.error == "no cURL handle given"
    ensures r.Success? ==> fresh(r.value) && r.value.curl == curl.id && r.value.headers == map[]
  {
    if curl.NoHandle? {
      return Failure("no cURL handle given");
    }
    var response := new ResponseAbstract(curl.id);
    return Success(response);
  }
}

/** What the header callback promises, line by line and over a whole header block. */
module HeaderLines {
  import opened PhpStrings
  import opened Response

  /** A line read as a field line: the cut is at the first colon. */
  lemma {:induction false} ReadFieldLine(name: string, value: string)
    requires ':' !in name
    ensures ReadLine(name + ":" + value) == FieldLine(name, value)
  {
    ExplodeAtFirst(':', name, value);
    var header := Explode(':', name + ":" + value, 2);
    assert header[0] == name && header[1] == value;
  }

  /** A colon-free line starting with "HTTP" is read as a status line, cut at its first two spaces. */
  lemma {:induction false} ReadStatusLine(first: string, code: string, text: string)
    requires StartsWithHttp(first) && ' ' !in first && ' ' !in code
    requires ':' !in first + " " + code + " " + text
    ensures ReadLine(first + " " + code + " " + text) == StatusLine([first, code, text])
  {
    var line := first + " " + code + " " + text;
    assert line == first + [' '] + code + [' '] + text;
    assert line[..4] == first[..4];
    ExplodeNoSeparator(':', line, 2);
    ExplodeAtFirstTwo(' ', first, code, text);
  }

  /**
   * A field line stores one property: the text before the first colon, lower-cased
   * and trimmed, maps to the trimmed text after it; a previous value is replaced.
   */
  lemma {:induction false} FieldLineStores(h: Object, name: string, value: string)
    requires ':' !in name
    ensures ApplyLine(h, name + ":" + value) == h[FieldName(name) := Str(Trim(value))]
  {
    ReadFieldLine(name, value);
  }

  /** A status line without a colon sets the version after the slash, the code and the reason text. */
  lemma {:induction false} StatusLineStores(h: Object, proto: string, version: string, code: string, text: string)
    requires StartsWithHttp(proto)
    requires '/' !in proto && ' ' !in proto && ' ' !in version && ' ' !in code
    requires ':' !in proto + "/" + version + " " + code + " " + text
    ensures ApplyLine(h, proto + "/" + version + " " + code + " " + text)
      == h[HTTP_VERSION := Str(version)][STATUS_CODE := Int(IntVal(code))][STATUS_TEXT := Str(Trim(text))]
  {
    var first := proto + "/" + version;
    assert proto + "/" + version + " " + code + " " + text == first + " " + code + " " + text;
    assert first[..4] == proto[..4];
    ReadStatusLine(first, code, text);
    ExplodeAtFirst('/', proto, version);
  }

  /** A line with no colon that does not start with "HTTP" leaves the headers alone. */
  lemma {:induction false} OtherLineIgnored(h: Object, line: string)
    requires ':' !in line && !StartsWithHttp(line)
    ensures ApplyLine(h, line) == h
  {
    ExplodeNoSeparator(':', line, 2);
    assert ReadLine(line) == OtherLine;
  }

  /** The line stores the names in Writes(line) and leaves every other property as it was. */
  lemma {:induction false} ApplyLineFrame(h: Object, line: string)
    ensures ApplyLine(h, line).Keys == h.Keys + Writes(line)
    ensures forall k :: k in h && k !in Writes(line) ==> ApplyLine(h, line)[k] == h[k]
  {
    ExplodeCutsIffSeparator(':', line);
  }

  /** Writing the same header name twice keeps only the second value. */
  lemma {:induction false} RepeatedFieldOverwrites(h: Object, n1: string, v1: string, n2: string, v2: string)
    requires ':' !in n1 && ':' !in n2 && FieldName(n1) == FieldName(n2)
    ensures ApplyLine(ApplyLine(h, n1 + ":" + v1), n2 + ":" + v2) == ApplyLine(h, n2 + ":" + v2)
  {
    FieldLineStores(h, n1, v1);
    FieldLineStores(ApplyLine(h, n1 + ":" + v1), n2, v2);
    FieldLineStores(h, n2, v2);
  }

  /** Over a header block, a field keeps the value of the last line that writes its name. */
  lemma {:induction false} LastWriteWins(h: Object, lines: seq<string>, i: nat, name: string, value: string)
    requires i < |lines| && lines[i] == name + ":" + value && ':' !in name
    requires forall j :: i < j < |lines| ==> FieldName(name) !in Writes(lines[j])
    ensures FieldName(name) in ApplyLines(h, lines)
    ensures ApplyLines(h, lines)[FieldName(name)] == Str(Trim(value))
  {
    var init := lines[..|lines| - 1];
    if i == |lines| - 1 {
      FieldLineStores(ApplyLines(h, init), name, value);
    } else {
      LastWriteWins(h, init, i, name, value);
      ApplyLineFrame(ApplyLines(h, init), lines[|lines| - 1]);
    }
  }

  /** intval on the status code of "HTTP/1.1 200 OK". */
  lemma IntValStatusExample()
    ensures IntVal("200") == 200
  {
    assert Decimal(2) == "2";
    assert Decimal(20) == "20";
    assert Decimal(200) == "200";
    IntValOfDecimal(200, "");
    assert "200" + "" == "200";
  }

  /** "HTTP/1.1 200 OK" as curl delivers it, with its line end: version "1.1", code 200, text "OK". */
  lemma StatusLineExample(h: Object)
    ensures ApplyLine(h, "HTTP/1.1 200 OK\r\n")
      == h[HTTP_VERSION := Str("1.1")][STATUS_CODE := Int(200)][STATUS_TEXT := Str("OK")]
  {
    assert "HTTP/1.1 200 OK\r\n" == "HTTP/1.1" + " " + "200" + " " + "OK\r\n";
    ReadStatusLine("HTTP/1.1", "200", "OK\r\n");
    StoreStatusExample(h);
  }

  lemma StoreStatusExample(h: Object)
    ensures Store(h, StatusLine(["HTTP/1.1", "200", "OK\r\n"]))
      == h[HTTP_VERSION := Str("1.1")][STATUS_CODE := Int(200)][STATUS_TEXT := Str("OK")]
  {
    VersionExample();
    IntValStatusExample();
    ReasonExample();
  }

  lemma VersionExample()
    ensures Explode('/', "HTTP/1.1", 2) == ["HTTP", "1.1"]
  {
    assert "HTTP/1.1" == "HTTP" + "/" + "1.1";
    ExplodeAtFirst('/', "HTTP", "1.1");
  }

  lemma ReasonExample()
    ensures Trim("OK\r\n") == "OK"
  {
    assert "OK\r\n" == "" + "OK" + "\r\n";
    TrimSurrounded("", "OK", "\r\n");
  }

  /** The split is at the first colon only: "Date: 12:00:00" stores "12:00:00" under "date". */
  lemma DateFieldExample(h: Object)
    ensures ApplyLine(h, "Date: 12:00:00") == h["date" := Str("12:00:00")]
  {
    assert "Date: 12:00:00" == "Date" + ":" + " 12:00:00";
    ReadFieldLine("Date", " 12:00:00");
    StoreDateExample(h);
  }

  lemma StoreDateExample(h: Object)
    ensures Store(h, FieldLine("Date", " 12:00:00")) == h["date" := Str("12:00:00")]
  {
    DateName();
    SpacedValueExample("12:00:00");
  }

  lemma DateName()
    ensures FieldName("Date") == "date"
  {
    assert ToLower("Date") == "date";
    FieldNameExample("Date", "date");
  }

  /** The value after the usual single space of "Name: value". */
  lemma SpacedValueExample(v: string)
    requires v == [] || (!IsTrimChar(v[0]) && !IsTrimChar(v[|v| - 1]))
    ensures Trim(" " + v) == v
  {
    assert " " + v == " " + v + [];
    TrimSurrounded(" ", v, []);
  }

  /** The stored name of a header whose lower-cased name is already trimmed. */
  lemma FieldNameExample(raw: string, lower: string)
    requires ToLower(raw) == lower
    requires lower == [] || (!IsTrimChar(lower[0]) && !IsTrimChar(lower[|lower| - 1]))
    ensures FieldName(raw) == lower
  {
    assert lower == [] + lower + [];
    TrimSurrounded([], lower, []);
  }

  /**
   * The colon test comes first: a line starting with "HTTP" that holds a colon is
   * stored as a field and sets no status property.
   */
  lemma {:induction false} StatusLineWithColonIsField(h: Object, name: string, value: string)
    requires StartsWithHttp(name) && ':' !in name
    ensures ReadLine(name + ":" + value) == FieldLine(name, value)
    ensures Writes(name + ":" + value) == {FieldName(name)}
    ensures ApplyLine(h, name + ":" + value) == h[FieldName(name) := Str(Trim(value))]
  {
    ReadFieldLine(name, value);
    FieldLineStores(h, name, value);
  }

  /** So "HTTP/1.1 200 OK: x" is stored under the name "http/1.1 200 ok". */
  lemma StatusLineAsFieldName()
    ensures FieldName("HTTP/1.1 200 OK") == "http/1.1 200 ok"
  {
    LowerStatusLine();
    FieldNameExample("HTTP/1.1 200 OK", "http/1.1 200 ok");
  }

  lemma LowerStatusLine()
    ensures ToLower("HTTP/1.1 200 OK") == "http/1.1 200 ok"
  {
  }

  /** The blank line that ends a header block changes nothing. */
  lemma BlankLineIgnored(h: Object)
    ensures ApplyLine(h, "\r\n") == h
  {
    OtherLineIgnored(h, "\r\n");
  }

  /**
   * The Content-Type response header is stored under `content-type`, so the body
   * view as getBody builds it, reading `content_type`, misses it.
   */
  lemma ContentTypeHeaderMissedAsWritten()
    ensures var h := ApplyLine(map[], "Content-Type: text/html");
      && h == map["content-type" := Str("text/html")]
      && BodyViewAsWritten("", h, map[]).contentType == Null
  {
    ContentTypeLineExample();
    var h := map["content-type" := Str("text/html")];
    assert "content_type" !in h;
  }

  lemma ContentTypeLineExample()
    ensures ApplyLine(map[], "Content-Type: text/html") == map["content-type" := Str("text/html")]
  {
    ReadContentTypeExample();
    StoreContentTypeExample();
  }

  lemma ReadContentTypeExample()
    ensures ReadLine("Content-Type: text/html") == FieldLine("Content-Type", " text/html")
  {
    assert "Content-Type: text/html" == "Content-Type" + ":" + " text/html";
    ReadFieldLine("Content-Type", " text/html");
  }

  lemma StoreContentTypeExample()
    ensures Store(map[], FieldLine("Content-Type", " text/html")) == map["content-type" := Str("text/html")]
  {
    ContentTypeName();
    SpacedValueExample("text/html");
  }

  lemma ContentTypeName()
    ensures FieldName("Content-Type") == "content-type"
  {
    assert ToLower("Content-Type") == "content-type" by {}
    FieldNameExample("Content-Type", "content-type");
  }

  /** With the key the callback actually writes, the Content-Type header decides the body's content type. */
  lemma {:induction false} ContentTypeHeaderUsed(h: Object, info: Object, content: string, name: string, value: string)
    requires ':' !in name && FieldName(name) == "content-type"
    ensures BodyView(content, ApplyLine(h, name + ":" + value), info).contentType == Str(Trim(value))
  {
    FieldLineStores(h, name, value);
  }
}
