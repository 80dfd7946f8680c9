/**
 * The two pure parts of the parser module: `JSONParser.extract_value`, which
 * follows a path of keys and indices into decoded JSON, and `create_parser`,
 * which picks a parser from a content-type name.
 */
module Parsing {
  import opened Wrappers
  import opened Ascii

  /** A decoded JSON value, as `json.loads` returns it; object keys are strings. */
  datatype Json =
    | Null
    | Bool(b: bool)
    | Number(n: int)
    | Str(s: string)
    | Arr(items: seq<Json>)
    | Obj(fields: map<string, Json>)

  /** One element of an extraction path: a dictionary key or a list index. */
  datatype PathKey = Key(name: string) | Index(i: int)

  /** The one exception `extract_value` lets escape: Python's `IndexError`. */
  datatype ExtractError = IndexError(index: int, length: nat)

  /** What one key does to the current value: descend, give up with `None`, or raise. */
  datatype Step = Descend(child: Json) | Stop | Raise(error: ExtractError)

  /**
   * One iteration of the loop of `extract_value`. A present dictionary key
   * descends. A list descends on an integer index below its length, and
   * Python's indexing counts a negative index from the end, so an index below
   * `-len` raises. Everything else (a missing key, a key of the wrong kind,
   * an index at or past the end, a scalar or `null`) stops with `None`.
   */
  function StepInto(data: Json, key: PathKey): (s: Step)
    // the only way to raise is a negative index that reaches past the front of a list
    ensures s.Raise? <==> data.Arr? && key.Index? && key.i < -|data.items|
    ensures s.Raise? ==> s.error == IndexError(key.i, |data.items|)
    // a dictionary is entered exactly when the key is one of its keys
    ensures data.Obj? ==> (s.Descend? <==> key.Key? && key.name in data.fields)
    ensures data.Obj? && s.Descend? ==> s.child == data.fields[key.name]
    // a list is entered exactly for the indices Python accepts
    ensures data.Arr? ==> (s.Descend? <==> key.Index? && -|data.items| <= key.i < |data.items|)
    ensures data.Arr? && s.Descend? ==> s.child in data.items
    // scalars and null are never entered
    ensures !data.Obj? && !data.Arr? ==> s == Stop
  {
    match data
    case Obj(fields) =>
      if key.Key? && key.name in fields then Descend(fields[key.name]) else Stop
    case Arr(items) =>
      if key.Index? && key.i < |items| then
        if key.i >= 0 then Descend(items[key.i])
        else if key.i >= -|items| then Descend(items[|items| + key.i])
        else Raise(IndexError(key.i, |items|))
      else Stop
    case _ => Stop
  }

  /** `extract_value` as a recursive definition: follow `path` from `data`. */
  function Walk(data: Json, path: seq<PathKey>): (r: Result<Json, ExtractError>)
    ensures path == [] ==> r == Ok(data)
    decreases |path|
  {
    if path == [] then Ok(data)
    else
      match StepInto(data, path[0])
      case Descend(child) => Walk(child, path[1..])
      case Stop => Ok(Null)
      case Raise(e) => Err(e)
  }

  /**
   * `JSONParser.extract_value` on already decoded content: the loop over the
   * path computes exactly `Walk`.
   */
  method ExtractValue(data: Json, path: seq<PathKey>) returns (r: Result<Json, ExtractError>)
    ensures r == Walk(data, path)
  {
    var current := data;
    var i := 0;
    while i < |path|
      invariant 0 <= i <= |path|
      invariant Walk(data, path) == Walk(current, path[i..])
    {
      assert path[i..][1..] == path[i + 1..];
      match StepInto(current, path[i]) {
        case Descend(child) =>
          current := child;
        case Stop =>
          return Ok(Null);
        case Raise(e) =>
          return Err(e);
      }
      i := i + 1;
    }
    r := Ok(current);
  }

  /** Following `p + q` is following `p` and then `q` from where `p` ended. */
  lemma {:induction false} WalkAppend(data: Json, p: seq<PathKey>, q: seq<PathKey>)
    ensures Walk(data, p + q) ==
      match Walk(data, p)
      case Ok(v) => Walk(v, q)
      case Err(e) => Err(e)
    decreases |p|
  {
    if p == [] {
      assert p + q == q;
    } else {
      assert (p + q)[0] == p[0];
      assert (p + q)[1..] == p[1..] + q;
      match StepInto(data, p[0])
      case Descend(child) =>
        WalkAppend(child, p[1..], q);
      case Stop =>
        NullAbsorbs(q);
      case Raise(e) =>
    }
  }

  /** Once the walk is at `null`, every further key gives `None` as well. */
  lemma NullAbsorbs(path: seq<PathKey>)
    ensures Walk(Null, path) == Ok(Null)
  {
  }

  /**
   * A path of non-negative indices and keys never raises: `IndexError` needs
   * a negative index.
   */
  lemma {:induction false} NoIndexErrorWithoutNegativeIndex(data: Json, path: seq<PathKey>)
    requires forall k :: 0 <= k < |path| && path[k].Index? ==> path[k].i >= 0
    ensures Walk(data, path).Ok?
    decreases |path|
  {
    if path != [] {
      assert path[0].Index? ==> path[0].i >= 0;
      match StepInto(data, path[0])
      case Descend(child) =>
        assert forall k :: 0 <= k < |path[1..]| ==> path[1..][k] == path[k + 1];
        NoIndexErrorWithoutNegativeIndex(child, path[1..]);
      case Stop =>
    }
  }

  /** The raised error names an index of the path and the length it missed. */
  lemma {:induction false} IndexErrorComesFromPath(data: Json, path: seq<PathKey>)
    requires Walk(data, path).Err?
    ensures exists k :: 0 <= k < |path| && path[k] == Index(Walk(data, path).error.index)
    ensures Walk(data, path).error.index + Walk(data, path).error.length < 0
    decreases |path|
  {
    match StepInto(data, path[0])
    case Descend(child) =>
      IndexErrorComesFromPath(child, path[1..]);
      var k :| 0 <= k < |path[1..]| && path[1..][k] == Index(Walk(child, path[1..]).error.index);
      assert path[k + 1] == path[1..][k];
    case Raise(e) =>
      assert path[0] == Index(e.index);
  }

  /** The path of keys `names`, nested as objects around `leaf`. */
  function Nest(names: seq<string>, leaf: Json): Json
  {
    if names == [] then leaf else Obj(map[names[0] := Nest(names[1..], leaf)])
  }

  function Keys(names: seq<string>): (path: seq<PathKey>)
    ensures |path| == |names|
    ensures forall k :: 0 <= k < |names| ==> path[k] == Key(names[k])
  {
    if names == [] then [] else [Key(names[0])] + Keys(names[1..])
  }

  /** Extracting the keys of a nesting gives back what was nested. */
  lemma {:induction false} WalkNest(names: seq<string>, leaf: Json)
    ensures Walk(Nest(names, leaf), Keys(names)) == Ok(leaf)
  {
    if names != [] {
      assert Keys(names)[1..] == Keys(names[1..]);
      WalkNest(names[1..], leaf);
    }
  }

  /** Python's two ways to reach the same list element: `items[k]` and `items[k - len]`. */
  lemma NegativeIndexFromEnd(items: seq<Json>, k: int)
    requires 0 <= k < |items|
    ensures Walk(Arr(items), [Index(k - |items|)]) == Ok(items[k])
    ensures Walk(Arr(items), [Index(k)]) == Ok(items[k])
  {
    assert [Index(k - |items|)][1..] == [];
    assert [Index(k)][1..] == [];
  }

  /** Indexing at or past the end of a list gives `None`, not `IndexError`. */
  lemma PastTheEndIsNone(items: seq<Json>, k: int, rest: seq<PathKey>)
    requires k >= |items|
    ensures Walk(Arr(items), [Index(k)] + rest) == Ok(Null)
  {
    assert ([Index(k)] + rest)[0] == Index(k);
  }

  /**
   * A key that holds `null` cannot be told apart from a key that is absent:
   * both extract as `None`.
   */
  lemma NullIsAbsent(fields: map<string, Json>, name: string, rest: seq<PathKey>)
    ensures Walk(Obj(fields[name := Null]), [Key(name)] + rest)
         == Walk(Obj(fields - {name}), [Key(name)] + rest)
         == Ok(Null)
  {
    var path := [Key(name)] + rest;
    assert path[0] == Key(name) && path[1..] == rest;
    NullAbsorbs(rest);
  }

  /** The parsers `create_parser` can build; an HTML parser keeps its BeautifulSoup backend name. */
  datatype ParserKind = HtmlParser(parserType: string) | JsonParser | XmlParser

  /** The content types that select the HTML parser; each is also passed on as its backend. */
  const HtmlTypes: seq<string> := ["html", "html.parser", "lxml", "html5lib"]

  /**
   * `create_parser`: the lower-cased content type selects the parser; an
   * unknown one raises `ValueError` with the lower-cased name in its message.
   */
  function CreateParser(contentType: string): (r: Result<ParserKind, string>)
    ensures r.Ok? <==> Lower(contentType) in HtmlTypes + ["json", "xml"]
    ensures r.Ok? && r.value.HtmlParser? <==> Lower(contentType) in HtmlTypes
    ensures r.Ok? && r.value.HtmlParser? ==> r.value.parserType == Lower(contentType)
    ensures r == Ok(JsonParser) <==> Lower(contentType) == "json"
    ensures r == Ok(XmlParser) <==> Lower(contentType) == "xml"
    ensures r.Err? ==> r.error == "Unsupported content type: " + Lower(contentType)
  {
    var name := Lower(contentType);
    if name in HtmlTypes then Ok(HtmlParser(name))
    else if name == "json" then Ok(JsonParser)
    else if name == "xml" then Ok(XmlParser)
    else Err("Unsupported content type: " + name)
  }

  /** The content-type name that stands for a parser. */
  function ParserName(kind: ParserKind): string
  {
    match kind
    case HtmlParser(t) => t
    case JsonParser => "json"
    case XmlParser => "xml"
  }

  /** The choice does not depend on letter case. */
  lemma CreateParserIgnoresCase(contentType: string)
    ensures CreateParser(Lower(contentType)) == CreateParser(contentType)
  {
    LowerIsLower(contentType);
  }

  /** A parser that was created can be created again from its own name. */
  lemma CreateParserFromName(contentType: string)
    requires CreateParser(contentType).Ok?
    ensures CreateParser(ParserName(CreateParser(contentType).value)) == CreateParser(contentType)
  {
    LowerIsLower(contentType);
  }

  /** An upper-case "JSON" selects the JSON parser. */
  lemma UpperCaseJson()
    ensures CreateParser("JSON") == Ok(JsonParser)
  {
    assert Lower("JSON") == "json";
  }

  /** "LXML" selects the HTML parser with backend "lxml". */
  lemma UpperCaseLxml()
    ensures CreateParser("LXML") == Ok(HtmlParser("lxml"))
  {
    assert Lower("LXML") == "lxml";
  }

  /** "yaml" is refused with the lower-cased name in the message. */
  lemma UnsupportedYaml()
    ensures CreateParser("yaml") == Err("Unsupported content type: yaml")
  {
    assert Lower("yaml") == "yaml";
    assert "yaml" !in HtmlTypes && "yaml" != "json" && "yaml" != "xml";
    assert "Unsupported content type: " + "yaml" == "Unsupported content type: yaml";
  }
}
